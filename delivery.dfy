/**
 * What Plugin.input, Plugin.output and Plugin.update do to the queues of the
 * graph, as functions of the queues before the call. `qs[i]` is plugin i's
 * queue, `threaded[i]` its `threaded` flag; a plugin built with
 * threaded=False never gets a queue, and its `qs[i]` stays empty.
 */
module Delivery {
  import opened Wrappers
  import opened Nodes

  /** The Python exceptions the modelled Plugin methods raise: TypeError and ValueError from `add`, the others from routing. */
  datatype Error = TypeError | ValueError | IndexError | AttributeError

  /** Every plugin's queue after a delivery, and the exception that cut it short, if any. */
  datatype Sent<T> = Sent(queues: seq<seq<Option<T>>>, error: Option<Error>)

  /** `v`, `k` times over. */
  function Repeat<T>(v: T, k: nat): (r: seq<T>)
    ensures |r| == k && forall i :: 0 <= i < k ==> r[i] == v
  {
    if k == 0 then [] else Repeat(v, k - 1) + [v]
  }

  /**
   * Plugin.input on plugin `m`. A threaded plugin puts `v` at the back of its
   * queue; otherwise input calls update, whose first look at the queue
   * raises AttributeError because the plugin never made one, and nothing
   * is processed.
   */
  function AfterInput<T>(qs: seq<seq<Option<T>>>, threaded: seq<bool>, m: NodeId, v: Option<T>): (r: Sent<T>)
    requires |threaded| == |qs| && m < |qs|
    ensures |r.queues| == |qs|
    ensures forall k :: 0 <= k < |qs| && k != m ==> r.queues[k] == qs[k]
  {
    if threaded[m] then Sent(qs[m := qs[m] + [v]], None) else Sent(qs, Some(AttributeError))
  }

  /**
   * The broadcast loop of Plugin.output: `input(v)` on every entry of
   * `targets` in list order; the first exception ends the loop.
   */
  function AfterBroadcast<T>(qs: seq<seq<Option<T>>>, threaded: seq<bool>, targets: seq<NodeId>, v: Option<T>): (r: Sent<T>)
    requires |threaded| == |qs| && InRange(targets, |qs|)
    ensures |r.queues| == |qs|
    ensures forall k :: 0 <= k < |qs| && k !in targets ==> r.queues[k] == qs[k]
    decreases |targets|
  {
    if targets == [] then Sent(qs, None)
    else
      var s := AfterBroadcast(qs, threaded, targets[..|targets| - 1], v);
      if s.error.Some? then s else AfterInput(s.queues, threaded, targets[|targets| - 1], v)
  }

  /**
   * Plugin.output(v, channel) on a plugin whose outputs are `outs`: None
   * sends nothing; a channel of 0 or more feeds that one output, and one past
   * the end raises IndexError; a negative channel feeds every output.
   */
  function AfterOutput<T>(qs: seq<seq<Option<T>>>, threaded: seq<bool>, outs: seq<NodeId>, v: Option<T>, channel: int): (r: Sent<T>)
    requires |threaded| == |qs| && InRange(outs, |qs|)
    ensures |r.queues| == |qs|
    ensures forall k :: 0 <= k < |qs| && k !in outs ==> r.queues[k] == qs[k]
    ensures v.None? ==> r == Sent(qs, None)
    ensures v.Some? && 0 <= channel < |outs| && threaded[outs[channel]] ==>
              r == Sent(qs[outs[channel] := qs[outs[channel]] + [v]], None)
    ensures v.Some? && 0 <= channel < |outs| && !threaded[outs[channel]] ==>
              r == Sent(qs, Some(AttributeError))
    ensures v.Some? && channel >= |outs| ==> r == Sent(qs, Some(IndexError))
  {
    if v.None? then Sent(qs, None)
    else if channel >= 0 then
      if channel < |outs| then AfterInput(qs, threaded, outs[channel], v) else Sent(qs, Some(IndexError))
    else AfterBroadcast(qs, threaded, outs, v)
  }

  /** A value as `output` sends it: None sends nothing. */
  function Present<T>(v: Option<T>): seq<Option<T>>
  {
    if v.Some? then [v] else []
  }

  /**
   * The values `update` sends for `items`, in queue order: each item's
   * `process` result and then, when relaying, the item itself; None sends
   * nothing.
   */
  function Emitted<T>(process: Option<T> -> Option<T>, relay: bool, items: seq<Option<T>>): seq<Option<T>>
  {
    if items == [] then []
    else Present(process(items[0])) + (if relay then Present(items[0]) else []) + Emitted(process, relay, items[1..])
  }

  /** Each element of `s` repeated `k` times in place: what an output listed `k` times receives. */
  function Stutter<T>(s: seq<T>, k: nat): seq<T>
  {
    if s == [] then [] else Repeat(s[0], k) + Stutter(s[1..], k)
  }

  /**
   * Plugin `n` may drain its queue: its outputs exist and, when its queue
   * holds items, it is not among them. With such a self-edge every value
   * the loop emits goes back into the queue it drains, and whether the loop
   * ends depends on what `process` returns, not on the queue's length.
   */
  predicate DrainReady<T>(qs: seq<seq<Option<T>>>, threaded: seq<bool>, outs: seq<NodeId>, n: NodeId)
  {
    |threaded| == |qs| && n < |qs| && InRange(outs, |qs|) && (qs[n] != [] ==> n !in outs)
  }

  /** What the body of the update loop emits for one item `x`: its `process` result, then `x` itself when relaying. */
  function ItemEmits<T>(process: Option<T> -> Option<T>, relay: bool, x: Option<T>): seq<Option<T>>
  {
    Present(process(x)) + (if relay then Present(x) else [])
  }

  /**
   * The body of the update loop for one dequeued item `x`: output its
   * `process` result to every output and then, when relaying, `x` itself;
   * an exception from the first output skips the second.
   */
  function AfterItem<T>(qs: seq<seq<Option<T>>>, threaded: seq<bool>, outs: seq<NodeId>,
                        process: Option<T> -> Option<T>, relay: bool, x: Option<T>): (r: Sent<T>)
    requires |threaded| == |qs| && InRange(outs, |qs|)
    ensures |r.queues| == |qs|
    ensures forall k :: 0 <= k < |qs| && k !in outs ==> r.queues[k] == qs[k]
  {
    var s1 := AfterOutput(qs, threaded, outs, process(x), -1);
    if s1.error.Some? || !relay then s1 else AfterOutput(s1.queues, threaded, outs, x, -1)
  }

  /**
   * The `while not self.queue.empty()` loop of Plugin.update on plugin `n`:
   * take the front item and run the loop body on it; an exception ends the
   * loop with the rest of the queue left in place.
   */
  function AfterDrain<T>(qs: seq<seq<Option<T>>>, threaded: seq<bool>, outs: seq<NodeId>, n: NodeId,
                         process: Option<T> -> Option<T>, relay: bool): (r: Sent<T>)
    requires DrainReady(qs, threaded, outs, n)
    ensures |r.queues| == |qs|
    ensures forall k :: 0 <= k < |qs| && k != n && k !in outs ==> r.queues[k] == qs[k]
    decreases |qs[n]|
  {
    if qs[n] == [] then Sent(qs, None)
    else
      var s := AfterItem(qs[n := qs[n][1..]], threaded, outs, process, relay, qs[n][0]);
      if s.error.Some? then s else AfterDrain(s.queues, threaded, outs, n, process, relay)
  }

  /** Plugin.update on plugin `n`: a plugin without a queue raises AttributeError at once. */
  function AfterUpdate<T>(qs: seq<seq<Option<T>>>, threaded: seq<bool>, outs: seq<NodeId>, n: NodeId,
                          process: Option<T> -> Option<T>, relay: bool): (r: Sent<T>)
    requires |threaded| == |qs| && n < |qs| && InRange(outs, |qs|)
    requires threaded[n] ==> DrainReady(qs, threaded, outs, n)
    ensures |r.queues| == |qs|
    ensures forall k :: 0 <= k < |qs| && k != n && k !in outs ==> r.queues[k] == qs[k]
  {
    if !threaded[n] then Sent(qs, Some(AttributeError)) else AfterDrain(qs, threaded, outs, n, process, relay)
  }

  /** How many times plugin `m` is listed in `targets`. */
  function Count(targets: seq<NodeId>, m: NodeId): (c: nat)
    ensures c <= |targets|
    ensures c == 0 <==> m !in targets
  {
    if targets == [] then 0
    else Count(targets[..|targets| - 1], m) + (if targets[|targets| - 1] == m then 1 else 0)
  }

  /** One more pass of the broadcast loop: the prefix of length `i + 1` is the prefix of length `i` followed by `input` on target `i`. */
  lemma BroadcastStep<T>(qs: seq<seq<Option<T>>>, threaded: seq<bool>, targets: seq<NodeId>, v: Option<T>, i: nat)
    requires |threaded| == |qs| && InRange(targets, |qs|) && i < |targets|
    ensures var s := AfterBroadcast(qs, threaded, targets[..i], v);
      AfterBroadcast(qs, threaded, targets[..i + 1], v) ==
      if s.error.Some? then s else AfterInput(s.queues, threaded, targets[i], v)
  {
    assert targets[..i + 1][..i] == targets[..i];
  }

  /** Count is the multiplicity of `m` in the list, seen as a multiset. */
  lemma {:induction false} CountIsMultiplicity(targets: seq<NodeId>, m: NodeId)
    ensures Count(targets, m) == multiset(targets)[m]
  {
    if targets != [] {
      var init := targets[..|targets| - 1];
      assert targets == init + [targets[|targets| - 1]];
      CountIsMultiplicity(init, m);
    }
  }

  /**
   * Broadcasting `v` to targets that are all threaded: nothing raises, and
   * plugin `m` receives `v` once for each time it is listed.
   */
  lemma {:induction false} BroadcastAll<T>(qs: seq<seq<Option<T>>>, threaded: seq<bool>, targets: seq<NodeId>, v: Option<T>, m: NodeId)
    requires |threaded| == |qs| && InRange(targets, |qs|) && m < |qs|
    requires forall i :: 0 <= i < |targets| ==> threaded[targets[i]]
    ensures var r := AfterBroadcast(qs, threaded, targets, v);
      r.error == None && r.queues[m] == qs[m] + Repeat(v, Count(targets, m))
    decreases |targets|
  {
    if targets == [] {
      assert qs[m] + [] == qs[m];
    } else {
      var init := targets[..|targets| - 1];
      var last := targets[|targets| - 1];
      var s := AfterBroadcast(qs, threaded, init, v);
      BroadcastAll(qs, threaded, init, v, m);
      assert AfterBroadcast(qs, threaded, targets, v) == AfterInput(s.queues, threaded, last, v);
      var c := Count(init, m);
      if m == last {
        calc {
          AfterBroadcast(qs, threaded, targets, v).queues[m];
          s.queues[m] + [v];
          (qs[m] + Repeat(v, c)) + [v];
          { assert (qs[m] + Repeat(v, c)) + [v] == qs[m] + (Repeat(v, c) + [v]); }
          qs[m] + Repeat(v, c + 1);
        }
      }
    }
  }

  /**
   * Broadcasting `v`: when the first `k` targets are threaded and target `k`
   * (if any) is not, the loop stops there with AttributeError, and plugin
   * `m` has received `v` once for each time it is listed among the first
   * `k` targets; with every target threaded, that is all of them.
   */
  lemma BroadcastDelivers<T>(qs: seq<seq<Option<T>>>, threaded: seq<bool>, targets: seq<NodeId>, v: Option<T>, k: nat, m: NodeId)
    requires |threaded| == |qs| && InRange(targets, |qs|) && m < |qs|
    requires k <= |targets|
    requires forall i :: 0 <= i < k ==> threaded[targets[i]]
    requires k < |targets| ==> !threaded[targets[k]]
    ensures var r := AfterBroadcast(qs, threaded, targets, v);
      r.error == (if k == |targets| then None else Some(AttributeError)) &&
      r.queues[m] == qs[m] + Repeat(v, multiset(targets[..k])[m])
  {
    var prefix := targets[..k];
    BroadcastAll(qs, threaded, prefix, v, m);
    CountIsMultiplicity(prefix, m);
    if k == |targets| {
      assert prefix == targets;
    } else {
      var s := AfterBroadcast(qs, threaded, prefix, v);
      assert targets[..k + 1][..k] == prefix;
      assert AfterBroadcast(qs, threaded, targets[..k + 1], v) == Sent(s.queues, Some(AttributeError));
      BroadcastStops(qs, threaded, targets, v, k + 1);
    }
  }

  /** Sending a value to every output when all of them are threaded: no exception, and plugin `m` gets the value once per listing. */
  lemma OutputToAll<T>(qs: seq<seq<Option<T>>>, threaded: seq<bool>, outs: seq<NodeId>, w: Option<T>, m: NodeId)
    requires |threaded| == |qs| && InRange(outs, |qs|) && m < |qs|
    requires forall i :: 0 <= i < |outs| ==> threaded[outs[i]]
    ensures var r := AfterOutput(qs, threaded, outs, w, -1);
      r.error == None && r.queues[m] == qs[m] + Stutter(Present(w), Count(outs, m))
  {
    if w.Some? {
      BroadcastAll(qs, threaded, outs, w, m);
      assert Present(w)[1..] == [];
    }
  }

  /** Whether a broadcast raises: exactly when some target is not threaded, and then with AttributeError. */
  lemma {:induction false} BroadcastFails<T>(qs: seq<seq<Option<T>>>, threaded: seq<bool>, targets: seq<NodeId>, v: Option<T>)
    requires |threaded| == |qs| && InRange(targets, |qs|)
    ensures var r := AfterBroadcast(qs, threaded, targets, v);
      (r.error == None <==> forall m :: m in targets ==> threaded[m]) &&
      (r.error != None ==> r.error == Some(AttributeError))
    decreases |targets|
  {
    if targets != [] {
      var init := targets[..|targets| - 1];
      assert targets == init + [targets[|targets| - 1]];
      BroadcastFails(qs, threaded, init, v);
    }
  }

  /** Once a prefix of the broadcast has raised, the whole broadcast ends in the same state. */
  lemma {:induction false} BroadcastStops<T>(qs: seq<seq<Option<T>>>, threaded: seq<bool>, targets: seq<NodeId>, v: Option<T>, k: nat)
    requires |threaded| == |qs| && InRange(targets, |qs|) && k <= |targets|
    requires AfterBroadcast(qs, threaded, targets[..k], v).error.Some?
    ensures AfterBroadcast(qs, threaded, targets, v) == AfterBroadcast(qs, threaded, targets[..k], v)
    decreases |targets|
  {
    if k < |targets| {
      var init := targets[..|targets| - 1];
      assert init[..k] == targets[..k];
      BroadcastStops(qs, threaded, init, v, k);
    } else {
      assert targets[..k] == targets;
    }
  }

  lemma {:induction false} StutterAppend<T>(a: seq<T>, b: seq<T>, k: nat)
    ensures Stutter(a + b, k) == Stutter(a, k) + Stutter(b, k)
  {
    if a == [] {
      assert a + b == b;
    } else {
      assert (a + b)[1..] == a[1..] + b;
      StutterAppend(a[1..], b, k);
    }
  }

  /** An output listed once receives exactly the sequence sent. */
  lemma {:induction false} StutterOne<T>(s: seq<T>)
    ensures Stutter(s, 1) == s
  {
    if s != [] {
      StutterOne(s[1..]);
      assert Repeat(s[0], 1) == [s[0]];
    }
  }

  /** One item's loop body with every output threaded: no exception, and plugin `m` gets what the item emits once per listing. */
  lemma ItemDelivers<T>(qs: seq<seq<Option<T>>>, threaded: seq<bool>, outs: seq<NodeId>,
                        process: Option<T> -> Option<T>, relay: bool, x: Option<T>, m: NodeId)
    requires |threaded| == |qs| && InRange(outs, |qs|) && m < |qs|
    requires forall i :: 0 <= i < |outs| ==> threaded[outs[i]]
    ensures var r := AfterItem(qs, threaded, outs, process, relay, x);
      r.error == None && r.queues[m] == qs[m] + Stutter(ItemEmits(process, relay, x), Count(outs, m))
  {
    var e1 := Present(process(x));
    var e2: seq<Option<T>> := if relay then Present(x) else [];
    var s1 := AfterOutput(qs, threaded, outs, process(x), -1);
    OutputToAll(qs, threaded, outs, process(x), m);
    if relay {
      OutputToAll(s1.queues, threaded, outs, x, m);
    }
    StutterAppend(e1, e2, Count(outs, m));
  }

  /** Whether one item's loop body raises: exactly when it emits something and some output is not threaded; then with AttributeError. */
  lemma ItemFailsIff<T>(qs: seq<seq<Option<T>>>, threaded: seq<bool>, outs: seq<NodeId>,
                        process: Option<T> -> Option<T>, relay: bool, x: Option<T>)
    requires |threaded| == |qs| && InRange(outs, |qs|)
    ensures var r := AfterItem(qs, threaded, outs, process, relay, x);
      (r.error == None <==> ItemEmits(process, relay, x) == [] || forall m :: m in outs ==> threaded[m]) &&
      (r.error != None ==> r.error == Some(AttributeError))
  {
    var s1 := AfterOutput(qs, threaded, outs, process(x), -1);
    if process(x).Some? {
      BroadcastFails(qs, threaded, outs, process(x));
    }
    if s1.error == None && relay && x.Some? {
      BroadcastFails(s1.queues, threaded, outs, x);
    }
  }

  /** Draining plugin `n` whose outputs are all threaded: nothing raises and its queue ends empty. */
  lemma {:induction false} DrainEmpties<T>(qs: seq<seq<Option<T>>>, threaded: seq<bool>, outs: seq<NodeId>, n: NodeId,
                                           process: Option<T> -> Option<T>, relay: bool)
    requires DrainReady(qs, threaded, outs, n)
    requires forall i :: 0 <= i < |outs| ==> threaded[outs[i]]
    ensures var r := AfterDrain(qs, threaded, outs, n, process, relay);
      r.error == None && r.queues[n] == []
    decreases |qs[n]|
  {
    if qs[n] != [] {
      var x := qs[n][0];
      var popped := qs[n := qs[n][1..]];
      var s := AfterItem(popped, threaded, outs, process, relay, x);
      ItemDelivers(popped, threaded, outs, process, relay, x, n);
      assert s.queues[n] == qs[n][1..];
      DrainEmpties(s.queues, threaded, outs, n, process, relay);
    }
  }

  /**
   * Draining plugin `n` whose outputs are all threaded: every other plugin
   * `m` receives, in queue order, each item's `process` result and then
   * (when relaying) the item itself, once per time `m` is listed among the
   * outputs.
   */
  lemma {:induction false} DrainAll<T>(qs: seq<seq<Option<T>>>, threaded: seq<bool>, outs: seq<NodeId>, n: NodeId,
                                       process: Option<T> -> Option<T>, relay: bool, m: NodeId)
    requires DrainReady(qs, threaded, outs, n) && m < |qs| && m != n
    requires forall i :: 0 <= i < |outs| ==> threaded[outs[i]]
    ensures AfterDrain(qs, threaded, outs, n, process, relay).queues[m] ==
            qs[m] + Stutter(Emitted(process, relay, qs[n]), Count(outs, m))
    decreases |qs[n]|
  {
    if qs[n] == [] {
      assert qs[m] + [] == qs[m];
    } else {
      var x := qs[n][0];
      var s := AfterItem(qs[n := qs[n][1..]], threaded, outs, process, relay, x);
      var e := ItemEmits(process, relay, x);
      var rest := Emitted(process, relay, qs[n][1..]);
      var c := Count(outs, m);
      DrainFirst(qs, threaded, outs, n, process, relay);
      ItemDelivers(qs[n := qs[n][1..]], threaded, outs, process, relay, x, m);
      DrainAll(s.queues, threaded, outs, n, process, relay, m);
      StutterExtend(qs[m], e, rest, c);
    }
  }

  /** The first pass of the drain loop when every output is threaded: it raises nothing, and the drain goes on from the state it leaves. */
  lemma DrainFirst<T>(qs: seq<seq<Option<T>>>, threaded: seq<bool>, outs: seq<NodeId>, n: NodeId,
                      process: Option<T> -> Option<T>, relay: bool)
    requires DrainReady(qs, threaded, outs, n) && qs[n] != []
    requires forall i :: 0 <= i < |outs| ==> threaded[outs[i]]
    ensures var s := AfterItem(qs[n := qs[n][1..]], threaded, outs, process, relay, qs[n][0]);
      s.error == None && s.queues[n] == qs[n][1..] && DrainReady(s.queues, threaded, outs, n) &&
      AfterDrain(qs, threaded, outs, n, process, relay) == AfterDrain(s.queues, threaded, outs, n, process, relay) &&
      Emitted(process, relay, qs[n]) == ItemEmits(process, relay, qs[n][0]) + Emitted(process, relay, qs[n][1..])
  {
    ItemDelivers(qs[n := qs[n][1..]], threaded, outs, process, relay, qs[n][0], n);
  }

  /** Receiving the stuttered `e` and then the stuttered `rest` is receiving the stuttered `e + rest`. */
  lemma StutterExtend<T>(a: seq<T>, e: seq<T>, rest: seq<T>, c: nat)
    ensures (a + Stutter(e, c)) + Stutter(rest, c) == a + Stutter(e + rest, c)
  {
    StutterAppend(e, rest, c);
    assert (a + Stutter(e, c)) + Stutter(rest, c) == a + (Stutter(e, c) + Stutter(rest, c));
  }

  /**
   * Draining plugin `n` whose outputs are all threaded: nothing raises, its
   * queue ends empty, and every other plugin `m` receives, in queue order,
   * each item's `process` result and then (when relaying) the item itself,
   * as many times over as `m` is listed among the outputs; an output listed
   * once receives exactly that sequence.
   */
  lemma DrainDelivers<T>(qs: seq<seq<Option<T>>>, threaded: seq<bool>, outs: seq<NodeId>, n: NodeId,
                         process: Option<T> -> Option<T>, relay: bool, m: NodeId)
    requires DrainReady(qs, threaded, outs, n) && m < |qs|
    requires forall i :: 0 <= i < |outs| ==> threaded[outs[i]]
    ensures var r := AfterDrain(qs, threaded, outs, n, process, relay);
      r.error == None && r.queues[n] == [] &&
      (m != n ==> r.queues[m] == qs[m] + Stutter(Emitted(process, relay, qs[n]), multiset(outs)[m])) &&
      (multiset(outs)[m] == 1 ==> r.queues[m] == qs[m] + Emitted(process, relay, qs[n]))
  {
    DrainEmpties(qs, threaded, outs, n, process, relay);
    CountIsMultiplicity(outs, m);
    if m != n {
      DrainAll(qs, threaded, outs, n, process, relay, m);
      StutterOne(Emitted(process, relay, qs[n]));
    }
  }

  /**
   * Whether a drain raises: exactly when it has something to send and some
   * output is not threaded; the exception is then AttributeError.
   */
  lemma {:induction false} DrainFailsIff<T>(qs: seq<seq<Option<T>>>, threaded: seq<bool>, outs: seq<NodeId>, n: NodeId,
                                            process: Option<T> -> Option<T>, relay: bool)
    requires DrainReady(qs, threaded, outs, n)
    ensures var r := AfterDrain(qs, threaded, outs, n, process, relay);
      (r.error == None <==> Emitted(process, relay, qs[n]) == [] || forall m :: m in outs ==> threaded[m]) &&
      (r.error != None ==> r.error == Some(AttributeError))
    decreases |qs[n]|
  {
    if qs[n] != [] {
      var x := qs[n][0];
      var popped := qs[n := qs[n][1..]];
      var s := AfterItem(popped, threaded, outs, process, relay, x);
      assert Emitted(process, relay, qs[n]) == ItemEmits(process, relay, x) + Emitted(process, relay, qs[n][1..]);
      ItemFailsIff(popped, threaded, outs, process, relay, x);
      if s.error == None {
        assert s.queues[n] == qs[n][1..];
        DrainFailsIff(s.queues, threaded, outs, n, process, relay);
      }
    }
  }
}
