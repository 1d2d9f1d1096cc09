/**
 * The Plugin class of the pipeline runtime, for a whole graph of plugins at
 * once. Plugin i's fields live at position i of the graph's lists, so that
 * one plugin updating another (add in 'input' mode, output feeding a
 * downstream queue) is an update of the graph, with no aliasing to track.
 * The per-plugin threads are not modelled: Update is one call of `update`.
 */
module Plugins {
  import opened Wrappers
  import opened Nodes
  import opened Delivery

  /** What Plugin.add is given: a plugin, a plain callable, or anything else. */
  datatype Target<!T> = PluginRef(id: NodeId) | CallableRef(f: Option<T> -> Option<T>) | NotCallable

  /** The class name given to the plugin that wraps a plain callable. */
  const CallbackKind: Kind := "Callback"

  class Graph<T> {
    /** outputs[i]: plugin i's downstream plugins, in channel order */
    var outputs: seq<seq<NodeId>>
    /** queues[i]: plugin i's FIFO queue, oldest item first (always empty when it has none) */
    var queues: seq<seq<Option<T>>>
    var relay: seq<bool>
    var threaded: seq<bool>
    /** kind[i]: the class of plugin i, which `find` tests */
    var kind: seq<Kind>
    /** process[i]: what plugin i's `process` returns for an item */
    var process: seq<Option<T> -> Option<T>>

    ghost predicate Valid()
      reads this
    {
      |queues| == |outputs| && |relay| == |outputs| && |threaded| == |outputs| &&
      |kind| == |outputs| && |process| == |outputs| &&
      Closed(outputs) &&
      forall m :: 0 <= m < |outputs| && !threaded[m] ==> queues[m] == []
    }

    /** A graph with no plugins yet. */
    constructor ()
      ensures Valid() && outputs == []
    {
      outputs, queues, relay, threaded, kind, process := [], [], [], [], [], [];
    }

    /**
     * Plugin.__init__: a new plugin with no outputs and an empty queue (a
     * plugin built with threaded=False has no queue at all; its entry stays
     * empty).
     */
    method NewPlugin(k: Kind, f: Option<T> -> Option<T>, relayFlag: bool, threadedFlag: bool) returns (id: NodeId)
      requires Valid()
      modifies this
      ensures Valid() && id == old(|outputs|)
      ensures outputs == old(outputs) + [[]] && queues == old(queues) + [[]]
      ensures relay == old(relay) + [relayFlag] && threaded == old(threaded) + [threadedFlag]
      ensures kind == old(kind) + [k] && process == old(process) + [f]
    {
      id := |outputs|;
      outputs := outputs + [[]];
      queues := queues + [[]];
      relay := relay + [relayFlag];
      threaded := threaded + [threadedFlag];
      kind := kind + [k];
      process := process + [f];
    }

    /**
     * Plugin.add on plugin `node`. Something neither a plugin nor callable
     * raises TypeError and changes nothing. A callable is first wrapped in a
     * new Callback plugin, and this happens before the mode is looked at.
     * Mode "output" appends the target to `node`'s outputs, mode "input"
     * appends `node` to the target's outputs, and any other mode raises
     * ValueError without adding an edge. Success returns `node`.
     */
    method Add(node: NodeId, plugin: Target<T>, mode: string) returns (r: Result<NodeId, Error>)
      requires Valid() && node < |outputs|
      requires plugin.PluginRef? ==> plugin.id < |outputs|
      modifies this
      ensures Valid()
      // edges are only ever appended
      ensures |outputs| >= old(|outputs|)
      ensures forall i :: 0 <= i < old(|outputs|) ==> old(outputs[i]) <= outputs[i]
      ensures plugin.NotCallable? ==>
                r == Failure(TypeError) && outputs == old(outputs) && queues == old(queues) &&
                relay == old(relay) && threaded == old(threaded) && kind == old(kind) && process == old(process)
      ensures plugin.CallableRef? ==>
                queues == old(queues) + [[]] && relay == old(relay) + [false] && threaded == old(threaded) + [true] &&
                kind == old(kind) + [CallbackKind] && process == old(process) + [plugin.f]
      ensures plugin.PluginRef? ==>
                queues == old(queues) && relay == old(relay) && threaded == old(threaded) &&
                kind == old(kind) && process == old(process)
      ensures !plugin.NotCallable? ==>
                var t := if plugin.PluginRef? then plugin.id else old(|outputs|);
                var before := if plugin.PluginRef? then old(outputs) else old(outputs) + [[]];
                (mode == "output" ==> r == Success(node) && outputs == before[node := before[node] + [t]]) &&
                (mode == "input" ==> r == Success(node) && outputs == before[t := before[t] + [node]]) &&
                (mode != "output" && mode != "input" ==> r == Failure(ValueError) && outputs == before)
    {
      var t: NodeId;
      match plugin {
        case NotCallable =>
          return Failure(TypeError);
        case PluginRef(id) =>
          t := id;
        case CallableRef(f) =>
          t := NewPlugin(CallbackKind, f, false, true);
      }
      if mode == "output" {
        outputs := outputs[node := outputs[node] + [t]];
        r := Success(node);
      } else if mode == "input" {
        outputs := outputs[t := outputs[t] + [node]];
        r := Success(node);
      } else {
        r := Failure(ValueError);
      }
    }

    /**
     * Plugin.input and its alias Plugin.__call__ on plugin `n`; `channel` is
     * accepted and ignored. A threaded plugin appends `x` to its queue. A
     * plugin built with threaded=False has no queue, so the `update` it calls
     * raises AttributeError and `x` is never processed.
     */
    method Input(n: NodeId, x: Option<T>, channel: int) returns (err: Option<Error>)
      requires Valid() && n < |outputs|
      modifies this`queues
      ensures Valid()
      ensures Sent(queues, err) == AfterInput(old(queues), threaded, n, x)
      ensures threaded[n] ==> err == None && queues == old(queues)[n := old(queues)[n] + [x]]
      ensures !threaded[n] ==> err == Some(AttributeError) && queues == old(queues)
    {
      if threaded[n] {
        queues := queues[n := queues[n] + [x]];
        err := None;
      } else {
        err := Some(AttributeError);
      }
    }

    /**
     * Plugin.output on plugin `n`: None sends nothing; channel 0 or more
     * feeds that output alone (IndexError past the end); a negative channel
     * feeds each output in list order, stopping at the first exception.
     */
    method Output(n: NodeId, v: Option<T>, channel: int) returns (err: Option<Error>)
      requires Valid() && n < |outputs|
      modifies this`queues
      ensures Valid()
      ensures Sent(queues, err) == AfterOutput(old(queues), threaded, outputs[n], v, channel)
    {
      assert InRange(outputs[n], |outputs|);
      if v.None? {
        return None;
      }
      if channel >= 0 {
        if channel >= |outputs[n]| {
          return Some(IndexError);
        }
        err := Input(outputs[n][channel], v, 0);
        return;
      }
      err := Broadcast(n, v);
    }

    /** The `for output_channel in self.outputs` loop of Plugin.output: `input(v)` on each output in list order. */
    method Broadcast(n: NodeId, v: Option<T>) returns (err: Option<Error>)
      requires Valid() && n < |outputs|
      modifies this`queues
      ensures Valid()
      ensures Sent(queues, err) == AfterBroadcast(old(queues), threaded, outputs[n], v)
    {
      assert InRange(outputs[n], |outputs|);
      var targets := outputs[n];
      var i := 0;
      while i < |targets|
        invariant 0 <= i <= |targets|
        invariant Valid()
        invariant Sent(queues, None) == AfterBroadcast(old(queues), threaded, targets[..i], v)
      {
        BroadcastStep(old(queues), threaded, targets, v, i);
        err := Input(targets[i], v, 0);
        if err.Some? {
          BroadcastStops(old(queues), threaded, targets, v, i + 1);
          return;
        }
        i := i + 1;
      }
      assert targets[..i] == targets;
      err := None;
    }

    /**
     * Plugin.update on plugin `n`: while its queue is not empty, take the
     * front item, output its `process` result to every output, then output
     * the item itself when `relay` is set. A plugin built with
     * threaded=False has no queue and raises AttributeError. A plugin whose
     * queue holds items must not be its own output: the values it emits
     * would refill that queue, and whether the loop ends would depend on
     * `process` alone.
     */
    method Update(n: NodeId) returns (err: Option<Error>)
      requires Valid() && n < |outputs| && (queues[n] != [] ==> n !in outputs[n])
      modifies this`queues
      ensures Valid()
      ensures Sent(queues, err) == AfterUpdate(old(queues), threaded, outputs[n], n, process[n], relay[n])
      ensures forall m :: 0 <= m < |queues| && m != n && m !in outputs[n] ==> queues[m] == old(queues)[m]
      ensures threaded[n] && (forall m :: m in outputs[n] ==> threaded[m]) ==>
                err == None && queues[n] == [] &&
                forall m :: 0 <= m < |queues| && m != n ==>
                  queues[m] == old(queues)[m] + Stutter(Emitted(process[n], relay[n], old(queues)[n]), multiset(outputs[n])[m])
    {
      assert InRange(outputs[n], |outputs|);
      if !threaded[n] {
        return Some(AttributeError);
      }
      if forall m :: m in outputs[n] ==> threaded[m] {
        forall m | 0 <= m < |queues|
          ensures var r := AfterDrain(queues, threaded, outputs[n], n, process[n], relay[n]);
            r.error == None && r.queues[n] == [] &&
            (m != n ==> r.queues[m] == queues[m] + Stutter(Emitted(process[n], relay[n], queues[n]), multiset(outputs[n])[m]))
        {
          DrainDelivers(queues, threaded, outputs[n], n, process[n], relay[n], m);
        }
      }
      err := Drain(n);
    }

    /** The `while not self.queue.empty()` loop of Plugin.update, on a plugin that has a queue. */
    method Drain(n: NodeId) returns (err: Option<Error>)
      requires Valid() && n < |outputs| && threaded[n] && (queues[n] != [] ==> n !in outputs[n])
      modifies this`queues
      ensures Valid()
      ensures Sent(queues, err) == AfterDrain(old(queues), threaded, outputs[n], n, process[n], relay[n])
    {
      assert InRange(outputs[n], |outputs|);
      while queues[n] != []
        invariant Valid()
        invariant AfterDrain(queues, threaded, outputs[n], n, process[n], relay[n]) ==
                  AfterDrain(old(queues), threaded, outputs[n], n, process[n], relay[n])
        decreases |queues[n]|
      {
        var x := queues[n][0];
        queues := queues[n := queues[n][1..]];
        err := RunItem(n, x);
        if err.Some? {
          return;
        }
      }
      err := None;
    }

    /**
     * One pass of the update loop on the dequeued item `x`: output its
     * `process` result, then `x` itself when `relay` is set; an exception
     * from the first output skips the second.
     */
    method RunItem(n: NodeId, x: Option<T>) returns (err: Option<Error>)
      requires Valid() && n < |outputs|
      modifies this`queues
      ensures Valid()
      ensures Sent(queues, err) == AfterItem(old(queues), threaded, outputs[n], process[n], relay[n], x)
    {
      assert InRange(outputs[n], |outputs|);
      err := Output(n, process[n](x), -1);
      if err.None? && relay[n] {
        err := Output(n, x, -1);
      }
    }
  }
}
