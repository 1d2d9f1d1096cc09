/**
 * Plugin.find and its alias Plugin.__getitem__: a depth-first, pre-order
 * search of the output graph for the first plugin that passes a type test.
 * The search reads the graph and changes nothing, so it is modelled on the
 * values of the per-node lists: `outs[i]` is plugin i's `outputs` and
 * `kind[i]` its class; `isa` stands for `isinstance(_, type)`.
 */
module GraphSearch {
  import opened Wrappers
  import opened Nodes

  /**
   * `rank` witnesses that the whole output graph is acyclic: every edge
   * goes strictly down in rank. The source keeps no visited set, so on a
   * cycle reachable from the start its search ends only if it meets a match
   * before coming back round; the model covers acyclic graphs only.
   */
  predicate Ranked(outs: seq<seq<NodeId>>, rank: seq<nat>)
  {
    |rank| == |outs| && Closed(outs) &&
    forall i, j :: 0 <= i < |outs| && 0 <= j < |outs[i]| ==>
      outs[i][j] < |outs| && rank[outs[i][j]] < rank[i]
  }

  /** One output edge, from `a` to `b`. */
  ghost predicate Edge(outs: seq<seq<NodeId>>, a: NodeId, b: NodeId)
  {
    a < |outs| && b in outs[a]
  }

  /** A non-empty walk that follows output edges. */
  ghost predicate IsPath(outs: seq<seq<NodeId>>, p: seq<NodeId>)
  {
    |p| >= 1 && p[|p| - 1] < |outs| &&
    forall k :: 0 <= k < |p| - 1 ==> Edge(outs, p[k], p[k + 1])
  }

  /** `m` is `n` itself or lies downstream of `n` along output edges. */
  ghost predicate Reaches(outs: seq<seq<NodeId>>, n: NodeId, m: NodeId)
  {
    exists p :: IsPath(outs, p) && p[0] == n && p[|p| - 1] == m
  }

  /** Plugin.find started at plugin `n`. */
  function Find(outs: seq<seq<NodeId>>, kind: seq<Kind>, isa: Kind -> bool, rank: seq<nat>, n: NodeId): (r: Option<NodeId>)
    requires Ranked(outs, rank) && |kind| == |outs| && n < |outs|
    ensures isa(kind[n]) ==> r == Some(n)
    ensures r.Some? ==> r.value < |outs| && isa(kind[r.value])
    decreases rank[n], 1, 0
  {
    if isa(kind[n]) then Some(n) else FindAmong(outs, kind, isa, rank, n, 0)
  }

  /**
   * The `for output in self.outputs` loop of Plugin.find, from position `i`
   * on: an output that passes the test is returned at once, otherwise the
   * search recurses into it and stops at its first hit.
   */
  function FindAmong(outs: seq<seq<NodeId>>, kind: seq<Kind>, isa: Kind -> bool, rank: seq<nat>, n: NodeId, i: nat): (r: Option<NodeId>)
    requires Ranked(outs, rank) && |kind| == |outs| && n < |outs| && i <= |outs[n]|
    ensures r.Some? ==> r.value < |outs| && isa(kind[r.value])
    decreases rank[n], 0, |outs[n]| - i
  {
    if i == |outs[n]| then None
    else
      var o := outs[n][i];
      if isa(kind[o]) then Some(o)
      else
        var found := Find(outs, kind, isa, rank, o);
        if found.Some? then found else FindAmong(outs, kind, isa, rank, n, i + 1)
  }

  /** A path from `n` to the plugin Find returns. */
  lemma {:induction false} FindPath(outs: seq<seq<NodeId>>, kind: seq<Kind>, isa: Kind -> bool, rank: seq<nat>, n: NodeId)
    returns (p: seq<NodeId>)
    requires Ranked(outs, rank) && |kind| == |outs| && n < |outs|
    requires Find(outs, kind, isa, rank, n).Some?
    ensures IsPath(outs, p) && p[0] == n && p[|p| - 1] == Find(outs, kind, isa, rank, n).value
    decreases rank[n], 1, 0
  {
    if isa(kind[n]) {
      p := [n];
    } else {
      p := FindAmongPath(outs, kind, isa, rank, n, 0);
    }
  }

  /** A path from `n` to the plugin FindAmong returns. */
  lemma {:induction false} FindAmongPath(outs: seq<seq<NodeId>>, kind: seq<Kind>, isa: Kind -> bool, rank: seq<nat>, n: NodeId, i: nat)
    returns (p: seq<NodeId>)
    requires Ranked(outs, rank) && |kind| == |outs| && n < |outs| && i <= |outs[n]|
    requires FindAmong(outs, kind, isa, rank, n, i).Some?
    ensures IsPath(outs, p) && p[0] == n && p[|p| - 1] == FindAmong(outs, kind, isa, rank, n, i).value
    decreases rank[n], 0, |outs[n]| - i
  {
    var o := outs[n][i];
    assert Edge(outs, n, o);
    if isa(kind[o]) {
      p := [n, o];
    } else if Find(outs, kind, isa, rank, o).Some? {
      var q := FindPath(outs, kind, isa, rank, o);
      p := [n] + q;
      forall k | 0 <= k < |p| - 1
        ensures Edge(outs, p[k], p[k + 1])
      {
        if k > 0 {
          assert p[k] == q[k - 1] && p[k + 1] == q[k];
        }
      }
    } else {
      p := FindAmongPath(outs, kind, isa, rank, n, i + 1);
    }
  }

  /** Soundness: whatever Find returns passes the type test and is downstream of the start. */
  lemma FindSound(outs: seq<seq<NodeId>>, kind: seq<Kind>, isa: Kind -> bool, rank: seq<nat>, n: NodeId)
    requires Ranked(outs, rank) && |kind| == |outs| && n < |outs|
    ensures var r := Find(outs, kind, isa, rank, n);
      r.Some? ==> r.value < |outs| && isa(kind[r.value]) && Reaches(outs, n, r.value)
  {
    if Find(outs, kind, isa, rank, n).Some? {
      var p := FindPath(outs, kind, isa, rank, n);
    }
  }

  /** Within the loop over outputs: a hit below output `j` is found from any earlier position. */
  lemma {:induction false} FindAmongReaches(outs: seq<seq<NodeId>>, kind: seq<Kind>, isa: Kind -> bool, rank: seq<nat>, n: NodeId, i: nat, j: nat)
    requires Ranked(outs, rank) && |kind| == |outs| && n < |outs| && i <= j < |outs[n]|
    requires Find(outs, kind, isa, rank, outs[n][j]).Some?
    ensures FindAmong(outs, kind, isa, rank, n, i).Some?
    decreases j - i
  {
    if i < j && !isa(kind[outs[n][i]]) && Find(outs, kind, isa, rank, outs[n][i]).None? {
      FindAmongReaches(outs, kind, isa, rank, n, i + 1, j);
    }
  }

  /** Completeness: if some plugin downstream of the start passes the test, Find returns a plugin. */
  lemma {:induction false} FindComplete(outs: seq<seq<NodeId>>, kind: seq<Kind>, isa: Kind -> bool, rank: seq<nat>, n: NodeId, p: seq<NodeId>)
    requires Ranked(outs, rank) && |kind| == |outs| && n < |outs|
    requires IsPath(outs, p) && p[0] == n && isa(kind[p[|p| - 1]])
    ensures Find(outs, kind, isa, rank, n).Some?
    decreases |p|
  {
    if !isa(kind[n]) {
      assert |p| >= 2;
      assert Edge(outs, p[0], p[1]);
      var j :| 0 <= j < |outs[n]| && outs[n][j] == p[1];
      var tail := p[1..];
      forall k | 0 <= k < |tail| - 1
        ensures Edge(outs, tail[k], tail[k + 1])
      {
        assert Edge(outs, p[k + 1], p[k + 2]);
      }
      FindComplete(outs, kind, isa, rank, p[1], tail);
      FindAmongReaches(outs, kind, isa, rank, n, 0, j);
    }
  }

  /** Find returns None exactly when no plugin downstream of the start passes the test. */
  lemma FindNoneIff(outs: seq<seq<NodeId>>, kind: seq<Kind>, isa: Kind -> bool, rank: seq<nat>, n: NodeId)
    requires Ranked(outs, rank) && |kind| == |outs| && n < |outs|
    ensures Find(outs, kind, isa, rank, n).None? <==>
            forall m :: 0 <= m < |outs| && Reaches(outs, n, m) ==> !isa(kind[m])
  {
    if Find(outs, kind, isa, rank, n).Some? {
      FindSound(outs, kind, isa, rank, n);
    } else {
      forall m | 0 <= m < |outs| && Reaches(outs, n, m)
        ensures !isa(kind[m])
      {
        if isa(kind[m]) {
          var p :| IsPath(outs, p) && p[0] == n && p[|p| - 1] == m;
          FindComplete(outs, kind, isa, rank, n, p);
        }
      }
    }
  }

  /** The plugins of the graph below `n` in depth-first pre-order: `n`, then each output's subtree in list order. */
  function PreOrder(outs: seq<seq<NodeId>>, rank: seq<nat>, n: NodeId): (r: seq<NodeId>)
    requires Ranked(outs, rank) && n < |outs|
    ensures |r| >= 1 && r[0] == n && InRange(r, |outs|)
    decreases rank[n], 1, 0
  {
    [n] + PreOrderAmong(outs, rank, n, 0)
  }

  /** The pre-order subtrees of the outputs of `n` from position `i` on, concatenated. */
  function PreOrderAmong(outs: seq<seq<NodeId>>, rank: seq<nat>, n: NodeId, i: nat): (r: seq<NodeId>)
    requires Ranked(outs, rank) && n < |outs| && i <= |outs[n]|
    ensures InRange(r, |outs|)
    decreases rank[n], 0, |outs[n]| - i
  {
    if i == |outs[n]| then []
    else PreOrder(outs, rank, outs[n][i]) + PreOrderAmong(outs, rank, n, i + 1)
  }

  /** The first plugin of `s` that passes the test, if any. */
  function FirstMatch(kind: seq<Kind>, isa: Kind -> bool, s: seq<NodeId>): (r: Option<NodeId>)
    requires InRange(s, |kind|)
    ensures r.None? <==> forall k :: 0 <= k < |s| ==> !isa(kind[s[k]])
    ensures r.Some? ==> r.value in s && isa(kind[r.value])
  {
    if s == [] then None
    else if isa(kind[s[0]]) then Some(s[0])
    else FirstMatch(kind, isa, s[1..])
  }

  /** The first match in `a + b` is the first match in `a`, or failing that the first in `b`. */
  lemma {:induction false} FirstMatchAppend(kind: seq<Kind>, isa: Kind -> bool, a: seq<NodeId>, b: seq<NodeId>)
    requires InRange(a, |kind|) && InRange(b, |kind|)
    ensures FirstMatch(kind, isa, a + b) ==
            if FirstMatch(kind, isa, a).Some? then FirstMatch(kind, isa, a) else FirstMatch(kind, isa, b)
  {
    if a != [] {
      assert (a + b)[1..] == a[1..] + b;
      FirstMatchAppend(kind, isa, a[1..], b);
    } else {
      assert a + b == b;
    }
  }

  /** Find is exactly the first plugin in depth-first pre-order that passes the test. */
  lemma {:induction false} FindIsPreOrderFirst(outs: seq<seq<NodeId>>, kind: seq<Kind>, isa: Kind -> bool, rank: seq<nat>, n: NodeId)
    requires Ranked(outs, rank) && |kind| == |outs| && n < |outs|
    ensures Find(outs, kind, isa, rank, n) == FirstMatch(kind, isa, PreOrder(outs, rank, n))
    decreases rank[n], 1, 0
  {
    var rest := PreOrderAmong(outs, rank, n, 0);
    assert PreOrder(outs, rank, n) == [n] + rest;
    if !isa(kind[n]) {
      assert ([n] + rest)[1..] == rest;
      FindAmongIsPreOrderFirst(outs, kind, isa, rank, n, 0);
    }
  }

  /** The loop over outputs finds the first match in the concatenated pre-order subtrees. */
  lemma {:induction false} FindAmongIsPreOrderFirst(outs: seq<seq<NodeId>>, kind: seq<Kind>, isa: Kind -> bool, rank: seq<nat>, n: NodeId, i: nat)
    requires Ranked(outs, rank) && |kind| == |outs| && n < |outs| && i <= |outs[n]|
    ensures FindAmong(outs, kind, isa, rank, n, i) == FirstMatch(kind, isa, PreOrderAmong(outs, rank, n, i))
    decreases rank[n], 0, |outs[n]| - i
  {
    if i < |outs[n]| {
      var o := outs[n][i];
      FindIsPreOrderFirst(outs, kind, isa, rank, o);
      FirstMatchAppend(kind, isa, PreOrder(outs, rank, o), PreOrderAmong(outs, rank, n, i + 1));
      FindAmongIsPreOrderFirst(outs, kind, isa, rank, n, i + 1);
    }
  }
}
