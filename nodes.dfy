/** Node identities and the shape of the output graph, shared by search and delivery. */
module Nodes {

  /** A plugin is named by its position in the graph's per-node lists. */
  type NodeId = nat

  /** The name of a plugin's class: all that `isinstance` looks at. */
  type Kind = string

  /** Every node named in `targets` is one of the first `n` nodes. */
  predicate InRange(targets: seq<NodeId>, n: nat)
  {
    forall j :: 0 <= j < |targets| ==> targets[j] < n
  }

  /** Every output edge of every node points at a node of the graph. */
  predicate Closed(outs: seq<seq<NodeId>>)
  {
    forall i :: 0 <= i < |outs| ==> InRange(outs[i], |outs|)
  }
}
