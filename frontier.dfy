/**
  Search nodes and the first-in first-out frontier of the breadth-first search.
 */
module Frontier {
  import opened Wrappers
  import opened CubeState

  /** A search node: a configuration, the arena index of the node it was
      expanded from (`None` for the root) and the move that led here from it
      (`None` for the root). Parents are indices into the search's arena of
      expanded nodes rather than references. */
  datatype Node = Node(state: Cube, parent: Option<nat>, action: Option<Move>)

  /** Whether some node of `nodes` holds configuration `s`. */
  function AnyState(nodes: seq<Node>, s: Cube): (b: bool)
    ensures b <==> exists i :: 0 <= i < |nodes| && nodes[i].state == s
  {
    if nodes == [] then false
    else if nodes[0].state == s then true
    else
      var b := AnyState(nodes[1..], s);
      assert forall i :: 1 <= i < |nodes| ==> nodes[i] == nodes[1..][i - 1];
      b
  }

  /** The frontier: a queue of nodes, appended at the back and taken from the front. */
  class QueueFrontier {
    var nodes: seq<Node>

    constructor ()
      ensures nodes == []
    {
      nodes := [];
    }

    /** Appends a node at the back. */
    method Add(node: Node)
      modifies this
      ensures nodes == old(nodes) + [node]
    {
      nodes := nodes + [node];
    }

    /** Whether some queued node holds configuration `s`. */
    function ContainsState(s: Cube): (b: bool)
      reads this
      ensures b <==> exists i :: 0 <= i < |nodes| && nodes[i].state == s
    {
      AnyState(nodes, s)
    }

    /** Whether no node is queued. */
    function Empty(): (b: bool)
      reads this
      ensures b <==> nodes == []
    {
      |nodes| == 0
    }

    /** Takes the front node off the queue; `None` stands for the
        "empty frontier" error, in which case nothing changes. */
    method Remove() returns (r: Option<Node>)
      modifies this
      ensures old(nodes) == [] ==> r == None && nodes == old(nodes)
      ensures old(nodes) != [] ==> r == Some(old(nodes)[0]) && nodes == old(nodes)[1..]
    {
      if Empty() {
        r := None;
      } else {
        r := Some(nodes[0]);
        nodes := nodes[1..];
      }
    }
  }
}
