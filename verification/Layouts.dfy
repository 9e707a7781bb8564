/** The layout of progress bars: an ordered list of nodes and one movable anchor.

    `MultiProgress` is the list `order`; a bar that was finished and cleared stays in the list
    and is `hidden`. Nodes are identified by the number drawn from the node counter. */
module Layouts {
  import opened Results
  import opened Sequences

  type NodeId = nat

  datatype Layout = Layout(order: seq<NodeId>, anchor: Option<NodeId>, next: NodeId, hidden: set<NodeId>) {

    /** What the terminal shows, top to bottom. */
    function Visible(): seq<NodeId> {
      Shown(order, hidden)
    }

    /** Adds a node below the anchor (at the end when there is none); it becomes the anchor. */
    function Insert(): Layout {
      Layout(if anchor.Some? then InsertAfter(order, anchor.value, next) else order + [next],
             Some(next), next + 1, hidden)
    }

    /** Adds a node right below `target`; an anchor on the target follows to the new node. */
    function InsertBelow(target: NodeId): Layout {
      Layout(InsertAfter(order, target, next),
             if anchor == Some(target) then Some(next) else anchor, next + 1, hidden)
    }

    function SetAnchor(node: NodeId): Layout {
      this.(anchor := Some(node))
    }

    function UpdateAnchorIfIn(nodes: seq<NodeId>, fallback: NodeId): Layout {
      if anchor.Some? && anchor.value in nodes then SetAnchor(fallback) else this
    }

    function Hide(nodes: set<NodeId>): Layout {
      this.(hidden := hidden + nodes)
    }

    /** Node numbers are never reused, and the anchor and all hidden nodes are in the list. */
    ghost predicate WellFormed() {
      && NoDup(order)
      && (forall n <- order :: n < next)
      && (forall n <- hidden :: n in order)
      && (anchor.Some? <==> order != [])
      && (anchor.Some? ==> anchor.value in order)
    }
  }

  const EMPTY := Layout([], None, 0, {})

  lemma InsertKeepsWellFormed(l: Layout)
    requires l.WellFormed()
    ensures l.Insert().WellFormed()
    ensures l.next !in l.order
    ensures forall n :: n in l.Insert().order <==> n in l.order || n == l.next
  {
    if l.anchor.Some? {
      InsertAfterMembers(l.order, l.anchor.value, l.next);
      InsertAfterNoDup(l.order, l.anchor.value, l.next);
    }
  }

  lemma InsertBelowKeepsWellFormed(l: Layout, target: NodeId)
    requires l.WellFormed() && target in l.order
    ensures l.InsertBelow(target).WellFormed()
    ensures l.next !in l.order
    ensures forall n :: n in l.InsertBelow(target).order <==> n in l.order || n == l.next
  {
    InsertAfterMembers(l.order, target, l.next);
    InsertAfterNoDup(l.order, target, l.next);
  }

  /** The shared layout object. Every method is one critical section of its mutex. */
  class TaskLayout {
    var order: seq<NodeId>
    var anchor: Option<NodeId>
    var nodeCounter: NodeId
    var hidden: set<NodeId>

    ghost function Value(): Layout
      reads this
    {
      Layout(order, anchor, nodeCounter, hidden)
    }

    ghost predicate Valid()
      reads this
    {
      Value().WellFormed()
    }

    constructor ()
      ensures Valid() && Value() == EMPTY
    {
      order, anchor, nodeCounter, hidden := [], None, 0, {};
    }

    method NextId() returns (id: NodeId)
      modifies this`nodeCounter
      ensures id == old(nodeCounter) && nodeCounter == id + 1
    {
      id := nodeCounter;
      nodeCounter := nodeCounter + 1;
    }

    method Insert() returns (node: NodeId)
      requires Valid()
      modifies this
      ensures Valid()
      ensures node == old(nodeCounter) && node !in old(order)
      ensures Value() == old(Value()).Insert()
    {
      InsertKeepsWellFormed(Value());
      if anchor.Some? {
        order := InsertAfter(order, anchor.value, nodeCounter);
      } else {
        order := order + [nodeCounter];
      }
      node := NextId();
      anchor := Some(node);
    }

    method InsertBelow(target: NodeId) returns (node: NodeId)
      requires Valid() && target in order
      modifies this
      ensures Valid()
      ensures node == old(nodeCounter) && node !in old(order)
      ensures Value() == old(Value()).InsertBelow(target)
    {
      InsertBelowKeepsWellFormed(Value(), target);
      order := InsertAfter(order, target, nodeCounter);
      node := NextId();
      var isCurrentAnchor := match anchor
        case Some(current) => current == target
        case None => false;
      if isCurrentAnchor {
        anchor := Some(node);
      }
    }

    method SetAnchor(node: NodeId)
      requires Valid() && node in order
      modifies this`anchor
      ensures Valid()
      ensures Value() == old(Value()).SetAnchor(node)
    {
      anchor := Some(node);
    }

    method UpdateAnchorIfIn(nodes: seq<NodeId>, fallback: NodeId)
      requires Valid() && fallback in order
      modifies this`anchor
      ensures Valid()
      ensures Value() == old(Value()).UpdateAnchorIfIn(nodes, fallback)
    {
      if anchor.Some? && anchor.value in nodes {
        anchor := Some(fallback);
      }
    }

    /** `ProgressBar::finish_and_clear` on one node. */
    method FinishAndClear(node: NodeId)
      requires Valid() && node in order
      modifies this`hidden
      ensures Valid()
      ensures Value() == old(Value()).Hide({node})
    {
      hidden := hidden + {node};
    }
  }
}
