/** The concurrent display machine: any number of tasks, steps and spaces over one layout.

    A block is what one `Task`, `Step` or spacer owns on the display. Each block is driven by one
    thread at a time, and an action is one critical section of the layout mutex (or the clearing
    of one bar), so a sequence of actions is an arbitrary interleaving of any number of threads. */
module Blocks {
  import opened Sequences
  import opened Layouts
  import opened Results

  /** A node with the reports inserted below it, oldest first (the order of pushes). */
  datatype Rend = Rend(node: NodeId, inserted: seq<NodeId>)

  datatype Kind = TaskKind | StepKind | SpaceKind

  /** Where the owner of a block is.
      `Building(left)`: `TaskBuilder::start` still has `left` children to insert.
      `Clearing(gone, todo)`: `clear_children` has cleared `gone` and has `todo` ahead. */
  datatype Phase =
    | Building(left: nat)
    | Live
    | Clearing(gone: seq<NodeId>, todo: seq<NodeId>)
    | Closed

  datatype Block = Block(kind: Kind, head: Rend, kids: seq<Rend>, phase: Phase) {
    /** The insertion point of the builder: the newest child, or the head. */
    function Point(): NodeId {
      if kids == [] then head.node else Last(kids).node
    }
  }

  /** A node followed by its reports, newest first. */
  function Line(r: Rend): seq<NodeId> {
    [r.node] + Reverse(r.inserted)
  }

  function Lines(rs: seq<Rend>): seq<NodeId> {
    if rs == [] then [] else Line(rs[0]) + Lines(rs[1..])
  }

  /** The tree of a block, flattened: head, head reports, then each child with its reports. */
  function Flat(b: Block): seq<NodeId> {
    Line(b.head) + Lines(b.kids)
  }

  /** The nodes `clear_children` clears, in its order. */
  function ClearList(rs: seq<Rend>): seq<NodeId> {
    if rs == [] then [] else [rs[0].node] + rs[0].inserted + ClearList(rs[1..])
  }

  datatype Sys = Sys(layout: Layout, blocks: seq<Block>)

  const INIT := Sys(EMPTY, [])

  datatype Action =
    | Open(kind: Kind, children: nat)   // builder head, `step` or `space`
    | AddChild(b: nat)                  // next stage, group or trailing spacer
    | Seal(b: nat)                      // final `set_anchor` of the builder
    | ReportChild(b: nat, i: nat)       // `fail_insert` on a child
    | ReportHead(b: nat)                // `fail_insert` on a step, or the bulk failure of a task
    | BeginClear(b: nat)                // completion enters `clear_children`
    | HideNext(b: nat)                  // one `finish_and_clear`
    | Rehome(b: nat)                    // `update_anchor_if_in`, then the entries are dropped

  predicate Enabled(s: Sys, a: Action) {
    (a.Open? || a.b < |s.blocks|) &&
    match a
    case Open(kind, children) => kind.TaskKind? || children == 0
    case AddChild(b) => s.blocks[b].phase.Building? && s.blocks[b].phase.left > 0
    case Seal(b) => s.blocks[b].phase == Building(0)
    case ReportChild(b, i) => s.blocks[b].phase.Live? && i < |s.blocks[b].kids|
    case ReportHead(b) => s.blocks[b].phase.Live? && !s.blocks[b].kind.SpaceKind?
    case BeginClear(b) => s.blocks[b].phase.Live? && s.blocks[b].kind.TaskKind?
    case HideNext(b) => s.blocks[b].phase.Clearing? && s.blocks[b].phase.todo != []
    case Rehome(b) => s.blocks[b].phase.Clearing? && s.blocks[b].phase.todo == []
  }

  function Do(s: Sys, a: Action): Sys
    requires Enabled(s, a)
  {
    var l := s.layout;
    match a
    case Open(kind, children) =>
      Sys(l.Insert(), s.blocks + [Block(kind, Rend(l.next, []), [],
                                        if kind.TaskKind? then Building(children) else Live)])
    case AddChild(b) =>
      var B := s.blocks[b];
      Sys(l.InsertBelow(B.Point()),
          s.blocks[b := B.(kids := B.kids + [Rend(l.next, [])], phase := Building(B.phase.left - 1))])
    case Seal(b) =>
      var B := s.blocks[b];
      Sys(l.SetAnchor(B.Point()), s.blocks[b := B.(phase := Live)])
    case ReportChild(b, i) =>
      var B := s.blocks[b];
      var r := B.kids[i];
      Sys(l.InsertBelow(r.node),
          s.blocks[b := B.(kids := B.kids[i := r.(inserted := r.inserted + [l.next])])])
    case ReportHead(b) =>
      var B := s.blocks[b];
      Sys(l.InsertBelow(B.head.node),
          s.blocks[b := B.(head := B.head.(inserted := B.head.inserted + [l.next]),
                           phase := if B.kind.TaskKind? then Clearing([], ClearList(B.kids)) else Live)])
    case BeginClear(b) =>
      var B := s.blocks[b];
      Sys(l, s.blocks[b := B.(phase := Clearing([], ClearList(B.kids)))])
    case HideNext(b) =>
      var B := s.blocks[b];
      Sys(l.Hide({B.phase.todo[0]}),
          s.blocks[b := B.(phase := Clearing(B.phase.gone + [B.phase.todo[0]], B.phase.todo[1..]))])
    case Rehome(b) =>
      var B := s.blocks[b];
      Sys(l.UpdateAnchorIfIn(B.phase.gone, B.head.node),
          s.blocks[b := B.(kids := [], phase := Closed)])
  }

  /** The one exception: re-homing the anchor onto a head that already has a report below it. */
  predicate HarmlessRehome(s: Sys, b: nat)
    requires b < |s.blocks| && s.blocks[b].phase.Clearing?
  {
    s.blocks[b].head.inserted == [] ||
    !(s.layout.anchor.Some? && s.layout.anchor.value in s.blocks[b].phase.gone)
  }

  predicate Allowed(s: Sys, a: Action) {
    Enabled(s, a) && (a.Rehome? ==> HarmlessRehome(s, a.b))
  }

  predicate Possible(s: Sys, acts: seq<Action>)
    decreases |acts|
  {
    acts == [] || (Enabled(s, acts[0]) && Possible(Do(s, acts[0]), acts[1..]))
  }

  function Run(s: Sys, acts: seq<Action>): Sys
    requires Possible(s, acts)
    decreases |acts|
  {
    if acts == [] then s else Run(Do(s, acts[0]), acts[1..])
  }

  /** A possible interleaving without the excluded re-homing. */
  ghost predicate Legal(s: Sys, acts: seq<Action>)
    decreases |acts|
  {
    acts == [] || (Allowed(s, acts[0]) && Legal(Do(s, acts[0]), acts[1..]))
  }

  /** A caller's view of the same exclusion, checked before a bulk failure is called: the task has no
      entries, or its block does not hold the anchor. */
  predicate CallerGuard(s: Sys, b: nat)
    requires b < |s.blocks|
  {
    s.blocks[b].kids == [] || !(s.layout.anchor.Some? && s.layout.anchor.value in Flat(s.blocks[b]))
  }

  /** A moment of a run: some thread calls `perform_fail` on a task, or acts on the layout. */
  datatype Moment = CallBulkFailure(b: nat) | Act(a: Action)

  function Acts(moments: seq<Moment>): seq<Action> {
    if moments == [] then []
    else (if moments[0].Act? then [moments[0].a] else []) + Acts(moments[1..])
  }

  /** Every head of a task is reported inside a bulk failure (`failing` are those under way), and each
      of these was called while the guard held. Between the call and the head report the task's own
      stages are reported, and the other threads do what they like. */
  ghost predicate Guarded(s: Sys, moments: seq<Moment>, failing: set<nat>)
    decreases |moments|
  {
    moments == [] ||
    match moments[0]
    case CallBulkFailure(b) =>
      && b < |s.blocks| && s.blocks[b].kind.TaskKind? && s.blocks[b].phase.Live?
      && CallerGuard(s, b)
      && Guarded(s, moments[1..], failing + {b})
    case Act(a) =>
      && Enabled(s, a)
      && (a.ReportHead? && s.blocks[a.b].kind.TaskKind? ==> a.b in failing)
      && Guarded(Do(s, a), moments[1..], failing)
  }

  // ---------------------------------------------------------------- what is to be shown

  predicate InRange(arr: seq<nat>, n: nat) {
    forall i :: 0 <= i < |arr| ==> arr[i] < n
  }

  /** The display of the blocks in the order `arr`: block after block, each one whole. */
  function Cat(blocks: seq<Block>, hidden: set<NodeId>, arr: seq<nat>): seq<NodeId>
    requires InRange(arr, |blocks|)
  {
    if arr == [] then []
    else Shown(Flat(blocks[arr[0]]), hidden) + Cat(blocks, hidden, arr[1..])
  }

  ghost predicate IsArrangement(arr: seq<nat>, n: nat) {
    && |arr| == n
    && NoDup(arr)
    && InRange(arr, n)
    && (forall b: nat :: b < n ==> b in arr)
  }

  /** The display is a concatenation of whole blocks, and the anchor sits at the visible end of
      block number `k` of that order. */
  ghost predicate Displays(s: Sys, arr: seq<nat>, k: nat) {
    && IsArrangement(arr, |s.blocks|)
    && s.layout.Visible() == Cat(s.blocks, s.layout.hidden, arr)
    && (s.layout.anchor.Some? <==> arr != [])
    && (s.layout.anchor.Some? ==>
          && k < |arr|
          && s.layout.anchor.value in s.layout.order
          && Shown(UpTo(s.layout.order, s.layout.anchor.value), s.layout.hidden) ==
             Cat(s.blocks, s.layout.hidden, arr[..k + 1]))
  }

  ghost predicate Good(s: Sys) {
    exists arr: seq<nat>, k: nat :: Displays(s, arr, k)
  }

  // ---------------------------------------------------------------- the invariant

  ghost predicate PhaseOk(b: Block, hidden: set<NodeId>) {
    match b.phase
    case Clearing(gone, todo) =>
      && b.kind.TaskKind?
      && gone + todo == ClearList(b.kids)
      && (forall n <- gone :: n in hidden)
      && (forall n <- todo :: n !in hidden)
      && (forall n <- Line(b.head) :: n !in hidden)
    case Closed => b.kids == [] && forall n <- Flat(b) :: n !in hidden
    case Building(_) =>
      && b.kind.TaskKind?
      && b.head.inserted == []
      && (forall r <- b.kids :: r.inserted == [])
      && (forall n <- Flat(b) :: n !in hidden)
    case Live => forall n <- Flat(b) :: n !in hidden
  }

  ghost predicate Apart(blocks: seq<Block>) {
    forall i: nat, j: nat, n | i < |blocks| && j < |blocks| && i != j && n in Flat(blocks[i]) :: n !in Flat(blocks[j])
  }

  ghost predicate BlocksOk(s: Sys) {
    && (forall b: nat :: b < |s.blocks| ==>
          && NoDup(Flat(s.blocks[b]))
          && PhaseOk(s.blocks[b], s.layout.hidden))
    && (forall b: nat, n | b < |s.blocks| && n in Flat(s.blocks[b]) :: n in s.layout.order)
    && Apart(s.blocks)
  }

  /** The inductive invariant, with the block order and the anchored block as witnesses. */
  ghost predicate Inv(s: Sys, arr: seq<nat>, k: nat) {
    && s.layout.WellFormed()
    && BlocksOk(s)
    && Displays(s, arr, k)
    && (arr != [] ==> k < |arr| && s.layout.anchor.value == Last(Flat(s.blocks[arr[k]])))
  }

  /** How an action moves the witnesses. */
  function NextArr(s: Sys, arr: seq<nat>, k: nat, a: Action): seq<nat> {
    if !a.Open? then arr
    else if arr == [] then [|s.blocks|]
    else if k < |arr| then arr[..k + 1] + [|s.blocks|] + arr[k + 1..]
    else arr
  }

  ghost function NextK(arr: seq<nat>, k: nat, a: Action): nat
    requires a.Seal? ==> a.b in arr
  {
    match a
    case Open(_, _) => if arr == [] then 0 else k + 1
    case Seal(b) => var i: nat :| i < |arr| && arr[i] == b; i
    case _ => k
  }

  // ---------------------------------------------------------------- concatenations of blocks

  lemma {:induction false} CatConcat(blocks: seq<Block>, hidden: set<NodeId>, xs: seq<nat>, ys: seq<nat>)
    requires InRange(xs, |blocks|) && InRange(ys, |blocks|)
    ensures InRange(xs + ys, |blocks|)
    ensures Cat(blocks, hidden, xs + ys) == Cat(blocks, hidden, xs) + Cat(blocks, hidden, ys)
  {
    hide Flat, Shown;
    if xs == [] {
      assert xs + ys == ys;
    } else {
      assert (xs + ys)[1..] == xs[1..] + ys;
      CatConcat(blocks, hidden, xs[1..], ys);
    }
  }

  lemma {:induction false} CatSame(blocks: seq<Block>, hidden: set<NodeId>, blocks': seq<Block>,
                                   hidden': set<NodeId>, arr: seq<nat>)
    requires InRange(arr, |blocks|) && InRange(arr, |blocks'|)
    requires forall i :: 0 <= i < |arr| ==>
               Shown(Flat(blocks'[arr[i]]), hidden') == Shown(Flat(blocks[arr[i]]), hidden)
    ensures Cat(blocks', hidden', arr) == Cat(blocks, hidden, arr)
  {
    if arr != [] {
      CatSame(blocks, hidden, blocks', hidden', arr[1..]);
    }
  }

  lemma {:induction false} CatHide(blocks: seq<Block>, hidden: set<NodeId>, more: set<NodeId>, arr: seq<nat>)
    requires InRange(arr, |blocks|)
    ensures Cat(blocks, hidden + more, arr) == Shown(Cat(blocks, hidden, arr), more)
  {
    if arr != [] {
      CatHide(blocks, hidden, more, arr[1..]);
      ShownMore(Flat(blocks[arr[0]]), hidden, more);
      ShownConcat(Shown(Flat(blocks[arr[0]]), hidden), Cat(blocks, hidden, arr[1..]), more);
    }
  }

  lemma {:induction false} CatMembers(blocks: seq<Block>, hidden: set<NodeId>, arr: seq<nat>, x: NodeId)
    requires InRange(arr, |blocks|)
    ensures x in Cat(blocks, hidden, arr) <==>
            exists i :: 0 <= i < |arr| && x in Flat(blocks[arr[i]]) && x !in hidden
  {
    if arr != [] {
      CatMembers(blocks, hidden, arr[1..], x);
      if x in Cat(blocks, hidden, arr) && x !in Shown(Flat(blocks[arr[0]]), hidden) {
        var i :| 0 <= i < |arr[1..]| && x in Flat(blocks[arr[1..][i]]) && x !in hidden;
        assert x in Flat(blocks[arr[i + 1]]);
      }
      if i :| 0 <= i < |arr| && x in Flat(blocks[arr[i]]) && x !in hidden {
        if i > 0 {
          assert arr[i] == arr[1..][i - 1];
        }
      }
    }
  }

  /** One block grows below one of its nodes: the concatenation grows below that node. */
  lemma {:induction false} CatGrow(blocks: seq<Block>, hidden: set<NodeId>, arr: seq<nat>,
                                   b: nat, B: Block, x: NodeId, n: NodeId)
    requires InRange(arr, |blocks|) && NoDup(arr) && b < |blocks|
    requires Apart(blocks) && x in Flat(blocks[b]) && x !in hidden && n !in hidden
    requires Flat(B) == InsertAfter(Flat(blocks[b]), x, n)
    ensures x in Cat(blocks, hidden, arr) <==> b in arr
    ensures Cat(blocks[b := B], hidden, arr) ==
            if b in arr then InsertAfter(Cat(blocks, hidden, arr), x, n) else Cat(blocks, hidden, arr)
  {
    if arr != [] {
      var first, rest := Shown(Flat(blocks[arr[0]]), hidden), Cat(blocks, hidden, arr[1..]);
      CatGrow(blocks, hidden, arr[1..], b, B, x, n);
      InsertAfterConcat(first, rest, x, n);
      if arr[0] == b {
        assert b !in arr[1..];
        ShownInsertAfter(Flat(blocks[b]), hidden, x, n);
      } else {
        assert x !in first;
        assert b in arr <==> b in arr[1..];
      }
    }
  }

  lemma FlatNonempty(b: Block)
    ensures Flat(b) != [] && Flat(b)[0] == b.head.node
  {}

  lemma GrowKeepsBlocksOk(s: Sys, b: nat, x: NodeId, B: Block)
    requires s.layout.WellFormed() && BlocksOk(s) && b < |s.blocks|
    requires x in Flat(s.blocks[b])
    requires Flat(B) == InsertAfter(Flat(s.blocks[b]), x, s.layout.next)
    requires PhaseOk(B, s.layout.hidden)
    ensures BlocksOk(Sys(s.layout.InsertBelow(x), s.blocks[b := B]))
  {
    var n := s.layout.next;
    InsertBelowKeepsWellFormed(s.layout, x);
    InsertAfterMembers(Flat(s.blocks[b]), x, n);
    InsertAfterNoDup(Flat(s.blocks[b]), x, n);
    hide Flat, InsertAfter, PhaseOk, NoDup;
  }

  /** The part of the display that ends at the anchor grows when its last block grows at the anchor. */
  lemma GrowAtAnchor(l: Layout, shown: seq<NodeId>, x: NodeId)
    requires l.WellFormed() && l.anchor == Some(x) && x !in l.hidden
    requires Shown(UpTo(l.order, x), l.hidden) == shown
    ensures Shown(UpTo(l.InsertBelow(x).order, l.next), l.hidden) == InsertAfter(shown, x, l.next)
  {
    var n := l.next;
    UpToInserted(l.order, x, n);
    ShownConcat(UpTo(l.order, x), [n], l.hidden);
    ShownUpTo(l.order, l.hidden, x);
    UpToSelf(Shown(l.order, l.hidden), x);
  }

  /** It grows too when another node in it grows, and is unchanged when a node outside it does. */
  lemma GrowOffAnchor(l: Layout, shown: seq<NodeId>, x: NodeId)
    requires l.WellFormed() && l.anchor.Some? && l.anchor.value != x
    requires x in l.order && x !in l.hidden
    requires Shown(UpTo(l.order, l.anchor.value), l.hidden) == shown
    ensures Shown(UpTo(l.InsertBelow(x).order, l.anchor.value), l.hidden) ==
            if x in shown then InsertAfter(shown, x, l.next) else shown
  {
    UpToInsertAfter(l.order, l.anchor.value, x, l.next);
    if x in UpTo(l.order, l.anchor.value) {
      ShownInsertAfter(UpTo(l.order, l.anchor.value), l.hidden, x, l.next);
    }
  }

  /** What is shown up to the anchor stays the display of the blocks up to its own. */
  lemma GrowUpToAnchor(l: Layout, blocks: seq<Block>, front: seq<nat>, b: nat, B: Block, x: NodeId)
    requires l.WellFormed() && l.anchor.Some? && x !in l.hidden && x in l.order
    requires InRange(front, |blocks|) && NoDup(front) && Apart(blocks) && b < |blocks| && x in Flat(blocks[b])
    requires Flat(B) == InsertAfter(Flat(blocks[b]), x, l.next)
    requires l.anchor == Some(x) ==> b in front
    requires Shown(UpTo(l.order, l.anchor.value), l.hidden) == Cat(blocks, l.hidden, front)
    ensures Shown(UpTo(l.InsertBelow(x).order, l.InsertBelow(x).anchor.value), l.hidden) ==
            Cat(blocks[b := B], l.hidden, front)
  {
    hide Shown, InsertAfter, UpTo, Cat, Flat, NoDup, Apart;
    CatGrow(blocks, l.hidden, front, b, B, x, l.next);
    if l.anchor == Some(x) {
      GrowAtAnchor(l, Cat(blocks, l.hidden, front), x);
    } else {
      GrowOffAnchor(l, Cat(blocks, l.hidden, front), x);
    }
  }

  /** The anchor stays at the end of its block. */
  lemma GrowKeepsAnchorLast(l: Layout, blocks: seq<Block>, a: nat, b: nat, B: Block, x: NodeId)
    requires Apart(blocks) && a < |blocks| && b < |blocks| && NoDup(Flat(blocks[b])) && x in Flat(blocks[b])
    requires l.anchor == Some(Last(Flat(blocks[a])))
    requires Flat(B) == InsertAfter(Flat(blocks[b]), x, l.next)
    ensures l.anchor == Some(x) ==> a == b
    ensures l.InsertBelow(x).anchor == Some(Last(Flat(blocks[b := B][a])))
  {
    hide InsertAfter, NoDup;
    FlatNonempty(blocks[a]);
    FlatNonempty(B);
    assert l.anchor.value in Flat(blocks[a]);
    InsertAfterLast(Flat(blocks[b]), x, l.next);
  }

  lemma GrowKeepsDisplays(s: Sys, arr: seq<nat>, k: nat, b: nat, x: NodeId, B: Block)
    requires s.layout.WellFormed() && Displays(s, arr, k) && b < |s.blocks|
    requires Apart(s.blocks)
    requires NoDup(Flat(s.blocks[b]))
    requires arr != [] ==> s.layout.anchor.value == Last(Flat(s.blocks[arr[k]]))
    requires x in Flat(s.blocks[b]) && x !in s.layout.hidden && x in s.layout.order
    requires Flat(B) == InsertAfter(Flat(s.blocks[b]), x, s.layout.next)
    ensures Displays(Sys(s.layout.InsertBelow(x), s.blocks[b := B]), arr, k)
    ensures s.layout.InsertBelow(x).anchor.value == Last(Flat(s.blocks[b := B][arr[k]]))
  {
    hide Shown, InsertAfter, UpTo, Cat, Flat, Apart;
    var l := s.layout;
    assert b in arr;
    var front := arr[..k + 1];
    assert front[k] == arr[k];
    GrowKeepsAnchorLast(l, s.blocks, arr[k], b, B, x);
    CatGrow(s.blocks, l.hidden, arr, b, B, x, l.next);
    ShownInsertAfter(l.order, l.hidden, x, l.next);
    GrowUpToAnchor(l, s.blocks, front, b, B, x);
    InsertAfterMembers(l.order, x, l.next);
  }

  /** Inserting below a visible node of a block that hides nothing keeps the invariant. */
  lemma GrowKeepsInv(s: Sys, arr: seq<nat>, k: nat, b: nat, x: NodeId, B: Block)
    requires Inv(s, arr, k) && b < |s.blocks|
    requires x in Flat(s.blocks[b]) && x !in s.layout.hidden
    requires Flat(B) == InsertAfter(Flat(s.blocks[b]), x, s.layout.next)
    requires PhaseOk(B, s.layout.hidden)
    ensures Inv(Sys(s.layout.InsertBelow(x), s.blocks[b := B]), arr, k)
  {
    InsertBelowKeepsWellFormed(s.layout, x);
    GrowKeepsBlocksOk(s, b, x, B);
    GrowKeepsDisplays(s, arr, k, b, x, B);
  }

  // ---------------------------------------------------------------- trees of blocks

  lemma {:induction false} LinesConcat(xs: seq<Rend>, ys: seq<Rend>)
    ensures Lines(xs + ys) == Lines(xs) + Lines(ys)
  {
    if xs == [] {
      assert xs + ys == ys;
    } else {
      assert (xs + ys)[1..] == xs[1..] + ys;
      LinesConcat(xs[1..], ys);
    }
  }

  lemma {:induction false} ClearListMembers(rs: seq<Rend>)
    ensures forall n :: n in ClearList(rs) <==> n in Lines(rs)
  {
    if rs != [] {
      ClearListMembers(rs[1..]);
    }
  }

  /** A report goes directly below its node, above the older ones. */
  lemma LineReported(r: Rend, n: NodeId)
    ensures Line(r.(inserted := r.inserted + [n])) == InsertAfter(Line(r), r.node, n)
  {
    ReverseSnoc(r.inserted, n);
  }

  lemma {:induction false} KidInLines(kids: seq<Rend>, i: nat)
    requires i < |kids|
    ensures kids[i].node in Lines(kids)
  {
    if i > 0 {
      KidInLines(kids[1..], i - 1);
    }
  }

  lemma {:induction false} LinesReported(kids: seq<Rend>, i: nat, n: NodeId)
    requires i < |kids| && NoDup(Lines(kids))
    ensures kids[i].node in Lines(kids)
    ensures Lines(kids[i := kids[i].(inserted := kids[i].inserted + [n])]) ==
            InsertAfter(Lines(kids), kids[i].node, n)
  {
    var r := kids[i];
    var r' := r.(inserted := r.inserted + [n]);
    var first, rest := Line(kids[0]), Lines(kids[1..]);
    KidInLines(kids, i);
    InsertAfterConcat(first, rest, r.node, n);
    if i == 0 {
      LineReported(r, n);
      assert kids[0 := r'][1..] == kids[1..];
    } else {
      KidInLines(kids[1..], i - 1);
      NoDupConcat(first, rest);
      LinesReported(kids[1..], i - 1, n);
      assert kids[i := r'][1..] == kids[1..][i - 1 := r'];
    }
  }

  lemma NoDupConcat(xs: seq<NodeId>, ys: seq<NodeId>)
    requires NoDup(xs + ys)
    ensures NoDup(xs) && NoDup(ys)
    ensures forall x <- xs :: x !in ys
  {
    var zs := xs + ys;
    forall i | 0 <= i < |ys| ensures ys[i] == zs[|xs| + i] {}
    forall i | 0 <= i < |xs| ensures xs[i] == zs[i] {}
  }

  lemma NoDupJoin(xs: seq<NodeId>, ys: seq<NodeId>)
    requires NoDup(xs) && NoDup(ys)
    requires forall x <- xs :: x !in ys
    ensures NoDup(xs + ys)
  {
    var zs := xs + ys;
    forall i, j | 0 <= i < j < |zs| ensures zs[i] != zs[j] {
      if i < |xs| <= j {
        assert xs[i] !in ys && zs[j] in ys;
      }
    }
  }

  lemma FlatReported(b: Block, i: nat, n: NodeId)
    requires i < |b.kids| && NoDup(Flat(b))
    ensures b.kids[i].node in Flat(b)
    ensures Flat(b.(kids := b.kids[i := b.kids[i].(inserted := b.kids[i].inserted + [n])])) ==
            InsertAfter(Flat(b), b.kids[i].node, n)
  {
    NoDupConcat(Line(b.head), Lines(b.kids));
    LinesReported(b.kids, i, n);
    InsertAfterConcat(Line(b.head), Lines(b.kids), b.kids[i].node, n);
  }

  lemma FlatHeadReported(b: Block, n: NodeId)
    ensures Flat(b.(head := b.head.(inserted := b.head.inserted + [n]))) ==
            InsertAfter(Flat(b), b.head.node, n)
  {
    LineReported(b.head, n);
    InsertAfterConcat(Line(b.head), Lines(b.kids), b.head.node, n);
  }

  /** While a block is under construction its newest child is its last node. */
  lemma PointIsLast(b: Block)
    requires b.head.inserted == [] && forall r <- b.kids :: r.inserted == []
    ensures Last(Flat(b)) == b.Point() && b.Point() in Flat(b)
  {
    if b.kids != [] {
      var front := b.kids[..|b.kids| - 1];
      assert b.kids == front + [Last(b.kids)];
      LinesConcat(front, [Last(b.kids)]);
      assert Lines([Last(b.kids)]) == Line(Last(b.kids)) + Lines([]);
      assert Last(b.kids).inserted == [];
    }
  }

  lemma FlatExtended(b: Block, n: NodeId)
    requires NoDup(Flat(b))
    requires b.head.inserted == [] && forall r <- b.kids :: r.inserted == []
    ensures Flat(b.(kids := b.kids + [Rend(n, [])])) == InsertAfter(Flat(b), b.Point(), n)
  {
    PointIsLast(b);
    UpToLastOfNoDup(Flat(b));
    LinesConcat(b.kids, [Rend(n, [])]);
    assert Lines([Rend(n, [])]) == [n];
  }

  // ---------------------------------------------------------------- every action keeps the invariant

  lemma ChildAdded(b: Block, n: NodeId, hidden: set<NodeId>)
    requires NoDup(Flat(b)) && PhaseOk(b, hidden) && b.phase.Building? && b.phase.left > 0
    requires n !in hidden
    ensures b.Point() in Flat(b) && b.Point() !in hidden
    ensures var b' := b.(kids := b.kids + [Rend(n, [])], phase := Building(b.phase.left - 1));
            Flat(b') == InsertAfter(Flat(b), b.Point(), n) && PhaseOk(b', hidden)
  {
    PointIsLast(b);
    FlatExtended(b, n);
    InsertAfterMembers(Flat(b), b.Point(), n);
    assert Flat(b.(kids := b.kids + [Rend(n, [])], phase := Building(b.phase.left - 1))) ==
           Flat(b.(kids := b.kids + [Rend(n, [])]));
  }

  lemma AddChildKeepsInv(s: Sys, arr: seq<nat>, k: nat, b: nat)
    requires Inv(s, arr, k) && Enabled(s, AddChild(b))
    ensures Inv(Do(s, AddChild(b)), arr, k)
  {
    ChildAdded(s.blocks[b], s.layout.next, s.layout.hidden);
    GrowKeepsInv(s, arr, k, b, s.blocks[b].Point(), Do(s, AddChild(b)).blocks[b]);
  }

  lemma ReportChildKeepsInv(s: Sys, arr: seq<nat>, k: nat, b: nat, i: nat)
    requires Inv(s, arr, k) && Enabled(s, ReportChild(b, i))
    ensures Inv(Do(s, ReportChild(b, i)), arr, k)
  {
    var B := s.blocks[b];
    FlatReported(B, i, s.layout.next);
    InsertAfterMembers(Flat(B), B.kids[i].node, s.layout.next);
    GrowKeepsInv(s, arr, k, b, B.kids[i].node, Do(s, ReportChild(b, i)).blocks[b]);
  }

  lemma ReportHeadKeepsInv(s: Sys, arr: seq<nat>, k: nat, b: nat)
    requires Inv(s, arr, k) && Enabled(s, ReportHead(b))
    ensures Inv(Do(s, ReportHead(b)), arr, k)
  {
    var B := s.blocks[b];
    FlatHeadReported(B, s.layout.next);
    InsertAfterMembers(Flat(B), B.head.node, s.layout.next);
    ClearListMembers(B.kids);
    GrowKeepsInv(s, arr, k, b, B.head.node, Do(s, ReportHead(b)).blocks[b]);
  }

  /** Replacing a block by one that shows the same nodes. */
  lemma SwapKeepsInv(s: Sys, arr: seq<nat>, k: nat, b: nat, B: Block)
    requires Inv(s, arr, k) && b < |s.blocks|
    requires Flat(B) == Flat(s.blocks[b]) && PhaseOk(B, s.layout.hidden)
    ensures Inv(Sys(s.layout, s.blocks[b := B]), arr, k)
  {
    var s' := Sys(s.layout, s.blocks[b := B]);
    SwapKeepsBlocksOk(s, b, B);
    SwapKeepsDisplays(s, arr, k, b, B, s.layout.hidden);
    assert arr != [] ==> Flat(s'.blocks[arr[k]]) == Flat(s.blocks[arr[k]]);
  }

  lemma SwapKeepsBlocksOk(s: Sys, b: nat, B: Block)
    requires BlocksOk(s) && b < |s.blocks|
    requires Flat(B) == Flat(s.blocks[b]) && PhaseOk(B, s.layout.hidden)
    ensures BlocksOk(Sys(s.layout, s.blocks[b := B]))
  {
    var s' := Sys(s.layout, s.blocks[b := B]);
    forall c: nat | c < |s.blocks| ensures Flat(s'.blocks[c]) == Flat(s.blocks[c]) {}
  }

  lemma SwapKeepsDisplays(s: Sys, arr: seq<nat>, k: nat, b: nat, B: Block, hidden: set<NodeId>)
    requires Displays(s, arr, k) && b < |s.blocks| && hidden == s.layout.hidden
    requires Shown(Flat(B), hidden) == Shown(Flat(s.blocks[b]), hidden)
    ensures Displays(Sys(s.layout, s.blocks[b := B]), arr, k)
  {
    CatSame(s.blocks, hidden, s.blocks[b := B], hidden, arr);
    if arr != [] {
      CatSame(s.blocks, hidden, s.blocks[b := B], hidden, arr[..k + 1]);
    }
  }

  lemma BeginClearKeepsInv(s: Sys, arr: seq<nat>, k: nat, b: nat)
    requires Inv(s, arr, k) && Enabled(s, BeginClear(b))
    ensures Inv(Do(s, BeginClear(b)), arr, k)
  {
    ClearListMembers(s.blocks[b].kids);
    SwapKeepsInv(s, arr, k, b, Do(s, BeginClear(b)).blocks[b]);
  }

  /** The display up to a block ends with what is shown of this block. */
  lemma CatEnds(blocks: seq<Block>, hidden: set<NodeId>, arr: seq<nat>, i: nat)
    requires InRange(arr, |blocks|) && i < |arr|
    ensures Cat(blocks, hidden, arr[..i + 1]) == Cat(blocks, hidden, arr[..i]) + Shown(Flat(blocks[arr[i]]), hidden)
  {
    hide Flat, Shown;
    var last: seq<nat> := [arr[i]];
    assert arr[..i + 1] == arr[..i] + last;
    CatConcat(blocks, hidden, arr[..i], last);
    assert last[1..] == [];
  }

  lemma CatSplit(blocks: seq<Block>, hidden: set<NodeId>, arr: seq<nat>, i: nat)
    requires InRange(arr, |blocks|) && i <= |arr|
    ensures InRange(arr[..i], |blocks|) && InRange(arr[i..], |blocks|)
    ensures Cat(blocks, hidden, arr) == Cat(blocks, hidden, arr[..i]) + Cat(blocks, hidden, arr[i..])
  {
    hide Cat;
    assert arr == arr[..i] + arr[i..];
    CatConcat(blocks, hidden, arr[..i], arr[i..]);
  }

  lemma LastOfConcat(xs: seq<NodeId>, ys: seq<NodeId>)
    requires ys != []
    ensures xs + ys != [] && Last(xs + ys) == Last(ys)
  {
  }

  /** Cutting a list at the last element of its front part. */
  lemma UpToFrontEnd(front: seq<NodeId>, back: seq<NodeId>)
    requires NoDup(front + back) && front != []
    ensures UpTo(front + back, Last(front)) == front
  {
    NoDupConcat(front, back);
    UpToConcat(front, back, Last(front));
    UpToLastOfNoDup(front);
  }

  /** Cutting an order at the last element of the front part of what it shows. */
  lemma CutAtShownEnd(order: seq<NodeId>, hidden: set<NodeId>, front: seq<NodeId>, back: seq<NodeId>)
    requires NoDup(order) && Shown(order, hidden) == front + back && front != []
    ensures Last(front) in order && Shown(UpTo(order, Last(front)), hidden) == front
  {
    hide UpTo, NoDup, Shown;
    ShownNoDup(order, hidden);
    UpToFrontEnd(front, back);
    assert Last(front) in front + back;
    ShownUpTo(order, hidden, Last(front));
  }

  /** The display up to the last shown node of a block ends with this block. */
  lemma CutAtBlockEnd(l: Layout, blocks: seq<Block>, arr: seq<nat>, i: nat)
    requires InRange(arr, |blocks|) && i < |arr| && NoDup(l.order) && l.Visible() == Cat(blocks, l.hidden, arr)
    requires Shown(Flat(blocks[arr[i]]), l.hidden) != []
    ensures var e := Last(Shown(Flat(blocks[arr[i]]), l.hidden));
            e in l.order && Shown(UpTo(l.order, e), l.hidden) == Cat(blocks, l.hidden, arr[..i + 1])
  {
    var mine := Shown(Flat(blocks[arr[i]]), l.hidden);
    hide Flat, Cat, UpTo, NoDup, Shown, InRange, Last;
    CatSplit(blocks, l.hidden, arr, i + 1);
    CatSplit(blocks, l.hidden, arr, i);
    CatEnds(blocks, l.hidden, arr, i);
    LastOfConcat(Cat(blocks, l.hidden, arr[..i]), mine);
    CutAtShownEnd(l.order, l.hidden, Cat(blocks, l.hidden, arr[..i + 1]), Cat(blocks, l.hidden, arr[i + 1..]));
  }

  /** The anchor may move to the last node of any block that hides nothing. */
  lemma AnchorAtBlockEnd(s: Sys, arr: seq<nat>, k: nat, b: nat, i: nat)
    requires Inv(s, arr, k) && b < |s.blocks| && i < |arr| && arr[i] == b
    requires Shown(Flat(s.blocks[b]), s.layout.hidden) != []
    ensures var e := Last(Shown(Flat(s.blocks[b]), s.layout.hidden));
            Displays(s.(layout := s.layout.SetAnchor(e)), arr, i)
  {
    hide BlocksOk, Flat, Cat, UpTo, NoDup, Shown;
    CutAtBlockEnd(s.layout, s.blocks, arr, i);
  }

  lemma SealKeepsInv(s: Sys, arr: seq<nat>, k: nat, b: nat, i: nat)
    requires Inv(s, arr, k) && Enabled(s, Seal(b)) && i < |arr| && arr[i] == b
    ensures Inv(Do(s, Seal(b)), arr, i)
  {
    var B := s.blocks[b];
    PointIsLast(B);
    ShownAll(Flat(B), s.layout.hidden);
    AnchorAtBlockEnd(s, arr, k, b, i);
    var s1 := s.(layout := s.layout.SetAnchor(B.Point()));
    SwapKeepsInv(s1, arr, i, b, B.(phase := Live));
  }

  lemma OpenKeepsInv(s: Sys, arr: seq<nat>, k: nat, a: Action)
    requires Inv(s, arr, k) && a.Open? && Enabled(s, a)
    ensures Inv(Do(s, a), NextArr(s, arr, k, a), if arr == [] then 0 else k + 1)
  {
    var l, n := s.layout, s.layout.next;
    var s' := Do(s, a);
    var B := Last(s'.blocks);
    assert Flat(B) == [n];
    InsertKeepsWellFormed(l);
    OpenKeepsBlocksOk(s, a);
    if arr == [] {
      FirstOpenDisplays(s, k, a);
    } else {
      LaterOpenDisplays(s, arr, k, a);
    }
  }

  lemma OpenKeepsBlocksOk(s: Sys, a: Action)
    requires s.layout.WellFormed() && BlocksOk(s) && a.Open? && Enabled(s, a)
    ensures BlocksOk(Do(s, a))
  {
    InsertKeepsWellFormed(s.layout);
    var s' := Do(s, a);
    assert Flat(Last(s'.blocks)) == [s.layout.next];
    forall b: nat | b < |s.blocks| ensures s'.blocks[b] == s.blocks[b] {}
  }

  lemma OpenShows(l: Layout)
    requires l.WellFormed() && l.anchor.Some?
    ensures var u, v := UpTo(l.order, l.anchor.value), Beyond(l.order, l.anchor.value);
            && l.Visible() == Shown(u, l.hidden) + Shown(v, l.hidden)
            && l.Insert().Visible() == Shown(u, l.hidden) + [l.next] + Shown(v, l.hidden)
            && Shown(UpTo(l.Insert().order, l.next), l.hidden) == Shown(u, l.hidden) + [l.next]
  {
    var u, v := UpTo(l.order, l.anchor.value), Beyond(l.order, l.anchor.value);
    InsertKeepsWellFormed(l);
    SplitAt(l.order, l.anchor.value);
    ShownConcat(u, v, l.hidden);
    ShownConcat(u + [l.next], v, l.hidden);
    ShownConcat(u, [l.next], l.hidden);
    assert Shown([l.next], l.hidden) == [l.next];
    UpToInserted(l.order, l.anchor.value, l.next);
  }

  /** A new block that shows one node, put between `front` and `back`. */
  lemma CatOpened(blocks: seq<Block>, blocks': seq<Block>, h: set<NodeId>, front: seq<nat>, back: seq<nat>, n: NodeId)
    requires InRange(front, |blocks|) && InRange(back, |blocks|)
    requires |blocks'| == |blocks| + 1 && blocks'[..|blocks|] == blocks
    requires Flat(blocks'[|blocks|]) == [n] && n !in h
    ensures InRange(front + [|blocks|], |blocks'|) && InRange(front + [|blocks|] + back, |blocks'|)
    ensures Cat(blocks', h, front + [|blocks|]) == Cat(blocks, h, front) + [n]
    ensures Cat(blocks', h, front + [|blocks|] + back) == Cat(blocks, h, front) + [n] + Cat(blocks, h, back)
  {
    var m := |blocks|;
    forall b: nat | b < m ensures blocks'[b] == blocks[b] {
      assert blocks'[b] == blocks'[..m][b];
    }
    CatSame(blocks, h, blocks', h, front);
    CatSame(blocks, h, blocks', h, back);
    assert Cat(blocks', h, [m]) == [n] by {
      assert Shown([n], h) == [n];
      assert [m][1..] == [];
    }
    CatConcat(blocks', h, front, [m]);
    CatConcat(blocks', h, front + [m], back);
  }

  lemma FirstOpenDisplays(s: Sys, k: nat, a: Action)
    requires s.layout.WellFormed() && Displays(s, [], k) && a.Open? && Enabled(s, a)
    ensures Displays(Do(s, a), [0], 0)
  {
    var l, s' := s.layout, Do(s, a);
    assert l.order == [] && s.blocks == [] && s'.layout.order == [l.next];
    assert Shown([l.next], l.hidden) == [l.next];
    assert Flat(s'.blocks[0]) == [l.next];
    var arr': seq<nat> := [0];
    assert arr'[..1] == arr' && arr'[1..] == [];
    assert Cat(s'.blocks, l.hidden, arr') == [l.next] + Cat(s'.blocks, l.hidden, []);
  }

  lemma CancelPrefix(xs: seq<NodeId>, ys: seq<NodeId>, zs: seq<NodeId>)
    requires xs + ys == xs + zs
    ensures ys == zs
  {
    assert ys == (xs + ys)[|xs|..] && zs == (xs + zs)[|xs|..];
  }

  lemma LaterOpenShows(l: Layout, blocks: seq<Block>, front: seq<nat>, back: seq<nat>, blocks': seq<Block>)
    requires l.WellFormed() && l.anchor.Some?
    requires InRange(front, |blocks|) && InRange(back, |blocks|)
    requires l.Visible() == Cat(blocks, l.hidden, front) + Cat(blocks, l.hidden, back)
    requires Shown(UpTo(l.order, l.anchor.value), l.hidden) == Cat(blocks, l.hidden, front)
    requires |blocks'| == |blocks| + 1 && blocks'[..|blocks|] == blocks
    requires Flat(blocks'[|blocks|]) == [l.next]
    ensures InRange(front + [|blocks|], |blocks'|) && InRange(front + [|blocks|] + back, |blocks'|)
    ensures l.Insert().Visible() == Cat(blocks', l.hidden, front + [|blocks|] + back)
    ensures Shown(UpTo(l.Insert().order, l.next), l.hidden) == Cat(blocks', l.hidden, front + [|blocks|])
  {
    OpenShows(l);
    CancelPrefix(Cat(blocks, l.hidden, front), Shown(Beyond(l.order, l.anchor.value), l.hidden),
                 Cat(blocks, l.hidden, back));
    assert l.next !in l.hidden;
    CatOpened(blocks, blocks', l.hidden, front, back, l.next);
  }

  lemma LaterOpenDisplays(s: Sys, arr: seq<nat>, k: nat, a: Action)
    requires s.layout.WellFormed() && Displays(s, arr, k) && arr != [] && a.Open? && Enabled(s, a)
    ensures Displays(Do(s, a), arr[..k + 1] + [|s.blocks|] + arr[k + 1..], k + 1)
  {
    var s' := Do(s, a);
    var front, back := arr[..k + 1], arr[k + 1..];
    InsertKeepsWellFormed(s.layout);
    assert Flat(s'.blocks[|s.blocks|]) == [s.layout.next];
    assert arr == front + back;
    CatConcat(s.blocks, s.layout.hidden, front, back);
    LaterOpenShows(s.layout, s.blocks, front, back, s'.blocks);
    InsertedIsArrangement(arr, k, |s.blocks|);
    assert (front + [|s.blocks|] + back)[..k + 2] == front + [|s.blocks|];
  }

  lemma InsertedIsArrangement(arr: seq<nat>, k: nat, n: nat)
    requires IsArrangement(arr, n) && k < n
    ensures IsArrangement(arr[..k + 1] + [n] + arr[k + 1..], n + 1)
  {
    var arr' := arr[..k + 1] + [n] + arr[k + 1..];
    forall b: nat | b < n + 1 ensures b in arr' {
      if b < n {
        assert b in arr;
        var i :| 0 <= i < |arr| && arr[i] == b;
        assert arr'[if i <= k then i else i + 1] == b;
      } else {
        assert arr'[k + 1] == b;
      }
    }
  }

  lemma HideNextKeepsInv(s: Sys, arr: seq<nat>, k: nat, b: nat)
    requires Inv(s, arr, k) && Enabled(s, HideNext(b))
    ensures Inv(Do(s, HideNext(b)), arr, k)
  {
    var l, B := s.layout, s.blocks[b];
    var x := B.phase.todo[0];
    var s' := Do(s, HideNext(b));
    HideNextKeepsBlocksOk(s, b);
    forall c: nat | c < |s.blocks| ensures Flat(s'.blocks[c]) == Flat(s.blocks[c]) {}
    ShownMore(l.order, l.hidden, {x});
    CatSame(s.blocks, s'.layout.hidden, s'.blocks, s'.layout.hidden, arr);
    CatHide(s.blocks, l.hidden, {x}, arr);
    if arr != [] {
      ShownMore(UpTo(l.order, l.anchor.value), l.hidden, {x});
      CatSame(s.blocks, s'.layout.hidden, s'.blocks, s'.layout.hidden, arr[..k + 1]);
      CatHide(s.blocks, l.hidden, {x}, arr[..k + 1]);
    }
  }

  lemma ClearListSplit(b: Block, gone: seq<NodeId>, todo: seq<NodeId>)
    requires NoDup(Flat(b)) && gone + todo == ClearList(b.kids) && todo != []
    ensures todo[0] in Lines(b.kids) && todo[0] !in Line(b.head)
    ensures forall n <- todo[1..] :: n != todo[0]
  {
    ClearListMembers(b.kids);
    assert todo[0] == (gone + todo)[|gone|];
    NoDupConcat(Line(b.head), Lines(b.kids));
    ClearListNoDup(b.kids);
    NoDupConcat(gone, todo);
  }

  lemma {:induction false} ReverseNoDup(xs: seq<NodeId>)
    requires NoDup(Reverse(xs))
    ensures NoDup(xs)
  {
    if xs != [] {
      NoDupConcat(Reverse(xs[1..]), [xs[0]]);
      ReverseNoDup(xs[1..]);
      assert xs == [xs[0]] + xs[1..];
      NoDupJoin([xs[0]], xs[1..]);
    }
  }

  lemma {:induction false} ClearListNoDup(rs: seq<Rend>)
    requires NoDup(Lines(rs))
    ensures NoDup(ClearList(rs))
  {
    if rs != [] {
      var r := rs[0];
      NoDupConcat(Line(r), Lines(rs[1..]));
      NoDupConcat([r.node], Reverse(r.inserted));
      ReverseNoDup(r.inserted);
      ClearListNoDup(rs[1..]);
      ClearListMembers(rs[1..]);
      var first := [r.node] + r.inserted;
      assert forall n :: n in first <==> n in Line(r);
      NoDupJoin([r.node], r.inserted);
      NoDupJoin(first, ClearList(rs[1..]));
    }
  }

  lemma HideNextKeepsBlocksOk(s: Sys, b: nat)
    requires s.layout.WellFormed() && BlocksOk(s) && Enabled(s, HideNext(b))
    ensures BlocksOk(Do(s, HideNext(b)))
    ensures Do(s, HideNext(b)).layout.WellFormed()
  {
    var B := s.blocks[b];
    var x := B.phase.todo[0];
    var s' := Do(s, HideNext(b));
    ClearListSplit(B, B.phase.gone, B.phase.todo);
    assert x in Flat(B);
    assert B.phase.gone + [x] + B.phase.todo[1..] == ClearList(B.kids);
    forall c: nat | c < |s.blocks|
      ensures Flat(s'.blocks[c]) == Flat(s.blocks[c]) && PhaseOk(s'.blocks[c], s'.layout.hidden)
    {
      if c != b {
        assert x !in Flat(s.blocks[c]);
        if s.blocks[c].phase.Clearing? {
          ClearListMembers(s.blocks[c].kids);
          forall n <- s.blocks[c].phase.todo ensures n in Flat(s.blocks[c]) {
            assert n in s.blocks[c].phase.gone + s.blocks[c].phase.todo;
          }
        }
      }
    }
  }

  /** With all children cleared, a block shows its head line, and its cleared nodes are its own. */
  lemma ClearingShowsHead(s: Sys, b: nat)
    requires BlocksOk(s) && Enabled(s, Rehome(b))
    ensures Shown(Flat(s.blocks[b]), s.layout.hidden) == Line(s.blocks[b].head) == Shown(Line(s.blocks[b].head), s.layout.hidden)
    ensures forall n <- s.blocks[b].phase.gone :: n in Flat(s.blocks[b])
    ensures Flat(Do(s, Rehome(b)).blocks[b]) == Line(s.blocks[b].head)
  {
    var B := s.blocks[b];
    assert PhaseOk(B, s.layout.hidden) && B.phase.gone + B.phase.todo == B.phase.gone;
    hide InsertAfter, NoDup, BlocksOk, Shown;
    ClearListMembers(B.kids);
    ClearedShowsHead(B, s.layout.hidden);
  }

  /** The anchor was on a cleared child: it moves up to the head, which has no report. */
  lemma RehomeMoves(s: Sys, arr: seq<nat>, k: nat, b: nat)
    requires Inv(s, arr, k) && Enabled(s, Rehome(b)) && HarmlessRehome(s, b)
    requires s.layout.anchor.Some? && s.layout.anchor.value in s.blocks[b].phase.gone
    ensures Displays(Do(s, Rehome(b)), arr, k) && k < |arr| && arr[k] == b
  {
    var l, B, s' := s.layout, s.blocks[b], Do(s, Rehome(b));
    ClearingShowsHead(s, b);
    AnchoredBlock(s, arr, k, b);
    hide Inv, Flat, Shown, Displays, ClearList;
    AnchorAtBlockEnd(s, arr, k, b, k);
    SwapKeepsDisplays(s.(layout := s'.layout), arr, k, b, s'.blocks[b], l.hidden);
  }

  /** The anchor is elsewhere: it stays, and the block now ends with its head line. */
  lemma RehomeStays(s: Sys, arr: seq<nat>, k: nat, b: nat)
    requires Displays(s, arr, k) && Enabled(s, Rehome(b)) && PhaseOk(s.blocks[b], s.layout.hidden)
    requires !(s.layout.anchor.Some? && s.layout.anchor.value in s.blocks[b].phase.gone)
    ensures Displays(Do(s, Rehome(b)), arr, k)
  {
    var l, B, s' := s.layout, s.blocks[b], Do(s, Rehome(b));
    assert B.phase.gone + B.phase.todo == B.phase.gone;
    ClearListMembers(B.kids);
    ClearedShowsHead(B, l.hidden);
    assert Flat(s'.blocks[b]) == Line(B.head);
    SwapKeepsDisplays(s, arr, k, b, s'.blocks[b], l.hidden);
  }

  lemma LastIsCleared(b: Block)
    requires b.kids != []
    ensures Last(Flat(b)) in ClearList(b.kids)
  {
    ClearListMembers(b.kids);
    assert Last(Flat(b)) == Last(Lines(b.kids));
  }

  lemma RehomeKeepsInv(s: Sys, arr: seq<nat>, k: nat, b: nat)
    requires Inv(s, arr, k) && Enabled(s, Rehome(b)) && HarmlessRehome(s, b)
    ensures Inv(Do(s, Rehome(b)), arr, k)
  {
    var s' := Do(s, Rehome(b));
    RehomeKeepsBlocksOk(s, b);
    assert Flat(s'.blocks[b]) == Line(s.blocks[b].head);
    if s.layout.anchor.Some? && s.layout.anchor.value in s.blocks[b].phase.gone {
      RehomeMoves(s, arr, k, b);
    } else {
      RehomeStays(s, arr, k, b);
      if arr != [] && arr[k] == b && s.blocks[b].kids != [] {
        assert s.blocks[b].phase.gone + [] == s.blocks[b].phase.gone;
        LastIsCleared(s.blocks[b]);
      }
    }
  }

  /** Once all children are cleared, only the head line of the block is shown. */
  lemma ClearedShowsHead(b: Block, hidden: set<NodeId>)
    requires forall n <- Lines(b.kids) :: n in hidden
    requires forall n <- Line(b.head) :: n !in hidden
    ensures Shown(Flat(b), hidden) == Line(b.head) == Shown(Line(b.head), hidden)
  {
    ShownConcat(Line(b.head), Lines(b.kids), hidden);
    ShownAll(Line(b.head), hidden);
    ShownNone(Lines(b.kids), hidden);
  }

  lemma RehomeKeepsBlocksOk(s: Sys, b: nat)
    requires s.layout.WellFormed() && BlocksOk(s) && Enabled(s, Rehome(b))
    ensures BlocksOk(Do(s, Rehome(b)))
    ensures Do(s, Rehome(b)).layout.WellFormed()
  {
    var B, s' := s.blocks[b], Do(s, Rehome(b));
    assert Flat(s'.blocks[b]) == Line(B.head);
    NoDupConcat(Line(B.head), Lines(B.kids));
    assert B.head.node in Flat(B);
    forall c: nat | c < |s.blocks| && c != b ensures s'.blocks[c] == s.blocks[c] {}
    assert forall n <- Line(B.head) :: n in Flat(B);
  }

  /** Any allowed action keeps the display made of whole blocks. */
  lemma StepKeepsInv(s: Sys, arr: seq<nat>, k: nat, a: Action)
    requires Inv(s, arr, k) && Allowed(s, a)
    ensures a.Seal? ==> a.b in arr
    ensures Inv(Do(s, a), NextArr(s, arr, k, a), NextK(arr, k, a))
  {
    match a
    case Open(_, _) => OpenKeepsInv(s, arr, k, a);
    case AddChild(b) => AddChildKeepsInv(s, arr, k, b);
    case Seal(b) =>
      assert b in arr;
      SealKeepsInv(s, arr, k, b, NextK(arr, k, a));
    case ReportChild(b, i) => ReportChildKeepsInv(s, arr, k, b, i);
    case ReportHead(b) => ReportHeadKeepsInv(s, arr, k, b);
    case BeginClear(b) => BeginClearKeepsInv(s, arr, k, b);
    case HideNext(b) => HideNextKeepsInv(s, arr, k, b);
    case Rehome(b) => RehomeKeepsInv(s, arr, k, b);
  }

  // ---------------------------------------------------------------- all interleavings

  lemma InitInv()
    ensures Inv(INIT, [], 0)
  {}

  lemma {:induction false} LegalIsPossible(s: Sys, acts: seq<Action>)
    requires Legal(s, acts)
    ensures Possible(s, acts)
    decreases |acts|
  {
    if acts != [] {
      LegalIsPossible(Do(s, acts[0]), acts[1..]);
    }
  }

  lemma {:induction false} RunKeepsInv(s: Sys, arr: seq<nat>, k: nat, acts: seq<Action>)
    returns (arr': seq<nat>, k': nat)
    requires Inv(s, arr, k) && Legal(s, acts)
    ensures Possible(s, acts) && Inv(Run(s, acts), arr', k')
    decreases |acts|
  {
    if acts == [] {
      arr', k' := arr, k;
    } else {
      StepKeepsInv(s, arr, k, acts[0]);
      arr', k' := RunKeepsInv(Do(s, acts[0]), NextArr(s, arr, k, acts[0]), NextK(arr, k, acts[0]), acts[1..]);
    }
  }

  /** However the threads interleave, the display is a concatenation of whole blocks, each equal to
      its flattened tree, and the anchor is at the visible end of one of them. */
  lemma EveryInterleavingDisplaysWholeBlocks(acts: seq<Action>)
    requires Legal(INIT, acts)
    ensures Possible(INIT, acts) && Good(Run(INIT, acts))
  {
    InitInv();
    var arr, k := RunKeepsInv(INIT, [], 0, acts);
  }

  /** The node an action gives to `insert_after`, if it does. */
  function Target(s: Sys, a: Action): Option<NodeId>
    requires Enabled(s, a)
  {
    match a
    case AddChild(b) => Some(s.blocks[b].Point())
    case ReportChild(b, i) => Some(s.blocks[b].kids[i].node)
    case ReportHead(b) => Some(s.blocks[b].head.node)
    case _ => None
  }

  lemma TargetIsInBlock(s: Sys, a: Action)
    requires BlocksOk(s) && Enabled(s, a) && Target(s, a).Some?
    ensures Target(s, a).value in Flat(s.blocks[a.b])
    ensures !s.blocks[a.b].phase.Clearing?
  {
    var B := s.blocks[a.b];
    if a.AddChild? {
      PointIsLast(B);
    } else if a.ReportChild? {
      KidInLines(B.kids, a.i);
    }
  }

  lemma OpenBlockIsVisible(s: Sys, b: nat, n: NodeId)
    requires BlocksOk(s) && b < |s.blocks| && !s.blocks[b].phase.Clearing? && n in Flat(s.blocks[b])
    ensures n in s.layout.Visible()
  {
    hide Flat, NoDup, Shown;
    assert PhaseOk(s.blocks[b], s.layout.hidden);
  }

  /** In every reachable state each node given to `insert_after` for a child, a report or a builder
      is a visible node of the list, and the next node number was never used before. */
  lemma TargetsAreVisible(acts: seq<Action>, a: Action)
    requires Legal(INIT, acts)
    ensures Possible(INIT, acts)
    ensures var s := Run(INIT, acts);
            Enabled(s, a) ==>
              && s.layout.next !in s.layout.order
              && (Target(s, a).Some? ==> Target(s, a).value in s.layout.Visible())
  {
    InitInv();
    var arr, k := RunKeepsInv(INIT, [], 0, acts);
    hide Legal, Possible, Run, Displays, BlocksOk, NoDup, Target, Enabled;
    var s := Run(INIT, acts);
    if Enabled(s, a) && Target(s, a).Some? {
      TargetIsInBlock(s, a);
      OpenBlockIsVisible(s, a.b, Target(s, a).value);
    }
  }

  // ---------------------------------------------------------------- the exception, exactly

  /** Only the block that ends at the anchor contains it. */
  lemma AnchoredBlock(s: Sys, arr: seq<nat>, k: nat, b: nat)
    requires Inv(s, arr, k) && b < |s.blocks|
    ensures arr != [] && s.layout.anchor.Some?
    ensures s.layout.anchor.value in Flat(s.blocks[b]) <==> arr[k] == b
  {
    assert b in arr;
    assert s.layout.anchor.value in Flat(s.blocks[arr[k]]);
  }

  lemma {:induction false} ShownHead(b: Block, hidden: set<NodeId>)
    requires PhaseOk(b, hidden)
    ensures b.head.node in Shown(Flat(b), hidden)
  {
    assert b.head.node in Line(b.head);
  }

  /** In any good display a visible anchor is the last shown node of the block that contains it. */
  lemma VisibleAnchorEndsItsBlock(s: Sys, arr: seq<nat>, k: nat)
    requires BlocksOk(s) && Displays(s, arr, k) && arr != [] && s.layout.anchor.value !in s.layout.hidden
    ensures var mine := Shown(Flat(s.blocks[arr[k]]), s.layout.hidden);
            mine != [] && Last(mine) == s.layout.anchor.value
  {
    var h, a := s.layout.hidden, s.layout.anchor.value;
    var mine := Shown(Flat(s.blocks[arr[k]]), h);
    ShownHead(s.blocks[arr[k]], h);
    hide BlocksOk, Flat, Cat, Shown, UpTo, NoDup, InRange, Last;
    CatEnds(s.blocks, h, arr, k);
    LastShownIsCut(s.layout.order, h, a, Cat(s.blocks, h, arr[..k]), mine);
  }

  /** What is shown up to a shown node ends with it. */
  lemma LastShownIsCut(order: seq<NodeId>, hidden: set<NodeId>, a: NodeId, before: seq<NodeId>, mine: seq<NodeId>)
    requires a in order && a !in hidden && mine != []
    requires Shown(UpTo(order, a), hidden) == before + mine
    ensures Last(mine) == a
  {
    hide Shown, UpTo;
    ShownUpTo(order, hidden, a);
    SplitAt(Shown(order, hidden), a);
    LastOfConcat(before, mine);
  }

  lemma ReportedHeadIsNotLast(b: Block)
    requires NoDup(Flat(b)) && b.head.inserted != []
    ensures Last(Flat(b)) != b.head.node
  {
    assert Flat(b)[0] == b.head.node && |Flat(b)| > 1;
  }

  /** An anchor on a head that has a report below it is not at the end of any block. */
  lemma AnchorAboveReport(s: Sys, b: nat)
    requires BlocksOk(s) && b < |s.blocks| && s.blocks[b].phase.Closed?
    requires s.layout.anchor == Some(s.blocks[b].head.node) && s.blocks[b].head.inserted != []
    ensures !Good(s)
  {
    ShownAll(Flat(s.blocks[b]), s.layout.hidden);
    ReportedHeadIsNotLast(s.blocks[b]);
    forall arr: seq<nat>, k: nat ensures !Displays(s, arr, k) {
      if Displays(s, arr, k) {
        VisibleAnchorEndsItsBlock(s, arr, k);
      }
    }
  }

  /** Re-homing leaves a good display exactly when it is harmless. */
  lemma RehomeExact(s: Sys, arr: seq<nat>, k: nat, b: nat)
    requires Inv(s, arr, k) && Enabled(s, Rehome(b))
    ensures Good(Do(s, Rehome(b))) <==> HarmlessRehome(s, b)
  {
    if HarmlessRehome(s, b) {
      RehomeKeepsInv(s, arr, k, b);
    } else {
      RehomeKeepsBlocksOk(s, b);
      AnchorAboveReport(Do(s, Rehome(b)), b);
    }
  }

  function HideActs(b: nat, n: nat): seq<Action> {
    seq(n, _ => HideNext(b))
  }

  /** What `clear_children` does to the layout, undisturbed. */
  function ClearActs(b: nat, n: nat): seq<Action> {
    HideActs(b, n) + [Rehome(b)]
  }

  lemma {:induction false} RunConcat(s: Sys, xs: seq<Action>, ys: seq<Action>)
    requires Possible(s, xs) && Possible(Run(s, xs), ys)
    ensures Possible(s, xs + ys) && Run(s, xs + ys) == Run(Run(s, xs), ys)
    decreases |xs|
  {
    hide Do, Enabled;
    if xs == [] {
      assert xs + ys == ys;
    } else {
      assert (xs + ys)[1..] == xs[1..] + ys;
      RunConcat(Do(s, xs[0]), xs[1..], ys);
    }
  }

  /** All that is left to clear is cleared. */
  function Hidden(s: Sys, b: nat): Sys
    requires b < |s.blocks| && s.blocks[b].phase.Clearing?
  {
    var p := s.blocks[b].phase;
    Sys(s.layout.Hide(set n <- p.todo), s.blocks[b := s.blocks[b].(phase := Clearing(p.gone + p.todo, []))])
  }

  lemma HiddenNext(s: Sys, b: nat)
    requires b < |s.blocks| && s.blocks[b].phase.Clearing?
    ensures s.blocks[b].phase.todo == [] ==> Hidden(s, b) == s
    ensures s.blocks[b].phase.todo != [] ==> Hidden(s, b) == Hidden(Do(s, HideNext(b)), b)
  {
    var gone, todo := s.blocks[b].phase.gone, s.blocks[b].phase.todo;
    if todo == [] {
      assert gone + todo == gone;
      assert s.blocks[b := s.blocks[b]] == s.blocks;
      assert (set n <- todo) == {};
    } else {
      assert gone + [todo[0]] + todo[1..] == gone + todo;
      assert todo == [todo[0]] + todo[1..];
      assert (set n <- todo) == {todo[0]} + (set n <- todo[1..]);
      assert s.layout.hidden + {todo[0]} + (set n <- todo[1..]) == s.layout.hidden + (set n <- todo);
    }
  }

  lemma {:induction false} HideAll(s: Sys, b: nat)
    requires b < |s.blocks| && s.blocks[b].phase.Clearing?
    ensures Possible(s, HideActs(b, |s.blocks[b].phase.todo|))
    ensures Run(s, HideActs(b, |s.blocks[b].phase.todo|)) == Hidden(s, b)
    decreases |s.blocks[b].phase.todo|
  {
    var todo := s.blocks[b].phase.todo;
    HiddenNext(s, b);
    if todo != [] {
      HideAll(Do(s, HideNext(b)), b);
      assert HideActs(b, |todo|)[1..] == HideActs(b, |todo| - 1);
    }
  }

  lemma {:induction false} HiddenInv(s: Sys, arr: seq<nat>, k: nat, b: nat)
    requires Inv(s, arr, k) && b < |s.blocks| && s.blocks[b].phase.Clearing?
    ensures Inv(Hidden(s, b), arr, k)
    decreases |s.blocks[b].phase.todo|
  {
    HiddenNext(s, b);
    if s.blocks[b].phase.todo != [] {
      HideNextKeepsInv(s, arr, k, b);
      HiddenInv(Do(s, HideNext(b)), arr, k, b);
    }
  }

  /** The undisturbed end of a bulk failure: report on the head, clear the children, re-home. */
  function FailTail(s: Sys, b: nat): seq<Action>
    requires b < |s.blocks|
  {
    [ReportHead(b)] + ClearActs(b, |ClearList(s.blocks[b].kids)|)
  }

  lemma ClearRuns(s: Sys, b: nat)
    requires b < |s.blocks| && s.blocks[b].phase.Clearing?
    ensures Possible(s, ClearActs(b, |s.blocks[b].phase.todo|))
    ensures Run(s, ClearActs(b, |s.blocks[b].phase.todo|)) == Do(Hidden(s, b), Rehome(b))
  {
    HideAll(s, b);
    var s2 := Hidden(s, b);
    assert Run(s2, [Rehome(b)]) == Run(Do(s2, Rehome(b)), []);
    RunConcat(s, HideActs(b, |s.blocks[b].phase.todo|), [Rehome(b)]);
  }

  lemma FailTailRuns(s: Sys, b: nat)
    requires b < |s.blocks| && Enabled(s, BeginClear(b))
    ensures Possible(s, FailTail(s, b))
    ensures Run(s, FailTail(s, b)) == Do(Hidden(Do(s, ReportHead(b)), b), Rehome(b))
  {
    ClearRuns(Do(s, ReportHead(b)), b);
    assert FailTail(s, b)[1..] == ClearActs(b, |ClearList(s.blocks[b].kids)|);
  }

  /** A bulk failure leaves whole blocks and the anchor at the end of one exactly when the task has
      no entries or its block does not hold the anchor. */
  lemma BulkFailureExact(s: Sys, arr: seq<nat>, k: nat, b: nat)
    requires Inv(s, arr, k) && Enabled(s, BeginClear(b))
    ensures Possible(s, FailTail(s, b))
    ensures Good(Run(s, FailTail(s, b))) <==> CallerGuard(s, b)
  {
    var s1 := Do(s, ReportHead(b));
    FailTailRuns(s, b);
    ReportHeadKeepsInv(s, arr, k, b);
    HiddenInv(s1, arr, k, b);
    RehomeExact(Hidden(s1, b), arr, k, b);
    ReportedAnchor(s, arr, k, b);
    assert Hidden(s1, b).blocks[b].phase.gone == ClearList(s.blocks[b].kids);
    assert Hidden(s1, b).blocks[b].head.inserted != [];
  }

  /** After the head report the anchor is on a child to be cleared iff it was in a block with children. */
  lemma ReportedAnchor(s: Sys, arr: seq<nat>, k: nat, b: nat)
    requires Inv(s, arr, k) && Enabled(s, BeginClear(b))
    ensures var s1 := Do(s, ReportHead(b));
            s1.layout.anchor.Some? &&
            (s1.layout.anchor.value in ClearList(s.blocks[b].kids) <==> !CallerGuard(s, b))
  {
    var B, s1 := s.blocks[b], Do(s, ReportHead(b));
    ReportHeadKeepsInv(s, arr, k, b);
    AnchoredBlock(s, arr, k, b);
    AnchoredBlock(s1, arr, k, b);
    ClearListMembers(B.kids);
    assert s1.blocks[b].kids == B.kids;
    if B.kids != [] {
      LastIsCleared(s1.blocks[b]);
    }
  }

  // ---------------------------------------------------------------- the caller's guard

  /** What the guard at the call keeps true until the re-homing, whatever other threads do. */
  ghost predicate Settled(s: Sys) {
    forall b: nat :: b < |s.blocks| && s.blocks[b].kind.TaskKind? ==> SettledAt(s, b)
  }

  ghost predicate SettledAt(s: Sys, b: nat)
    requires b < |s.blocks|
  {
    && (s.blocks[b].phase.Live? || s.blocks[b].phase.Building? ==> s.blocks[b].head.inserted == [])
    && (s.blocks[b].phase.Clearing? && s.blocks[b].head.inserted != [] ==> CallerGuard(s, b))
  }

  /** The anchor never comes back into a block that it has left once the block is built. */
  lemma StaysOutside(s: Sys, arr: seq<nat>, k: nat, a: Action, b: nat)
    requires Inv(s, arr, k) && Allowed(s, a) && b < |s.blocks|
    requires !s.blocks[b].phase.Building?
    requires s.layout.anchor.Some? && s.layout.anchor.value !in Flat(s.blocks[b])
    ensures Do(s, a).layout.anchor.Some? && Do(s, a).layout.anchor.value !in Flat(Do(s, a).blocks[b])
  {
    hide Inv, Flat, InsertAfter;
    AnchoredBlock(s, arr, k, b);
    StepKeepsInv(s, arr, k, a);
    AnchoredBlock(Do(s, a), NextArr(s, arr, k, a), NextK(arr, k, a), b);
  }

  /** All bulk failures under way still meet the guard. */
  ghost predicate FailingOk(s: Sys, failing: set<nat>) {
    forall b | b in failing :: b < |s.blocks| && !s.blocks[b].phase.Building? && CallerGuard(s, b)
  }

  lemma FailingStep(s: Sys, arr: seq<nat>, k: nat, a: Action, failing: set<nat>)
    requires Inv(s, arr, k) && Allowed(s, a) && FailingOk(s, failing)
    ensures FailingOk(Do(s, a), failing)
  {
    hide Inv, Flat, InsertAfter;
    var s' := Do(s, a);
    forall b | b in failing ensures b < |s'.blocks| && !s'.blocks[b].phase.Building? && CallerGuard(s', b) {
      if s.blocks[b].kids != [] {
        AnchoredBlock(s, arr, k, b);
        StaysOutside(s, arr, k, a, b);
      }
    }
  }

  lemma SettledStep(s: Sys, arr: seq<nat>, k: nat, a: Action, b: nat)
    requires Inv(s, arr, k) && Settled(s) && Allowed(s, a)
    requires a.ReportHead? && s.blocks[a.b].kind.TaskKind? ==> CallerGuard(s, a.b)
    requires b < |Do(s, a).blocks| && Do(s, a).blocks[b].kind.TaskKind?
    ensures SettledAt(Do(s, a), b)
  {
    hide Inv, InsertAfter;
    var s' := Do(s, a);
    if b < |s.blocks| && s'.blocks[b].phase.Clearing? && s'.blocks[b].head.inserted != [] {
      if s.blocks[b].phase.Clearing? {
        assert s'.blocks[b].kids == s.blocks[b].kids;
        if s.blocks[b].kids != [] {
          assert SettledAt(s, b);
          StepKeepsInv(s, arr, k, a);
          assert s.blocks[b].head == s'.blocks[b].head;
          AnchoredBlock(s, arr, k, b);
          StaysOutside(s, arr, k, a, b);
        }
      } else {
        assert a == ReportHead(b);
        StepKeepsInv(s, arr, k, a);
        AnchoredBlock(s, arr, k, b);
        AnchoredBlock(s', arr, k, b);
      }
    }
  }

  lemma SettledIsAllowed(s: Sys, a: Action)
    requires Settled(s) && Enabled(s, a)
    requires exists arr: seq<nat>, k: nat :: Inv(s, arr, k)
    ensures Allowed(s, a)
  {
    if a.Rehome? {
      assert SettledAt(s, a.b);
      assert s.blocks[a.b].phase.gone + s.blocks[a.b].phase.todo == s.blocks[a.b].phase.gone;
      ClearListMembers(s.blocks[a.b].kids);
    }
  }

  lemma SettledSteps(s: Sys, arr: seq<nat>, k: nat, a: Action, failing: set<nat>)
    requires Inv(s, arr, k) && Settled(s) && Allowed(s, a) && FailingOk(s, failing)
    requires a.ReportHead? && s.blocks[a.b].kind.TaskKind? ==> a.b in failing
    ensures Settled(Do(s, a))
  {
    hide Inv, SettledAt, CallerGuard;
    forall b: nat | b < |Do(s, a).blocks| && Do(s, a).blocks[b].kind.TaskKind? ensures SettledAt(Do(s, a), b) {
      SettledStep(s, arr, k, a, b);
    }
  }

  /** If the guard holds whenever a bulk failure is called, no re-homing is harmful, whatever other
      threads do between the call, the head report and the re-homing. */
  lemma {:induction false} CallerGuardSuffices(s: Sys, arr: seq<nat>, k: nat, moments: seq<Moment>, failing: set<nat>)
    requires Inv(s, arr, k) && Settled(s) && FailingOk(s, failing) && Guarded(s, moments, failing)
    ensures Legal(s, Acts(moments))
    decreases |moments|
  {
    hide Inv, Settled, Do, Enabled, CallerGuard, HarmlessRehome;
    if moments != [] {
      match moments[0]
      case CallBulkFailure(b) =>
        CallerGuardSuffices(s, arr, k, moments[1..], failing + {b});
        assert Acts(moments) == Acts(moments[1..]);
      case Act(a) =>
        SettledIsAllowed(s, a);
        StepKeepsInv(s, arr, k, a);
        FailingStep(s, arr, k, a, failing);
        SettledSteps(s, arr, k, a, failing);
        CallerGuardSuffices(Do(s, a), NextArr(s, arr, k, a), NextK(arr, k, a), moments[1..], failing);
        assert Acts(moments) == [a] + Acts(moments[1..]);
        assert Acts(moments)[1..] == Acts(moments[1..]);
    }
  }

  /** The same for whole runs from the empty display. */
  lemma GuardedInterleavingsDisplayWholeBlocks(moments: seq<Moment>)
    requires Guarded(INIT, moments, {})
    ensures Possible(INIT, Acts(moments)) && Good(Run(INIT, Acts(moments)))
  {
    InitInv();
    CallerGuardSuffices(INIT, [], 0, moments, {});
    EveryInterleavingDisplaysWholeBlocks(Acts(moments));
  }

  lemma RunSnoc(s: Sys, acts: seq<Action>, a: Action)
    requires Possible(s, acts) && Enabled(Run(s, acts), a)
    ensures Possible(s, acts + [a]) && Run(s, acts + [a]) == Do(Run(s, acts), a)
  {
    var t := Run(s, acts);
    assert Run(t, [a]) == Run(Do(t, a), []);
    RunConcat(s, acts, [a]);
  }

  const ONE_STAGE := [Open(TaskKind, 1), AddChild(0), Seal(0)]

  lemma OneStageTask()
    ensures Possible(INIT, ONE_STAGE)
    ensures Run(INIT, ONE_STAGE) ==
            Sys(Layout([0, 1], Some(1), 2, {}), [Block(TaskKind, Rend(0, []), [Rend(1, [])], Live)])
  {
    var s1 := Sys(Layout([0], Some(0), 1, {}), [Block(TaskKind, Rend(0, []), [], Building(1))]);
    var s2 := Sys(Layout([0, 1], Some(1), 2, {}), [Block(TaskKind, Rend(0, []), [Rend(1, [])], Building(0))]);
    RunSnoc(INIT, [], Open(TaskKind, 1));
    assert Do(INIT, Open(TaskKind, 1)) == s1;
    RunSnoc(INIT, [Open(TaskKind, 1)], AddChild(0));
    assert InsertAfter([0], 0, 1) == [0, 1];
    var noKids: seq<Rend> := [];
    assert noKids + [Rend(1, [])] == [Rend(1, [])];
    assert Do(s1, AddChild(0)).blocks == s2.blocks;
    RunSnoc(INIT, [Open(TaskKind, 1), AddChild(0)], Seal(0));
    assert [Open(TaskKind, 1), AddChild(0)] + [Seal(0)] == ONE_STAGE;
  }

  lemma OneStageReported(s: Sys)
    requires s == Sys(Layout([0, 1], Some(1), 2, {}), [Block(TaskKind, Rend(0, []), [Rend(1, [])], Live)])
    ensures Do(s, ReportHead(0)) ==
            Sys(Layout([0, 2, 1], Some(1), 3, {}), [Block(TaskKind, Rend(0, [2]), [Rend(1, [])], Clearing([], [1]))])
  {
    assert ClearList([Rend(1, [])]) == [1];
    var none: seq<NodeId>, rest: seq<NodeId> := [], [1];
    StepOn(0, rest, 2);
    assert [0] + rest == [0, 1] && [0, 2] + rest == [0, 2, 1] && none + [2] == [2];
  }

  lemma OneStageTaskFails(s: Sys)
    requires s == Sys(Layout([0, 1], Some(1), 2, {}), [Block(TaskKind, Rend(0, []), [Rend(1, [])], Live)])
    ensures Possible(s, FailTail(s, 0))
    ensures Run(s, FailTail(s, 0)) ==
            Sys(Layout([0, 2, 1], Some(0), 3, {1}), [Block(TaskKind, Rend(0, [2]), [], Closed)])
  {
    FailTailRuns(s, 0);
    OneStageReported(s);
    hide Possible, Run, FailTail, Hidden, ClearList, InsertAfter;
    OneStageHidden(Do(s, ReportHead(0)));
  }

  lemma OneStageHidden(s: Sys)
    requires s == Sys(Layout([0, 2, 1], Some(1), 3, {}), [Block(TaskKind, Rend(0, [2]), [Rend(1, [])], Clearing([], [1]))])
    ensures Hidden(s, 0) == Sys(Layout([0, 2, 1], Some(1), 3, {1}),
                                [Block(TaskKind, Rend(0, [2]), [Rend(1, [])], Clearing([1], []))])
  {
    var todo := s.blocks[0].phase.todo;
    assert (set n <- todo) == {1};
    var none: seq<NodeId> := [];
    assert none + todo == [1];
  }

  lemma SpacerInserted()
    ensures InsertAfter<NodeId>([0, 2, 1], 0, 3) == [0, 3, 2, 1]
  {
    var rest: seq<NodeId> := [2, 1];
    StepOn(0, rest, 3);
    assert [0] + rest == [0, 2, 1] && [0, 3] + rest == [0, 3, 2, 1];
  }

  lemma OneReport()
    ensures Reverse<NodeId>([2]) == [2]
  {
    var none: seq<NodeId> := [];
    ReverseSnoc(none, 2);
    assert none + [2] == [2];
  }

  lemma ShownSpacer()
    ensures Shown<NodeId>([0, 3, 2, 1], {1}) == [0, 3, 2]
  {
    var shown: seq<NodeId>, gone: seq<NodeId> := [0, 3, 2], [1];
    ShownAll(shown, {1});
    ShownNone(gone, {1});
    ShownConcat(shown, gone, {1});
    assert shown + gone == [0, 3, 2, 1];
  }

  lemma SpacerTears(s: Sys)
    requires s == Sys(Layout([0, 2, 1], Some(0), 3, {1}), [Block(TaskKind, Rend(0, [2]), [], Closed)])
    ensures Do(s, Open(SpaceKind, 0)).layout.Visible() == [0, 3, 2]
    ensures Flat(Do(s, Open(SpaceKind, 0)).blocks[0]) == [0, 2]
  {
    hide Shown, InsertAfter, Reverse;
    SpacerInserted();
    ShownSpacer();
    OneReport();
    assert s.layout.Insert().order == [0, 3, 2, 1];
    assert [0] + [2] == [0, 2] && [0, 2] + [] == [0, 2];
  }

  /** The failing input: one task with one stage fails in bulk while it is the newest block, then a
      spacer is added. The spacer (node 3) lands between the head (0) and its report (2). */
  lemma ReportIsTornFromItsTask()
    ensures Possible(INIT, ONE_STAGE)
    ensures var s := Run(INIT, ONE_STAGE);
            && Possible(s, FailTail(s, 0))
            && Enabled(Run(s, FailTail(s, 0)), Open(SpaceKind, 0))
            && var s' := Do(Run(s, FailTail(s, 0)), Open(SpaceKind, 0));
               s'.layout.Visible() == [0, 3, 2] && Flat(s'.blocks[0]) == [0, 2]
  {
    OneStageTask();
    OneStageTaskFails(Run(INIT, ONE_STAGE));
    SpacerTears(Run(Run(INIT, ONE_STAGE), FailTail(Run(INIT, ONE_STAGE), 0)));
  }
}
