/** Single-threaded histories of one interactive engine: any number of overlapping tasks, sequences,
    steps and spaces. After every public call the anchor is the last visible node, so every new
    block lands at the bottom and blocks stay in creation order. */
module Engines {
  import opened Sequences
  import opened Layouts
  import opened Results
  import opened Blocks
  import opened TaskValues
  import opened SequenceValues
  import opened Builders
  import opened Simulation

  /** What the caller holds for a block. */
  datatype Handle =
    | TaskHandle(task: TaskValue)
    | SequenceHandle(task: TaskValue, currentStage: nat, allIds: seq<string>)
    | StepHandle(renderer: Renderer)
    | Spacer(node: NodeId)

  datatype Engine = Engine(layout: Layout, handles: seq<Handle>)

  const NEW_ENGINE := Engine(EMPTY, [])

  datatype ApiCall =
    | NewTask(steps: seq<BuilderStep>, autoIndent: bool)
    | NewSequenceCall(stages: seq<SequenceStep>, autoIndent: bool, autostart: bool)
    | NewStep(autoRun: bool)
    | NewSpace
    | OnTask(b: nat, op: TaskOp)
    | OnSequence(b: nat, sop: SequenceOp)
    | StepEvent(b: nat, status: Status)  // `run`, `ok`, `skip` of a step
    | StepFail(b: nat)

  function SequenceOf(l: Layout, h: Handle): SequenceValue
    requires h.SequenceHandle?
  {
    SequenceValue(World(l, h.task), h.currentStage, h.allIds)
  }

  function FromSequence(q: SequenceValue): Handle {
    SequenceHandle(q.inner.task, q.currentStage, q.allIds)
  }

  predicate Callable(e: Engine, c: ApiCall) {
    match c
    case OnTask(b, _) => b < |e.handles| && e.handles[b].TaskHandle?
    case OnSequence(b, _) => b < |e.handles| && e.handles[b].SequenceHandle?
    case StepEvent(b, _) => b < |e.handles| && e.handles[b].StepHandle?
    case StepFail(b) => b < |e.handles| && e.handles[b].StepHandle?
    case _ => true
  }

  function Invoke(e: Engine, c: ApiCall): Engine
    requires Callable(e, c)
  {
    match c
    case NewTask(steps, autoIndent) =>
      var w := Start(e.layout, InteractiveMode, steps, autoIndent);
      Engine(w.layout, e.handles + [TaskHandle(w.task)])
    case NewSequenceCall(stages, autoIndent, autostart) =>
      var q := BuildSequence(e.layout, InteractiveMode, stages, autoIndent, autostart);
      Engine(q.inner.layout, e.handles + [FromSequence(q)])
    case NewStep(autoRun) =>
      Engine(e.layout.Insert(),
             e.handles + [StepHandle(Renderer(if autoRun then Running else Waiting, Interactive(e.layout.next, [])))])
    case NewSpace => Engine(e.layout.Insert(), e.handles + [Spacer(e.layout.next)])
    case OnTask(b, op) =>
      var w := DoTask(World(e.layout, e.handles[b].task), op).0;
      Engine(w.layout, e.handles[b := TaskHandle(w.task)])
    case OnSequence(b, op) =>
      var q := Apply(SequenceOf(e.layout, e.handles[b]), op);
      Engine(q.inner.layout, e.handles[b := FromSequence(q)])
    case StepEvent(b, status) =>
      e.(handles := e.handles[b := StepHandle(e.handles[b].renderer.(status := status))])
    case StepFail(b) =>
      var (l, r) := FailInsert(e.layout, e.handles[b].renderer);
      Engine(l, e.handles[b := StepHandle(r)])
  }

  /** The exception: a bulk failure of an unfinished task with entries while it is the newest block. */
  predicate Harmless(e: Engine, c: ApiCall) {
    Callable(e, c) &&
    (c.OnTask? && c.op.FailAll? ==>
       e.handles[c.b].task.isFinished || e.handles[c.b].task.entries == [] || c.b + 1 < |e.handles|)
  }

  predicate HarmlessScript(e: Engine, script: seq<ApiCall>)
    decreases |script|
  {
    script == [] || (Harmless(e, script[0]) && HarmlessScript(Invoke(e, script[0]), script[1..]))
  }

  function InvokeAll(e: Engine, script: seq<ApiCall>): Engine
    requires HarmlessScript(e, script)
    decreases |script|
  {
    if script == [] then e else InvokeAll(Invoke(e, script[0]), script[1..])
  }

  // ---------------------------------------------------------------- the machine state of an engine

  predicate HandleOk(h: Handle) {
    match h
    case TaskHandle(t) => TaskOk(t)
    case SequenceHandle(t, _, _) => TaskOk(t)
    case StepHandle(r) => r.strategy.Interactive?
    case Spacer(_) => true
  }

  function HandleBlock(h: Handle): Block
    requires HandleOk(h)
  {
    match h
    case TaskHandle(t) => BlockOf(t)
    case SequenceHandle(t, _, _) => BlockOf(t)
    case StepHandle(r) => Block(StepKind, RendOf(r), [], Live)
    case Spacer(n) => Block(SpaceKind, Rend(n, []), [], Live)
  }

  predicate HandlesOk(hs: seq<Handle>) {
    forall h <- hs :: HandleOk(h)
  }

  function SysOf(e: Engine): Sys
    requires HandlesOk(e.handles)
  {
    Sys(e.layout, seq(|e.handles|, i requires 0 <= i < |e.handles| => HandleBlock(e.handles[i])))
  }

  function CreationOrder(n: nat): seq<nat> {
    seq(n, i => i)
  }

  /** Whole blocks in creation order, the anchor at the end of the newest. */
  ghost predicate InOrder(e: Engine) {
    HandlesOk(e.handles) &&
    Inv(SysOf(e), CreationOrder(|e.handles|), if |e.handles| == 0 then 0 else |e.handles| - 1)
  }

  // ---------------------------------------------------------------- building a block

  /** The machine state inside `start`, with `left` children still to insert. */
  ghost predicate Constructing(s: Sys, e: Engine, head: Renderer, b: Progress, left: nat) {
    && HandlesOk(e.handles)
    && b.point.Some?
    && head.strategy.Interactive? && head.strategy.inserted == []
    && (forall x <- b.entries :: x.renderer.strategy.Interactive?)
    && s == Sys(b.layout, SysOf(e).blocks +
                          [Block(TaskKind, RendOf(head), KidsOf(b.entries), Phase.Building(left))])
    && b.point.value == Last(s.blocks).Point()
  }

  lemma ChildConstructed(s: Sys, arr: seq<nat>, k: nat, e: Engine, head: Renderer, b: Progress, left: nat,
                         x: Entry, autostart: seq<string>)
    requires Inv(s, arr, k) && Constructing(s, e, head, b, left) && left > 0
    requires x.renderer.strategy == Interactive(b.layout.next, [])
    ensures var b' := Progress(b.layout.InsertBelow(b.point.value), Some(b.layout.next), b.entries + [x], autostart);
            var s' := Do(s, AddChild(|e.handles|));
            Inv(s', arr, k) && Constructing(s', e, head, b', left - 1)
  {
    hide Inv;
    var n := |e.handles|;
    AddChildKeepsInv(s, arr, k, n);
    assert KidsOf(b.entries + [x]) == KidsOf(b.entries) + [RendOf(x.renderer)];
    var s' := Do(s, AddChild(n));
    assert s'.blocks[..n] == SysOf(e).blocks;
    assert s'.blocks == s'.blocks[..n] + [s'.blocks[n]];
  }

  lemma {:induction false} StepsConstructed(s: Sys, arr: seq<nat>, k: nat, e: Engine, head: Renderer, b: Progress,
                                            left: nat, steps: seq<BuilderStep>) returns (s': Sys)
    requires Inv(s, arr, k) && Constructing(s, e, head, b, left) && |steps| <= left
    ensures Inv(s', arr, k)
    ensures Constructing(s', e, head, AddSteps(b, InteractiveMode, steps), left - |steps|)
  {
    hide Inv, InsertAfter;
    if steps == [] {
      s' := s;
    } else {
      var front := steps[..|steps| - 1];
      var s1 := StepsConstructed(s, arr, k, e, head, b, left, front);
      var b1 := AddSteps(b, InteractiveMode, front);
      var b2 := AddSteps(b, InteractiveMode, steps);
      ChildConstructed(s1, arr, k, e, head, b1, left - |front|, Last(b2.entries), b2.autostart);
      s' := Do(s1, AddChild(|e.handles|));
    }
  }

  lemma OpenedBlock(s: Sys, children: nat)
    ensures var newest := Block(TaskKind, Rend(s.layout.next, []), [], Phase.Building(children));
            var s' := Do(s, Open(TaskKind, children));
            && s' == Sys(s.layout.Insert(), s.blocks + [newest])
            && Last(s'.blocks) == newest && newest.Point() == s.layout.next
  {
  }

  lemma OpenConstructing(e: Engine, children: nat)
    requires HandlesOk(e.handles)
    ensures var s' := Do(SysOf(e), Open(TaskKind, children));
            var (l, head, point) := CreateHead(e.layout, InteractiveMode);
            Constructing(s', e, head, Progress(l, point, [], []), children)
  {
    var none: seq<Entry> := [];
    assert KidsOf(none) == [];
    hide InsertAfter, HandlesOk, SysOf, KidsOf, Last, Do;
    var s := SysOf(e);
    OpenedBlock(s, children);
    var head := CreateHead(e.layout, InteractiveMode).1;
    assert RendOf(head) == Rend(s.layout.next, []);
  }

  lemma OpenConstructs(e: Engine, children: nat)
    requires InOrder(e)
    ensures var s' := Do(SysOf(e), Open(TaskKind, children));
            var (l, head, point) := CreateHead(e.layout, InteractiveMode);
            && Inv(s', CreationOrder(|e.handles| + 1), |e.handles|)
            && Constructing(s', e, head, Progress(l, point, [], []), children)
  {
    hide Inv, Constructing, HandlesOk, SysOf, CreateHead, CreationOrder;
    OpenedInOrder(e, Open(TaskKind, children));
    OpenConstructing(e, children);
  }

  /** A new block of any kind is placed last. */
  lemma OpenedInOrder(e: Engine, a: Action)
    requires InOrder(e) && a.Open? && Enabled(SysOf(e), a)
    ensures Inv(Do(SysOf(e), a), CreationOrder(|e.handles| + 1), |e.handles|)
  {
    hide Inv;
    var s, n := SysOf(e), |e.handles|;
    var k := if n == 0 then 0 else n - 1;
    OpenKeepsInv(s, CreationOrder(n), k, a);
    assert NextArr(s, CreationOrder(n), k, a) == CreationOrder(n + 1);
  }

  /** All of `start` before the automatic runs leads to the block of the new task, placed last. */
  lemma BuiltInOrder(e: Engine, steps: seq<BuilderStep>, autoIndent: bool)
    requires InOrder(e)
    ensures var w := Build(e.layout, InteractiveMode, steps, autoIndent).0;
            InOrder(Engine(w.layout, e.handles + [TaskHandle(w.task)]))
  {
    var n := |e.handles|;
    hide Inv, InsertAfter, KidsOf, RendOf, HandlesOk;
    var arr := CreationOrder(n + 1);
    var left := |steps| + if autoIndent then 1 else 0;
    var (l, head, point) := CreateHead(e.layout, InteractiveMode);
    var b := Progress(l, point, [], []);
    OpenConstructs(e, left);
    var s1 := StepsConstructed(Do(SysOf(e), Open(TaskKind, left)), arr, n, e, head, b, left, steps);
    var b1 := AddSteps(b, InteractiveMode, steps);
    if autoIndent {
      var b2 := AutoIndent(b1, InteractiveMode);
      ChildConstructed(s1, arr, n, e, head, b1, 1, Last(b2.entries), b2.autostart);
      SealedInOrder(Do(s1, AddChild(n)), e, head, b2);
    } else {
      SealedInOrder(s1, e, head, b1);
    }
  }

  lemma SealedInOrder(s: Sys, e: Engine, head: Renderer, b: Progress)
    requires Inv(s, CreationOrder(|e.handles| + 1), |e.handles|) && Constructing(s, e, head, b, 0)
    ensures InOrder(Engine(SealPoint(b), e.handles + [TaskHandle(TaskValue(head, b.entries, {}, {}, false))]))
  {
    var n := |e.handles|;
    hide Inv, InsertAfter;
    SealKeepsInv(s, CreationOrder(n + 1), n, n, n);
    var e' := Engine(SealPoint(b), e.handles + [TaskHandle(TaskValue(head, b.entries, {}, {}, false))]);
    assert HandleOk(Last(e'.handles));
    forall h <- e'.handles ensures HandleOk(h) {
      if h != Last(e'.handles) {
        assert h in e.handles;
      }
    }
    assert SysOf(e').blocks == Do(s, Seal(n)).blocks;
  }

  // ---------------------------------------------------------------- operations on a block

  lemma SysOfUpdate(e: Engine, l: Layout, b: nat, h: Handle)
    requires HandlesOk(e.handles) && b < |e.handles| && HandleOk(h)
    ensures HandlesOk(e.handles[b := h])
    ensures SysOf(Engine(l, e.handles[b := h])) == Sys(l, SysOf(e).blocks[b := HandleBlock(h)])
  {
    forall g <- e.handles[b := h] ensures HandleOk(g) {
      if g != h {
        assert g in e.handles;
      }
    }
    assert SysOf(Engine(l, e.handles[b := h])).blocks == SysOf(e).blocks[b := HandleBlock(h)];
  }

  /** A run of the machine on a block's own actions keeps the engine in order. */
  lemma LedInOrder(e: Engine, b: nat, h: Handle, w: World, acts: seq<Action>)
    requires InOrder(e) && b < |e.handles|
    requires Leads(SysOf(e), acts, b, w)
    requires h == TaskHandle(w.task) || (h.SequenceHandle? && h.task == w.task)
    ensures InOrder(Engine(w.layout, e.handles[b := h]))
  {
    hide Inv;
    LeadsKeepsInv(SysOf(e), CreationOrder(|e.handles|), |e.handles| - 1, acts);
    SysOfUpdate(e, w.layout, b, h);
  }

  /** In order, the newest block is the one that holds the anchor. */
  lemma NewestHoldsAnchor(e: Engine, b: nat)
    requires InOrder(e) && b < |e.handles|
    ensures e.layout.anchor.Some?
    ensures e.layout.anchor.value in Flat(SysOf(e).blocks[b]) <==> b + 1 == |e.handles|
  {
    hide Inv, Flat, HandlesOk;
    AnchoredBlock(SysOf(e), CreationOrder(|e.handles|), |e.handles| - 1, b);
  }

  lemma OnTaskInOrder(e: Engine, b: nat, op: TaskOp)
    requires InOrder(e) && Harmless(e, OnTask(b, op))
    ensures InOrder(Invoke(e, OnTask(b, op)))
  {
    hide Inv;
    var w := World(e.layout, e.handles[b].task);
    NewestHoldsAnchor(e, b);
    assert e.handles[b] in e.handles;
    var acts := DoTaskLeads(SysOf(e), CreationOrder(|e.handles|), |e.handles| - 1, b, w, op);
    LedInOrder(e, b, TaskHandle(DoTask(w, op).0.task), DoTask(w, op).0, acts);
  }

  lemma OnSequenceInOrder(e: Engine, b: nat, op: SequenceOp)
    requires InOrder(e) && Callable(e, OnSequence(b, op))
    ensures InOrder(Invoke(e, OnSequence(b, op)))
  {
    var q := SequenceOf(e.layout, e.handles[b]);
    assert e.handles[b] in e.handles;
    var acts := ApplyLeads(SysOf(e), b, q, op);
    LedInOrder(e, b, FromSequence(Apply(q, op)), Apply(q, op).inner, acts);
  }

  lemma StepFailInOrder(e: Engine, b: nat)
    requires InOrder(e) && Callable(e, StepFail(b))
    ensures InOrder(Invoke(e, StepFail(b)))
  {
    hide Inv, InsertAfter;
    var s := SysOf(e);
    assert e.handles[b] in e.handles;
    ReportHeadKeepsInv(s, CreationOrder(|e.handles|), |e.handles| - 1, b);
    var (l, r) := FailInsert(e.layout, e.handles[b].renderer);
    SysOfUpdate(e, l, b, StepHandle(r));
  }

  lemma StepEventInOrder(e: Engine, b: nat, status: Status)
    requires InOrder(e) && Callable(e, StepEvent(b, status))
    ensures InOrder(Invoke(e, StepEvent(b, status)))
  {
    hide Inv;
    assert e.handles[b] in e.handles;
    SysOfUpdate(e, e.layout, b, StepHandle(e.handles[b].renderer.(status := status)));
    assert SysOf(e).blocks[b := SysOf(e).blocks[b]] == SysOf(e).blocks;
  }

  lemma SingleInOrder(e: Engine, a: Action, h: Handle)
    requires InOrder(e) && (a == Open(StepKind, 0) || a == Open(SpaceKind, 0))
    requires HandleOk(h) && HandleBlock(h) == Block(a.kind, Rend(e.layout.next, []), [], Live)
    ensures InOrder(Engine(e.layout.Insert(), e.handles + [h]))
  {
    hide Inv;
    OpenedInOrder(e, a);
    var e' := Engine(e.layout.Insert(), e.handles + [h]);
    forall g <- e'.handles ensures HandleOk(g) {
      if g != h {
        assert g in e.handles;
      }
    }
    assert SysOf(e').blocks == Do(SysOf(e), a).blocks;
  }

  lemma NewTaskInOrder(e: Engine, steps: seq<BuilderStep>, autoIndent: bool)
    requires InOrder(e)
    ensures InOrder(Invoke(e, NewTask(steps, autoIndent)))
  {
    hide Inv;
    var (w, runs) := Build(e.layout, InteractiveMode, steps, autoIndent);
    var e1 := Engine(w.layout, e.handles + [TaskHandle(w.task)]);
    BuiltInOrder(e, steps, autoIndent);
    assert Last(e1.handles) in e1.handles;
    var acts := ByIdsLeads(SysOf(e1), |e.handles|, w, RunCalls(runs));
    var w' := ByIds(w, RunCalls(runs));
    LedInOrder(e1, |e.handles|, TaskHandle(w'.task), w', acts);
    assert e1.handles[|e.handles| := TaskHandle(w'.task)] == e.handles + [TaskHandle(w'.task)];
  }

  lemma TaskIsAt(e: Engine, b: nat)
    requires HandlesOk(e.handles) && b < |e.handles| && (e.handles[b].TaskHandle? || e.handles[b].SequenceHandle?)
    ensures At(SysOf(e), b, World(e.layout, e.handles[b].task))
  {
    assert e.handles[b] in e.handles;
  }

  lemma AutostartIsARun(w: World, autostart: bool)
    ensures var ids := StageIds(w.task.entries);
            NewSequence(w, autostart).inner == ByIds(w, if autostart && ids != [] then [RunCall(ids[0])] else [])
  {
    var ids := StageIds(w.task.entries);
    if autostart && ids != [] {
      assert [RunCall(ids[0])][..0] == [];
    }
  }

  lemma NewSequenceInOrder(e: Engine, stages: seq<SequenceStep>, autoIndent: bool, autostart: bool)
    requires InOrder(e)
    ensures InOrder(Invoke(e, NewSequenceCall(stages, autoIndent, autostart)))
  {
    hide Inv, Build, ById, ByIds, TaskOk, Leads;
    var n := |e.handles|;
    var w := Start(e.layout, InteractiveMode, SequenceSteps(stages), autoIndent);
    var e1 := Engine(w.layout, e.handles + [TaskHandle(w.task)]);
    NewTaskInOrder(e, SequenceSteps(stages), autoIndent);
    TaskIsAt(e1, n);
    AutostartIsARun(w, autostart);
    var q := NewSequence(w, autostart);
    var ids := StageIds(w.task.entries);
    var calls := if autostart && ids != [] then [RunCall(ids[0])] else [];
    var acts := ByIdsLeads(SysOf(e1), n, w, calls);
    LedInOrder(e1, n, FromSequence(q), q.inner, acts);
    assert e1.handles[n := FromSequence(q)] == e.handles + [FromSequence(q)];
  }

  lemma InvokeInOrder(e: Engine, c: ApiCall)
    requires InOrder(e) && Harmless(e, c)
    ensures InOrder(Invoke(e, c))
  {
    hide Inv, DoTask, Apply, Start, BuildSequence, InsertAfter;
    match c
    case NewTask(steps, autoIndent) => NewTaskInOrder(e, steps, autoIndent);
    case NewSequenceCall(stages, autoIndent, autostart) => NewSequenceInOrder(e, stages, autoIndent, autostart);
    case NewStep(autoRun) => SingleInOrder(e, Open(StepKind, 0), Last(Invoke(e, c).handles));
    case NewSpace => SingleInOrder(e, Open(SpaceKind, 0), Spacer(e.layout.next));
    case OnTask(b, op) => OnTaskInOrder(e, b, op);
    case OnSequence(b, op) => OnSequenceInOrder(e, b, op);
    case StepEvent(b, status) => StepEventInOrder(e, b, status);
    case StepFail(b) => StepFailInOrder(e, b);
  }

  lemma {:induction false} ScriptInOrder(e: Engine, script: seq<ApiCall>)
    requires InOrder(e) && HarmlessScript(e, script)
    ensures InOrder(InvokeAll(e, script))
    decreases |script|
  {
    if script != [] {
      InvokeInOrder(e, script[0]);
      ScriptInOrder(Invoke(e, script[0]), script[1..]);
    }
  }

  // ---------------------------------------------------------------- what the caller sees

  /** The blocks of the handles, one after another. */
  function Displayed(hs: seq<Handle>): seq<NodeId>
    requires HandlesOk(hs)
  {
    if hs == [] then [] else
      assert forall h <- hs[..|hs| - 1] :: h in hs;
      Displayed(hs[..|hs| - 1]) + Flat(HandleBlock(Last(hs)))
  }

  lemma BlockIsVisible(e: Engine, b: nat)
    requires InOrder(e) && b < |e.handles|
    ensures Shown(Flat(SysOf(e).blocks[b]), e.layout.hidden) == Flat(SysOf(e).blocks[b])
  {
    hide Displays, Cat, Shown, UpTo, NoDup;
    assert PhaseOk(SysOf(e).blocks[b], e.layout.hidden);
    hide Inv;
    ShownAll(Flat(SysOf(e).blocks[b]), e.layout.hidden);
  }

  lemma CreationPrefix(n: nat, m: nat)
    requires 0 < n <= m
    ensures InRange(CreationOrder(n - 1), m) && InRange(CreationOrder(n), m)
    ensures CreationOrder(n)[..n - 1] == CreationOrder(n - 1) && CreationOrder(n)[..n] == CreationOrder(n)
    ensures |CreationOrder(n)| == n && CreationOrder(n)[n - 1] == n - 1
  {
  }

  lemma HandleAt(e: Engine, b: nat)
    requires HandlesOk(e.handles) && b < |e.handles|
    ensures e.handles[b] in e.handles && HandleOk(e.handles[b])
    ensures |SysOf(e).blocks| == |e.handles| && SysOf(e).blocks[b] == HandleBlock(e.handles[b])
    ensures SysOf(e).layout == e.layout
  {
  }

  lemma CatStep(e: Engine, n: nat)
    requires InOrder(e) && 0 < n <= |e.handles|
    ensures InRange(CreationOrder(n - 1), |SysOf(e).blocks|) && InRange(CreationOrder(n), |SysOf(e).blocks|)
    ensures e.handles[n - 1] in e.handles && HandleOk(e.handles[n - 1])
    ensures Cat(SysOf(e).blocks, e.layout.hidden, CreationOrder(n)) ==
            Cat(SysOf(e).blocks, e.layout.hidden, CreationOrder(n - 1)) + Flat(HandleBlock(e.handles[n - 1]))
  {
    hide Inv, HandlesOk, Cat, Shown, Flat, SysOf, HandleBlock, HandleOk, CreationOrder, InRange;
    var s, arr := SysOf(e), CreationOrder(n);
    HandleAt(e, n - 1);
    BlockIsVisible(e, n - 1);
    CreationPrefix(n, |s.blocks|);
    CatEnds(s.blocks, e.layout.hidden, arr, n - 1);
  }

  lemma {:induction false} CatIsDisplayed(e: Engine, n: nat)
    requires InOrder(e) && n <= |e.handles|
    ensures HandlesOk(e.handles[..n])
    ensures InRange(CreationOrder(n), |SysOf(e).blocks|)
    ensures Cat(SysOf(e).blocks, e.layout.hidden, CreationOrder(n)) == Displayed(e.handles[..n])
  {
    hide Inv, HandleOk, HandleBlock, Flat, Shown, SysOf;
    forall h <- e.handles[..n] ensures HandleOk(h) {
      assert h in e.handles;
    }
    if n > 0 {
      CatIsDisplayed(e, n - 1);
      CatStep(e, n);
      assert e.handles[..n][..n - 1] == e.handles[..n - 1];
      hide Cat, InOrder;
    } else {
      assert CreationOrder(0) == [];
    }
  }

  /** In order, the anchor is the last visible node. */
  lemma AnchorIsLastVisible(e: Engine)
    requires InOrder(e) && e.handles != [] && e.layout.Visible() == Displayed(e.handles)
    ensures e.layout.Visible() != [] && e.layout.anchor == Some(Last(e.layout.Visible()))
  {
    var n := |e.handles|;
    var newest := HandleBlock(Last(e.handles));
    assert SysOf(e).blocks[n - 1] == newest;
    AnchorEndsNewest(SysOf(e), CreationOrder(n), n - 1);
    FlatNonempty(newest);
    hide Inv, BlocksOk, Displays, Cat, Shown, Flat, HandlesOk;
    LastOfConcat(DisplayedBefore(e.handles), Flat(newest));
  }

  /** What is displayed before the newest block. */
  function DisplayedBefore(hs: seq<Handle>): seq<NodeId>
    requires HandlesOk(hs) && hs != []
  {
    assert forall h <- hs[..|hs| - 1] :: h in hs;
    Displayed(hs[..|hs| - 1])
  }

  lemma AnchorEndsNewest(s: Sys, arr: seq<nat>, k: nat)
    requires Inv(s, arr, k) && arr != []
    ensures k < |arr| && arr[k] < |s.blocks| && s.layout.anchor == Some(Last(Flat(s.blocks[arr[k]])))
  {
    hide BlocksOk, Cat, Shown, Flat, UpTo;
  }

  /** In order, the display is the blocks of all handles. */
  lemma InOrderIsDisplayed(e: Engine)
    requires InOrder(e)
    ensures HandlesOk(e.handles) && e.layout.Visible() == Displayed(e.handles)
  {
    var n := |e.handles|;
    CatIsDisplayed(e, n);
    assert e.handles[..n] == e.handles;
    hide BlocksOk, Cat, Shown, Flat, UpTo, Displayed, HandlesOk;
  }

  lemma ReachedInOrder(script: seq<ApiCall>)
    requires HarmlessScript(NEW_ENGINE, script)
    ensures InOrder(InvokeAll(NEW_ENGINE, script))
  {
    assert SysOf(NEW_ENGINE) == INIT && CreationOrder(0) == [];
    InitInv();
    hide Inv, Invoke, Harmless;
    ScriptInOrder(NEW_ENGINE, script);
  }

  /** After every public call of a single-threaded history: what is visible is exactly the flattened
      trees of all blocks in creation order, and the anchor is the last visible node. */
  lemma HistoryDisplaysInCreationOrder(script: seq<ApiCall>)
    requires HarmlessScript(NEW_ENGINE, script)
    ensures var e := InvokeAll(NEW_ENGINE, script);
            && HandlesOk(e.handles)
            && e.layout.Visible() == Displayed(e.handles)
            && (e.handles != [] ==> e.layout.Visible() != [] && e.layout.anchor == Some(Last(e.layout.Visible())))
  {
    hide InvokeAll, HarmlessScript, InOrder, HandlesOk;
    var e := InvokeAll(NEW_ENGINE, script);
    ReachedInOrder(script);
    InOrderIsDisplayed(e);
    if e.handles != [] {
      AnchorIsLastVisible(e);
    }
  }

  lemma {:induction false} DisplayedConcat(xs: seq<Handle>, ys: seq<Handle>)
    requires HandlesOk(xs + ys)
    ensures HandlesOk(xs) && HandlesOk(ys) && Displayed(xs + ys) == Displayed(xs) + Displayed(ys)
  {
    hide HandleOk, HandleBlock, Flat;
    assert forall h <- xs :: h in xs + ys;
    assert forall h <- ys :: h in xs + ys;
    if ys == [] {
      assert xs + ys == xs;
    } else {
      var front := ys[..|ys| - 1];
      assert (xs + ys)[..|xs + ys| - 1] == xs + front;
      assert forall h <- xs + front :: h in xs + ys;
      DisplayedConcat(xs, front);
    }
  }

  /** A successfully finished task or sequence leaves exactly its head visible, between what the blocks
      created before it and after it show. */
  lemma CompletedTaskLeavesItsHead(script: seq<ApiCall>, b: nat)
    requires HarmlessScript(NEW_ENGINE, script) && b < |InvokeAll(NEW_ENGINE, script).handles|
    requires var h := InvokeAll(NEW_ENGINE, script).handles[b];
             (h.TaskHandle? || h.SequenceHandle?) && h.task.isFinished && h.task.renderer.status.Succeeded?
    ensures var e := InvokeAll(NEW_ENGINE, script);
            && e.handles[b].task.renderer.strategy.Interactive?
            && HandlesOk(e.handles[..b]) && HandlesOk(e.handles[b + 1..])
            && e.layout.Visible() ==
               Displayed(e.handles[..b]) + [e.handles[b].task.renderer.strategy.node] + Displayed(e.handles[b + 1..])
  {
    hide InvokeAll, HarmlessScript;
    HistoryDisplaysInCreationOrder(script);
    var e := InvokeAll(NEW_ENGINE, script);
    var h := e.handles[b];
    assert h in e.handles;
    assert e.handles == e.handles[..b + 1] + e.handles[b + 1..] && e.handles[..b + 1] == e.handles[..b] + [h];
    DisplayedConcat(e.handles[..b + 1], e.handles[b + 1..]);
    DisplayedConcat(e.handles[..b], [h]);
    CompletedBlock(h);
  }

  lemma CompletedBlock(h: Handle)
    requires HandleOk(h) && (h.TaskHandle? || h.SequenceHandle?) && h.task.isFinished && h.task.renderer.status.Succeeded?
    ensures HandlesOk([h]) && Displayed([h]) == [h.task.renderer.strategy.node]
  {
    assert HandleBlock(h).kids == [] && HandleBlock(h).head.inserted == [];
    assert Flat(HandleBlock(h)) == [h.task.renderer.strategy.node];
    assert [h][..0] == [];
    assert Displayed([h]) == Displayed([]) + Flat(HandleBlock(h));
  }

  /** The guard is exact: a bulk failure of an unfinished task keeps whole blocks and the anchor at
      the end of one exactly when the task has no entries or is not the newest block. */
  lemma BulkFailureExactAtApi(e: Engine, b: nat)
    requires InOrder(e) && Callable(e, OnTask(b, FailAll)) && !e.handles[b].task.isFinished
    ensures HandlesOk(Invoke(e, OnTask(b, FailAll)).handles)
    ensures Good(SysOf(Invoke(e, OnTask(b, FailAll)))) <==> Harmless(e, OnTask(b, FailAll))
  {
    hide Inv, Good, InsertAfter, ById, ByIds, Flat;
    var s, arr, k := SysOf(e), CreationOrder(|e.handles|), |e.handles| - 1;
    var w := World(e.layout, e.handles[b].task);
    assert e.handles[b] in e.handles;
    var calls := FailCalls(StageIds(w.task.entries));
    var xs := ByIdsLeads(s, b, w, calls);
    GuardSurvivesReports(s, arr, k, b, w, calls, xs);
    var w1, s1 := ByIds(w, calls), Run(s, xs);
    HeadReported(s1, b, w1);
    RehomedIsCleared(Do(s1, ReportHead(b)), b, SetFailedAndInsert(w1));
    FailTailRuns(s1, b);
    BulkFailureExact(s1, arr, k, b);
    NewestHoldsAnchor(e, b);
    var w2 := PerformFail(w);
    SysOfUpdate(e, w2.layout, b, TaskHandle(w2.task));
    assert Run(s1, FailTail(s1, b)).blocks == s.blocks[b := BlockOf(w2.task)];
  }
}
