/** The operations of an interactive task are runs of the display machine on the task's own block. */
module Simulation {
  import opened Sequences
  import opened Layouts
  import opened Results
  import opened Blocks
  import opened TaskValues
  import opened SequenceValues

  predicate IsInteractive(t: TaskValue) {
    t.renderer.strategy.Interactive? && forall e <- t.entries :: e.renderer.strategy.Interactive?
  }

  function RendOf(r: Renderer): Rend
    requires r.strategy.Interactive?
  {
    Rend(r.strategy.node, r.strategy.inserted)
  }

  function KidsOf(entries: seq<Entry>): seq<Rend>
    requires forall e <- entries :: e.renderer.strategy.Interactive?
  {
    seq(|entries|, i requires 0 <= i < |entries| => RendOf(entries[i].renderer))
  }

  function PhaseOf(t: TaskValue): Phase {
    if t.isFinished && t.entries == [] then Closed else Live
  }

  /** The block a task owns between its operations. */
  function BlockOf(t: TaskValue): Block
    requires IsInteractive(t)
  {
    Block(TaskKind, RendOf(t.renderer), KidsOf(t.entries), PhaseOf(t))
  }

  /** An open task has no report on its head, and a completed one has neither entries nor reports. */
  predicate TaskOk(t: TaskValue) {
    && IsInteractive(t)
    && (PhaseOf(t).Live? ==> t.renderer.strategy.inserted == [])
    && (t.isFinished && t.renderer.status.Succeeded? ==> t.entries == [] && t.renderer.strategy.inserted == [])
  }

  /** Block `b` of `s` is the task of `w`, over the same layout. */
  ghost predicate At(s: Sys, b: nat, w: World) {
    && s.layout == w.layout
    && b < |s.blocks|
    && TaskOk(w.task)
    && s.blocks[b] == BlockOf(w.task)
  }

  /** `acts` are legal actions of the owner of block `b` and lead from `s` to the task of `w`. */
  ghost predicate Leads(s: Sys, acts: seq<Action>, b: nat, w: World) {
    && (forall a <- acts :: !a.Open? && !a.AddChild? && !a.Seal? && a.b == b)
    && Legal(s, acts)
    && Possible(s, acts)
    && TaskOk(w.task)
    && b < |s.blocks|
    && Run(s, acts) == Sys(w.layout, s.blocks[b := BlockOf(w.task)])
  }

  lemma {:induction false} LegalConcat(s: Sys, xs: seq<Action>, ys: seq<Action>)
    requires Legal(s, xs) && Possible(s, xs) && Legal(Run(s, xs), ys)
    ensures Legal(s, xs + ys)
    decreases |xs|
  {
    hide Do, Enabled, HarmlessRehome;
    if xs == [] {
      assert xs + ys == ys;
    } else {
      assert (xs + ys)[1..] == xs[1..] + ys;
      LegalConcat(Do(s, xs[0]), xs[1..], ys);
    }
  }

  lemma {:induction false} NoRehomeIsLegal(s: Sys, acts: seq<Action>)
    requires Possible(s, acts) && forall a <- acts :: !a.Rehome?
    ensures Legal(s, acts)
    decreases |acts|
  {
    if acts != [] {
      assert forall a <- acts[1..] :: a in acts;
      NoRehomeIsLegal(Do(s, acts[0]), acts[1..]);
    }
  }

  lemma LeadsNowhere(s: Sys, b: nat, w: World)
    requires At(s, b, w)
    ensures Leads(s, [], b, w)
  {
    assert s.blocks[b := BlockOf(w.task)] == s.blocks;
  }

  /** The end of a run is where the next one may start. */
  lemma LeadsAt(s: Sys, b: nat, w: World, acts: seq<Action>)
    requires Leads(s, acts, b, w)
    ensures At(Run(s, acts), b, w)
  {
  }

  lemma LeadsOn(s: Sys, b: nat, w: World, w': World, xs: seq<Action>, ys: seq<Action>)
    requires Leads(s, xs, b, w) && Leads(Run(s, xs), ys, b, w')
    ensures Leads(s, xs + ys, b, w')
  {
    LegalConcat(s, xs, ys);
    RunConcat(s, xs, ys);
    assert s.blocks[b := BlockOf(w.task)][b := BlockOf(w'.task)] == s.blocks[b := BlockOf(w'.task)];
  }

  /** Actions of one owner leave the order of the blocks and the anchored block where they are. */
  lemma {:induction false} LeadsKeepsInv(s: Sys, arr: seq<nat>, k: nat, acts: seq<Action>)
    requires Inv(s, arr, k) && Legal(s, acts) && Possible(s, acts)
    requires forall a <- acts :: !a.Open? && !a.Seal?
    ensures Inv(Run(s, acts), arr, k)
    decreases |acts|
  {
    if acts != [] {
      StepKeepsInv(s, arr, k, acts[0]);
      assert forall a <- acts[1..] :: a in acts;
      LeadsKeepsInv(Do(s, acts[0]), arr, k, acts[1..]);
    }
  }

  // ---------------------------------------------------------------- clearing

  lemma {:induction false} ClearListConcat(xs: seq<Rend>, ys: seq<Rend>)
    ensures ClearList(xs + ys) == ClearList(xs) + ClearList(ys)
  {
    if xs == [] {
      assert xs + ys == ys;
    } else {
      assert (xs + ys)[1..] == xs[1..] + ys;
      ClearListConcat(xs[1..], ys);
    }
  }

  lemma OneIsCleared(r: Renderer)
    requires r.strategy.Interactive?
    ensures ClearList([RendOf(r)]) == ClearedNodes(r)
  {
    assert [RendOf(r)][1..] == [];
  }

  lemma {:induction false} ClearedNodesAreClearList(entries: seq<Entry>)
    requires forall e <- entries :: e.renderer.strategy.Interactive?
    ensures AllClearedNodes(entries) == ClearList(KidsOf(entries))
  {
    if entries != [] {
      var front, last := entries[..|entries| - 1], [RendOf(Last(entries).renderer)];
      ClearedNodesAreClearList(front);
      assert KidsOf(entries) == KidsOf(front) + last;
      OneIsCleared(Last(entries).renderer);
      hide ClearList, KidsOf, ClearedNodes;
      ClearListConcat(KidsOf(front), last);
    }
  }

  lemma ClearIsLegal(s: Sys, b: nat)
    requires b < |s.blocks| && s.blocks[b].phase.Clearing? && HarmlessRehome(Hidden(s, b), b)
    ensures Legal(s, ClearActs(b, |s.blocks[b].phase.todo|))
  {
    var hiding := HideActs(b, |s.blocks[b].phase.todo|);
    HideAll(s, b);
    NoRehomeIsLegal(s, hiding);
    assert [Rehome(b)][1..] == [];
    assert Legal(Hidden(s, b), [Rehome(b)]);
    LegalConcat(s, hiding, [Rehome(b)]);
  }

  /** The end of `clear_children` in the machine and in the task. */
  lemma RehomedIsCleared(s: Sys, b: nat, w: World)
    requires s.layout == w.layout && b < |s.blocks| && IsInteractive(w.task) && w.task.isFinished
    requires s.blocks[b] == BlockOf(w.task).(phase := Clearing([], ClearList(KidsOf(w.task.entries))))
    ensures Hidden(s, b).blocks[b].phase == Clearing(ClearList(KidsOf(w.task.entries)), [])
    ensures Do(Hidden(s, b), Rehome(b)) ==
            Sys(ClearChildren(w).layout, s.blocks[b := BlockOf(ClearChildren(w).task)])
  {
    var list := ClearList(KidsOf(w.task.entries));
    ClearedNodesAreClearList(w.task.entries);
    assert [] + list == list;
    ClearedBlock(w);
    hide AllClearedNodes, ClearList, InsertAfter, TaskOk, KidsOf, RendOf;
    var h := Hidden(s, b);
    assert h.blocks[b := BlockOf(ClearChildren(w).task)] == s.blocks[b := BlockOf(ClearChildren(w).task)];
  }

  lemma ClearedBlock(w: World)
    requires IsInteractive(w.task) && w.task.isFinished
    ensures IsInteractive(ClearChildren(w).task)
    ensures BlockOf(ClearChildren(w).task) == BlockOf(w.task).(kids := [], phase := Closed)
  {
    var none: seq<Entry> := [];
    assert KidsOf(none) == [];
  }

  /** Clearing from the moment the nodes to clear are known. */
  lemma ClearingLeads(s: Sys, b: nat, w: World) returns (acts: seq<Action>)
    requires s.layout == w.layout && b < |s.blocks| && IsInteractive(w.task) && w.task.isFinished
    requires s.blocks[b] == BlockOf(w.task).(phase := Clearing([], ClearList(KidsOf(w.task.entries))))
    requires TaskOk(ClearChildren(w).task)
    requires w.task.renderer.strategy.inserted == [] ||
             (s.layout.anchor.Some? ==> s.layout.anchor.value !in ClearList(KidsOf(w.task.entries)))
    ensures Leads(s, acts, b, ClearChildren(w))
  {
    acts := ClearActs(b, |s.blocks[b].phase.todo|);
    RehomedIsCleared(s, b, w);
    ClearRuns(s, b);
    ClearIsLegal(s, b);
  }

  lemma CompletedLeads(s: Sys, b: nat, w: World, msg: string) returns (acts: seq<Action>)
    requires At(s, b, w)
    ensures Leads(s, acts, b, SetCompleted(w, msg))
  {
    if w.task.isFinished {
      acts := [];
      LeadsNowhere(s, b, w);
    } else {
      var w1 := w.(task := w.task.(renderer := w.task.renderer.(status := Succeeded(msg)), isFinished := true));
      var s1 := Do(s, BeginClear(b));
      var rest := ClearingLeads(s1, b, w1);
      acts := [BeginClear(b)] + rest;
      assert acts[1..] == rest;
      assert s1.blocks[b := BlockOf(ClearChildren(w1).task)] == s.blocks[b := BlockOf(ClearChildren(w1).task)];
    }
  }

  // ---------------------------------------------------------------- calls by id

  lemma MarkedLeads(s: Sys, b: nat, w: World, i: nat, c: Call) returns (acts: seq<Action>)
    requires At(s, b, w) && i < |w.task.entries|
    ensures Leads(s, acts, b, Mark(w, i, c))
  {
    var w' := Mark(w, i, c);
    assert PhaseOf(w'.task) == Live;
    forall e <- w'.task.entries ensures e.renderer.strategy.Interactive? {
      if e != w'.task.entries[i] {
        assert e in w.task.entries;
      }
    }
    if c.FailCall? {
      acts := [ReportChild(b, i)];
      var r := s.blocks[b].kids[i];
      assert KidsOf(w'.task.entries) == s.blocks[b].kids[i := r.(inserted := r.inserted + [s.layout.next])];
      assert acts[1..] == [];
      assert Run(s, acts) == Run(Do(s, acts[0]), []);
    } else {
      acts := [];
      assert KidsOf(w'.task.entries) == KidsOf(w.task.entries);
      assert s.blocks[b := s.blocks[b]] == s.blocks;
    }
  }

  lemma UpdatedLeads(s: Sys, b: nat, w: World) returns (acts: seq<Action>)
    requires At(s, b, w) && w.task.entries != []
    ensures Leads(s, acts, b, UpdateState(w).0)
  {
    if !w.task.isFinished && w.task.failedStages == {} && AllFinished(w.task.entries, w.task.finishedStages) {
      acts := CompletedLeads(s, b, w, "success");
    } else {
      acts := [];
      LeadsNowhere(s, b, w);
      assert BlockOf(UpdateState(w).0.task) == BlockOf(w.task);
    }
  }

  lemma ByIdLeads(s: Sys, b: nat, w: World, c: Call) returns (acts: seq<Action>)
    requires At(s, b, w)
    ensures Leads(s, acts, b, ById(w, c).0)
  {
    var found := FindStage(w.task.entries, c.id);
    if found.None? {
      acts := [];
      LeadsNowhere(s, b, w);
    } else {
      var xs := MarkedLeads(s, b, w, found.value, c);
      var ys := UpdatedLeads(Run(s, xs), b, Mark(w, found.value, c));
      acts := xs + ys;
      LeadsOn(s, b, Mark(w, found.value, c), ById(w, c).0, xs, ys);
    }
  }

  lemma {:induction false} ByIdsLeads(s: Sys, b: nat, w: World, calls: seq<Call>) returns (acts: seq<Action>)
    requires At(s, b, w)
    ensures Leads(s, acts, b, ByIds(w, calls))
  {
    if calls == [] {
      acts := [];
      LeadsNowhere(s, b, w);
    } else {
      var front := calls[..|calls| - 1];
      var xs := ByIdsLeads(s, b, w, front);
      var ys := ByIdLeads(Run(s, xs), b, ByIds(w, front), Last(calls));
      acts := xs + ys;
      LeadsOn(s, b, ByIds(w, front), ByIds(w, calls), xs, ys);
    }
  }

  // ---------------------------------------------------------------- the bulk failure

  /** Failing calls never clear the entries. */
  lemma {:induction false} FailuresKeepEntries(w: World, calls: seq<Call>)
    requires TaskOk(w.task) && PhaseOf(w.task).Live? && forall c <- calls :: c.FailCall?
    ensures |ByIds(w, calls).task.entries| == |w.task.entries|
    ensures PhaseOf(ByIds(w, calls).task).Live?
  {
    if calls != [] {
      var front := calls[..|calls| - 1];
      FailuresKeepEntries(w, front);
      assert Last(calls).FailCall?;
    }
  }

  /** The report on the head, as a state of the machine. */
  lemma HeadReported(s: Sys, b: nat, w: World)
    requires At(s, b, w) && PhaseOf(w.task).Live?
    ensures var w1 := SetFailedAndInsert(w);
            && Enabled(s, ReportHead(b))
            && IsInteractive(w1.task) && w1.task.isFinished
            && TaskOk(ClearChildren(w1).task)
            && Do(s, ReportHead(b)).layout == w1.layout
            && Do(s, ReportHead(b)).blocks ==
               s.blocks[b := BlockOf(w1.task).(phase := Clearing([], ClearList(KidsOf(w1.task.entries))))]
  {}

  lemma FailedAndClearedLeads(s: Sys, arr: seq<nat>, k: nat, b: nat, w: World) returns (acts: seq<Action>)
    requires At(s, b, w) && PhaseOf(w.task).Live? && Inv(s, arr, k) && CallerGuard(s, b)
    ensures Leads(s, acts, b, SetFailedAndClear(w))
  {
    var w1 := SetFailedAndInsert(w);
    var s1 := Do(s, ReportHead(b));
    HeadReported(s, b, w);
    ReportedAnchor(s, arr, k, b);
    var rest := ClearingLeads(s1, b, w1);
    acts := [ReportHead(b)] + rest;
    assert acts[1..] == rest;
    assert s1.blocks[b := BlockOf(ClearChildren(w1).task)] == s.blocks[b := BlockOf(ClearChildren(w1).task)];
  }

  /** The guard, seen before the whole bulk failure, still holds when the head is reported. */
  lemma GuardSurvivesReports(s: Sys, arr: seq<nat>, k: nat, b: nat, w: World, calls: seq<Call>, acts: seq<Action>)
    requires At(s, b, w) && PhaseOf(w.task).Live? && Inv(s, arr, k)
    requires forall c <- calls :: c.FailCall?
    requires Leads(s, acts, b, ByIds(w, calls))
    ensures Inv(Run(s, acts), arr, k) && At(Run(s, acts), b, ByIds(w, calls))
    ensures PhaseOf(ByIds(w, calls).task).Live?
    ensures CallerGuard(Run(s, acts), b) <==> CallerGuard(s, b)
  {
    FailuresKeepEntries(w, calls);
    LeadsKeepsInv(s, arr, k, acts);
    AnchoredBlock(s, arr, k, b);
    AnchoredBlock(Run(s, acts), arr, k, b);
  }

  lemma PerformFailLeads(s: Sys, arr: seq<nat>, k: nat, b: nat, w: World) returns (acts: seq<Action>)
    requires At(s, b, w) && Inv(s, arr, k)
    requires w.task.isFinished || CallerGuard(s, b)
    ensures Leads(s, acts, b, PerformFail(w))
  {
    if w.task.isFinished {
      acts := [];
      LeadsNowhere(s, b, w);
    } else {
      var calls := FailCalls(StageIds(w.task.entries));
      var xs := ByIdsLeads(s, b, w, calls);
      GuardSurvivesReports(s, arr, k, b, w, calls, xs);
      var ys := FailedAndClearedLeads(Run(s, xs), arr, k, b, ByIds(w, calls));
      acts := xs + ys;
      LeadsOn(s, b, ByIds(w, calls), PerformFail(w), xs, ys);
    }
  }

  /** Every operation of an interactive task is a legal run of the machine on the task's block; the
      bulk failure under the guard. */
  lemma DoTaskLeads(s: Sys, arr: seq<nat>, k: nat, b: nat, w: World, op: TaskOp) returns (acts: seq<Action>)
    requires At(s, b, w) && Inv(s, arr, k)
    requires op.FailAll? ==> w.task.isFinished || CallerGuard(s, b)
    ensures Leads(s, acts, b, DoTask(w, op).0)
  {
    var ids := StageIds(w.task.entries);
    match op {
      case Single(c) => acts := ByIdLeads(s, b, w, c);
      case FailAll => acts := PerformFailLeads(s, arr, k, b, w);
      case OkAll(msg) =>
        if !w.task.isFinished && ids == [] {
          acts := CompletedLeads(s, b, w, msg);
        } else {
          var calls := if w.task.isFinished then [] else OkCalls(ids, msg);
          acts := ByIdsLeads(s, b, w, calls);
        }
      case RunAll =>
        var calls := if w.task.isFinished then [] else RunCalls(ids);
        acts := ByIdsLeads(s, b, w, calls);
      case SkipAll(msg) =>
        var calls := if w.task.isFinished then [] else SkipCalls(ids, msg);
        acts := ByIdsLeads(s, b, w, calls);
    }
  }

  // ---------------------------------------------------------------- sequences

  lemma AdvanceLeads(s: Sys, b: nat, q: SequenceValue, c: Call) returns (acts: seq<Action>)
    requires At(s, b, q.inner)
    ensures Leads(s, acts, b, Advance(q, c).inner)
  {
    hide Leads, At, ById, SetCompleted;
    var xs := ByIdLeads(s, b, q.inner, c);
    var w1 := ById(q.inner, c).0;
    LeadsAt(s, b, w1, xs);
    var ys;
    if q.currentStage + 1 < |q.allIds| {
      ys := ByIdLeads(Run(s, xs), b, w1, RunCall(q.allIds[q.currentStage + 1]));
    } else {
      ys := CompletedLeads(Run(s, xs), b, w1, "success");
    }
    acts := xs + ys;
    LeadsOn(s, b, w1, Advance(q, c).inner, xs, ys);
  }

  lemma FinishLeads(s: Sys, b: nat, q: SequenceValue, msg: string) returns (acts: seq<Action>)
    requires At(s, b, q.inner)
    ensures Leads(s, acts, b, Finish(q, msg).inner)
  {
    var calls := if q.currentStage < |q.allIds| then SkipCalls(q.allIds[q.currentStage..], "skipped") else [];
    var xs := ByIdsLeads(s, b, q.inner, calls);
    var ys := CompletedLeads(Run(s, xs), b, ByIds(q.inner, calls), msg);
    acts := xs + ys;
    LeadsOn(s, b, ByIds(q.inner, calls), Finish(q, msg).inner, xs, ys);
  }

  lemma FailLeads(s: Sys, b: nat, q: SequenceValue) returns (acts: seq<Action>)
    requires At(s, b, q.inner)
    ensures Leads(s, acts, b, Fail(q).inner)
  {
    if q.currentStage < |q.allIds| {
      var xs := ByIdLeads(s, b, q.inner, FailCall(q.allIds[q.currentStage]));
      var w1 := ById(q.inner, FailCall(q.allIds[q.currentStage])).0;
      var calls := if q.currentStage + 1 < |q.allIds|
                   then SkipCalls(q.allIds[q.currentStage + 1..], "skipped due to previous error") else [];
      var ys := ByIdsLeads(Run(s, xs), b, w1, calls);
      acts := xs + ys;
      LeadsOn(s, b, w1, Fail(q).inner, xs, ys);
    } else {
      acts := [];
      LeadsNowhere(s, b, q.inner);
    }
  }

  /** Every operation of an interactive sequence is a legal run on its block, without any guard. */
  lemma ApplyLeads(s: Sys, b: nat, q: SequenceValue, op: SequenceOp) returns (acts: seq<Action>)
    requires At(s, b, q.inner)
    ensures Leads(s, acts, b, Apply(q, op).inner)
  {
    if op.DoFinish? {
      acts := FinishLeads(s, b, q, op.msg);
    } else if op.DoFail? {
      acts := FailLeads(s, b, q);
    } else if q.currentStage < |q.allIds| {
      var id := q.allIds[q.currentStage];
      var c := if op.DoOk? then OkCall(id, op.msg) else SkipCall(id, op.msg);
      acts := AdvanceLeads(s, b, q, c);
    } else {
      acts := [];
      LeadsNowhere(s, b, q.inner);
    }
  }
}
