/** Interactive and plain mode are bisimilar: whatever the layouts do, the same script gives the same
    events, sets, verdict, sequence position and return values. */
module Bisimulation {
  import opened Sequences
  import opened Layouts
  import opened Results
  import opened TaskValues
  import opened SequenceValues
  import opened Builders

  /** The stages with the last event each one was given. */
  function StagesOf(entries: seq<Entry>): seq<(string, Status)> {
    if entries == [] then []
    else
      var e := Last(entries);
      StagesOf(entries[..|entries| - 1]) + (if e.Stage? then [(e.id, e.renderer.status)] else [])
  }

  /** Equal but for strategies and for entries that are not stages. */
  ghost predicate Same(t: TaskValue, u: TaskValue) {
    && t.renderer.status == u.renderer.status
    && StagesOf(t.entries) == StagesOf(u.entries)
    && t.finishedStages == u.finishedStages
    && t.failedStages == u.failedStages
    && t.isFinished == u.isFinished
  }

  function SetFirst(stages: seq<(string, Status)>, id: string, status: Status): seq<(string, Status)> {
    if stages == [] then []
    else
      var front, last := stages[..|stages| - 1], Last(stages);
      if exists p <- front :: p.0 == id then SetFirst(front, id, status) + [last]
      else front + [if last.0 == id then (id, status) else last]
  }

  lemma {:induction false} StagesOfFind(entries: seq<Entry>, id: string)
    ensures FindStage(entries, id).Some? <==> exists p <- StagesOf(entries) :: p.0 == id
  {
    if entries != [] {
      var front, e := entries[..|entries| - 1], Last(entries);
      StagesOfFind(front, id);
      if e.Stage? && e.id == id {
        assert (e.id, e.renderer.status) in StagesOf(entries);
      }
    }
  }

  lemma StagesOfSnoc(entries: seq<Entry>, e: Entry)
    ensures StagesOf(entries + [e]) == StagesOf(entries) + (if e.Stage? then [(e.id, e.renderer.status)] else [])
  {
    assert (entries + [e])[..|entries|] == entries;
  }

  lemma SetFirstSnoc(stages: seq<(string, Status)>, p: (string, Status), id: string, status: Status)
    ensures SetFirst(stages + [p], id, status) ==
            if exists q <- stages :: q.0 == id then SetFirst(stages, id, status) + [p]
            else stages + [if p.0 == id then (id, status) else p]
  {
    assert (stages + [p])[..|stages + [p]| - 1] == stages;
  }

  /** The first stage with the id is in front of the last entry. */
  lemma UpdateBeforeLast(front: seq<Entry>, e: Entry, i: nat, id: string, r: Renderer)
    requires i < |front| && FindStage(front, id) == Some(i)
    requires var front' := front[i := front[i].(renderer := r)];
             StagesOf(front') == SetFirst(StagesOf(front), id, r.status)
    ensures StagesOf((front + [e])[i := front[i].(renderer := r)]) == SetFirst(StagesOf(front + [e]), id, r.status)
  {
    StagesOfFind(front, id);
    hide FindStage, StagesOf, SetFirst;
    var front' := front[i := front[i].(renderer := r)];
    assert (front + [e])[i := front[i].(renderer := r)] == front' + [e];
    StagesOfSnoc(front, e);
    StagesOfSnoc(front', e);
    if e.Stage? {
      SetFirstSnoc(StagesOf(front), (e.id, e.renderer.status), id, r.status);
    } else {
      assert StagesOf(front) + [] == StagesOf(front) && StagesOf(front') + [] == StagesOf(front');
    }
  }

  /** The last entry is the first stage with the id. */
  lemma UpdateLast(front: seq<Entry>, e: Entry, r: Renderer)
    requires e.Stage? && FindStage(front, e.id).None?
    ensures StagesOf(front + [e.(renderer := r)]) == SetFirst(StagesOf(front + [e]), e.id, r.status)
  {
    StagesOfFind(front, e.id);
    hide FindStage, StagesOf, SetFirst;
    StagesOfSnoc(front, e);
    StagesOfSnoc(front, e.(renderer := r));
    SetFirstSnoc(StagesOf(front), (e.id, e.renderer.status), e.id, r.status);
  }

  lemma {:induction false} StagesOfUpdate(entries: seq<Entry>, id: string, r: Renderer)
    requires FindStage(entries, id).Some?
    ensures var i := FindStage(entries, id).value;
            StagesOf(entries[i := entries[i].(renderer := r)]) == SetFirst(StagesOf(entries), id, r.status)
  {
    hide StagesOf, SetFirst;
    var n := |entries| - 1;
    var i := FindStage(entries, id).value;
    var front, e := entries[..n], entries[n];
    if FindStage(front, id).Some? {
      StagesOfUpdate(front, id, r);
      UpdateBeforeLast(front, e, i, id, r);
      assert front + [e] == entries;
    } else {
      UpdateLast(front, e, r);
      assert front + [e] == entries && front + [e.(renderer := r)] == entries[n := e.(renderer := r)];
    }
  }

  lemma {:induction false} StagesOfIds(entries: seq<Entry>)
    ensures |StagesOf(entries)| == |StageIds(entries)|
    ensures forall i :: 0 <= i < |StageIds(entries)| ==> StagesOf(entries)[i].0 == StageIds(entries)[i]
  {
    if entries != [] {
      StagesOfIds(entries[..|entries| - 1]);
    }
  }

  lemma SameIds(t: TaskValue, u: TaskValue)
    requires Same(t, u)
    ensures StageIds(t.entries) == StageIds(u.entries)
  {
    StagesOfIds(t.entries);
    StagesOfIds(u.entries);
  }

  function EventStatus(c: Call): Status {
    match c
    case RunCall(_) => Running
    case OkCall(_, msg) => Succeeded(msg)
    case FailCall(_) => Failed
    case SkipCall(_, msg) => Skipped(msg)
  }

  /** The logical effect of a call does not depend on the strategy. */
  lemma MarkStages(w: World, c: Call)
    requires FindStage(w.task.entries, c.id).Some?
    ensures var w' := Mark(w, FindStage(w.task.entries, c.id).value, c);
            StagesOf(w'.task.entries) == SetFirst(StagesOf(w.task.entries), c.id, EventStatus(c))
  {
    var i := FindStage(w.task.entries, c.id).value;
    StagesOfUpdate(w.task.entries, c.id, Event(w.layout, w.task.entries[i].renderer, c).1);
  }

  lemma SameMark(w: World, v: World, c: Call)
    requires Same(w.task, v.task) && FindStage(w.task.entries, c.id).Some? && FindStage(v.task.entries, c.id).Some?
    ensures Same(Mark(w, FindStage(w.task.entries, c.id).value, c).task,
                 Mark(v, FindStage(v.task.entries, c.id).value, c).task)
  {
    MarkStages(w, c);
    MarkStages(v, c);
  }

  lemma SameById(w: World, v: World, c: Call)
    requires Same(w.task, v.task)
    ensures Same(ById(w, c).0.task, ById(v, c).0.task)
    ensures ById(w, c).1 == ById(v, c).1
  {
    StagesOfFind(w.task.entries, c.id);
    StagesOfFind(v.task.entries, c.id);
    if FindStage(w.task.entries, c.id).Some? {
      SameMark(w, v, c);
      var w', v' := Mark(w, FindStage(w.task.entries, c.id).value, c), Mark(v, FindStage(v.task.entries, c.id).value, c);
      SameIds(w'.task, v'.task);
      AllFinishedIds(w'.task.entries, w'.task.finishedStages);
      AllFinishedIds(v'.task.entries, v'.task.finishedStages);
    }
  }

  lemma {:induction false} SameByIds(w: World, v: World, calls: seq<Call>)
    requires Same(w.task, v.task)
    ensures Same(ByIds(w, calls).task, ByIds(v, calls).task)
  {
    if calls != [] {
      var front := calls[..|calls| - 1];
      SameByIds(w, v, front);
      SameById(ByIds(w, front), ByIds(v, front), Last(calls));
    }
  }

  lemma SameDoTask(w: World, v: World, op: TaskOp)
    requires Same(w.task, v.task)
    ensures Same(DoTask(w, op).0.task, DoTask(v, op).0.task)
    ensures DoTask(w, op).1 == DoTask(v, op).1
  {
    SameIds(w.task, v.task);
    var ids := StageIds(w.task.entries);
    match op
    case Single(c) => SameById(w, v, c);
    case OkAll(msg) => SameByIds(w, v, OkCalls(ids, msg));
    case FailAll => SameByIds(w, v, FailCalls(ids));
    case RunAll => SameByIds(w, v, RunCalls(ids));
    case SkipAll(msg) => SameByIds(w, v, SkipCalls(ids, msg));
  }

  /** A script of operations with the values it returns. */
  function DoTasks(w: World, ops: seq<TaskOp>): (World, seq<Option<bool>>) {
    if ops == [] then (w, [])
    else
      var (w1, results) := DoTasks(w, ops[..|ops| - 1]);
      var (w2, result) := DoTask(w1, Last(ops));
      (w2, results + [result])
  }

  lemma {:induction false} SameDoTasks(w: World, v: World, ops: seq<TaskOp>)
    requires Same(w.task, v.task)
    ensures Same(DoTasks(w, ops).0.task, DoTasks(v, ops).0.task)
    ensures DoTasks(w, ops).1 == DoTasks(v, ops).1
  {
    if ops != [] {
      var front := ops[..|ops| - 1];
      SameDoTasks(w, v, front);
      SameDoTask(DoTasks(w, front).0, DoTasks(v, front).0, Last(ops));
    }
  }

  // ---------------------------------------------------------------- builders

  lemma AddStepStages(b: Progress, mode: Mode, step: BuilderStep)
    requires mode.InteractiveMode? ==> b.point.Some?
    ensures StagesOf(AddStep(b, mode, step).entries) ==
            StagesOf(b.entries) + (if step.StageStep? then [(step.id, Waiting)] else [])
    ensures AddStep(b, mode, step).autostart ==
            b.autostart + (if step.StageStep? && step.autoRun then [step.id] else [])
  {
    StagesOfSnoc(b.entries, Last(AddStep(b, mode, step).entries));
  }

  lemma {:induction false} SameAddSteps(b: Progress, c: Progress, steps: seq<BuilderStep>)
    requires b.point.Some? && StagesOf(b.entries) == StagesOf(c.entries) && b.autostart == c.autostart
    ensures StagesOf(AddSteps(b, InteractiveMode, steps).entries) == StagesOf(AddSteps(c, PlainMode, steps).entries)
    ensures AddSteps(b, InteractiveMode, steps).autostart == AddSteps(c, PlainMode, steps).autostart
  {
    if steps != [] {
      var front := steps[..|steps| - 1];
      SameAddSteps(b, c, front);
      AddStepStages(AddSteps(b, InteractiveMode, front), InteractiveMode, Last(steps));
      AddStepStages(AddSteps(c, PlainMode, front), PlainMode, Last(steps));
    }
  }

  lemma SameStart(l: Layout, k: Layout, steps: seq<BuilderStep>, autoIndent: bool)
    ensures Same(Start(l, InteractiveMode, steps, autoIndent).task, Start(k, PlainMode, steps, autoIndent).task)
  {
    var b, c := Progress(l.Insert(), Some(l.next), [], []), Progress(k, None, [], []);
    SameAddSteps(b, c, steps);
    var b', c' := AddSteps(b, InteractiveMode, steps), AddSteps(c, PlainMode, steps);
    if autoIndent {
      StagesOfSnoc(b'.entries, Last(AutoIndent(b', InteractiveMode).entries));
    }
    var (w, runs) := Build(l, InteractiveMode, steps, autoIndent);
    var (v, runs') := Build(k, PlainMode, steps, autoIndent);
    SameByIds(w, v, RunCalls(runs));
  }

  /** The same task script in both modes, over any two layouts. */
  lemma ModesAgreeOnTasks(l: Layout, k: Layout, steps: seq<BuilderStep>, autoIndent: bool, ops: seq<TaskOp>)
    ensures var (w, results) := DoTasks(Start(l, InteractiveMode, steps, autoIndent), ops);
            var (v, results') := DoTasks(Start(k, PlainMode, steps, autoIndent), ops);
            Same(w.task, v.task) && results == results'
  {
    SameStart(l, k, steps, autoIndent);
    SameDoTasks(Start(l, InteractiveMode, steps, autoIndent), Start(k, PlainMode, steps, autoIndent), ops);
  }

  // ---------------------------------------------------------------- sequences

  ghost predicate SameSequence(s: SequenceValue, r: SequenceValue) {
    Same(s.inner.task, r.inner.task) && s.currentStage == r.currentStage && s.allIds == r.allIds
  }

  lemma SameCompleted(w: World, v: World, msg: string)
    requires Same(w.task, v.task)
    ensures Same(SetCompleted(w, msg).task, SetCompleted(v, msg).task)
  {
  }

  lemma SameFinish(s: SequenceValue, r: SequenceValue, msg: string)
    requires SameSequence(s, r)
    ensures SameSequence(Finish(s, msg), Finish(r, msg))
  {
    hide Same, ByIds, SetCompleted;
    var i, ids := s.currentStage, s.allIds;
    var calls := if i < |ids| then SkipCalls(ids[i..], "skipped") else [];
    SameByIds(s.inner, r.inner, calls);
    SameCompleted(ByIds(s.inner, calls), ByIds(r.inner, calls), msg);
    SameCompleted(s.inner, r.inner, msg);
  }

  lemma SameApply(s: SequenceValue, r: SequenceValue, op: SequenceOp)
    requires SameSequence(s, r)
    ensures SameSequence(Apply(s, op), Apply(r, op))
  {
    hide Same, ById, ByIds, Finish, Advance;
    var i, ids := s.currentStage, s.allIds;
    if op.DoFinish? {
      SameFinish(s, r, op.msg);
    } else if i < |ids| {
      match op
      case DoOk(msg) => SameAdvance(s, r, OkCall(ids[i], msg));
      case DoSkip(msg) => SameAdvance(s, r, SkipCall(ids[i], msg));
      case DoFail =>
        SameById(s.inner, r.inner, FailCall(ids[i]));
        SameByIds(ById(s.inner, FailCall(ids[i])).0, ById(r.inner, FailCall(ids[i])).0,
                  SkipCalls(ids[i + 1..], "skipped due to previous error"));
    }
  }

  lemma SameAdvance(s: SequenceValue, r: SequenceValue, c: Call)
    requires SameSequence(s, r)
    ensures SameSequence(Advance(s, c), Advance(r, c))
  {
    hide Same, ById, SetCompleted;
    SameById(s.inner, r.inner, c);
    SameCompleted(ById(s.inner, c).0, ById(r.inner, c).0, "success");
    if s.currentStage + 1 < |s.allIds| {
      SameById(ById(s.inner, c).0, ById(r.inner, c).0, RunCall(s.allIds[s.currentStage + 1]));
    }
  }

  lemma {:induction false} SameApplyAll(s: SequenceValue, r: SequenceValue, ops: seq<SequenceOp>)
    requires SameSequence(s, r)
    ensures SameSequence(ApplyAll(s, ops), ApplyAll(r, ops))
  {
    if ops != [] {
      var front := ops[..|ops| - 1];
      SameApplyAll(s, r, front);
      SameApply(ApplyAll(s, front), ApplyAll(r, front), Last(ops));
    }
  }

  /** The same sequence script in both modes, over any two layouts. */
  lemma ModesAgreeOnSequences(l: Layout, k: Layout, steps: seq<SequenceStep>, autoIndent: bool, autostart: bool,
                              ops: seq<SequenceOp>)
    ensures SameSequence(ApplyAll(BuildSequence(l, InteractiveMode, steps, autoIndent, autostart), ops),
                         ApplyAll(BuildSequence(k, PlainMode, steps, autoIndent, autostart), ops))
  {
    var w, v := Start(l, InteractiveMode, SequenceSteps(steps), autoIndent),
                Start(k, PlainMode, SequenceSteps(steps), autoIndent);
    SameStart(l, k, SequenceSteps(steps), autoIndent);
    SameIds(w.task, v.task);
    if autostart && StageIds(w.task.entries) != [] {
      SameById(w, v, RunCall(StageIds(w.task.entries)[0]));
    }
    SameApplyAll(BuildSequence(l, InteractiveMode, steps, autoIndent, autostart),
                 BuildSequence(k, PlainMode, steps, autoIndent, autostart), ops);
  }
}
