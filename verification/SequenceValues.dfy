/** A task sequence as a value: a task driven through its stages one after another. */
module SequenceValues {
  import opened Sequences
  import opened Layouts
  import opened Results
  import opened TaskValues
  import opened TaskHistory

  datatype SequenceValue = SequenceValue(inner: World, currentStage: nat, allIds: seq<string>)

  datatype SequenceOp = DoOk(msg: string) | DoFail | DoSkip(msg: string) | DoFinish(msg: string)

  function Activate(s: SequenceValue): SequenceValue {
    if s.currentStage < |s.allIds|
    then s.(inner := ById(s.inner, RunCall(s.allIds[s.currentStage])).0)
    else s
  }

  function NewSequence(w: World, autostart: bool): SequenceValue {
    var s := SequenceValue(w, 0, StageIds(w.task.entries));
    if autostart then Activate(s) else s
  }

  /** `ok` and `skip`: settle the current stage, then activate the next or complete the task. */
  function Advance(s: SequenceValue, c: Call): SequenceValue {
    var s1 := SequenceValue(ById(s.inner, c).0, s.currentStage + 1, s.allIds);
    if s1.currentStage < |s1.allIds| then Activate(s1)
    else s1.(inner := SetCompleted(s1.inner, "success"))
  }

  function SkipStages(s: SequenceValue, startFrom: nat, msg: string): SequenceValue
    requires startFrom <= |s.allIds|
  {
    SequenceValue(ByIds(s.inner, SkipCalls(s.allIds[startFrom..], msg)), |s.allIds|, s.allIds)
  }

  function Ok(s: SequenceValue, msg: string): SequenceValue {
    if s.currentStage < |s.allIds| then Advance(s, OkCall(s.allIds[s.currentStage], msg)) else s
  }

  function Skip(s: SequenceValue, msg: string): SequenceValue {
    if s.currentStage < |s.allIds| then Advance(s, SkipCall(s.allIds[s.currentStage], msg)) else s
  }

  function Fail(s: SequenceValue): SequenceValue {
    if s.currentStage < |s.allIds| then
      var s1 := SequenceValue(ById(s.inner, FailCall(s.allIds[s.currentStage])).0, s.currentStage + 1, s.allIds);
      if s1.currentStage < |s1.allIds| then SkipStages(s1, s1.currentStage, "skipped due to previous error")
      else s1
    else s
  }

  function Finish(s: SequenceValue, msg: string): SequenceValue {
    var s1 := if s.currentStage < |s.allIds| then SkipStages(s, s.currentStage, "skipped") else s;
    s1.(inner := SetCompleted(s1.inner, msg))
  }

  function Apply(s: SequenceValue, op: SequenceOp): SequenceValue {
    match op
    case DoOk(msg) => Ok(s, msg)
    case DoFail => Fail(s)
    case DoSkip(msg) => Skip(s, msg)
    case DoFinish(msg) => Finish(s, msg)
  }

  function ApplyAll(s: SequenceValue, ops: seq<SequenceOp>): SequenceValue {
    if ops == [] then s else Apply(ApplyAll(s, ops[..|ops| - 1]), Last(ops))
  }

  // ---------------------------------------------------------------- the linear automaton

  /** How a stage was settled, with the message of the call. */
  datatype Outcome = WasDone(msg: string) | WasSkipped(msg: string) | HasFailed

  function Skips(n: nat, msg: string): seq<Outcome> {
    seq(n, _ => WasSkipped(msg))
  }

  /** The outcomes of the stages settled so far, out of `n`. */
  function Settle(n: nat, outcomes: seq<Outcome>, op: SequenceOp): (r: seq<Outcome>)
    requires |outcomes| <= n
    ensures |outcomes| <= |r| <= n
  {
    var left := n - |outcomes|;
    if left == 0 then outcomes
    else match op
      case DoOk(msg) => outcomes + [WasDone(msg)]
      case DoSkip(msg) => outcomes + [WasSkipped(msg)]
      case DoFail => outcomes + [HasFailed] + Skips(left - 1, "skipped due to previous error")
      case DoFinish(_) => outcomes + Skips(left, "skipped")
  }

  function Outcomes(n: nat, ops: seq<SequenceOp>): (r: seq<Outcome>)
    ensures |r| <= n
  {
    if ops == [] then [] else Settle(n, Outcomes(n, ops[..|ops| - 1]), Last(ops))
  }

  /** (done|skipped)*, or all stages settled as (done|skipped)* failed skipped*, the last skips with
      the message that tells why. */
  ghost predicate Linear(n: nat, outcomes: seq<Outcome>) {
    || HasFailed !in outcomes
    || exists k: nat ::
         && k < |outcomes| == n
         && outcomes[k] == HasFailed
         && HasFailed !in outcomes[..k]
         && forall i :: k < i < n ==> outcomes[i] == WasSkipped("skipped due to previous error")
  }

  lemma {:induction false} OutcomesAreLinear(n: nat, ops: seq<SequenceOp>)
    ensures Linear(n, Outcomes(n, ops))
  {
    if ops != [] {
      var front := Outcomes(n, ops[..|ops| - 1]);
      OutcomesAreLinear(n, ops[..|ops| - 1]);
      if |front| < n && Last(ops).DoFail? {
        var r := Outcomes(n, ops);
        assert r[|front|] == HasFailed && r[..|front|] == front;
      }
    }
  }

  // ---------------------------------------------------------------- refinement

  function StatusOf(entries: seq<Entry>, id: string): Option<Status> {
    match FindStage(entries, id)
    case None => None
    case Some(i) => Some(entries[i].renderer.status)
  }

  predicate ShowsOutcome(status: Option<Status>, o: Outcome) {
    status.Some? &&
    match o
    case WasDone(msg) => status.value == Succeeded(msg)
    case WasSkipped(msg) => status.value == Status.Skipped(msg)
    case HasFailed => status.value.Failed?
  }

  function SettledIds(ids: seq<string>, outcomes: seq<Outcome>, failed: bool): set<string>
    requires |outcomes| <= |ids|
  {
    set i | 0 <= i < |outcomes| && (outcomes[i] == HasFailed) == failed :: ids[i]
  }

  /** Each stage shows its outcome, or is untouched since `before`; the first open one may run. */
  ghost predicate Shows(ids: seq<string>, entries: seq<Entry>, before: seq<Entry>, outcomes: seq<Outcome>, running: bool)
    requires |outcomes| <= |ids|
  {
    && StageIds(entries) == ids
    && (forall i :: 0 <= i < |outcomes| ==> ShowsOutcome(StatusOf(entries, ids[i]), outcomes[i]))
    && (forall i :: |outcomes| <= i < |ids| ==>
          StatusOf(entries, ids[i]) ==
          if running && i == |outcomes| then Some(Running) else StatusOf(before, ids[i]))
  }

  /** The two sets of the task are exactly the settled stages. */
  predicate Sets(ids: seq<string>, t: TaskValue, outcomes: seq<Outcome>)
    requires |outcomes| <= |ids|
  {
    && t.finishedStages == SettledIds(ids, outcomes, false)
    && t.failedStages == SettledIds(ids, outcomes, true)
  }

  ghost predicate Open(ids: seq<string>, w0: World, w: World, outcomes: seq<Outcome>, running: bool)
    requires |outcomes| <= |ids|
  {
    && !w.task.isFinished
    && w.task.renderer.status == w0.task.renderer.status
    && HasFailed !in outcomes
    && Sets(ids, w.task, outcomes)
    && Shows(ids, w.task.entries, w0.task.entries, outcomes, running)
  }

  ghost predicate Frozen(ids: seq<string>, w0: World, w: World, outcomes: seq<Outcome>)
    requires |outcomes| <= |ids|
  {
    && w.task.isFinished
    && w.task.renderer.status == Status.Failed
    && HasFailed in outcomes
    && Sets(ids, w.task, outcomes)
    && Shows(ids, w.task.entries, w0.task.entries, outcomes, false)
  }

  ghost predicate Completed(ids: seq<string>, w: World, outcomes: seq<Outcome>, msg: string)
    requires |outcomes| <= |ids|
  {
    && w.task.isFinished
    && w.task.renderer.status == Succeeded(msg)
    && |outcomes| == |ids|
    && HasFailed !in outcomes
    && Sets(ids, w.task, outcomes)
    && w.task.entries == []
  }

  lemma {:induction false} FindStageUpdate(entries: seq<Entry>, i: nat, r: Renderer, id: string)
    requires i < |entries|
    ensures FindStage(entries[i := entries[i].(renderer := r)], id) == FindStage(entries, id)
  {
    var n := |entries| - 1;
    var entries' := entries[i := entries[i].(renderer := r)];
    if i < n {
      FindStageUpdate(entries[..n], i, r, id);
      assert entries'[..n] == entries[..n][i := entries[..n][i].(renderer := r)];
    } else {
      assert entries'[..n] == entries[..n];
    }
  }

  lemma MarkedStatus(w: World, i: nat, c: Call, id: string)
    requires FindStage(w.task.entries, c.id) == Some(i)
    ensures StatusOf(Mark(w, i, c).task.entries, id) ==
            if id != c.id then StatusOf(w.task.entries, id)
            else Some(match c
                      case RunCall(_) => Running
                      case OkCall(_, msg) => Succeeded(msg)
                      case FailCall(_) => Status.Failed
                      case SkipCall(_, msg) => Status.Skipped(msg))
  {
    FindStageUpdate(w.task.entries, i, Event(w.layout, w.task.entries[i].renderer, c).1, id);
  }

  /** Marking one known stage changes its status, the two sets, and nothing else. */
  lemma MarkKnown(ids: seq<string>, w: World, c: Call)
    requires StageIds(w.task.entries) == ids && c.id in ids
    ensures FindStage(w.task.entries, c.id).Some?
    ensures var w' := Mark(w, FindStage(w.task.entries, c.id).value, c);
            && StageIds(w'.task.entries) == ids
            && (forall id :: id != c.id ==> StatusOf(w'.task.entries, id) == StatusOf(w.task.entries, id))
            && (forall f :: AllFinished(w'.task.entries, f) <==> forall id <- ids :: id in f)
            && (c.RunCall? ==> StatusOf(w'.task.entries, c.id) == Some(Running))
            && (c.OkCall? ==> ShowsOutcome(StatusOf(w'.task.entries, c.id), WasDone(c.msg)))
            && (c.SkipCall? ==> ShowsOutcome(StatusOf(w'.task.entries, c.id), WasSkipped(c.msg)))
            && (c.FailCall? ==> ShowsOutcome(StatusOf(w'.task.entries, c.id), HasFailed))
  {
    StageIdsMembers(w.task.entries, c.id);
    var i := FindStage(w.task.entries, c.id).value;
    var w' := Mark(w, i, c);
    StageIdsUpdate(w.task.entries, i, Event(w.layout, w.task.entries[i].renderer, c).1);
    forall id ensures id != c.id ==> StatusOf(w'.task.entries, id) == StatusOf(w.task.entries, id) {
      MarkedStatus(w, i, c, id);
    }
    MarkedStatus(w, i, c, c.id);
    forall f ensures AllFinished(w'.task.entries, f) <==> forall id <- ids :: id in f {
      AllFinishedIds(w'.task.entries, f);
    }
  }

  lemma SettledIdsSnoc(ids: seq<string>, outcomes: seq<Outcome>, o: Outcome)
    requires |outcomes| < |ids|
    ensures SettledIds(ids, outcomes + [o], false) ==
            SettledIds(ids, outcomes, false) + if o == HasFailed then {} else {ids[|outcomes|]}
    ensures SettledIds(ids, outcomes + [o], true) ==
            SettledIds(ids, outcomes, true) + if o == HasFailed then {ids[|outcomes|]} else {}
  {
    var r := outcomes + [o];
    assert forall i :: 0 <= i < |outcomes| ==> r[i] == outcomes[i];
    assert r[|outcomes|] == o;
    forall failed: bool, id ensures id in SettledIds(ids, r, failed) <==>
        id in SettledIds(ids, outcomes, failed) || (id == ids[|outcomes|] && (o == HasFailed) == failed) {
      if id in SettledIds(ids, outcomes, failed) {
        var i :| 0 <= i < |outcomes| && (outcomes[i] == HasFailed) == failed && ids[i] == id;
        assert r[i] == outcomes[i];
      }
      if id in SettledIds(ids, r, failed) {
        var i :| 0 <= i < |r| && (r[i] == HasFailed) == failed && ids[i] == id;
        if i < |outcomes| {
          assert outcomes[i] == r[i];
        }
      }
    }
  }

  /** With distinct ids, an open stage is in neither set. */
  lemma OpenStageIsUnsettled(ids: seq<string>, outcomes: seq<Outcome>, i: nat, failed: bool)
    requires NoDup(ids) && |outcomes| <= i < |ids|
    ensures ids[i] !in SettledIds(ids, outcomes, failed)
  {}

  lemma ActivateOpen(ids: seq<string>, w0: World, w: World, outcomes: seq<Outcome>, running: bool)
    requires NoDup(ids) && |outcomes| < |ids| && Open(ids, w0, w, outcomes, running)
    ensures Open(ids, w0, ById(w, RunCall(ids[|outcomes|])).0, outcomes, true)
  {
    var id := ids[|outcomes|];
    MarkKnown(ids, w, RunCall(id));
    OpenStageIsUnsettled(ids, outcomes, |outcomes|, false);
    OpenStageIsUnsettled(ids, outcomes, |outcomes|, true);
    assert id in ids;
    forall i | 0 <= i < |ids| && i != |outcomes| ensures ids[i] != id {}
  }

  lemma SettleOpen(ids: seq<string>, w0: World, w: World, outcomes: seq<Outcome>, running: bool, c: Call)
    requires NoDup(ids) && |outcomes| < |ids| && Open(ids, w0, w, outcomes, running)
    requires c.id == ids[|outcomes|] && (c.OkCall? || c.SkipCall?)
    ensures var outcomes' := outcomes + [if c.OkCall? then WasDone(c.msg) else WasSkipped(c.msg)];
            if |outcomes'| < |ids| then Open(ids, w0, ById(w, c).0, outcomes', false)
            else Completed(ids, ById(w, c).0, outcomes', "success")
  {
    var o := if c.OkCall? then WasDone(c.msg) else WasSkipped(c.msg);
    var outcomes' := outcomes + [o];
    MarkKnown(ids, w, c);
    SettledIdsSnoc(ids, outcomes, o);
    forall i | 0 <= i < |ids| && i != |outcomes| ensures ids[i] != c.id {}
    var marked := Mark(w, FindStage(w.task.entries, c.id).value, c);
    assert SettledIds(ids, outcomes, true) == {};
    if |outcomes'| < |ids| {
      OpenStageIsUnsettled(ids, outcomes', |outcomes'|, false);
      assert !AllFinished(marked.task.entries, marked.task.finishedStages);
    } else {
      forall id <- ids ensures id in marked.task.finishedStages {
        var i :| 0 <= i < |ids| && ids[i] == id;
        assert outcomes'[i] != HasFailed;
      }
    }
  }

  lemma FailOpen(ids: seq<string>, w0: World, w: World, outcomes: seq<Outcome>, running: bool)
    requires NoDup(ids) && |outcomes| < |ids| && Open(ids, w0, w, outcomes, running)
    ensures Frozen(ids, w0, ById(w, FailCall(ids[|outcomes|])).0, outcomes + [HasFailed])
  {
    var c := FailCall(ids[|outcomes|]);
    MarkKnown(ids, w, c);
    SettledIdsSnoc(ids, outcomes, HasFailed);
    OpenStageIsUnsettled(ids, outcomes, |outcomes|, false);
    forall i | 0 <= i < |ids| && i != |outcomes| ensures ids[i] != c.id {}
    assert (outcomes + [HasFailed])[|outcomes|] == HasFailed;
  }

  lemma SkipFrozen(ids: seq<string>, w0: World, w: World, outcomes: seq<Outcome>, msg: string)
    requires NoDup(ids) && |outcomes| < |ids| && Frozen(ids, w0, w, outcomes)
    ensures Frozen(ids, w0, ById(w, SkipCall(ids[|outcomes|], msg)).0, outcomes + [WasSkipped(msg)])
  {
    var c := SkipCall(ids[|outcomes|], msg);
    MarkKnown(ids, w, c);
    SettledIdsSnoc(ids, outcomes, WasSkipped(msg));
    OpenStageIsUnsettled(ids, outcomes, |outcomes|, true);
    forall i | 0 <= i < |ids| && i != |outcomes| ensures ids[i] != c.id {}
  }

  /** The first `k` skips of the bulk skip of everything still open. */
  lemma {:induction false} SkipOpenRest(ids: seq<string>, w0: World, w: World, outcomes: seq<Outcome>,
                                        running: bool, msg: string, k: nat)
    requires NoDup(ids) && |outcomes| < |ids| && Open(ids, w0, w, outcomes, running)
    requires k <= |ids| - |outcomes|
    ensures var w', outcomes' := ByIds(w, SkipCalls(ids[|outcomes|..], msg)[..k]), outcomes + Skips(k, msg);
            if |outcomes'| < |ids| then Open(ids, w0, w', outcomes', running && k == 0)
            else Completed(ids, w', outcomes', "success")
  {
    hide Open, Completed, ById, NoDup;
    var calls := SkipCalls(ids[|outcomes|..], msg);
    if k == 0 {
      assert outcomes + Skips(0, msg) == outcomes;
    } else {
      SkipOpenRest(ids, w0, w, outcomes, running, msg, k - 1);
      var front := outcomes + Skips(k - 1, msg);
      var w1 := ByIds(w, calls[..k - 1]);
      var c := calls[k - 1];
      assert calls[..k][..k - 1] == calls[..k - 1];
      assert front + [WasSkipped(msg)] == outcomes + Skips(k, msg);
      SettleOpen(ids, w0, w1, front, running && k == 1, c);
    }
  }

  /** The same after a failure. */
  lemma {:induction false} SkipFrozenRest(ids: seq<string>, w0: World, w: World, outcomes: seq<Outcome>, msg: string, k: nat)
    requires NoDup(ids) && |outcomes| <= |ids| && Frozen(ids, w0, w, outcomes)
    requires k <= |ids| - |outcomes|
    ensures Frozen(ids, w0, ByIds(w, SkipCalls(ids[|outcomes|..], msg)[..k]), outcomes + Skips(k, msg))
  {
    hide Frozen, ById, NoDup;
    var calls := SkipCalls(ids[|outcomes|..], msg);
    if k == 0 {
      assert outcomes + Skips(0, msg) == outcomes;
    } else {
      SkipFrozenRest(ids, w0, w, outcomes, msg, k - 1);
      var front := outcomes + Skips(k - 1, msg);
      assert calls[..k][..k - 1] == calls[..k - 1];
      assert front + [WasSkipped(msg)] == outcomes + Skips(k, msg);
      SkipFrozen(ids, w0, ByIds(w, calls[..k - 1]), front, msg);
    }
  }

  /** The message of the first `finish`. */
  function FirstFinish(ops: seq<SequenceOp>): Option<string> {
    if ops == [] then None
    else
      var front := FirstFinish(ops[..|ops| - 1]);
      if front.Some? then front
      else if Last(ops).DoFinish? then Some(Last(ops).msg)
      else None
  }

  /** What the sequence `s` over the task `w0` is after `ops`. */
  ghost predicate Follows(w0: World, autostart: bool, s: SequenceValue, ops: seq<SequenceOp>) {
    var ids, outcomes := StageIds(w0.task.entries), Outcomes(|StageIds(w0.task.entries)|, ops);
    && s.allIds == ids
    && s.currentStage == |outcomes|
    && if |outcomes| < |ids| then Open(ids, w0, s.inner, outcomes, autostart || |outcomes| > 0)
       else if ids == [] then
         match FirstFinish(ops)
         case None => Open(ids, w0, s.inner, outcomes, false)
         case Some(msg) => Completed(ids, s.inner, outcomes, msg)
       else if HasFailed in outcomes then Frozen(ids, w0, s.inner, outcomes)
       else Completed(ids, s.inner, outcomes, "success")
  }

  lemma NewFollows(w0: World, autostart: bool)
    requires Fresh(w0.task) && NoDup(StageIds(w0.task.entries))
    ensures Follows(w0, autostart, NewSequence(w0, autostart), [])
  {
    var ids := StageIds(w0.task.entries);
    assert Open(ids, w0, w0, [], false);
    if autostart && ids != [] {
      ActivateOpen(ids, w0, w0, [], false);
    }
  }

  lemma AdvanceFollows(w0: World, s: SequenceValue, outcomes: seq<Outcome>, running: bool, c: Call)
    requires var ids := StageIds(w0.task.entries);
             && NoDup(ids) && s.allIds == ids && s.currentStage == |outcomes| < |ids|
             && Open(ids, w0, s.inner, outcomes, running)
             && c.id == ids[|outcomes|] && (c.OkCall? || c.SkipCall?)
    ensures var ids, outcomes' := StageIds(w0.task.entries), outcomes + [if c.OkCall? then WasDone(c.msg) else WasSkipped(c.msg)];
            var s' := Advance(s, c);
            && s'.allIds == ids && s'.currentStage == |outcomes'|
            && if |outcomes'| < |ids| then Open(ids, w0, s'.inner, outcomes', true)
               else Completed(ids, s'.inner, outcomes', "success")
  {
    var ids, outcomes' := StageIds(w0.task.entries), outcomes + [if c.OkCall? then WasDone(c.msg) else WasSkipped(c.msg)];
    SettleOpen(ids, w0, s.inner, outcomes, running, c);
    if |outcomes'| < |ids| {
      ActivateOpen(ids, w0, ById(s.inner, c).0, outcomes', false);
    }
  }

  lemma FailFollows(w0: World, s: SequenceValue, outcomes: seq<Outcome>, running: bool)
    requires var ids := StageIds(w0.task.entries);
             && NoDup(ids) && s.allIds == ids && s.currentStage == |outcomes| < |ids|
             && Open(ids, w0, s.inner, outcomes, running)
    ensures var ids := StageIds(w0.task.entries);
            var outcomes' := outcomes + [HasFailed] + Skips(|ids| - |outcomes| - 1, "skipped due to previous error");
            Fail(s).allIds == ids && Fail(s).currentStage == |ids| && Frozen(ids, w0, Fail(s).inner, outcomes')
  {
    var ids := StageIds(w0.task.entries);
    var msg := "skipped due to previous error";
    FailOpen(ids, w0, s.inner, outcomes, running);
    var failed := outcomes + [HasFailed];
    var w1 := ById(s.inner, FailCall(ids[|outcomes|])).0;
    SkipFrozenRest(ids, w0, w1, failed, msg, |ids| - |failed|);
    var calls := SkipCalls(ids[|failed|..], msg);
    assert calls[..|calls|] == calls;
    if |failed| == |ids| {
      assert failed + Skips(0, msg) == failed;
    }
  }

  lemma FinishFollows(w0: World, s: SequenceValue, outcomes: seq<Outcome>, running: bool, msg: string)
    requires var ids := StageIds(w0.task.entries);
             && NoDup(ids) && s.allIds == ids && s.currentStage == |outcomes| < |ids|
             && Open(ids, w0, s.inner, outcomes, running)
    ensures var ids := StageIds(w0.task.entries);
            Finish(s, msg).allIds == ids && Finish(s, msg).currentStage == |ids| &&
            Completed(ids, Finish(s, msg).inner, outcomes + Skips(|ids| - |outcomes|, "skipped"), "success")
  {
    var ids := StageIds(w0.task.entries);
    SkipOpenRest(ids, w0, s.inner, outcomes, running, "skipped", |ids| - |outcomes|);
    var calls := SkipCalls(ids[|outcomes|..], "skipped");
    assert calls[..|calls|] == calls;
  }

  lemma ApplyOpen(w0: World, s: SequenceValue, outcomes: seq<Outcome>, running: bool, op: SequenceOp)
    requires var ids := StageIds(w0.task.entries);
             && NoDup(ids) && s.allIds == ids && s.currentStage == |outcomes| < |ids|
             && Open(ids, w0, s.inner, outcomes, running)
    ensures var ids, s', outcomes' := StageIds(w0.task.entries), Apply(s, op), Settle(|s.allIds|, outcomes, op);
            && s'.allIds == ids && s'.currentStage == |outcomes'|
            && if |outcomes'| < |ids| then Open(ids, w0, s'.inner, outcomes', true)
               else if HasFailed in outcomes' then Frozen(ids, w0, s'.inner, outcomes')
               else Completed(ids, s'.inner, outcomes', "success")
  {
    var ids := StageIds(w0.task.entries);
    match op
    case DoOk(msg) => AdvanceFollows(w0, s, outcomes, running, OkCall(ids[|outcomes|], msg));
    case DoSkip(msg) => AdvanceFollows(w0, s, outcomes, running, SkipCall(ids[|outcomes|], msg));
    case DoFail => FailFollows(w0, s, outcomes, running);
    case DoFinish(msg) => FinishFollows(w0, s, outcomes, running, msg);
  }

  /** One more call on a sequence with a stage left. */
  lemma ApplyFollowsOpen(w0: World, autostart: bool, s: SequenceValue, ops: seq<SequenceOp>, op: SequenceOp)
    requires NoDup(StageIds(w0.task.entries)) && Follows(w0, autostart, s, ops)
    requires |Outcomes(|StageIds(w0.task.entries)|, ops)| < |StageIds(w0.task.entries)|
    ensures Follows(w0, autostart, Apply(s, op), ops + [op])
  {
    hide NoDup, StageIds, Open, Frozen, Completed, Apply, FirstFinish;
    var ids, outcomes := StageIds(w0.task.entries), Outcomes(|StageIds(w0.task.entries)|, ops);
    assert (ops + [op])[..|ops + [op]| - 1] == ops;
    assert Outcomes(|ids|, ops + [op]) == Settle(|ids|, outcomes, op);
    ApplyOpen(w0, s, outcomes, autostart || |outcomes| > 0, op);
  }

  lemma NoOutcomes(ops: seq<SequenceOp>)
    ensures Outcomes(0, ops) == []
  {
  }

  /** Only `finish` acts on a sequence without stages. */
  lemma EmptyCompletes(w0: World, s: SequenceValue, op: SequenceOp)
    requires s.allIds == [] && s.currentStage == 0
    ensures !op.DoFinish? || s.inner.task.isFinished ==> Apply(s, op) == s
    ensures op.DoFinish? && !s.inner.task.isFinished ==>
              var t := Apply(s, op).inner.task;
              && Apply(s, op).currentStage == 0 && Apply(s, op).allIds == []
              && t.isFinished && t.renderer.status == Succeeded(op.msg) && t.entries == []
              && t.finishedStages == s.inner.task.finishedStages && t.failedStages == s.inner.task.failedStages
  {
  }

  /** One more call on a sequence without stages. */
  lemma ApplyFollowsEmpty(w0: World, autostart: bool, s: SequenceValue, ops: seq<SequenceOp>, op: SequenceOp)
    requires StageIds(w0.task.entries) == [] && Follows(w0, autostart, s, ops)
    ensures Follows(w0, autostart, Apply(s, op), ops + [op])
  {
    assert (ops + [op])[..|ops + [op]| - 1] == ops;
    assert FirstFinish(ops + [op]) == if FirstFinish(ops).Some? then FirstFinish(ops)
                                      else if op.DoFinish? then Some(op.msg) else None;
    NoOutcomes(ops);
    NoOutcomes(ops + [op]);
    EmptyCompletes(w0, s, op);
    hide StageIds, ById, ByIds, Shows, Outcomes, FirstFinish, ClearChildren, Finish, AllClearedNodes;
  }

  /** One more call on an exhausted sequence. */
  lemma ApplyFollowsExhausted(w0: World, autostart: bool, s: SequenceValue, ops: seq<SequenceOp>, op: SequenceOp)
    requires StageIds(w0.task.entries) != [] && Follows(w0, autostart, s, ops)
    requires |Outcomes(|StageIds(w0.task.entries)|, ops)| == |StageIds(w0.task.entries)|
    ensures Follows(w0, autostart, Apply(s, op), ops + [op])
  {
    assert s.inner.task.isFinished && Apply(s, op) == s;
    hide StageIds, Open, Frozen, Completed, Apply, FirstFinish;
    var ids, outcomes := StageIds(w0.task.entries), Outcomes(|StageIds(w0.task.entries)|, ops);
    assert (ops + [op])[..|ops + [op]| - 1] == ops;
    assert Outcomes(|ids|, ops + [op]) == Settle(|ids|, outcomes, op) == outcomes;
  }

  lemma ApplyFollows(w0: World, autostart: bool, s: SequenceValue, ops: seq<SequenceOp>, op: SequenceOp)
    requires NoDup(StageIds(w0.task.entries)) && Follows(w0, autostart, s, ops)
    ensures Follows(w0, autostart, Apply(s, op), ops + [op])
  {
    hide Follows, Apply, NoDup;
    var ids, outcomes := StageIds(w0.task.entries), Outcomes(|StageIds(w0.task.entries)|, ops);
    if |outcomes| < |ids| {
      ApplyFollowsOpen(w0, autostart, s, ops, op);
    } else if ids == [] {
      ApplyFollowsEmpty(w0, autostart, s, ops, op);
    } else {
      ApplyFollowsExhausted(w0, autostart, s, ops, op);
    }
  }

  /** Every run of a sequence over a fresh task with distinct stage ids is the linear automaton. */
  lemma {:induction false} SequenceRefinesAutomaton(w0: World, autostart: bool, ops: seq<SequenceOp>)
    requires Fresh(w0.task) && NoDup(StageIds(w0.task.entries))
    ensures Follows(w0, autostart, ApplyAll(NewSequence(w0, autostart), ops), ops)
    ensures Linear(|StageIds(w0.task.entries)|, Outcomes(|StageIds(w0.task.entries)|, ops))
  {
    hide StageIds, NoDup, Fresh, Follows, Linear, NewSequence, Apply, Outcomes;
    OutcomesAreLinear(|StageIds(w0.task.entries)|, ops);
    if ops == [] {
      NewFollows(w0, autostart);
    } else {
      var front := ops[..|ops| - 1];
      SequenceRefinesAutomaton(w0, autostart, front);
      ApplyFollows(w0, autostart, ApplyAll(NewSequence(w0, autostart), front), front, Last(ops));
      assert ops == front + [Last(ops)];
    }
  }

  // ---------------------------------------------------------------- any task

  /** An unfinished task still has the stages `ids`. */
  predicate Keeps(ids: seq<string>, w: World) {
    !w.task.isFinished ==> StageIds(w.task.entries) == ids
  }

  lemma ByIdKeeps(ids: seq<string>, w: World, c: Call)
    requires Keeps(ids, w)
    ensures Keeps(ids, ById(w, c).0) && (w.task.isFinished ==> ById(w, c).0.task.isFinished)
    ensures c.FailCall? && c.id in ids ==> ById(w, c).0.task.isFinished
  {
    StageIdsMembers(w.task.entries, c.id);
    if FindStage(w.task.entries, c.id).Some? {
      var i := FindStage(w.task.entries, c.id).value;
      StageIdsUpdate(w.task.entries, i, Event(w.layout, w.task.entries[i].renderer, c).1);
      hide StageIds, FindStage;
      if c.FailCall? {
        assert c.id in Mark(w, i, c).task.failedStages;
      }
    }
  }

  lemma {:induction false} ByIdsKeeps(ids: seq<string>, w: World, calls: seq<Call>)
    requires Keeps(ids, w)
    ensures Keeps(ids, ByIds(w, calls)) && (w.task.isFinished ==> ByIds(w, calls).task.isFinished)
  {
    hide Keeps, ById;
    if calls != [] {
      ByIdsKeeps(ids, w, calls[..|calls| - 1]);
      ByIdKeeps(ids, ByIds(w, calls[..|calls| - 1]), Last(calls));
    }
  }

  /** A sequence over any task: in range, and finished when its stages are used up. */
  predicate Bounded(ids: seq<string>, s: SequenceValue) {
    && s.allIds == ids && s.currentStage <= |ids| && Keeps(ids, s.inner)
    && (ids != [] && s.currentStage == |ids| ==> s.inner.task.isFinished)
  }

  lemma AdvanceBounded(ids: seq<string>, s: SequenceValue, c: Call)
    requires Bounded(ids, s) && s.currentStage < |ids|
    ensures Bounded(ids, Advance(s, c))
  {
    hide ById;
    ByIdKeeps(ids, s.inner, c);
    if s.currentStage + 1 < |ids| {
      ByIdKeeps(ids, ById(s.inner, c).0, RunCall(ids[s.currentStage + 1]));
    }
  }

  lemma ApplyBounded(ids: seq<string>, s: SequenceValue, op: SequenceOp)
    requires Bounded(ids, s)
    ensures Bounded(ids, Apply(s, op))
  {
    var i := s.currentStage;
    if i < |ids| {
      hide ById, ByIds, ClearChildren, Advance;
      match op
      case DoOk(msg) => AdvanceBounded(ids, s, OkCall(ids[i], msg));
      case DoSkip(msg) => AdvanceBounded(ids, s, SkipCall(ids[i], msg));
      case DoFail =>
        ByIdKeeps(ids, s.inner, FailCall(ids[i]));
        ByIdsKeeps(ids, ById(s.inner, FailCall(ids[i])).0, SkipCalls(ids[i + 1..], "skipped due to previous error"));
      case DoFinish(_) => ByIdsKeeps(ids, s.inner, SkipCalls(ids[i..], "skipped"));
    }
  }

  /** A sequence over any task stays in range: every slice and position it uses is within its stages,
      and whenever a non-empty sequence is exhausted, its task is finished. */
  lemma {:induction false} StaysBounded(w0: World, autostart: bool, ops: seq<SequenceOp>)
    ensures Bounded(StageIds(w0.task.entries), ApplyAll(NewSequence(w0, autostart), ops))
  {
    var ids := StageIds(w0.task.entries);
    hide ById, Apply, StageIds;
    if ops == [] {
      if autostart && ids != [] {
        ByIdKeeps(ids, w0, RunCall(ids[0]));
      }
    } else {
      StaysBounded(w0, autostart, ops[..|ops| - 1]);
      ApplyBounded(ids, ApplyAll(NewSequence(w0, autostart), ops[..|ops| - 1]), Last(ops));
    }
  }

  /** Once a non-empty sequence is exhausted no call changes anything, whatever task it was made from. */
  lemma {:induction false} ExhaustedIsFinal(w0: World, autostart: bool, ops: seq<SequenceOp>, more: seq<SequenceOp>)
    requires StageIds(w0.task.entries) != []
    requires ApplyAll(NewSequence(w0, autostart), ops).currentStage == |StageIds(w0.task.entries)|
    ensures ApplyAll(NewSequence(w0, autostart), ops + more) == ApplyAll(NewSequence(w0, autostart), ops)
  {
    hide StageIds, NewSequence, ById, ByIds, ClearChildren;
    if more == [] {
      assert ops + more == ops;
    } else {
      var front := more[..|more| - 1];
      ExhaustedIsFinal(w0, autostart, ops, front);
      assert (ops + more)[..|ops + more| - 1] == ops + front;
      StaysBounded(w0, autostart, ops);
    }
  }

  /** While a stage is current, the inner task is unfinished and every stage lookup succeeds. */
  lemma LookupsSucceed(w0: World, autostart: bool, ops: seq<SequenceOp>, j: nat)
    requires Fresh(w0.task) && NoDup(StageIds(w0.task.entries))
    ensures var s := ApplyAll(NewSequence(w0, autostart), ops);
            s.currentStage < |s.allIds| && j < |s.allIds| ==>
              !s.inner.task.isFinished && FindStage(s.inner.task.entries, s.allIds[j]).Some?
  {
    SequenceRefinesAutomaton(w0, autostart, ops);
    var s := ApplyAll(NewSequence(w0, autostart), ops);
    if s.currentStage < |s.allIds| && j < |s.allIds| {
      StageIdsMembers(s.inner.task.entries, s.allIds[j]);
    }
  }

  /** `finish` shows its message on the root only for a sequence without stages: otherwise the last
      skip has already completed the task with "success". */
  lemma FinishMessageShown(w0: World, autostart: bool, ops: seq<SequenceOp>, msg: string)
    requires Fresh(w0.task) && NoDup(StageIds(w0.task.entries))
    requires !ApplyAll(NewSequence(w0, autostart), ops).inner.task.isFinished
    ensures Finish(ApplyAll(NewSequence(w0, autostart), ops), msg).inner.task.renderer.status == Succeeded(msg)
            <==> StageIds(w0.task.entries) == [] || msg == "success"
  {
    var s := ApplyAll(NewSequence(w0, autostart), ops);
    SequenceRefinesAutomaton(w0, autostart, ops);
    ApplyFollows(w0, autostart, s, ops, DoFinish(msg));
    assert (ops + [DoFinish(msg)])[..|ops|] == ops;
  }

  lemma {:induction false} RepeatedOutcomes(n: nat, i: nat, op: SequenceOp)
    requires i <= n && (op.DoOk? || op.DoSkip?)
    ensures Outcomes(n, seq(i, _ => op)) == seq(i, _ => if op.DoOk? then WasDone(op.msg) else WasSkipped(op.msg))
  {
    if i > 0 {
      var ops := seq(i, _ => op);
      assert ops[..i - 1] == seq(i - 1, _ => op);
      RepeatedOutcomes(n, i - 1, op);
    }
  }

  /** With a repeated id some run leaves the automaton: settling the first of the two stages also
      settles the second, which is still ahead. */
  lemma RepeatedIdLeavesAutomaton(w0: World, autostart: bool, i: nat, j: nat) returns (ops: seq<SequenceOp>)
    requires var ids := StageIds(w0.task.entries); i < j < |ids| && ids[i] == ids[j]
    ensures !Follows(w0, autostart, ApplyAll(NewSequence(w0, autostart), ops), ops)
  {
    var ids := StageIds(w0.task.entries);
    var before := StatusOf(w0.task.entries, ids[j]);
    var op := if before.Some? && before.value.Succeeded? then DoSkip("") else DoOk("");
    ops := seq(i + 1, _ => op);
    RepeatedOutcomes(|ids|, i + 1, op);
    var outcomes := Outcomes(|ids|, ops);
    assert outcomes[i] == if op.DoOk? then WasDone(op.msg) else WasSkipped(op.msg);
    hide Outcomes, StageIds, ApplyAll, NewSequence, StatusOf, Linear;
  }

  /** A call on a finished task changes neither the flag nor the verdict. */
  lemma ByIdKeepsVerdict(w: World, c: Call)
    requires w.task.isFinished
    ensures ById(w, c).0.task.isFinished && ById(w, c).0.task.renderer.status == w.task.renderer.status
  {
    hide FindStage, InsertAfter;
  }

  /** A task that was used before it was handed over need not follow the automaton either: over a task
      that has failed, the sequence goes through its stages with `ok` and the root stays failed. */
  lemma {:induction false} UsedTaskStaysFailed(w0: World, n: nat, msg: string)
    requires w0.task.isFinished && w0.task.renderer.status == Status.Failed && n <= |StageIds(w0.task.entries)|
    ensures var s := ApplyAll(NewSequence(w0, false), seq(n, _ => DoOk(msg)));
            s.currentStage == n && s.inner.task.isFinished && s.inner.task.renderer.status == Status.Failed
    ensures !Follows(w0, false, NewSequence(w0, false), [])
  {
    hide StageIds, ById, Bounded;
    if n > 0 {
      UsedTaskStaysFailed(w0, n - 1, msg);
      var ops := seq(n, _ => DoOk(msg));
      assert ops[..n - 1] == seq(n - 1, _ => DoOk(msg));
      StaysBoundedIds(w0, ops[..n - 1]);
      var s := ApplyAll(NewSequence(w0, false), ops[..n - 1]);
      ByIdKeepsVerdict(s.inner, OkCall(s.allIds[n - 1], msg));
      if n < |s.allIds| {
        ByIdKeepsVerdict(ById(s.inner, OkCall(s.allIds[n - 1], msg)).0, RunCall(s.allIds[n]));
      }
    }
  }

  lemma StaysBoundedIds(w0: World, ops: seq<SequenceOp>)
    ensures ApplyAll(NewSequence(w0, false), ops).allIds == StageIds(w0.task.entries)
  {
    hide ApplyAll, NewSequence, StageIds;
    StaysBounded(w0, false, ops);
  }

  /** Such a task: one of its stages was failed by its id. */
  lemma FailedStageMakesUsedTask(w0: World, id: string)
    requires Fresh(w0.task) && id in StageIds(w0.task.entries)
    ensures var w := ById(w0, FailCall(id)).0;
            && StageIds(w.task.entries) == StageIds(w0.task.entries)
            && w.task.isFinished && w.task.renderer.status == Status.Failed
  {
    StageIdsMembers(w0.task.entries, id);
    var i := FindStage(w0.task.entries, id).value;
    StageIdsUpdate(w0.task.entries, i, Event(w0.layout, w0.task.entries[i].renderer, FailCall(id)).1);
    assert id in Mark(w0, i, FailCall(id)).task.failedStages;
  }

  /** A sequence is the linear automaton in every run exactly when its task is fresh and the stage ids
      are pairwise distinct. */
  lemma FreshAndDistinctExactly(w0: World)
    ensures Fresh(w0.task) && NoDup(StageIds(w0.task.entries)) <==>
            forall autostart, ops :: Follows(w0, autostart, ApplyAll(NewSequence(w0, autostart), ops), ops)
  {
    var ids := StageIds(w0.task.entries);
    if Fresh(w0.task) && NoDup(ids) {
      forall autostart, ops ensures Follows(w0, autostart, ApplyAll(NewSequence(w0, autostart), ops), ops) {
        SequenceRefinesAutomaton(w0, autostart, ops);
      }
    } else if !Fresh(w0.task) {
      UsedTaskLeavesAutomaton(w0);
      assert !Follows(w0, false, ApplyAll(NewSequence(w0, false), []), []);
    } else {
      var i, j :| 0 <= i < j < |ids| && ids[i] == ids[j];
      var ops := RepeatedIdLeavesAutomaton(w0, false, i, j);
    }
  }

  /** A task with a settled stage or a verdict is off the automaton from the start. */
  lemma UsedTaskLeavesAutomaton(w0: World)
    requires !Fresh(w0.task)
    ensures !Follows(w0, false, ApplyAll(NewSequence(w0, false), []), [])
  {
    assert SettledIds(StageIds(w0.task.entries), [], false) == {} && SettledIds(StageIds(w0.task.entries), [], true) == {};
  }
}
