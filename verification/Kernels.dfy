/** The operating system a client runs beside. Processes are spawned, renamed (exec), exit, are
    reaped, and PIDs are reused, at any point between two client actions.

    An instance is identified by its position in `instances`, which only grows; a PID is not an
    identity. The one assumption about the system is that two instances that held the same PID
    have different start times. */
module Kernels {
  import opened Results

  type Pid = nat
  type InstanceId = nat

  /** An exited process keeps its PID as a zombie until it is reaped. */
  datatype Life = Alive | Zombie | Gone

  datatype Instance = Instance(pid: Pid, name: string, startTime: nat, life: Life)

  datatype Metadata = Metadata(pid: Pid, name: string, startTime: nat)

  datatype Os = Os(instances: seq<Instance>)

  datatype OsStep =
    | Spawn(pid: Pid, name: string, startTime: nat)
    | Rename(i: InstanceId, name: string)
    | Exit(i: InstanceId)
    | Reap(i: InstanceId)

  predicate Holds(os: Os, i: InstanceId, pid: Pid) {
    i < |os.instances| && os.instances[i].pid == pid && !os.instances[i].life.Gone?
  }

  /** The instance that holds the PID now. */
  function Holder(os: Os, pid: Pid): (r: Option<InstanceId>)
    ensures r.Some? ==> Holds(os, r.value, pid)
    ensures r.None? ==> forall i: nat :: !Holds(os, i, pid)
    decreases |os.instances|
  {
    if os.instances == [] then None
    else
      var n := |os.instances| - 1;
      var front := Holder(Os(os.instances[..n]), pid);
      if Holds(os, n, pid) then Some(n)
      else
        assert forall i: nat :: Holds(os, i, pid) ==> Holds(Os(os.instances[..n]), i, pid);
        front
  }

  predicate StepEnabled(os: Os, step: OsStep) {
    match step
    case Spawn(pid, _, startTime) =>
      Holder(os, pid).None? && forall p <- os.instances :: p.pid == pid ==> p.startTime != startTime
    case Rename(i, _) => i < |os.instances| && os.instances[i].life.Alive?
    case Exit(i) => i < |os.instances| && os.instances[i].life.Alive?
    case Reap(i) => i < |os.instances| && os.instances[i].life.Zombie?
  }

  function StepOs(os: Os, step: OsStep): Os {
    if !StepEnabled(os, step) then os
    else match step
      case Spawn(pid, name, startTime) => Os(os.instances + [Instance(pid, name, startTime, Alive)])
      case Rename(i, name) => Os(os.instances[i := os.instances[i].(name := name)])
      case Exit(i) => Os(os.instances[i := os.instances[i].(life := Zombie)])
      case Reap(i) => Os(os.instances[i := os.instances[i].(life := Gone)])
  }

  function RunOs(os: Os, steps: seq<OsStep>): Os
    decreases |steps|
  {
    if steps == [] then os else RunOs(StepOs(os, steps[0]), steps[1..])
  }

  /** A PID has one holder, and instances with the same PID have different start times. */
  ghost predicate Sound(os: Os) {
    && (forall i: nat, j: nat, pid | Holds(os, i, pid) && Holds(os, j, pid) :: i == j)
    && (forall i: nat, j: nat | i < |os.instances| && j < |os.instances| &&
          os.instances[i].pid == os.instances[j].pid && os.instances[i].startTime == os.instances[j].startTime :: i == j)
  }

  /** What time leaves unchanged: instances keep PID and start time, and never come back. */
  ghost predicate Later(os: Os, os': Os) {
    && |os.instances| <= |os'.instances|
    && forall i | 0 <= i < |os.instances| ::
         && os'.instances[i].pid == os.instances[i].pid
         && os'.instances[i].startTime == os.instances[i].startTime
         && (os.instances[i].life.Gone? ==> os'.instances[i].life.Gone?)
         && (os'.instances[i].life.Alive? ==> os.instances[i].life.Alive?)
  }

  lemma {:induction false} RunOsIsLater(os: Os, steps: seq<OsStep>)
    requires Sound(os)
    ensures Sound(RunOs(os, steps)) && Later(os, RunOs(os, steps))
    decreases |steps|
  {
    if steps != [] {
      StepKeepsSound(os, steps[0]);
      RunOsIsLater(StepOs(os, steps[0]), steps[1..]);
    }
  }

  lemma StepKeepsSound(os: Os, step: OsStep)
    requires Sound(os)
    ensures Sound(StepOs(os, step)) && Later(os, StepOs(os, step))
  {
    var os1 := StepOs(os, step);
    forall i: nat, j: nat, pid | Holds(os1, i, pid) && Holds(os1, j, pid) ensures i == j {
      if i < |os.instances| {
        assert Holds(os, i, pid);
      }
      if j < |os.instances| {
        assert Holds(os, j, pid);
      }
    }
    if step.Spawn? && StepEnabled(os, step) {
      assert forall i | 0 <= i < |os.instances| :: os.instances[i] in os.instances;
    }
  }

  function MetadataOf(os: Os, i: InstanceId): Metadata
    requires i < |os.instances|
  {
    Metadata(os.instances[i].pid, os.instances[i].name, os.instances[i].startTime)
  }

  predicate Exited(os: Os, i: InstanceId) {
    i < |os.instances| && !os.instances[i].life.Alive?
  }

  /** The heart of identity: two readings of one PID with the same start time are of one instance,
      which held the PID at every moment in between. */
  lemma SameStartSameInstance(os1: Os, os2: Os, os3: Os, pid: Pid)
    requires Sound(os2) && Sound(os3) && Later(os1, os2) && Later(os2, os3)
    requires Holder(os1, pid).Some? && Holder(os3, pid).Some?
    requires os1.instances[Holder(os1, pid).value].startTime == os3.instances[Holder(os3, pid).value].startTime
    ensures Holder(os1, pid) == Holder(os2, pid) == Holder(os3, pid)
  {
    var i, j := Holder(os1, pid).value, Holder(os3, pid).value;
    assert os3.instances[i].pid == os3.instances[j].pid;
    assert i == j;
    assert Holds(os2, i, pid);
  }

  lemma RunThree(os: Os, first: OsStep, second: OsStep, third: OsStep)
    ensures RunOs(os, [first, second, third]) == StepOs(StepOs(StepOs(os, first), second), third)
  {
    hide StepOs;
    var os1 := StepOs(os, first);
    var os2 := StepOs(os1, second);
    assert [first, second, third][1..] == [second, third] && [second, third][1..] == [third] && [third][1..] == [];
    assert RunOs(os, [first, second, third]) == RunOs(os1, [second, third]);
    assert RunOs(os1, [second, third]) == RunOs(os2, [third]);
  }

  /** A process that exits and is reaped frees its PID. */
  lemma ReapedFreesPid(os: Os, i: InstanceId)
    requires Sound(os) && i < |os.instances| && os.instances[i].life.Alive?
    ensures var os2 := StepOs(StepOs(os, Exit(i)), Reap(i));
            && os2 == Os(os.instances[i := os.instances[i].(life := Gone)])
            && Holder(os2, os.instances[i].pid).None?
  {
    var pid := os.instances[i].pid;
    assert Holds(os, i, pid);
    var os2 := StepOs(StepOs(os, Exit(i)), Reap(i));
    forall k: nat ensures !Holds(os2, k, pid) {
      assert k != i && Holds(os2, k, pid) ==> Holds(os, k, pid);
    }
  }

  lemma SpawnTakesPid(os: Os, pid: Pid, name: string, startTime: nat)
    requires StepEnabled(os, Spawn(pid, name, startTime))
    ensures Holder(StepOs(os, Spawn(pid, name, startTime)), pid) == Some(|os.instances|)
  {
    assert Holds(StepOs(os, Spawn(pid, name, startTime)), |os.instances|, pid);
  }

  /** Nothing protects a PID: once its process has exited and was reaped, a new one can get it. */
  lemma PidCanBeReused(os: Os, i: InstanceId, name: string, startTime: nat)
    requires Sound(os) && i < |os.instances| && os.instances[i].life.Alive?
    requires forall p <- os.instances :: p.pid == os.instances[i].pid ==> p.startTime != startTime
    ensures var pid := os.instances[i].pid;
            var os' := RunOs(os, [Exit(i), Reap(i), Spawn(pid, name, startTime)]);
            Holder(os, pid) == Some(i) && Holder(os', pid) == Some(|os.instances|)
  {
    var pid := os.instances[i].pid;
    assert Holds(os, i, pid);
    assert Holds(os, Holder(os, pid).value, pid);
    RunThree(os, Exit(i), Reap(i), Spawn(pid, name, startTime));
    ReapedFreesPid(os, i);
    var os2 := StepOs(StepOs(os, Exit(i)), Reap(i));
    hide RunOs, Holder, Sound, StepOs;
    assert os.instances[i] in os.instances;
    assert forall p <- os2.instances :: p == os2.instances[i] || p in os.instances;
    SpawnTakesPid(os2, pid, name, startTime);
  }

  // ---------------------------------------------------------------- a client's view

  datatype Signal = Zero | Term | Kill

  datatype Event =
    | Sent(signal: Signal, target: InstanceId)
    | TimedOut(timeout: nat)

  /** What happens at one client action: first `steps` of the system, then the action itself, which
      may fail with an I/O error; a wait is woken `wakeups` times before its timer fires. */
  datatype Tick = Tick(steps: seq<OsStep>, ioError: bool, wakeups: nat)

  type Environment = nat -> Tick

  /** The system, the number of client actions so far, the system seen by each of them, and what the
      client has sent and waited for. */
  datatype Machine = Machine(os: Os, now: nat, past: seq<Os>, log: seq<Event>)

  function Advance(env: Environment, m: Machine): Machine {
    var os := RunOs(m.os, env(m.now).steps);
    Machine(os, m.now + 1, m.past + [os], m.log)
  }

  lemma AdvanceIsLater(env: Environment, m: Machine)
    requires Sound(m.os)
    ensures Sound(Advance(env, m).os) && Later(m.os, Advance(env, m).os)
  {
    RunOsIsLater(m.os, env(m.now).steps);
  }
}
