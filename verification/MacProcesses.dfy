/** Waiting for a process on macOS, where there is no process handle: the PID is read again every
    100 ms and compared with the fingerprint taken at the bind, until a fixed deadline. */
module MacProcesses {
  import opened Kernels
  import opened Processes
  import opened Results

  /** Nanoseconds. */
  const POLL: nat := 100_000_000

  /** The n-th reading of the monotonic clock. */
  type Clock = nat -> nat

  /** Between two readings the loop asks for this much sleep. */
  function Asked(now: nat, deadline: nat): nat
    requires now <= deadline
  {
    if deadline - now < POLL then deadline - now else POLL
  }

  /** The clock never goes back, and a sleep lasts at least as long as asked. */
  ghost predicate SleepsFully(clock: Clock, timeout: nat) {
    var deadline := clock(0) + timeout;
    && clock(0) <= clock(1)
    && forall k: nat | 0 < k && clock(k) < deadline ::
         clock(k) + (if deadline - clock(k) < 100_000_000 then deadline - clock(k) else 100_000_000) <= clock(k + 1)
  }

  /** Rounded up. */
  function CeilDiv(a: nat, b: nat): (q: nat)
    requires b > 0
    ensures (q - 1) * b < a <= q * b
  {
    (a + b - 1) / b
  }

  /** The fingerprint was read from this instance; it may have been renamed since. */
  predicate Describes(os: Os, i: InstanceId, fingerprint: Metadata) {
    && i < |os.instances| && os.instances[i].pid == fingerprint.pid
    && os.instances[i].startTime == fingerprint.startTime
  }

  /** What a reading of the PID says about the fingerprint. */
  function Compare(os: Os, fingerprint: Metadata): Result<bool, ProcessError> {
    var holder := Holder(os, fingerprint.pid);
    if holder.None? then Ok(false)
    else if MetadataOf(os, holder.value) == fingerprint then Ok(true)
    else Err(Reused)
  }

  /** A check answers for the bound instance, except that a rename is taken for reuse. */
  lemma CompareMeans(os: Os, i: InstanceId, fingerprint: Metadata)
    requires Sound(os) && Describes(os, i, fingerprint)
    ensures Compare(os, fingerprint) == Ok(true) <==>
              Holder(os, fingerprint.pid) == Some(i) && os.instances[i].name == fingerprint.name
    ensures Compare(os, fingerprint) == Ok(false) ==> os.instances[i].life.Gone?
    ensures Compare(os, fingerprint) == Err(Reused) <==>
              Holder(os, fingerprint.pid).Some? &&
              (Holder(os, fingerprint.pid) != Some(i) || os.instances[i].name != fingerprint.name)
  {
    var holder := Holder(os, fingerprint.pid);
    if holder.None? {
      assert !Holds(os, i, fingerprint.pid);
    } else if MetadataOf(os, holder.value) == fingerprint {
      assert os.instances[holder.value].pid == os.instances[i].pid;
    }
  }

  /** A report of reuse is right, another instance holds the PID and the bound one is gone, unless the
      bound instance was renamed and is still there. */
  lemma ReusedIsRightUnlessRenamed(os: Os, i: InstanceId, fingerprint: Metadata)
    requires Sound(os) && Describes(os, i, fingerprint) && Compare(os, fingerprint) == Err(Reused)
    ensures Holder(os, fingerprint.pid).Some?
    ensures os.instances[i].life.Gone? <==> Holder(os, fingerprint.pid) != Some(i)
    ensures !os.instances[i].life.Gone? ==> os.instances[i].name != fingerprint.name
  {
    CompareMeans(os, i, fingerprint);
    if !os.instances[i].life.Gone? {
      assert Holds(os, i, fingerprint.pid);
    }
  }

  /** A process that renames itself while it is waited for is reported as reused although it runs. */
  lemma RenameIsReportedAsReuse()
    ensures var before := Os([Instance(7, "knotd", 1, Alive)]);
            var after := RunOs(before, [Rename(0, "knotd-worker")]);
            && Sound(before) && Describes(after, 0, MetadataOf(before, 0)) && after.instances[0].life.Alive?
            && Holder(after, 7) == Some(0) && Compare(after, MetadataOf(before, 0)) == Err(Reused)
  {
    var before := Os([Instance(7, "knotd", 1, Alive)]);
    assert RunOs(StepOs(before, Rename(0, "knotd-worker")), []) == StepOs(before, Rename(0, "knotd-worker"));
    assert [Rename(0, "knotd-worker")][1..] == [];
    assert "knotd"[..] != "knotd-worker"[..] by {
      assert |"knotd"| == 5 && |"knotd-worker"| == 12;
    }
  }

  method CheckIdentity(env: Environment, m: Machine, fingerprint: Metadata)
    returns (r: Result<bool, ProcessError>, m': Machine)
    requires Sound(m.os)
    ensures m' == Kernels.Advance(env, m) && Sound(m'.os) && Later(m.os, m'.os)
    ensures r == if env(m.now).ioError then Err(Io) else Compare(m'.os, fingerprint)
  {
    var extracted;
    extracted, m' := ExtractMetadata(env, m, fingerprint.pid);
    match extracted {
      case Ok(metadata) => r := if metadata == fingerprint then Ok(true) else Err(Reused);
      case Err(NotRunning) => r := Ok(false);
      case Err(e) => r := Err(e);
    }
  }

  /** The system seen by one check still has the instance behind the PID, under the same name. */
  predicate StillThere(os: Os, i: InstanceId, fingerprint: Metadata) {
    Holder(os, fingerprint.pid) == Some(i) && i < |os.instances| && os.instances[i].name == fingerprint.name
  }

  /** Waits for instance `i`, of which `fingerprint` was read.

      At most one check per started 100 ms and one more; no more sleep asked for than the timeout;
      giving up only at or after the deadline, with the process still there; and success only when the
      instance is gone. Every check but the last found it there. */
  method Wait(env: Environment, m: Machine, clock: Clock, fingerprint: Metadata, timeout: nat, ghost i: InstanceId)
    returns (r: Result<bool, ProcessError>, m': Machine, checks: nat, asked: nat)
    requires Sound(m.os) && |m.past| == m.now && Describes(m.os, i, fingerprint)
    requires SleepsFully(clock, timeout)
    ensures Sound(m'.os) && Later(m.os, m'.os) && m'.now == |m'.past| == m.now + checks && m'.log == m.log
    ensures 1 <= checks <= CeilDiv(timeout, 100_000_000) + 1
    ensures asked <= timeout && asked <= (checks - 1) * 100_000_000
    ensures forall k | m.now <= k < m'.now - 1 :: StillThere(m'.past[k], i, fingerprint)
    ensures i < |m'.os.instances|
    ensures r == Ok(true) ==> m'.os.instances[i].life.Gone? && Holder(m'.os, fingerprint.pid).None?
    ensures r == Ok(false) ==> clock(checks) >= clock(0) + timeout && StillThere(m'.os, i, fingerprint)
    ensures r == Err(Reused) ==> Holder(m'.os, fingerprint.pid).Some? && !StillThere(m'.os, i, fingerprint)
    ensures r.Err? ==> r.error == Reused || (r.error == Io && Faulted(env, m.now, m'.now))
  {
    hide Sound, Holder;
    var deadline := clock(0) + timeout;
    m', checks, asked := m, 0, 0;
    while true
      invariant Sound(m'.os) && Later(m.os, m'.os) && m'.log == m.log
      invariant m'.now == |m'.past| == m.now + checks
      invariant Describes(m'.os, i, fingerprint)
      invariant forall k | m.now <= k < m'.now :: StillThere(m'.past[k], i, fingerprint)
      invariant asked <= timeout && asked <= checks * POLL && clock(0) + asked <= clock(checks + 1)
      invariant deadline <= clock(checks + 1) || clock(0) + checks * POLL <= clock(checks + 1)
      invariant checks > 0 ==> (checks - 1) * POLL < timeout
      decreases CeilDiv(timeout, POLL) + 1 - checks
    {
      var exists_;
      exists_, m' := CheckIdentity(env, m', fingerprint);
      checks := checks + 1;
      CompareMeans(m'.os, i, fingerprint);
      if exists_.Err? {
        return exists_, m', checks, asked;
      }
      if !exists_.value {
        return Ok(true), m', checks, asked;
      }
      var now := clock(checks);
      if now >= deadline {
        return Ok(false), m', checks, asked;
      }
      asked := asked + Asked(now, deadline);
    }
  }
  // ---------------------------------------------------------------- signals and the kill protocol

  /** `check_permissions`, `terminate` and `kill`: the identity check and the signal to the PID, taken as
      one action. */
  method SendSignal(env: Environment, m: Machine, fingerprint: Metadata, signal: Signal, ghost i: InstanceId)
    returns (r: Result<(), ProcessError>, m': Machine)
    requires Sound(m.os) && |m.past| == m.now && Describes(m.os, i, fingerprint)
    ensures Sound(m'.os) && Later(m.os, m'.os) && m'.now == |m'.past| == m.now + 1
    ensures m'.os == Kernels.Advance(env, m).os
    ensures Describes(m'.os, i, fingerprint)
    ensures r == Err(Io) <==> env(m.now).ioError
    ensures r.Ok? <==> !env(m.now).ioError && StillThere(m'.os, i, fingerprint)
    ensures r == Err(NotRunning) ==> m'.os.instances[i].life.Gone?
    ensures r == Err(Reused) <==>
              !env(m.now).ioError && Holder(m'.os, fingerprint.pid).Some? && !StillThere(m'.os, i, fingerprint)
    ensures r.Err? ==> r.error == NotRunning || r.error == Reused || r.error == Io
    ensures m'.log == if r.Ok? then m.log + [Sent(signal, i)] else m.log
  {
    var identity;
    identity, m' := CheckIdentity(env, m, fingerprint);
    CompareMeans(m'.os, i, fingerprint);
    match identity {
      case Err(e) => r := Err(e);
      case Ok(false) => r := Err(NotRunning);
      case Ok(true) =>
        var target := Holder(m'.os, fingerprint.pid);
        m' := m'.(log := m'.log + [Sent(signal, target.value)]);
        r := Ok(());
    }
  }

  /** `PlatformProcess::kill` and `terminate` over this handle. */
  method SignalAndWait(env: Environment, m: Machine, clock: Clock, fingerprint: Metadata, signal: Signal, timeout: nat,
                       ghost i: InstanceId)
    returns (r: Result<bool, ProcessError>, m': Machine)
    requires Sound(m.os) && |m.past| == m.now && Describes(m.os, i, fingerprint)
    requires SleepsFully(clock, timeout)
    ensures Sound(m'.os) && Later(m.os, m'.os) && m.now < m'.now == |m'.past|
    ensures Describes(m'.os, i, fingerprint)
    ensures m.log <= m'.log && IsAttempt(m'.log[|m.log|..], signal, i, timeout)
    ensures r == Ok(false) <==> |m'.log| == |m.log| + 3
    ensures r == Ok(true) || r == Err(NotRunning) ==> m'.os.instances[i].life.Gone?
    ensures r == Err(Reused) ==> Holder(m'.os, fingerprint.pid).Some? && !StillThere(m'.os, i, fingerprint)
    ensures r.Err? ==> r.error == NotRunning || r.error == Reused || (r.error == Io && Faulted(env, m.now, m'.now))
    ensures !env(m.now).ioError && Renamed(Kernels.Advance(env, m).os, i, fingerprint) ==>
              r == Err(Reused) && m'.log == m.log && m'.os == Kernels.Advance(env, m).os
  {
    hide Sound, Holder, SleepsFully;
    var checked, m1 := SendSignal(env, m, fingerprint, Zero, i);
    if checked.Err? {
      return Err(checked.error), m1;
    }
    var sent, m2 := SendSignal(env, m1, fingerprint, signal, i);
    if sent.Err? {
      return Err(sent.error), m2;
    }
    var checks, asked;
    r, m', checks, asked := Wait(env, m2, clock, fingerprint, timeout, i);
    assert m2.log[|m.log|..] == [Sent(Zero, i), Sent(signal, i)];
    if r == Ok(false) {
      m' := m'.(log := m'.log + [TimedOut(timeout)]);
      assert m'.log[|m.log|..] == m2.log[|m.log|..] + [TimedOut(timeout)];
    }
  }

  /** The bound instance holds the PID under another name than at the bind. */
  predicate Renamed(os: Os, i: InstanceId, fingerprint: Metadata) {
    Holder(os, fingerprint.pid) == Some(i) && i < |os.instances| && os.instances[i].name != fingerprint.name
  }

  /** `KillHandle::kill` over this handle, with a clock for each of its two waits.

      Whatever the system does: the signals sent are an escalation on the bound instance, although they
      go to a PID; success means that it is gone. A process that renamed itself is not killed: the
      attempt fails as reused, before any signal. */
  method KillProcess(env: Environment, m: Machine, first: Clock, second: Clock, fingerprint: Metadata,
                     graceful: nat, force: nat, ghost i: InstanceId)
    returns (r: Result<(), SignalError>, m': Machine)
    requires Sound(m.os) && |m.past| == m.now && Describes(m.os, i, fingerprint)
    requires SleepsFully(first, graceful) && SleepsFully(second, force)
    ensures Sound(m'.os) && Later(m.os, m'.os) && m.log <= m'.log
    ensures Escalation(m'.log[|m.log|..], i, graceful)
    ensures i < |m'.os.instances| && (r.Ok? ==> m'.os.instances[i].life.Gone?)
    ensures r == Err(NotResponding) ==>
              |m'.log| >= |m.log| + 3 && m'.log[|m'.log| - 2..] == [Sent(Kill, i), TimedOut(force)]
    ensures r.Err? && r.error.ProcessFailure? ==>
              || (r.error.error == Reused && Holder(m'.os, fingerprint.pid).Some? && !StillThere(m'.os, i, fingerprint))
              || (r.error.error == Io && Faulted(env, m.now, m'.now))
    ensures !env(m.now).ioError && Renamed(Kernels.Advance(env, m).os, i, fingerprint) ==>
              && r == Err(ProcessFailure(Reused)) && m'.log == m.log
              && !m'.os.instances[i].life.Gone?
  {
    hide Signals, AllowedSignals, Patient, OnlyTo, Sound, SleepsFully;
    var isTerminated := false;
    m' := m;
    assert m.log[|m.log|..] == [];
    if graceful != 0 {
      var terminated;
      terminated, m' := SignalAndWait(env, m, first, fingerprint, Term, graceful, i);
      AttemptEscalates(m'.log[|m.log|..], Term, i, graceful, graceful);
      match terminated {
        case Ok(sent) => isTerminated := sent;
        case Err(NotRunning) => isTerminated := true;
        case Err(e) => return Err(ProcessFailure(e)), m';
      }
    }
    if !isTerminated {
      var killed;
      ghost var attempt, before := m'.log[|m.log|..], m'.log;
      killed, m' := SignalAndWait(env, m', second, fingerprint, Kill, force, i);
      ghost var last := m'.log[|before|..];
      assert m'.log[|m.log|..] == attempt + last;
      if graceful != 0 {
        assert attempt == [Sent(Zero, i), Sent(Term, i), TimedOut(graceful)];
        KillEscalates(last, i, graceful, force);
      } else {
        AttemptEscalates(last, Kill, i, force, graceful);
        assert attempt + last == last;
      }
      assert Escalation(m'.log[|m.log|..], i, graceful);
      match killed {
        case Ok(sent) =>
          if !sent {
            assert m'.log[|m'.log| - 2..] == last[1..];
            return Err(NotResponding), m';
          }
        case Err(NotRunning) =>
        case Err(e) => return Err(ProcessFailure(e)), m';
      }
    }
    return Ok(()), m';
  }
}
