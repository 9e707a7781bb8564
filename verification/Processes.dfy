/** Process binding and control on Linux, and the kill protocol on top of it, over every interleaving
    with the operating system: `env` is arbitrary, so each contract holds for every environment. */
module Processes {
  import opened Kernels
  import opened Results

  datatype ProcessError =
    | NotRunning
    | Mismatch(expected: string, actual: string)
    | Reused
    | Io

  /** A bound process: the instance behind the pidfd, and the metadata it was bound with. */
  datatype Process = Process(handle: InstanceId, metadata: Metadata)

  // ---------------------------------------------------------------- names

  function LowerAscii(c: char): char {
    if 'A' <= c <= 'Z' then (c as int + 32) as char else c
  }

  /** Names are compared without regard to ASCII case. */
  predicate NamesMatch(actual: string, expected: string) {
    |actual| == |expected| && forall i | 0 <= i < |actual| :: LowerAscii(actual[i]) == LowerAscii(expected[i])
  }

  /** Two names match when they differ at most in the case of ASCII letters. */
  lemma NamesMatchUpToAsciiCase(actual: string, expected: string)
    ensures NamesMatch(actual, expected) <==>
              && |actual| == |expected|
              && forall i | 0 <= i < |actual| ::
                   || actual[i] == expected[i]
                   || ('a' <= actual[i] <= 'z' && actual[i] as int == expected[i] as int + 32)
                   || ('a' <= expected[i] <= 'z' && expected[i] as int == actual[i] as int + 32)
  {
    forall c: char, d: char
      ensures LowerAscii(c) == LowerAscii(d) <==>
                || c == d
                || ('a' <= c <= 'z' && c as int == d as int + 32)
                || ('a' <= d <= 'z' && d as int == c as int + 32)
    {
    }
  }

  // ---------------------------------------------------------------- single actions

  /** `ProcessMetadata::extract` through the blocking pool. */
  method ExtractMetadata(env: Environment, m: Machine, pid: Pid)
    returns (r: Result<Metadata, ProcessError>, m': Machine)
    requires Sound(m.os)
    ensures m' == Kernels.Advance(env, m) && Sound(m'.os) && Later(m.os, m'.os)
    ensures r.Ok? <==> !env(m.now).ioError && Holder(m'.os, pid).Some?
    ensures r.Ok? ==> r.value == MetadataOf(m'.os, Holder(m'.os, pid).value)
    ensures r == Err(NotRunning) <==> !env(m.now).ioError && Holder(m'.os, pid).None?
    ensures r.Err? ==> r.error == NotRunning || r.error == Io
  {
    AdvanceIsLater(env, m);
    m' := Kernels.Advance(env, m);
    var holder := Holder(m'.os, pid);
    if env(m.now).ioError {
      r := Err(Io);
    } else if holder.Some? {
      r := Ok(MetadataOf(m'.os, holder.value));
    } else {
      r := Err(NotRunning);
    }
  }

  /** `pidfd_open`: a reference to whichever instance holds the PID now. */
  method OpenPidfd(env: Environment, m: Machine, pid: Pid)
    returns (r: Result<InstanceId, ProcessError>, m': Machine)
    requires Sound(m.os)
    ensures m' == Kernels.Advance(env, m) && Sound(m'.os) && Later(m.os, m'.os)
    ensures r.Ok? <==> !env(m.now).ioError && Holder(m'.os, pid).Some?
    ensures r.Ok? ==> Holder(m'.os, pid) == Some(r.value)
    ensures r == Err(NotRunning) <==> !env(m.now).ioError && Holder(m'.os, pid).None?
    ensures r.Err? ==> r.error == NotRunning || r.error == Io
  {
    AdvanceIsLater(env, m);
    m' := Kernels.Advance(env, m);
    var holder := Holder(m'.os, pid);
    if env(m.now).ioError {
      r := Err(Io);
    } else if holder.Some? {
      r := Ok(holder.value);
    } else {
      r := Err(NotRunning);
    }
  }

  /** `pidfd_send_signal`. */
  method SendSignal(env: Environment, m: Machine, handle: InstanceId, signal: Signal)
    returns (r: Result<(), ProcessError>, m': Machine)
    requires Sound(m.os) && handle < |m.os.instances|
    ensures Sound(m'.os) && Later(m.os, m'.os) && m'.now == m.now + 1
    ensures m'.log == if r.Ok? then m.log + [Sent(signal, handle)] else m.log
    ensures r == Err(Io) <==> env(m.now).ioError
    ensures r == Err(NotRunning) <==> !env(m.now).ioError && m'.os.instances[handle].life.Gone?
    ensures r.Err? ==> r.error == NotRunning || r.error == Io
  {
    AdvanceIsLater(env, m);
    m' := Kernels.Advance(env, m);
    if env(m.now).ioError {
      r := Err(Io);
    } else if m'.os.instances[handle].life.Gone? {
      r := Err(NotRunning);
    } else {
      m' := m'.(log := m'.log + [Sent(signal, handle)]);
      r := Ok(());
    }
  }

  /** `poll` on the pidfd: readable once the process has exited. */
  method PollReadable(env: Environment, m: Machine, handle: InstanceId)
    returns (r: Result<bool, ProcessError>, m': Machine)
    requires Sound(m.os) && handle < |m.os.instances|
    ensures Sound(m'.os) && Later(m.os, m'.os) && m'.log == m.log && m'.now == m.now + 1
    ensures r.Ok? ==> (r.value <==> Exited(m'.os, handle))
    ensures r.Err? <==> env(m.now).ioError
    ensures r.Err? ==> r.error == Io
  {
    AdvanceIsLater(env, m);
    m' := Kernels.Advance(env, m);
    if env(m.now).ioError {
      r := Err(Io);
    } else {
      r := Ok(!m'.os.instances[handle].life.Alive?);
    }
  }

  /** Some action from `from` up to `to` met an I/O error. */
  ghost predicate Faulted(env: Environment, from: nat, to: nat) {
    exists k: nat :: from <= k < to && env(k).ioError
  }

  // ---------------------------------------------------------------- binding

  /** When a bind that starts now succeeds: three undisturbed actions, a matching name, and two equal
      readings. */
  ghost predicate BindSucceeds(env: Environment, m: Machine, pid: Pid, expected: string) {
    var m1 := Kernels.Advance(env, m);
    var m2 := Kernels.Advance(env, m1);
    var m3 := Kernels.Advance(env, m2);
    && !env(m.now).ioError && !env(m1.now).ioError && !env(m2.now).ioError
    && Holder(m1.os, pid).Some? && Holder(m2.os, pid).Some? && Holder(m3.os, pid).Some?
    && NamesMatch(MetadataOf(m1.os, Holder(m1.os, pid).value).name, expected)
    && MetadataOf(m1.os, Holder(m1.os, pid).value) == MetadataOf(m3.os, Holder(m3.os, pid).value)
  }

  /** A bind never succeeds when the PID changes hands, or its process is renamed, between the readings. */
  lemma ChangeIsDetected(env: Environment, m: Machine, pid: Pid, expected: string)
    requires Sound(m.os)
    ensures var m1 := Kernels.Advance(env, m);
            var m3 := Kernels.Advance(env, Kernels.Advance(env, m1));
            && (Holder(m1.os, pid) != Holder(m3.os, pid) ==> !BindSucceeds(env, m, pid, expected))
            && (Holder(m1.os, pid).Some? && Holder(m3.os, pid).Some? &&
                m1.os.instances[Holder(m1.os, pid).value].name != m3.os.instances[Holder(m3.os, pid).value].name ==>
                  !BindSucceeds(env, m, pid, expected))
  {
    hide NamesMatch, RunOs;
    var m1 := Kernels.Advance(env, m);
    var m2 := Kernels.Advance(env, m1);
    var m3 := Kernels.Advance(env, m2);
    AdvanceIsLater(env, m);
    AdvanceIsLater(env, m1);
    AdvanceIsLater(env, m2);
    if BindSucceeds(env, m, pid, expected) {
      SameStartSameInstance(m1.os, m2.os, m3.os, pid);
    }
  }

  /** Nothing happens in the system from `from` up to `to`. */
  ghost predicate Still(env: Environment, from: nat, to: nat) {
    forall k: nat :: from <= k < to ==> env(k).steps == []
  }

  /** A reading that does not fit: the first has a wrong name, or the second differs from it. */
  ghost predicate Mismatched(past: seq<Os>, from: nat, pid: Pid, expected: string, actual: string) {
    && from < |past| && Holder(past[from], pid).Some?
    && var first := MetadataOf(past[from], Holder(past[from], pid).value);
       || (!NamesMatch(first.name, expected) && actual == first.name)
       || (&& from + 2 < |past| && Holder(past[from + 2], pid).Some?
           && var after := MetadataOf(past[from + 2], Holder(past[from + 2], pid).value);
              first != after && actual == after.name)
  }

  /** What the result of a bind from `m` to `m'` says about what it saw. */
  ghost predicate Explained(env: Environment, m: Machine, m': Machine, pid: Pid, expected: string,
                            r: Result<Process, ProcessError>) {
    && (r.Ok? <==> BindSucceeds(env, m, pid, expected))
    && match r
       case Ok(process) => m.now < |m'.past| && Holder(m'.past[m.now], pid) == Some(process.handle)
       case Err(NotRunning) => exists k: nat :: m.now <= k < m'.now <= |m'.past| && Holder(m'.past[k], pid).None?
       case Err(Mismatch(e, actual)) => e == expected && Mismatched(m'.past, m.now, pid, expected, actual)
       case Err(Io) => Faulted(env, m.now, m'.now)
       case Err(Reused) => false
  }

  /** Reads, compares names, opens the pidfd, reads again.

      On success the pidfd refers to the one instance that both readings described, which held the
      PID at all three actions, whatever was spawned, renamed or reaped around them. */
  method Bind(env: Environment, m: Machine, pid: Pid, expected: string)
    returns (r: Result<Process, ProcessError>, m': Machine)
    requires Sound(m.os) && |m.past| == m.now
    ensures Sound(m'.os) && Later(m.os, m'.os) && m'.log == m.log
    ensures m.now < |m'.past| == m'.now <= m.now + 3 && m.past <= m'.past
    ensures Still(env, m.now, m.now + 3) ==> m'.os == m.os
    ensures m'.past[m.now] == Kernels.Advance(env, m).os
    ensures r.Ok? <==> BindSucceeds(env, m, pid, expected)
    ensures r.Ok? ==>
              && m'.now == m.now + 3
              && Holder(m'.past[m.now], pid) == Some(r.value.handle)
              && Holder(m'.past[m.now + 1], pid) == Some(r.value.handle)
              && Holder(m'.past[m.now + 2], pid) == Some(r.value.handle)
              && MetadataOf(m'.past[m.now], r.value.handle) == r.value.metadata
              && MetadataOf(m'.past[m.now + 2], r.value.handle) == r.value.metadata
              && r.value.handle < |m'.os.instances| && MetadataOf(m'.os, r.value.handle) == r.value.metadata
              && r.value.metadata.pid == pid && NamesMatch(r.value.metadata.name, expected)
    ensures Explained(env, m, m', pid, expected, r)
  {
    var first, m1 := ExtractMetadata(env, m, pid);
    if first.Err? {
      return Err(first.error), m1;
    }
    if !NamesMatch(first.value.name, expected) {
      return Err(Mismatch(expected, first.value.name)), m1;
    }
    var handle, m2 := OpenPidfd(env, m1, first.value.pid);
    if handle.Err? {
      assert m2.past[m1.now] == m2.os;
      return Err(handle.error), m2;
    }
    var after, m3 := ExtractMetadata(env, m2, pid);
    if after.Err? {
      assert m3.past[m2.now] == m3.os;
      return Err(after.error), m3;
    }
    if first.value != after.value {
      return Err(Mismatch(expected, after.value.name)), m3;
    }
    SameStartSameInstance(m1.os, m2.os, m3.os, pid);
    return Ok(Process(handle.value, after.value)), m3;
  }

  predicate Retryable(e: ProcessError) {
    e.Mismatch? || e.NotRunning?
  }

  const MAX_ATTEMPTS := 20

  /** Milliseconds. */
  const RETRY_DELAY := 5

  /** The binds of one `bind_after_spawn`, one after another: each result says what its bind saw, all
      but the last are transient, and a transient one is the last only as the twentieth. */
  ghost predicate Attempts(env: Environment, m: Machine, pid: Pid, expected: string,
                           results: seq<Result<Process, ProcessError>>, starts: seq<Machine>, ends: seq<Machine>) {
    && 1 <= |results| == |starts| == |ends| <= 20
    && starts[0] == m && (forall i | 0 <= i < |starts| - 1 :: starts[i + 1] == ends[i])
    && (forall i | 0 <= i < |results| :: Explained(env, starts[i], ends[i], pid, expected, results[i]))
    && (forall i | 0 <= i < |results| - 1 :: results[i].Err? && (results[i].error.Mismatch? || results[i].error.NotRunning?))
    && var last := results[|results| - 1];
       last.Err? && (last.error.Mismatch? || last.error.NotRunning?) ==> |results| == 20
  }

  /** Transient failures only, one after another, that led from `m` to `m'`. */
  ghost predicate Failing(env: Environment, m: Machine, m': Machine, pid: Pid, expected: string,
                          results: seq<Result<Process, ProcessError>>, starts: seq<Machine>, ends: seq<Machine>) {
    && |results| == |starts| == |ends|
    && (if results == [] then m' == m else starts[0] == m && m' == ends[|ends| - 1])
    && (forall i | 0 <= i < |starts| - 1 :: starts[i + 1] == ends[i])
    && (forall i | 0 <= i < |results| :: Explained(env, starts[i], ends[i], pid, expected, results[i]))
    && (forall i | 0 <= i < |results| :: results[i].Err? && (results[i].error.Mismatch? || results[i].error.NotRunning?))
  }

  lemma NoAttempt(env: Environment, m: Machine, pid: Pid, expected: string)
    ensures Failing(env, m, m, pid, expected, [], [], [])
  {
  }

  lemma OneMoreAttempt(env: Environment, m: Machine, m1: Machine, m2: Machine, pid: Pid, expected: string,
                       results: seq<Result<Process, ProcessError>>, starts: seq<Machine>, ends: seq<Machine>,
                       bound: Result<Process, ProcessError>)
    requires Failing(env, m, m1, pid, expected, results, starts, ends)
    requires Explained(env, m1, m2, pid, expected, bound)
    ensures var transient := bound.Err? && (bound.error.Mismatch? || bound.error.NotRunning?);
            && (transient ==> Failing(env, m, m2, pid, expected, results + [bound], starts + [m1], ends + [m2]))
            && (|results| < 20 && (transient ==> |results| == 19) ==>
                  Attempts(env, m, pid, expected, results + [bound], starts + [m1], ends + [m2]))
  {
    hide Explained;
  }

  /** Retries transient failures of a bind, a mismatch or a process that is not running, up to 20 times
      with 5 ms between attempts, and stops at the first success or lasting failure. The last error is
      there whenever the attempts run out. `starts` and `ends` hold the machine around each attempt. */
  method BindAfterSpawn(env: Environment, m: Machine, pid: Pid, expected: string)
    returns (r: Result<Process, ProcessError>, m': Machine, results: seq<Result<Process, ProcessError>>,
             sleeps: nat, slept: nat, ghost starts: seq<Machine>, ghost ends: seq<Machine>)
    requires Sound(m.os) && |m.past| == m.now
    ensures Sound(m'.os) && Later(m.os, m'.os) && m'.log == m.log && m.now <= m'.now == |m'.past|
    ensures Attempts(env, m, pid, expected, results, starts, ends) && m' == ends[|ends| - 1]
    ensures r == results[|results| - 1]
    ensures sleeps == |results| - 1 <= 19 && slept == 5 * sleeps
    ensures forall i | 0 <= i < |results| - 1 :: results[i].Err? && (results[i].error.Mismatch? || results[i].error.NotRunning?)
    ensures r.Err? && (r.error.Mismatch? || r.error.NotRunning?) ==> |results| == 20
    ensures r.Ok? ==> r.value.handle < |m'.os.instances| && MetadataOf(m'.os, r.value.handle) == r.value.metadata
                      && r.value.metadata.pid == pid && NamesMatch(r.value.metadata.name, expected)
  {
    hide Explained, Failing, Holder, NamesMatch, Sound, BindSucceeds, Still;
    var lastErr: Option<ProcessError> := None;
    m', results, sleeps, slept, starts, ends := m, [], 0, 0, [], [];
    NoAttempt(env, m, pid, expected);
    for attempt := 0 to MAX_ATTEMPTS
      invariant Sound(m'.os) && m.now <= m'.now == |m'.past| && Later(m.os, m'.os) && m'.log == m.log
      invariant |results| == |starts| == |ends| == attempt
      invariant Failing(env, m, m', pid, expected, results, starts, ends)
      invariant attempt == MAX_ATTEMPTS ==> Attempts(env, m, pid, expected, results, starts, ends) && m' == ends[attempt - 1]
      invariant sleeps == if attempt == MAX_ATTEMPTS then attempt - 1 else attempt
      invariant slept == sleeps * RETRY_DELAY
      invariant forall i | 0 <= i < |results| :: results[i].Err? && Retryable(results[i].error)
      invariant lastErr == if attempt == 0 then None else Some(results[attempt - 1].error)
    {
      var bound;
      ghost var before := m';
      bound, m' := Bind(env, m', pid, expected);
      OneMoreAttempt(env, m, before, m', pid, expected, results, starts, ends, bound);
      results, starts, ends := results + [bound], starts + [before], ends + [m'];
      if bound.Ok? || !Retryable(bound.error) {
        return bound, m', results, sleeps, slept, starts, ends;
      }
      lastErr := Some(bound.error);
      if attempt + 1 < MAX_ATTEMPTS {
        sleeps, slept := sleeps + 1, slept + RETRY_DELAY;
      }
    }
    assert lastErr.Some?;
    r := Err(lastErr.value);
  }

  // ---------------------------------------------------------------- control

  /** `wait`: one poll for a zero timeout, else a poll at every wakeup until the timer fires.

      It gives up only after all its polls found the process running. */
  method Wait(env: Environment, m: Machine, handle: InstanceId, timeout: nat)
    returns (r: Result<bool, ProcessError>, m': Machine)
    requires Sound(m.os) && handle < |m.os.instances|
    ensures Sound(m'.os) && Later(m.os, m'.os) && m.now <= m'.now
    ensures m'.log == if r == Ok(false) then m.log + [TimedOut(timeout)] else m.log
    ensures r == Ok(true) ==> m.now < m'.now && Exited(m'.os, handle)
    ensures r == Ok(false) ==> m'.now == m.now + (if timeout == 0 then 1 else env(m.now).wakeups)
    ensures r == Ok(false) && m.now < m'.now ==> !Exited(m'.os, handle)
    ensures r.Err? ==> r.error == Io && Faulted(env, m.now, m'.now)
  {
    if timeout == 0 {
      r, m' := PollReadable(env, m, handle);
      if r == Ok(false) {
        m' := m'.(log := m'.log + [TimedOut(timeout)]);
      }
      return;
    }
    m' := m;
    for wakeup := 0 to env(m.now).wakeups
      invariant Sound(m'.os) && Later(m.os, m'.os) && m'.log == m.log && m'.now == m.now + wakeup
      invariant wakeup > 0 ==> !Exited(m'.os, handle)
    {
      r, m' := PollReadable(env, m', handle);
      if r.Err? || r.value {
        return;
      }
    }
    r, m' := Ok(false), m'.(log := m'.log + [TimedOut(timeout)]);
  }

  /** What one attempt leaves in the log: a prefix of probe, signal, timeout. */
  predicate IsAttempt(log: seq<Event>, signal: Signal, handle: InstanceId, timeout: nat) {
    log <= [Sent(Zero, handle), Sent(signal, handle), TimedOut(timeout)]
  }

  lemma AttemptSends(log: seq<Event>, signal: Signal, handle: InstanceId, timeout: nat)
    requires IsAttempt(log, signal, handle, timeout) && |log| >= 2
    ensures Sent(signal, handle) in log
  {
    assert log[1] == Sent(signal, handle);
  }

  /** `PlatformProcess::kill` and `terminate`: permission check, signal, wait. */
  method SignalAndWait(env: Environment, m: Machine, handle: InstanceId, signal: Signal, timeout: nat)
    returns (r: Result<bool, ProcessError>, m': Machine)
    requires Sound(m.os) && handle < |m.os.instances|
    ensures Sound(m'.os) && Later(m.os, m'.os) && m.now < m'.now
    ensures m.log <= m'.log && IsAttempt(m'.log[|m.log|..], signal, handle, timeout)
    ensures r == Ok(false) <==> |m'.log| == |m.log| + 3
    ensures r == Ok(true) ==> |m'.log| == |m.log| + 2
    ensures r == Ok(true) || r == Err(NotRunning) ==> Exited(m'.os, handle)
    ensures r.Err? ==> r.error == NotRunning || (r.error == Io && Faulted(env, m.now, m'.now))
  {
    var checked, m1 := SendSignal(env, m, handle, Zero);
    if checked.Err? {
      return Err(checked.error), m1;
    }
    var sent, m2 := SendSignal(env, m1, handle, signal);
    if sent.Err? {
      return Err(sent.error), m2;
    }
    r, m' := Wait(env, m2, handle, timeout);
    assert m2.log[|m.log|..] == [Sent(Zero, handle), Sent(signal, handle)];
    assert r == Ok(false) ==> m'.log[|m.log|..] == m2.log[|m.log|..] + [TimedOut(timeout)];
  }

  // ---------------------------------------------------------------- the kill protocol

  datatype SignalError = ProcessFailure(error: ProcessError) | NotResponding

  /** The signals, other than the permission probe, in order. */
  function Signals(log: seq<Event>): seq<Signal> {
    if log == [] then []
    else Signals(log[..|log| - 1]) +
         (var e := log[|log| - 1]; if e.Sent? && !e.signal.Zero? then [e.signal] else [])
  }

  lemma {:induction false} SignalsConcat(xs: seq<Event>, ys: seq<Event>)
    ensures Signals(xs + ys) == Signals(xs) + Signals(ys)
  {
    if ys == [] {
      assert xs + ys == xs;
    } else {
      SignalsConcat(xs, ys[..|ys| - 1]);
      assert (xs + ys)[..|xs + ys| - 1] == xs + ys[..|ys| - 1];
    }
  }

  /** No forced kill follows a termination request before the grace period has run out. */
  predicate Patient(log: seq<Event>, graceful: nat) {
    forall a, c :: 0 <= a < c < |log| && log[a].Sent? && log[a].signal.Term? && log[c].Sent? && log[c].signal.Kill? ==>
      TimedOut(graceful) in log[a..c]
  }

  predicate OnlyTo(log: seq<Event>, handle: InstanceId) {
    forall e <- log :: e.Sent? ==> e.target == handle
  }

  /** The signals a kill may send: with a grace period a termination request comes first. */
  predicate AllowedSignals(signals: seq<Signal>, graceful: nat) {
    signals in if graceful != 0 then [[], [Term], [Term, Kill]] else [[], [Kill]]
  }

  /** The kill protocol's contract on what it sent: only to the bound instance, no signal twice, no
      forced kill before the grace period has run out, no termination request without one. */
  ghost predicate Escalation(sent: seq<Event>, handle: InstanceId, graceful: nat) {
    OnlyTo(sent, handle) && AllowedSignals(Signals(sent), graceful) && Patient(sent, graceful)
  }

  lemma {:induction false} AttemptSignals(log: seq<Event>, signal: Signal, handle: InstanceId, timeout: nat)
    requires IsAttempt(log, signal, handle, timeout) && !signal.Zero?
    ensures Signals(log) == if |log| < 2 then [] else [signal]
  {
    if log != [] {
      var n := |log| - 1;
      assert log[n] == [Sent(Zero, handle), Sent(signal, handle), TimedOut(timeout)][n];
      AttemptSignals(log[..n], signal, handle, timeout);
    }
  }

  lemma AttemptEscalates(log: seq<Event>, signal: Signal, handle: InstanceId, timeout: nat, graceful: nat)
    requires IsAttempt(log, signal, handle, timeout) && !signal.Zero? && (signal.Term? <==> graceful != 0)
    ensures Escalation(log, handle, graceful)
  {
    AttemptSignals(log, signal, handle, timeout);
  }

  /** A termination request that timed out, then a forced kill. */
  lemma KillEscalates(second: seq<Event>, handle: InstanceId, graceful: nat, force: nat)
    requires graceful != 0 && IsAttempt(second, Kill, handle, force)
    ensures Escalation([Sent(Zero, handle), Sent(Term, handle), TimedOut(graceful)] + second, handle, graceful)
  {
    var first := [Sent(Zero, handle), Sent(Term, handle), TimedOut(graceful)];
    EscalationSignals(first, second, handle, graceful, force);
    var log := first + second;
    forall a, c | 0 <= a < c < |log| && log[a].Sent? && log[a].signal.Term? && log[c].Sent? && log[c].signal.Kill?
      ensures TimedOut(graceful) in log[a..c]
    {
      assert log[a..c][2 - a] == TimedOut(graceful);
    }
  }

  lemma EscalationSignals(first: seq<Event>, second: seq<Event>, handle: InstanceId, graceful: nat, force: nat)
    requires graceful != 0 && |first| == 3
    requires IsAttempt(first, Term, handle, graceful) && IsAttempt(second, Kill, handle, force)
    ensures AllowedSignals(Signals(first + second), graceful)
  {
    hide Signals;
    SignalsConcat(first, second);
    AttemptSignals(first, Term, handle, graceful);
    AttemptSignals(second, Kill, handle, force);
    assert [Term] + [Kill] == [Term, Kill] && [Term] + [] == [Term];
  }

  /** `KillHandle::kill`. `Ok` is the stale handle.

      Whatever the system does in between: the signals sent are an escalation on the bound instance;
      success means that this instance has exited; no response means that a forced kill was sent
      and the forced timeout ran out; any other failure means that an action met an I/O error. */
  method KillProcess(env: Environment, m: Machine, handle: InstanceId, graceful: nat, force: nat)
    returns (r: Result<(), SignalError>, m': Machine)
    requires Sound(m.os) && handle < |m.os.instances|
    ensures Sound(m'.os) && Later(m.os, m'.os) && m.log <= m'.log
    ensures Escalation(m'.log[|m.log|..], handle, graceful)
    ensures r.Ok? ==> Exited(m'.os, handle)
    ensures r == Err(NotResponding) ==>
              |m'.log| >= |m.log| + 3 && m'.log[|m'.log| - 2..] == [Sent(Kill, handle), TimedOut(force)]
    ensures r.Err? && r.error.ProcessFailure? ==> r.error.error == Io && Faulted(env, m.now, m'.now)
  {
    hide Signals, AllowedSignals, Patient, OnlyTo, Sound, Holds;
    var isTerminated := false;
    m' := m;
    assert m.log[|m.log|..] == [];
    if graceful != 0 {
      var terminated;
      terminated, m' := SignalAndWait(env, m, handle, Term, graceful);
      AttemptEscalates(m'.log[|m.log|..], Term, handle, graceful, graceful);
      match terminated {
        case Ok(sent) => isTerminated := sent;
        case Err(NotRunning) => isTerminated := true;
        case Err(e) => return Err(ProcessFailure(e)), m';
      }
    }
    if !isTerminated {
      var killed;
      ghost var first, before := m'.log[|m.log|..], m'.log;
      killed, m' := SignalAndWait(env, m', handle, Kill, force);
      ghost var second := m'.log[|before|..];
      assert m'.log[|m.log|..] == first + second;
      if graceful != 0 {
        assert first == [Sent(Zero, handle), Sent(Term, handle), TimedOut(graceful)];
        KillEscalates(second, handle, graceful, force);
      } else {
        AttemptEscalates(second, Kill, handle, force, graceful);
        assert first + second == second;
      }
      assert Escalation(m'.log[|m.log|..], handle, graceful);
      match killed {
        case Ok(sent) =>
          if !sent {
            assert m'.log[|m'.log| - 2..] == second[1..];
            return Err(NotResponding), m';
          }
        case Err(NotRunning) =>
        case Err(e) => return Err(ProcessFailure(e)), m';
      }
    }
    return Ok(()), m';
  }

  /** Binding and killing in one go: whatever process holds the PID by then, the signals reach only
      the instance that both readings of the bind described. */
  method BindAndKill(env: Environment, m: Machine, pid: Pid, expected: string, graceful: nat, force: nat)
    returns (bound: Result<Process, ProcessError>, killed: Option<Result<(), SignalError>>, m': Machine)
    requires Sound(m.os) && |m.past| == m.now
    ensures Sound(m'.os) && Later(m.os, m'.os) && m.log <= m'.log
    ensures bound.Ok? <==> BindSucceeds(env, m, pid, expected)
    ensures bound.Ok? <==> killed.Some?
    ensures bound.Err? ==> m'.log == m.log
    ensures bound.Ok? ==>
              && Holder(Kernels.Advance(env, m).os, pid) == Some(bound.value.handle)
              && MetadataOf(Kernels.Advance(env, m).os, bound.value.handle) == bound.value.metadata
              && Escalation(m'.log[|m.log|..], bound.value.handle, graceful)
              && (killed.value.Ok? ==> Exited(m'.os, bound.value.handle))
  {
    bound, m' := Bind(env, m, pid, expected);
    killed := None;
    if bound.Ok? {
      var r;
      r, m' := KillProcess(env, m', bound.value.handle, graceful, force);
      killed := Some(r);
    }
  }
}
