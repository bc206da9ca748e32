/**
 The process runtime on Unix: health polling after a spawn, and the terminate-then-kill protocol.
 The operating system is an adversary that decides every call's outcome, and the clock, from the
 whole history of calls.
 */
module ProcessRuntime {
  import opened Wrappers

  const STOP_TIMEOUT_MS: nat := 10000
  const POLL_INTERVAL_MS: nat := 100
  const HEALTH_CHECK_RETRIES: nat := 15
  const HEALTH_CHECK_INTERVAL_MS: nat := 500

  datatype Signal = Null | Term | Kill

  datatype Call =
    | OpenLog                            // log directory and log file
    | Spawn
    | GetHealth                          // one HTTP probe of the health URL
    | Check(pid: nat)                    // kill(pid, 0)
    | Group(pid: nat, signal: Signal)    // killpg(pid, signal)
    | Sleep(ms: nat)

  function Duration(c: Call): nat {
    if c.Sleep? then c.ms else 0
  }

  datatype World = World(succeeds: seq<Call> -> bool, clock: seq<Call> -> nat)
  {
    /** Time never runs backwards and a sleep lasts at least as long as asked. */
    ghost predicate Monotone() {
      forall log: seq<Call>, c: Call :: clock(log + [c]) >= clock(log) + Duration(c)
    }
  }

  datatype Outcome = Outcome(ok: bool, log: seq<Call>)

  // ---- Specification ----

  /** Polling a group that was asked to terminate at time `start`. */
  function Await(w: World, log: seq<Call>, pid: nat, start: nat): Outcome
    requires w.Monotone()
    decreases start + STOP_TIMEOUT_MS - w.clock(log)
  {
    var polled := log + [Group(pid, Null)];
    if !w.succeeds(polled) then Outcome(true, polled)
    else if w.clock(polled) >= start + STOP_TIMEOUT_MS then Outcome(false, polled + [Group(pid, Kill)])
    else Await(w, polled + [Sleep(POLL_INTERVAL_MS)], pid, start)
  }

  function KillGroup(w: World, log: seq<Call>, pid: nat): Outcome
    requires w.Monotone()
  {
    var asked := log + [Group(pid, Term)];
    if w.succeeds(asked) then Await(w, asked, pid, w.clock(asked)) else Outcome(false, asked)
  }

  function StopRuntime(w: World, log: seq<Call>, pid: Option<nat>): Outcome
    requires w.Monotone()
  {
    if pid.None? then Outcome(false, log)
    else
      var checked := log + [Check(pid.value)];
      if !w.succeeds(checked) then Outcome(false, checked)
      else
        var term := KillGroup(w, checked, pid.value);
        Outcome(true, if term.ok then term.log else term.log + [Group(pid.value, Kill)])
  }

  /** The health loop from a given attempt on. */
  function HealthCheck(w: World, log: seq<Call>, attempt: nat): Outcome
    requires 1 <= attempt <= HEALTH_CHECK_RETRIES
    decreases HEALTH_CHECK_RETRIES - attempt
  {
    var probed := log + [GetHealth];
    if w.succeeds(probed) then Outcome(true, probed)
    else if attempt == HEALTH_CHECK_RETRIES then Outcome(false, probed)
    else HealthCheck(w, probed + [Sleep(HEALTH_CHECK_INTERVAL_MS)], attempt + 1)
  }

  function StartRuntime(w: World, log: seq<Call>, hasUrl: bool, childPid: Option<nat>): Outcome
    requires w.Monotone()
  {
    var logged := log + [OpenLog];
    if !w.succeeds(logged) then Outcome(false, logged)
    else
      var spawned := logged + [Spawn];
      if !w.succeeds(spawned) then Outcome(false, spawned)
      else if !hasUrl then Outcome(true, spawned)
      else
        var health := HealthCheck(w, spawned, 1);
        if health.ok || childPid.None? then health
        else Outcome(false, KillGroup(w, health.log, childPid.value).log)
  }

  // ---- The source's loops ----

  class Host {
    const world: World
    var log: seq<Call>

    constructor (world: World)
      ensures this.world == world && log == []
    {
      this.world := world;
      log := [];
    }

    method Do(c: Call) returns (ok: bool)
      modifies this
      ensures log == old(log) + [c] && ok == world.succeeds(log)
    {
      log := log + [c];
      ok := world.succeeds(log);
    }

    method KillProcessGroup(pid: nat) returns (ok: bool)
      requires world.Monotone()
      modifies this
      ensures Outcome(ok, log) == KillGroup(world, old(log), pid)
    {
      var asked := Do(Group(pid, Term));
      if !asked {
        return false;
      }
      var start := world.clock(log);
      ghost var result := Await(world, log, pid, start);
      while true
        invariant Await(world, log, pid, start) == result
        decreases start + STOP_TIMEOUT_MS - world.clock(log)
      {
        ghost var before := log;
        var alive := Do(Group(pid, Null));
        if !alive {
          return true;
        }
        if world.clock(log) >= start + STOP_TIMEOUT_MS {
          var _ := Do(Group(pid, Kill));
          return false;
        }
        var _ := Do(Sleep(POLL_INTERVAL_MS));
        assert world.clock(log) >= world.clock(before + [Group(pid, Null)]) + POLL_INTERVAL_MS;
      }
    }

    method StopProcessRuntime(pid: Option<nat>) returns (ok: bool)
      requires world.Monotone()
      modifies this
      ensures Outcome(ok, log) == StopRuntime(world, old(log), pid)
    {
      if pid.None? {
        return false;
      }
      var matches := Do(Check(pid.value));
      if !matches {
        return false;
      }
      var term := KillProcessGroup(pid.value);
      if !term {
        var _ := Do(Group(pid.value, Kill));
      }
      ok := true;
    }

    method StartProcessRuntime(hasUrl: bool, childPid: Option<nat>) returns (ok: bool)
      requires world.Monotone()
      modifies this
      ensures Outcome(ok, log) == StartRuntime(world, old(log), hasUrl, childPid)
    {
      var logged := Do(OpenLog);
      if !logged {
        return false;
      }
      var spawned := Do(Spawn);
      if !spawned {
        return false;
      }
      if hasUrl {
        ghost var health := HealthCheck(world, log, 1);
        var attempt := 1;
        while attempt <= HEALTH_CHECK_RETRIES
          invariant 1 <= attempt <= HEALTH_CHECK_RETRIES
          invariant HealthCheck(world, log, attempt) == health
          decreases HEALTH_CHECK_RETRIES - attempt
        {
          var healthy := Do(GetHealth);
          if healthy {
            break;
          }
          if attempt == HEALTH_CHECK_RETRIES {
            if childPid.Some? {
              var _ := KillProcessGroup(childPid.value);
            }
            return false;
          }
          var _ := Do(Sleep(HEALTH_CHECK_INTERVAL_MS));
          attempt := attempt + 1;
        }
      }
      ok := true;
    }
  }

  // ---- What every environment gets ----

  /** The calls of `n` polls of a group, 100 ms apart. */
  function Polls(pid: nat, n: nat): seq<Call> {
    if n == 0 then []
    else (if n == 1 then [] else Polls(pid, n - 1) + [Sleep(100)]) + [Group(pid, Null)]
  }

  /** The calls of `n` health probes, 500 ms apart. */
  function Probes(n: nat): seq<Call> {
    if n == 0 then []
    else (if n == 1 then [] else Probes(n - 1) + [Sleep(500)]) + [GetHealth]
  }

  /**
   The wait, up to its n-th poll: all of them found the group alive before the deadline of ten seconds. It
   ends with the group observed gone, or with a kill after a poll at the deadline or later.
   */
  ghost predicate WaitShape(w: World, log: seq<Call>, pid: nat, start: nat, n: nat, result: Outcome) {
    && n >= 1
    && (forall i ::
          1 <= i < n ==> w.succeeds(log + Polls(pid, i)) && w.clock(log + Polls(pid, i)) < start + 10000)
    && (if result.ok
        then !w.succeeds(log + Polls(pid, n)) && result.log == log + Polls(pid, n)
        else w.succeeds(log + Polls(pid, n)) && w.clock(log + Polls(pid, n)) >= start + 10000
             && result.log == log + Polls(pid, n) + [Group(pid, Kill)])
  }

  lemma {:induction false} PollsTakeTime(w: World, log: seq<Call>, pid: nat, n: nat)
    requires w.Monotone() && n >= 1
    ensures w.clock(log + Polls(pid, n)) >= w.clock(log) + (n - 1) * 100
  {
    if n == 1 {
      assert log + Polls(pid, 1) == log + [Group(pid, Null)];
    } else {
      PollsTakeTime(w, log, pid, n - 1);
      var before := log + Polls(pid, n - 1);
      assert log + Polls(pid, n) == before + [Sleep(100)] + [Group(pid, Null)];
    }
  }

  lemma NextPoll(log: seq<Call>, pid: nat, n: nat)
    requires n >= 1
    ensures log + Polls(pid, n + 1) == log + Polls(pid, n) + [Sleep(100)] + [Group(pid, Null)]
  {
  }

  lemma {:induction false} AwaitFrom(w: World, log: seq<Call>, pid: nat, start: nat, n: nat, at: seq<Call>)
    requires w.Monotone() && w.clock(log) >= start && n >= 1
    requires at + [Group(pid, Null)] == log + Polls(pid, n)
    requires forall i ::
      1 <= i < n ==> w.succeeds(log + Polls(pid, i)) && w.clock(log + Polls(pid, i)) < start + 10000
    ensures exists m :: n <= m <= 101 && WaitShape(w, log, pid, start, m, Await(w, at, pid, start))
    decreases start + 10000 - w.clock(at)
  {
    var polled := at + [Group(pid, Null)];
    if n > 1 {
      PollsTakeTime(w, log, pid, n - 1);
      assert w.clock(log + Polls(pid, n - 1)) < start + 10000;
    }
    assert n <= 101;
    if w.succeeds(polled) && w.clock(polled) < start + 10000 {
      var next := polled + [Sleep(100)];
      assert w.clock(next) >= w.clock(polled) + 100;
      NextPoll(log, pid, n);
      AwaitFrom(w, log, pid, start, n + 1, next);
      assert Await(w, at, pid, start) == Await(w, next, pid, start);
    } else {
      assert WaitShape(w, log, pid, start, n, Await(w, at, pid, start));
    }
  }

  /** Waiting takes at most 101 polls and ends in one of the two ways. */
  lemma AwaitBounded(w: World, log: seq<Call>, pid: nat)
    requires w.Monotone()
    ensures exists n :: n <= 101 && WaitShape(w, log, pid, w.clock(log), n, Await(w, log, pid, w.clock(log)))
  {
    AwaitFrom(w, log, pid, w.clock(log), 1, log);
  }

  /** A wait that was asked for by a delivered SIGTERM; `n` is the number of polls. */
  ghost predicate Waited(w: World, before: seq<Call>, pid: nat, n: nat, result: Outcome) {
    var asked := before + [Group(pid, Term)];
    n <= 101 && w.succeeds(asked) && WaitShape(w, asked, pid, w.clock(asked), n, result)
  }

  /**
   Stop, for every environment. It fails exactly when there is no pid or the process is not there, and
   then sends no signal. Otherwise SIGTERM is sent once, and either the group was observed gone, with
   no SIGKILL, or SIGKILL was issued: once when SIGTERM was refused, twice after the deadline.
   */
  lemma StopProtocol(w: World, log: seq<Call>, pid: Option<nat>)
    requires w.Monotone()
    ensures var r := StopRuntime(w, log, pid);
      if !r.ok then
        (pid.None? && r.log == log)
        || (pid.Some? && r.log == log + [Check(pid.value)] && !w.succeeds(r.log))
      else
        && pid.Some? && w.succeeds(log + [Check(pid.value)])
        && var before, kill := log + [Check(pid.value)], [Group(pid.value, Kill)];
           || (!w.succeeds(before + [Group(pid.value, Term)]) && r.log == before + [Group(pid.value, Term)] + kill)
           || (exists n :: Waited(w, before, pid.value, n, r))
           || (exists n, waited: Outcome ::
                  !waited.ok && Waited(w, before, pid.value, n, waited) && r.log == waited.log + kill)
  {
    if pid.Some? {
      var before := log + [Check(pid.value)];
      var asked := before + [Group(pid.value, Term)];
      if w.succeeds(before) && w.succeeds(asked) {
        AwaitBounded(w, asked, pid.value);
        var waited := Await(w, asked, pid.value, w.clock(asked));
        var n :| n <= 101 && WaitShape(w, asked, pid.value, w.clock(asked), n, waited);
        assert Waited(w, before, pid.value, n, waited);
      }
    }
  }

  ghost predicate ProbeShape(w: World, log: seq<Call>, n: nat, result: Outcome) {
    && 1 <= n <= 15
    && (forall i :: 1 <= i < n ==> !w.succeeds(log + Probes(i)))
    && result.log == log + Probes(n)
    && result.ok == w.succeeds(log + Probes(n))
    && (!result.ok ==> n == 15)
  }

  lemma NextProbe(log: seq<Call>, n: nat)
    requires n >= 1
    ensures log + Probes(n + 1) == log + Probes(n) + [Sleep(500)] + [GetHealth]
  {
  }

  lemma {:induction false} HealthFrom(w: World, log: seq<Call>, n: nat, at: seq<Call>)
    requires 1 <= n <= 15
    requires at + [GetHealth] == log + Probes(n)
    requires forall i :: 1 <= i < n ==> !w.succeeds(log + Probes(i))
    ensures exists m :: ProbeShape(w, log, m, HealthCheck(w, at, n))
    decreases 15 - n
  {
    var probed := at + [GetHealth];
    if !w.succeeds(probed) && n < 15 {
      var next := probed + [Sleep(500)];
      NextProbe(log, n);
      HealthFrom(w, log, n + 1, next);
      assert HealthCheck(w, at, n) == HealthCheck(w, next, n + 1);
    } else {
      assert ProbeShape(w, log, n, HealthCheck(w, at, n));
    }
  }

  function SleepTotal(log: seq<Call>): nat {
    if log == [] then 0 else SleepTotal(log[..|log| - 1]) + Duration(log[|log| - 1])
  }

  lemma {:induction false} ProbesSleep(n: nat)
    requires n >= 1
    ensures SleepTotal(Probes(n)) == (n - 1) * 500
  {
    var all := Probes(n);
    assert all[..|all| - 1] == if n == 1 then [] else Probes(n - 1) + [Sleep(500)];
    if n > 1 {
      ProbesSleep(n - 1);
      var slept := Probes(n - 1) + [Sleep(500)];
      assert slept[..|slept| - 1] == Probes(n - 1);
    }
  }

  /** A start whose health was probed `n` times, the last call of the probing being in `health`. */
  ghost predicate ProbedStart(w: World, spawned: seq<Call>, childPid: Option<nat>, n: nat, health: Outcome, r: Outcome)
  {
    && ProbeShape(w, spawned, n, health)
    && SleepTotal(Probes(n)) == (n - 1) * 500 <= 7000
    && r.ok == health.ok
    && (r.ok || childPid.None? ==> r.log == health.log)
    && (!r.ok && childPid.Some? ==> health.log + [Group(childPid.value, Term)] <= r.log)
  }

  /**
   Start with a health URL, for every environment: once spawned, it succeeds exactly when one of at most
   fifteen probes succeeds, after at most fourteen sleeps of 7000 ms in all; a failed check signals the
   process group.
   */
  lemma StartProtocol(w: World, log: seq<Call>, childPid: Option<nat>)
    requires w.Monotone()
    ensures var r, spawned := StartRuntime(w, log, true, childPid), log + [OpenLog] + [Spawn];
      if !w.succeeds(log + [OpenLog]) || !w.succeeds(spawned) then !r.ok && r.log <= spawned
      else exists n, health :: ProbedStart(w, spawned, childPid, n, health, r)
  {
    var spawned := log + [OpenLog] + [Spawn];
    if w.succeeds(log + [OpenLog]) && w.succeeds(spawned) {
      HealthBounded(w, spawned);
      var health := HealthCheck(w, spawned, 1);
      var n :| ProbeShape(w, spawned, n, health);
      ProbesSleep(n);
      if !health.ok && childPid.Some? {
        KillGroupAsks(w, health.log, childPid.value);
      }
      assert ProbedStart(w, spawned, childPid, n, health, StartRuntime(w, log, true, childPid));
    }
  }

  lemma HealthBounded(w: World, log: seq<Call>)
    ensures exists n :: ProbeShape(w, log, n, HealthCheck(w, log, 1))
  {
    assert log + [GetHealth] == log + Probes(1);
    HealthFrom(w, log, 1, log);
  }

  lemma KillGroupAsks(w: World, log: seq<Call>, pid: nat)
    requires w.Monotone()
    ensures log + [Group(pid, Term)] <= KillGroup(w, log, pid).log
  {
    var asked := log + [Group(pid, Term)];
    AwaitBounded(w, asked, pid);
  }

  /** The n-th health probe is the first that succeeds. */
  ghost predicate FirstHealthy(w: World, spawned: seq<Call>, n: nat) {
    w.succeeds(spawned + Probes(n)) && forall i :: 1 <= i < n ==> !w.succeeds(spawned + Probes(i))
  }

  /** A probed start ends with its first healthy probe, or without one after fifteen. */
  ghost predicate ProbedOutcome(w: World, spawned: seq<Call>, r: Outcome) {
    if r.ok then exists n :: 1 <= n <= 15 && FirstHealthy(w, spawned, n) && r.log == spawned + Probes(n)
    else
      && (forall n :: 1 <= n <= 15 ==> !FirstHealthy(w, spawned, n))
      && spawned + Probes(15) <= r.log && SleepTotal(Probes(15)) == 7000
  }

  lemma ProbedStartOutcome(w: World, spawned: seq<Call>, childPid: Option<nat>, n: nat, health: Outcome, r: Outcome)
    requires ProbedStart(w, spawned, childPid, n, health, r)
    ensures ProbedOutcome(w, spawned, r)
  {
    hide Probes, SleepTotal;
    ProbesSleep(15);
    if r.ok {
      assert FirstHealthy(w, spawned, n);
    } else {
      assert health.log == spawned + Probes(15);
      forall m | 1 <= m <= 15 ensures !FirstHealthy(w, spawned, m) {
        assert !w.succeeds(spawned + Probes(m));
      }
    }
  }

  /**
   A start succeeds exactly if log and spawn do and, where there is a health URL, one of the first fifteen probes
   does; it then ends with that probe. It gives up only after all fifteen, fourteen sleeps of 500 ms between them.
   */
  lemma StartSucceeds(w: World, log: seq<Call>, hasUrl: bool, childPid: Option<nat>)
    requires w.Monotone()
    ensures var r, logged := StartRuntime(w, log, hasUrl, childPid), log + [OpenLog];
      if !w.succeeds(logged) then r == Outcome(false, logged)
      else if !w.succeeds(logged + [Spawn]) then r == Outcome(false, logged + [Spawn])
      else if !hasUrl then r == Outcome(true, logged + [Spawn])
      else ProbedOutcome(w, logged + [Spawn], r)
  {
    var logged := log + [OpenLog];
    if w.succeeds(logged) && w.succeeds(logged + [Spawn]) && hasUrl {
      hide StartRuntime, ProbedStart, ProbedOutcome;
      StartProtocol(w, log, childPid);
      var r := StartRuntime(w, log, true, childPid);
      var n, health :| ProbedStart(w, logged + [Spawn], childPid, n, health, r);
      ProbedStartOutcome(w, logged + [Spawn], childPid, n, health, r);
    }
  }
}
