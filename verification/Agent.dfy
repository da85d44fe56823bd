/** The agent's side of reimage and runtime-profile commands under arbitrary provider failures
    (internal/agent/agent.go), and what the device record says once the control plane has applied the
    outcome: the record and the provider agree, or the device is out of service. */
module Agent {
  import opened Domain
  import opened Rows
  import opened Observation
  import opened Completion

  /** What a device runs: its image and its runtime profile. */
  datatype Config = Config(image: nat, profile: nat)

  datatype Reply = Done | NotFound | PreviousRestored | Broken

  /** What a restart that another command makes meanwhile does to what runs: it comes through with its profile, the
      provider brings the previous container back, or it breaks and leaves nothing or some profile. */
  datatype Touch = CameThrough(profile: nat) | BroughtBack | Broke(left: Option<nat>)

  /** The profile that runs after some restarts of what ran with profile `p`; a restart finds nothing once nothing runs,
      and the image stays. */
  function ProfileAfter(p: nat, es: seq<Touch>): (result: Option<nat>) {
    if es == [] then Some(p)
    else if ProfileAfter(p, es[..|es| - 1]) == None then None
    else match es[|es| - 1]
      case CameThrough(q) => Some(q)
      case BroughtBack => ProfileAfter(p, es[..|es| - 1])
      case Broke(left) => left
  }

  function After(c: Option<Config>, es: seq<Touch>): (result: Option<Config>) {
    if c == None || ProfileAfter(c.value.profile, es) == None then None
    else Some(c.value.(profile := ProfileAfter(c.value.profile, es).value))
  }

  lemma AfterOneMore(c: Option<Config>, es: seq<Touch>, e: Touch)
    ensures After(c, es + [e]) == After(After(c, es), [e])
  {
    assert (es + [e])[..|es + [e]| - 1] == es;
    if After(c, es).Some? {
      var p, q := c.value.profile, ProfileAfter(c.value.profile, es).value;
      assert [e][..|[e]| - 1] == [];
      assert ProfileAfter(q, []) == Some(q);
      assert ProfileAfter(p, es + [e]) == ProfileAfter(q, [e]);
    }
  }

  predicate Intact(es: seq<Touch>) {
    forall i :: 0 <= i < |es| ==> !es[i].Broke?
  }

  /** The profile of the last restart that came through. */
  function LastThrough(es: seq<Touch>): (result: Option<nat>) {
    if es == [] then None
    else if es[|es| - 1].CameThrough? then Some(es[|es| - 1].profile)
    else LastThrough(es[..|es| - 1])
  }

  /** Restarts of which none broke leave a running device with its profile exactly when none came through, or the last
      one that did carried that profile. */
  lemma {:induction false} IntactRestartsKeepExactlyWhen(p: nat, es: seq<Touch>)
    requires Intact(es)
    ensures ProfileAfter(p, es) == Some(if LastThrough(es).Some? then LastThrough(es).value else p)
    ensures ProfileAfter(p, es) == Some(p) <==> LastThrough(es) in {None, Some(p)}
  {
    if es == [] {
    } else {
      IntactRestartsKeepExactlyWhen(p, es[..|es| - 1]);
    }
  }

  /** One call of a command and its answer, as the provider's log keeps it. `Checked` is the look at the host's
      resources before anything is touched, `Expiring` the deadline of a wait. */
  datatype Entry =
    | Checked(fits: bool)
    | Verifying(c: Config, ok: bool)
    | Deleting(reply: Reply)
    | Creating(c: Config, ok: bool)
    | Starting(ok: bool)
    | Restarting(profile: nat, reply: Reply)
    | Inspecting(ready: bool)
    | Connecting(ok: bool)
    | Expiring
    | Registering(ok: bool)

  predicate Fails(e: Entry) {
    match e
    case Checked(fits) => !fits
    case Verifying(_, ok) => !ok
    case Deleting(reply) => reply == Broken
    case Creating(_, ok) => !ok
    case Starting(ok) => !ok
    case Restarting(_, reply) => reply != Done
    case Inspecting(_) => false
    case Connecting(ok) => !ok
    case Expiring => true
    case Registering(ok) => !ok
  }

  predicate Passes(log: seq<Entry>) {
    forall i :: 0 <= i < |log| ==> !Fails(log[i])
  }

  lemma PassesBoth(a: seq<Entry>, b: seq<Entry>)
    ensures Passes(a + b) <==> Passes(a) && Passes(b)
  {
    if Passes(a + b) {
      forall i | 0 <= i < |a|
        ensures !Fails(a[i])
      {
        assert (a + b)[i] == a[i];
      }
      forall i | 0 <= i < |b|
        ensures !Fails(b[i])
      {
        assert (a + b)[|a| + i] == b[i];
      }
    }
  }

  /** One wait, inspecting at least once: it ends with the first inspection that finds the device ready, when the
      device is connected to, or with the deadline. */
  predicate Waited(log: seq<Entry>, deadline: nat) {
    && log != [] && log[0].Inspecting?
    && if log[0].ready then |log| == 2 && log[1].Connecting?
       else if deadline == 0 then log[1..] == [Expiring]
       else Waited(log[1..], deadline - 1)
  }

  /** Inspections that find the device not ready only bring the deadline nearer. */
  lemma {:induction false} WaitedLonger(before: seq<Entry>, log: seq<Entry>, left: nat)
    requires Waited(log, left) && forall i :: 0 <= i < |before| ==> before[i] == Inspecting(false)
    ensures Waited(before + log, |before| + left)
    decreases |before|
  {
    if before == [] {
      assert before + log == log;
    } else {
      WaitedLonger(before[1..], log, left);
      assert (before + log)[1..] == before[1..] + log;
    }
  }

  /** A wait, and the registration of what it found. */
  predicate Awaited(log: seq<Entry>, deadline: nat) {
    || (Waited(log, deadline) && !Passes(log))
    || (&& log != [] && log[|log| - 1].Registering?
        && Waited(log[..|log| - 1], deadline) && Passes(log[..|log| - 1]))
  }

  /** Delete, create and start, each only after the one before it; what does not start is deleted again. */
  predicate Replaced(log: seq<Entry>, c: Config) {
    && log != [] && log[0].Deleting?
    && if log[0].reply == Broken then |log| == 1
       else && |log| > 1 && log[1].Creating? && log[1].c == c
            && if !log[1].ok then |log| == 2
               else && |log| > 2 && log[2].Starting?
                    && if log[2].ok then |log| == 3 else |log| == 4 && log[3].Deleting?
  }

  /** One attempt to bring up a configuration: its image is verified before the device is replaced, and one that is not
      ready in time is deleted again. */
  predicate Attempt(log: seq<Entry>, c: Config, deadline: nat) {
    || log == [Verifying(c, false)]
    || (log != [] && log[0] == Verifying(c, true) && Replaced(log[1..], c) && !Passes(log[1..]))
    || (&& |log| > 4 && log[0] == Verifying(c, true) && Replaced(log[1..4], c) && Passes(log[1..4])
        && Waited(log[4..|log| - 1], deadline)
        && if Passes(log[4..|log| - 1]) then log[|log| - 1].Registering? else log[|log| - 1].Deleting?)
  }

  lemma BrokenAttempt(replaced: seq<Entry>, c: Config, deadline: nat)
    requires Replaced(replaced, c) && !Passes(replaced)
    ensures var log := [Verifying(c, true)] + replaced;
            Attempt(log, c, deadline) && !Passes(log)
  {
    assert ([Verifying(c, true)] + replaced)[1..] == replaced;
    PassesBoth([Verifying(c, true)], replaced);
  }

  lemma ReadyAttempt(replaced: seq<Entry>, waited: seq<Entry>, c: Config, deadline: nat)
    requires Replaced(replaced, c) && Passes(replaced) && Waited(waited, deadline) && Passes(waited)
    ensures var log := [Verifying(c, true)] + replaced + waited;
            Passes(log) && forall registered :: Attempt(log + [Registering(registered)], c, deadline)
  {
    var log := [Verifying(c, true)] + replaced + waited;
    assert log == [Verifying(c, true)] + (replaced + waited);
    PassesBoth(replaced, waited);
    PassesBoth([Verifying(c, true)], replaced + waited);
    assert |replaced| == 3 by { LastStarts(replaced, c); }
    forall registered
      ensures Attempt(log + [Registering(registered)], c, deadline)
    {
      var more := log + [Registering(registered)];
      assert more[1..4] == replaced && more[4..|more| - 1] == waited;
    }
  }

  lemma CleanedAttempt(replaced: seq<Entry>, waited: seq<Entry>, cleanup: seq<Entry>, c: Config, deadline: nat)
    requires Replaced(replaced, c) && Passes(replaced) && Waited(waited, deadline) && !Passes(waited)
    requires |cleanup| == 1 && cleanup[0].Deleting?
    ensures var log := [Verifying(c, true)] + replaced + waited + cleanup;
            Attempt(log, c, deadline) && !Passes(log)
  {
    var log := [Verifying(c, true)] + replaced + waited + cleanup;
    assert |replaced| == 3 by { LastStarts(replaced, c); }
    assert log[1..4] == replaced && log[4..|log| - 1] == waited;
    PassesBoth([Verifying(c, true)] + replaced, waited);
    PassesBoth([Verifying(c, true)] + replaced + waited, cleanup);
  }

  /** A replacement that went through is three calls long. */
  lemma LastStarts(replaced: seq<Entry>, c: Config)
    requires Replaced(replaced, c) && Passes(replaced)
    ensures |replaced| == 3
  {
    assert !Fails(replaced[0]);
    assert |replaced| > 1 ==> !Fails(replaced[1]);
    assert |replaced| > 2 ==> !Fails(replaced[2]);
  }

  /** How a reimage goes: it gives up before it touches anything, or attempts the target and, if anything in that fails,
      the configuration from before. */
  predicate ReimageTried(tried: seq<Entry>, retried: seq<Entry>, target: Config, rollback: Config, deadline: nat,
                         again: nat)
  {
    && tried != [] && tried[0].Checked?
    && if tried[0] == Checked(false) then tried == [Checked(false)] && retried == []
       else && Attempt(tried[1..], target, deadline)
            && if Passes(tried) then retried == [] else Attempt(retried, rollback, again)
  }

  /** One attempt to bring up a profile in place. */
  predicate Restarted(log: seq<Entry>, profile: nat, deadline: nat) {
    && log != [] && log[0].Restarting? && log[0].profile == profile
    && if log[0].reply == Done then Awaited(log[1..], deadline) else |log| == 1
  }

  /** How a profile update goes: it gives up before it touches anything, or restarts with the target and, if anything in
      that fails, waits for the container the provider brought back, or else restarts with the profile from before. */
  predicate UpdateTried(tried: seq<Entry>, retried: seq<Entry>, profile: nat, rollback: nat, byProvider: bool,
                        deadline: nat, again: nat)
  {
    && tried != [] && tried[0].Checked?
    && if tried[0] == Checked(false) then tried == [Checked(false)] && retried == [] && !byProvider
       else && Restarted(tried[1..], profile, deadline)
            && (byProvider <==> tried[1].reply == PreviousRestored)
            && if Passes(tried) then retried == []
               else if byProvider then Awaited(retried, again)
               else Restarted(retried, rollback, again)
  }

  /** A provider whose calls may fail at any point. A call that succeeds has its effect; a call that fails may have had
      any part of it. Between any two calls of one command, restarts of others may touch what runs: `made` is what this
      command's last call left, `since` what the others have done after it, and `log` the command's calls with their
      answers. */
  class Provider {
    var running: Option<Config>
    ghost var made: Option<Config>
    ghost var since: seq<Touch>
    ghost var log: seq<Entry>

    ghost predicate Valid()
      reads this
    {
      running == After(made, since)
    }

    constructor (c: Option<Config>)
      ensures Valid() && running == c && made == c && since == [] && log == []
    {
      running := c;
      made := c;
      since := [];
      log := [];
    }

    /** Restarts by other commands, as many as there are. */
    method Others()
      requires Valid()
      modifies this`running, this`since
      ensures Valid() && made == old(made) && old(since) <= since
      ensures running.Some? ==> old(running).Some? && running.value.image == old(running).value.image
    {
      var more: nat := *;
      while more > 0
        invariant Valid() && made == old(made) && old(since) <= since
        invariant running.Some? ==> old(running).Some? && running.value.image == old(running).value.image
      {
        var e: Touch := *;
        AfterOneMore(made, since, e);
        running := After(running, [e]);
        since := since + [e];
        more := more - 1;
      }
    }

    method Delete() returns (reply: Reply)
      modifies this
      ensures Valid() && made == running && since == []
      ensures reply in {Done, NotFound, Broken}
      ensures reply != Broken ==> running == None
      ensures log == old(log) + [Deleting(reply)]
    {
      reply := *;
      running := *;
      if reply == PreviousRestored {
        reply := Broken;
      }
      if reply != Broken {
        running := None;
      }
      made, since, log := running, [], log + [Deleting(reply)];
    }

    method Create(c: Config) returns (ok: bool)
      modifies this
      ensures Valid() && made == running && since == []
      ensures ok ==> running == Some(c)
      ensures log == old(log) + [Creating(c, ok)]
    {
      ok := *;
      running := *;
      if ok {
        running := Some(c);
      }
      made, since, log := running, [], log + [Creating(c, ok)];
    }

    method Start() returns (ok: bool)
      requires Valid()
      modifies this
      ensures Valid()
      ensures ok ==> running == old(running) && made == old(made) && since == old(since)
      ensures log == old(log) + [Starting(ok)]
    {
      ok := *;
      log := log + [Starting(ok)];
      if !ok {
        running := *;
        made, since := running, [];
      }
    }

    /** Replaces the container but keeps its image. When the new one cannot be created the provider may
        bring the previous one back itself. */
    method RestartWithProfile(profile: nat) returns (reply: Reply)
      modifies this
      ensures Valid() && made == running && since == []
      ensures reply == Done ==> old(running).Some? && running == Some(old(running).value.(profile := profile))
      ensures reply == PreviousRestored ==> old(running).Some? && running == old(running)
      ensures running.Some? ==> old(running).Some? && running.value.image == old(running).value.image
      ensures log == old(log) + [Restarting(profile, reply)]
    {
      reply := NotFound;
      if running.Some? {
        reply := *;
        match reply
        case Done => running := Some(running.value.(profile := profile));
        case PreviousRestored =>
        case _ =>
          var left: bool, any: nat := *, *;
          running := if left then Some(running.value.(profile := any)) else None;
      }
      made, since, log := running, [], log + [Restarting(profile, reply)];
    }

    /** What one health inspection sees, if it answers at all. */
    method Inspect() returns (seen: Option<AgentResult>)
      modifies this`log
      ensures seen.Some? ==> !seen.value.applied && !seen.value.restored
      ensures log == old(log) + [Inspecting(seen.Some? && Ready(seen.value))]
    {
      var answers: bool, snapshot: AgentResult := *, *;
      seen := if answers then Some(snapshot.(applied := false, restored := false)) else None;
      log := log + [Inspecting(seen.Some? && Ready(seen.value))];
    }

    method Connect() returns (ok: bool)
      modifies this`log
      ensures log == old(log) + [Connecting(ok)]
    {
      ok := *;
      log := log + [Connecting(ok)];
    }

    method Verify(c: Config) returns (ok: bool)
      modifies this`log
      ensures log == old(log) + [Verifying(c, ok)]
    {
      ok := *;
      log := log + [Verifying(c, ok)];
    }

    /** Whether the host has the resources for what is to come. */
    method Check() returns (fits: bool)
      modifies this`log
      ensures log == old(log) + [Checked(fits)]
    {
      fits := *;
      log := log + [Checked(fits)];
    }

    /** Registering an Android device with STF may fail. */
    method Register(seen: AgentResult) returns (ok: bool)
      modifies this`log
      ensures log == old(log) + [Registering(ok)]
      ensures seen.ios ==> ok
    {
      ok := *;
      ok := ok || seen.ios;
      log := log + [Registering(ok)];
    }
  }

  /** A device with component probes is ready when they pass, any other when all four lights are on. */
  predicate Ready(x: AgentResult) {
    if x.probes.Some? then x.probes.value else x.online && x.adbOnline && x.bootCompleted && x.appiumHealthy
  }

  /** What the outcome of a reimage tells about what its last call left. */
  ghost predicate Reports(o: CommandOutcome, target: Config, previous: Config, made: Option<Config>) {
    && Ended(o)
    && (Applied(o) ==> made == Some(target))
    && (Restored(o) ==> made == Some(previous))
  }

  /** What the outcome of a profile update tells about what its last call left, given what ran when it began: the image
      is the one that ran then in any case; the profile is the target, or the one that was brought back. */
  ghost predicate ProfileReports(o: CommandOutcome, was: Option<Config>, target: nat, back: nat, made: Option<Config>) {
    && Ended(o)
    && (Applied(o) || Restored(o) ==> was.Some?)
    && (Applied(o) ==> made == Some(was.value.(profile := target)))
    && (Restored(o) ==> made == Some(was.value.(profile := back)))
  }

  class Agent {
    const provider: Provider

    constructor (provider: Provider)
      ensures this.provider == provider
    {
      this.provider := provider;
    }

    /** Polls until the device is ready or the deadline, so many inspections after the first, has passed. */
    method WaitReady(deadline: nat) returns (seen: Option<AgentResult>, ghost tried: seq<Entry>)
      requires provider.Valid()
      modifies provider`running, provider`since, provider`log
      ensures provider.Valid() && old(provider.since) <= provider.since
      ensures provider.running.Some? ==>
                old(provider.running).Some? && provider.running.value.image == old(provider.running).value.image
      ensures provider.log == old(provider.log) + tried
      ensures seen.Some? ==> Ready(seen.value) && !seen.value.applied && !seen.value.restored
      ensures seen.Some? <==> Passes(tried)
      ensures Waited(tried, deadline)
    {
      tried := [];
      var left := deadline;
      while true
        invariant 0 <= left <= deadline
        invariant provider.Valid() && old(provider.since) <= provider.since
        invariant provider.running.Some? ==>
                    && old(provider.running).Some?
                    && provider.running.value.image == old(provider.running).value.image
        invariant provider.log == old(provider.log) + tried && |tried| == deadline - left
        invariant forall i :: 0 <= i < |tried| ==> tried[i] == Inspecting(false)
        decreases left
      {
        provider.Others();
        seen := provider.Inspect();
        if seen.Some? && Ready(seen.value) {
          var connected := provider.Connect();
          WaitedLonger(tried, [Inspecting(true), Connecting(connected)], left);
          tried := tried + [Inspecting(true), Connecting(connected)];
          assert !connected ==> Fails(tried[|tried| - 1]);
          return if connected then seen else None, tried;
        }
        if left == 0 {
          break;
        }
        tried := tried + [Inspecting(false)];
        left := left - 1;
      }
      seen := None;
      WaitedLonger(tried, [Inspecting(false), Expiring], 0);
      tried := tried + [Inspecting(false), Expiring];
      provider.log := provider.log + [Expiring];
      assert Fails(tried[|tried| - 1]);
    }

    method Cleanup() returns (ghost tried: seq<Entry>)
      modifies provider
      ensures provider.Valid() && provider.log == old(provider.log) + tried
      ensures |tried| == 1 && tried[0].Deleting?
    {
      var reply := provider.Delete();
      tried := [Deleting(reply)];
    }

    /** Deletes the device, creates it anew and starts it; what does not start is cleaned up. */
    method Replace(c: Config) returns (ok: bool, ghost tried: seq<Entry>)
      requires provider.Valid()
      modifies provider
      ensures provider.Valid() && provider.log == old(provider.log) + tried
      ensures Replaced(tried, c)
      ensures ok <==> Passes(tried)
      ensures ok ==> provider.made == Some(c)
    {
      provider.Others();
      var reply := provider.Delete();
      tried := [Deleting(reply)];
      if reply == Broken {
        assert Fails(tried[0]);
        return false, tried;
      }
      provider.Others();
      ok := provider.Create(c);
      tried := tried + [Creating(c, ok)];
      if !ok {
        assert Fails(tried[1]);
        return false, tried;
      }
      provider.Others();
      ok := provider.Start();
      tried := tried + [Starting(ok)];
      if !ok {
        ghost var more := Cleanup();
        tried := tried + more;
        assert Fails(tried[2]);
      }
    }

    /** Verifies the image, replaces the device and waits for it; a failure after the creation cleans up. Nothing comes
        back exactly when some call fails. */
    method Recreate(c: Config, deadline: nat) returns (seen: Option<AgentResult>, ghost tried: seq<Entry>)
      requires provider.Valid()
      modifies provider
      ensures provider.Valid() && provider.log == old(provider.log) + tried
      ensures if seen == None then Attempt(tried, c, deadline)
              else forall registered :: Attempt(tried + [Registering(registered)], c, deadline)
      ensures seen.Some? <==> Passes(tried)
      ensures seen.Some? ==>
                && provider.made == Some(c) && Ready(seen.value)
                && !seen.value.applied && !seen.value.restored
    {
      var ok := provider.Verify(c);
      tried := [Verifying(c, ok)];
      if !ok {
        assert Fails(tried[0]);
        return None, tried;
      }
      ghost var replaced, waited: seq<Entry>;
      ok, replaced := Replace(c);
      tried := tried + replaced;
      if !ok {
        BrokenAttempt(replaced, c, deadline);
        return None, tried;
      }
      seen, waited := WaitReady(deadline);
      tried := tried + waited;
      if seen.Some? {
        ReadyAttempt(replaced, waited, c, deadline);
      } else {
        ghost var cleanup := Cleanup();
        tried := tried + cleanup;
        CleanedAttempt(replaced, waited, cleanup, c, deadline);
      }
    }

    /** One attempt with its registration. */
    method BringUp(c: Config, deadline: nat) returns (seen: Option<AgentResult>, ghost tried: seq<Entry>)
      requires provider.Valid()
      modifies provider
      ensures provider.Valid() && provider.log == old(provider.log) + tried
      ensures Attempt(tried, c, deadline)
      ensures seen.Some? <==> Passes(tried)
      ensures seen.Some? ==>
                && provider.made == Some(c) && Ready(seen.value)
                && !seen.value.applied && !seen.value.restored
    {
      seen, tried := Recreate(c, deadline);
      if seen.Some? {
        var registered := provider.Register(seen.value);
        PassesBoth(tried, [Registering(registered)]);
        tried := tried + [Registering(registered)];
        if !registered {
          assert Fails([Registering(registered)][0]);
          seen := None;
        }
      }
    }

    /** The target, or the old configuration again, or neither; the flags in the result say which. The target is applied
        exactly when every call of its attempt succeeds, and otherwise, unless nothing has been touched, the old
        configuration is restored exactly when every call of its own attempt does, which has a deadline of its own. */
    method Reimage(target: Config, rollback: Config, deadline: nat, again: nat)
      returns (result: Option<AgentResult>, failed: bool, ghost tried: seq<Entry>, ghost retried: seq<Entry>)
      requires provider.Valid()
      modifies provider
      ensures provider.Valid() && provider.log == old(provider.log) + tried + retried
      ensures ReimageTried(tried, retried, target, rollback, deadline, again)
      ensures !failed <==> Passes(tried)
      ensures !failed ==> result.Some? && result.value.applied && !result.value.restored
      ensures !failed ==> provider.made == Some(target) && Ready(result.value)
      ensures failed && result.Some? ==> !result.value.applied
      ensures failed ==> (result.Some? <==> tried[0] == Checked(true))
      ensures failed && result.Some? ==> (result.value.restored <==> Passes(retried))
      ensures failed && result.Some? && result.value.restored ==>
                provider.made == Some(rollback) && Ready(result.value)
    {
      var fits := provider.Check();
      tried, retried := [Checked(fits)], [];
      if !fits {
        assert Fails(tried[0]);
        return None, true, tried, retried;
      }
      ghost var more;
      var seen;
      seen, more := BringUp(target, deadline);
      PassesBoth(tried, more);
      tried := tried + more;
      assert tried[1..] == more;
      if seen.Some? {
        return Some(seen.value.(applied := true)), false, tried, retried;
      }
      seen, retried := BringUp(rollback, again);
      if seen.Some? {
        return Some(seen.value.(restored := true)), true, tried, retried;
      }
      var blank: AgentResult := *;
      result, failed := Some(blank.(applied := false, restored := false)), true;
    }

    /** Waits for a container and registers it. */
    method Await(deadline: nat) returns (seen: Option<AgentResult>, ghost tried: seq<Entry>)
      requires provider.Valid()
      modifies provider`running, provider`since, provider`log
      ensures provider.Valid() && provider.log == old(provider.log) + tried && Awaited(tried, deadline)
      ensures provider.running.Some? ==>
                old(provider.running).Some? && provider.running.value.image == old(provider.running).value.image
      ensures seen.Some? <==> Passes(tried)
      ensures seen.Some? ==> Ready(seen.value) && !seen.value.applied && !seen.value.restored
    {
      seen, tried := WaitReady(deadline);
      if seen.Some? {
        var registered := provider.Register(seen.value);
        PassesBoth(tried, [Registering(registered)]);
        ghost var waited := tried;
        tried := tried + [Registering(registered)];
        assert tried[..|tried| - 1] == waited;
        if !registered {
          assert Fails([Registering(registered)][0]);
          seen := None;
        }
      }
    }

    /** A profile change restarts the container in place, whatever it runs. The provider may have brought the
        previous container back already, in which case that is the one to wait for; `back` is the profile a restored
        update has brought back, the old one unless the provider did it. As for a reimage, it is applied exactly when
        every call for the target succeeds, and restored exactly when every call after that does. */
    method UpdateProfile(profile: nat, rollback: nat, deadline: nat, again: nat)
      returns (result: Option<AgentResult>, failed: bool, ghost back: nat, ghost byProvider: bool,
               ghost tried: seq<Entry>, ghost retried: seq<Entry>)
      requires provider.Valid()
      modifies provider
      ensures provider.Valid() && provider.log == old(provider.log) + tried + retried
      ensures UpdateTried(tried, retried, profile, rollback, byProvider, deadline, again)
      ensures !failed <==> Passes(tried)
      ensures !failed ==> result.Some? && result.value.applied && !result.value.restored && Ready(result.value)
      ensures !failed ==>
                && old(provider.running).Some?
                && provider.made == Some(old(provider.running).value.(profile := profile))
      ensures failed && result.Some? ==> !result.value.applied
      ensures failed ==> (result.Some? <==> tried[0] == Checked(true))
      ensures failed && result.Some? ==> (result.value.restored <==> Passes(retried))
      ensures failed && result.Some? && result.value.restored ==>
                && Ready(result.value) && old(provider.running).Some?
                && provider.made == Some(old(provider.running).value.(profile := back))
      ensures !byProvider ==> back == rollback
    {
      back, byProvider := rollback, false;
      var fits := provider.Check();
      tried, retried := [Checked(fits)], [];
      if !fits {
        assert Fails(tried[0]);
        return None, true, back, byProvider, tried, retried;
      }
      ghost var more;
      var seen, reply;
      seen, reply, more := Restart(profile, deadline);
      PassesBoth(tried, more);
      tried := tried + more;
      assert tried[1..] == more && tried[1] == more[0];
      if seen.Some? {
        return Some(seen.value.(applied := true)), false, back, byProvider, tried, retried;
      }
      if reply == PreviousRestored {
        back, byProvider := provider.running.value.profile, true;
        seen, retried := Await(again);
      } else {
        var last;
        seen, last, retried := Restart(rollback, again);
      }
      if seen.Some? {
        return Some(seen.value.(restored := true)), true, back, byProvider, tried, retried;
      }
      var blank: AgentResult := *;
      result, failed := Some(blank.(applied := false, restored := false)), true;
    }

    /** One attempt to bring up a profile in place. */
    method Restart(profile: nat, deadline: nat)
      returns (seen: Option<AgentResult>, reply: Reply, ghost tried: seq<Entry>)
      requires provider.Valid()
      modifies provider
      ensures provider.Valid() && provider.log == old(provider.log) + tried
      ensures Restarted(tried, profile, deadline) && tried[0].reply == reply
      ensures provider.running.Some? ==>
                old(provider.running).Some? && provider.running.value.image == old(provider.running).value.image
      ensures seen.Some? <==> Passes(tried)
      ensures seen.Some? ==>
                && Ready(seen.value) && !seen.value.applied && !seen.value.restored && old(provider.running).Some?
                && provider.made == Some(old(provider.running).value.(profile := profile))
      ensures reply == PreviousRestored ==> provider.running.Some? && provider.made == provider.running
    {
      provider.Others();
      reply := provider.RestartWithProfile(profile);
      tried := [Restarting(profile, reply)];
      if reply != Done {
        assert Fails(tried[0]);
        return None, reply, tried;
      }
      ghost var more;
      seen, more := Await(deadline);
      PassesBoth(tried, more);
      tried := tried + more;
      assert tried[1..] == more;
    }

    /** How the single attempt of a reimage ends. `renewed` is whether the lease was kept alive, and
        `reported` whether the completion arrived before the lease was taken away. */
    method ExecuteReimage(target: Config, rollback: Config, deadline: nat, again: nat, renewed: bool, reported: bool)
      returns (o: CommandOutcome, ghost tried: seq<Entry>, ghost retried: seq<Entry>)
      requires provider.Valid()
      modifies provider
      ensures provider.Valid() && Reports(o, target, rollback, provider.made)
      ensures ReimageTried(tried, retried, target, rollback, deadline, again)
      ensures provider.log == old(provider.log) + tried + retried
      ensures Applied(o) <==> reported && renewed && Passes(tried) && Healthy(o)
      ensures Restored(o) <==>
              reported && tried[0] == Checked(true) && !Passes(tried) && Passes(retried) && Healthy(o)
    {
      var result, failed;
      result, failed, tried, retried := Reimage(target, rollback, deadline, again);
      provider.Others();
      if !reported {
        return CommandOutcome(CommandTimedOut, None), tried, retried;
      }
      o := CommandOutcome(if failed || !renewed then CommandFailed else CommandSucceeded, result);
    }

    method ExecuteProfile(profile: nat, rollback: nat, deadline: nat, again: nat, renewed: bool, reported: bool)
      returns (o: CommandOutcome, ghost back: nat, ghost byProvider: bool, ghost tried: seq<Entry>,
               ghost retried: seq<Entry>)
      requires provider.Valid()
      modifies provider
      ensures provider.Valid() && ProfileReports(o, old(provider.running), profile, back, provider.made)
      ensures !byProvider ==> back == rollback
      ensures UpdateTried(tried, retried, profile, rollback, byProvider, deadline, again)
      ensures provider.log == old(provider.log) + tried + retried
      ensures Applied(o) <==> reported && renewed && Passes(tried) && Healthy(o)
      ensures Restored(o) <==>
              reported && tried[0] == Checked(true) && !Passes(tried) && Passes(retried) && Healthy(o)
    {
      var result, failed;
      result, failed, back, byProvider, tried, retried := UpdateProfile(profile, rollback, deadline, again);
      provider.Others();
      if !reported {
        return CommandOutcome(CommandTimedOut, None), back, byProvider, tried, retried;
      }
      o := CommandOutcome(if failed || !renewed then CommandFailed else CommandSucceeded, result);
    }
  }

  // ---- End to end ----

  /** What a record says its device runs: an image without an override runs with its own profile. */
  function Effective(x: Record, defaults: nat -> nat): (result: Config) {
    Config(x.image, if x.override.Some? then x.override.value else defaults(x.image))
  }

  /** The row and the command a reimage is queued with, and the configuration to fall back to. */
  function QueueReimage(x: Record, target: Config): (result: Option<(Record, Command)>) {
    if QueuedLifecycle(Reimage, x.lifecycle) == None then None
    else Some((x.(lifecycle := DeviceProvisioning, health := HealthUnknown, pendingImage := Some(target.image),
                  pendingProfile := Some(target.profile), reimage := ChangePending),
               Command(Reimage, DeviceProvisioning, target.image, target.profile)))
  }

  function QueueProfile(x: Record, profile: nat): (result: Option<(Record, Command)>) {
    if QueuedLifecycle(ProfileUpdate, x.lifecycle) == None then None
    else Some((x.(lifecycle := DeviceProvisioning, health := HealthUnknown, pendingImage := None,
                  pendingProfile := Some(profile), profileUpdate := ChangePending),
               Command(ProfileUpdate, DeviceProvisioning, x.image, profile)))
  }

  /** Others may move the device while the command runs, but not what it is recorded to run. */
  ghost predicate SameConfig(x: Record, y: Record) {
    && x.image == y.image && x.override == y.override
    && x.pendingImage == y.pendingImage && x.pendingProfile == y.pendingProfile
  }

  /** The record says what the provider runs. */
  ghost predicate Agrees(y: Record, running: Option<Config>, defaults: nat -> nat) {
    running == Some(Effective(y, defaults))
  }

  /** The row after a completion that found its device. */
  ghost predicate Settled(y: Record, target: Config, previous: Config, o: CommandOutcome, defaults: nat -> nat) {
    && y.pendingImage == None && y.pendingProfile == None
    && (if Applied(o) || Restored(o) then
          && y.lifecycle == DeviceReady && y.health == HealthUnhealthy && y.reason == Some(STF_STABILIZING)
          && Effective(y, defaults) == (if Applied(o) then target else previous)
        else y.lifecycle == DeviceQuarantined && y.health == HealthUnhealthy && Effective(y, defaults) == previous)
  }

  /** What the outcome says was brought up. */
  function Claimed(o: CommandOutcome, target: Config, previous: Config): (result: Config) {
    if Applied(o) then target else previous
  }

  /** A reimage, from the record it was queued on to the record after its completion, with any restarts beside it and
      after it. A completion that finds its device puts it back to `ready`, with the target recorded if it was applied
      and the old configuration if that was restored, or else leaves it quarantined with nothing pending. A `ready`
      device's record names what the provider runs exactly when the restarts since the reimage's last call have left
      the profile as it was. A device somebody moved away meanwhile is left alone. */
  lemma ReimageEndToEnd(before: Record, target: Config, x: Record, o: CommandOutcome, made: Option<Config>,
                        since: seq<Touch>, why: string, defaults: nat -> nat)
    requires QueueReimage(before, target).Some? && SameConfig(x, QueueReimage(before, target).value.0)
    requires Reports(o, target, Effective(before, defaults), made)
    ensures var y := Completed(x, QueueReimage(before, target).value.1, o, why);
            var c := Claimed(o, target, Effective(before, defaults));
            && y.Some?
            && (x.lifecycle !in {DeviceProvisioning, DeviceBooting} ==> y.value == x)
            && (x.lifecycle in {DeviceProvisioning, DeviceBooting} ==>
                  && Settled(y.value, target, Effective(before, defaults), o, defaults)
                  && (y.value.lifecycle == DeviceReady ==>
                        (Agrees(y.value, After(made, since), defaults)
                         <==> ProfileAfter(c.profile, since) == Some(c.profile))))
  {
  }

  /** A profile update, for any device it may be queued on, whatever that device runs and whatever restarts run beside
      it. A completion that finds its device puts it back to `ready` after an applied update and after a restored one;
      the profile recorded is the target or the old one. The image is never compared with what runs. So the record
      agrees with the provider exactly when the recorded image is the one that ran before, and the restarts since have
      left or brought about the recorded profile. */
  lemma ProfileEndToEnd(before: Record, profile: nat, x: Record, o: CommandOutcome, was: Option<Config>, back: nat,
                        made: Option<Config>, since: seq<Touch>, why: string, defaults: nat -> nat)
    requires QueueProfile(before, profile).Some? && SameConfig(x, QueueProfile(before, profile).value.0)
    requires ProfileReports(o, was, profile, back, made)
    ensures var y := Completed(x, QueueProfile(before, profile).value.1, o, why);
            var found := x.lifecycle in {DeviceProvisioning, DeviceBooting, DeviceReady, DeviceQuarantined};
            var previous := Effective(before, defaults);
            && y.Some?
            && (!found ==> y.value == x)
            && (found ==>
                  && Settled(y.value, Config(before.image, profile), previous, o, defaults)
                  && (y.value.lifecycle == DeviceReady <==> Applied(o) || Restored(o))
                  && (Applied(o) ==>
                        (Agrees(y.value, After(made, since), defaults)
                         <==> before.image == was.value.image && ProfileAfter(profile, since) == Some(profile)))
                  && (Restored(o) ==>
                        (Agrees(y.value, After(made, since), defaults)
                         <==> && before.image == was.value.image
                              && ProfileAfter(back, since) == Some(previous.profile))))
  {
  }

  /** In particular, without restarts beside it, a record that agreed before agrees again whenever the device comes
      back, whoever brought the old profile back. */
  lemma AgreementSurvivesProfileUpdates(before: Record, profile: nat, x: Record, o: CommandOutcome, was: Option<Config>,
                                        back: nat, made: Option<Config>, why: string, defaults: nat -> nat)
    requires QueueProfile(before, profile).Some? && SameConfig(x, QueueProfile(before, profile).value.0)
    requires ProfileReports(o, was, profile, back, made) && back == Effective(before, defaults).profile
    requires Agrees(before, was, defaults) && (Applied(o) || Restored(o))
    requires x.lifecycle in {DeviceProvisioning, DeviceBooting, DeviceReady, DeviceQuarantined}
    ensures var y := Completed(x, QueueProfile(before, profile).value.1, o, why).value;
            y.lifecycle == DeviceReady && Agrees(y, made, defaults)
  {
    ProfileEndToEnd(before, profile, x, o, was, back, made, [], why, defaults);
    assert After(made, []) == made;
  }

  /** The compare-and-set cuts both ways. After the target was applied, a completion that finds its device records the
      target, and one that does not leaves the old configuration recorded. So the record agrees with the provider
      exactly when what runs by then is the one or the other. */
  lemma AppliedAgreesExactlyWhen(before: Record, target: Config, x: Record, o: CommandOutcome, made: Option<Config>,
                                 since: seq<Touch>, why: string, defaults: nat -> nat)
    requires QueueReimage(before, target).Some? && SameConfig(x, QueueReimage(before, target).value.0)
    requires Reports(o, target, Effective(before, defaults), made) && Applied(o)
    ensures var y := Completed(x, QueueReimage(before, target).value.1, o, why).value;
            var previous := Effective(before, defaults);
            Agrees(y, After(made, since), defaults) <==>
            if x.lifecycle in {DeviceProvisioning, DeviceBooting}
            then ProfileAfter(target.profile, since) == Some(target.profile)
            else previous.image == target.image && ProfileAfter(target.profile, since) == Some(previous.profile)
  {
  }

  /** One reimage run from the queue to the completion, with restarts of others at any point of it. */
  method RunReimage(row: DeviceRow, agent: Agent, target: Config, defaults: nat -> nat, deadline: nat, again: nat,
                    renewed: bool, reported: bool, booting: bool, why: string, at: Clock)
    returns (queued: bool, ghost o: CommandOutcome, ghost tried: seq<Entry>, ghost retried: seq<Entry>)
    requires TrimSpace(why) != "" && agent.provider.Valid()
    modifies row, agent.provider
    ensures agent.provider.Valid()
    ensures !queued <==> old(row.lifecycle) !in {DeviceReady, DeviceStopped, DeviceQuarantined}
    ensures !queued ==> row.Value() == old(row.Value()) && agent.provider.running == old(agent.provider.running)
    ensures queued ==>
              && row.pendingImage == None && row.pendingProfile == None
              && (row.lifecycle == DeviceReady || row.lifecycle == DeviceQuarantined)
              && ReimageTried(tried, retried, target, Effective(old(row.Value()), defaults), deadline, again)
              && agent.provider.log == old(agent.provider.log) + tried + retried
              && (row.lifecycle == DeviceReady <==>
                    && reported && Healthy(o)
                    && ((renewed && Passes(tried)) || (tried[0] == Checked(true) && !Passes(tried) && Passes(retried))))
              && (row.lifecycle == DeviceReady ==>
                    var c := Effective(row.Value(), defaults);
                    && c in {target, Effective(old(row.Value()), defaults)} && agent.provider.made == Some(c)
                    && (Agrees(row.Value(), agent.provider.running, defaults)
                        <==> ProfileAfter(c.profile, agent.provider.since) == Some(c.profile)))
              && (row.lifecycle == DeviceQuarantined ==>
                    Effective(row.Value(), defaults) == Effective(old(row.Value()), defaults))
  {
    ghost var before := row.Value();
    if row.lifecycle !in {DeviceReady, DeviceStopped, DeviceQuarantined} {
      return false, CommandOutcome(CommandPending, None), [], [];
    }
    var rollback := Effective(row.Value(), defaults);
    row.lifecycle, row.health, row.reimage := DeviceProvisioning, HealthUnknown, ChangePending;
    row.pendingImage, row.pendingProfile := Some(target.image), Some(target.profile);
    assert row.Value() == QueueReimage(before, target).value.0;
    var outcome;
    outcome, tried, retried := agent.ExecuteReimage(target, rollback, deadline, again, renewed, reported);
    o := outcome;
    if booting {
      row.lifecycle := DeviceBooting;
    }
    ReimageEndToEnd(before, target, row.Value(), o, agent.provider.made, agent.provider.since, why, defaults);
    var ok := row.Reconcile(Command(Reimage, DeviceProvisioning, target.image, target.profile), outcome, why, at);
    queued := true;
  }

  /** One profile update from the queue to the completion, on a device that may run anything, with restarts of others
      at any point of it. */
  method RunProfileUpdate(row: DeviceRow, agent: Agent, profile: nat, defaults: nat -> nat, deadline: nat,
                          again: nat, renewed: bool, reported: bool, why: string, at: Clock)
    returns (queued: bool, ghost back: nat, ghost byProvider: bool, ghost o: CommandOutcome, ghost tried: seq<Entry>,
             ghost retried: seq<Entry>)
    requires TrimSpace(why) != "" && agent.provider.Valid()
    modifies row, agent.provider
    ensures agent.provider.Valid()
    ensures !queued <==> old(row.lifecycle) !in {DeviceReady, DeviceStopped, DeviceQuarantined}
    ensures !queued ==> row.Value() == old(row.Value()) && agent.provider.running == old(agent.provider.running)
    ensures !byProvider ==> back == Effective(old(row.Value()), defaults).profile
    ensures queued ==>
              && row.pendingProfile == None && row.image == old(row.image)
              && row.lifecycle in {DeviceReady, DeviceQuarantined}
              && UpdateTried(tried, retried, profile, Effective(old(row.Value()), defaults).profile, byProvider,
                             deadline, again)
              && agent.provider.log == old(agent.provider.log) + tried + retried
              && (row.lifecycle == DeviceReady <==>
                    && reported && Healthy(o)
                    && ((renewed && Passes(tried)) || (tried[0] == Checked(true) && !Passes(tried) && Passes(retried))))
              && (row.lifecycle == DeviceReady ==>
                    var c := Effective(row.Value(), defaults);
                    && old(agent.provider.running).Some?
                    && c.profile in {profile, Effective(old(row.Value()), defaults).profile}
                    && agent.provider.made.Some? && agent.provider.made.value.profile in {profile, back}
                    && (Agrees(row.Value(), agent.provider.running, defaults) <==>
                        && row.image == old(agent.provider.running).value.image
                        && ProfileAfter(agent.provider.made.value.profile, agent.provider.since) == Some(c.profile)))
  {
    ghost var before := row.Value();
    ghost var was := agent.provider.running;
    var rollback := Effective(row.Value(), defaults).profile;
    back, byProvider := rollback, false;
    if row.lifecycle !in {DeviceReady, DeviceStopped, DeviceQuarantined} {
      return false, back, byProvider, CommandOutcome(CommandPending, None), [], [];
    }
    row.lifecycle, row.health, row.profileUpdate := DeviceProvisioning, HealthUnknown, ChangePending;
    row.pendingImage, row.pendingProfile := None, Some(profile);
    assert row.Value() == QueueProfile(before, profile).value.0;
    var outcome;
    outcome, back, byProvider, tried, retried := agent.ExecuteProfile(profile, rollback, deadline, again, renewed,
                                                                          reported);
    o := outcome;
    ProfileEndToEnd(before, profile, row.Value(), o, was, back, agent.provider.made, agent.provider.since, why,
                    defaults);
    var ok := row.Reconcile(Command(ProfileUpdate, DeviceProvisioning, row.image, profile), outcome, why, at);
    queued := true;
  }
}
