/** What one device is recorded to run and what its provider runs, over whole runs: reimages and profile updates with
    the restarts an administrator may put beside them, and everything else the farm does to the device row. The
    agent's part is what its methods promise in `Agent`. */
module Configuration {
  import opened Domain
  import opened Rows
  import opened Observation
  import opened Completion
  import opened Agent

  /** How a command ended, and whether its completion found the device. */
  datatype Ending = Ending(o: CommandOutcome, found: bool)

  /** A command of the device: the record it was queued on, what that record named then and what ran then; what its own
      last call left, and what restarts of others have done since. */
  datatype Job = Job(command: Command, queued: Record, previous: Config, was: Option<Config>, made: Option<Config>,
                     since: seq<Touch>, ending: Option<Ending>)

  /** `current` is the last reimage or profile update that was queued. */
  datatype Site = Site(row: Record, running: Option<Config>, jobs: map<nat, Job>, current: Option<nat>)

  datatype SiteStep =
    | Moving(lifecycle: Lifecycle, health: Health, reason: Option<string>, failures: nat)
    | Reimaging(id: nat, target: Config)
    | Updating(id: nat, profile: nat)
    | Restarting(id: nat)
    | Making(c: Config)
    | Spoiling(left: Option<Config>)
    | Touching(id: nat, e: Touch)
    | Reporting(id: nat, o: CommandOutcome, why: string)

  predicate Pending(s: Site, id: nat) {
    id in s.jobs && s.jobs[id].ending == None
  }

  /** A reimage or profile update is at work. */
  predicate AtWork(s: Site) {
    s.current.Some? && Pending(s, s.current.value)
  }

  function Target(j: Job): (result: Config) {
    Config(if j.command.kind == Reimage then j.command.image else j.queued.image, j.command.profile)
  }

  /** Calls of a profile update keep the image that runs. */
  predicate Keeps(j: Job, running: Option<Config>, left: Option<Config>) {
    j.command.kind == ProfileUpdate && left.Some? ==> running.Some? && left.value.image == running.value.image
  }

  /** The agent's promise about the outcomes it reports. */
  ghost predicate Truthful(j: Job, o: CommandOutcome) {
    && Ended(o)
    && (j.command.kind == Reimage ==> Reports(o, Target(j), j.previous, j.made))
    && (j.command.kind == ProfileUpdate ==>
          exists back :: ProfileReports(o, j.was, j.command.profile, back, j.made))
  }

  function Queue(s: Site, id: nat, queued: Option<(Record, Command)>, defaults: nat -> nat): (result: Option<Site>) {
    if id in s.jobs || queued == None || exists j :: j in s.jobs && Pending(s, j) then None
    else Some(s.(row := queued.value.0, current := Some(id),
                 jobs := s.jobs[id :=
                   Job(queued.value.1, queued.value.0, Effective(s.row, defaults), s.running, s.running, [], None)]))
  }

  /** A restart does not look for other commands; it is queued with the profile the record names. */
  function QueueRestart(s: Site, id: nat, defaults: nat -> nat): (result: Option<Site>) {
    if id in s.jobs || QueuedLifecycle(Restart, s.row.lifecycle) == None then None
    else
      var l := QueuedLifecycle(Restart, s.row.lifecycle).value;
      var command := Command(Restart, l, s.row.image, Effective(s.row, defaults).profile);
      Some(s.(row := s.row.(lifecycle := l, health := HealthUnknown),
              jobs := s.jobs[id := Job(command, s.row, Effective(s.row, defaults), s.running, s.running, [], None)]))
  }

  ghost function SiteTx(s: Site, step: SiteStep, defaults: nat -> nat): (result: Option<Site>) {
    match step
    case Moving(l, h, reason, failures) =>
      Some(s.(row := s.row.(lifecycle := l, health := h, reason := reason, failures := failures)))
    case Reimaging(id, target) => Queue(s, id, QueueReimage(s.row, target), defaults)
    case Updating(id, profile) => Queue(s, id, QueueProfile(s.row, profile), defaults)
    case Restarting(id) => QueueRestart(s, id, defaults)
    case Making(c) => Calling(s, Some(c))
    case Spoiling(left) => Calling(s, left)
    case Touching(id, e) =>
      if !Pending(s, id) || s.jobs[id].command.kind != Restart then None
      else if e.CameThrough? && e.profile != s.jobs[id].command.profile then None
      else Some(Touched(s, e))
    case Reporting(id, o, why) =>
      if !Pending(s, id) || !Truthful(s.jobs[id], o) then None
      else
        var j := s.jobs[id];
        var row := Completed(s.row, j.command, o, why);
        var found := CompletionEffect(j.command.kind, j.command.state, s.row.lifecycle, s.row.health, o).Sets?;
        if row == None then None
        else Some(s.(row := row.value, jobs := s.jobs[id := j.(ending := Some(Ending(o, found)))]))
  }

  /** A call of the reimage or profile update at work. */
  function Calling(s: Site, left: Option<Config>): (result: Option<Site>) {
    if !AtWork(s) || !Keeps(s.jobs[s.current.value], s.running, left) then None
    else Some(s.(running := left,
                 jobs := s.jobs[s.current.value := s.jobs[s.current.value].(made := left, since := [])]))
  }

  /** A call of a restart. */
  function Touched(s: Site, e: Touch): (result: Site) {
    s.(running := After(s.running, [e]),
       jobs := if s.current.Some? && s.current.value in s.jobs
               then s.jobs[s.current.value := s.jobs[s.current.value].(since := s.jobs[s.current.value].since + [e])]
               else s.jobs)
  }

  ghost function SiteNext(s: Site, step: SiteStep, defaults: nat -> nat): (result: Site) {
    if SiteTx(s, step, defaults).Some? then SiteTx(s, step, defaults).value else s
  }

  ghost function SiteRun(s: Site, steps: seq<SiteStep>, defaults: nat -> nat): (result: Site)
    decreases |steps|
  {
    if steps == [] then s else SiteRun(SiteNext(s, steps[0], defaults), steps[1..], defaults)
  }

  // ---- What every run keeps ----

  /** The configuration the record names: the one from before until a completion with the target applied finds its
      device. */
  function Recorded(j: Job): (result: Config) {
    if j.ending.Some? && j.ending.value.found && Applied(j.ending.value.o) then Target(j) else j.previous
  }

  ghost predicate CurrentOk(s: Site, defaults: nat -> nat)
    requires s.current.Some? && s.current.value in s.jobs
  {
    var j := s.jobs[s.current.value];
    && j.command.kind in {Reimage, ProfileUpdate} && j.command.state == DeviceProvisioning
    && Effective(j.queued, defaults) == j.previous
    && Effective(s.row, defaults) == Recorded(j)
    && s.row.image == Recorded(j).image
    && (j.ending == None ==> SameConfig(s.row, j.queued))
    && (j.ending.Some? ==> Truthful(j, j.ending.value.o))
    && s.running == After(j.made, j.since)
    && (j.command.kind == ProfileUpdate && j.made.Some? ==> j.was.Some? && j.made.value.image == j.was.value.image)
    && (forall i :: 0 <= i < |j.since| && j.since[i].CameThrough? ==>
                      j.since[i].profile in {j.previous.profile, Recorded(j).profile})
  }

  /** Restarts still to come carry the profile from before the current command, or the one recorded now; while that
      command is at work nothing else is in flight. */
  ghost predicate RestartsOk(s: Site)
    requires s.current.Some? && s.current.value in s.jobs
  {
    var j := s.jobs[s.current.value];
    forall i :: Pending(s, i) && i != s.current.value ==>
                  s.jobs[i].command.kind == Restart
                  && s.jobs[i].command.profile in {j.previous.profile, Recorded(j).profile}
  }

  ghost predicate SiteOk(s: Site, defaults: nat -> nat) {
    if s.current == None then forall i :: Pending(s, i) ==> s.jobs[i].command.kind == Restart
    else s.current.value in s.jobs && CurrentOk(s, defaults) && RestartsOk(s)
  }

  lemma QueueKeepsSite(s: Site, id: nat, queued: Option<(Record, Command)>, defaults: nat -> nat)
    requires Queue(s, id, queued, defaults).Some?
    requires queued.value.1.kind in {Reimage, ProfileUpdate} && queued.value.1.state == DeviceProvisioning
    requires queued.value.0.image == s.row.image && queued.value.0.override == s.row.override
    ensures SiteOk(Queue(s, id, queued, defaults).value, defaults)
  {
    if s.running.Some? {
      assert ProfileAfter(s.running.value.profile, []) == Some(s.running.value.profile);
    }
  }

  lemma RestartKeepsSite(s: Site, id: nat, defaults: nat -> nat)
    requires SiteOk(s, defaults) && QueueRestart(s, id, defaults).Some?
    ensures SiteOk(QueueRestart(s, id, defaults).value, defaults)
  {
    var t := QueueRestart(s, id, defaults).value;
    forall i | Pending(t, i)
      ensures i != id ==> Pending(s, i)
    {
    }
  }

  lemma CallKeepsSite(s: Site, left: Option<Config>, defaults: nat -> nat)
    requires SiteOk(s, defaults) && Calling(s, left).Some?
    ensures SiteOk(Calling(s, left).value, defaults)
  {
    var t := Calling(s, left).value;
    if left.Some? {
      assert ProfileAfter(left.value.profile, []) == Some(left.value.profile);
    }
    forall i | Pending(t, i)
      ensures Pending(s, i)
    {
    }
  }

  lemma TouchKeepsSite(s: Site, id: nat, e: Touch, defaults: nat -> nat)
    requires SiteOk(s, defaults) && Pending(s, id) && s.jobs[id].command.kind == Restart
    requires e.CameThrough? ==> e.profile == s.jobs[id].command.profile
    ensures SiteOk(Touched(s, e), defaults)
  {
    var t := Touched(s, e);
    forall i | Pending(t, i)
      ensures Pending(s, i)
    {
    }
    if s.current.Some? {
      AfterOneMore(s.jobs[s.current.value].made, s.jobs[s.current.value].since, e);
    }
  }

  lemma ReportKeepsSite(s: Site, id: nat, o: CommandOutcome, why: string, defaults: nat -> nat)
    requires SiteOk(s, defaults) && SiteTx(s, Reporting(id, o, why), defaults).Some?
    ensures SiteOk(SiteTx(s, Reporting(id, o, why), defaults).value, defaults)
  {
    var t := SiteTx(s, Reporting(id, o, why), defaults).value;
    forall i | Pending(t, i)
      ensures Pending(s, i)
    {
    }
  }

  lemma StepKeepsSite(s: Site, step: SiteStep, defaults: nat -> nat)
    requires SiteOk(s, defaults)
    ensures SiteOk(SiteNext(s, step, defaults), defaults)
  {
    if SiteTx(s, step, defaults).Some? {
      match step
      case Moving(l, h, reason, failures) =>
      case Reimaging(id, target) => QueueKeepsSite(s, id, QueueReimage(s.row, target), defaults);
      case Updating(id, profile) => QueueKeepsSite(s, id, QueueProfile(s.row, profile), defaults);
      case Restarting(id) => RestartKeepsSite(s, id, defaults);
      case Making(c) => CallKeepsSite(s, Some(c), defaults);
      case Spoiling(left) => CallKeepsSite(s, left, defaults);
      case Touching(id, e) => TouchKeepsSite(s, id, e, defaults);
      case Reporting(id, o, why) => ReportKeepsSite(s, id, o, why, defaults);
    }
  }

  lemma {:induction false} RunKeepsSite(s: Site, steps: seq<SiteStep>, defaults: nat -> nat)
    requires SiteOk(s, defaults)
    ensures SiteOk(SiteRun(s, steps, defaults), defaults)
    decreases |steps|
  {
    if steps == [] {
    } else {
      StepKeepsSite(s, steps[0], defaults);
      RunKeepsSite(SiteNext(s, steps[0], defaults), steps[1..], defaults);
    }
  }

  // ---- What follows ----

  /** In any run from a device without commands, at any time after a reimage brought its device back, and until another
      reimage or update is queued: the record names the target if it was applied and the old configuration if that was
      restored, and it agrees with the provider exactly when the restarts since the reimage's last call have left its
      profile as it was. Where none of them broke that is: none came through, or the last one that did carried the
      recorded profile. Each carried that profile or the old one, so after a restored reimage they agree. */
  lemma ReimageAgreesExactlyWhen(s: Site, steps: seq<SiteStep>, id: nat, defaults: nat -> nat)
    requires s.jobs == map[] && s.current == None
    requires var t := SiteRun(s, steps, defaults);
             && t.current == Some(id) && id in t.jobs && t.jobs[id].command.kind == Reimage
             && t.jobs[id].ending.Some? && t.jobs[id].ending.value.found
             && (Applied(t.jobs[id].ending.value.o) || Restored(t.jobs[id].ending.value.o))
    ensures var t := SiteRun(s, steps, defaults);
            var j := t.jobs[id];
            var c := Claimed(j.ending.value.o, Target(j), j.previous);
            && Effective(t.row, defaults) == c
            && (Agrees(t.row, t.running, defaults) <==> ProfileAfter(c.profile, j.since) == Some(c.profile))
            && (Intact(j.since) ==>
                  && (Agrees(t.row, t.running, defaults) <==> LastThrough(j.since) in {None, Some(c.profile)})
                  && (Restored(j.ending.value.o) || c.profile == j.previous.profile ==>
                        Agrees(t.row, t.running, defaults)))
            && (j.since == [] ==> Agrees(t.row, t.running, defaults))
  {
    RunKeepsSite(s, steps, defaults);
    var t := SiteRun(s, steps, defaults);
    var j := t.jobs[id];
    var c := Claimed(j.ending.value.o, Target(j), j.previous);
    if Intact(j.since) {
      IntactRestartsKeepExactlyWhen(c.profile, j.since);
      LastIsAmong(j.since);
    }
  }

  lemma {:induction false} LastIsAmong(es: seq<Touch>)
    ensures LastThrough(es).Some? ==>
              exists i :: 0 <= i < |es| && es[i].CameThrough? && es[i].profile == LastThrough(es).value
  {
    if es == [] || es[|es| - 1].CameThrough? {
    } else {
      var front := es[..|es| - 1];
      LastIsAmong(front);
      if LastThrough(front).Some? {
        var i :| 0 <= i < |front| && front[i].CameThrough? && front[i].profile == LastThrough(front).value;
        assert es[i] == front[i];
      }
    }
  }

  /** The same for profile updates, with one more condition, on the image: the record agrees with the provider exactly
      when it names the image that ran when the update was queued, and the restarts since the update's last call have
      left or brought about the recorded profile. */
  lemma ProfileUpdateAgreesExactlyWhen(s: Site, steps: seq<SiteStep>, id: nat, defaults: nat -> nat)
    requires s.jobs == map[] && s.current == None
    requires var t := SiteRun(s, steps, defaults);
             && t.current == Some(id) && id in t.jobs && t.jobs[id].command.kind == ProfileUpdate
             && t.jobs[id].ending.Some? && t.jobs[id].ending.value.found
             && (Applied(t.jobs[id].ending.value.o) || Restored(t.jobs[id].ending.value.o))
    ensures var t := SiteRun(s, steps, defaults);
            var j := t.jobs[id];
            var c := Claimed(j.ending.value.o, Target(j), j.previous);
            && j.was.Some? && j.made.Some? && Effective(t.row, defaults) == c
            && (Applied(j.ending.value.o) ==> j.made.value.profile == c.profile)
            && (Agrees(t.row, t.running, defaults) <==>
                && c.image == j.was.value.image
                && ProfileAfter(j.made.value.profile, j.since) == Some(c.profile))
  {
    RunKeepsSite(s, steps, defaults);
  }

  /** The restarts beside a reimage or update at work all carry the profile its record names, which is the one from
      before: nothing else is in flight, and the record's configuration stays as it was queued. */
  lemma BesideTheCurrent(s: Site, steps: seq<SiteStep>, i: nat, defaults: nat -> nat)
    requires s.jobs == map[] && s.current == None
    requires AtWork(SiteRun(s, steps, defaults))
    ensures var t := SiteRun(s, steps, defaults);
            var j := t.jobs[t.current.value];
            && SameConfig(t.row, j.queued) && t.running == After(j.made, j.since)
            && (Pending(t, i) && i != t.current.value ==>
                  t.jobs[i].command.kind == Restart && t.jobs[i].command.profile == j.previous.profile)
  {
    RunKeepsSite(s, steps, defaults);
  }
}
