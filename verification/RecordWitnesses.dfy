/** Histories of one device record and its provider after which the record no longer says what runs. */
module RecordWitnesses {
  import opened Domain
  import opened Rows
  import opened Observation
  import opened Completion
  import opened Agent
  import opened Configuration

  // ---- A reimage that is applied under quarantine ----

  const RESULT := AgentResult(false, StateRunning, 1, "serial", "adb", "appium", "udid", true, true, true, true, None,
                              false, true, false)
  const APPLIED := CommandOutcome(CommandSucceeded, Some(RESULT))

  const OLD := Config(0, 0)
  const NEW := Config(1, 1)

  const IDLE := Record(DeviceReady, HealthHealthy, None, 0, 0, Some(0), None, None, ChangeIdle, ChangeIdle)

  /** What an administrator's quarantine leaves of a record. */
  function Isolate(x: Record): (result: Record) {
    x.(lifecycle := DeviceQuarantined, health := HealthUnhealthy)
  }

  /** The record after a reimage to the new configuration that was applied while an administrator had the device
      quarantined: its completion finds the device elsewhere and leaves it alone. */
  function Diverged(why: string): (result: Option<Record>) {
    Completed(Isolate(QueueReimage(IDLE, NEW).value.0), QueueReimage(IDLE, NEW).value.1, APPLIED, why)
  }

  lemma ReimageDiverges(why: string, defaults: nat -> nat)
    ensures Agrees(IDLE, Some(OLD), defaults) && Reports(APPLIED, NEW, OLD, Some(NEW))
    ensures Diverged(why).Some? && Diverged(why).value.lifecycle == DeviceQuarantined
    ensures Effective(Diverged(why).value, defaults) == OLD && !Agrees(Diverged(why).value, Some(NEW), defaults)
  {
  }

  /** A profile update is accepted on that device. It is applied to what runs, and puts the device back to `ready`
      with an image in its record that it does not run. */
  lemma ProfileUpdateReadiesTheWrongImage(why: string, defaults: nat -> nat)
    ensures Diverged(why).Some? && QueueProfile(Diverged(why).value, 2).Some?
    ensures ProfileReports(APPLIED, Some(NEW), 2, 0, Some(NEW.(profile := 2)))
    ensures var queued := QueueProfile(Diverged(why).value, 2).value;
            var y := Completed(queued.0, queued.1, APPLIED, why);
            && y.Some? && y.value.lifecycle == DeviceReady
            && Effective(y.value, defaults) == Config(0, 2)
            && !Agrees(y.value, Some(NEW.(profile := 2)), defaults)
  {
  }

  // ---- Restarts beside a reimage or an update ----

  const QUARANTINED := Moving(DeviceQuarantined, HealthUnhealthy, None, 0)

  /** A device whose record agrees with its provider. */
  const SITE := Site(IDLE, Some(OLD), map[], None)

  /** The device while the reimage's target runs, and an administrator has quarantined the device. */
  function Reimaged(): (result: Site) {
    var (x, c) := QueueReimage(IDLE, NEW).value;
    Site(Isolate(x), Some(NEW), map[0 := Job(c, x, OLD, Some(OLD), Some(NEW), [], None)], Some(0))
  }

  lemma ReimagedIsReached(defaults: nat -> nat)
    ensures SiteNext(SiteNext(SiteNext(SITE, Reimaging(0, NEW), defaults), Making(NEW), defaults),
                     QUARANTINED, defaults)
            == Reimaged()
  {
    var (x, c) := QueueReimage(IDLE, NEW).value;
    var queued := Site(x, Some(OLD), map[0 := Job(c, x, OLD, Some(OLD), Some(OLD), [], None)], Some(0));
    assert SiteNext(SITE, Reimaging(0, NEW), defaults) == queued;
    assert SiteNext(queued, Making(NEW), defaults)
        == queued.(running := Some(NEW), jobs := map[0 := Job(c, x, OLD, Some(OLD), Some(NEW), [], None)]);
  }

  /** The restart is queued with the profile of the record, which is the old one. */
  function Restarted(): (result: Site) {
    var s := Reimaged();
    s.(row := s.row.(lifecycle := DeviceProvisioning, health := HealthUnknown),
       jobs := s.jobs[1 := Job(Command(Restart, DeviceProvisioning, 0, 0), s.row, OLD, Some(NEW), Some(NEW), [], None)])
  }

  lemma RestartIsQueued(defaults: nat -> nat)
    ensures SiteNext(Reimaged(), SiteStep.Restarting(1), defaults) == Restarted()
  {
  }

  /** A reimage makes its target, the device is quarantined and restarted, and the restart does `e`. The reimage then
      completes on a device in `provisioning`, puts it to `ready` and records the target; what runs is what the restart
      has left. */
  lemma RestartBesideReimage(e: Touch, why: string, defaults: nat -> nat)
    requires e.CameThrough? ==> e.profile == 0
    ensures var s := SiteNext(SiteNext(Restarted(), Touching(1, e), defaults), Reporting(0, APPLIED, why), defaults);
            && s.row.lifecycle == DeviceReady && Effective(s.row, defaults) == NEW && s.running == After(Some(NEW), [e])
  {
    var s := Restarted();
    var t := Touched(s, e);
    assert SiteNext(s, Touching(1, e), defaults) == t;
    assert Truthful(t.jobs[0], APPLIED);
  }

  /** The restart comes through: the recorded profile does not run. */
  lemma RestartDuringReimageDiverges(why: string, defaults: nat -> nat)
    ensures var s := SiteNext(SiteNext(Restarted(), Touching(1, CameThrough(0)), defaults),
                              Reporting(0, APPLIED, why), defaults);
            s.row.lifecycle == DeviceReady && s.running == Some(Config(1, 0)) && !Agrees(s.row, s.running, defaults)
  {
    RestartBesideReimage(CameThrough(0), why, defaults);
    assert [CameThrough(0)][..0] == [];
  }

  /** The restart breaks after the old container is gone: the device is `ready` and nothing runs. */
  lemma BrokenRestartReadiesNothing(why: string, defaults: nat -> nat)
    ensures var s := SiteNext(SiteNext(Restarted(), Touching(1, Broke(None)), defaults),
                              Reporting(0, APPLIED, why), defaults);
            s.row.lifecycle == DeviceReady && s.running == None
  {
    RestartBesideReimage(Broke(None), why, defaults);
    assert [Touch.Broke(None)][..0] == [];
  }

  /** The same beside a profile update on a device whose recorded image is the one that runs. */
  function Updated(): (result: Site) {
    var (x, c) := QueueProfile(IDLE, 2).value;
    Site(x, Some(Config(0, 2)),
         map[0 := Job(c, x, OLD, Some(OLD), Some(Config(0, 2)), [], None),
             1 := Job(Command(Restart, DeviceProvisioning, 0, 0), Isolate(x), OLD, Some(Config(0, 2)),
                      Some(Config(0, 2)), [], None)],
         Some(0))
  }

  lemma UpdatedIsReached(defaults: nat -> nat)
    ensures SiteNext(SiteNext(SiteNext(SiteNext(SITE, Updating(0, 2), defaults), Making(Config(0, 2)), defaults),
                              QUARANTINED, defaults), SiteStep.Restarting(1), defaults)
            == Updated()
  {
    var (x, c) := QueueProfile(IDLE, 2).value;
    var queued := Site(x, Some(OLD), map[0 := Job(c, x, OLD, Some(OLD), Some(OLD), [], None)], Some(0));
    var made := queued.(running := Some(Config(0, 2)),
                        jobs := map[0 := Job(c, x, OLD, Some(OLD), Some(Config(0, 2)), [], None)]);
    assert SiteNext(SITE, Updating(0, 2), defaults) == queued;
    assert SiteNext(queued, Making(Config(0, 2)), defaults) == made;
  }

  /** The restart comes through before the update reports. */
  lemma UpdateIsTouched(defaults: nat -> nat)
    ensures SiteNext(Updated(), Touching(1, CameThrough(0)), defaults) == Touched(Updated(), CameThrough(0))
    ensures Touched(Updated(), CameThrough(0)).running == Some(OLD)
    ensures Truthful(Touched(Updated(), CameThrough(0)).jobs[0], APPLIED)
  {
    assert [CameThrough(0)][..0] == [];
    assert ProfileReports(APPLIED, Some(OLD), 2, 0, Touched(Updated(), CameThrough(0)).jobs[0].made);
  }

  lemma RestartDuringUpdateDiverges(why: string, defaults: nat -> nat)
    ensures var s := SiteNext(SiteNext(Updated(), Touching(1, CameThrough(0)), defaults),
                              Reporting(0, APPLIED, why), defaults);
            && s.row.lifecycle == DeviceReady && s.row.image == s.running.value.image
            && Effective(s.row, defaults) == Config(0, 2) && s.running == Some(OLD)
  {
    UpdateIsTouched(defaults);
  }
}
