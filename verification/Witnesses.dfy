/** Short runs of the farm, and of farm and commands together, from an initial state to one in which a property
    fails. */
module Witnesses {
  import opened Domain
  import opened Rows
  import opened Scheduling
  import opened Reservations
  import opened Observation
  import opened Completion
  import opened Protocol
  import opened Coupling
  import opened Safety
  import opened Reaper
  import opened Occupancy
  import opened Results
  import opened RecordWitnesses
  import C = Commands

  // ---- A device that is quarantined under an open reservation ----

  const REQUEST := Request(0, "a", 0, ("", ""), 60, None, None, 0, map[])

  /** A farm of one device. */
  function At(now: Clock, l: Lifecycle, h: Health, note: Option<string>, failures: nat,
              reservations: map<ReservationId, Reservation>, rounds: map<nat, Round>): (result: World) {
    World(Policy(0, 3),
          Store(now, map[0 := Pool(true, Android, 3600, 1, false)], map[0 := 0],
                map[0 := Host(HostOnline, false, false)],
                map[0 := Place(false).(lifecycle := l, health := h, reason := note, failures := failures)],
                reservations, map[], map[]),
          rounds, map[], {})
  }

  function Waiting(now: int, d: Option<DeviceId>): (result: Reservation) {
    Reservation(REQUEST, ReservationPending, d, None, None, None, None, now, now)
  }

  function Free(now: Clock, note: Option<string>): (result: World) {
    At(now, DeviceReady, HealthHealthy, note, 0, map[], map[])
  }

  function Wanted(now: Clock, note: Option<string>): (result: World) {
    At(now, DeviceReady, HealthHealthy, note, 0, map[0 := Waiting(now, None)], map[])
  }

  function Taken(now: Clock, note: Option<string>): (result: World) {
    At(now, DeviceReserved, HealthHealthy, note, 0, map[0 := Waiting(now, Some(0))], map[0 := Claimed(0, 0)])
  }

  function Held(now: Clock, note: Option<string>): (result: World) {
    At(now, DeviceQuarantined, HealthUnhealthy, note, 0, map[0 := Waiting(now, Some(0))], map[0 := Claimed(0, 0)])
  }

  const ASK := OfLease(CreateStep(0, REQUEST, ""))
  const RESERVE := OfRound(0, ReserveStep(0, 0))
  const QUARANTINE := OfDevice(0, OperatorQuarantineStep)

  lemma AskCommits(now: Clock, note: Option<string>)
    ensures Next(Free(now, note), ASK) == Wanted(now, note)
  {
  }

  lemma Selects(now: Clock, note: Option<string>)
    ensures var s := Wanted(now, note).db; NextAllocatable(s, 0) && NextDevice(s, s.reservations[0].request, 0)
    ensures ActiveOnHost(Wanted(now, note).db, 0) == {}
  {
    assert Matching(Wanted(now, note).db, REQUEST, 0);
  }

  lemma ReserveCommits(now: Clock, note: Option<string>)
    ensures Next(Wanted(now, note), RESERVE) == Taken(now, note)
  {
    Selects(now, note);
    assert ReserveTx(Wanted(now, note).db, 0, 0) == Commit(Taken(now, note).db);
  }

  lemma QuarantineCommits(now: Clock, note: Option<string>)
    ensures Next(Taken(now, note), QUARANTINE) == Held(now, note)
  {
  }

  lemma RunFirst(w: World, step: Step, rest: seq<Step>)
    ensures Run(w, [step] + rest) == Run(Next(w, step), rest)
  {
    assert ([step] + rest)[1..] == rest;
  }

  lemma RunOfThree(w: World, a: Step, b: Step, c: Step)
    ensures Run(w, [a, b, c]) == Next(Next(Next(w, a), b), c)
  {
    var x := Next(w, a);
    var y := Next(x, b);
    RunFirst(w, a, [b, c]);
    RunFirst(x, b, [c]);
    RunFirst(y, c, []);
    assert [a] + [b, c] == [a, b, c] && [b] + [c] == [b, c] && [c] + [] == [c];
  }

  /** A request is made, a scheduler claims the only device for it, and an administrator quarantines the device. */
  lemma HeldIsReached(now: Clock)
    ensures Initial(Free(now, None))
    ensures Run(Free(now, None), [ASK, RESERVE, QUARANTINE]) == Held(now, None)
  {
    AskCommits(now, None);
    ReserveCommits(now, None);
    QuarantineCommits(now, None);
    RunOfThree(Free(now, None), ASK, RESERVE, QUARANTINE);
  }

  lemma HeldIsCoupled(now: Clock, note: Option<string>)
    ensures Coupled(Held(now, note).db) && HasOpen(Held(now, note).db, 0)
  {
    assert Held(now, note).db.reservations[0].device == Some(0);
  }

  /** Lifting that quarantine leaves the reservation holding a device that is on its way back to the others. */
  lemma UnquarantineBreaks(now: Clock)
    ensures Initial(Free(now, None)) && Run(Free(now, None), [ASK, RESERVE, QUARANTINE]) == Held(now, None)
    ensures !Coupled(Next(Held(now, None), OfDevice(0, UnquarantineStep)).db)
  {
    HeldIsReached(now);
    HeldIsCoupled(now, None);
    StepKeepsCouplingExactlyWhen(Held(now, None), OfDevice(0, UnquarantineStep));
  }

  /** So does restarting the device. */
  lemma RestartBreaks(now: Clock, why: string, active: bool)
    ensures Initial(Free(now, None)) && Run(Free(now, None), [ASK, RESERVE, QUARANTINE]) == Held(now, None)
    ensures !Coupled(Next(Held(now, None), OfDevice(0, QueueStep(Restart, why, active))).db)
  {
    HeldIsReached(now);
    HeldIsCoupled(now, None);
    StepKeepsCouplingExactlyWhen(Held(now, None), OfDevice(0, QueueStep(Restart, why, active)));
  }

  // ---- A profile update that outlives its device's return ----

  const SPEC := C.Spec(0, "restart", "", 1, "k")
  const ORDER := Ordering(0, 0, ProfileUpdate, "", SPEC)
  const FAILURE := OfDevice(0, ReportStep(Report(Failing, false, STF_NOT_VISIBLE, false, false, false)))
  const RECOVERY := OfDevice(0, ReportStep(Report(Info, true, "STF visibility recovered", false, false, false)))
  const LEASE := Leasing(0, 0, "t", 60)
  const REPORT := Reporting(0, C.Report("t", 1, CommandSucceeded, "", None, false), Some(RESULT), "")

  function Begin(now: Clock): (result: Linked) {
    Linked(Free(now, None), C.Table(now, map[]), map[])
  }

  /** The command of the update beside a farm in some state. */
  function Beside(now: Clock, w: World): (result: Linked) {
    Linked(w, C.Table(now, map[0 := C.Row(SPEC, CommandPending, None, 0, None, None, None, now)]),
           map[0 := Order(0, ProfileUpdate, DeviceProvisioning)])
  }

  function Leased(now: Clock): (result: Linked) {
    Linked(Held(now, BACK),
           C.Table(now, map[0 := C.Row(SPEC, CommandLeased, Some(C.Lease("t", now + 60)), 1, None, None, None, now)]),
           map[0 := Order(0, ProfileUpdate, DeviceProvisioning)])
  }

  /** The device after some reports that STF does not see it. */
  function Unseen(now: Clock, l: Lifecycle, h: Health, failures: nat): (result: World) {
    At(now, l, h, Some(STF_NOT_VISIBLE), failures, map[], map[])
  }

  const BACK: Option<string> := Some("STF visibility recovered")

  lemma NoteIsPlain()
    ensures TrimSpace(STF_NOT_VISIBLE) == STF_NOT_VISIBLE && TrimSpace(BACK.value) == BACK.value
    ensures STF_NOT_VISIBLE != "" && BACK.value != ""
  {
    assert Plain(STF_NOT_VISIBLE) && Plain(BACK.value);
    PlainTrims(STF_NOT_VISIBLE);
    PlainTrims(BACK.value);
  }

  lemma ReportNext(w: World, d: DeviceId, i: Report, t: State)
    requires ReportTx(w.db, d, i, w.policy.threshold) == Commit(t)
    ensures Next(w, OfDevice(d, ReportStep(i))) == w.(db := t)
  {
  }

  lemma FailureReports(now: Clock, l: Lifecycle, h: Health, note: Option<string>, n: nat)
    requires l in {DeviceReady, DeviceProvisioning}
    ensures ReportTx(At(now, l, h, note, n, map[], map[]).db, 0, FAILURE.device.report, 3)
            == Commit(Unseen(now, if n + 1 >= 3 then DeviceQuarantined else l, HealthUnhealthy, n + 1).db)
  {
    NoteIsPlain();
  }

  /** Two reports count without isolating the device. */
  lemma DeviceFails(now: Clock, h: Health, note: Option<string>, n: nat)
    requires n < 2
    ensures Next(At(now, DeviceReady, h, note, n, map[], map[]), FAILURE)
            == Unseen(now, DeviceReady, HealthUnhealthy, n + 1)
  {
    FailureReports(now, DeviceReady, h, note, n);
    ReportNext(At(now, DeviceReady, h, note, n, map[], map[]), 0, FAILURE.device.report,
               Unseen(now, DeviceReady, HealthUnhealthy, n + 1).db);
  }

  function Alone(now: Clock): (result: Linked) {
    Linked(Unseen(now, DeviceReady, HealthUnhealthy, 2), C.Table(now, map[]), map[])
  }

  lemma UpdateMovesDevice(now: Clock)
    ensures var step := QueueOf(Alone(now), 0, ProfileUpdate, "");
            && Transact(Alone(now).world, step).Commit?
            && Next(Alone(now).world, step) == Unseen(now, DeviceProvisioning, HealthUnknown, 2)
  {
    assert !HasOpen(Alone(now).world.db, 0);
    assert !InFlight(Alone(now), 0, ANY);
  }

  lemma UpdateIsQueued(now: Clock)
    ensures LinkedNext(Alone(now), ORDER) == Beside(now, Unseen(now, DeviceProvisioning, HealthUnknown, 2))
  {
    UpdateMovesDevice(now);
    OrderCommits(Alone(now), 0, 0, ProfileUpdate, "", SPEC);
  }

  /** The third report, by a reconciler that read the device before the update was queued, reaches the threshold. */
  lemma DeviceIsIsolated(now: Clock)
    ensures Next(Unseen(now, DeviceProvisioning, HealthUnknown, 2), FAILURE)
            == Unseen(now, DeviceQuarantined, HealthUnhealthy, 3)
  {
    FailureReports(now, DeviceProvisioning, HealthUnknown, Some(STF_NOT_VISIBLE), 2);
    ReportNext(Unseen(now, DeviceProvisioning, HealthUnknown, 2), 0, FAILURE.device.report,
               Unseen(now, DeviceQuarantined, HealthUnhealthy, 3).db);
  }

  lemma RecoveryReports(now: Clock)
    ensures ReportTx(Unseen(now, DeviceQuarantined, HealthUnhealthy, 3).db, 0, RECOVERY.device.report, 3)
            == Commit(Free(now, BACK).db)
  {
    NoteIsPlain();
    assert IsSystemRecoverable(STF_NOT_VISIBLE);
    assert AssignmentTarget(Unseen(now, DeviceQuarantined, HealthUnhealthy, 3).db, 0) == None;
  }

  lemma DeviceRecovers(now: Clock)
    ensures Next(Unseen(now, DeviceQuarantined, HealthUnhealthy, 3), RECOVERY) == Free(now, BACK)
  {
    RecoveryReports(now);
    ReportNext(Unseen(now, DeviceQuarantined, HealthUnhealthy, 3), 0, RECOVERY.device.report, Free(now, BACK).db);
  }

  /** A step of the farm before there is any command. */
  lemma AloneNext(now: Clock, w: World, step: Step)
    requires Admissible(Linked(w, C.Table(now, map[]), map[]), step) && !step.Tick?
    ensures LinkedNext(Linked(w, C.Table(now, map[]), map[]), Farming(step))
            == Linked(Next(w, step), C.Table(now, map[]), map[])
  {
  }

  /** A step of the farm beside the waiting command. */
  lemma BesideNext(now: Clock, w: World, step: Step)
    requires Admissible(Beside(now, w), step) && !step.Tick?
    ensures LinkedNext(Beside(now, w), Farming(step)) == Beside(now, Next(w, step))
  {
  }

  lemma CommandIsLeased(now: Clock)
    ensures LinkedNext(Beside(now, Held(now, BACK)), LEASE) == Leased(now)
  {
  }

  lemma LinkedRunFirst(l: Linked, step: LinkedStep, rest: seq<LinkedStep>)
    ensures LinkedRun(l, [step] + rest) == LinkedRun(LinkedNext(l, step), rest)
  {
    assert ([step] + rest)[1..] == rest;
  }

  lemma LinkedRunOfThree(l: Linked, a: LinkedStep, b: LinkedStep, c: LinkedStep, rest: seq<LinkedStep>)
    ensures LinkedRun(l, [a, b, c] + rest) == LinkedRun(LinkedNext(LinkedNext(LinkedNext(l, a), b), c), rest)
  {
    var m := LinkedNext(l, a);
    LinkedRunFirst(l, a, [b, c] + rest);
    LinkedRunFirst(m, b, [c] + rest);
    LinkedRunFirst(LinkedNext(m, b), c, rest);
    assert [a] + ([b, c] + rest) == [a, b, c] + rest;
    assert [b] + ([c] + rest) == [b, c] + rest;
  }

  lemma FirstFailure(now: Clock)
    ensures LinkedNext(Begin(now), Farming(FAILURE))
            == Linked(Unseen(now, DeviceReady, HealthUnhealthy, 1), C.Table(now, map[]), map[])
  {
    DeviceFails(now, HealthHealthy, None, 0);
    AloneNext(now, Free(now, None), FAILURE);
  }

  lemma SecondFailure(now: Clock)
    ensures LinkedNext(Linked(Unseen(now, DeviceReady, HealthUnhealthy, 1), C.Table(now, map[]), map[]),
                       Farming(FAILURE))
            == Alone(now)
  {
    DeviceFails(now, HealthUnhealthy, Some(STF_NOT_VISIBLE), 1);
    AloneNext(now, Unseen(now, DeviceReady, HealthUnhealthy, 1), FAILURE);
  }

  lemma DeviceIsUnseen(now: Clock)
    ensures LinkedNext(LinkedNext(Begin(now), Farming(FAILURE)), Farming(FAILURE)) == Alone(now)
  {
    FirstFailure(now);
    SecondFailure(now);
  }

  lemma UpdateWaits(now: Clock)
    ensures LinkedNext(LinkedNext(LinkedNext(Begin(now), Farming(FAILURE)), Farming(FAILURE)), ORDER)
            == Beside(now, Unseen(now, DeviceProvisioning, HealthUnknown, 2))
  {
    DeviceIsUnseen(now);
    UpdateIsQueued(now);
  }

  lemma DeviceComesBack(now: Clock)
    ensures LinkedNext(LinkedNext(LinkedNext(Beside(now, Unseen(now, DeviceProvisioning, HealthUnknown, 2)),
                                             Farming(FAILURE)), Farming(RECOVERY)), Farming(ASK))
            == Beside(now, Wanted(now, BACK))
  {
    DeviceIsIsolated(now);
    BesideNext(now, Unseen(now, DeviceProvisioning, HealthUnknown, 2), FAILURE);
    DeviceRecovers(now);
    BesideNext(now, Unseen(now, DeviceQuarantined, HealthUnhealthy, 3), RECOVERY);
    AskCommits(now, BACK);
    BesideNext(now, Free(now, BACK), ASK);
  }

  lemma DeviceIsHeld(now: Clock)
    ensures LinkedNext(LinkedNext(LinkedNext(Beside(now, Wanted(now, BACK)), Farming(RESERVE)), Farming(QUARANTINE)),
                       LEASE)
            == Leased(now)
  {
    ReserveCommits(now, BACK);
    BesideNext(now, Wanted(now, BACK), RESERVE);
    QuarantineCommits(now, BACK);
    BesideNext(now, Taken(now, BACK), QUARANTINE);
    CommandIsLeased(now);
  }

  /** STF loses sight of a device, and an update is queued on it. A report that was under way isolates the device; then
      STF sees it again, a reservation claims it and an administrator quarantines it, all while the command waits.
      Then the command is leased. */
  lemma LeasedIsReached(now: Clock)
    ensures Initial(Begin(now).world) && Begin(now).table.rows == map[] && Begin(now).orders == map[]
    ensures LinkedRun(Begin(now), [Farming(FAILURE), Farming(FAILURE), ORDER] +
                                  ([Farming(FAILURE), Farming(RECOVERY), Farming(ASK)] +
                                   ([Farming(RESERVE), Farming(QUARANTINE), LEASE] + [])))
            == Leased(now)
  {
    UpdateWaits(now);
    DeviceComesBack(now);
    DeviceIsHeld(now);
    var third := [Farming(RESERVE), Farming(QUARANTINE), LEASE] + [];
    var second := [Farming(FAILURE), Farming(RECOVERY), Farming(ASK)] + third;
    LinkedRunOfThree(Begin(now), Farming(FAILURE), Farming(FAILURE), ORDER, second);
    LinkedRunOfThree(Beside(now, Unseen(now, DeviceProvisioning, HealthUnknown, 2)),
                     Farming(FAILURE), Farming(RECOVERY), Farming(ASK), third);
    LinkedRunOfThree(Beside(now, Wanted(now, BACK)), Farming(RESERVE), Farming(QUARANTINE), LEASE, []);
  }

  lemma ReportIsAccepted(now: Clock)
    ensures var t := C.CompleteTx(Leased(now).table, 0, REPORT.report);
            t.Some? && 0 in t.value.rows && t.value.rows[0].status == CommandSucceeded
  {
  }

  lemma ReportIsCareless(now: Clock)
    ensures CarelessStep(Leased(now).world, CompletionOf(Leased(now).orders[0], APPLIED, ""))
    ensures Coupled(Leased(now).world.db)
  {
    HeldIsCoupled(now, BACK);
  }

  /** The completion of that command takes the device out of quarantine under the reservation. Every step is one the
      code makes; the last one breaks the coupling. */
  lemma CompletionBreaks(now: Clock)
    ensures Coupled(Leased(now).world.db) && LinkedTx(Leased(now), REPORT).Some?
    ensures !Coupled(LinkedNext(Leased(now), REPORT).world.db)
  {
    ReportIsAccepted(now);
    ReportIsCareless(now);
    CarelessReport(Leased(now), 0, REPORT.report, REPORT.result, "");
  }

  // ---- An abandoned claim on a quarantined device ----

  function Abandoned(now: Clock, grace: nat): (result: World) {
    var w := Held(now, None);
    w.(db := w.db.(now := now + grace), rounds := map[0 := Idle])
  }

  lemma GracePasses(now: Clock, grace: nat)
    ensures Next(Next(Held(now, None), OfRound(0, DieStep)), Tick(grace)) == Abandoned(now, grace)
  {
  }

  /** The scheduler dies, the grace passes, and still the sweep does not release the claim. */
  lemma OrphanIsRefused(now: Clock, grace: nat)
    ensures Next(Next(Held(now, None), OfRound(0, DieStep)), Tick(grace)) == Abandoned(now, grace)
    ensures DueOrphan(Abandoned(now, grace).db, 0, grace)
    ensures OrphanTx(Abandoned(now, grace).db, 0, grace) == Rollback(ErrNotFound)
  {
    GracePasses(now, grace);
  }

  /** Two abandoned claims of the same age: the sweep picks the one on the quarantined device and is refused, although
      the other one could be released. */
  lemma OneOrphanBlocksAnother(now: Clock)
    ensures var both := Crowded(now, 2);
            var s := both.(devices := both.devices[0 := both.devices[0].(lifecycle := DeviceQuarantined)]);
            && DueOrphan(s, 0, 0) && DueOrphan(s, 1, 0)
            && Before(s.reservations[0].updated, 0, s.reservations[1].updated, 1)
            && OrphanTx(s, 0, 0).Rollback? && OrphanTx(s, 1, 0).Commit?
  {
  }
}
