/** The farm as one state machine: the store, the local state of the loops that work on it,
    and every transaction as one step. A loop that searches without a lock and re-checks under
    one takes two steps, so anything may happen in between. */
module Protocol {
  import opened Domain
  import opened Rows
  import opened Scheduling
  import opened Reservations
  import opened Observation
  import opened Grants
  import opened Completion

  /** A scheduling round between its transactions: the claim it selected. */
  datatype Round = Idle | Claimed(r: ReservationId, d: DeviceId) | Undoing(r: ReservationId, d: DeviceId)

  /** An expiry sweep between its steps: found, the upstream session read, cleaned. */
  datatype Sweep =
    | Resting
    | Found(r: ReservationId)
    | Deleting(r: ReservationId, id: string)
    | Cleaned(r: ReservationId)

  /** Durations the sweeps and the reconciler are configured with. */
  datatype Policy = Policy(grace: nat, threshold: nat)

  /** `issued` remembers every grant text ever handed out, to say what a fresh one is. */
  datatype World = World(policy: Policy, db: State, rounds: map<nat, Round>, sweeps: map<nat, Sweep>,
                         issued: set<string>)

  datatype RoundStep =
    | ReserveStep(r: ReservationId, d: DeviceId)
    | ActivateStep(session: SessionId)
    | UndoStep(code: string, terminal: bool)
    | DieStep

  datatype LeaseStep =
    | CreateStep(r: ReservationId, q: Request, actor: string)
    | ExtendStep(client: nat, key: string, r: ReservationId, seconds: int)
    | KeepAliveStep(r: ReservationId, manual: string, d: DeviceId, seconds: int)
    | ReleaseStep(client: nat, console: Option<string>, key: string, r: ReservationId, why: string, force: bool)
    | StaleStep(r: ReservationId, timeout: nat, claimGrace: nat)
    | OrphanStep(r: ReservationId, claimGrace: nat)

  datatype SweepStep =
    | FindStep(r: ReservationId)
    | ReadStep
    | DeletedStep
    | FailStep
    | CloseStep

  datatype DeviceStep =
    | HeartbeatStep(o: Discovered, inFlight: bool)
    | MissingStep(unseen: int, inFlight: bool)
    | ReportStep(report: Report)
    | DriftStep(why: string)
    | OperatorQuarantineStep
    | UnquarantineStep
    | QueueStep(kind: CommandKind, why: string, active: bool)
    | CompleteStep(command: CommandKind, state: Lifecycle, outcome: CommandOutcome, note: string)

  datatype FenceStep =
    | IssueStep(client: nat, owner: (string, string), ttl: int)
    | ConsumeStep(host: HostId, pinned: bool)
    | BindStep(host: HostId, id: string)
    | EndStep(host: HostId, id: string)
    | CleanStep(id: string)

  datatype Step =
    | Tick(microseconds: nat)
    | HostChanges(h: HostId, host: Host)
    | OfRound(worker: nat, round: RoundStep)
    | OfLease(lease: LeaseStep)
    | OfSweep(sweeper: nat, sweep: SweepStep)
    | OfDevice(d: DeviceId, device: DeviceStep)
    | OfFence(r: ReservationId, grant: string, fence: FenceStep)

  function RoundOf(w: World, worker: nat): (result: Round) {
    if worker in w.rounds then w.rounds[worker] else Idle
  }

  function SweepOf(w: World, sweeper: nat): (result: Sweep) {
    if sweeper in w.sweeps then w.sweeps[sweeper] else Resting
  }

  // ---- The transaction of each step ----

  function RoundTx(s: State, round: Round, step: RoundStep): (result: Outcome) {
    match step
    case ReserveStep(r, d) => if round == Idle then ReserveTx(s, r, d) else Rollback(ErrConflict)
    case ActivateStep(id) => if round.Claimed? then ActivateTx(s, round.r, round.d, id) else Rollback(ErrConflict)
    case UndoStep(code, terminal) => if round == Idle then Rollback(ErrConflict)
        else CompensateTx(s, round.r, round.d, code, terminal)
    case DieStep => Commit(s)
  }

  function LeaseTx(s: State, step: LeaseStep): (result: Outcome) {
    match step
    case CreateStep(r, q, actor) => CreateTx(s, r, q, actor)
    case ExtendStep(client, key, r, seconds) => ExtendTx(s, client, key, r, seconds)
    case KeepAliveStep(r, owner, d, seconds) => KeepAliveTx(s, r, owner, d, seconds)
    case ReleaseStep(client, console, key, r, why, force) => ReleaseTx(s, client, console, key, r, why, force)
    case StaleStep(r, timeout, claimGrace) => StaleTx(s, r, timeout, claimGrace)
    case OrphanStep(r, claimGrace) => OrphanTx(s, r, claimGrace)
  }

  function SweepTx(s: State, sweep: Sweep, step: SweepStep, grace: nat): (result: Outcome) {
    match step
    case FindStep(r) => Commit(s)
    case ReadStep => Commit(s)
    case DeletedStep => if sweep.Deleting? then CleanupTx(s, sweep.r, sweep.id) else Rollback(ErrConflict)
    case FailStep =>
      if sweep.Deleting? && sweep.r in s.sessions then DriftTx(s, s.sessions[sweep.r].device, IOS_CLEANUP_FAILED)
          else Commit(s)
    case CloseStep => if sweep.Cleaned? then ReapTx(s, sweep.r, grace) else Rollback(ErrConflict)
  }

  /** The device side of a completion; `why` is what the handler notes when the device does not come back. */
  function CompleteTx(s: State, d: DeviceId, kind: CommandKind, state: Lifecycle, outcome: CommandOutcome,
                      why: string): (result: Outcome) {
    if d !in s.devices then Commit(s)
    else EffectTx(s, d, CompletionEffect(kind, state, s.devices[d].lifecycle, s.devices[d].health, outcome), kind,
                  outcome, why)
  }

  function EffectTx(s: State, d: DeviceId, e: Effect, kind: CommandKind, outcome: CommandOutcome,
                    why: string): (result: Outcome)
    requires d in s.devices
  {
    match e
    case Skipped => Commit(s)
    case Refused => Rollback(ErrInvalidTransition)
    case Sets(l, h) =>
      var (reason, failures) := Note(kind, l, h, outcome, why, s.devices[d].failures);
      Commit(s.(devices := s.devices[d := s.devices[d].(
                  lifecycle := l, health := h, reason := reason, failures := failures)]))
  }

  /** A command is completed with an operation state it can have been queued with. */
  function DeviceTx(s: State, d: DeviceId, step: DeviceStep, threshold: nat): (result: Outcome) {
    match step
    case HeartbeatStep(o, inFlight) => HeartbeatTx(s, d, o, inFlight)
    case MissingStep(unseen, inFlight) => MissingTx(s, d, unseen, inFlight)
    case ReportStep(report) => ReportTx(s, d, report, threshold)
    case DriftStep(why) => DriftTx(s, d, why)
    case OperatorQuarantineStep => OperatorQuarantineTx(s, d)
    case UnquarantineStep => UnquarantineTx(s, d)
    case QueueStep(kind, why, active) => QueueTx(s, d, kind, why, active)
    case CompleteStep(kind, state, outcome, note) =>
      if !Produces(kind, state) then Rollback(ErrConflict) else CompleteTx(s, d, kind, state, outcome, note)
  }

  function FenceTx(s: State, issued: set<string>, r: ReservationId, grant: string, step: FenceStep): (result: Outcome) {
    match step
    case IssueStep(client, owner, ttl) => if grant in issued then Rollback(ErrUniqueViolation)
        else IssueTx(s, r, client, owner, ttl, grant)
    case ConsumeStep(h, pinned) => ConsumeTx(s, r, grant, h, pinned)
    case BindStep(h, id) => BindTx(s, r, grant, h, id)
    case EndStep(h, id) => CloseSessionTx(s, r, grant, h, id)
    case CleanStep(id) => CleanupTx(s, r, id)
  }

  function Transact(w: World, step: Step): (result: Outcome) {
    match step
    case Tick(n) => Commit(w.db.(now := w.db.now + n))
    case HostChanges(h, host) =>
      if h in w.db.hosts then Commit(w.db.(hosts := w.db.hosts[h := host])) else Rollback(ErrNotFound)
    case OfRound(k, round) => RoundTx(w.db, RoundOf(w, k), round)
    case OfLease(lease) => LeaseTx(w.db, lease)
    case OfSweep(k, sweep) => SweepTx(w.db, SweepOf(w, k), sweep, w.policy.grace)
    case OfDevice(d, device) => DeviceTx(w.db, d, device, w.policy.threshold)
    case OfFence(r, grant, fence) => FenceTx(w.db, w.issued, r, grant, fence)
  }

  // ---- The local state of the loops ----

  function NextRound(round: Round, step: RoundStep, committed: bool): (result: Round) {
    match step
    case ReserveStep(r, d) => if committed then Claimed(r, d) else round
    case ActivateStep(id) => if !round.Claimed? then round else if committed then Idle else Undoing(round.r, round.d)
    case _ => Idle
  }

  function NextSweep(s: State, sweep: Sweep, step: SweepStep, grace: nat): (result: Sweep) {
    match step
    case FindStep(r) => if sweep == Resting && FindsExpired(s, r, grace) then Found(r) else sweep
    case ReadStep =>
      if !sweep.Found? then sweep
      else if NeedsCleanup(s, sweep.r) then Deleting(sweep.r, s.sessions[sweep.r].appium.value.id)
      else Cleaned(sweep.r)
    case DeletedStep => if sweep.Deleting? then Cleaned(sweep.r) else sweep
    case FailStep => Resting
    case CloseStep => if sweep.Cleaned? then Resting else sweep
  }

  function Next(w: World, step: Step): (result: World) {
    var outcome := Transact(w, step);
    w.(db := outcome.After(w.db),
       rounds := if step.OfRound? then w.rounds[step.worker := NextRound(RoundOf(w, step.worker), step.round,
           outcome.Commit?)] else w.rounds,
       sweeps := if step.OfSweep? then w.sweeps[step.sweeper := NextSweep(w.db, SweepOf(w, step.sweeper), step.sweep,
           w.policy.grace)] else w.sweeps,
       issued := if step.OfFence? && step.fence.IssueStep? && outcome.Commit? then w.issued + {step.grant}
           else w.issued)
  }

  /** The world after a whole run. */
  function Run(w: World, steps: seq<Step>): (result: World)
    decreases |steps|
  {
    if steps == [] then w else Run(Next(w, steps[0]), steps[1..])
  }

  // ---- What each kind of step can touch ----

  /** Where a device is and what it is never changes. */
  ghost predicate SameDevices(s: State, t: State) {
    && t.devices.Keys == s.devices.Keys
    && forall d :: d in s.devices ==>
                     t.devices[d].host == s.devices[d].host && t.devices[d].platform == s.devices[d].platform
  }

  /** Device steps write one device row and nothing else. */
  ghost predicate OnlyDevice(s: State, t: State, d: DeviceId) {
    && t == s.(devices := t.devices)
    && (t.devices == s.devices
        || (d in s.devices && d in t.devices && t.devices == s.devices[d := t.devices[d]]
            && t.devices[d].host == s.devices[d].host && t.devices[d].platform == s.devices[d].platform
            && t.devices[d].pool in {s.devices[d].pool, None}))
  }

  lemma HeartbeatTouches(s: State, d: DeviceId, o: Discovered, inFlight: bool)
    requires HeartbeatTx(s, d, o, inFlight).Commit?
    ensures OnlyDevice(s, HeartbeatTx(s, d, o, inFlight).post, d)
  {
  }

  lemma ReportTouches(s: State, d: DeviceId, i: Report, threshold: nat)
    requires ReportTx(s, d, i, threshold).Commit?
    ensures OnlyDevice(s, ReportTx(s, d, i, threshold).post, d)
  {
  }

  lemma CompleteTouches(s: State, d: DeviceId, kind: CommandKind, state: Lifecycle, outcome: CommandOutcome,
                        why: string)
    requires CompleteTx(s, d, kind, state, outcome, why).Commit?
    ensures OnlyDevice(s, CompleteTx(s, d, kind, state, outcome, why).post, d)
  {
  }

  lemma DeviceStepsTouch(s: State, d: DeviceId, step: DeviceStep, threshold: nat)
    requires DeviceTx(s, d, step, threshold).Commit?
    ensures OnlyDevice(s, DeviceTx(s, d, step, threshold).post, d)
  {
    match step
    case HeartbeatStep(o, inFlight) => HeartbeatTouches(s, d, o, inFlight);
    case ReportStep(report) => ReportTouches(s, d, report, threshold);
    case CompleteStep(kind, state, outcome, note) => CompleteTouches(s, d, kind, state, outcome, note);
    case _ =>
  }

  /** Fence steps write one session row and nothing else, and keep what the session belongs to. */
  ghost predicate OnlySession(s: State, t: State, r: ReservationId) {
    && t == s.(sessions := t.sessions)
    && (t == s
        || (r in s.sessions && r in t.sessions && t.sessions == s.sessions[r := t.sessions[r]]
            && t.sessions[r] == s.sessions[r].(grant := t.sessions[r].grant, appium := t.sessions[r].appium)))
  }

  lemma FenceStepsTouch(s: State, issued: set<string>, r: ReservationId, grant: string, step: FenceStep)
    requires FenceTx(s, issued, r, grant, step).Commit?
    ensures OnlySession(s, FenceTx(s, issued, r, grant, step).post, r)
  {
  }
}
