/** Commands and the devices they act on, together: a command is queued in the transaction that moves its device,
    and the transaction that ends it applies its result (internal/management/postgres/store.go,
    internal/hostcommand/service.go). The device side is the farm of `Protocol`, the command side the table of
    `Commands`. */
module Results {
  import opened Domain
  import opened Rows
  import opened Scheduling
  import opened Reservations
  import opened Observation
  import opened Completion
  import opened Protocol
  import opened Coupling
  import C = Commands

  /** The part of a command's payload that names its device and what it was queued for. */
  datatype Order = Order(device: DeviceId, kind: CommandKind, state: Lifecycle)

  datatype Linked = Linked(world: World, table: C.Table, orders: map<C.CommandId, Order>)

  datatype LinkedStep =
    | Farming(step: Step)
    | Ordering(id: C.CommandId, d: DeviceId, kind: CommandKind, why: string, spec: C.Spec)
    | Unrelated(id: C.CommandId, spec: C.Spec)
    | Leasing(host: HostId, id: C.CommandId, token: string, lease: nat)
    | Renewing(id: C.CommandId, token: string, attempt: nat, lease: nat)
    | Reporting(id: C.CommandId, report: C.Report, result: Option<AgentResult>, why: string)
    | Recovering(id: C.CommandId, why: string)

  predicate Pending(l: Linked, id: C.CommandId) {
    id in l.orders && id in l.table.rows && !C.Terminal(l.table.rows[id].status)
  }

  /** A command of one of these kinds is pending or leased for the device. */
  predicate InFlight(l: Linked, d: DeviceId, kinds: set<CommandKind>) {
    exists id :: id in l.orders && Pending(l, id) && l.orders[id].device == d && l.orders[id].kind in kinds
  }

  const ANY: set<CommandKind> := {Create, Start, Stop, Restart, Rebuild, Reimage, ProfileUpdate, Delete, SelfHeal}
  const INVENTORY_STOPS: set<CommandKind> := {Create, Rebuild, Reimage, Delete}
  const HEARTBEAT_STOPS: set<CommandKind> := {Create, Rebuild, Reimage, Delete, ProfileUpdate}

  /** The farm queues and completes through commands only, and heartbeats see the commands in flight. */
  predicate Admissible(l: Linked, step: Step) {
    step.OfDevice? ==>
      match step.device
      case HeartbeatStep(o, inFlight) => inFlight == InFlight(l, step.d, HEARTBEAT_STOPS)
      case MissingStep(unseen, inFlight) => inFlight == InFlight(l, step.d, INVENTORY_STOPS)
      case QueueStep(kind, why, active) => false
      case CompleteStep(kind, state, outcome, note) => false
      case _ => true
  }

  // ---- Transactions ----

  function QueueOf(l: Linked, d: DeviceId, kind: CommandKind, why: string): (result: Step) {
    OfDevice(d, QueueStep(kind, why, InFlight(l, d, ANY)))
  }

  function CompletionOf(x: Order, o: CommandOutcome, why: string): (result: Step) {
    OfDevice(x.device, CompleteStep(x.kind, x.state, o, why))
  }

  /** The command is inserted and the device moves, or neither; a key used before changes nothing. */
  function OrderTx(l: Linked, id: C.CommandId, d: DeviceId, kind: CommandKind, why: string,
                   spec: C.Spec): (result: Option<Linked>) {
    var t := C.CreateTx(l.table, id, spec);
    if t == None then None
    else if t.value == l.table then Some(l)
    else if Transact(l.world, QueueOf(l, d, kind, why)).Rollback? then None
    else Some(Linked(Next(l.world, QueueOf(l, d, kind, why)), t.value,
                     l.orders[id := Order(d, kind, QueuedLifecycle(kind, l.world.db.devices[d].lifecycle).value)]))
  }

  /** What ends a command is applied to its device in the same transaction. */
  function ApplyTx(l: Linked, t: C.Table, id: C.CommandId, result: Option<AgentResult>,
                   why: string): (out: Option<Linked>)
    requires id in t.rows
  {
    if id !in l.orders || !C.Terminal(t.rows[id].status) then Some(l.(table := t))
    else
      var step := CompletionOf(l.orders[id], CommandOutcome(t.rows[id].status, result), why);
      if Transact(l.world, step).Rollback? then None else Some(l.(world := Next(l.world, step), table := t))
  }

  function OnTable(l: Linked, t: Option<C.Table>): (result: Option<Linked>) {
    if t == None then None else Some(l.(table := t.value))
  }

  function LinkedTx(l: Linked, step: LinkedStep): (result: Option<Linked>) {
    match step
    case Farming(farm) =>
      if !Admissible(l, farm) then None
      else Some(l.(world := Next(l.world, farm),
                   table := if farm.Tick? then l.table.(now := l.table.now + farm.microseconds) else l.table))
    case Ordering(id, d, kind, why, spec) => OrderTx(l, id, d, kind, why, spec)
    case Unrelated(id, spec) => OnTable(l, C.CreateTx(l.table, id, spec))
    case Leasing(host, id, token, lease) => OnTable(l, C.ClaimTx(l.table, host, id, token, lease))
    case Renewing(id, token, attempt, lease) => OnTable(l, C.ExtendTx(l.table, id, token, attempt, lease))
    case Reporting(id, report, result, why) =>
      var t := C.CompleteTx(l.table, id, report);
      if t == None then None else ApplyTx(l, t.value, id, result, why)
    case Recovering(id, why) =>
      var t := C.RecoverTx(l.table, id);
      if t == None then None else ApplyTx(l, t.value, id, None, why)
  }

  function LinkedNext(l: Linked, step: LinkedStep): (result: Linked) {
    if LinkedTx(l, step).Some? then LinkedTx(l, step).value else l
  }

  function LinkedRun(l: Linked, steps: seq<LinkedStep>): (result: Linked)
    decreases |steps|
  {
    if steps == [] then l else LinkedRun(LinkedNext(l, steps[0]), steps[1..])
  }

  lemma OrderCommits(l: Linked, id: C.CommandId, d: DeviceId, kind: CommandKind, why: string, spec: C.Spec)
    requires C.CreateTx(l.table, id, spec).Some? && C.CreateTx(l.table, id, spec).value != l.table
    requires Transact(l.world, QueueOf(l, d, kind, why)).Commit? && d in l.world.db.devices
    requires QueuedLifecycle(kind, l.world.db.devices[d].lifecycle).Some?
    ensures OrderTx(l, id, d, kind, why, spec)
            == Some(Linked(Next(l.world, QueueOf(l, d, kind, why)), C.CreateTx(l.table, id, spec).value,
                           l.orders[id :=
                             Order(d, kind, QueuedLifecycle(kind, l.world.db.devices[d].lifecycle).value)]))
  {
  }

  // ---- A linked run is a run of the farm ----

  /** The steps of the farm that one linked step makes: one, or none. */
  function Shadow(l: Linked, step: LinkedStep): (result: seq<Step>) {
    if LinkedTx(l, step) == None then []
    else match step
      case Farming(farm) => [farm]
      case Ordering(id, d, kind, why, spec) =>
        if C.CreateTx(l.table, id, spec) == Some(l.table) then [] else [QueueOf(l, d, kind, why)]
      case Reporting(id, report, result, why) => ShadowOf(l, C.CompleteTx(l.table, id, report).value, id, result, why)
      case Recovering(id, why) => ShadowOf(l, C.RecoverTx(l.table, id).value, id, None, why)
      case _ => []
  }

  function ShadowOf(l: Linked, t: C.Table, id: C.CommandId, result: Option<AgentResult>, why: string): (out: seq<Step>)
    requires id in t.rows
  {
    if id !in l.orders || !C.Terminal(t.rows[id].status) then []
    else [CompletionOf(l.orders[id], CommandOutcome(t.rows[id].status, result), why)]
  }

  function Shadows(l: Linked, steps: seq<LinkedStep>): (result: seq<Step>)
    decreases |steps|
  {
    if steps == [] then [] else Shadow(l, steps[0]) + Shadows(LinkedNext(l, steps[0]), steps[1..])
  }

  lemma StepIsFarmStep(l: Linked, step: LinkedStep)
    ensures |Shadow(l, step)| <= 1
    ensures LinkedNext(l, step).world == if Shadow(l, step) == [] then l.world else Next(l.world, Shadow(l, step)[0])
  {
  }

  /** Every run of commands and farm together is a run of the farm, so whatever holds in all runs of the farm holds
      in all runs of both. */
  lemma {:induction false} LinkedRunIsFarmRun(l: Linked, steps: seq<LinkedStep>)
    ensures LinkedRun(l, steps).world == Run(l.world, Shadows(l, steps))
    decreases |steps|
  {
    if steps == [] {
    } else {
      var rest := Shadows(LinkedNext(l, steps[0]), steps[1..]);
      StepIsFarmStep(l, steps[0]);
      LinkedRunIsFarmRun(LinkedNext(l, steps[0]), steps[1..]);
      if Shadow(l, steps[0]) == [] {
        assert Shadows(l, steps) == rest;
      } else {
        assert Shadows(l, steps) == [Shadow(l, steps[0])[0]] + rest;
      }
    }
  }

  lemma ReportApplies(l: Linked, id: C.CommandId, report: C.Report, result: Option<AgentResult>, why: string)
    requires C.CompleteTx(l.table, id, report).Some? && id in l.orders
    requires C.Terminal(C.CompleteTx(l.table, id, report).value.rows[id].status)
    ensures var t := C.CompleteTx(l.table, id, report).value;
            var step := CompletionOf(l.orders[id], CommandOutcome(t.rows[id].status, result), why);
            && LinkedTx(l, Reporting(id, report, result, why)).Some? == Transact(l.world, step).Commit?
            && (Transact(l.world, step).Commit? ==>
                  LinkedNext(l, Reporting(id, report, result, why)).world == Next(l.world, step))
  {
  }

  /** A report whose effect is careless is accepted all the same, and breaks the coupling. */
  lemma CarelessReport(l: Linked, id: C.CommandId, report: C.Report, result: Option<AgentResult>, why: string)
    requires C.CompleteTx(l.table, id, report).Some? && id in l.orders && Coupled(l.world.db)
    requires C.Terminal(C.CompleteTx(l.table, id, report).value.rows[id].status)
    requires var o := CommandOutcome(C.CompleteTx(l.table, id, report).value.rows[id].status, result);
             CarelessStep(l.world, CompletionOf(l.orders[id], o, why))
    ensures LinkedTx(l, Reporting(id, report, result, why)).Some?
    ensures !Coupled(LinkedNext(l, Reporting(id, report, result, why)).world.db)
  {
    var o := CommandOutcome(C.CompleteTx(l.table, id, report).value.rows[id].status, result);
    var step := CompletionOf(l.orders[id], o, why);
    ReportApplies(l, id, report, result, why);
    CarelessCommits(l.world.db, step.d, step.device, l.world.policy.threshold);
    StepKeepsCouplingExactlyWhen(l.world, step);
  }

  // ---- Results are applied once ----

  /** A step whose transaction applies the result of command `id` to its device. */
  predicate Applies(l: Linked, step: LinkedStep, id: C.CommandId) {
    && (step.Reporting? || step.Recovering?) && step.id == id && LinkedTx(l, step).Some?
    && Shadow(l, step) != []
  }

  function Applications(l: Linked, steps: seq<LinkedStep>, id: C.CommandId): (result: nat)
    decreases |steps|
  {
    if steps == [] then 0
    else (if Applies(l, steps[0], id) then 1 else 0) + Applications(LinkedNext(l, steps[0]), steps[1..], id)
  }

  lemma TerminalStays(l: Linked, step: LinkedStep, id: C.CommandId)
    requires id in l.table.rows && C.Terminal(l.table.rows[id].status)
    ensures id in LinkedNext(l, step).table.rows && C.Terminal(LinkedNext(l, step).table.rows[id].status)
    ensures !Applies(l, step, id)
  {
  }

  lemma {:induction false} NothingAfterTheEnd(l: Linked, steps: seq<LinkedStep>, id: C.CommandId)
    requires id in l.table.rows && C.Terminal(l.table.rows[id].status)
    ensures Applications(l, steps, id) == 0
    decreases |steps|
  {
    if steps == [] {
    } else {
      TerminalStays(l, steps[0], id);
      NothingAfterTheEnd(LinkedNext(l, steps[0]), steps[1..], id);
    }
  }

  /** In any run the result of a command reaches its device at most once. */
  lemma {:induction false} AppliedAtMostOnce(l: Linked, steps: seq<LinkedStep>, id: C.CommandId)
    ensures Applications(l, steps, id) <= 1
    decreases |steps|
  {
    if steps == [] {
    } else if Applies(l, steps[0], id) {
      NothingAfterTheEnd(LinkedNext(l, steps[0]), steps[1..], id);
    } else {
      AppliedAtMostOnce(LinkedNext(l, steps[0]), steps[1..], id);
    }
  }

  // ---- What every linked step keeps ----

  /** A device that is being deleted: in no pool and held by nobody. */
  predicate Barred(s: State, d: DeviceId) {
    d in s.devices && s.devices[d].pool == None && !HasOpen(s, d)
  }

  /** Orders are what the code can queue; commands in flight for one device overlap only with an administrator's
      restart; a device that is being deleted cannot be allocated. */
  ghost predicate LinkedOk(l: Linked) {
    && (forall id :: id in l.orders ==> id in l.table.rows && Produces(l.orders[id].kind, l.orders[id].state))
    && (forall i, j :: (i in l.orders && j in l.orders && i != j && Pending(l, i) && Pending(l, j)
                        && l.orders[i].device == l.orders[j].device)
                       ==> l.orders[i].kind == Restart || l.orders[j].kind == Restart)
    && (forall id :: id in l.orders && Pending(l, id) && l.orders[id].kind == Delete ==>
        Barred(l.world.db, l.orders[id].device))
  }

  lemma EffectCommits(l: Linked, id: C.CommandId, o: CommandOutcome, why: string)
    requires LinkedOk(l) && id in l.orders
    ensures Transact(l.world, CompletionOf(l.orders[id], o, why)).Commit?
  {
    var x := l.orders[id];
    if x.device in l.world.db.devices {
      var dev := l.world.db.devices[x.device];
      QueuedCommandsComplete(x.kind, x.state, dev.lifecycle, dev.health, o);
    }
  }

  lemma ApplyCommits(l: Linked, t: C.Table, id: C.CommandId, result: Option<AgentResult>, why: string)
    requires LinkedOk(l) && id in t.rows
    ensures ApplyTx(l, t, id, result, why).Some?
  {
    if id in l.orders {
      EffectCommits(l, id, CommandOutcome(t.rows[id].status, result), why);
    }
  }

  /** No accepted completion and no recovery is ever turned down by the device: in every state these steps keep, what
      the command table accepts commits. */
  lemma CompletionNeverRefused(l: Linked, id: C.CommandId, report: C.Report, result: Option<AgentResult>, why: string)
    requires LinkedOk(l)
    ensures LinkedTx(l, Reporting(id, report, result, why)).Some? <==> C.CompleteTx(l.table, id, report).Some?
    ensures LinkedTx(l, Recovering(id, why)).Some? <==> C.RecoverTx(l.table, id).Some?
  {
    if C.CompleteTx(l.table, id, report).Some? {
      ApplyCommits(l, C.CompleteTx(l.table, id, report).value, id, result, why);
    }
    if C.RecoverTx(l.table, id).Some? {
      ApplyCommits(l, C.RecoverTx(l.table, id).value, id, None, why);
    }
  }

  // ---- A barred device stays barred ----

  ghost predicate KeepsBarred(s: State, t: State) {
    forall d :: Barred(s, d) ==> Barred(t, d)
  }

  /** One reservation row and one device row written, without binding a barred device anew. */
  lemma RowBars(s: State, t: State, r: ReservationId, e: DeviceId)
    requires t.devices == s.devices
             || (e in s.devices && e in t.devices && t.devices == s.devices[e := t.devices[e]]
                 && t.devices[e].pool in {s.devices[e].pool, None})
    requires t.reservations == s.reservations
             || (r in t.reservations && t.reservations == s.reservations[r := t.reservations[r]])
    requires t.reservations != s.reservations ==>
               forall d :: Bound(t.reservations[r], d) ==>
                             !Barred(s, d) || (r in s.reservations && Bound(s.reservations[r], d))
    ensures KeepsBarred(s, t)
  {
    forall d | Barred(s, d)
      ensures Barred(t, d)
    {
      forall q | q in t.reservations
        ensures !Bound(t.reservations[q], d)
      {
        assert q in s.reservations ==> !Bound(s.reservations[q], d);
      }
    }
  }

  lemma CloseBars(s: State, r: ReservationId, terminal: ReservationStatus)
    requires CloseTx(s, r, terminal).Commit?
    ensures KeepsBarred(s, CloseTx(s, r, terminal).post)
  {
    assert Edge(RESERVATION_TRANSITIONS, ReservationActive, terminal);
    RowBars(s, CloseTx(s, r, terminal).post, r, s.reservations[r].device.value);
  }

  lemma LockedBars(s: State, r: ReservationId, force: bool)
    requires r in s.reservations && ReleaseLockedTx(s, r, force).Commit?
    ensures KeepsBarred(s, ReleaseLockedTx(s, r, force).post)
  {
    var t := ReleaseLockedTx(s, r, force).post;
    LockedShape(s, r, force);
    if t != s && s.reservations[r].status == ReservationActive {
      CloseBars(s, r, if force then ReservationForceReleased else ReservationReleased);
    } else {
      RowBars(s, t, r, 0);
    }
  }

  lemma ReleaseBars(s: State, client: nat, console: Option<string>, key: string, r: ReservationId, why: string,
                    force: bool)
    requires ReleaseTx(s, client, console, key, r, why, force).Commit?
    ensures KeepsBarred(s, ReleaseTx(s, client, console, key, r, why, force).post)
  {
    ReleaseShape(s, client, console, key, r, why, force);
    if ReleaseTx(s, client, console, key, r, why, force).post != s {
      var begun := ReleaseBegun(s, client, key, r, why, force);
      assert forall d :: Barred(s, d) ==> Barred(begun, d);
      LockedBars(begun, r, force);
    }
  }

  lemma CreateBars(s: State, r: ReservationId, q: Request, actor: string)
    requires CreateTx(s, r, q, actor).Commit?
    ensures KeepsBarred(s, CreateTx(s, r, q, actor).post)
  {
    RowBars(s, CreateTx(s, r, q, actor).post, r, 0);
  }

  lemma LeaseBars(s: State, step: LeaseStep)
    requires LeaseTx(s, step).Commit?
    ensures KeepsBarred(s, LeaseTx(s, step).post)
  {
    var t := LeaseTx(s, step).post;
    match step
    case CreateStep(r, q, actor) => CreateBars(s, r, q, actor);
    case ExtendStep(client, key, r, seconds) => RowBars(s, t, r, 0);
    case KeepAliveStep(r, owner, d, seconds) => RowBars(s, t, r, 0);
    case ReleaseStep(client, console, key, r, why, force) => ReleaseBars(s, client, console, key, r, why, force);
    case StaleStep(r, timeout, grace) => RowBars(s, t, r, 0);
    case OrphanStep(r, grace) => RowBars(s, t, r, s.reservations[r].device.value);
  }

  lemma RoundBars(s: State, round: Round, step: RoundStep)
    requires RoundTx(s, round, step).Commit?
    ensures KeepsBarred(s, RoundTx(s, round, step).post)
  {
    var t := RoundTx(s, round, step).post;
    match step
    case ReserveStep(r, d) =>
      assert s.devices[d].pool.Some?;
      RowBars(s, t, r, d);
    case ActivateStep(id) => RowBars(s, t, round.r, round.d);
    case UndoStep(code, terminal) => RowBars(s, t, round.r, round.d);
    case DieStep =>
  }

  lemma SweepBars(s: State, sweep: Sweep, step: SweepStep, grace: nat)
    requires SweepTx(s, sweep, step, grace).Commit?
    ensures KeepsBarred(s, SweepTx(s, sweep, step, grace).post)
  {
    var t := SweepTx(s, sweep, step, grace).post;
    match step
    case CloseStep => CloseBars(s, sweep.r, ReservationExpired);
    case FailStep => if sweep.Deleting? && sweep.r in s.sessions { RowBars(s, t, 0, s.sessions[sweep.r].device); }
    case _ => RowBars(s, t, 0, 0);
  }

  /** Whatever the farm does, a device that is in no pool and held by nobody stays so. */
  lemma BarredStays(w: World, step: Step)
    ensures KeepsBarred(w.db, Next(w, step).db)
  {
    var s, t := w.db, Next(w, step).db;
    if Transact(w, step).Commit? {
      match step
      case OfRound(k, round) => RoundBars(s, RoundOf(w, k), round);
      case OfLease(lease) => LeaseBars(s, lease);
      case OfSweep(k, sweep) => SweepBars(s, SweepOf(w, k), sweep, w.policy.grace);
      case OfDevice(d, device) =>
        DeviceStepsTouch(s, d, device, w.policy.threshold);
        RowBars(s, t, 0, d);
      case OfFence(r, grant, fence) =>
        FenceStepsTouch(s, w.issued, r, grant, fence);
        RowBars(s, t, 0, 0);
      case _ => RowBars(s, t, 0, 0);
    }
  }

  // ---- The invariant is kept ----

  /** A step that moves at most one command along, and moves no ended one back, keeps the commands in flight. */
  ghost predicate NoNewPending(l: Linked, m: Linked) {
    && m.orders == l.orders
    && (forall id :: id in l.orders && id in l.table.rows ==> id in m.table.rows)
    && (forall id :: id in l.orders && Pending(m, id) ==> Pending(l, id))
  }

  lemma TableMovesOn(l: Linked, m: Linked)
    requires LinkedOk(l) && NoNewPending(l, m) && KeepsBarred(l.world.db, m.world.db)
    ensures LinkedOk(m)
  {
  }

  lemma TableTxMovesOn(t: C.Table, step: C.Step, id: C.CommandId)
    requires id in t.rows
    ensures id in C.Next(t, step).rows
    ensures C.Terminal(t.rows[id].status) ==> C.Terminal(C.Next(t, step).rows[id].status)
  {
    C.StepEvolves(t, step, id);
  }

  /** The step of the command table that a linked step makes. */
  function TableStep(l: Linked, step: LinkedStep): (result: C.Step) {
    match step
    case Farming(farm) => if farm.Tick? then C.Tick(farm.microseconds) else C.Tick(0)
    case Ordering(id, d, kind, why, spec) => C.Step.Create(id, spec)
    case Unrelated(id, spec) => C.Step.Create(id, spec)
    case Leasing(host, id, token, lease) => C.Step.Claim(host, id, token, lease)
    case Renewing(id, token, attempt, lease) => C.Step.Extend(id, token, attempt, lease)
    case Reporting(id, report, result, why) => C.Step.Complete(id, report)
    case Recovering(id, why) => C.Step.Recover(id)
  }

  /** And the command side of a linked step is that step of the command table, or nothing. */
  lemma StepIsTableStep(l: Linked, step: LinkedStep)
    requires LinkedTx(l, step).Some?
    ensures LinkedNext(l, step).table == C.Next(l.table, TableStep(l, step))
  {
  }

  /** What queueing a command on a device takes. */
  lemma QueueTakes(l: Linked, d: DeviceId, kind: CommandKind, why: string)
    requires Transact(l.world, QueueOf(l, d, kind, why)).Commit?
    ensures d in l.world.db.devices && QueuedLifecycle(kind, l.world.db.devices[d].lifecycle).Some?
    ensures Produces(kind, QueuedLifecycle(kind, l.world.db.devices[d].lifecycle).value)
    ensures kind != Restart ==> !InFlight(l, d, ANY)
    ensures kind == Delete ==> Barred(Next(l.world, QueueOf(l, d, kind, why)).db, d)
  {
  }

  /** The new order beside the old ones, in whatever farm. */
  lemma OneMoreOrder(l: Linked, m: Linked, id: C.CommandId, x: Order)
    requires LinkedOk(l) && id !in l.table.rows && KeepsBarred(l.world.db, m.world.db)
    requires m.orders == l.orders[id := x] && id in m.table.rows && m.table.rows == l.table.rows[id := m.table.rows[id]]
    requires Produces(x.kind, x.state) && (x.kind != Restart ==> !InFlight(l, x.device, ANY))
    requires x.kind == Delete ==> Barred(m.world.db, x.device)
    ensures LinkedOk(m)
  {
    forall i | i in l.orders && Pending(m, i) && l.orders[i].device == x.device
      ensures x.kind == Restart
    {
      assert Pending(l, i) && l.orders[i].kind in ANY;
    }
    forall i | i in m.orders && Pending(m, i) && m.orders[i].kind == Delete
      ensures Barred(m.world.db, m.orders[i].device)
    {
      assert i == id || Pending(l, i);
    }
  }

  lemma OrderKeepsLinked(l: Linked, id: C.CommandId, d: DeviceId, kind: CommandKind, why: string, spec: C.Spec)
    requires LinkedOk(l) && OrderTx(l, id, d, kind, why, spec).Some?
    ensures LinkedOk(OrderTx(l, id, d, kind, why, spec).value)
  {
    var m := OrderTx(l, id, d, kind, why, spec).value;
    if m != l {
      BarredStays(l.world, QueueOf(l, d, kind, why));
      QueueTakes(l, d, kind, why);
      OneMoreOrder(l, m, id, m.orders[id]);
    }
  }

  /** One step of the command table, without a new order. */
  lemma TableStepKeepsLinked(l: Linked, m: Linked, step: C.Step)
    requires LinkedOk(l) && m.orders == l.orders && m.table == C.Next(l.table, step)
    requires KeepsBarred(l.world.db, m.world.db)
    ensures LinkedOk(m)
  {
    forall id | id in l.orders && id in l.table.rows
      ensures id in m.table.rows && (Pending(m, id) ==> Pending(l, id))
    {
      TableTxMovesOn(l.table, step, id);
    }
    TableMovesOn(l, m);
  }

  lemma LinkedStepKeepsBarred(l: Linked, step: LinkedStep)
    ensures KeepsBarred(l.world.db, LinkedNext(l, step).world.db)
  {
    StepIsFarmStep(l, step);
    if Shadow(l, step) != [] {
      BarredStays(l.world, Shadow(l, step)[0]);
    }
  }

  lemma OnlyOrderingOrders(l: Linked, step: LinkedStep)
    requires !step.Ordering?
    ensures LinkedNext(l, step).orders == l.orders
  {
  }

  lemma StepKeepsLinked(l: Linked, step: LinkedStep)
    requires LinkedOk(l)
    ensures LinkedOk(LinkedNext(l, step))
  {
    if LinkedTx(l, step).Some? {
      if step.Ordering? {
        OrderKeepsLinked(l, step.id, step.d, step.kind, step.why, step.spec);
      } else {
        StepIsTableStep(l, step);
        LinkedStepKeepsBarred(l, step);
        OnlyOrderingOrders(l, step);
        TableStepKeepsLinked(l, LinkedNext(l, step), TableStep(l, step));
      }
    }
  }

  lemma {:induction false} RunKeepsLinked(l: Linked, steps: seq<LinkedStep>)
    requires LinkedOk(l)
    ensures LinkedOk(LinkedRun(l, steps))
    decreases |steps|
  {
    if steps == [] {
    } else {
      StepKeepsLinked(l, steps[0]);
      RunKeepsLinked(LinkedNext(l, steps[0]), steps[1..]);
    }
  }

  // ---- What follows for whole runs ----

  /** From a farm without commands, in every reachable state: what the command table accepts commits together with
      its effect on the device. */
  lemma AcceptedResultsCommit(l: Linked, steps: seq<LinkedStep>, id: C.CommandId, report: C.Report,
                              result: Option<AgentResult>, why: string)
    requires l.orders == map[]
    ensures var m := LinkedRun(l, steps);
            && (LinkedTx(m, Reporting(id, report, result, why)).Some? <==> C.CompleteTx(m.table, id, report).Some?)
            && (LinkedTx(m, Recovering(id, why)).Some? <==> C.RecoverTx(m.table, id).Some?)
  {
    RunKeepsLinked(l, steps);
    CompletionNeverRefused(LinkedRun(l, steps), id, report, result, why);
  }

  /** Two commands in flight for one device: one of them is an administrator's restart. */
  lemma OnlyRestartsOverlap(l: Linked, steps: seq<LinkedStep>, i: C.CommandId, j: C.CommandId)
    requires l.orders == map[] && i != j
    requires var m := LinkedRun(l, steps);
             i in m.orders && j in m.orders && Pending(m, i) && Pending(m, j)
                 && m.orders[i].device == m.orders[j].device
    ensures var m := LinkedRun(l, steps); m.orders[i].kind == Restart || m.orders[j].kind == Restart
  {
    RunKeepsLinked(l, steps);
  }

  /** Of the completions only that of a profile update can be careless: a device that is being deleted has left its
      pools, so nobody comes to hold it. */
  lemma OnlyProfileUpdatesAreCareless(l: Linked, steps: seq<LinkedStep>, id: C.CommandId, o: CommandOutcome,
                                      why: string)
    requires l.orders == map[]
    requires var m := LinkedRun(l, steps);
             Pending(m, id) && CarelessStep(m.world, CompletionOf(m.orders[id], o, why))
    ensures LinkedRun(l, steps).orders[id].kind == ProfileUpdate
  {
    RunKeepsLinked(l, steps);
  }

  // ---- The farm's device rows and the device records ----

  /** A device of the farm and a record of the same device. */
  predicate SameRow(dev: Device, x: Record) {
    dev.lifecycle == x.lifecycle && dev.health == x.health && dev.reason == x.reason && dev.failures == x.failures
  }

  /** A completion does the same to the farm's device as to its record, and is refused by the one exactly when it is by
      the other. */
  lemma CompletionsCoincide(s: State, d: DeviceId, x: Record, c: Command, o: CommandOutcome, why: string)
    requires d in s.devices && SameRow(s.devices[d], x)
    ensures CompleteTx(s, d, c.kind, c.state, o, why).Commit? <==> Completed(x, c, o, why).Some?
    ensures Completed(x, c, o, why).Some? ==>
              && d in CompleteTx(s, d, c.kind, c.state, o, why).post.devices
              && SameRow(CompleteTx(s, d, c.kind, c.state, o, why).post.devices[d], Completed(x, c, o, why).value)
  {
  }
}
