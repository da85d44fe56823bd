/** Sessions and iOS grants over whole runs: a grant works once and dies when it is replaced, a
    session binds one Appium session in its life, and the sweep closes nothing that is still live. */
module Fence {
  import opened Domain
  import opened Rows
  import opened Scheduling
  import opened Reservations
  import opened Grants
  import opened Protocol
  import opened Leases

  // ---- Reservations and their sessions ----

  ghost predicate SessionMatches(s: State, r: ReservationId)
    requires r in s.sessions
  {
    var x := s.sessions[r];
    && r in s.reservations && s.reservations[r].device == Some(x.device) && x.device in s.devices
    && (if s.reservations[r].status == ReservationActive then x.status == SessionActive
        else x.status == SessionClosed
             && s.reservations[r].status in {ReservationReleased, ReservationForceReleased, ReservationExpired})
    && (x.appium.Some? ==> s.devices[x.device].platform == Ios)
  }

  ghost predicate SessionsMatch(s: State) {
    && (forall r :: r in s.sessions ==> SessionMatches(s, r))
    && (forall r :: r in s.reservations && s.reservations[r].status == ReservationActive ==> r in s.sessions)
  }

  // ---- How a session row evolves ----

  ghost predicate GrantEvolves(a: Option<Grant>, b: Option<Grant>, now: int, issued: set<string>) {
    || a == b
    || (b.Some? && b.value.consumed == None && b.value.hash.grant !in issued)
    || (a.Some? && a.value.consumed == None && b == Some(a.value.(consumed := Some(now))) && a.value.expires > now)
  }

  ghost predicate SessionEvolves(s: State, r: ReservationId, b: Session, issued: set<string>)
    requires r in s.sessions
  {
    var a := s.sessions[r];
    && b.id == a.id && b.device == a.device && b.started == a.started && b.host == a.host && b.routed == a.routed
    && GrantEvolves(a.grant, b.grant, s.now, issued)
    && (a.appium.Some? ==>
          && b.appium.Some? && b.appium.value.id == a.appium.value.id
              && b.appium.value.started == a.appium.value.started
          && (a.appium.value.ended.Some? ==> b.appium == a.appium))
    && (a.appium == None && b.appium.Some? ==>
          Joined(s, r) && Available(s, r) && a.grant.Some? && a.grant.value.consumed.Some?
              && b.appium.value.ended == None)
  }

  ghost predicate SessionsEvolve(s: State, t: State, issued: set<string>) {
    && (forall r :: r in s.sessions ==> r in t.sessions && SessionEvolves(s, r, t.sessions[r], issued))
    && (forall r :: r in t.sessions && r !in s.sessions ==> t.sessions[r].grant == None && t.sessions[r].appium == None)
  }

  lemma SessionTxEvolves(s: State, t: State, r: ReservationId, issued: set<string>)
    requires r in t.sessions && t.sessions == s.sessions[r := t.sessions[r]]
    requires if r in s.sessions then SessionEvolves(s, r, t.sessions[r], issued)
             else t.sessions[r].grant == None && t.sessions[r].appium == None
    ensures SessionsEvolve(s, t, issued)
  {
  }

  lemma NoSession(s: State, t: State, issued: set<string>)
    requires t.sessions == s.sessions
    ensures SessionsEvolve(s, t, issued)
  {
  }

  lemma CloseEvolvesSession(s: State, r: ReservationId, terminal: ReservationStatus, issued: set<string>)
    requires CloseTx(s, r, terminal).Commit?
    ensures SessionsEvolve(s, CloseTx(s, r, terminal).post, issued)
  {
  }

  lemma LockedEvolvesSession(s: State, r: ReservationId, force: bool, issued: set<string>)
    requires r in s.reservations && ReleaseLockedTx(s, r, force).Commit?
    ensures SessionsEvolve(s, ReleaseLockedTx(s, r, force).post, issued)
  {
    var t := ReleaseLockedTx(s, r, force).post;
    LockedShape(s, r, force);
    if t.sessions == s.sessions {
      NoSession(s, t, issued);
    } else {
      CloseEvolvesSession(s, r, if force then ReservationForceReleased else ReservationReleased, issued);
    }
  }

  lemma OperationsAside(s: State, begun: State, t: State, issued: set<string>)
    requires begun == s.(operations := begun.operations) && SessionsEvolve(begun, t, issued)
    ensures SessionsEvolve(s, t, issued)
  {
  }

  lemma ReleaseEvolvesSession(s: State, client: nat, console: Option<string>, key: string, r: ReservationId,
                              why: string, force: bool, issued: set<string>)
    requires ReleaseTx(s, client, console, key, r, why, force).Commit?
    ensures SessionsEvolve(s, ReleaseTx(s, client, console, key, r, why, force).post, issued)
  {
    var t := ReleaseTx(s, client, console, key, r, why, force).post;
    ReleaseShape(s, client, console, key, r, why, force);
    if t == s {
      NoSession(s, t, issued);
    } else {
      var begun := ReleaseBegun(s, client, key, r, why, force);
      LockedEvolvesSession(begun, r, force, issued);
      OperationsAside(s, begun, t, issued);
    }
  }

  lemma FenceEvolvesSession(s: State, issued: set<string>, r: ReservationId, grant: string, step: FenceStep)
    requires FenceTx(s, issued, r, grant, step).Commit?
    ensures SessionsEvolve(s, FenceTx(s, issued, r, grant, step).post, issued)
  {
    var t := FenceTx(s, issued, r, grant, step).post;
    if t.sessions == s.sessions {
      NoSession(s, t, issued);
    } else {
      SessionTxEvolves(s, t, r, issued);
    }
  }

  lemma SweepEvolvesSession(s: State, sweep: Sweep, step: SweepStep, grace: nat, issued: set<string>)
    requires SweepTx(s, sweep, step, grace).Commit?
    ensures SessionsEvolve(s, SweepTx(s, sweep, step, grace).post, issued)
  {
    var t := SweepTx(s, sweep, step, grace).post;
    if t.sessions == s.sessions {
      NoSession(s, t, issued);
    } else if step == CloseStep {
      CloseEvolvesSession(s, sweep.r, ReservationExpired, issued);
    } else {
      SessionTxEvolves(s, t, sweep.r, issued);
    }
  }

  lemma RoundEvolvesSession(s: State, round: Round, step: RoundStep, issued: set<string>)
    requires RoundTx(s, round, step).Commit?
    ensures SessionsEvolve(s, RoundTx(s, round, step).post, issued)
  {
    var t := RoundTx(s, round, step).post;
    if step.ActivateStep? {
      SessionTxEvolves(s, t, round.r, issued);
    } else {
      NoSession(s, t, issued);
    }
  }

  lemma LeaseEvolvesSession(s: State, step: LeaseStep, issued: set<string>)
    requires LeaseTx(s, step).Commit?
    ensures SessionsEvolve(s, LeaseTx(s, step).post, issued)
  {
    var t := LeaseTx(s, step).post;
    match step
    case ReleaseStep(client, console, key, r, why, force) =>
      ReleaseEvolvesSession(s, client, console, key, r, why, force, issued);
    case CreateStep(r, q, actor) => NoSession(s, t, issued);
    case ExtendStep(client, key, r, seconds) => NoSession(s, t, issued);
    case KeepAliveStep(r, owner, d, seconds) => NoSession(s, t, issued);
    case StaleStep(r, timeout, grace) => NoSession(s, t, issued);
    case OrphanStep(r, grace) => NoSession(s, t, issued);
  }

  /** Every step of the farm evolves every session this way. */
  lemma StepEvolvesSessions(w: World, step: Step)
    ensures SessionsEvolve(w.db, Next(w, step).db, w.issued)
  {
    var s, t := w.db, Next(w, step).db;
    if Transact(w, step).Rollback? {
      NoSession(s, t, w.issued);
    } else {
      match step
      case OfRound(k, round) => RoundEvolvesSession(s, RoundOf(w, k), round, w.issued);
      case OfLease(lease) => LeaseEvolvesSession(s, lease, w.issued);
      case OfSweep(k, sweep) => SweepEvolvesSession(s, SweepOf(w, k), sweep, w.policy.grace, w.issued);
      case OfDevice(d, device) =>
        DeviceStepsTouch(s, d, device, w.policy.threshold);
        NoSession(s, t, w.issued);
      case OfFence(r, grant, fence) => FenceEvolvesSession(s, w.issued, r, grant, fence);
      case _ => NoSession(s, t, w.issued);
    }
  }

  // ---- Sessions keep matching their reservations ----

  ghost predicate OneDeviceMoves(s: State, t: State, d: DeviceId) {
    t.devices == s.devices
    || (d in s.devices && d in t.devices && t.devices == s.devices[d := t.devices[d]]
        && t.devices[d].platform == s.devices[d].platform)
  }

  /** Transactions that write one reservation without opening or closing a lease. */
  lemma RowMatches(s: State, t: State, r: ReservationId, d: DeviceId)
    requires SessionsMatch(s) && t.sessions == s.sessions && OneDeviceMoves(s, t, d)
    requires t.reservations == s.reservations
             || (r in t.reservations && t.reservations == s.reservations[r := t.reservations[r]])
    requires r in t.reservations ==>
               || (r in s.reservations && t.reservations[r].status == s.reservations[r].status
                   && t.reservations[r].device == s.reservations[r].device)
               || (t.reservations[r].status != ReservationActive
                   && (r in s.reservations ==> s.reservations[r].status == ReservationPending))
    ensures SessionsMatch(t)
  {
  }

  /** Transactions that write the grant or the Appium session of one session. */
  lemma BindingMatches(s: State, t: State, r: ReservationId)
    requires SessionsMatch(s) && OnlySession(s, t, r)
    requires r in t.sessions && t.sessions[r].appium.Some? ==>
               || (r in s.sessions && s.sessions[r].appium.Some?)
               || (t.sessions[r].device in s.devices && s.devices[t.sessions[r].device].platform == Ios)
    ensures SessionsMatch(t)
  {
  }

  lemma ActivateMatches(s: State, r: ReservationId, d: DeviceId, id: SessionId)
    requires SessionsMatch(s) && ActivateTx(s, r, d, id).Commit?
    ensures SessionsMatch(ActivateTx(s, r, d, id).post)
  {
  }

  lemma CloseMatches(s: State, r: ReservationId, terminal: ReservationStatus)
    requires SessionsMatch(s) && CloseTx(s, r, terminal).Commit?
    ensures SessionsMatch(CloseTx(s, r, terminal).post)
  {
    var t := CloseTx(s, r, terminal).post;
    assert Edge(RESERVATION_TRANSITIONS, ReservationActive, terminal);
    forall q | q in t.sessions
      ensures SessionMatches(t, q)
    {
      assert SessionMatches(s, q);
    }
  }

  lemma ReleaseMatches(s: State, client: nat, console: Option<string>, key: string, r: ReservationId, why: string,
                       force: bool)
    requires SessionsMatch(s) && ReleaseTx(s, client, console, key, r, why, force).Commit?
    ensures SessionsMatch(ReleaseTx(s, client, console, key, r, why, force).post)
  {
    var t := ReleaseTx(s, client, console, key, r, why, force).post;
    var begun := ReleaseBegun(s, client, key, r, why, force);
    RowMatches(s, begun, r, 0);
    if t != s && t != begun {
      if s.reservations[r].status == ReservationActive {
        CloseMatches(begun, r, if force then ReservationForceReleased else ReservationReleased);
      } else {
        RowMatches(s, t, r, 0);
      }
    }
  }

  lemma LeaseMatches(s: State, step: LeaseStep)
    requires SessionsMatch(s) && LeaseTx(s, step).Commit?
    ensures SessionsMatch(LeaseTx(s, step).post)
  {
    var t := LeaseTx(s, step).post;
    match step
    case CreateStep(r, q, actor) => if t != s { RowMatches(s, t, r, 0); }
    case ExtendStep(client, key, r, seconds) => if t != s { RowMatches(s, t, r, 0); }
    case KeepAliveStep(r, owner, d, seconds) => RowMatches(s, t, r, 0);
    case ReleaseStep(client, console, key, r, why, force) => ReleaseMatches(s, client, console, key, r, why, force);
    case StaleStep(r, timeout, grace) => RowMatches(s, t, r, 0);
    case OrphanStep(r, grace) => RowMatches(s, t, r, s.reservations[r].device.value);
  }

  lemma RoundMatches(s: State, round: Round, step: RoundStep)
    requires SessionsMatch(s) && RoundTx(s, round, step).Commit?
    ensures SessionsMatch(RoundTx(s, round, step).post)
  {
    var t := RoundTx(s, round, step).post;
    match step
    case ReserveStep(r, d) => RowMatches(s, t, r, d);
    case ActivateStep(id) => ActivateMatches(s, round.r, round.d, id);
    case UndoStep(code, terminal) => RowMatches(s, t, round.r, round.d);
    case DieStep =>
  }

  lemma SweepMatches(s: State, sweep: Sweep, step: SweepStep, grace: nat)
    requires SessionsMatch(s) && SweepTx(s, sweep, step, grace).Commit?
    ensures SessionsMatch(SweepTx(s, sweep, step, grace).post)
  {
  }

  lemma FenceMatches(s: State, issued: set<string>, r: ReservationId, grant: string, step: FenceStep)
    requires SessionsMatch(s) && FenceTx(s, issued, r, grant, step).Commit?
    ensures SessionsMatch(FenceTx(s, issued, r, grant, step).post)
  {
    FenceStepsTouch(s, issued, r, grant, step);
    BindingMatches(s, FenceTx(s, issued, r, grant, step).post, r);
  }

  /** Every step keeps sessions and reservations matched. */
  lemma StepKeepsMatch(w: World, step: Step)
    requires SessionsMatch(w.db)
    ensures SessionsMatch(Next(w, step).db)
  {
    var s, t := w.db, Next(w, step).db;
    if Transact(w, step).Commit? {
      match step
      case OfRound(k, round) => RoundMatches(s, RoundOf(w, k), round);
      case OfLease(lease) => LeaseMatches(s, lease);
      case OfSweep(k, sweep) => SweepMatches(s, SweepOf(w, k), sweep, w.policy.grace);
      case OfDevice(d, device) =>
        DeviceStepsTouch(s, d, device, w.policy.threshold);
        RowMatches(s, t, 0, d);
      case OfFence(r, grant, fence) => FenceMatches(s, w.issued, r, grant, fence);
      case _ => RowMatches(s, t, 0, 0);
    }
  }

  // ---- Grants ----

  /** Every stored grant was issued, and no two sessions store the same one. */
  ghost predicate GrantsOk(s: State, issued: set<string>) {
    && (forall r :: r in s.sessions && s.sessions[r].grant.Some? ==> s.sessions[r].grant.value.hash.grant in issued)
    && (forall r, q :: (r in s.sessions && q in s.sessions && s.sessions[r].grant.Some? && s.sessions[q].grant.Some?
                        && s.sessions[r].grant.value.hash == s.sessions[q].grant.value.hash) ==> r == q)
  }

  lemma SameGrantsOk(s: State, t: State, issued: set<string>)
    requires GrantsOk(s, issued) && GrantsSame(s, t)
    ensures GrantsOk(t, issued)
  {
  }

  /** A fence step that writes no new grant, on one session. */
  lemma OldGrantOk(s: State, t: State, r: ReservationId, issued: set<string>)
    requires GrantsOk(s, issued) && OnlySession(s, t, r)
    requires r in t.sessions && t.sessions[r].grant.Some? ==>
               && r in s.sessions && s.sessions[r].grant.Some?
               && t.sessions[r].grant.value.hash == s.sessions[r].grant.value.hash
    ensures GrantsOk(t, issued)
  {
  }

  lemma IssueKeepsGrants(s: State, issued: set<string>, r: ReservationId, client: nat, owner: (string, string),
                         ttl: int, grant: string)
    requires GrantsOk(s, issued) && IssueTx(s, r, client, owner, ttl, grant).Commit?
    ensures GrantsOk(IssueTx(s, r, client, owner, ttl, grant).post, issued + {grant})
  {
  }

  lemma FenceKeepsGrants(s: State, issued: set<string>, r: ReservationId, grant: string, step: FenceStep)
    requires GrantsOk(s, issued) && FenceTx(s, issued, r, grant, step).Commit?
    ensures GrantsOk(FenceTx(s, issued, r, grant, step).post, if step.IssueStep? then issued + {grant} else issued)
  {
    if step.IssueStep? {
      IssueKeepsGrants(s, issued, r, step.client, step.owner, step.ttl, grant);
    } else {
      FenceStepsTouch(s, issued, r, grant, step);
      OldGrantOk(s, FenceTx(s, issued, r, grant, step).post, r, issued);
    }
  }

  lemma StepKeepsGrants(w: World, step: Step)
    requires GrantsOk(w.db, w.issued)
    ensures GrantsOk(Next(w, step).db, Next(w, step).issued)
    ensures w.issued <= Next(w, step).issued
  {
    if Transact(w, step).Commit? {
      if step.OfFence? {
        FenceKeepsGrants(w.db, w.issued, step.r, step.grant, step.fence);
      } else {
        GrantsStay(w, step);
        SameGrantsOk(w.db, Next(w, step).db, w.issued);
      }
    }
  }

  ghost predicate GrantsSame(s: State, t: State) {
    forall r :: r in t.sessions ==> t.sessions[r].grant == if r in s.sessions then s.sessions[r].grant else None
  }

  lemma ReleaseGrantsSame(s: State, client: nat, console: Option<string>, key: string, r: ReservationId, why: string,
                          force: bool)
    requires ReleaseTx(s, client, console, key, r, why, force).Commit?
    ensures GrantsSame(s, ReleaseTx(s, client, console, key, r, why, force).post)
  {
    var t := ReleaseTx(s, client, console, key, r, why, force).post;
    var begun := ReleaseBegun(s, client, key, r, why, force);
    if t.sessions != s.sessions {
      CloseGrantsSame(begun, r, if force then ReservationForceReleased else ReservationReleased);
    }
  }

  lemma CloseGrantsSame(s: State, r: ReservationId, terminal: ReservationStatus)
    requires CloseTx(s, r, terminal).Commit?
    ensures GrantsSame(s, CloseTx(s, r, terminal).post)
  {
  }

  lemma LeaseGrantsSame(s: State, step: LeaseStep)
    requires LeaseTx(s, step).Commit?
    ensures GrantsSame(s, LeaseTx(s, step).post)
  {
    var t := LeaseTx(s, step).post;
    match step
    case ReleaseStep(client, console, key, r, why, force) => ReleaseGrantsSame(s, client, console, key, r, why, force);
    case CreateStep(r, q, actor) => assert t.sessions == s.sessions;
    case ExtendStep(client, key, r, seconds) => assert t.sessions == s.sessions;
    case KeepAliveStep(r, owner, d, seconds) => assert t.sessions == s.sessions;
    case StaleStep(r, timeout, grace) => assert t.sessions == s.sessions;
    case OrphanStep(r, grace) => assert t.sessions == s.sessions;
  }

  lemma RoundGrantsSame(s: State, round: Round, step: RoundStep)
    requires RoundTx(s, round, step).Commit?
    ensures GrantsSame(s, RoundTx(s, round, step).post)
  {
  }

  lemma SweepGrantsSame(s: State, sweep: Sweep, step: SweepStep, grace: nat)
    requires SweepTx(s, sweep, step, grace).Commit?
    ensures GrantsSame(s, SweepTx(s, sweep, step, grace).post)
  {
  }

  /** Only the fence writes grants; a new session has none. */
  lemma GrantsStay(w: World, step: Step)
    requires !step.OfFence? && Transact(w, step).Commit?
    ensures GrantsSame(w.db, Next(w, step).db)
  {
    match step
    case OfRound(k, round) => RoundGrantsSame(w.db, RoundOf(w, k), round);
    case OfLease(lease) => LeaseGrantsSame(w.db, lease);
    case OfSweep(k, sweep) => SweepGrantsSame(w.db, SweepOf(w, k), sweep, w.policy.grace);
    case OfDevice(d, device) => DeviceStepsTouch(w.db, d, device, w.policy.threshold);
    case _ =>
  }

  /** `g` was issued and no session stores it any more. */
  ghost predicate Dead(s: State, issued: set<string>, g: string) {
    g in issued && forall r :: r in s.sessions && s.sessions[r].grant.Some? ==>
        s.sessions[r].grant.value.hash != Sha256(g)
  }

  /** `g` was issued and, wherever it is still stored, it has been consumed. */
  ghost predicate Spent(s: State, issued: set<string>, g: string) {
    g in issued
    && forall r :: r in s.sessions && s.sessions[r].grant.Some? && s.sessions[r].grant.value.hash == Sha256(g)
                   ==> s.sessions[r].grant.value.consumed.Some?
  }

  lemma DeadAndSpentStay(w: World, step: Step, g: string)
    ensures Dead(w.db, w.issued, g) ==> Dead(Next(w, step).db, Next(w, step).issued, g)
    ensures Spent(w.db, w.issued, g) ==> Spent(Next(w, step).db, Next(w, step).issued, g)
  {
    StepEvolvesSessions(w, step);
    var s, t := w.db, Next(w, step).db;
    forall r | r in t.sessions && t.sessions[r].grant.Some? && r in s.sessions
      ensures GrantEvolves(s.sessions[r].grant, t.sessions[r].grant, s.now, w.issued)
    {
      assert SessionEvolves(s, r, t.sessions[r], w.issued);
    }
  }

  /** A step in which grant `g` is consumed. */
  predicate Consumes(w: World, step: Step, g: string) {
    step.OfFence? && step.fence.ConsumeStep? && step.grant == g && Transact(w, step).Commit?
  }

  lemma ConsumptionSpends(w: World, step: Step, g: string)
    requires GrantsOk(w.db, w.issued) && Consumes(w, step, g)
    ensures !Spent(w.db, w.issued, g) && Spent(Next(w, step).db, Next(w, step).issued, g)
  {
  }

  function Consumptions(w: World, steps: seq<Step>, g: string): (result: nat)
    decreases |steps|
  {
    if steps == [] then 0
    else (if Consumes(w, steps[0], g) then 1 else 0) + Consumptions(Next(w, steps[0]), steps[1..], g)
  }

  lemma {:induction false} SpentIsOver(w: World, steps: seq<Step>, g: string)
    requires GrantsOk(w.db, w.issued) && Spent(w.db, w.issued, g)
    ensures Consumptions(w, steps, g) == 0
    decreases |steps|
  {
    if steps == [] {
    } else {
      StepKeepsGrants(w, steps[0]);
      DeadAndSpentStay(w, steps[0], g);
      if Consumes(w, steps[0], g) {
        ConsumptionSpends(w, steps[0], g);
      }
      SpentIsOver(Next(w, steps[0]), steps[1..], g);
    }
  }

  /** In any run a grant is consumed at most once. */
  lemma {:induction false} ConsumedAtMostOnce(w: World, steps: seq<Step>, g: string)
    requires GrantsOk(w.db, w.issued)
    ensures Consumptions(w, steps, g) <= 1
    decreases |steps|
  {
    if steps == [] {
    } else {
      StepKeepsGrants(w, steps[0]);
      if Consumes(w, steps[0], g) {
        ConsumptionSpends(w, steps[0], g);
        SpentIsOver(Next(w, steps[0]), steps[1..], g);
      } else {
        ConsumedAtMostOnce(Next(w, steps[0]), steps[1..], g);
      }
    }
  }

  /** Issuing a new grant kills the one the session stored before. */
  lemma ReissueKills(w: World, r: ReservationId, grant: string, issue: FenceStep, before: string)
    requires GrantsOk(w.db, w.issued) && issue.IssueStep? && Transact(w, OfFence(r, grant, issue)).Commit?
    requires r in w.db.sessions && w.db.sessions[r].grant.Some? && w.db.sessions[r].grant.value.hash == Sha256(before)
    ensures var v := Next(w, OfFence(r, grant, issue)); Dead(v.db, v.issued, before)
  {
  }

  /** A dead grant stays dead: whatever is attempted with it later is answered as if it never existed. */
  lemma {:induction false} DeadForever(w: World, steps: seq<Step>, g: string, r: ReservationId, h: HostId, id: string,
                                       pinned: bool)
    requires Dead(w.db, w.issued, g)
    ensures var v := Run(w, steps);
            && Dead(v.db, v.issued, g)
            && ConsumeTx(v.db, r, g, h, pinned) == Rollback(ErrNotFound)
            && BindTx(v.db, r, g, h, id) == Rollback(ErrNotFound)
            && CloseSessionTx(v.db, r, g, h, id) == Rollback(ErrNotFound)
            && !Authorized(v.db, r, g, h, id)
    decreases |steps|
  {
    if steps == [] {
    } else {
      DeadAndSpentStay(w, steps[0], g);
      DeadForever(Next(w, steps[0]), steps[1..], g, r, h, id, pinned);
    }
  }

  // ---- Bindings ----

  /** Once bound, a session names the same Appium session for the rest of any run, and once that has
      ended it stays ended. */
  lemma {:induction false} BindsOnce(w: World, steps: seq<Step>, r: ReservationId)
    requires r in w.db.sessions && w.db.sessions[r].appium.Some?
    ensures var v := Run(w, steps);
            && r in v.db.sessions && v.db.sessions[r].appium.Some?
            && v.db.sessions[r].appium.value.id == w.db.sessions[r].appium.value.id
            && v.db.sessions[r].appium.value.started == w.db.sessions[r].appium.value.started
            && (w.db.sessions[r].appium.value.ended.Some? ==> v.db.sessions[r].appium == w.db.sessions[r].appium)
    decreases |steps|
  {
    if steps == [] {
    } else {
      StepEvolvesSessions(w, steps[0]);
      assert SessionEvolves(w.db, r, Next(w, steps[0]).db.sessions[r], w.issued);
      BindsOnce(Next(w, steps[0]), steps[1..], r);
    }
  }

  /** Nothing can be authorized on this session: its Appium session has ended, or the lease is over. */
  ghost predicate CutOff(s: State, r: ReservationId) {
    || (r in s.sessions && s.sessions[r].appium.Some? && s.sessions[r].appium.value.ended.Some?)
    || (r in s.reservations && s.reservations[r].expires.Some? && RanOut(s, r, s.reservations[r].expires.value))
    || (r in s.reservations
        && s.reservations[r].status in {ReservationReleased, ReservationForceReleased, ReservationExpired})
  }

  lemma CutOffStays(w: World, step: Step, r: ReservationId)
    requires LeasesOk(w.db, w.policy.grace) && CutOff(w.db, r)
    ensures CutOff(Next(w, step).db, r)
  {
    var s, t := w.db, Next(w, step).db;
    StepEvolves(w, step);
    StepEvolvesSessions(w, step);
    if r in s.sessions {
      assert SessionEvolves(s, r, t.sessions[r], w.issued);
    }
    if r in s.reservations && s.reservations[r].expires.Some? && RanOut(s, r, s.reservations[r].expires.value) {
      RanOutStays(s, t, r, s.reservations[r].expires.value, w.policy.grace);
    }
  }

  /** Authorization is confined to the bound session between bind and end, while the lease runs: after
      the end, the expiry or the close no later state of any run authorizes anything on it. */
  lemma {:induction false} NothingAuthorizedAfterCutOff(w: World, steps: seq<Step>, r: ReservationId, g: string,
                                                        h: HostId, id: string)
    requires LeasesOk(w.db, w.policy.grace) && CutOff(w.db, r)
    ensures !Authorized(Run(w, steps).db, r, g, h, id)
    decreases |steps|
  {
    if steps == [] {
    } else {
      CutOffStays(w, steps[0], r);
      StepEvolves(w, steps[0]);
      EvolutionKeepsLeases(w.db, Next(w, steps[0]).db, w.policy.grace);
      NothingAuthorizedAfterCutOff(Next(w, steps[0]), steps[1..], r, g, h, id);
    }
  }

  // ---- The expiry sweep ----

  ghost predicate SweepOk(s: State, sweep: Sweep) {
    && (sweep != Resting ==>
          sweep.r in s.reservations && s.reservations[sweep.r].expires.Some?
          && RanOut(s, sweep.r, s.reservations[sweep.r].expires.value))
    && (sweep.Deleting? ==>
          sweep.r in s.sessions && s.sessions[sweep.r].appium.Some? && s.sessions[sweep.r].appium.value.id == sweep.id)
    && (sweep.Cleaned? && sweep.r in s.sessions ==> !Live(s.sessions[sweep.r]))
  }

  ghost predicate SweepsOk(w: World) {
    forall k :: k in w.sweeps ==> SweepOk(w.db, w.sweeps[k])
  }

  /** What a sweep knows stays true whatever the others do. */
  lemma SweepFactsEvolve(s: State, t: State, sweep: Sweep, issued: set<string>, grace: nat)
    requires RowsEvolve(s, t, grace) && SessionsEvolve(s, t, issued) && SessionsMatch(s) && SweepOk(s, sweep)
    ensures SweepOk(t, sweep)
  {
    if sweep != Resting {
      var r := sweep.r;
      RanOutStays(s, t, r, s.reservations[r].expires.value, grace);
      if r in s.sessions {
        assert SessionMatches(s, r) && SessionEvolves(s, r, t.sessions[r], issued);
      }
    }
  }

  lemma SweepFactsStay(w: World, step: Step, sweep: Sweep)
    requires LeasesOk(w.db, w.policy.grace) && SessionsMatch(w.db) && SweepOk(w.db, sweep)
    ensures SweepOk(Next(w, step).db, sweep)
  {
    StepEvolves(w, step);
    StepEvolvesSessions(w, step);
    SweepFactsEvolve(w.db, Next(w, step).db, sweep, w.issued, w.policy.grace);
  }

  /** Reading that no cleanup is needed, or finishing one, leaves no live session behind. */
  lemma StepKeepsSweeps(w: World, step: Step)
    requires LeasesOk(w.db, w.policy.grace) && SessionsMatch(w.db) && SweepsOk(w)
    ensures SweepsOk(Next(w, step))
  {
    var v := Next(w, step);
    forall k | k in v.sweeps
      ensures SweepOk(v.db, v.sweeps[k])
    {
      if step.OfSweep? && k == step.sweeper {
        var before := SweepOf(w, k);
        assert SweepOk(w.db, before);
        SweepFactsStay(w, step, before);
        SweepAdvances(w.db, before, step.sweep, w.policy.grace);
        if v.sweeps[k] != Resting && !(step.sweep.DeletedStep? && before.Deleting?) {
          SweepFactsStay(w, step, v.sweeps[k]);
        }
      } else {
        assert SweepOk(w.db, w.sweeps[k]);
        SweepFactsStay(w, step, w.sweeps[k]);
      }
    }
  }

  lemma SweepAdvances(s: State, sweep: Sweep, step: SweepStep, grace: nat)
    requires LeasesOk(s, grace) && SessionsMatch(s) && SweepOk(s, sweep)
    ensures step.DeletedStep? && sweep.Deleting? ==> !Live(CleanupTx(s, sweep.r, sweep.id).After(s).sessions[sweep.r])
    ensures !(step.DeletedStep? && sweep.Deleting?) ==> SweepOk(s, NextSweep(s, sweep, step, grace))
  {
    if step.FindStep? && FindsExpired(s, step.r, grace) {
      assert LeaseOk(s, s.reservations[step.r], grace);
    }
    if step.ReadStep? && sweep.Found? && sweep.r in s.sessions {
      assert SessionMatches(s, sweep.r);
    }
  }

  /** The sweep closes only reservations whose lease ran out, no earlier than the grace after it, and
      only when no Appium session is live on them. */
  lemma SweepClosesClean(w: World, k: nat)
    requires LeasesOk(w.db, w.policy.grace) && SessionsMatch(w.db) && SweepsOk(w)
    requires k in w.sweeps && w.sweeps[k].Cleaned? && Transact(w, OfSweep(k, CloseStep)).Commit?
    ensures var r := w.sweeps[k].r;
            && w.db.reservations[r].expires.value + w.policy.grace <= w.db.now
            && Next(w, OfSweep(k, CloseStep)).db.reservations[r].status == ReservationExpired
            && r in w.db.sessions && !Live(w.db.sessions[r])
  {
    assert SweepOk(w.db, w.sweeps[k]);
  }
}
