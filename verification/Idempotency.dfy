/** Exactly-once effects: an extension or a release repeated under one key takes effect once in any
    run, and one client key creates one reservation. */
module Idempotency {
  import opened Domain
  import opened Rows
  import opened Scheduling
  import opened Reservations
  import opened Protocol
  import opened Leases

  /** The keyed call a step makes, if it makes one. */
  function Call(step: Step): (result: Option<(OpKey, Operation)>) {
    if !step.OfLease? then None
    else match step.lease
      case ExtendStep(client, key, r, seconds) =>
        Some((OpKey(client, ExtendScope, key), Operation(ExtendBody(seconds), r)))
      case ReleaseStep(client, console, key, r, why, force) =>
        Some((OpKey(client, ReleaseScope, key), Operation(ReleaseBody(why, force), r)))
      case _ => None
  }

  /** A call under `k` that changes anything at all. */
  ghost predicate TakesEffect(w: World, step: Step, k: OpKey) {
    Call(step).Some? && Call(step).value.0 == k && Next(w, step).db != w.db
  }

  /** The record of a call is written exactly when the call takes effect. */
  ghost predicate Records(s: State, t: State, call: Option<(OpKey, Operation)>) {
    || (t.operations == s.operations && (call.Some? ==> t == s))
    || (call.Some? && call.value.0 !in s.operations && t.operations == s.operations[call.value.0 := call.value.1])
  }

  lemma CloseRecords(s: State, r: ReservationId, terminal: ReservationStatus)
    requires CloseTx(s, r, terminal).Commit?
    ensures CloseTx(s, r, terminal).post.operations == s.operations
  {
  }

  lemma ReleaseRecords(s: State, client: nat, console: Option<string>, key: string, r: ReservationId, why: string,
                       force: bool)
    requires ReleaseTx(s, client, console, key, r, why, force).Commit?
    ensures Records(s, ReleaseTx(s, client, console, key, r, why, force).post,
                    Call(OfLease(ReleaseStep(client, console, key, r, why, force))))
  {
    var k, op := OpKey(client, ReleaseScope, key), Operation(ReleaseBody(why, force), r);
    var t := ReleaseTx(s, client, console, key, r, why, force).post;
    if BeginOp(s, k, op) == Begun {
      var begun := ReleaseBegun(s, client, key, r, why, force);
      if s.reservations[r].status == ReservationActive {
        CloseRecords(begun, r, if force then ReservationForceReleased else ReservationReleased);
      }
      assert t.operations == begun.operations;
    } else {
      assert t == s;
    }
  }

  lemma LeaseRecords(s: State, step: LeaseStep)
    requires LeaseTx(s, step).Commit?
    ensures Records(s, LeaseTx(s, step).post, Call(OfLease(step)))
  {
    match step
    case ReleaseStep(client, console, key, r, why, force) => ReleaseRecords(s, client, console, key, r, why, force);
    case ExtendStep(client, key, r, seconds) =>
    case _ => assert Call(OfLease(step)) == None;
  }

  lemma SweepRecords(s: State, sweep: Sweep, step: SweepStep, grace: nat)
    requires SweepTx(s, sweep, step, grace).Commit?
    ensures SweepTx(s, sweep, step, grace).post.operations == s.operations
  {
  }

  lemma RoundRecords(s: State, round: Round, step: RoundStep)
    requires RoundTx(s, round, step).Commit?
    ensures RoundTx(s, round, step).post.operations == s.operations
  {
  }

  lemma StepRecords(w: World, step: Step)
    ensures Records(w.db, Next(w, step).db, Call(step))
  {
    if Transact(w, step).Commit? {
      match step
      case OfRound(k, round) => RoundRecords(w.db, RoundOf(w, k), round);
      case OfLease(lease) => LeaseRecords(w.db, lease);
      case OfSweep(k, sweep) => SweepRecords(w.db, SweepOf(w, k), sweep, w.policy.grace);
      case OfDevice(d, device) => DeviceStepsTouch(w.db, d, device, w.policy.threshold);
      case OfFence(r, grant, fence) => FenceStepsTouch(w.db, w.issued, r, grant, fence);
      case _ =>
    }
  }

  function One(b: bool): (result: nat) {
    if b then 1 else 0
  }

  /** How many calls under `k` take effect in a run. */
  ghost function Effects(w: World, steps: seq<Step>, k: OpKey): (result: nat)
    decreases |steps|
  {
    if steps == [] then 0
    else One(TakesEffect(w, steps[0], k)) + Effects(Next(w, steps[0]), steps[1..], k)
  }

  /** Over any interleaving the calls that share a client, a scope and a key take effect exactly once
      if their record appears during the run, and never otherwise. A record never changes. */
  lemma {:induction false} ExactlyOnce(w: World, steps: seq<Step>, k: OpKey)
    ensures Effects(w, steps, k) == One(k in Run(w, steps).db.operations) - One(k in w.db.operations)
    ensures Effects(w, steps, k) <= 1
    ensures k in w.db.operations ==>
              k in Run(w, steps).db.operations && Run(w, steps).db.operations[k] == w.db.operations[k]
    decreases |steps|
  {
    if steps == [] {
    } else {
      StepRecords(w, steps[0]);
      ExactlyOnce(Next(w, steps[0]), steps[1..], k);
    }
  }

  /** After an extension has taken effect, the same call is answered without changing anything in every
      later state of every run, and the key cannot be used for anything else. */
  lemma ExtensionReplays(w: World, client: nat, key: string, r: ReservationId, seconds: int, steps: seq<Step>,
                         r': ReservationId, other: int)
    requires TakesEffect(w, OfLease(ExtendStep(client, key, r, seconds)), OpKey(client, ExtendScope, key))
    ensures var v := Run(Next(w, OfLease(ExtendStep(client, key, r, seconds))), steps).db;
            && ExtendTx(v, client, key, r, seconds) == Commit(v)
            && ((r', other) != (r, seconds) ==> ExtendTx(v, client, key, r', other).Rollback?)
  {
    StepRecords(w, OfLease(ExtendStep(client, key, r, seconds)));
    ExactlyOnce(Next(w, OfLease(ExtendStep(client, key, r, seconds))), steps, OpKey(client, ExtendScope, key));
  }

  // ---- Creation ----

  ghost predicate OneRequestPerKey(s: State) {
    forall r, q :: (r in s.reservations && q in s.reservations
                    && SameKey(s.reservations[r].request, s.reservations[q].request)) ==> r == q
  }

  lemma EvolutionKeepsRequests(s: State, t: State, grace: nat)
    requires RowsEvolve(s, t, grace) && OneRequestPerKey(s)
    ensures OneRequestPerKey(t)
  {
  }

  // ---- Devices asked for by name ----

  /** No two users hold the same device by name. */
  ghost predicate OneHolderPerTarget(s: State) {
    forall d: DeviceId, r, q :: OpenTargeted(s, d, r) && OpenTargeted(s, d, q) ==> r == q
  }

  lemma EvolutionKeepsTargets(s: State, t: State, grace: nat)
    requires RowsEvolve(s, t, grace) && OneHolderPerTarget(s)
    ensures OneHolderPerTarget(t)
  {
    forall d: DeviceId, r, q | OpenTargeted(t, d, r) && OpenTargeted(t, d, q)
      ensures r == q
    {
      assert r in s.reservations ==> OpenTargeted(s, d, r);
      assert q in s.reservations ==> OpenTargeted(s, d, q);
    }
  }
}
