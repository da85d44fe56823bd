/** What holds in every reachable state of the farm, however the scheduler, the sweeps, the heartbeats,
    the reconciler, the administrators and the session fence interleave. Reservations and devices stay in
    step exactly as long as no administrator acts carelessly; everything else holds in any case. */
module Safety {
  import opened Domain
  import opened Rows
  import opened Scheduling
  import opened Reservations
  import opened Observation
  import opened Grants
  import opened Protocol
  import opened Coupling
  import opened Leases
  import opened Fence
  import opened Occupancy
  import opened Idempotency
  import opened Claims

  ghost predicate Sound(w: World) {
    && SessionsMatch(w.db) && LeasesOk(w.db, w.policy.grace) && WithinCap(w.db)
    && OneRequestPerKey(w.db) && OneHolderPerTarget(w.db) && GrantsOk(w.db, w.issued) && SweepsOk(w) && ClaimsOk(w)
  }

  /** A farm with nothing allocated. */
  ghost predicate Initial(w: World) {
    && w.db.reservations == map[] && w.db.sessions == map[] && w.db.operations == map[] && PoolsSane(w.db)
    && (forall d :: d in w.db.devices ==> w.db.devices[d].lifecycle !in {DeviceReserved, DeviceBusy})
    && w.rounds == map[] && w.sweeps == map[] && w.issued == {}
  }

  lemma InitiallySound(w: World)
    requires Initial(w)
    ensures Sound(w)
  {
  }

  lemma StepKeepsSound(w: World, step: Step)
    requires Sound(w)
    ensures Sound(Next(w, step)) && Next(w, step).policy == w.policy
    ensures RowsEvolve(w.db, Next(w, step).db, w.policy.grace)
  {
    StepKeepsMatch(w, step);
    StepEvolves(w, step);
    EvolutionKeepsLeases(w.db, Next(w, step).db, w.policy.grace);
    StepKeepsCap(w, step);
    EvolutionKeepsRequests(w.db, Next(w, step).db, w.policy.grace);
    EvolutionKeepsTargets(w.db, Next(w, step).db, w.policy.grace);
    StepKeepsGrants(w, step);
    StepKeepsSweeps(w, step);
    StepKeepsClaims(w, step);
  }

  lemma {:induction false} RunKeepsSound(w: World, steps: seq<Step>)
    requires Sound(w)
    ensures Sound(Run(w, steps)) && Run(w, steps).policy == w.policy
    decreases |steps|
  {
    if steps == [] {
    } else {
      StepKeepsSound(w, steps[0]);
      RunKeepsSound(Next(w, steps[0]), steps[1..]);
    }
  }

  // ---- Careful runs ----

  /** A run without a careless step. */
  ghost predicate Careful(w: World, steps: seq<Step>)
    decreases |steps|
  {
    steps == [] || (!CarelessStep(w, steps[0]) && Careful(Next(w, steps[0]), steps[1..]))
  }

  ghost predicate CoupledThroughout(w: World, steps: seq<Step>)
    decreases |steps|
  {
    Coupled(w.db) && (steps == [] || CoupledThroughout(Next(w, steps[0]), steps[1..]))
  }

  /** Reservations and devices are in step in every state of a run if and only if the run has no careless
      step. */
  lemma {:induction false} CoupledExactlyWhileCareful(w: World, steps: seq<Step>)
    requires Coupled(w.db)
    ensures CoupledThroughout(w, steps) <==> Careful(w, steps)
    ensures Careful(w, steps) ==> Coupled(Run(w, steps).db)
    decreases |steps|
  {
    if steps == [] {
    } else {
      StepKeepsCouplingExactlyWhen(w, steps[0]);
      if !CarelessStep(w, steps[0]) {
        CoupledExactlyWhileCareful(Next(w, steps[0]), steps[1..]);
      } else {
        assert !CoupledThroughout(Next(w, steps[0]), steps[1..]);
      }
    }
  }

  lemma InitiallyCoupled(w: World)
    requires Initial(w)
    ensures Coupled(w.db)
  {
  }

  // ---- The allocation protocol in every reachable state ----

  ghost predicate OpenOn(s: State, d: DeviceId, r: ReservationId) {
    && r in s.reservations && s.reservations[r].status in {ReservationPending, ReservationActive}
    && s.reservations[r].device == Some(d)
  }

  /** Reservations and devices of every state a careful run reaches:
      a device is bound by at most one open reservation; an active one has a busy or quarantined device
      and a pending one that holds a device has it reserved or quarantined; conversely a busy device has
      an active reservation and a reserved device a pending one. */
  lemma AllocationIsConsistent(w: World, steps: seq<Step>)
    requires Initial(w) && Careful(w, steps)
    ensures var s := Run(w, steps).db;
            && (forall d, r, q :: OpenOn(s, d, r) && OpenOn(s, d, q) ==> r == q)
            && (forall d, r :: OpenOn(s, d, r) ==>
                  && d in s.devices
                  && (s.reservations[r].status == ReservationActive ==>
                        s.devices[d].lifecycle in {DeviceBusy, DeviceQuarantined})
                  && (s.reservations[r].status == ReservationPending ==>
                        s.devices[d].lifecycle in {DeviceReserved, DeviceQuarantined}))
            && (forall d :: d in s.devices && s.devices[d].lifecycle == DeviceBusy ==>
                              exists r :: OpenOn(s, d, r) && s.reservations[r].status == ReservationActive)
            && (forall d :: d in s.devices && s.devices[d].lifecycle == DeviceReserved ==>
                              exists r :: OpenOn(s, d, r) && s.reservations[r].status == ReservationPending)
  {
    InitiallyCoupled(w);
    CoupledExactlyWhileCareful(w, steps);
    CoupledMeans(Run(w, steps).db);
  }

  /** In every reachable state an active reservation has exactly one session, which is active and on the same
      device, and no other session is active. */
  lemma SessionsFollowReservations(w: World, steps: seq<Step>)
    requires Initial(w)
    ensures var s := Run(w, steps).db;
            && (forall r :: r in s.reservations && s.reservations[r].status == ReservationActive ==>
                              r in s.sessions && s.sessions[r].status == SessionActive
                              && s.reservations[r].device == Some(s.sessions[r].device))
            && (forall r :: r in s.sessions && s.sessions[r].status == SessionActive ==>
                              r in s.reservations && s.reservations[r].status == ReservationActive)
  {
    InitiallySound(w);
    RunKeepsSound(w, steps);
    SessionsMean(Run(w, steps).db);
  }

  lemma SessionsMean(s: State)
    requires SessionsMatch(s)
    ensures forall r :: r in s.reservations && s.reservations[r].status == ReservationActive ==>
                          r in s.sessions && s.sessions[r].status == SessionActive
                          && s.reservations[r].device == Some(s.sessions[r].device)
    ensures forall r :: r in s.sessions && s.sessions[r].status == SessionActive ==>
                          r in s.reservations && s.reservations[r].status == ReservationActive
  {
  }

  lemma CoupledMeans(s: State)
    requires Coupled(s)
    ensures forall d, r, q :: OpenOn(s, d, r) && OpenOn(s, d, q) ==> r == q
    ensures forall d, r :: OpenOn(s, d, r) ==>
                             && d in s.devices
                             && (s.reservations[r].status == ReservationActive ==>
                                   s.devices[d].lifecycle in {DeviceBusy, DeviceQuarantined})
                             && (s.reservations[r].status == ReservationPending ==>
                                   s.devices[d].lifecycle in {DeviceReserved, DeviceQuarantined})
    ensures forall d :: d in s.devices && s.devices[d].lifecycle == DeviceBusy ==>
                          exists r :: OpenOn(s, d, r) && s.reservations[r].status == ReservationActive
    ensures forall d :: d in s.devices && s.devices[d].lifecycle == DeviceReserved ==>
                          exists r :: OpenOn(s, d, r) && s.reservations[r].status == ReservationPending
  {
    forall d, r
      ensures OpenOn(s, d, r) <==> r in s.reservations && Bound(s.reservations[r], d)
    {
    }
  }

  /** The active reservations whose device is on the host. */
  ghost function ActiveReservations(s: State, h: HostId): (result: set<ReservationId>) {
    set r | && r in s.reservations && s.reservations[r].status == ReservationActive
            && s.reservations[r].device.Some? && s.reservations[r].device.value in s.devices
            && s.devices[s.reservations[r].device.value].host == h
  }

  /** With the pools fixed, no host ever runs more active reservations than its cap, and no lease ever
      reaches further than the pool's window from now. */
  lemma LimitsHold(w: World, steps: seq<Step>, h: HostId, r: ReservationId)
    requires Initial(w)
    ensures var s := Run(w, steps).db;
            && s.pools == w.db.pools && s.hostPool == w.db.hostPool
            && (h in s.hostPool && s.hostPool[h] in s.pools && s.pools[s.hostPool[h]].enabled ==>
                  |ActiveReservations(s, h)| <= s.pools[s.hostPool[h]].maxConcurrency)
            && (r in s.reservations && s.reservations[r].status == ReservationActive ==>
                  && s.reservations[r].request.pool in s.pools && s.reservations[r].expires.Some?
                  && s.reservations[r].expires.value <= s.now
                      + s.pools[s.reservations[r].request.pool].maxLease * 1_000_000)
  {
    InitiallySound(w);
    RunKeepsSound(w, steps);
    PoolsFixed(w, steps);
    var s := Run(w, steps).db;
    assert ActiveReservations(s, h) == ActiveOnHost(s, h);
    if r in s.reservations { assert LeaseOk(s, s.reservations[r], w.policy.grace); }
  }

  lemma {:induction false} PoolsFixed(w: World, steps: seq<Step>)
    requires Sound(w)
    ensures Run(w, steps).db.pools == w.db.pools && Run(w, steps).db.hostPool == w.db.hostPool
    ensures w.db.now <= Run(w, steps).db.now
    decreases |steps|
  {
    if steps == [] {
    } else {
      StepKeepsSound(w, steps[0]);
      PoolsFixed(Next(w, steps[0]), steps[1..]);
    }
  }

  // ---- Expiry ----

  /** Expiry is irrevocable. Once the clock has reached a lease's expiry, no run extends it: as long as
      the reservation is active its row does not change at all, and afterwards it is closed with that
      expiry. So what a sweep found without a lock is still there when it takes the lock. */
  lemma {:induction false} ExpiryIsIrrevocable(w: World, steps: seq<Step>, r: ReservationId, expiry: int)
    requires Sound(w) && RanOut(w.db, r, expiry)
    ensures var t := Run(w, steps).db;
            && RanOut(t, r, expiry)
            && (t.reservations[r].status == ReservationActive ==> t.reservations[r] == w.db.reservations[r])
            && (t.reservations[r].status == ReservationExpired && w.db.reservations[r].status == ReservationActive ==>
                  t.reservations[r].released.Some?
                      && expiry + w.policy.grace <= t.reservations[r].released.value <= t.now)
    decreases |steps|
  {
    if steps == [] {
    } else {
      StepKeepsSound(w, steps[0]);
      RanOutStays(w.db, Next(w, steps[0]).db, r, expiry, w.policy.grace);
      ExpiryIsIrrevocable(Next(w, steps[0]), steps[1..], r, expiry);
      RunKeepsSound(w, steps);
    }
    RunKeepsSound(w, steps);
    assert LeaseOk(Run(w, steps).db, Run(w, steps).db.reservations[r], w.policy.grace);
  }

  /** An active reservation can be closed exactly when the release statement accepts its device's lifecycle. */
  lemma CloseCommitsExactlyWhen(s: State, r: ReservationId, terminal: ReservationStatus)
    requires SessionsMatch(s)
    requires r in s.reservations && s.reservations[r].status == ReservationActive
    requires Edge(RESERVATION_TRANSITIONS, ReservationActive, terminal)
    ensures r in s.sessions && s.reservations[r].device == Some(s.sessions[r].device)
            && s.sessions[r].device in s.devices
    ensures CloseTx(s, r, terminal).Commit? <==> SqlAccepts(s.devices[s.sessions[r].device].lifecycle)
  {
    assert SessionMatches(s, r);
    var dev := s.devices[s.sessions[r].device];
    if SqlAccepts(dev.lifecycle) {
      SqlFollowsAggregate(s, dev);
    }
  }

  /** While reservations and devices are in step, closing an active reservation is never refused. */
  lemma CloseNeverRefused(s: State, r: ReservationId, terminal: ReservationStatus)
    requires Coupled(s) && SessionsMatch(s)
    requires r in s.reservations && s.reservations[r].status == ReservationActive
    requires Edge(RESERVATION_TRANSITIONS, ReservationActive, terminal)
    ensures CloseTx(s, r, terminal).Commit?
  {
    assert HolderHasDevice(s, r);
    CloseCommitsExactlyWhen(s, r, terminal);
  }

  /** The locked close of a sweep is never refused in a careful run: whenever an active reservation is due, it
      commits. */
  lemma ReapAlwaysSucceeds(w: World, steps: seq<Step>, r: ReservationId)
    requires Initial(w) && Careful(w, steps)
    requires var s := Run(w, steps).db;
             r in s.reservations && s.reservations[r].status == ReservationActive
             && s.reservations[r].expires.Some? && s.reservations[r].expires.value + w.policy.grace <= s.now
    ensures ReapTx(Run(w, steps).db, r, w.policy.grace).Commit?
  {
    InitiallySound(w);
    RunKeepsSound(w, steps);
    InitiallyCoupled(w);
    CoupledExactlyWhileCareful(w, steps);
    ReapSucceeds(Run(w, steps).db, r, w.policy.grace);
  }

  lemma ReapSucceeds(s: State, r: ReservationId, grace: nat)
    requires Coupled(s) && SessionsMatch(s)
    requires r in s.reservations && s.reservations[r].status == ReservationActive
    requires s.reservations[r].expires.Some? && s.reservations[r].expires.value + grace <= s.now
    ensures ReapTx(s, r, grace).Commit?
  {
    CloseNeverRefused(s, r, ReservationExpired);
  }

  /** The sweep never closes a reservation under a live Appium session. */
  lemma ReapClosesClean(w: World, steps: seq<Step>, k: nat)
    requires Initial(w)
    requires var v := Run(w, steps);
             k in v.sweeps && v.sweeps[k].Cleaned? && Transact(v, OfSweep(k, CloseStep)).Commit?
    ensures var v := Run(w, steps);
            var r := v.sweeps[k].r;
            && v.db.reservations[r].expires.value + w.policy.grace <= v.db.now
            && Next(v, OfSweep(k, CloseStep)).db.reservations[r].status == ReservationExpired
            && r in v.db.sessions
            && (v.db.sessions[r].appium == None || v.db.sessions[r].appium.value.ended.Some?)
  {
    InitiallySound(w);
    RunKeepsSound(w, steps);
    SweepClosesClean(Run(w, steps), k);
  }

  // ---- Control of a device ----

  /** At any moment of a careful run one Appium session at most is authorized on a device, through one grant. */
  lemma OneControllerPerDevice(w: World, steps: seq<Step>, r: ReservationId, g: string, h: HostId, id: string,
                               q: ReservationId, f: string, e: HostId, other: string)
    requires Initial(w) && Careful(w, steps)
    requires var s := Run(w, steps).db;
             Authorized(s, r, g, h, id) && Authorized(s, q, f, e, other) && s.sessions[r].device == s.sessions[q].device
    ensures r == q && g == f && h == e && id == other
  {
    InitiallySound(w);
    RunKeepsSound(w, steps);
    InitiallyCoupled(w);
    CoupledExactlyWhileCareful(w, steps);
    var s := Run(w, steps).db;
    assert SessionMatches(s, r) && SessionMatches(s, q);
    assert Bound(s.reservations[r], s.sessions[r].device);
    assert SoleHolder(s, r, s.sessions[r].device);
  }

  /** Grants in a run from an empty farm: none is consumed twice. */
  lemma NoGrantTwice(w: World, steps: seq<Step>, g: string)
    requires Initial(w)
    ensures Consumptions(w, steps, g) <= 1
  {
    InitiallySound(w);
    ConsumedAtMostOnce(w, steps, g);
  }

  /** An extension never shortens a lease in any reachable state. */
  lemma ReachableExtendNeverShortens(w: World, steps: seq<Step>, client: nat, key: string, r: ReservationId,
                                     seconds: int)
    requires Initial(w)
    requires r in Run(w, steps).db.reservations && Run(w, steps).db.reservations[r].status == ReservationActive
    requires ExtendTx(Run(w, steps).db, client, key, r, seconds).Commit?
    ensures var s := Run(w, steps).db;
            && s.reservations[r].expires.Some?
            && s.reservations[r].expires.value
               <= ExtendTx(s, client, key, r, seconds).post.reservations[r].expires.value
  {
    InitiallySound(w);
    RunKeepsSound(w, steps);
    var s := Run(w, steps).db;
    assert LeaseOk(s, s.reservations[r], w.policy.grace);
    ExtendNeverShortens(s, client, key, r, seconds, w.policy.grace);
  }
}
