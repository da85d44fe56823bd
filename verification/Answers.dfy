/** What each operation on a reservation answers and leaves behind, said on the columns of the rows. */
module Answers {
  import opened Domain
  import opened Rows
  import opened Scheduling
  import opened Reservations

  // ---- Closing ----

  /** A fresh machine is owed after a run: a healthy Android emulator that is not quarantined, whose host's pool wants
      one, whether or not the pool is still enabled. */
  ghost predicate FreshMachineOwed(s: State, dev: Device) {
    && dev.platform == Android && dev.kind == Emulator
    && dev.health == HealthHealthy && dev.lifecycle != DeviceQuarantined
    && dev.host in s.hostPool && s.hostPool[dev.host] in s.pools && s.pools[s.hostPool[dev.host]].freshVM
  }

  /** What a close leaves of the device, the session and the reservation. */
  ghost predicate LeftBehind(s: State, t: State, r: ReservationId, terminal: ReservationStatus)
    requires r in s.reservations && s.reservations[r].device.Some? && s.reservations[r].device.value in s.devices
    requires r in s.sessions
  {
    var d := s.reservations[r].device.value;
    var dev := s.devices[d];
    && d in t.devices && r in t.reservations && r in t.sessions
    && (t.devices[d].lifecycle == DeviceRecycling <==> FreshMachineOwed(s, dev))
    && (t.devices[d].lifecycle == DeviceReady <==>
          dev.health == HealthHealthy && dev.lifecycle != DeviceQuarantined && !FreshMachineOwed(s, dev))
    && (t.devices[d].lifecycle == DeviceQuarantined <==>
          dev.health != HealthHealthy || dev.lifecycle == DeviceQuarantined)
    && t.devices[d] == dev.(lifecycle := t.devices[d].lifecycle,
                            mode := if FreshMachineOwed(s, dev) then RebuildMode else dev.mode)
    && t.reservations[r] == s.reservations[r].(status := terminal, released := Some(s.now), updated := s.now)
    && t.sessions[r] == s.sessions[r].(status := SessionClosed, ended := Some(s.now))
    && t.devices == s.devices[d := t.devices[d]] && t.reservations == s.reservations[r := t.reservations[r]]
    && t.sessions == s.sessions[r := t.sessions[r]]
    && t.operations == s.operations && t.hosts == s.hosts && t.now == s.now
  }

  ghost predicate Closable(s: State, r: ReservationId) {
    && r in s.reservations && s.reservations[r].status == ReservationActive
    && s.reservations[r].device.Some? && s.reservations[r].device.value in s.devices
    && s.devices[s.reservations[r].device.value].lifecycle
       in {DeviceReady, DeviceBusy, DeviceReserved, DeviceRecycling, DeviceQuarantined}
    && r in s.sessions && s.sessions[r].status == SessionActive
  }

  /** A close commits exactly for an active reservation with an active session whose device is in one of five
      lifecycles. The device is left recycling, in the rebuild mode, exactly when a fresh machine is owed; ready
      exactly when it was healthy, not quarantined and none is owed; and quarantined otherwise. */
  lemma ClosesExactlyWhen(s: State, r: ReservationId, terminal: ReservationStatus)
    requires terminal in {ReservationReleased, ReservationExpired, ReservationForceReleased}
    ensures CloseTx(s, r, terminal).Commit? <==> Closable(s, r)
    ensures CloseTx(s, r, terminal).Commit? ==> LeftBehind(s, CloseTx(s, r, terminal).post, r, terminal)
  {
    ActiveMayEnd(terminal);
    if r in s.reservations && s.reservations[r].device.Some? && s.reservations[r].device.value in s.devices {
      var dev := s.devices[s.reservations[r].device.value];
      if SqlAccepts(dev.lifecycle) {
        SqlFollowsAggregate(s, dev);
      }
    }
  }

  lemma ActiveMayEnd(terminal: ReservationStatus)
    requires terminal in {ReservationReleased, ReservationExpired, ReservationForceReleased}
    ensures forall from :: Edge(RESERVATION_TRANSITIONS, from, terminal) <==> from == ReservationActive
  {
  }

  /** A reap commits exactly for a closable reservation that is past its expiry and the grace. */
  lemma ReapsExactlyWhen(s: State, r: ReservationId, grace: nat)
    ensures ReapTx(s, r, grace).Commit? <==>
            Closable(s, r) && s.reservations[r].expires.Some? && s.reservations[r].expires.value + grace <= s.now
    ensures ReapTx(s, r, grace).Commit? ==> LeftBehind(s, ReapTx(s, r, grace).post, r, ReservationExpired)
  {
    ClosesExactlyWhen(s, r, ReservationExpired);
  }

  // ---- Releasing ----

  /** The record a release or an extension writes. */
  ghost predicate Fresh(s: State, k: OpKey) {
    k !in s.operations
  }

  ghost predicate Acceptable(key: string, why: string) {
    8 <= |key| <= 128 && 3 <= |TrimSpace(why)| <= 500
  }

  /** The caller is the client that made the reservation, the console user it was made for by hand, or uses force. */
  ghost predicate MayRelease(q: Request, client: nat, console: Option<string>, force: bool) {
    || q.client == client || force
    || (console.Some? && q.owner.0 == "manual" && q.owner.1 == console.value)
  }

  /** A release with a new key. It is refused for a key or a reason of the wrong length, for an unknown reservation,
      for a stranger without force and for a claim in flight; it fails a waiting reservation, closes an active one, as
      released or force-released, and leaves a closed one alone but for the record. */
  lemma ReleaseAnswers(s: State, client: nat, console: Option<string>, key: string, r: ReservationId, why: string,
                       force: bool)
    requires Fresh(s, OpKey(client, ReleaseScope, key))
    ensures var outcome := ReleaseTx(s, client, console, key, r, why, force);
            var k, begun := OpKey(client, ReleaseScope, key), Operation(ReleaseBody(why, force), r);
            var recorded := s.(operations := s.operations[k := begun]);
            var terminal := if force then ReservationForceReleased else ReservationReleased;
            if !Acceptable(key, why) then outcome == Rollback(ErrInvalidArgument)
            else if r !in s.reservations then outcome == Rollback(ErrNotFound)
            else if !MayRelease(s.reservations[r].request, client, console, force)
            then outcome == Rollback(ErrForbidden)
            else match s.reservations[r].status
              case ReservationPending =>
                if s.reservations[r].device.Some? then outcome == Rollback(ErrConflict)
                else outcome == Commit(recorded.(reservations := s.reservations[r := s.reservations[r].(
                                         status := ReservationFailed, failure := Some("RESERVATION_CANCELED"),
                                         updated := s.now)]))
              case ReservationActive =>
                && (outcome.Commit? <==> Closable(s, r))
                && (outcome.Commit? ==> LeftBehind(recorded, outcome.post, r, terminal))
              case _ => outcome == Commit(recorded)
  {
    var begun := ReleaseBegun(s, client, key, r, why, force);
    ClosesExactlyWhen(begun, r, if force then ReservationForceReleased else ReservationReleased);
  }

  /** A key that has been used: the same release is answered without effect, to those who may, and any other refused. */
  lemma UsedReleaseKeyAnswers(s: State, client: nat, console: Option<string>, key: string, r: ReservationId,
                              why: string, force: bool)
    requires !Fresh(s, OpKey(client, ReleaseScope, key)) && Acceptable(key, why)
    ensures var used := s.operations[OpKey(client, ReleaseScope, key)];
            var outcome := ReleaseTx(s, client, console, key, r, why, force);
            && (used.resource != r || used.body != ReleaseBody(why, force) ==>
                  outcome == Rollback(ErrIdempotencyConflict))
            && (used.resource == r && used.body == ReleaseBody(why, force) ==>
                  r in s.reservations && MayRelease(s.reservations[r].request, client, console, force) ==>
                    outcome == Commit(s))
  {
  }

  // ---- Extending ----

  /** An extension with a new key commits exactly for a key of the right length, a minute or more and no more than the
      pool's window, and an active reservation that has not expired. The expiry moves by the seconds asked for, but not
      past the window from now. */
  lemma ExtensionAnswers(s: State, client: nat, key: string, r: ReservationId, seconds: int)
    requires Fresh(s, OpKey(client, ExtendScope, key))
    ensures var outcome := ExtendTx(s, client, key, r, seconds);
            && (outcome.Commit? <==>
                  && 8 <= |key| <= 128 && seconds >= 60 && r in s.reservations
                  && var row := s.reservations[r];
                     && row.status == ReservationActive
                     && row.starts.Some? && row.expires.Some? && row.expires.value > s.now
                     && row.request.pool in s.pools && seconds <= s.pools[row.request.pool].maxLease)
            && (outcome.Commit? ==>
                  var row := s.reservations[r];
                  var asked := row.expires.value + seconds * 1_000_000;
                  var most := s.now + s.pools[row.request.pool].maxLease * 1_000_000;
                  && r in outcome.post.reservations && outcome.post.reservations[r].expires.Some?
                  && var expires := outcome.post.reservations[r].expires.value;
                     && expires <= asked && expires <= most && (expires == asked || expires == most)
                     && outcome.post.reservations[r] == row.(expires := Some(expires), updated := s.now)
                     && outcome.post == s.(
                          operations := s.operations[
                            OpKey(client, ExtendScope, key) := Operation(ExtendBody(seconds), r)],
                          reservations := s.reservations[r := outcome.post.reservations[r]]))
  {
  }

  /** The keep-alive of a lease a user took on a device by name: it ends the seconds asked for from now, but not past
      the window. */
  lemma KeepAliveAnswers(s: State, r: ReservationId, owner: string, d: DeviceId, seconds: int)
    ensures var outcome := KeepAliveTx(s, r, owner, d, seconds);
            && (outcome.Commit? <==>
                  && seconds >= 60 && r in s.reservations
                  && var row := s.reservations[r];
                     && row.status == ReservationActive && row.expires.Some? && row.expires.value > s.now
                     && row.request.owner.0 == "manual" && row.request.owner.1 == owner && row.request.target == Some(d)
                     && row.request.pool in s.pools)
            && (outcome.Commit? ==>
                  var row := s.reservations[r];
                  var asked := s.now + seconds * 1_000_000;
                  var most := s.now + s.pools[row.request.pool].maxLease * 1_000_000;
                  && r in outcome.post.reservations && outcome.post.reservations[r].expires.Some?
                  && var expires := outcome.post.reservations[r].expires.value;
                     && expires <= asked && expires <= most && (expires == asked || expires == most)
                     && outcome.post == s.(reservations := s.reservations[r := row.(
                                             expires := Some(expires), updated := s.now)]))
  {
  }

  // ---- Creating ----

  ghost predicate KeyUsed(s: State, q: Request, r: ReservationId) {
    r in s.reservations && s.reservations[r].request.client == q.client && s.reservations[r].request.key == q.key
  }

  /** A request that names no device. Wrong leases, pools and platforms are refused; a key used before answers the same
      request without effect and refuses another; otherwise a reservation waits from now on. */
  lemma CreationAnswers(s: State, id: ReservationId, q: Request, actor: string)
    requires q.target == None
    ensures var outcome := CreateTx(s, id, q, actor);
            if q.lease < 60 then outcome == Rollback(ErrInvalidArgument)
            else if q.pool !in s.pools then outcome == Rollback(ErrNotFound)
            else if !s.pools[q.pool].enabled then outcome == Rollback(ErrPoolUnavailable)
            else if q.platform.Some? && q.platform.value != s.pools[q.pool].platform
            then outcome == Rollback(ErrInvalidArgument)
            else if q.lease > s.pools[q.pool].maxLease
            then outcome == Rollback(ErrInvalidArgument)
            else Inserted(s, id, q, outcome)
  {
    KeysAnswer(s, id, q);
  }

  ghost predicate Inserted(s: State, id: ReservationId, q: Request, outcome: Outcome) {
    && ((exists r :: KeyUsed(s, q, r)) ==>
          && ((exists r :: r in s.reservations && s.reservations[r].request == q) ==> outcome == Commit(s))
          && ((forall r :: r in s.reservations ==> s.reservations[r].request != q) ==>
                outcome == Rollback(ErrIdempotencyConflict)))
    && ((forall r :: !KeyUsed(s, q, r)) && id in s.reservations ==> outcome == Rollback(ErrUniqueViolation))
    && ((forall r :: !KeyUsed(s, q, r)) && id !in s.reservations ==>
          outcome == Commit(s.(reservations := s.reservations[id :=
                                   Reservation(q, ReservationPending, None, None, None, None, None, s.now, s.now)])))
  }

  lemma KeysAnswer(s: State, id: ReservationId, q: Request)
    ensures Inserted(s, id, q, InsertTx(s, id, q))
  {
    assert forall r :: r in s.reservations ==> (SameKey(s.reservations[r].request, q) <==> KeyUsed(s, q, r));
  }

  /** A request for one device by name is refused unless that device is in the enabled pool, of its platform, and
      neither deleted, stopped nor quarantined. While a user holds the device by name the same user is answered
      without effect and others are refused. */
  lemma TargetedCreationAnswers(s: State, id: ReservationId, q: Request, actor: string)
    requires q.target.Some? && 60 <= q.lease && q.pool in s.pools && s.pools[q.pool].enabled
    requires (q.platform.Some? ==> q.platform.value == s.pools[q.pool].platform) && q.lease <= s.pools[q.pool].maxLease
    ensures var outcome := CreateTx(s, id, q, actor);
            var d := q.target.value;
            if !(&& d in s.devices && s.devices[d].pool == Some(q.pool)
                 && s.devices[d].platform == s.pools[q.pool].platform
                 && s.devices[d].lifecycle !in {DeviceDeleted, DeviceStopped, DeviceQuarantined})
            then outcome == Rollback(ErrNotFound)
            else if exists r :: HoldsByName(s, d, r) then
              exists r :: HoldsByName(s, d, r)
                          && outcome == if s.reservations[r].request.owner.1 == actor then Commit(s)
                                        else Rollback(ErrConflict)
            else Inserted(s, id, q, outcome)
  {
    var d := q.target.value;
    KeysAnswer(s, id, q);
    forall r
      ensures HoldsByName(s, d, r) <==> OpenTargeted(s, d, r)
    {
    }
    if r :| HoldsByName(s, d, r) {
      NewestTargetedExists(s, d, r);
      OneNewest(s, d);
    }
  }

  ghost predicate HoldsByName(s: State, d: DeviceId, r: ReservationId) {
    && r in s.reservations && s.reservations[r].status in {ReservationPending, ReservationActive}
    && s.reservations[r].request.owner.0 == "manual" && s.reservations[r].request.target == Some(d)
  }

  // ---- Sweeping ----

  /** An abandoned claim is failed past the grace, exactly on a reserved device, and the device goes back to ready
      only if it is healthy; otherwise it is quarantined. */
  lemma OrphanAnswers(s: State, r: ReservationId, grace: nat)
    ensures var outcome := OrphanTx(s, r, grace);
            && (outcome.Commit? <==>
                  && r in s.reservations && s.reservations[r].status == ReservationPending
                  && s.reservations[r].device.Some? && s.reservations[r].updated + grace <= s.now
                  && s.reservations[r].device.value in s.devices
                  && s.devices[s.reservations[r].device.value].lifecycle == DeviceReserved)
            && (outcome.Commit? ==>
                  var d := s.reservations[r].device.value;
                  var healthy := s.devices[d].health == HealthHealthy;
                  outcome.post == s.(
                    devices := s.devices[d := s.devices[d].(
                      lifecycle := if healthy then DeviceReady else DeviceQuarantined)],
                    reservations := s.reservations[r := s.reservations[r].(
                      device := None, status := ReservationFailed, failure := Some("CLAIM_ABANDONED"),
                      updated := s.now)]))
  {
  }

  /** A reservation that waits without a device is failed past the timeout and the grace. */
  lemma StaleAnswers(s: State, r: ReservationId, timeout: nat, grace: nat)
    ensures var outcome := StaleTx(s, r, timeout, grace);
            && (outcome.Commit? <==>
                  && r in s.reservations && s.reservations[r].status == ReservationPending
                  && s.reservations[r].device == None && s.reservations[r].created + timeout + grace <= s.now)
            && (outcome.Commit? ==>
                  outcome.post == s.(reservations := s.reservations[r := s.reservations[r].(
                    status := ReservationFailed, failure := Some("PENDING_TIMEOUT"), updated := s.now)]))
  {
  }

  /** A compensation commits exactly for a claim that still stands on a reserved, healthy device, and gives the device
      back; the reservation fails for good if that is asked for, and waits again otherwise. */
  lemma CompensationAnswers(s: State, r: ReservationId, d: DeviceId, code: string, terminal: bool)
    ensures var outcome := CompensateTx(s, r, d, code, terminal);
            && (outcome.Commit? <==>
                  && d in s.devices && s.devices[d].lifecycle == DeviceReserved && s.devices[d].health == HealthHealthy
                  && r in s.reservations && s.reservations[r].status == ReservationPending
                  && s.reservations[r].device == Some(d))
            && (outcome.Commit? ==>
                  outcome.post == s.(
                    devices := s.devices[d := s.devices[d].(lifecycle := DeviceReady)],
                    reservations := s.reservations[r := s.reservations[r].(
                      device := None, status := if terminal then ReservationFailed else ReservationPending,
                      failure := Some(code), updated := s.now)]))
  {
  }
}
