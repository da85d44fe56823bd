/** Who may use an iOS device through its session, said on the columns of the rows: what a grant, its consumption, a
    binding and every single command demand of the lease, the device and its host; and that nothing of the kind happens
    while the device is isolated. */
module Control {
  import opened Domain
  import opened Rows
  import opened Grants
  import opened Protocol
  import opened Fence

  /** The lease is active and has not run out; the device is an iOS device in use and healthy, on an online host, and
      the session knows its route. */
  ghost predicate Usable(s: State, r: ReservationId) {
    && r in s.sessions && r in s.reservations && s.sessions[r].device in s.devices
    && var row, dev := s.reservations[r], s.devices[s.sessions[r].device];
       && row.status == ReservationActive && row.expires.Some? && row.expires.value > s.now
       && dev.platform == Ios && dev.lifecycle == DeviceBusy && dev.health == HealthHealthy
       && dev.host in s.hosts && s.hosts[dev.host].status == HostOnline
       && s.sessions[r].routed
  }

  /** The session stores this grant, and its device is on this host, as it was when the session began. */
  ghost predicate GrantedOn(s: State, r: ReservationId, g: string, host: HostId) {
    && r in s.sessions && s.sessions[r].grant.Some? && s.sessions[r].grant.value.hash == Sha256(g)
    && s.sessions[r].device in s.devices && s.devices[s.sessions[r].device].host == host && s.sessions[r].host == host
  }

  /** A command is let through exactly for the bound Appium session that has not ended, under the consumed grant of a
      usable session, on its host. */
  lemma AuthorizesExactlyWhen(s: State, r: ReservationId, g: string, host: HostId, id: string)
    ensures Authorized(s, r, g, host, id) <==>
            && Usable(s, r) && GrantedOn(s, r, g, host) && s.sessions[r].grant.value.consumed.Some?
            && s.sessions[r].appium.Some? && s.sessions[r].appium.value.id == id
            && s.sessions[r].appium.value.ended == None
  {
  }

  /** A grant is issued exactly to the client and for the owner of the lease, for fifteen seconds to two minutes, on a
      usable session on its first host that has not been bound, on a device nobody else uses and a host with a fence,
      under a text no other session stores. It ends when asked or when the lease does, whichever is first. */
  lemma IssuesExactlyWhen(s: State, r: ReservationId, client: nat, owner: (string, string), ttl: int, g: string)
    ensures var outcome := IssueTx(s, r, client, owner, ttl, g);
            && (outcome.Commit? <==>
                  && 15 <= ttl <= 120 && owner.0 != "" && owner.1 != "" && Usable(s, r)
                  && s.reservations[r].request.client == client && s.reservations[r].request.owner == owner
                  && s.sessions[r].status == SessionActive && s.sessions[r].appium == None
                  && s.sessions[r].host == s.devices[s.sessions[r].device].host
                  && !s.devices[s.sessions[r].device].providerBusy
                  && s.hosts[s.devices[s.sessions[r].device].host].fence
                  && forall q :: q in s.sessions && q != r && s.sessions[q].grant.Some? ==>
                                   s.sessions[q].grant.value.hash != Sha256(g))
            && (outcome.Commit? ==>
                  && outcome.post == s.(sessions := s.sessions[r := s.sessions[r].(
                                          grant := Some(Grant(Sha256(g), IssuedUntil(s, r, ttl), None)))])
                  && s.now < IssuedUntil(s, r, ttl) <= s.now + 120_000_000)
  {
  }

  function IssuedUntil(s: State, r: ReservationId, ttl: int): (result: int)
    requires r in s.reservations && s.reservations[r].expires.Some?
  {
    if s.reservations[r].expires.value < s.now + ttl * 1_000_000 then s.reservations[r].expires.value
    else s.now + ttl * 1_000_000
  }

  /** A grant is consumed exactly once, in time, on its host, for a request that can be pinned, while the session is
      usable and nobody else uses the device. */
  lemma ConsumesExactlyWhen(s: State, r: ReservationId, g: string, host: HostId, pinned: bool)
    ensures var outcome := ConsumeTx(s, r, g, host, pinned);
            && (outcome.Commit? <==>
                  && Usable(s, r) && GrantedOn(s, r, g, host) && pinned
                  && s.sessions[r].grant.value.consumed == None && s.sessions[r].grant.value.expires > s.now
                  && !s.devices[s.sessions[r].device].providerBusy)
            && (outcome.Commit? ==>
                  outcome.post == s.(sessions := s.sessions[r := s.sessions[r].(
                    grant := Some(s.sessions[r].grant.value.(consumed := Some(s.now))))]))
  {
  }

  /** An Appium session is bound exactly under a consumed grant, on its host, while the session is usable, and only the
      first; repeating that binding while it lives changes nothing. */
  lemma BindsExactlyWhen(s: State, r: ReservationId, g: string, host: HostId, id: string)
    ensures var outcome := BindTx(s, r, g, host, id);
            && (outcome.Commit? <==>
                  && Usable(s, r) && GrantedOn(s, r, g, host) && s.sessions[r].grant.value.consumed.Some?
                  && (s.sessions[r].appium.Some? ==>
                        s.sessions[r].appium.value.id == id && s.sessions[r].appium.value.ended == None))
            && (outcome.Commit? ==>
                  outcome.post == if s.sessions[r].appium.Some? then s
                                  else s.(sessions := s.sessions[r := s.sessions[r].(
                                         appium := Some(Appium(id, s.now, None)))]))
  {
  }

  /** The bound Appium session is ended once, by its own name, under its grant and from its host. */
  lemma EndsExactlyWhen(s: State, r: ReservationId, g: string, host: HostId, id: string)
    requires r in s.sessions && s.sessions[r].device in s.devices && r in s.reservations
             && s.devices[s.sessions[r].device].host in s.hosts
    ensures var outcome := CloseSessionTx(s, r, g, host, id);
            && (outcome.Commit? <==>
                  && s.sessions[r].grant.Some? && s.sessions[r].grant.value.hash == Sha256(g)
                  && s.devices[s.sessions[r].device].host == host
                  && s.sessions[r].appium.Some? && s.sessions[r].appium.value.id == id)
            && (outcome.Commit? ==>
                  outcome.post == if s.sessions[r].appium.value.ended.Some? then s
                                  else s.(sessions := s.sessions[r := s.sessions[r].(
                                         appium := Some(s.sessions[r].appium.value.(ended := Some(s.now))))]))
  {
  }

  // ---- While a device is isolated ----

  /** The device is quarantined, unhealthy or otherwise not in healthy use. */
  ghost predicate OutOfUse(s: State, d: DeviceId) {
    d in s.devices ==> !(s.devices[d].lifecycle == DeviceBusy && s.devices[d].health == HealthHealthy)
  }

  ghost predicate OutOfUseThroughout(w: World, steps: seq<Step>, d: DeviceId)
    decreases |steps|
  {
    OutOfUse(w.db, d) && (steps == [] || OutOfUseThroughout(Next(w, steps[0]), steps[1..], d))
  }

  /** What a session may suffer while its device is out of use: nothing is issued, consumed or newly bound on it. */
  ghost predicate NothingGained(a: Session, b: Session) {
    && b.device == a.device && b.grant == a.grant
    && (a.appium == None ==> b.appium == None)
    && (a.appium.Some? ==> b.appium.Some? && b.appium.value.id == a.appium.value.id)
  }

  lemma FenceGainsNothing(s: State, issued: set<string>, q: ReservationId, grant: string, step: FenceStep,
                          r: ReservationId)
    requires FenceTx(s, issued, q, grant, step).Commit?
    requires r in s.sessions && OutOfUse(s, s.sessions[r].device)
    ensures var t := FenceTx(s, issued, q, grant, step).post;
            r in t.sessions && NothingGained(s.sessions[r], t.sessions[r])
  {
    FenceStepsTouch(s, issued, q, grant, step);
    if q == r {
      FenceGainsNothingItself(s, issued, r, grant, step);
    }
  }

  lemma FenceGainsNothingItself(s: State, issued: set<string>, r: ReservationId, grant: string, step: FenceStep)
    requires FenceTx(s, issued, r, grant, step).Commit?
    requires r in s.sessions && OutOfUse(s, s.sessions[r].device)
    ensures var t := FenceTx(s, issued, r, grant, step).post;
            r in t.sessions && NothingGained(s.sessions[r], t.sessions[r])
  {
    match step
    case IssueStep(client, owner, ttl) => IssuesExactlyWhen(s, r, client, owner, ttl, grant);
    case ConsumeStep(h, pinned) => ConsumesExactlyWhen(s, r, grant, h, pinned);
    case BindStep(h, id) => BindsExactlyWhen(s, r, grant, h, id);
    case EndStep(h, id) =>
    case CleanStep(id) =>
  }

  lemma StepGainsNothing(w: World, step: Step, r: ReservationId)
    requires r in w.db.sessions && OutOfUse(w.db, w.db.sessions[r].device)
    ensures r in Next(w, step).db.sessions && NothingGained(w.db.sessions[r], Next(w, step).db.sessions[r])
  {
    StepEvolvesSessions(w, step);
    assert SessionEvolves(w.db, r, Next(w, step).db.sessions[r], w.issued);
    if Transact(w, step).Commit? {
      if step.OfFence? {
        FenceGainsNothing(w.db, w.issued, step.r, step.grant, step.fence, r);
      } else {
        GrantsStay(w, step);
      }
    }
  }

  /** Once a device is isolated, and until a later state has it in healthy use again, no run issues, consumes or binds
      anything on any of its sessions, and no command is let through. */
  lemma {:induction false} NothingWhileOutOfUse(w: World, steps: seq<Step>, r: ReservationId, g: string, host: HostId,
                                                id: string, client: nat, owner: (string, string), ttl: int,
                                                pinned: bool)
    requires r in w.db.sessions && OutOfUseThroughout(w, steps, w.db.sessions[r].device)
    ensures var v := Run(w, steps).db;
            && r in v.sessions && NothingGained(w.db.sessions[r], v.sessions[r])
            && !Authorized(v, r, g, host, id)
            && IssueTx(v, r, client, owner, ttl, g).Rollback? && ConsumeTx(v, r, g, host, pinned).Rollback?
            && BindTx(v, r, g, host, id).Rollback?
    decreases |steps|
  {
    if steps == [] {
      AuthorizesExactlyWhen(w.db, r, g, host, id);
      IssuesExactlyWhen(w.db, r, client, owner, ttl, g);
      ConsumesExactlyWhen(w.db, r, g, host, pinned);
      BindsExactlyWhen(w.db, r, g, host, id);
    } else {
      StepGainsNothing(w, steps[0], r);
      NothingWhileOutOfUse(Next(w, steps[0]), steps[1..], r, g, host, id, client, owner, ttl, pinned);
    }
  }
}
