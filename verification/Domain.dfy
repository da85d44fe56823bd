/** The status machines every protocol of the farm goes through: transition tables,
    the generic machine with its event log, the device aggregate and the health
    reasons that allow an automatic recovery (internal/domain). */
module Domain {

  datatype Lifecycle =
    | DeviceProvisioning | DeviceBooting | DeviceReady | DeviceReserved | DeviceBusy
    | DeviceRecycling | DeviceStopped | DeviceQuarantined | DeviceDeleted

  datatype Health = HealthUnknown | HealthHealthy | HealthDegraded | HealthUnhealthy

  datatype ReservationStatus =
    | ReservationPending | ReservationActive | ReservationReleased
    | ReservationFailed | ReservationExpired | ReservationForceReleased

  datatype SessionStatus = SessionStarting | SessionActive | SessionClosing | SessionClosed | SessionFailed

  datatype CommandStatus =
    | CommandPending | CommandLeased | CommandSucceeded | CommandFailed | CommandTimedOut | CommandCanceled

  const DEVICE_TRANSITIONS: map<Lifecycle, set<Lifecycle>> := map[
    DeviceProvisioning := {DeviceBooting, DeviceQuarantined, DeviceDeleted},
    DeviceBooting      := {DeviceReady, DeviceStopped, DeviceQuarantined},
    DeviceReady        := {DeviceProvisioning, DeviceReserved, DeviceRecycling, DeviceStopped, DeviceQuarantined,
                           DeviceDeleted},
    DeviceReserved     := {DeviceBusy, DeviceReady, DeviceRecycling, DeviceQuarantined},
    DeviceBusy         := {DeviceReady, DeviceRecycling, DeviceQuarantined},
    DeviceRecycling    := {DeviceReady, DeviceStopped, DeviceQuarantined},
    DeviceStopped      := {DeviceProvisioning, DeviceBooting, DeviceQuarantined, DeviceDeleted},
    DeviceQuarantined  := {DeviceProvisioning, DeviceDeleted},
    DeviceDeleted      := {}]

  const HEALTH_TRANSITIONS: map<Health, set<Health>> := map[
    HealthUnknown   := {HealthHealthy, HealthDegraded, HealthUnhealthy},
    HealthHealthy   := {HealthUnknown, HealthDegraded, HealthUnhealthy},
    HealthDegraded  := {HealthUnknown, HealthHealthy, HealthUnhealthy},
    HealthUnhealthy := {HealthUnknown, HealthHealthy, HealthDegraded}]

  const RESERVATION_TRANSITIONS: map<ReservationStatus, set<ReservationStatus>> := map[
    ReservationPending       := {ReservationActive, ReservationFailed},
    ReservationActive        := {ReservationReleased, ReservationExpired, ReservationForceReleased},
    ReservationReleased      := {},
    ReservationFailed        := {},
    ReservationExpired       := {},
    ReservationForceReleased := {}]

  const SESSION_TRANSITIONS: map<SessionStatus, set<SessionStatus>> := map[
    SessionStarting := {SessionActive, SessionFailed},
    SessionActive   := {SessionClosing, SessionFailed},
    SessionClosing  := {SessionClosed, SessionFailed},
    SessionClosed   := {},
    SessionFailed   := {}]

  const COMMAND_TRANSITIONS: map<CommandStatus, set<CommandStatus>> := map[
    CommandPending   := {CommandLeased, CommandCanceled},
    CommandLeased    := {CommandPending, CommandSucceeded, CommandFailed, CommandTimedOut, CommandCanceled},
    CommandSucceeded := {},
    CommandFailed    := {},
    CommandTimedOut  := {},
    CommandCanceled  := {}]

  predicate Edge<S(==)>(table: map<S, set<S>>, from: S, to: S) {
    from in table && to in table[from]
  }

  datatype Verdict = Accepted | InvalidStatus | ReasonRequired | TimeRequired | InvalidTransition | NotHealthy

  datatype Event<S> = Event(from: S, to: S, reason: string, at: int, verdict: Verdict)

  // ---- Text helpers: white space as unicode.IsSpace sees it below U+0100 ----

  predicate IsSpace(c: char) {
    c == ' ' || c == '\t' || c == '\n' || c == '\r' || c == '\U{0B}' || c == '\U{0C}' || c == '\U{85}' || c == '\U{A0}'
  }

  function TrimLeft(s: string): (t: string)
    ensures |t| <= |s|
  {
    if s != [] && IsSpace(s[0]) then TrimLeft(s[1..]) else s
  }

  function TrimRight(s: string): (t: string)
    ensures |t| <= |s|
  {
    if s != [] && IsSpace(s[|s| - 1]) then TrimRight(s[..|s| - 1]) else s
  }

  function TrimSpace(s: string): (result: string) {
    TrimRight(TrimLeft(s))
  }

  predicate HasPrefix(s: string, prefix: string) {
    prefix <= s
  }

  // ---- Health reasons ----

  const HOST_UNAVAILABLE := "设备宿主机离线或暂不可用"
  const AGENT_REPORTED_UNHEALTHY := "agent heartbeat reported an assigned or schedulable device is not healthy"
  const STF_STABILIZING := "STF readiness stabilization is in progress"
  const STF_NOT_VISIBLE := "device is not visible through STF"
  const IOS_MISSING := "IOS_PROVIDER_DEVICE_MISSING:"
      + " complete inventory no longer contains the registered Simulator"
  const IOS_CLEANUP_FAILED := "IOS_SESSION_CLEANUP_FAILED:" + " Host Fence could not close the upstream Appium Session"

  predicate IsSTFFailureReason(reason: string) {
    var r := TrimSpace(reason);
    r == STF_NOT_VISIBLE || HasPrefix(r, "STF ")
  }

  predicate IsSystemRecoverable(reason: string) {
    var r := TrimSpace(reason);
    || r == HOST_UNAVAILABLE
    || r == AGENT_REPORTED_UNHEALTHY
    || IsSTFFailureReason(r)
    || HasPrefix(r, "IOS_PROVIDER_DEVICE_MISSING:")
  }

  // ---- The machine ----

  /** What a transition request is answered, in the order the checks are made. */
  function Judge<S(==)>(table: map<S, set<S>>, from: S, to: S, reason: string, at: int): (v: Verdict)
    ensures v == Accepted ==> Edge(table, from, to) && at != 0 && TrimSpace(reason) != ""
  {
    if to !in table then InvalidStatus
    else if TrimSpace(reason) == "" then ReasonRequired
    else if at == 0 then TimeRequired
    else if !Edge(table, from, to) then InvalidTransition
    else Accepted
  }

  /** Following the accepted events of a log from `initial`. */
  function Replay<S>(initial: S, log: seq<Event<S>>): (result: S) {
    if log == [] then initial
    else
      var last := log[|log| - 1];
      if last.verdict == Accepted then last.to else Replay(initial, log[..|log| - 1])
  }

  /** Every event starts where the accepted ones before it end; accepted ones are edges of the
      table and refused ones are not. */
  ghost predicate Faithful<S>(table: map<S, set<S>>, initial: S, log: seq<Event<S>>) {
    forall i :: 0 <= i < |log| ==>
      && log[i].from == Replay(initial, log[..i])
      && (log[i].verdict == Accepted ==> Edge(table, log[i].from, log[i].to))
      && (log[i].verdict == InvalidTransition ==> !Edge(table, log[i].from, log[i].to))
  }

  lemma FaithfulAppend<S>(table: map<S, set<S>>, initial: S, log: seq<Event<S>>, e: Event<S>)
    requires Faithful(table, initial, log)
    requires e.from == Replay(initial, log)
    requires e.verdict == Accepted ==> Edge(table, e.from, e.to)
    requires e.verdict == InvalidTransition ==> !Edge(table, e.from, e.to)
    ensures Faithful(table, initial, log + [e])
    ensures Replay(initial, log + [e]) == if e.verdict == Accepted then e.to else Replay(initial, log)
  {
    var l := log + [e];
    assert l[..|l| - 1] == log;
    forall i | 0 <= i < |l|
      ensures l[i].from == Replay(initial, l[..i])
    {
      assert l[..i] == log[..i];
      if i < |log| { assert l[i] == log[i]; } else { assert log[..i] == log; }
    }
  }

  class StateMachine<S(==)> {
    ghost const initial: S
    const transitions: map<S, set<S>>
    var status: S
    var events: seq<Event<S>>

    ghost predicate Valid()
      reads this
    {
      && status in transitions
      && Faithful(transitions, initial, events)
      && Replay(initial, events) == status
    }

    constructor (start: S, table: map<S, set<S>>)
      requires start in table
      ensures Valid() && status == start && events == [] && transitions == table
    {
      initial := start;
      transitions := table;
      status := start;
      events := [];
    }

    method Transition(to: S, reason: string, at: int) returns (verdict: Verdict)
      requires Valid()
      modifies this
      ensures Valid()
      ensures verdict == Judge(transitions, old(status), to, reason, at)
      ensures status == if verdict == Accepted then to else old(status)
      ensures events == old(events) +
                        if verdict == Accepted || verdict == InvalidTransition
                        then [Event(old(status), to, TrimSpace(reason), at, verdict)] else []
    {
      if to !in transitions {
        return InvalidStatus;
      }
      if TrimSpace(reason) == "" {
        return ReasonRequired;
      }
      if at == 0 {
        return TimeRequired;
      }
      if to !in transitions[status] {
        RecordRejected(to, reason, at, InvalidTransition);
        return InvalidTransition;
      }
      var from := status;
      FaithfulAppend(transitions, initial, events, Event(from, to, TrimSpace(reason), at, Accepted));
      status := to;
      events := events + [Event(from, to, TrimSpace(reason), at, Accepted)];
      verdict := Accepted;
    }

    method RecordRejected(to: S, reason: string, at: int, why: Verdict)
      requires Valid()
      requires why == NotHealthy || (why == InvalidTransition && !Edge(transitions, status, to))
      modifies this`events
      ensures Valid()
      ensures events == old(events) + [Event(status, to, TrimSpace(reason), at, why)]
    {
      FaithfulAppend(transitions, initial, events, Event(status, to, TrimSpace(reason), at, why));
      events := events + [Event(status, to, TrimSpace(reason), at, why)];
    }
  }

  /** A device may enter `ready` only while its health is `healthy`; anything else goes by the table. */
  function JudgeDevice(from: Lifecycle, health: Health, to: Lifecycle, reason: string, at: int): (result: Verdict) {
    if to == DeviceReady && health != HealthHealthy then NotHealthy
    else Judge(DEVICE_TRANSITIONS, from, to, reason, at)
  }

  class DeviceAggregate {
    const lifecycle: StateMachine<Lifecycle>
    var health: Health
    var healthEvents: seq<Event<Health>>
    ghost const initialHealth: Health

    ghost predicate Valid()
      reads this, lifecycle
    {
      && lifecycle.Valid()
      && lifecycle.transitions == DEVICE_TRANSITIONS
      && Faithful(HEALTH_TRANSITIONS, initialHealth, healthEvents)
      && Replay(initialHealth, healthEvents) == health
    }

    constructor (l: Lifecycle, h: Health)
      ensures Valid() && fresh(lifecycle)
      ensures lifecycle.status == l && health == h && lifecycle.events == [] && healthEvents == []
    {
      lifecycle := new StateMachine(l, DEVICE_TRANSITIONS);
      health := h;
      initialHealth := h;
      healthEvents := [];
    }

    method Transition(to: Lifecycle, reason: string, at: int) returns (verdict: Verdict)
      requires Valid()
      modifies lifecycle
      ensures Valid()
      ensures verdict == JudgeDevice(old(lifecycle.status), health, to, reason, at)
      ensures lifecycle.status == if verdict == Accepted then to else old(lifecycle.status)
      ensures lifecycle.events == old(lifecycle.events) +
                                  if verdict in {Accepted, InvalidTransition}
                                     || (verdict == NotHealthy && TrimSpace(reason) != "" && at != 0)
                                  then [Event(old(lifecycle.status), to, TrimSpace(reason), at, verdict)] else []
    {
      if to == DeviceReady && health != HealthHealthy {
        if TrimSpace(reason) != "" && at != 0 {
          lifecycle.RecordRejected(to, reason, at, NotHealthy);
        }
        return NotHealthy;
      }
      verdict := lifecycle.Transition(to, reason, at);
    }

    /** A transition whose reason and instant are known to be present. */
    method MoveTo(to: Lifecycle, reason: string, at: int) returns (ok: bool)
      requires Valid() && TrimSpace(reason) != "" && at != 0
      modifies lifecycle
      ensures Valid()
      ensures ok <==> DeviceMay(old(lifecycle.status), health, to)
      ensures lifecycle.status == if ok then to else old(lifecycle.status)
    {
      EveryLifecycleListed(to);
      var verdict := Transition(to, reason, at);
      ok := verdict == Accepted;
    }

    /** A health change that the table always allows: to another health. */
    method SetHealth(to: Health, reason: string, at: int)
      requires Valid() && TrimSpace(reason) != "" && at != 0
      modifies this`health, this`healthEvents
      ensures Valid() && health == to
    {
      if health != to {
        EveryHealthReachable(health, to);
        var verdict := UpdateHealth(to, reason, at);
      }
    }

    method UpdateHealth(to: Health, reason: string, at: int) returns (verdict: Verdict)
      requires Valid()
      modifies this`health, this`healthEvents
      ensures Valid()
      ensures verdict == Judge(HEALTH_TRANSITIONS, old(health), to, reason, at)
      ensures health == if verdict == Accepted then to else old(health)
      ensures healthEvents == old(healthEvents) +
                              if verdict in {Accepted, InvalidTransition}
                              then [Event(old(health), to, TrimSpace(reason), at, verdict)] else []
    {
      if TrimSpace(reason) == "" {
        return ReasonRequired;
      }
      if at == 0 {
        return TimeRequired;
      }
      if !Edge(HEALTH_TRANSITIONS, health, to) {
        Record(to, reason, at, InvalidTransition);
        return InvalidTransition;
      }
      Record(to, reason, at, Accepted);
      verdict := Accepted;
    }

    /** Appends one health event and, when it is accepted, moves the health. */
    method Record(to: Health, reason: string, at: int, verdict: Verdict)
      requires Valid()
      requires verdict in {Accepted, InvalidTransition}
      requires verdict == Accepted <==> Edge(HEALTH_TRANSITIONS, health, to)
      modifies this`health, this`healthEvents
      ensures Valid()
      ensures health == if verdict == Accepted then to else old(health)
      ensures healthEvents == old(healthEvents) + [Event(old(health), to, TrimSpace(reason), at, verdict)]
    {
      var e := Event(health, to, TrimSpace(reason), at, verdict);
      FaithfulAppend(HEALTH_TRANSITIONS, initialHealth, healthEvents, e);
      healthEvents := healthEvents + [e];
      if verdict == Accepted {
        health := to;
      }
    }
  }

  /** A reason that survives trimming as it is, as every reason fixed in the code does. */
  predicate Plain(reason: string) {
    reason != "" && !IsSpace(reason[0]) && !IsSpace(reason[|reason| - 1])
  }

  lemma PlainTrims(reason: string)
    requires Plain(reason)
    ensures TrimSpace(reason) == reason
  {
  }

  predicate DeviceMay(from: Lifecycle, health: Health, to: Lifecycle) {
    Edge(DEVICE_TRANSITIONS, from, to) && (to == DeviceReady ==> health == HealthHealthy)
  }

  /** Restores an aggregate from a row and asks it for one transition. */
  method CheckDevice(from: Lifecycle, health: Health, to: Lifecycle, reason: string, at: int) returns (ok: bool)
    requires Plain(reason) && at != 0
    ensures ok <==> DeviceMay(from, health, to)
  {
    PlainTrims(reason);
    var aggregate := new DeviceAggregate(from, health);
    var verdict := aggregate.Transition(to, reason, at);
    EveryLifecycleListed(to);
    ok := verdict == Accepted;
  }

  /** Restores a reservation from a row and asks it for one transition. */
  method CheckReservation(from: ReservationStatus, to: ReservationStatus, reason: string, at: int) returns (ok: bool)
    requires TrimSpace(reason) != "" && at != 0
    ensures ok <==> Edge(RESERVATION_TRANSITIONS, from, to)
  {
    EveryReservationStatusListed(from);
    EveryReservationStatusListed(to);
    var state := new StateMachine(from, RESERVATION_TRANSITIONS);
    var verdict := state.Transition(to, reason, at);
    ok := verdict == Accepted;
  }

  lemma SessionEdges(from: SessionStatus)
    ensures from in SESSION_TRANSITIONS && SessionClosing in SESSION_TRANSITIONS && SessionClosed in SESSION_TRANSITIONS
    ensures Edge(SESSION_TRANSITIONS, from, SessionClosing) <==> from == SessionActive
    ensures Edge(SESSION_TRANSITIONS, SessionClosing, SessionClosed)
  {
  }

  /** Restores a session from a row and takes it through `closing` to `closed`. */
  method CheckSessionClose(from: SessionStatus, reason: string, at: int) returns (ok: bool)
    requires TrimSpace(reason) != "" && at != 0
    ensures ok <==> from == SessionActive
  {
    SessionEdges(from);
    var state := new StateMachine(from, SESSION_TRANSITIONS);
    var verdict := state.Transition(SessionClosing, reason, at);
    if verdict != Accepted {
      return false;
    }
    verdict := state.Transition(SessionClosed, reason, at);
    ok := verdict == Accepted;
  }

  lemma EveryHealthReachable(from: Health, to: Health)
    ensures to in HEALTH_TRANSITIONS
    ensures Edge(HEALTH_TRANSITIONS, from, to) <==> from != to
  {
  }

  /** The way back from quarantine, and the edges heartbeats follow. */
  lemma RecoveryEdges(h: Health)
    ensures DeviceMay(DeviceQuarantined, h, DeviceProvisioning) && DeviceMay(DeviceProvisioning, h, DeviceBooting)
    ensures DeviceMay(DeviceBooting, h, DeviceReady) <==> h == HealthHealthy
    ensures DeviceMay(DeviceReady, h, DeviceReserved) && DeviceMay(DeviceReserved, h, DeviceBusy)
    ensures DeviceMay(DeviceStopped, h, DeviceBooting) && DeviceMay(DeviceBooting, h, DeviceStopped)
            && DeviceMay(DeviceReady, h, DeviceStopped)
  {
  }

  lemma IsolationEdges(from: Lifecycle, h: Health)
    ensures DeviceMay(from, h, DeviceQuarantined) <==> from !in {DeviceQuarantined, DeviceDeleted}
  {
  }

  lemma ProvisioningEdges(from: Lifecycle, h: Health)
    ensures DeviceMay(from, h, DeviceProvisioning) <==> from in {DeviceReady, DeviceStopped, DeviceQuarantined}
  {
  }

  lemma EveryLifecycleListed(l: Lifecycle)
    ensures l in DEVICE_TRANSITIONS
  {
  }

  lemma EveryReservationStatusListed(r: ReservationStatus)
    ensures r in RESERVATION_TRANSITIONS
  {
  }

  lemma BusyOnlyFromReserved(from: Lifecycle, health: Health)
    ensures DeviceMay(from, health, DeviceBusy) <==> from == DeviceReserved
  {
  }

  // ---- Laws of whole histories ----

  /** A terminal status is final: a faithful log from it accepts nothing. */
  lemma {:induction false} TerminalIsFinal<S>(table: map<S, set<S>>, initial: S, log: seq<Event<S>>)
    requires Faithful(table, initial, log)
    requires initial in table && table[initial] == {}
    ensures Replay(initial, log) == initial
    ensures forall i :: 0 <= i < |log| ==> log[i].verdict != Accepted
  {
    if log == [] {
    } else {
      var front := log[..|log| - 1];
      FaithfulPrefix(table, initial, log);
      TerminalIsFinal(table, initial, front);
      assert log[|log| - 1].from == Replay(initial, log[..|log| - 1]);
      forall i | 0 <= i < |log|
        ensures log[i].verdict != Accepted
      {
        if i < |front| { assert front[i] == log[i]; }
      }
    }
  }

  lemma FaithfulPrefix<S>(table: map<S, set<S>>, initial: S, log: seq<Event<S>>)
    requires Faithful(table, initial, log) && log != []
    ensures Faithful(table, initial, log[..|log| - 1])
  {
    var front := log[..|log| - 1];
    forall i | 0 <= i < |front|
      ensures front[i] == log[i] && front[..i] == log[..i]
    {
    }
  }

  predicate Enters<S(==)>(log: seq<Event<S>>, s: S) {
    exists i :: 0 <= i < |log| && log[i].verdict == Accepted && log[i].to == s
  }

  /** No history takes a quarantined device to a schedulable, assigned or stopped lifecycle without
      going through `provisioning`. */
  lemma {:induction false} QuarantineLeavesByProvisioning(log: seq<Event<Lifecycle>>)
    requires Faithful(DEVICE_TRANSITIONS, DeviceQuarantined, log)
    ensures Replay(DeviceQuarantined, log) in {DeviceQuarantined, DeviceDeleted} || Enters(log, DeviceProvisioning)
  {
    if log == [] {
    } else {
      var front, last := log[..|log| - 1], log[|log| - 1];
      FaithfulPrefix(DEVICE_TRANSITIONS, DeviceQuarantined, log);
      QuarantineLeavesByProvisioning(front);
      assert last.from == Replay(DeviceQuarantined, log[..|log| - 1]);
      if Enters(front, DeviceProvisioning) {
        var i :| 0 <= i < |front| && front[i].verdict == Accepted && front[i].to == DeviceProvisioning;
        assert log[i] == front[i];
      }
    }
  }
}
