/** What a finished host command does to its device (internal/hostcommand/service.go). */
module Completion {
  import opened Domain
  import opened Rows
  import opened Observation

  datatype ProviderState = StateCreated | StateRunning | StateStopped

  /** The part of an agent's result the completion handlers read; `probes` says whether the component probes
      passed, if there are any. */
  datatype AgentResult = AgentResult(
    ios: bool, state: ProviderState, generation: int,
    serial: string, adbEndpoint: string, appiumEndpoint: string, appiumUdid: string,
    online: bool, adbOnline: bool, bootCompleted: bool, appiumHealthy: bool, probes: Option<bool>,
    deleted: bool, applied: bool, restored: bool)

  /** How a command ended; a result that could not be decoded is None. */
  datatype CommandOutcome = CommandOutcome(status: CommandStatus, result: Option<AgentResult>)

  predicate ValidResult(x: AgentResult) {
    && x.generation > 0 && x.serial != "" && x.appiumEndpoint != "" && x.appiumUdid != ""
    && x.online && x.bootCompleted && x.appiumHealthy
    && (if x.ios then x.state == StateRunning && x.probes == Some(true) else x.adbEndpoint != "" && x.adbOnline)
  }

  predicate Ended(o: CommandOutcome) {
    o.status in {CommandSucceeded, CommandFailed, CommandTimedOut, CommandCanceled}
  }

  predicate Healthy(o: CommandOutcome) {
    o.result.Some? && ValidResult(o.result.value)
  }

  predicate Succeeded(o: CommandOutcome) {
    o.status == CommandSucceeded && Healthy(o)
  }

  /** The target configuration is running. */
  predicate Applied(o: CommandOutcome) {
    o.status == CommandSucceeded && Healthy(o) && o.result.value.applied
  }

  /** The target failed and the previous configuration is running again. */
  predicate Restored(o: CommandOutcome) {
    o.status == CommandFailed && Healthy(o) && o.result.value.restored
  }

  predicate Deleted(o: CommandOutcome) {
    o.status == CommandSucceeded && o.result.Some? && o.result.value.deleted
  }

  predicate StoppedCleanly(o: CommandOutcome) {
    && o.status == CommandSucceeded && o.result.Some?
    && o.result.value.ios && o.result.value.state == StateStopped && o.result.value.generation > 0
    && o.result.value.serial != "" && o.result.value.appiumEndpoint != "" && o.result.value.appiumUdid != ""
  }

  /** The compare-and-set: the device is where the command expects it, or where a heartbeat may
      legitimately have taken it meanwhile. */
  predicate Expected(kind: CommandKind, state: Lifecycle, l: Lifecycle) {
    || l == state
    || (kind in {Rebuild, Reimage} && state == DeviceProvisioning && l == DeviceBooting)
    || (kind == ProfileUpdate && state == DeviceProvisioning && l in {DeviceBooting, DeviceReady, DeviceQuarantined})
  }

  /** The effect on lifecycle and health. Skipped leaves the row alone; Refused aborts the transaction. */
  datatype Effect = Skipped | Refused | Sets(lifecycle: Lifecycle, health: Health)

  function Isolated(l: Lifecycle): (result: Effect) {
    if Edge(DEVICE_TRANSITIONS, l, DeviceQuarantined) then Sets(DeviceQuarantined, HealthUnhealthy) else Refused
  }

  function DeleteEffect(l: Lifecycle, health: Health, o: CommandOutcome): (result: Effect) {
    if Deleted(o) then
      if Edge(DEVICE_TRANSITIONS, l, DeviceDeleted) then Sets(DeviceDeleted, health) else Refused
    else if l == DeviceQuarantined then Sets(DeviceQuarantined, HealthUnhealthy)
    else Isolated(l)
  }

  function ReimageEffect(l: Lifecycle, o: CommandOutcome): (result: Effect) {
    if Applied(o) || Restored(o) then
      if l in {DeviceProvisioning, DeviceBooting} then Sets(DeviceReady, HealthUnhealthy) else Skipped
    else Isolated(l)
  }

  function ProfileEffect(l: Lifecycle, o: CommandOutcome): (result: Effect) {
    if Applied(o) || Restored(o) then
      if l in {DeviceQuarantined, DeviceProvisioning, DeviceBooting, DeviceReady}
          then Sets(DeviceReady, HealthUnhealthy) else Skipped
    else if l == DeviceQuarantined then Sets(DeviceQuarantined, HealthUnhealthy)
    else Isolated(l)
  }

  function StopEffect(l: Lifecycle, o: CommandOutcome): (result: Effect) {
    if StoppedCleanly(o) then
      if l == DeviceStopped then Sets(DeviceStopped, HealthUnknown) else Skipped
    else Isolated(l)
  }

  function GeneralEffect(kind: CommandKind, l: Lifecycle, o: CommandOutcome): (result: Effect) {
    if Succeeded(o) then
      if l in {DeviceStopped, DeviceProvisioning, DeviceBooting} then
        Sets(DeviceReady, if kind in {Create, Rebuild} && !o.result.value.ios then HealthUnhealthy else HealthHealthy)
      else Skipped
    else Isolated(l)
  }

  function CompletionEffect(kind: CommandKind, state: Lifecycle, l: Lifecycle, health: Health,
                            o: CommandOutcome): (result: Effect) {
    if !Ended(o) || !Expected(kind, state, l) then Skipped else HandlerEffect(kind, l, health, o)
  }

  /** The handler of each kind of command. */
  function HandlerEffect(kind: CommandKind, l: Lifecycle, health: Health, o: CommandOutcome): (result: Effect) {
    match kind
    case Delete => DeleteEffect(l, health, o)
    case Reimage => ReimageEffect(l, o)
    case ProfileUpdate => ProfileEffect(l, o)
    case Stop => StopEffect(l, o)
    case _ => GeneralEffect(kind, l, o)
  }

  // ---- Laws ----

  /** No handler fails, and no assigned device changes, for any command the code can queue. */
  lemma QueuedCommandsComplete(kind: CommandKind, state: Lifecycle, l: Lifecycle, health: Health, o: CommandOutcome)
    requires Produces(kind, state)
    ensures CompletionEffect(kind, state, l, health, o) != Refused
    ensures l in {DeviceReserved, DeviceBusy, DeviceRecycling, DeviceDeleted} ==>
              CompletionEffect(kind, state, l, health, o) == Skipped
    ensures CompletionEffect(kind, state, l, health, o).Sets? ==>
              CompletionEffect(kind, state, l, health, o).lifecycle in {DeviceReady, DeviceStopped, DeviceQuarantined,
                  DeviceDeleted}
  {
  }

  lemma CompletionLeavesAssigned(kind: CommandKind, state: Lifecycle, l: Lifecycle, health: Health, o: CommandOutcome)
    requires Produces(kind, state)
    ensures var e := CompletionEffect(kind, state, l, health, o);
            e.Sets? ==> l !in {DeviceReserved, DeviceBusy} && e.lifecycle !in {DeviceReserved, DeviceBusy}
  {
  }

  /** Exactly when a handler aborts, for any operation state whatsoever. */
  lemma RefusedExactlyWhen(kind: CommandKind, state: Lifecycle, l: Lifecycle, health: Health, o: CommandOutcome)
    ensures CompletionEffect(kind, state, l, health, o) == Refused <==>
              && Ended(o) && Expected(kind, state, l)
              && match kind
                 case Delete =>
                   if Deleted(o) then l !in {DeviceProvisioning, DeviceReady, DeviceStopped, DeviceQuarantined}
                       else l == DeviceDeleted
                 case Reimage => !Applied(o) && !Restored(o) && l in {DeviceQuarantined, DeviceDeleted}
                 case ProfileUpdate => !Applied(o) && !Restored(o) && l == DeviceDeleted
                 case Stop => !StoppedCleanly(o) && l in {DeviceQuarantined, DeviceDeleted}
                 case _ => !Succeeded(o) && l in {DeviceQuarantined, DeviceDeleted}
  {
  }

  /** Exactly when a finished command makes its device ready. The result names the device and its endpoints with every
      light on; the device is where the command expects it, or where a heartbeat may have taken it meanwhile. A
      reimage or a profile update succeeded with the target running, or failed with the old configuration running
      again; a delete or a stop never readies anything, and any other command must have succeeded. What is new to STF
      is not healthy yet. */
  lemma ReadiesExactlyWhen(kind: CommandKind, state: Lifecycle, l: Lifecycle, health: Health, o: CommandOutcome)
    ensures var e := CompletionEffect(kind, state, l, health, o);
            e.Sets? && e.lifecycle == DeviceReady <==>
            && o.result.Some?
            && var x := o.result.value;
               && x.generation > 0 && x.serial != "" && x.appiumEndpoint != "" && x.appiumUdid != ""
               && x.online && x.bootCompleted && x.appiumHealthy
               && (x.ios ==> x.state == StateRunning && x.probes == Some(true))
               && (!x.ios ==> x.adbEndpoint != "" && x.adbOnline)
               && match kind
                  case Delete => false
                  case Stop => false
                  case Reimage =>
                    && ((o.status == CommandSucceeded && x.applied) || (o.status == CommandFailed && x.restored))
                    && l in {DeviceProvisioning, DeviceBooting} && state in {l, DeviceProvisioning}
                  case ProfileUpdate =>
                    && ((o.status == CommandSucceeded && x.applied) || (o.status == CommandFailed && x.restored))
                    && l in {DeviceProvisioning, DeviceBooting, DeviceReady, DeviceQuarantined}
                    && state in {l, DeviceProvisioning}
                  case _ =>
                    && o.status == CommandSucceeded && l in {DeviceStopped, DeviceProvisioning, DeviceBooting}
                    && (state == l || (kind == Rebuild && state == DeviceProvisioning && l == DeviceBooting))
    ensures var e := CompletionEffect(kind, state, l, health, o);
            e.Sets? && e.lifecycle == DeviceReady ==>
              (e.health == HealthHealthy <==>
               kind !in {Reimage, ProfileUpdate} && (kind in {Create, Rebuild} ==> o.result.value.ios))
  {
  }

  /** Exactly when a finished command removes its device, or records it stopped: only a delete that says it deleted, and
      only a stop that says the simulator it names has stopped. */
  lemma EndsExactlyWhen(kind: CommandKind, state: Lifecycle, l: Lifecycle, health: Health, o: CommandOutcome)
    requires Produces(kind, state)
    ensures var e := CompletionEffect(kind, state, l, health, o);
            e == Sets(DeviceDeleted, health) <==>
            && kind == Delete && o.status == CommandSucceeded && o.result.Some? && o.result.value.deleted && l == state
    ensures var e := CompletionEffect(kind, state, l, health, o);
            e == Sets(DeviceStopped, HealthUnknown) <==>
            && kind == Stop && o.status == CommandSucceeded && l == state && o.result.Some?
            && var x := o.result.value;
               && x.ios && x.state == StateStopped && x.generation > 0
               && x.serial != "" && x.appiumEndpoint != "" && x.appiumUdid != ""
  {
  }

  /** A command that finds its device quarantined: only a profile update or a delete was queued to. */
  lemma QuarantineCompletes(kind: CommandKind, state: Lifecycle, health: Health, o: CommandOutcome)
    requires Produces(kind, state)
    ensures var e := CompletionEffect(kind, state, DeviceQuarantined, health, o);
            e.Sets? ==> kind in {ProfileUpdate, Delete}
  {
  }

  /** The note a handler leaves beside lifecycle and health: the reason and the failure count. */
  function Note(kind: CommandKind, l: Lifecycle, h: Health, o: CommandOutcome, why: string,
                failures: nat): (result: (Option<string>, nat)) {
    match kind
    case Reimage => if Applied(o) || Restored(o) then (Some(STF_STABILIZING), 0) else (Some(why), failures + 1)
    case ProfileUpdate => if Applied(o) || Restored(o) then (Some(STF_STABILIZING), 0) else (Some(why), failures + 1)
    case Stop => (Some(why), if h == HealthUnknown then 0 else failures + 1)
    case Delete => (Some(why), if l == DeviceDeleted then failures else failures + 1)
    case _ =>
      if l == DeviceQuarantined then (Some(why), failures + 1)
      else (if h == HealthUnhealthy then Some(STF_STABILIZING) else None, 0)
  }

  // ---- The device row the handlers write ----

  datatype ChangeStatus = ChangeIdle | ChangePending | ChangeFailed

  /** The columns a completion writes; images and profiles are opaque. */
  datatype Record = Record(
    lifecycle: Lifecycle, health: Health, reason: Option<string>, failures: nat,
    image: nat, override: Option<nat>, pendingImage: Option<nat>, pendingProfile: Option<nat>,
    reimage: ChangeStatus, profileUpdate: ChangeStatus)

  datatype Command = Command(kind: CommandKind, state: Lifecycle, image: nat, profile: nat)

  /** The columns that say what the device runs and what is pending: the record takes the target, keeps the
      old configuration, or keeps it on a device that is isolated. Pending columns are cleared in all three. */
  function Configured(x: Record, c: Command, o: CommandOutcome): (result: Record) {
    match c.kind
    case Reimage =>
      var cleared := x.(pendingImage := None, pendingProfile := None);
      if Applied(o) then cleared.(image := c.image, override := Some(c.profile), reimage := ChangeIdle)
      else cleared.(reimage := ChangeFailed)
    case ProfileUpdate =>
      var cleared := x.(pendingProfile := None);
      if Applied(o) then cleared.(override := Some(c.profile), profileUpdate := ChangeIdle)
      else cleared.(profileUpdate := ChangeFailed)
    case _ => x
  }

  /** The row after a completion, or None when the transaction aborts. */
  function Completed(x: Record, c: Command, o: CommandOutcome, why: string): (result: Option<Record>) {
    match CompletionEffect(c.kind, c.state, x.lifecycle, x.health, o)
    case Skipped => Some(x)
    case Refused => None
    case Sets(l, h) =>
      var (reason, failures) := Note(c.kind, l, h, o, why, x.failures);
      Some(Configured(x, c, o).(lifecycle := l, health := h, reason := reason, failures := failures))
  }

  /** What a completion that finds its device writes. A device that is taken out carries the handler's reason and one
      more failure; one that comes back has none left, and a reason only while STF has yet to settle. The record takes
      a target exactly when a reimage or a profile update succeeded and the device came back; nothing of the kind is
      pending any more, and the other columns are left alone. */
  lemma RecordFollows(x: Record, c: Command, o: CommandOutcome, why: string)
    requires Produces(c.kind, c.state)
    requires CompletionEffect(c.kind, c.state, x.lifecycle, x.health, o).Sets?
    ensures var done := Completed(x, c, o, why);
            && done.Some?
            && var y := done.value;
               var taken := y.lifecycle == DeviceReady && o.status == CommandSucceeded;
               && (y.lifecycle == DeviceQuarantined ==> y.reason == Some(why) && y.failures == x.failures + 1)
               && (y.lifecycle == DeviceReady ==>
                     && y.failures == 0 && (y.health == HealthHealthy <==> y.reason == None)
                     && (y.reason.Some? ==> y.reason.value == "STF readiness stabilization is in progress"))
               && y.image == (if c.kind == Reimage && taken then c.image else x.image)
               && y.override == (if c.kind in {Reimage, ProfileUpdate} && taken then Some(c.profile) else x.override)
               && y.pendingImage == (if c.kind == Reimage then None else x.pendingImage)
               && y.pendingProfile == (if c.kind in {Reimage, ProfileUpdate} then None else x.pendingProfile)
               && y.reimage == (if c.kind != Reimage then x.reimage else if taken then ChangeIdle else ChangeFailed)
               && y.profileUpdate ==
                  (if c.kind != ProfileUpdate then x.profileUpdate else if taken then ChangeIdle else ChangeFailed)
  {
  }

  // ---- The handlers, step by step ----

  /** The device's lifecycle and health taken through the aggregate: unhealthy, then quarantined unless
      it may already be. */
  method TakeOut(l: Lifecycle, h: Health, already: bool, why: string, at: Clock) returns (e: Effect)
    requires TrimSpace(why) != ""
    ensures e == if already && l == DeviceQuarantined then Sets(DeviceQuarantined, HealthUnhealthy) else Isolated(l)
  {
    var aggregate := new DeviceAggregate(l, h);
    aggregate.SetHealth(HealthUnhealthy, why, at);
    IsolationEdges(l, HealthUnhealthy);
    if !already || l != DeviceQuarantined {
      var ok := aggregate.MoveTo(DeviceQuarantined, why, at);
      if !ok {
        return Refused;
      }
    }
    e := Sets(aggregate.lifecycle.status, aggregate.health);
  }

  /** Takes a healthy device up to `ready` from the lifecycles it may come up from. */
  method Climb(aggregate: DeviceAggregate, fromStopped: bool, fromQuarantine: bool, keepReady: bool, why: string,
               at: Clock) returns (up: bool)
    requires aggregate.Valid() && aggregate.health == HealthHealthy && TrimSpace(why) != ""
    modifies aggregate.lifecycle
    ensures aggregate.Valid()
    ensures up <==> ComesUp(old(aggregate.lifecycle.status), fromStopped, fromQuarantine, keepReady)
    ensures up ==> aggregate.lifecycle.status == DeviceReady
  {
    RecoveryEdges(HealthHealthy);
    if fromQuarantine && aggregate.lifecycle.status == DeviceQuarantined {
      up := aggregate.MoveTo(DeviceProvisioning, why, at);
    }
    if aggregate.lifecycle.status == DeviceProvisioning
       || (fromStopped && aggregate.lifecycle.status == DeviceStopped)
    {
      up := aggregate.MoveTo(DeviceBooting, why, at);
    }
    if aggregate.lifecycle.status == DeviceBooting {
      up := aggregate.MoveTo(DeviceReady, why, at);
    } else {
      up := keepReady && aggregate.lifecycle.status == DeviceReady;
    }
  }

  predicate ComesUp(l: Lifecycle, fromStopped: bool, fromQuarantine: bool, keepReady: bool) {
    || l in {DeviceProvisioning, DeviceBooting} || (fromStopped && l == DeviceStopped)
    || (fromQuarantine && l == DeviceQuarantined) || (keepReady && l == DeviceReady)
  }

  /** A device that came up healthy; the health it is left with comes last. */
  method BringUp(l: Lifecycle, h: Health, fromStopped: bool, fromQuarantine: bool, keepReady: bool, last: Health,
                 why: string, at: Clock) returns (e: Effect)
    requires TrimSpace(why) != ""
    ensures e == if ComesUp(l, fromStopped, fromQuarantine, keepReady) then Sets(DeviceReady, last) else Skipped
  {
    var aggregate := new DeviceAggregate(l, h);
    aggregate.SetHealth(HealthHealthy, why, at);
    var up := Climb(aggregate, fromStopped, fromQuarantine, keepReady, why, at);
    if !up {
      return Skipped;
    }
    aggregate.SetHealth(last, why, at);
    e := Sets(aggregate.lifecycle.status, aggregate.health);
  }

  /** What a finished command makes of the lifecycle and the health of its device. */
  method Judged(c: Command, l: Lifecycle, h: Health, o: CommandOutcome, why: string, at: Clock) returns (e: Effect)
    requires TrimSpace(why) != ""
    ensures e == CompletionEffect(c.kind, c.state, l, h, o)
  {
    if o.status == CommandPending || o.status == CommandLeased {
      return Skipped;
    }
    if !Expected(c.kind, c.state, l) {
      return Skipped;
    }
    e := Handle(c.kind, l, h, o, why, at);
  }

  method Handle(kind: CommandKind, l: Lifecycle, h: Health, o: CommandOutcome, why: string, at: Clock)
    returns (e: Effect)
    requires TrimSpace(why) != ""
    ensures e == HandlerEffect(kind, l, h, o)
  {
    match kind
    case Delete => e := HandleDelete(l, h, o, why, at);
    case Reimage =>
      if Applied(o) || Restored(o) {
        e := BringUp(l, h, false, false, false, HealthUnhealthy, why, at);
      } else {
        e := TakeOut(l, h, false, why, at);
      }
    case ProfileUpdate =>
      if Applied(o) || Restored(o) {
        e := BringUp(l, h, false, true, true, HealthUnhealthy, why, at);
      } else {
        e := TakeOut(l, h, true, why, at);
      }
    case Stop =>
      if StoppedCleanly(o) {
        e := if l == DeviceStopped then Sets(l, HealthUnknown) else Skipped;
      } else {
        e := TakeOut(l, h, false, why, at);
      }
    case _ => e := HandleGeneral(kind, l, h, o, why, at);
  }

  method HandleDelete(l: Lifecycle, h: Health, o: CommandOutcome, why: string, at: Clock) returns (e: Effect)
    requires TrimSpace(why) != ""
    ensures e == DeleteEffect(l, h, o)
  {
    if Deleted(o) {
      var aggregate := new DeviceAggregate(l, h);
      var ok := aggregate.MoveTo(DeviceDeleted, why, at);
      e := if ok then Sets(aggregate.lifecycle.status, h) else Refused;
    } else {
      e := TakeOut(l, h, true, why, at);
    }
  }

  method HandleGeneral(kind: CommandKind, l: Lifecycle, h: Health, o: CommandOutcome, why: string, at: Clock)
    returns (e: Effect)
    requires TrimSpace(why) != ""
    ensures e == GeneralEffect(kind, l, o)
  {
    if Succeeded(o) {
      var ios := o.result.value.ios;
      var last := if kind in {Create, Rebuild} && !ios then HealthUnhealthy else HealthHealthy;
      e := BringUp(l, h, true, false, false, last, why, at);
    } else {
      e := TakeOut(l, h, false, why, at);
    }
  }

  class DeviceRow {
    var lifecycle: Lifecycle
    var health: Health
    var reason: Option<string>
    var failures: nat
    var image: nat
    var override: Option<nat>
    var pendingImage: Option<nat>
    var pendingProfile: Option<nat>
    var reimage: ChangeStatus
    var profileUpdate: ChangeStatus

    function Value(): (result: Record)
      reads this
    {
      Record(lifecycle, health, reason, failures, image, override, pendingImage, pendingProfile, reimage, profileUpdate)
    }

    constructor (x: Record)
      ensures Value() == x
    {
      lifecycle, health, reason, failures := x.lifecycle, x.health, x.reason, x.failures;
      image, override, pendingImage, pendingProfile := x.image, x.override, x.pendingImage, x.pendingProfile;
      reimage, profileUpdate := x.reimage, x.profileUpdate;
    }

    /** Applies the result of a finished command to the row, or aborts and leaves it alone. */
    method Reconcile(c: Command, o: CommandOutcome, why: string, at: Clock) returns (ok: bool)
      requires TrimSpace(why) != ""
      modifies this
      ensures Completed(old(Value()), c, o, why) == if ok then Some(Value()) else None
      ensures !ok ==> Value() == old(Value())
    {
      var e := Judged(c, lifecycle, health, o, why, at);
      if !e.Sets? {
        return e.Skipped?;
      }
      ok := true;
      lifecycle, health := e.lifecycle, e.health;
      match c.kind
      case Reimage => SettleReimage(c, o, why);
      case ProfileUpdate => SettleProfile(c, o, why);
      case _ => SettleOther(c, o, why);
    }

    method SettleOther(c: Command, o: CommandOutcome, why: string)
      requires c.kind !in {Reimage, ProfileUpdate}
      modifies this`reason, this`failures
      ensures (reason, failures) == Note(c.kind, lifecycle, health, o, why, old(failures))
    {
      if c.kind == Stop {
        reason, failures := Some(why), if health == HealthUnknown then 0 else failures + 1;
      } else if c.kind == Delete {
        reason, failures := Some(why), if lifecycle == DeviceDeleted then failures else failures + 1;
      } else if lifecycle == DeviceQuarantined {
        reason, failures := Some(why), failures + 1;
      } else {
        reason, failures := if health == HealthUnhealthy then Some(STF_STABILIZING) else None, 0;
      }
    }

    method SettleReimage(c: Command, o: CommandOutcome, why: string)
      modifies this`image, this`override, this`reimage, this`pendingImage, this`pendingProfile, this`reason,
      this`failures
      ensures pendingImage == None && pendingProfile == None
              && reimage == (if Applied(o) then ChangeIdle else ChangeFailed)
      ensures image == (if Applied(o) then c.image else old(image))
              && override == (if Applied(o) then Some(c.profile) else old(override))
      ensures reason == Some(if Applied(o) || Restored(o) then STF_STABILIZING else why)
      ensures failures == if Applied(o) || Restored(o) then 0 else old(failures) + 1
    {
      pendingImage, pendingProfile := None, None;
      if Applied(o) {
        image, override, reimage := c.image, Some(c.profile), ChangeIdle;
      } else {
        reimage := ChangeFailed;
      }
      Mark(Applied(o) || Restored(o), why);
    }

    method SettleProfile(c: Command, o: CommandOutcome, why: string)
      modifies this`override, this`profileUpdate, this`pendingProfile, this`reason, this`failures
      ensures pendingProfile == None && profileUpdate == (if Applied(o) then ChangeIdle else ChangeFailed)
      ensures override == (if Applied(o) then Some(c.profile) else old(override))
      ensures reason == Some(if Applied(o) || Restored(o) then STF_STABILIZING else why)
      ensures failures == if Applied(o) || Restored(o) then 0 else old(failures) + 1
    {
      pendingProfile := None;
      if Applied(o) {
        override, profileUpdate := Some(c.profile), ChangeIdle;
      } else {
        profileUpdate := ChangeFailed;
      }
      Mark(Applied(o) || Restored(o), why);
    }

    /** The health note of a device that came back, or did not. */
    method Mark(back: bool, why: string)
      modifies this`reason, this`failures
      ensures reason == Some(if back then STF_STABILIZING else why)
      ensures failures == if back then 0 else old(failures) + 1
    {
      reason, failures := Some(if back then STF_STABILIZING else why), if back then 0 else failures + 1;
    }
  }
}
