/** Host commands and their leases (internal/repository/command.go): every operation is one guarded
    update, fenced by the lease token and the attempt number. */
module Commands {
  import opened Domain
  import opened Rows

  type CommandId = nat

  /** What a caller fixes when it creates a command. */
  datatype Spec = Spec(host: HostId, kind: string, payload: string, maxAttempts: nat, key: string)

  datatype Lease = Lease(token: string, expires: int)

  datatype Row = Row(
    spec: Spec, status: CommandStatus, lease: Option<Lease>, attempts: nat,
    result: Option<string>, error: Option<string>, completed: Option<int>, created: int)

  datatype Table = Table(now: int, rows: map<CommandId, Row>)

  datatype Report = Report(token: string, attempt: nat, status: CommandStatus, result: string, error: Option<string>,
                           retryable: bool)

  // ---- The guarded updates ----

  predicate SameKey(a: Spec, b: Spec) {
    a.host == b.host && a.key == b.key
  }

  /** None when the insert is refused; an equal command under the same key is answered with the old row. */
  function CreateTx(t: Table, id: CommandId, spec: Spec): (result: Option<Table>) {
    if exists k :: k in t.rows && SameKey(t.rows[k].spec, spec) then
      if exists k :: k in t.rows && t.rows[k].spec == spec then Some(t) else None
    else if id in t.rows || spec.maxAttempts < 1 then None
    else Some(t.(rows := t.rows[id := Row(spec, CommandPending, None, 0, None, None, None, t.now)]))
  }

  predicate Claimable(t: Table, host: HostId, id: CommandId) {
    id in t.rows && t.rows[id].spec.host == host && t.rows[id].status == CommandPending
    && t.rows[id].attempts < t.rows[id].spec.maxAttempts
  }

  predicate NextClaimable(t: Table, host: HostId, id: CommandId) {
    Claimable(t, host, id)
    && forall k :: k in t.rows && Claimable(t, host, k) ==> Before(t.rows[id].created, id, t.rows[k].created, k)
  }

  function ClaimTx(t: Table, host: HostId, id: CommandId, token: string, lease: nat): (result: Option<Table>) {
    if !Claimable(t, host, id) then None
    else Some(t.(rows := t.rows[id := t.rows[id].(
                     status := CommandLeased, lease := Some(Lease(token, t.now + lease)),
                         attempts := t.rows[id].attempts + 1)]))
  }

  /** The lease of attempt `n` under `token` is the current one and has not run out. */
  predicate Current(t: Table, id: CommandId, token: string, n: nat) {
    && id in t.rows && t.rows[id].status == CommandLeased && t.rows[id].attempts == n
    && t.rows[id].lease.Some? && t.rows[id].lease.value.token == token && t.rows[id].lease.value.expires >= t.now
  }

  function ExtendTx(t: Table, id: CommandId, token: string, n: nat, lease: nat): (result: Option<Table>) {
    if !Current(t, id, token, n) then None
    else Some(t.(rows := t.rows[id := t.rows[id].(lease := Some(Lease(token, t.now + lease)))]))
  }

  predicate Reportable(status: CommandStatus) {
    status in {CommandSucceeded, CommandFailed, CommandTimedOut}
  }

  /** A retryable failure with attempts left goes back to pending. */
  predicate Retries(row: Row, x: Report) {
    x.retryable && x.status == CommandFailed && row.attempts < row.spec.maxAttempts
  }

  function CompleteTx(t: Table, id: CommandId, x: Report): (result: Option<Table>) {
    if !Reportable(x.status) || x.attempt < 1 || !Current(t, id, x.token, x.attempt) then None
    else
      var row := t.rows[id];
      Some(t.(rows := t.rows[id := row.(
                  status := if Retries(row, x) then CommandPending else x.status,
                  lease := None, result := Some(x.result), error := x.error,
                  completed := if Retries(row, x) then None else Some(t.now))]))
  }

  predicate Overdue(t: Table, id: CommandId) {
    id in t.rows && t.rows[id].status == CommandLeased && t.rows[id].lease.Some?
        && t.rows[id].lease.value.expires < t.now
  }

  predicate NextOverdue(t: Table, id: CommandId) {
    Overdue(t, id)
    && forall k :: k in t.rows && Overdue(t, k) ==>
                     Before(t.rows[id].lease.value.expires, id, t.rows[k].lease.value.expires, k)
  }

  function RecoverTx(t: Table, id: CommandId): (result: Option<Table>) {
    if !Overdue(t, id) then None
    else
      var row := t.rows[id];
      var again := row.attempts < row.spec.maxAttempts;
      Some(t.(rows := t.rows[id := row.(
                  status := if again then CommandPending else CommandTimedOut,
                  lease := None, error := if again then None else Some("COMMAND_ATTEMPTS_EXHAUSTED"),
                  completed := if again then None else Some(t.now))]))
  }

  // ---- What the updates demand ----

  /** A completion is accepted exactly from the attempt that holds the lease, under its token and no later than its
      expiry, and for one of three statuses. A retryable failure with attempts left makes the command pending again, and
      anything else ends it now with the reported status; either way the lease is gone and the report is kept. */
  lemma CompletesExactlyWhen(t: Table, id: CommandId, x: Report)
    ensures CompleteTx(t, id, x).Some? <==>
            && x.status in {CommandSucceeded, CommandFailed, CommandTimedOut} && x.attempt >= 1 && id in t.rows
            && t.rows[id].status == CommandLeased && t.rows[id].attempts == x.attempt && t.rows[id].lease.Some?
            && t.rows[id].lease.value.token == x.token && t.now <= t.rows[id].lease.value.expires
    ensures CompleteTx(t, id, x).Some? ==>
              var row, after := t.rows[id], CompleteTx(t, id, x).value.rows[id];
              var again := x.retryable && x.status == CommandFailed && row.attempts < row.spec.maxAttempts;
              && (after.status == CommandPending <==> again) && (!again ==> after.status == x.status)
              && after.completed == (if again then None else Some(t.now))
              && after.lease == None && after.result == Some(x.result) && after.error == x.error
              && after.spec == row.spec && after.attempts == row.attempts && after.created == row.created
              && CompleteTx(t, id, x).value == t.(rows := t.rows[id := after])
  {
  }

  /** A claimed command is its claimer's for exactly the length of the lease: its completion is accepted up to that
      instant, its recovery only after it, and nobody can claim it meanwhile. */
  lemma ClaimLastsExactly(t: Table, host: HostId, id: CommandId, token: string, lease: nat, n: nat, x: Report)
    requires ClaimTx(t, host, id, token, lease).Some?
    requires x.token == token && x.attempt == t.rows[id].attempts + 1
    requires x.status in {CommandSucceeded, CommandFailed, CommandTimedOut}
    ensures var u := ClaimTx(t, host, id, token, lease).value.(now := t.now + n);
            && (CompleteTx(u, id, x).Some? <==> n <= lease)
            && (RecoverTx(u, id).Some? <==> n > lease)
            && forall other, owner, more :: ClaimTx(u, other, id, owner, more) == None
  {
  }

  /** An extension is the attempt's own, before its lease has run out, and lasts from now. */
  lemma ExtensionLastsExactly(t: Table, id: CommandId, token: string, attempt: nat, lease: nat, n: nat, x: Report)
    requires x.token == token && x.attempt == attempt
    ensures ExtendTx(t, id, token, attempt, lease).Some? <==>
            && id in t.rows && t.rows[id].status == CommandLeased && t.rows[id].attempts == attempt
            && t.rows[id].lease.Some? && t.rows[id].lease.value.token == token
            && t.now <= t.rows[id].lease.value.expires
    ensures ExtendTx(t, id, token, attempt, lease).Some? ==>
              var u := ExtendTx(t, id, token, attempt, lease).value.(now := t.now + n);
              && (x.status in {CommandSucceeded, CommandFailed, CommandTimedOut} && attempt >= 1 ==>
                    (CompleteTx(u, id, x).Some? <==> n <= lease))
              && (RecoverTx(u, id).Some? <==> n > lease)
  {
  }

  /** A recovery gives a command back while it has attempts left and ends it otherwise. */
  lemma RecoversExactlyWhen(t: Table, id: CommandId)
    ensures RecoverTx(t, id).Some? <==>
            && id in t.rows && t.rows[id].status == CommandLeased && t.rows[id].lease.Some?
            && t.rows[id].lease.value.expires < t.now
    ensures RecoverTx(t, id).Some? ==>
              var row, after := t.rows[id], RecoverTx(t, id).value.rows[id];
              && after.lease == None && after.attempts == row.attempts && after.spec == row.spec
              && (row.attempts < row.spec.maxAttempts ==> after.status == CommandPending && after.completed == None)
              && (row.attempts >= row.spec.maxAttempts ==>
                    && after.status == CommandTimedOut && after.completed == Some(t.now)
                    && after.error == Some("COMMAND_ATTEMPTS_EXHAUSTED"))
  {
  }

  // ---- Runs ----

  datatype Step =
    | Tick(n: nat)
    | Create(id: CommandId, spec: Spec)
    | Claim(host: HostId, id: CommandId, token: string, lease: nat)
    | Extend(id: CommandId, token: string, attempt: nat, lease: nat)
    | Complete(id: CommandId, report: Report)
    | Recover(id: CommandId)

  function Transact(t: Table, step: Step): (result: Option<Table>) {
    match step
    case Tick(n) => Some(t.(now := t.now + n))
    case Create(id, spec) => CreateTx(t, id, spec)
    case Claim(host, id, token, lease) => ClaimTx(t, host, id, token, lease)
    case Extend(id, token, attempt, lease) => ExtendTx(t, id, token, attempt, lease)
    case Complete(id, report) => CompleteTx(t, id, report)
    case Recover(id) => RecoverTx(t, id)
  }

  function Next(t: Table, step: Step): (result: Table) {
    if Transact(t, step).Some? then Transact(t, step).value else t
  }

  function Run(t: Table, steps: seq<Step>): (result: Table)
    decreases |steps|
  {
    if steps == [] then t else Run(Next(t, steps[0]), steps[1..])
  }

  // ---- The invariant ----

  predicate Terminal(status: CommandStatus) {
    status !in {CommandPending, CommandLeased}
  }

  ghost predicate RowOk(row: Row) {
    && row.attempts <= row.spec.maxAttempts
    && (row.status == CommandPending ==> row.attempts < row.spec.maxAttempts)
    && (row.status == CommandLeased <==> row.lease.Some?)
    && (row.status == CommandLeased ==> row.attempts >= 1)
    && (Terminal(row.status) <==> row.completed.Some?)
  }

  ghost predicate Sound(t: Table) {
    && (forall id :: id in t.rows ==> RowOk(t.rows[id]))
    && (forall i, j :: i in t.rows && j in t.rows && SameKey(t.rows[i].spec, t.rows[j].spec) ==> i == j)
  }

  lemma CreateKeepsSound(t: Table, id: CommandId, spec: Spec)
    requires Sound(t) && CreateTx(t, id, spec).Some?
    ensures Sound(CreateTx(t, id, spec).value)
  {
  }

  lemma OneRowKeepsSound(t: Table, u: Table, id: CommandId)
    requires Sound(t) && id in t.rows && id in u.rows && u.rows == t.rows[id := u.rows[id]]
    requires u.rows[id].spec == t.rows[id].spec && RowOk(u.rows[id])
    ensures Sound(u)
  {
  }

  lemma StepKeepsSound(t: Table, step: Step)
    requires Sound(t)
    ensures Sound(Next(t, step))
  {
    if Transact(t, step).Some? {
      match step
      case Tick(n) =>
      case Create(id, spec) => CreateKeepsSound(t, id, spec);
      case Claim(host, id, token, lease) => OneRowKeepsSound(t, Next(t, step), id);
      case Extend(id, token, attempt, lease) => OneRowKeepsSound(t, Next(t, step), id);
      case Complete(id, report) => OneRowKeepsSound(t, Next(t, step), id);
      case Recover(id) => OneRowKeepsSound(t, Next(t, step), id);
    }
  }

  /** In every reachable state a pending command can be claimed by its host, attempts never exceed the
      maximum, and one key names one command. */
  lemma {:induction false} RunKeepsSound(t: Table, steps: seq<Step>)
    requires Sound(t)
    ensures Sound(Run(t, steps))
    decreases |steps|
  {
    if steps == [] {
    } else {
      StepKeepsSound(t, steps[0]);
      RunKeepsSound(Next(t, steps[0]), steps[1..]);
    }
  }

  lemma PendingIsClaimable(t: Table, steps: seq<Step>, id: CommandId, token: string, lease: nat)
    requires t.rows == map[]
    requires id in Run(t, steps).rows && Run(t, steps).rows[id].status == CommandPending
    ensures ClaimTx(Run(t, steps), Run(t, steps).rows[id].spec.host, id, token, lease).Some?
  {
    RunKeepsSound(t, steps);
  }

  // ---- How a row evolves ----

  /** The steps that move a command: its claims, its accepted completions and its recoveries. */
  predicate Moves(t: Table, step: Step, id: CommandId) {
    (step.Claim? || step.Complete? || step.Recover?) && step.id == id && Transact(t, step).Some?
  }

  ghost predicate RowEvolves(a: Row, b: Row) {
    && b.spec == a.spec && b.created == a.created && b.attempts >= a.attempts
    && (a.status == b.status || Edge(COMMAND_TRANSITIONS, a.status, b.status))
    && (Terminal(a.status) ==> b == a)
    && (b.attempts == a.attempts && a.status != CommandLeased ==> b.status != CommandLeased)
  }

  lemma StepEvolves(t: Table, step: Step, id: CommandId)
    requires id in t.rows
    ensures id in Next(t, step).rows && RowEvolves(t.rows[id], Next(t, step).rows[id])
    ensures !Moves(t, step, id) ==>
              var a, b := t.rows[id], Next(t, step).rows[id];
              b.status == a.status && b.attempts == a.attempts
  {
  }

  /** A terminal command never changes again. */
  lemma {:induction false} TerminalForever(t: Table, steps: seq<Step>, id: CommandId)
    requires id in t.rows && Terminal(t.rows[id].status)
    ensures id in Run(t, steps).rows && Run(t, steps).rows[id] == t.rows[id]
    decreases |steps|
  {
    if steps == [] {
    } else {
      StepEvolves(t, steps[0], id);
      TerminalForever(Next(t, steps[0]), steps[1..], id);
    }
  }

  // ---- Fencing ----

  /** Attempt `n` of the command is over: it is not leased any more, or a later attempt has begun. */
  predicate Superseded(t: Table, id: CommandId, n: nat) {
    id in t.rows && (t.rows[id].attempts > n || (t.rows[id].attempts == n && t.rows[id].status != CommandLeased))
  }

  /** A superseded attempt is rejected for ever, whatever token it shows. */
  lemma {:induction false} SupersededForever(t: Table, steps: seq<Step>, id: CommandId, n: nat, x: Report, lease: nat)
    requires Superseded(t, id, n) && x.attempt == n
    ensures var v := Run(t, steps);
            && Superseded(v, id, n)
            && CompleteTx(v, id, x) == None && ExtendTx(v, id, x.token, n, lease) == None
    decreases |steps|
  {
    if steps == [] {
    } else {
      StepEvolves(t, steps[0], id);
      SupersededForever(Next(t, steps[0]), steps[1..], id, n, x, lease);
    }
  }

  /** An accepted completion or recovery supersedes the attempt that was current, and so does a claim. */
  lemma MovesSupersede(t: Table, step: Step)
    requires Sound(t) && (step.Claim? || step.Complete? || step.Recover?) && Moves(t, step, step.id)
    ensures step.Complete? ==>
              Current(t, step.id, step.report.token, step.report.attempt)
                  && Superseded(Next(t, step), step.id, step.report.attempt)
    ensures step.Recover? ==> Superseded(Next(t, step), step.id, t.rows[step.id].attempts)
    ensures step.Claim? ==> Superseded(t, step.id, t.rows[step.id].attempts)
                            && Current(Next(t, step), step.id, step.token, t.rows[step.id].attempts + 1)
  {
  }

  predicate Accepts(t: Table, step: Step, id: CommandId, n: nat) {
    step.Complete? && step.id == id && step.report.attempt == n && Transact(t, step).Some?
  }

  function Completions(t: Table, steps: seq<Step>, id: CommandId, n: nat): (result: nat)
    decreases |steps|
  {
    if steps == [] then 0
    else (if Accepts(t, steps[0], id, n) then 1 else 0) + Completions(Next(t, steps[0]), steps[1..], id, n)
  }

  lemma {:induction false} NoneOnceSuperseded(t: Table, steps: seq<Step>, id: CommandId, n: nat)
    requires Superseded(t, id, n)
    ensures Completions(t, steps, id, n) == 0
    decreases |steps|
  {
    if steps == [] {
    } else {
      StepEvolves(t, steps[0], id);
      NoneOnceSuperseded(Next(t, steps[0]), steps[1..], id, n);
    }
  }

  /** At most one completion is accepted per attempt. */
  lemma {:induction false} CompletedAtMostOnce(t: Table, steps: seq<Step>, id: CommandId, n: nat)
    requires Sound(t)
    ensures Completions(t, steps, id, n) <= 1
    decreases |steps|
  {
    if steps == [] {
    } else {
      StepKeepsSound(t, steps[0]);
      if Accepts(t, steps[0], id, n) {
        MovesSupersede(t, steps[0]);
        NoneOnceSuperseded(Next(t, steps[0]), steps[1..], id, n);
      } else {
        CompletedAtMostOnce(Next(t, steps[0]), steps[1..], id, n);
      }
    }
  }

  /** At any instant a leased command can be completed or recovered, never both; with the right token
      and a reportable status exactly one of the two is enabled. */
  lemma CompleteOrRecover(t: Table, id: CommandId, x: Report)
    requires Sound(t)
    ensures !(CompleteTx(t, id, x).Some? && RecoverTx(t, id).Some?)
    ensures && id in t.rows && t.rows[id].status == CommandLeased && t.rows[id].lease.value.token == x.token
            && t.rows[id].attempts == x.attempt && Reportable(x.status)
            ==> (CompleteTx(t, id, x).Some? <==> RecoverTx(t, id) == None)
  {
  }

  // ---- Progress ----

  function Measure(row: Row): (result: int) {
    if Terminal(row.status) then 0
    else 2 * (row.spec.maxAttempts - row.attempts) + (if row.status == CommandLeased then 1 else 0)
  }

  lemma MovesDescend(t: Table, step: Step, id: CommandId)
    requires Sound(t) && id in t.rows
    ensures id in Next(t, step).rows
    ensures Moves(t, step, id) ==> 0 <= Measure(Next(t, step).rows[id]) < Measure(t.rows[id])
    ensures !Moves(t, step, id) ==> Measure(Next(t, step).rows[id]) == Measure(t.rows[id])
  {
  }

  function MovesOf(t: Table, steps: seq<Step>, id: CommandId): (result: nat)
    decreases |steps|
  {
    if steps == [] then 0
    else (if Moves(t, steps[0], id) then 1 else 0) + MovesOf(Next(t, steps[0]), steps[1..], id)
  }

  /** A command is claimed, completed and recovered at most twice its maximum number of attempts. */
  lemma {:induction false} MovesAreBounded(t: Table, steps: seq<Step>, id: CommandId)
    requires Sound(t) && id in t.rows
    ensures id in Run(t, steps).rows
    ensures MovesOf(t, steps, id) + Measure(Run(t, steps).rows[id]) <= Measure(t.rows[id])
    ensures Measure(t.rows[id]) <= 2 * t.rows[id].spec.maxAttempts
    ensures Measure(Run(t, steps).rows[id]) >= 0
    decreases |steps|
  {
    assert RowOk(t.rows[id]);
    if steps == [] {
    } else {
      StepKeepsSound(t, steps[0]);
      MovesDescend(t, steps[0], id);
      MovesAreBounded(Next(t, steps[0]), steps[1..], id);
    }
  }

  /** The step that ends a command. */
  predicate Ends(t: Table, step: Step, id: CommandId) {
    id in t.rows && !Terminal(t.rows[id].status) && id in Next(t, step).rows && Terminal(Next(t, step).rows[id].status)
  }

  function Endings(t: Table, steps: seq<Step>, id: CommandId): (result: nat)
    decreases |steps|
  {
    if steps == [] then 0
    else (if Ends(t, steps[0], id) then 1 else 0) + Endings(Next(t, steps[0]), steps[1..], id)
  }

  /** A command ends at most once in any run, and it has ended exactly if it did so in the run or before. */
  lemma {:induction false} EndsAtMostOnce(t: Table, steps: seq<Step>, id: CommandId)
    requires id in t.rows
    ensures id in Run(t, steps).rows
    ensures Endings(t, steps, id) <= 1
    ensures Terminal(Run(t, steps).rows[id].status) <==> Terminal(t.rows[id].status) || Endings(t, steps, id) == 1
    ensures Terminal(t.rows[id].status) ==> Endings(t, steps, id) == 0
    decreases |steps|
  {
    if steps == [] {
    } else {
      StepEvolves(t, steps[0], id);
      EndsAtMostOnce(Next(t, steps[0]), steps[1..], id);
    }
  }

  /** A command with one attempt is claimed once and never goes back to pending: whatever ends its lease
      ends the command. Reimages and profile updates are queued this way. */
  lemma {:induction false} SingleAttempt(t: Table, steps: seq<Step>, id: CommandId)
    requires Sound(t) && id in t.rows && t.rows[id].spec.maxAttempts == 1 && t.rows[id].attempts == 1
    ensures id in Run(t, steps).rows
    ensures var row := Run(t, steps).rows[id];
            row.attempts == 1 && row.status != CommandPending
            && (t.rows[id].status == CommandLeased && row.status != CommandLeased ==> Endings(t, steps, id) == 1)
    decreases |steps|
  {
    assert RowOk(t.rows[id]);
    if steps == [] {
    } else {
      StepKeepsSound(t, steps[0]);
      StepEvolves(t, steps[0], id);
      assert RowOk(Next(t, steps[0]).rows[id]);
      EndsAtMostOnce(Next(t, steps[0]), steps[1..], id);
      SingleAttempt(Next(t, steps[0]), steps[1..], id);
    }
  }

  // ---- The repository, statement by statement ----

  class CommandTable {
    var now: int
    var rows: map<CommandId, Row>

    constructor (now: int)
      ensures Value() == Table(now, map[])
    {
      this.now, rows := now, map[];
    }

    function Value(): (result: Table)
      reads this
    {
      Table(now, rows)
    }

    method Create(id: CommandId, spec: Spec) returns (ok: bool)
      modifies this`rows
      ensures CreateTx(old(Value()), id, spec) == if ok then Some(Value()) else None
      ensures !ok ==> Value() == old(Value())
    {
      if exists k :: k in rows && SameKey(rows[k].spec, spec) {
        return exists k :: k in rows && rows[k].spec == spec;
      }
      if id in rows || spec.maxAttempts < 1 {
        return false;
      }
      rows := rows[id := Row(spec, CommandPending, None, 0, None, None, None, now)];
      ok := true;
    }

    method Oldest(found: set<CommandId>, order: map<CommandId, int>) returns (first: CommandId)
      requires found != {} && found <= order.Keys
      ensures first in found && forall k :: k in found ==> Before(order[first], first, order[k], k)
    {
      ghost var some := First(found, order);
      first :| first in found && forall k :: k in found ==> Before(order[first], first, order[k], k);
    }

    /** Leases the oldest pending command of a host. */
    method ClaimNext(host: HostId, token: string, lease: nat) returns (claimed: Option<CommandId>)
      requires Sound(Value())
      modifies this`rows
      ensures Sound(Value())
      ensures claimed == None ==>
                Value() == old(Value()) && forall id :: id in rows && rows[id].spec.host == host ==>
                    rows[id].status != CommandPending
      ensures claimed.Some? ==>
                NextClaimable(old(Value()), host, claimed.value)
                && ClaimTx(old(Value()), host, claimed.value, token, lease) == Some(Value())
    {
      ghost var t := Value();
      var found := set id | id in rows && Claimable(Value(), host, id);
      if found == {} {
        assert forall id :: id in rows && Claimable(t, host, id) ==> id in found;
        return None;
      }
      var id := Oldest(found, map k | k in rows :: rows[k].created);
      assert forall k :: k in rows && Claimable(t, host, k) ==> k in found;
      rows := rows[id := rows[id].(status := CommandLeased, lease := Some(Lease(token, now + lease)),
                                   attempts := rows[id].attempts + 1)];
      OneRowKeepsSound(t, Value(), id);
      claimed := Some(id);
    }

    method ExtendLease(id: CommandId, token: string, n: nat, lease: nat) returns (ok: bool)
      modifies this`rows
      ensures ExtendTx(old(Value()), id, token, n, lease) == if ok then Some(Value()) else None
      ensures !ok ==> Value() == old(Value())
    {
      if id !in rows || rows[id].status != CommandLeased || rows[id].attempts != n || rows[id].lease == None {
        return false;
      }
      if rows[id].lease.value.token != token || rows[id].lease.value.expires < now {
        return false;
      }
      rows := rows[id := rows[id].(lease := Some(Lease(token, now + lease)))];
      ok := true;
    }

    method Complete(id: CommandId, x: Report) returns (ok: bool)
      modifies this`rows
      ensures CompleteTx(old(Value()), id, x) == if ok then Some(Value()) else None
      ensures !ok ==> Value() == old(Value())
    {
      if !Reportable(x.status) || x.attempt < 1 || !Current(Value(), id, x.token, x.attempt) {
        return false;
      }
      var row := rows[id];
      var status, completed := x.status, Some(now);
      if x.retryable && x.status == CommandFailed && row.attempts < row.spec.maxAttempts {
        status, completed := CommandPending, None;
      }
      rows := rows[id := row.(status := status, lease := None, result := Some(x.result), error := x.error,
                              completed := completed)];
      ok := true;
    }

    /** Recovers the lease that ran out first. */
    method RecoverExpired() returns (recovered: Option<CommandId>)
      modifies this`rows
      ensures recovered == None ==> Value() == old(Value()) && forall id :: !Overdue(Value(), id)
      ensures recovered.Some? ==>
                NextOverdue(old(Value()), recovered.value) && RecoverTx(old(Value()), recovered.value) == Some(Value())
    {
      ghost var t := Value();
      var found := set id | id in rows && Overdue(Value(), id);
      if found == {} {
        assert forall id :: Overdue(t, id) ==> id in found;
        return None;
      }
      var id := Oldest(found, map k | k in found :: rows[k].lease.value.expires);
      assert forall k :: k in rows && Overdue(t, k) ==> k in found;
      var row := rows[id];
      if row.attempts < row.spec.maxAttempts {
        rows := rows[id := row.(status := CommandPending, lease := None, error := None, completed := None)];
      } else {
        rows := rows[id := row.(status := CommandTimedOut, lease := None, error := Some("COMMAND_ATTEMPTS_EXHAUSTED"),
                                completed := Some(now))];
      }
      recovered := Some(id);
    }
  }
}
