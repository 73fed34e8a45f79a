// The mutators of src/core/service.ts as PostgreSQL runs them: each a transaction of
// separate statements at READ COMMITTED, with row locks held to its end and writes
// that nobody sees before it commits. Between any two statements of one transaction
// every other may run.
module Locking {
  import opened Wrappers
  import opened Workflow

  datatype Row = AppLock(id: nat) | TaskLock(id: nat) | PayoutLock(id: nat) | PersonLock(id: nat)

  /** One SQL statement of a transaction. The Lock statements read the newest
      committed row as they lock it, and lock nothing when there is none. */
  datatype Statement =
    | LockApp(app: nat)
    | LockAppBy(task: nat, contributor: nat)
    | LockTask(task: nat)
    | LockPerson(contributor: nat)
    | LockPayout(payout: nat)
    | FindApp(task: nat, contributor: nat)
    | CountSlots(task: nat)
    | CountPending(contributor: nat)
    | ReadLatest(app: nat)
    | ReadSub(sub: nat)
    | ReadReward(task: nat)
    | ListApps(contributor: nat)
    | ListPayouts(contributor: nat)
    | CountMoney(contributor: nat)
    | Commit
    | Refuse(why: Refusal)

  /** What the statements so far returned. The counts are kept as the sets that
      were counted; the `...Of` fields say which row a read was about. */
  datatype Reads = Reads(
    appId: Option<nat>,
    app: Option<Application>,
    task: Option<Task>,
    person: bool,
    existing: Option<nat>,
    existingApp: Option<Application>,
    slots: set<nat>,
    pending: set<nat>,
    latest: Option<Submission>,
    sub: Option<Submission>,
    reward: Option<string>,
    owner: Option<nat>,
    todo: seq<nat>,
    money: bool)

  const NO_READS: Reads := Reads(None, None, None, false, None, None, {}, {}, None, None, None, None, [], false)

  /** A transaction: `at` counts the statements it has finished. `early` records,
      for the proofs, the applications an erasure had locked when it counted the
      money in flight. */
  datatype Tx = Tx(op: Op, at: nat, held: set<Row>, known: Reads, early: set<nat>)

  datatype System = System(store: Store, txs: map<nat, Tx>)

  datatype Event = Begin(tx: nat, op: Op) | Step(tx: nat) | Abort(tx: nat)

  // ---- What each mutator sends next ----

  function TaskProgram(t: nat, from: TaskStatus, otherwise: Refusal, at: nat, r: Reads): Statement {
    if at == 0 then LockTask(t)
    else if TaskRefusal(r.task, from, otherwise).Some? then Refuse(TaskRefusal(r.task, from, otherwise).value)
    else Commit
  }

  function ApplyProgram(cap: nat, t: nat, c: nat, at: nat, r: Reads): Statement {
    if at == 0 then LockAppBy(t, c)
    else if at == 1 then LockTask(t)
    else if r.task.None? then Refuse(NotFound)
    else if at == 2 then LockPerson(c)
    else if !r.person then Refuse(JustErased)
    else if at == 3 then FindApp(t, c)
    else if at == 4 then CountSlots(t)
    else if at == 5 then CountPending(c)
    else
      var no := ApplyRefusal(cap, r.task.value, |r.slots|, r.existingApp, |r.pending|);
      if no.Some? then Refuse(no.value)
      else if r.existing.Some? && r.appId.None? then Refuse(JustChanged)
      else Commit
  }

  function AssignProgram(a: nat, at: nat, r: Reads): Statement {
    if at == 0 then LockApp(a)
    else if r.app.None? then Refuse(NotFound)
    else if r.app.value.status != AppStatus.Applied then Refuse(WrongStatus)
    else if at == 1 then LockTask(r.app.value.task)
    else if r.task.None? then Refuse(NotFound)
    else if r.task.value.status != TaskStatus.Open then Refuse(NotOpen)
    else if at == 2 then CountSlots(r.app.value.task)
    else if |r.slots| >= r.task.value.max then Refuse(Full)
    else if at == 3 then LockPerson(r.app.value.contributor)
    else Commit
  }

  function DeclineProgram(a: nat, at: nat, r: Reads): Statement {
    if at == 0 then LockApp(a)
    else if r.app.None? then Refuse(NotFound)
    else if r.app.value.status != AppStatus.Applied then Refuse(WrongStatus)
    else Commit
  }

  predicate InReview(latest: Option<Submission>) {
    latest.Some? && latest.value.status == SubStatus.Submitted
  }

  function UnassignProgram(a: nat, at: nat, r: Reads): Statement {
    if at == 0 then LockApp(a)
    else if r.app.None? then Refuse(NotFound)
    else if r.app.value.status != AppStatus.Assigned then Refuse(NotAssigned)
    else if at == 1 then ReadLatest(a)
    else if InReview(r.latest) then Refuse(AwaitingReview)
    else if at == 2 then LockPerson(r.app.value.contributor)
    else Commit
  }

  function WithdrawProgram(a: nat, c: nat, at: nat, r: Reads): Statement {
    if at == 0 then LockApp(a)
    else if r.app.None? || r.app.value.contributor != c then Refuse(NotYours)
    else if r.app.value.status == AppStatus.Applied then Commit
    else if r.app.value.status != AppStatus.Assigned then Refuse(WrongStatus)
    else if at == 1 then ReadLatest(a)
    else if InReview(r.latest) then Refuse(AwaitingReview)
    else if at == 2 then LockPerson(c)
    else Commit
  }

  function SubmitProgram(a: nat, c: nat, at: nat, r: Reads): Statement {
    if at == 0 then LockApp(a)
    else if r.app.None? || r.app.value.contributor != c then Refuse(NotYours)
    else if at == 1 then ReadLatest(a)
    else if r.app.value.status != AppStatus.Assigned then Refuse(NotAssigned)
    else if InReview(r.latest) then Refuse(AwaitingReview)
    else Commit
  }

  function ReviewProgram(i: nat, decision: Decision, at: nat, r: Reads): Statement {
    if at == 0 then ReadSub(i)
    else if r.sub.None? then Refuse(NotFound)
    else if at == 1 then LockApp(r.sub.value.app)
    else if r.app.None? then Refuse(NotFound)
    else if at == 2 then ReadSub(i)
    else if r.sub.value.status != SubStatus.Submitted then Refuse(WrongStatus)
    else if at == 3 then ReadReward(r.app.value.task)
    else if decision == Revise then Commit
    else if at == 4 then LockPerson(r.app.value.contributor)
    else Commit
  }

  /** Locks the applications, then the payouts, then the contributor, in id order;
      then its DELETEs lock whatever rows of theirs came since. */
  function ForgetProgram(c: nat, elsewhere: nat, at: nat, r: Reads): Statement {
    if at == 0 then ListApps(c)
    else if at == 1 then if r.todo != [] then LockApp(r.todo[0]) else ListPayouts(c)
    else if at == 2 then if r.todo != [] then LockPayout(r.todo[0]) else CountMoney(c)
    else if r.money then Refuse(MoneyInFlight)
    else if at == 3 then LockPerson(c)
    else if !r.person then if elsewhere == 0 then Refuse(NothingErased) else Commit
    else if at == 4 then ListApps(c)
    else if at == 5 then if r.todo != [] then LockApp(r.todo[0]) else ListPayouts(c)
    else if r.todo != [] then LockPayout(r.todo[0])
    else Commit
  }

  /** A settlement write: the payout row, then the contributor the notice goes to. */
  function MoneyProgram(p: nat, at: nat, r: Reads): Statement {
    if at == 0 then LockPayout(p)
    else if r.owner.None? then Refuse(NotFound)
    else if at == 1 then LockPerson(r.owner.value)
    else Commit
  }

  function Program(cap: nat, tx: Tx): Statement {
    var at, r := tx.at, tx.known;
    match tx.op
    case OpCreate(max, _, _) => if !(1 <= max <= MAX_ASSIGNEES) then Refuse(BadMaxAssignees) else Commit
    case OpApprove(t, _) => TaskProgram(t, TaskStatus.Draft, OnlyDrafts, at, r)
    case OpDiscard(t, _) => TaskProgram(t, TaskStatus.Draft, OnlyDrafts, at, r)
    case OpClose(t, _) => TaskProgram(t, TaskStatus.Open, WrongStatus, at, r)
    case OpReopen(t, _) => TaskProgram(t, TaskStatus.Closed, WrongStatus, at, r)
    case OpRegister(c) => if at == 0 then LockPerson(c) else Commit
    case OpApply(t, c, _) => ApplyProgram(cap, t, c, at, r)
    case OpAssign(a, _) => AssignProgram(a, at, r)
    case OpDecline(a, _) => DeclineProgram(a, at, r)
    case OpUnassign(a, _, _) => UnassignProgram(a, at, r)
    case OpWithdraw(a, c) => WithdrawProgram(a, c, at, r)
    case OpSubmit(a, c) => SubmitProgram(a, c, at, r)
    case OpReview(i, _, decision, _) => ReviewProgram(i, decision, at, r)
    case OpForget(c, _, elsewhere) => ForgetProgram(c, elsewhere, at, r)
    case OpMoney(p, _) => MoneyProgram(p, at, r)
  }

  // ---- What a statement does ----

  /** The row a statement locks, if it exists. */
  function Wanted(s: Store, stmt: Statement): Option<Row> {
    match stmt
    case LockApp(a) => if a in s.apps then Some(AppLock(a)) else None
    case LockAppBy(t, c) =>
      var a := AppFor(s.apps, t, c, s.nextApp);
      if a.Some? then Some(AppLock(a.value)) else None
    case LockTask(t) => if t in s.tasks then Some(TaskLock(t)) else None
    case LockPerson(c) => if c in s.contributors then Some(PersonLock(c)) else None
    case LockPayout(p) => if p in s.payouts then Some(PayoutLock(p)) else None
    case _ => None
  }

  /** Ids below `n` of the applications of a contributor, in order. */
  function AppIds(apps: map<nat, Application>, c: nat, n: nat): (r: seq<nat>)
    ensures forall a: nat :: a in r <==> a < n && a in apps && apps[a].contributor == c
    ensures forall i, j | 0 <= i < j < |r| :: r[i] < r[j]
  {
    if n == 0 then []
    else
      var rest := AppIds(apps, c, n - 1);
      assert forall i | 0 <= i < |rest| :: rest[i] in rest;
      if n - 1 in apps && apps[n - 1].contributor == c then rest + [n - 1] else rest
  }

  function PayoutIds(payouts: map<nat, Owed>, c: nat, n: nat): (r: seq<nat>)
    ensures forall p: nat :: p in r <==> p < n && p in payouts && payouts[p].contributor == c
    ensures forall i, j | 0 <= i < j < |r| :: r[i] < r[j]
  {
    if n == 0 then []
    else
      var rest := PayoutIds(payouts, c, n - 1);
      assert forall i | 0 <= i < |rest| :: rest[i] in rest;
      if n - 1 in payouts && payouts[n - 1].contributor == c then rest + [n - 1] else rest
  }

  function LatestRow(s: Store, a: nat): Option<Submission> {
    if Latest(s, a).Some? then Some(s.subs[Latest(s, a).value]) else None
  }

  /** What the statement returns, added to what the transaction knows. */
  function Returned(s: Store, stmt: Statement, r: Reads): Reads {
    match stmt
    case LockApp(a) => r.(appId := Some(a), app := AppRow(s, Some(a)), todo := if r.todo != [] then r.todo[1..] else [])
    case LockAppBy(t, c) =>
      var a := AppFor(s.apps, t, c, s.nextApp);
      r.(appId := a, app := AppRow(s, a))
    case LockTask(t) => r.(task := TaskRow(s, t))
    case LockPerson(c) => r.(person := c in s.contributors)
    case LockPayout(p) =>
      r.(owner := if p in s.payouts then Some(s.payouts[p].contributor) else None, todo := if r.todo != [] then r.todo[1..] else [])
    case FindApp(t, c) =>
      var a := AppFor(s.apps, t, c, s.nextApp);
      r.(existing := a, existingApp := AppRow(s, a))
    case CountSlots(t) => r.(slots := SlotsTaken(s, t))
    case CountPending(c) => r.(pending := AppsIn(s, c, AppStatus.Applied))
    case ReadLatest(a) => r.(latest := LatestRow(s, a))
    case ReadSub(i) => r.(sub := if i in s.subs then Some(s.subs[i]) else None)
    case ReadReward(t) => r.(reward := RewardOf(s, t))
    case ListApps(c) => r.(todo := AppIds(s.apps, c, s.nextApp))
    case ListPayouts(c) => r.(todo := PayoutIds(s.payouts, c, s.nextPayout))
    case CountMoney(c) => r.(money := MoneyInFlightFor(s, c))
    case _ => r
  }

  /** The erasure's list statements lock row by row, so it stays where it is while
      rows are left. */
  function Advance(op: Op, stmt: Statement, at: nat): nat {
    if op.OpForget? && (stmt.LockApp? || stmt.LockPayout?) then at else at + 1
  }

  function AppsLocked(held: set<Row>): set<nat> {
    set row | row in held && row.AppLock? :: row.id
  }

  function Ran(s: Store, tx: Tx, stmt: Statement): Tx {
    var row := Wanted(s, stmt);
    tx.(at := Advance(tx.op, stmt, tx.at),
        held := if row.Some? then tx.held + {row.value} else tx.held,
        known := Returned(s, stmt, tx.known),
        early := if stmt.CountMoney? then AppsLocked(tx.held) else tx.early)
  }

  // ---- What a transaction writes ----

  function NextVersionKnown(r: Reads): nat {
    if r.latest.Some? then r.latest.value.version + 1 else 1
  }

  /** The tables once the transaction has committed: its writes, computed from what
      it read, on whatever is committed by then. */
  function Effect(s: Store, tx: Tx): Store {
    var r := tx.known;
    match tx.op
    case OpCreate(max, reward, createdBy) =>
      var made := CreateTask(s, max, reward, createdBy);
      if made.Ok? then made.value else s
    case OpApprove(t, admin) => if t in s.tasks then MoveTask(s, t, TaskStatus.Open, TaskApproved, admin) else s
    case OpDiscard(t, _) => DropDraft(s, t)
    case OpClose(t, admin) => if t in s.tasks then MoveTask(s, t, TaskStatus.Closed, TaskClosed, admin) else s
    case OpReopen(t, admin) => if t in s.tasks then MoveTask(s, t, TaskStatus.Open, TaskReopened, admin) else s
    case OpRegister(c) => Register(s, c)
    case OpApply(t, c, pitch) =>
      if r.existing.Some? && r.existing.value !in s.apps then s else ApplyEffect(s, t, c, pitch, r.existing)
    case OpAssign(a, admin) => if a in s.apps && r.app.Some? then AssignEffect(s, a, r.app.value, admin) else s
    case OpDecline(a, admin) => if a in s.apps && r.app.Some? then DeclineEffect(s, a, r.app.value, admin) else s
    case OpUnassign(a, admin, reason) =>
      if a in s.apps && r.app.Some? then UnassignEffect(s, a, r.app.value, admin, reason) else s
    case OpWithdraw(a, _) => if a in s.apps && r.app.Some? then WithdrawEffect(s, a, r.app.value) else s
    case OpSubmit(a, _) => if r.app.Some? then SubmitEffect(s, a, r.app.value, NextVersionKnown(r)) else s
    case OpReview(i, reviewer, decision, note) =>
      if i in s.subs && r.app.Some? && r.sub.Some? && r.sub.value.app in s.apps
      then ReviewEffect(s, i, r.sub.value.app, r.app.value, r.reward, reviewer, decision, note) else s
    case OpForget(c, admin, _) => if r.person then EraseEffect(s, c, admin) else s
    case OpMoney(p, inFlight) => if p in s.payouts then Money(s, p, inFlight).value else s
  }

  // ---- The system ----

  predicate Free(sys: System, k: nat, row: Option<Row>) {
    row.Some? ==> forall j | j in sys.txs && j != k :: row.value !in sys.txs[j].held
  }

  predicate Enabled(cap: nat, sys: System, ev: Event) {
    match ev
    case Begin(k, _) => k !in sys.txs
    case Step(k) => k in sys.txs && Free(sys, k, Wanted(sys.store, Program(cap, sys.txs[k])))
    case Abort(k) => k in sys.txs
  }

  function Next(cap: nat, sys: System, ev: Event): System
    requires Enabled(cap, sys, ev)
  {
    match ev
    case Begin(k, op) => sys.(txs := sys.txs[k := Tx(op, 0, {}, NO_READS, {})])
    case Step(k) =>
      var tx := sys.txs[k];
      var stmt := Program(cap, tx);
      if stmt == Commit then System(Effect(sys.store, tx), sys.txs - {k})
      else if stmt.Refuse? then sys.(txs := sys.txs - {k})
      else sys.(txs := sys.txs[k := Ran(sys.store, tx, stmt)])
    case Abort(k) => sys.(txs := sys.txs - {k})
  }

  predicate Init(sys: System) {
    sys.store == EMPTY && sys.txs == map[]
  }

  predicate IsRun(cap: nat, states: seq<System>, events: seq<Event>) {
    && |states| == |events| + 1
    && Init(states[0])
    && forall n | 0 <= n < |events| :: Enabled(cap, states[n], events[n]) && states[n + 1] == Next(cap, states[n], events[n])
  }
}
