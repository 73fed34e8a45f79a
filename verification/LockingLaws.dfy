// Every interleaving of the mutators' statements commits what the mutators do when
// they run alone, one after the other.
module LockingLaws {
  import opened Wrappers
  import opened Workflow
  import opened WorkflowInvariant
  import opened WorkflowLaws
  import opened WorkflowAudit
  import opened Locking
  import opened LockingFits

  // ---- A transaction's own statements ----

  predicate Runs(stmt: Statement) {
    stmt != Commit && !stmt.Refuse?
  }

  lemma ApplyRan(cap: nat, s: Store, tx: Tx, t: nat, c: nat)
    requires RefsOk(s) && OneApp(s) && tx.op.OpApply? && tx.op.task == t && tx.op.contributor == c
    requires FitsApply(s, tx, t, c) && Runs(Program(cap, tx))
    ensures FitsApply(s, Ran(s, tx, Program(cap, tx)), t, c)
  {
    if tx.at == 3 {
      assert Program(cap, tx) == FindApp(t, c);
    }
  }

  lemma WorkRan(cap: nat, s: Store, tx: Tx, a: nat)
    requires tx.op.OpDecline? || tx.op.OpUnassign? || tx.op.OpWithdraw? || tx.op.OpSubmit?
    requires RefsOk(s) && tx.op.app == a && FitsWork(s, tx, a) && Runs(Program(cap, tx))
    ensures FitsWork(s, Ran(s, tx, Program(cap, tx)), a)
  {
  }

  lemma ReviewRan(cap: nat, s: Store, tx: Tx, i: nat)
    requires RefsOk(s) && tx.op.OpReview? && tx.op.sub == i && FitsReview(s, tx, i) && Runs(Program(cap, tx))
    ensures FitsReview(s, Ran(s, tx, Program(cap, tx)), i)
  {
  }

  lemma ForgetRan(cap: nat, s: Store, tx: Tx, c: nat)
    requires RefsOk(s) && tx.op.OpForget? && tx.op.contributor == c && FitsForget(s, tx, c) && Runs(Program(cap, tx))
    ensures FitsForget(s, Ran(s, tx, Program(cap, tx)), c)
  {
  }

  lemma RowRan(cap: nat, s: Store, tx: Tx)
    requires Fits(s, tx) && Runs(Program(cap, tx))
    requires tx.op.OpCreate? || tx.op.OpApprove? || tx.op.OpDiscard? || tx.op.OpClose? || tx.op.OpReopen? || tx.op.OpRegister? || tx.op.OpMoney?
    ensures Fits(s, Ran(s, tx, Program(cap, tx)))
  {
  }

  lemma AssignRan(cap: nat, s: Store, tx: Tx, a: nat)
    requires RefsOk(s) && tx.op.OpAssign? && tx.op.app == a && FitsAssign(s, tx, a) && Runs(Program(cap, tx))
    ensures FitsAssign(s, Ran(s, tx, Program(cap, tx)), a)
  {
  }

  /** A statement leaves its transaction knowing only what is so. */
  lemma RanFits(cap: nat, s: Store, tx: Tx)
    requires RefsOk(s) && OneApp(s) && Fits(s, tx) && Runs(Program(cap, tx))
    ensures Fits(s, Ran(s, tx, Program(cap, tx)))
  {
    match tx.op
    case OpApply(t, c, _) => ApplyRan(cap, s, tx, t, c);
    case OpAssign(a, _) => AssignRan(cap, s, tx, a);
    case OpDecline(a, _) => WorkRan(cap, s, tx, a);
    case OpUnassign(a, _, _) => WorkRan(cap, s, tx, a);
    case OpWithdraw(a, _) => WorkRan(cap, s, tx, a);
    case OpSubmit(a, _) => WorkRan(cap, s, tx, a);
    case OpReview(i, _, _, _) => ReviewRan(cap, s, tx, i);
    case OpForget(c, _, _) => ForgetRan(cap, s, tx, c);
    case _ => RowRan(cap, s, tx);
  }

  // ---- A commit is the mutator run alone ----

  predicate Commits(cap: nat, s: Store, tx: Tx) {
    Perform(cap, s, tx.op) == Ok(Effect(s, tx))
  }

  /** The counts an apply went by can only have fallen since it read them. */
  lemma ApplyCommits(cap: nat, s: Store, tx: Tx, t: nat, c: nat)
    requires RefsOk(s) && OneApp(s) && tx.op.OpApply? && tx.op.task == t && tx.op.contributor == c
    requires FitsApply(s, tx, t, c) && Program(cap, tx) == Commit
    ensures Commits(cap, s, tx)
  {
    FewerCount(SlotsTaken(s, t), tx.known.slots);
    FewerCount(AppsIn(s, c, AppStatus.Applied), tx.known.pending);
  }

  lemma AssignCommits(cap: nat, s: Store, tx: Tx, a: nat)
    requires tx.op.OpAssign? && tx.op.app == a && FitsAssign(s, tx, a) && Program(cap, tx) == Commit
    ensures Commits(cap, s, tx)
  {
    FewerCount(SlotsTaken(s, tx.known.app.value.task), tx.known.slots);
  }

  lemma WorkCommits(cap: nat, s: Store, tx: Tx, a: nat)
    requires tx.op.OpDecline? || tx.op.OpUnassign? || tx.op.OpWithdraw? || tx.op.OpSubmit?
    requires tx.op.app == a && FitsWork(s, tx, a) && Program(cap, tx) == Commit
    ensures Commits(cap, s, tx)
  {
  }

  lemma ReviewCommits(cap: nat, s: Store, tx: Tx, i: nat)
    requires tx.op.OpReview? && tx.op.sub == i && FitsReview(s, tx, i) && Program(cap, tx) == Commit
    ensures Commits(cap, s, tx)
  {
  }

  /** A payout of the contributor's is in flight for an application that the erasure
      had not locked when it counted the money. */
  ghost predicate LateMoney(s: Store, tx: Tx, c: nat) {
    exists p :: p in s.payouts && s.payouts[p].contributor == c && s.payouts[p].inFlight && !PaysOneOf(s, p, c, tx.early)
  }

  /** An erasure about to commit has the contributor's money in flight if and only if
      some of it is late. */
  lemma OnlyLateMoney(s: Store, tx: Tx, c: nat)
    requires FitsForget(s, tx, c) && tx.at >= 4
    ensures MoneyInFlightFor(s, c) <==> LateMoney(s, tx, c)
  {
  }

  /** An erasure commits as if alone unless money has come behind its count; and
      always erases the same. */
  lemma ForgetCommits(cap: nat, s: Store, tx: Tx, c: nat)
    requires RefsOk(s) && tx.op.OpForget? && tx.op.contributor == c && FitsForget(s, tx, c) && Program(cap, tx) == Commit
    ensures tx.known.person && c in s.contributors ==> Effect(s, tx) == EraseEffect(s, c, tx.op.admin)
    ensures !LateMoney(s, tx, c) && tx.known.person ==> Commits(cap, s, tx)
    ensures !tx.known.person ==> Effect(s, tx) == s
  {
    OnlyLateMoney(s, tx, c);
  }

  // ---- A commit writes only under its locks ----

  ghost predicate Writes(s: Store, tx: Tx) {
    Under(s, Effect(s, tx), tx.held)
  }

  /** The tables but for the tasks and the log are as they were. */
  lemma TaskRowWrites(s: Store, s': Store, held: set<Row>)
    requires RefsOk(s) && s' == s.(tasks := s'.tasks, nextTask := s'.nextTask, history := s'.history)
    requires TasksUnder(s, s', held)
    ensures Under(s, s', held)
  {
    assert forall t :: SlotsTaken(s', t) == SlotsTaken(s, t);
    assert forall c :: AppsIn(s', c, AppStatus.Applied) == AppsIn(s, c, AppStatus.Applied);
  }

  lemma TaskWrites(cap: nat, s: Store, tx: Tx, t: nat)
    requires tx.op.OpApprove? || tx.op.OpDiscard? || tx.op.OpClose? || tx.op.OpReopen?
    requires RefsOk(s) && tx.op.task == t && FitsTask(s, tx, t) && Program(cap, tx) == Commit
    ensures Writes(s, tx)
  {
    TaskRowWrites(s, Effect(s, tx), tx.held);
  }

  lemma CreateWrites(s: Store, max: int, reward: Option<string>, createdBy: Option<nat>, held: set<Row>)
    requires RefsOk(s) && CreateTask(s, max, reward, createdBy).Ok?
    ensures Under(s, CreateTask(s, max, reward, createdBy).value, held)
  {
    TaskRowWrites(s, CreateTask(s, max, reward, createdBy).value, held);
  }

  lemma RegisterWrites(s: Store, c: nat, held: set<Row>)
    requires RefsOk(s)
    ensures Under(s, Register(s, c), held)
  {
    assert forall t :: SlotsTaken(Register(s, c), t) == SlotsTaken(s, t);
    assert forall d :: AppsIn(Register(s, c), d, AppStatus.Applied) == AppsIn(s, d, AppStatus.Applied);
  }

  lemma MoneyWrites(s: Store, p: nat, inFlight: bool, held: set<Row>)
    requires RefsOk(s) && p in s.payouts && PayoutLock(p) in held
    ensures Under(s, Money(s, p, inFlight).value, held)
  {
    assert forall t :: SlotsTaken(Money(s, p, inFlight).value, t) == SlotsTaken(s, t);
    assert forall d :: AppsIn(Money(s, p, inFlight).value, d, AppStatus.Applied) == AppsIn(s, d, AppStatus.Applied);
  }

  lemma MoveWrites(s: Store, s': Store, held: set<Row>, a: nat, to: AppStatus)
    requires RefsOk(s) && OnlyMoves(s, s', a, to) && AppLock(a) in held
    requires TakesSlot(to) && !TakesSlot(s.apps[a].status) ==> TaskLock(s.apps[a].task) in held
    requires to == AppStatus.Applied && s.apps[a].status != AppStatus.Applied ==> PersonLock(s.apps[a].contributor) in held
    ensures Under(s, s', held)
  {
    MoveCounts(s, s', held, a, to);
  }

  lemma MoveCounts(s: Store, s': Store, held: set<Row>, a: nat, to: AppStatus)
    requires Moved(s, s', a, to)
    requires TakesSlot(to) && !TakesSlot(s.apps[a].status) ==> TaskLock(s.apps[a].task) in held
    requires to == AppStatus.Applied && s.apps[a].status != AppStatus.Applied ==> PersonLock(s.apps[a].contributor) in held
    ensures CountsUnder(s, s', held)
  {
  }

  lemma OpenWrites(s: Store, s': Store, held: set<Row>, t: nat, c: nat, pitch: Option<string>)
    requires RefsOk(s) && Opens(s, s', t, c, pitch) && TaskLock(t) in held && PersonLock(c) in held
    ensures Under(s, s', held)
  {
    forall u | TaskLock(u) !in held ensures SlotsTaken(s', u) <= SlotsTaken(s, u) {
    }
    forall d | PersonLock(d) !in held ensures AppsIn(s', d, AppStatus.Applied) <= AppsIn(s, d, AppStatus.Applied) {
    }
  }

  lemma AddWrites(s: Store, s': Store, held: set<Row>, a: nat, version: nat)
    requires RefsOk(s) && Adds(s, s', a, version) && AppLock(a) in held
    ensures Under(s, s', held)
  {
    assert forall t :: SlotsTaken(s', t) == SlotsTaken(s, t);
    assert forall c :: AppsIn(s', c, AppStatus.Applied) == AppsIn(s, c, AppStatus.Applied);
  }

  lemma EraseWrites(s: Store, s': Store, held: set<Row>, c: nat)
    requires RefsOk(s) && Erases(s, s', c) && PersonLock(c) in held
    requires forall a | a in s.apps && s.apps[a].contributor == c :: AppLock(a) in held
    requires forall p | p in s.payouts && s.payouts[p].contributor == c :: PayoutLock(p) in held
    ensures Under(s, s', held)
  {
  }

  lemma ApplyWrites(cap: nat, s: Store, tx: Tx, t: nat, c: nat)
    requires RefsOk(s) && OneApp(s) && tx.op.OpApply? && tx.op.task == t && tx.op.contributor == c
    requires FitsApply(s, tx, t, c) && Program(cap, tx) == Commit
    ensures Writes(s, tx)
  {
    if tx.known.existing.Some? {
      ReapplyMoves(s, t, c, tx.op.pitch, tx.known.existing.value);
      MoveWrites(s, Effect(s, tx), tx.held, tx.known.existing.value, AppStatus.Applied);
    } else {
      CreateOpens(s, t, c, tx.op.pitch);
      OpenWrites(s, Effect(s, tx), tx.held, t, c, tx.op.pitch);
    }
  }

  lemma AssignWrites(cap: nat, s: Store, tx: Tx, a: nat)
    requires RefsOk(s) && tx.op.OpAssign? && tx.op.app == a && FitsAssign(s, tx, a) && Program(cap, tx) == Commit
    ensures Writes(s, tx)
  {
    AssignMoves(s, a, tx.op.admin);
    MoveWrites(s, Effect(s, tx), tx.held, a, AppStatus.Assigned);
  }

  lemma WorkWrites(cap: nat, s: Store, tx: Tx, a: nat)
    requires tx.op.OpDecline? || tx.op.OpUnassign? || tx.op.OpWithdraw?
    requires RefsOk(s) && tx.op.app == a && FitsWork(s, tx, a) && Program(cap, tx) == Commit
    ensures Writes(s, tx)
  {
    match tx.op
    case OpDecline(_, admin) =>
      DeclineMoves(s, a, admin);
      MoveWrites(s, Effect(s, tx), tx.held, a, AppStatus.Declined);
    case OpUnassign(_, admin, reason) =>
      UnassignMoves(s, a, admin, reason);
      MoveWrites(s, Effect(s, tx), tx.held, a, AppStatus.Applied);
    case OpWithdraw(_, _) =>
      WithdrawMoves(s, a);
      MoveWrites(s, Effect(s, tx), tx.held, a, AppStatus.Withdrawn);
  }

  lemma SubmitWrites(cap: nat, s: Store, tx: Tx, a: nat)
    requires RefsOk(s) && tx.op.OpSubmit? && tx.op.app == a && FitsWork(s, tx, a) && Program(cap, tx) == Commit
    ensures Writes(s, tx)
  {
    AddWrites(s, Effect(s, tx), tx.held, a, NextVersionKnown(tx.known));
  }

  lemma DecideWrites(s: Store, s': Store, held: set<Row>, i: nat, decision: Decision)
    requires RefsOk(s) && Decides(s, s', i, decision) && AppLock(s.subs[i].app) in held
    requires s.apps[s.subs[i].app].status == AppStatus.Assigned
    requires if decision == Approve then Owes(s, s', i) else SamePayouts(s, s')
    ensures Under(s, s', held)
  {
    var a := s.subs[i].app;
    if decision != Revise {
      MoveCounts(s, s', held, a, if decision == Approve then AppStatus.Completed else AppStatus.Rejected);
    } else {
      assert forall t :: SlotsTaken(s', t) == SlotsTaken(s, t);
      assert forall c :: AppsIn(s', c, AppStatus.Applied) == AppsIn(s, c, AppStatus.Applied);
    }
    DecidePayouts(s, s', held, i, decision);
  }

  lemma DecidePayouts(s: Store, s': Store, held: set<Row>, i: nat, decision: Decision)
    requires RefsOk(s) && Decides(s, s', i, decision) && AppLock(s.subs[i].app) in held
    requires if decision == Approve then Owes(s, s', i) else SamePayouts(s, s')
    ensures PayoutsUnder(s, s', held)
  {
  }

  lemma ReviewWrites(cap: nat, s: Store, tx: Tx, i: nat)
    requires Inv(s) && tx.op.OpReview? && tx.op.sub == i && FitsReview(s, tx, i) && Program(cap, tx) == Commit
    ensures Writes(s, tx)
  {
    ReviewDecides(s, i, tx.op.reviewer, tx.op.decision, tx.op.note);
    ReviewLandsOnAssigned(s, i);
    DecideWrites(s, Effect(s, tx), tx.held, i, tx.op.decision);
  }

  lemma ForgetWrites(cap: nat, s: Store, tx: Tx, c: nat)
    requires RefsOk(s) && tx.op.OpForget? && tx.op.contributor == c && FitsForget(s, tx, c) && Program(cap, tx) == Commit
    ensures Writes(s, tx)
  {
    if tx.known.person {
      EraseErases(s, c, tx.op.admin);
      ForgetHoldsAll(cap, s, tx, c);
      EraseWrites(s, Effect(s, tx), tx.held, c);
    }
  }

  lemma ForgetHoldsAll(cap: nat, s: Store, tx: Tx, c: nat)
    requires tx.op.OpForget? && tx.op.contributor == c && FitsForget(s, tx, c) && Program(cap, tx) == Commit && tx.known.person
    ensures PersonLock(c) in tx.held
    ensures forall a | a in s.apps && s.apps[a].contributor == c :: AppLock(a) in tx.held
    ensures forall p | p in s.payouts && s.payouts[p].contributor == c :: PayoutLock(p) in tx.held
  {
  }

  lemma CommitWrites(cap: nat, s: Store, tx: Tx)
    requires Inv(s) && Fits(s, tx) && Program(cap, tx) == Commit
    ensures Writes(s, tx)
  {
    match tx.op
    case OpCreate(max, reward, createdBy) => CreateWrites(s, max, reward, createdBy, tx.held);
    case OpApprove(t, _) => TaskWrites(cap, s, tx, t);
    case OpDiscard(t, _) => TaskWrites(cap, s, tx, t);
    case OpClose(t, _) => TaskWrites(cap, s, tx, t);
    case OpReopen(t, _) => TaskWrites(cap, s, tx, t);
    case OpRegister(c) => RegisterWrites(s, c, tx.held);
    case OpApply(t, c, _) => ApplyWrites(cap, s, tx, t, c);
    case OpAssign(a, _) => AssignWrites(cap, s, tx, a);
    case OpDecline(a, _) => WorkWrites(cap, s, tx, a);
    case OpUnassign(a, _, _) => WorkWrites(cap, s, tx, a);
    case OpWithdraw(a, _) => WorkWrites(cap, s, tx, a);
    case OpSubmit(a, _) => SubmitWrites(cap, s, tx, a);
    case OpReview(i, _, _, _) => ReviewWrites(cap, s, tx, i);
    case OpForget(c, _, _) => ForgetWrites(cap, s, tx, c);
    case OpMoney(p, inFlight) => MoneyWrites(s, p, inFlight, tx.held);
  }

  // ---- Every interleaving ----

  ghost predicate Disjoint(sys: System) {
    forall j, k | j in sys.txs && k in sys.txs && j != k :: sys.txs[j].held !! sys.txs[k].held
  }

  ghost predicate SysOk(sys: System) {
    && Inv(sys.store) && Audit(sys.store) && Disjoint(sys)
    && forall k | k in sys.txs :: Fits(sys.store, sys.txs[k])
  }

  /** An erasure behind whose count money has come. */
  ghost predicate ErasesMoney(s: Store, tx: Tx) {
    tx.op.OpForget? && tx.known.person && LateMoney(s, tx, tx.op.contributor)
  }

  /** What a commit does to the tables: what its mutator does alone; or, when money has
      come behind an erasure's count, the same erasure without its money guard; or,
      for an erasure that found nobody to erase, nothing. */
  ghost predicate CommitStep(cap: nat, s: Store, s': Store, tx: Tx) {
    || Perform(cap, s, tx.op) == Ok(s')
    || (ErasesMoney(s, tx) && s' == EraseEffect(s, tx.op.contributor, tx.op.admin))
    || (tx.op.OpForget? && !tx.known.person && s' == s)
  }

  /** A mutator that goes by at most one row. */
  lemma RowCommits(cap: nat, s: Store, tx: Tx)
    requires Fits(s, tx) && Program(cap, tx) == Commit
    requires tx.op.OpCreate? || tx.op.OpApprove? || tx.op.OpDiscard? || tx.op.OpClose? || tx.op.OpReopen? || tx.op.OpRegister? || tx.op.OpMoney?
    ensures Commits(cap, s, tx)
  {
  }

  lemma AppCommits(cap: nat, s: Store, tx: Tx)
    requires Inv(s) && Fits(s, tx) && Program(cap, tx) == Commit
    requires tx.op.OpApply? || tx.op.OpAssign? || tx.op.OpReview?
    ensures Commits(cap, s, tx)
  {
    match tx.op
    case OpApply(t, c, _) => ApplyCommits(cap, s, tx, t, c);
    case OpAssign(a, _) => AssignCommits(cap, s, tx, a);
    case OpReview(i, _, _, _) => ReviewCommits(cap, s, tx, i);
  }

  lemma CommitIsAtomic(cap: nat, s: Store, tx: Tx)
    requires Inv(s) && Fits(s, tx) && Program(cap, tx) == Commit
    ensures CommitStep(cap, s, Effect(s, tx), tx)
  {
    if tx.op.OpForget? {
      ForgetCommits(cap, s, tx, tx.op.contributor);
    } else if tx.op.OpApply? || tx.op.OpAssign? || tx.op.OpReview? {
      AppCommits(cap, s, tx);
    } else if tx.op.OpDecline? || tx.op.OpUnassign? || tx.op.OpWithdraw? || tx.op.OpSubmit? {
      WorkCommits(cap, s, tx, tx.op.app);
    } else {
      RowCommits(cap, s, tx);
    }
  }

  lemma CommitKeeps(cap: nat, s: Store, s': Store, tx: Tx)
    requires Inv(s) && Audit(s) && CommitStep(cap, s, s', tx)
    ensures Inv(s') && Audit(s')
  {
    if Perform(cap, s, tx.op) == Ok(s') {
      PerformKeeps(cap, s, tx.op);
      PerformTells(cap, s, tx.op);
    } else if ErasesMoney(s, tx) {
      EraseKeeps(s, tx.op.contributor, tx.op.admin);
      EraseTells(s, tx.op.contributor, tx.op.admin);
    }
  }

  lemma OthersFit(cap: nat, sys: System, k: nat)
    requires SysOk(sys) && k in sys.txs && Program(cap, sys.txs[k]) == Commit
    requires Inv(Effect(sys.store, sys.txs[k]))
    ensures forall j | j in sys.txs && j != k :: Fits(Effect(sys.store, sys.txs[k]), sys.txs[j])
  {
    var tx := sys.txs[k];
    CommitWrites(cap, sys.store, tx);
    forall j | j in sys.txs && j != k ensures Fits(Effect(sys.store, tx), sys.txs[j]) {
      FitsStays(sys.store, Effect(sys.store, tx), tx.held, sys.txs[j]);
    }
  }

  lemma CommitSysOk(cap: nat, sys: System, k: nat)
    requires SysOk(sys) && k in sys.txs && Program(cap, sys.txs[k]) == Commit
    ensures SysOk(System(Effect(sys.store, sys.txs[k]), sys.txs - {k}))
  {
    CommitIsAtomic(cap, sys.store, sys.txs[k]);
    CommitKeeps(cap, sys.store, Effect(sys.store, sys.txs[k]), sys.txs[k]);
    OthersFit(cap, sys, k);
  }

  lemma RanSysOk(cap: nat, sys: System, k: nat)
    requires SysOk(sys) && k in sys.txs && Runs(Program(cap, sys.txs[k]))
    requires Free(sys, k, Wanted(sys.store, Program(cap, sys.txs[k])))
    ensures SysOk(sys.(txs := sys.txs[k := Ran(sys.store, sys.txs[k], Program(cap, sys.txs[k]))]))
  {
    RanFits(cap, sys.store, sys.txs[k]);
  }

  /** A transaction that has read and locked nothing yet. */
  function Begun(op: Op): Tx {
    Tx(op, 0, {}, NO_READS, {})
  }

  lemma BegunFits(s: Store, op: Op)
    ensures Fits(s, Begun(op))
  {
  }

  lemma BeginSysOk(sys: System, k: nat, op: Op)
    requires SysOk(sys) && k !in sys.txs
    ensures SysOk(sys.(txs := sys.txs[k := Begun(op)]))
  {
    BegunFits(sys.store, op);
  }

  lemma EndSysOk(sys: System, k: nat)
    requires SysOk(sys)
    ensures SysOk(sys.(txs := sys.txs - {k}))
  {
  }

  /** A statement of transaction `k`. */
  lemma StatementSysOk(cap: nat, sys: System, k: nat)
    requires SysOk(sys) && k in sys.txs && Enabled(cap, sys, Step(k))
    ensures SysOk(Next(cap, sys, Step(k)))
  {
    var stmt := Program(cap, sys.txs[k]);
    if stmt == Commit {
      CommitSysOk(cap, sys, k);
    } else if stmt.Refuse? {
      EndSysOk(sys, k);
    } else {
      RanSysOk(cap, sys, k);
    }
  }

  lemma StepSysOk(cap: nat, sys: System, ev: Event)
    requires SysOk(sys) && Enabled(cap, sys, ev)
    ensures SysOk(Next(cap, sys, ev))
  {
    match ev
    case Begin(k, op) => BeginSysOk(sys, k, op);
    case Abort(k) => EndSysOk(sys, k);
    case Step(k) => StatementSysOk(cap, sys, k);
  }

  lemma {:induction false} RunSysOk(cap: nat, states: seq<System>, events: seq<Event>, n: nat)
    requires IsRun(cap, states, events) && n < |states|
    ensures SysOk(states[n])
  {
    if n == 0 {
      EmptyIsOk();
      StartOk(states[0]);
    } else {
      RunSysOk(cap, states, events, n - 1);
      StepSysOk(cap, states[n - 1], events[n - 1]);
    }
  }

  lemma StartOk(sys: System)
    requires Init(sys) && Inv(EMPTY)
    ensures SysOk(sys)
  {
  }
}
