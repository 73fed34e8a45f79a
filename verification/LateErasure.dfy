// Where the locks of an erasure do not reach: somebody applies behind it. Two runs
// from the empty tables show it, one that erases a payout in flight and one that
// ends in a deadlock.
module LateErasure {
  import opened Wrappers
  import opened Workflow
  import opened WorkflowInvariant
  import opened WorkflowAudit
  import opened Locking
  import opened LockingFits
  import opened LockingLaws
  import opened LockingRuns
  import opened Deadlock

  const CAP: nat := 1
  const ADMIN: nat := 9
  const WHO: nat := 7
  const NOBODY: System := System(EMPTY, map[])
  const ERASURE: Op := OpForget(WHO, ADMIN, 0)

  // ---- The tables along the way ----

  function OneTask(status: TaskStatus): map<nat, Task> {
    map[0 := Task(1, Some("5 NEAR"), status, None)]
  }

  /** An open task and a registered contributor. */
  predicate Registered(s: Store) {
    && s.tasks == OneTask(TaskStatus.Open) && s.apps == map[] && s.subs == map[] && s.payouts == map[]
    && s.contributors == map[WHO := Contributor(0, 0, 0, 0)]
    && s.nextApp == 0 && s.nextSub == 0 && s.nextPayout == 0
  }

  /** The contributor has one application, in the given state, and its work. */
  predicate Applies(s: Store, status: AppStatus, subs: map<nat, Submission>) {
    && s.tasks == OneTask(TaskStatus.Open) && s.apps == map[0 := Application(0, WHO, None, status)] && s.subs == subs
    && WHO in s.contributors && s.nextApp == 1 && s.nextSub == |subs|
  }

  function Done(s: Store, op: Op): Store {
    var r := Perform(CAP, s, op);
    if r.Ok? then r.value else s
  }

  lemma RegisterOk() returns (s: Store)
    ensures Registered(s)
    ensures var s1 := Done(EMPTY, OpCreate(1, Some("5 NEAR"), None));
            var s2 := Done(s1, OpApprove(0, ADMIN));
            && Perform(CAP, EMPTY, OpCreate(1, Some("5 NEAR"), None)) == Ok(s1)
            && Perform(CAP, s1, OpApprove(0, ADMIN)) == Ok(s2) && Perform(CAP, s2, OpRegister(WHO)) == Ok(s)
  {
    var s1 := Done(EMPTY, OpCreate(1, Some("5 NEAR"), None));
    assert s1.tasks == OneTask(TaskStatus.Draft);
    var s2 := Done(s1, OpApprove(0, ADMIN));
    assert s2.tasks == OneTask(TaskStatus.Open);
    s := Done(s2, OpRegister(WHO));
  }

  lemma ApplyOk(s: Store)
    requires Registered(s)
    ensures Perform(CAP, s, OpApply(0, WHO, None)).Ok?
    ensures Applies(Perform(CAP, s, OpApply(0, WHO, None)).value, AppStatus.Applied, map[])
    ensures Perform(CAP, s, OpApply(0, WHO, None)).value.payouts == map[]
    ensures Perform(CAP, s, OpApply(0, WHO, None)).value.nextPayout == 0
  {
    assert SlotsTaken(s, 0) == {};
    assert AppsIn(s, WHO, AppStatus.Applied) == {};
    assert AppFor(s.apps, 0, WHO, 0) == None;
  }

  lemma AssignOk(s: Store)
    requires Applies(s, AppStatus.Applied, map[])
    ensures Perform(CAP, s, OpAssign(0, ADMIN)).Ok?
    ensures var s' := Perform(CAP, s, OpAssign(0, ADMIN)).value;
            Applies(s', AppStatus.Assigned, map[]) && s'.payouts == s.payouts && s'.nextPayout == s.nextPayout
  {
    assert SlotsTaken(s, 0) == {};
  }

  lemma SubmitOk(s: Store)
    requires Applies(s, AppStatus.Assigned, map[])
    ensures Perform(CAP, s, OpSubmit(0, WHO)).Ok?
    ensures var s' := Perform(CAP, s, OpSubmit(0, WHO)).value;
            Applies(s', AppStatus.Assigned, map[0 := Submission(0, 1, SubStatus.Submitted)])
            && s'.payouts == s.payouts && s'.nextPayout == s.nextPayout
  {
    assert Latest(s, 0) == None;
  }

  lemma ReviewOk(s: Store)
    requires Applies(s, AppStatus.Assigned, map[0 := Submission(0, 1, SubStatus.Submitted)])
    requires s.payouts == map[] && s.nextPayout == 0
    ensures Perform(CAP, s, OpReview(0, ADMIN, Approve, None)).Ok?
    ensures var s' := Perform(CAP, s, OpReview(0, ADMIN, Approve, None)).value;
            Applies(s', AppStatus.Completed, map[0 := Submission(0, 1, SubStatus.Approved)])
            && s'.payouts == map[0 := Owed(0, WHO, 0, "5 NEAR", false)] && s'.nextPayout == 1
  {
    var s' := Perform(CAP, s, OpReview(0, ADMIN, Approve, None)).value;
    assert s'.subs == map[0 := Submission(0, 1, SubStatus.Approved)];
  }

  lemma MoneyOk(s: Store)
    requires 0 in s.payouts && s.payouts[0].contributor == WHO
    ensures Perform(CAP, s, OpMoney(0, true)).Ok?
    ensures var s' := Perform(CAP, s, OpMoney(0, true)).value;
            && s'.apps == s.apps && s'.tasks == s.tasks && s'.subs == s.subs && s'.contributors == s.contributors
            && s'.nextApp == s.nextApp && s'.nextSub == s.nextSub && s'.nextPayout == s.nextPayout
            && s'.payouts == s.payouts[0 := s.payouts[0].(inFlight := true)] && MoneyInFlightFor(s', WHO)
  {
    assert Perform(CAP, s, OpMoney(0, true)).value.payouts[0].contributor == WHO;
  }

  // ---- Running them ----

  lemma Alone(sys: System, before: seq<Event>, op: Op) returns (events: seq<Event>)
    requires After(CAP, NOBODY, before) == Some(sys) && 0 !in sys.txs && Unlocked(sys, 0)
    requires !op.OpForget? && Perform(CAP, sys.store, op).Ok?
    ensures After(CAP, NOBODY, events) == Some(System(Perform(CAP, sys.store, op).value, sys.txs))
  {
    EmptyIsOk();
    StartOk(NOBODY);
    AfterSysOk(CAP, NOBODY, before);
    var more := RunsAlone(CAP, sys, 0, op);
    AfterBoth(CAP, NOBODY, before, more);
    events := before + more;
  }

  /** The erasure has locked the contributor's rows, of which there are none, and
      counted no money. */
  const COUNTED: Tx := Tx(ERASURE, 3, {}, NO_READS, {})

  lemma Counts(s: Store) returns (trace: seq<Tx>)
    requires Registered(s)
    ensures IsTrace(CAP, s, ERASURE, trace) && |trace| == 4 && trace[3] == COUNTED
  {
    var t1 := StepOf(CAP, s, Begun(ERASURE));
    assert t1 == Begun(ERASURE).(at := 1);
    var t2 := StepOf(CAP, s, t1);
    assert t2 == Begun(ERASURE).(at := 2);
    var t3 := StepOf(CAP, s, t2);
    assert AppsLocked({}) == {};
    trace := [Begun(ERASURE), t1, t2, t3];
  }

  lemma ErasureStarts() returns (s: Store, events: seq<Event>)
    ensures Registered(s) && After(CAP, NOBODY, events) == Some(System(s, map[1 := COUNTED]))
  {
    var s1 := Done(EMPTY, OpCreate(1, Some("5 NEAR"), None));
    var s2 := Done(s1, OpApprove(0, ADMIN));
    s := RegisterOk();
    var e1 := Alone(NOBODY, [], OpCreate(1, Some("5 NEAR"), None));
    var e2 := Alone(System(s1, map[]), e1, OpApprove(0, ADMIN));
    var e3 := Alone(System(s2, map[]), e2, OpRegister(WHO));
    var trace := Counts(s);
    var e4 := Statements(CAP, System(s, map[]), 1, ERASURE, trace, 3);
    AfterBoth(CAP, NOBODY, e3, e4);
    events := e3 + e4;
    assert With(System(s, map[]), 1, COUNTED) == System(s, map[1 := COUNTED]);
  }

  /** Behind the erasure's back: applied, assigned, delivered, approved, and a /pay
      has put the payout in flight. */
  lemma AssignedBehind() returns (s: Store, events: seq<Event>)
    ensures After(CAP, NOBODY, events) == Some(System(s, map[1 := COUNTED]))
    ensures Applies(s, AppStatus.Assigned, map[]) && s.payouts == map[] && s.nextPayout == 0
  {
    var txs := map[1 := COUNTED];
    var s0, e0 := ErasureStarts();
    ApplyOk(s0);
    var e1 := Alone(System(s0, txs), e0, OpApply(0, WHO, None));
    var s1 := Done(s0, OpApply(0, WHO, None));
    AssignOk(s1);
    events := Alone(System(s1, txs), e1, OpAssign(0, ADMIN));
    s := Done(s1, OpAssign(0, ADMIN));
  }

  lemma ApprovedBehind() returns (s: Store, events: seq<Event>)
    ensures After(CAP, NOBODY, events) == Some(System(s, map[1 := COUNTED]))
    ensures Applies(s, AppStatus.Completed, map[0 := Submission(0, 1, SubStatus.Approved)])
    ensures s.payouts == map[0 := Owed(0, WHO, 0, "5 NEAR", false)] && s.nextPayout == 1
  {
    var txs := map[1 := COUNTED];
    var s2, e2 := AssignedBehind();
    SubmitOk(s2);
    var e3 := Alone(System(s2, txs), e2, OpSubmit(0, WHO));
    var s3 := Done(s2, OpSubmit(0, WHO));
    ReviewOk(s3);
    events := Alone(System(s3, txs), e3, OpReview(0, ADMIN, Approve, None));
    s := Done(s3, OpReview(0, ADMIN, Approve, None));
  }

  lemma PaidBehind() returns (s: Store, events: seq<Event>)
    ensures After(CAP, NOBODY, events) == Some(System(s, map[1 := COUNTED]))
    ensures Applies(s, AppStatus.Completed, map[0 := Submission(0, 1, SubStatus.Approved)])
    ensures s.payouts == map[0 := Owed(0, WHO, 0, "5 NEAR", true)] && s.nextPayout == 1 && MoneyInFlightFor(s, WHO)
  {
    var s4, e4 := ApprovedBehind();
    MoneyOk(s4);
    events := Alone(System(s4, map[1 := COUNTED]), e4, OpMoney(0, true));
    s := Done(s4, OpMoney(0, true));
  }

  // The erasure from its count of the money to its commit.
  const HAS_PERSON: Tx := Tx(ERASURE, 4, {PersonLock(WHO)}, NO_READS.(person := true), {})
  const HAS_LATE: Tx := HAS_PERSON.(at := 5, known := HAS_PERSON.known.(todo := [0]))
  const HAS_APP: Tx := HAS_LATE.(held := {PersonLock(WHO), AppLock(0)}, known := NO_READS.(
    person := true, appId := Some(0), app := Some(Application(0, WHO, None, AppStatus.Completed))))
  const HAS_OWED: Tx := HAS_APP.(at := 6, known := HAS_APP.known.(todo := [0]))
  const HAS_ALL: Tx := HAS_OWED.(held := {PersonLock(WHO), AppLock(0), PayoutLock(0)},
                                 known := HAS_APP.known.(owner := Some(WHO)))

  lemma LocksPerson(s: Store)
    requires WHO in s.contributors
    ensures IsNext(CAP, s, COUNTED, HAS_PERSON)
  {
  }

  lemma FindsLate(s: Store)
    requires AppIds(s.apps, WHO, s.nextApp) == [0]
    ensures IsNext(CAP, s, HAS_PERSON, HAS_LATE)
  {
  }

  lemma LocksLate(s: Store)
    requires s.apps == map[0 := Application(0, WHO, None, AppStatus.Completed)]
    ensures IsNext(CAP, s, HAS_LATE, HAS_APP)
  {
    assert HAS_LATE.held + {AppLock(0)} == HAS_APP.held;
  }

  lemma FindsOwed(s: Store)
    requires PayoutIds(s.payouts, WHO, s.nextPayout) == [0]
    ensures IsNext(CAP, s, HAS_APP, HAS_OWED)
  {
  }

  lemma LocksOwed(s: Store)
    requires s.payouts.Keys == {0} && s.payouts[0].contributor == WHO
    ensures IsNext(CAP, s, HAS_OWED, HAS_ALL)
  {
    assert HAS_OWED.held + {PayoutLock(0)} == HAS_ALL.held;
  }

  lemma ErasureGoes(s: Store, before: seq<Event>, tx: Tx, tx': Tx) returns (events: seq<Event>)
    requires After(CAP, NOBODY, before) == Some(System(s, map[1 := tx])) && IsNext(CAP, s, tx, tx')
    ensures After(CAP, NOBODY, events) == Some(System(s, map[1 := tx']))
  {
    StatementRuns(CAP, System(s, map[1 := tx]), 1);
    AfterBoth(CAP, NOBODY, before, [Step(1)]);
    events := before + [Step(1)];
    assert map[1 := tx][1 := tx'] == map[1 := tx'];
  }

  /** An erasure commits while a payout of its contributor is in flight, and takes
      the row with it: its guard had counted before the contributor applied. */
  lemma ErasureOutrunsMoney() returns (events: seq<Event>, sys: System)
    ensures After(CAP, NOBODY, events) == Some(sys)
    ensures 1 in sys.txs && sys.txs[1].op == ERASURE && Program(CAP, sys.txs[1]) == Commit
    ensures MoneyInFlightFor(sys.store, WHO) && Forget(sys.store, WHO, ADMIN, 0) == Err(MoneyInFlight)
    ensures Enabled(CAP, sys, Step(1)) && Next(CAP, sys, Step(1)).store == EraseEffect(sys.store, WHO, ADMIN)
    ensures Next(CAP, sys, Step(1)).store.payouts == map[]
  {
    var s, before := PaidBehind();
    events := ErasureLocksAll(s, before);
    sys := System(s, map[1 := HAS_ALL]);
  }

  lemma ErasureLocksAll(s: Store, before: seq<Event>) returns (events: seq<Event>)
    requires After(CAP, NOBODY, before) == Some(System(s, map[1 := COUNTED]))
    requires Applies(s, AppStatus.Completed, map[0 := Submission(0, 1, SubStatus.Approved)])
    requires s.payouts == map[0 := Owed(0, WHO, 0, "5 NEAR", true)] && s.nextPayout == 1
    ensures After(CAP, NOBODY, events) == Some(System(s, map[1 := HAS_ALL]))
  {
    LocksPerson(s);
    var e1 := ErasureGoes(s, before, COUNTED, HAS_PERSON);
    FindsLate(s);
    var e2 := ErasureGoes(s, e1, HAS_PERSON, HAS_LATE);
    LocksLate(s);
    var e3 := ErasureGoes(s, e2, HAS_LATE, HAS_APP);
    FindsOwed(s);
    var e4 := ErasureGoes(s, e3, HAS_APP, HAS_OWED);
    LocksOwed(s);
    events := ErasureGoes(s, e4, HAS_OWED, HAS_ALL);
  }

  // ---- The deadlock ----

  /** The admin's transaction has locked the late application and the task. */
  lemma AssignWaits(s: Store) returns (trace: seq<Tx>)
    requires Applies(s, AppStatus.Applied, map[])
    ensures IsTrace(CAP, s, OpAssign(0, ADMIN), trace) && |trace| == 4
    ensures AppLock(0) in trace[3].held && PersonLock(WHO) !in trace[3].held && Program(CAP, trace[3]) == LockPerson(WHO)
  {
    var t1 := StepOf(CAP, s, Begun(OpAssign(0, ADMIN)));
    var t2 := StepOf(CAP, s, t1);
    assert SlotsTaken(s, 0) == {};
    var t3 := StepOf(CAP, s, t2);
    trace := [Begun(OpAssign(0, ADMIN)), t1, t2, t3];
  }

  lemma ErasureWaits(s: Store) returns (t1: Tx, t2: Tx)
    requires Applies(s, AppStatus.Applied, map[])
    ensures IsNext(CAP, s, COUNTED, t1) && IsNext(CAP, s, t1, t2)
    ensures Program(CAP, COUNTED) == LockPerson(WHO) && Program(CAP, t1) == ListApps(WHO)
    ensures PersonLock(WHO) in t2.held && Program(CAP, t2) == LockApp(0)
  {
    t1 := StepOf(CAP, s, COUNTED);
    t2 := StepOf(CAP, s, t1);
    assert AppIds(s.apps, WHO, 1) == [0];
  }

  lemma ErasureGoesBeside(s: Store, before: seq<Event>, tx: Tx, tx': Tx, other: Tx) returns (events: seq<Event>)
    requires After(CAP, NOBODY, before) == Some(System(s, map[0 := other, 1 := tx])) && IsNext(CAP, s, tx, tx')
    requires Wanted(s, Program(CAP, tx)).Some? ==> Wanted(s, Program(CAP, tx)).value !in other.held
    ensures After(CAP, NOBODY, events) == Some(System(s, map[0 := other, 1 := tx']))
  {
    var sys := System(s, map[0 := other, 1 := tx]);
    AfterOne(CAP, sys, Step(1));
    AfterBoth(CAP, NOBODY, before, [Step(1)]);
    events := before + [Step(1)];
    assert sys.txs[1 := tx'] == map[0 := other, 1 := tx'];
  }

  /** An assignment of the late application and the erasure wait for each other. */
  lemma ErasureDeadlocks() returns (events: seq<Event>, sys: System)
    ensures After(CAP, NOBODY, events) == Some(sys) && WaitCycle(CAP, sys, [0, 1])
  {
    var s, other, e1 := AssignHolds();
    var t1, t2 := ErasureWaits(s);
    var e2 := ErasureGoesBeside(s, e1, COUNTED, t1, other);
    events := ErasureGoesBeside(s, e2, t1, t2, other);
    sys := System(s, map[0 := other, 1 := t2]);
    assert WaitsFor(CAP, sys, 0, 1) && WaitsFor(CAP, sys, 1, 0);
  }

  /** The late application is being assigned: its transaction wants the contributor. */
  lemma AssignHolds() returns (s: Store, other: Tx, events: seq<Event>)
    ensures Applies(s, AppStatus.Applied, map[])
    ensures AppLock(0) in other.held && PersonLock(WHO) !in other.held && Program(CAP, other) == LockPerson(WHO)
    ensures After(CAP, NOBODY, events) == Some(System(s, map[0 := other, 1 := COUNTED]))
  {
    var txs := map[1 := COUNTED];
    var s0, e0 := ErasureStarts();
    ApplyOk(s0);
    var e1 := Alone(System(s0, txs), e0, OpApply(0, WHO, None));
    s := Done(s0, OpApply(0, WHO, None));
    var trace := AssignWaits(s);
    other := trace[3];
    var more := Statements(CAP, System(s, txs), 0, OpAssign(0, ADMIN), trace, 3);
    AfterBoth(CAP, NOBODY, e1, more);
    events := e1 + more;
    assert With(System(s, txs), 0, other) == System(s, map[0 := other, 1 := COUNTED]);
  }
}
