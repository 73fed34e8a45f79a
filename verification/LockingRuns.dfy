// The other direction: whatever a mutator does alone, its transaction can do, when
// nobody else holds a lock.
module LockingRuns {
  import opened Wrappers
  import opened Workflow
  import opened WorkflowInvariant
  import opened Locking
  import opened LockingFits
  import opened LockingLaws

  /** The state after the events, if each is enabled in turn. */
  function After(cap: nat, sys: System, events: seq<Event>): Option<System>
    decreases events
  {
    if events == [] then Some(sys)
    else if Enabled(cap, sys, events[0]) then After(cap, Next(cap, sys, events[0]), events[1..])
    else None
  }

  lemma {:induction false} AfterBoth(cap: nat, sys: System, a: seq<Event>, b: seq<Event>)
    requires After(cap, sys, a).Some?
    ensures After(cap, sys, a + b) == After(cap, After(cap, sys, a).value, b)
    decreases a
  {
    if a == [] {
      assert a + b == b;
    } else {
      AfterBoth(cap, Next(cap, sys, a[0]), a[1..], b);
      assert (a + b)[1..] == a[1..] + b;
    }
  }

  lemma Then(cap: nat, sys: System, ev: Event, rest: seq<Event>)
    requires Enabled(cap, sys, ev)
    ensures After(cap, sys, [ev] + rest) == After(cap, Next(cap, sys, ev), rest)
  {
    assert ([ev] + rest)[1..] == rest;
  }

  lemma {:induction false} AfterSysOk(cap: nat, sys: System, events: seq<Event>)
    requires SysOk(sys) && After(cap, sys, events).Some?
    ensures SysOk(After(cap, sys, events).value)
    decreases events
  {
    if events != [] {
      StepSysOk(cap, sys, events[0]);
      AfterSysOk(cap, Next(cap, sys, events[0]), events[1..]);
    }
  }

  /** What a transaction becomes with each of its statements over tables nobody else
      changes. */
  predicate IsTrace(cap: nat, s: Store, op: Op, trace: seq<Tx>) {
    && trace != [] && trace[0] == Begun(op)
    && forall i | 0 <= i < |trace| - 1 :: IsNext(cap, s, trace[i], trace[i + 1])
  }

  predicate IsNext(cap: nat, s: Store, tx: Tx, tx': Tx) {
    Runs(Program(cap, tx)) && tx' == Ran(s, tx, Program(cap, tx))
  }

  predicate Unlocked(sys: System, k: nat) {
    forall j | j in sys.txs && j != k :: sys.txs[j].held == {}
  }

  lemma AfterOne(cap: nat, sys: System, ev: Event)
    requires Enabled(cap, sys, ev)
    ensures After(cap, sys, [ev]) == Some(Next(cap, sys, ev))
  {
    assert [ev][1..] == [];
    assert After(cap, Next(cap, sys, ev), []) == Some(Next(cap, sys, ev));
  }

  lemma StatementRuns(cap: nat, sys: System, k: nat)
    requires k in sys.txs && Unlocked(sys, k) && Runs(Program(cap, sys.txs[k]))
    ensures After(cap, sys, [Step(k)]) == Some(sys.(txs := sys.txs[k := Ran(sys.store, sys.txs[k], Program(cap, sys.txs[k]))]))
  {
    AfterOne(cap, sys, Step(k));
  }

  lemma CommitRuns(cap: nat, sys: System, k: nat)
    requires k in sys.txs && Program(cap, sys.txs[k]) == Commit
    ensures After(cap, sys, [Step(k)]) == Some(System(Effect(sys.store, sys.txs[k]), sys.txs - {k}))
  {
    AfterOne(cap, sys, Step(k));
  }

  function With(sys: System, k: nat, tx: Tx): System {
    sys.(txs := sys.txs[k := tx])
  }

  lemma OneMore(cap: nat, sys: System, k: nat, before: seq<Event>, tx: Tx, tx': Tx)
    requires k !in sys.txs && Unlocked(sys, k) && IsNext(cap, sys.store, tx, tx')
    requires After(cap, sys, before) == Some(With(sys, k, tx))
    ensures After(cap, sys, before + [Step(k)]) == Some(With(sys, k, tx'))
  {
    StatementRuns(cap, With(sys, k, tx), k);
    AfterBoth(cap, sys, before, [Step(k)]);
    assert With(With(sys, k, tx), k, tx') == With(sys, k, tx');
  }

  lemma {:induction false} Statements(cap: nat, sys: System, k: nat, op: Op, trace: seq<Tx>, n: nat) returns (events: seq<Event>)
    requires k !in sys.txs && Unlocked(sys, k) && IsTrace(cap, sys.store, op, trace) && n < |trace|
    ensures After(cap, sys, events) == Some(With(sys, k, trace[n]))
  {
    if n == 0 {
      events := [Begin(k, op)];
      AfterOne(cap, sys, Begin(k, op));
    } else {
      var before := Statements(cap, sys, k, op, trace, n - 1);
      OneMore(cap, sys, k, before, trace[n - 1], trace[n]);
      events := before + [Step(k)];
    }
  }

  lemma ThenCommits(cap: nat, sys: System, k: nat, before: seq<Event>, tx: Tx, s': Store)
    requires k !in sys.txs && Program(cap, tx) == Commit && Effect(sys.store, tx) == s'
    requires After(cap, sys, before) == Some(With(sys, k, tx))
    ensures After(cap, sys, before + [Step(k)]) == Some(System(s', sys.txs))
  {
    CommitRuns(cap, With(sys, k, tx), k);
    AfterBoth(cap, sys, before, [Step(k)]);
    assert With(sys, k, tx).txs - {k} == sys.txs;
  }

  lemma CommitPerforms(cap: nat, sys: System, k: nat)
    requires SysOk(sys) && k in sys.txs && Program(cap, sys.txs[k]) == Commit && !sys.txs[k].op.OpForget?
    ensures Perform(cap, sys.store, sys.txs[k].op) == Ok(Effect(sys.store, sys.txs[k]))
  {
    CommitIsAtomic(cap, sys.store, sys.txs[k]);
  }

  lemma {:induction false} TraceOp(cap: nat, s: Store, op: Op, trace: seq<Tx>, n: nat)
    requires IsTrace(cap, s, op, trace) && n < |trace|
    ensures trace[n].op == op
  {
    if n > 0 {
      TraceOp(cap, s, op, trace, n - 1);
      assert IsNext(cap, s, trace[n - 1], trace[n]);
    }
  }

  lemma CommitsAlone(cap: nat, sys: System, k: nat, op: Op, trace: seq<Tx>) returns (events: seq<Event>)
    requires SysOk(sys) && k !in sys.txs && Unlocked(sys, k) && !op.OpForget?
    requires IsTrace(cap, sys.store, op, trace) && Program(cap, trace[|trace| - 1]) == Commit
    ensures Perform(cap, sys.store, op).Ok?
    ensures After(cap, sys, events) == Some(System(Perform(cap, sys.store, op).value, sys.txs))
  {
    var before := Statements(cap, sys, k, op, trace, |trace| - 1);
    TraceOp(cap, sys.store, op, trace, |trace| - 1);
    AfterSysOk(cap, sys, before);
    CommitPerforms(cap, With(sys, k, trace[|trace| - 1]), k);
    ThenCommits(cap, sys, k, before, trace[|trace| - 1], Perform(cap, sys.store, op).value);
    events := before + [Step(k)];
  }

  // ---- Each mutator runs through ----

  function StepOf(cap: nat, s: Store, tx: Tx): Tx {
    Ran(s, tx, Program(cap, tx))
  }

  /** An apply up to the contributor's lock, and from there on. */
  lemma ApplyLocks(cap: nat, s: Store, op: Op) returns (t1: Tx, t2: Tx, t3: Tx)
    requires op.OpApply? && Perform(cap, s, op).Ok?
    ensures IsNext(cap, s, Begun(op), t1) && IsNext(cap, s, t1, t2) && IsNext(cap, s, t2, t3)
    ensures t3.op == op && t3.at == 3 && t3.known.person && t3.known.task == Some(s.tasks[op.task])
    ensures t3.known.appId == AppFor(s.apps, op.task, op.contributor, s.nextApp)
  {
    t1 := StepOf(cap, s, Begun(op));
    t2 := StepOf(cap, s, t1);
    t3 := StepOf(cap, s, t2);
  }

  lemma ApplyReads(cap: nat, s: Store, op: Op, t3: Tx) returns (t4: Tx, t5: Tx, t6: Tx)
    requires op.OpApply? && Perform(cap, s, op).Ok?
    requires t3.op == op && t3.at == 3 && t3.known.person && t3.known.task == Some(s.tasks[op.task])
    requires t3.known.appId == AppFor(s.apps, op.task, op.contributor, s.nextApp)
    ensures IsNext(cap, s, t3, t4) && IsNext(cap, s, t4, t5) && IsNext(cap, s, t5, t6) && Program(cap, t6) == Commit
  {
    t4 := StepOf(cap, s, t3);
    t5 := StepOf(cap, s, t4);
    t6 := StepOf(cap, s, t5);
  }

  lemma ApplyTrace(cap: nat, s: Store, op: Op) returns (trace: seq<Tx>)
    requires op.OpApply? && Perform(cap, s, op).Ok?
    ensures IsTrace(cap, s, op, trace) && Program(cap, trace[|trace| - 1]) == Commit
  {
    var t1, t2, t3 := ApplyLocks(cap, s, op);
    var t4, t5, t6 := ApplyReads(cap, s, op, t3);
    trace := [Begun(op), t1, t2, t3, t4, t5, t6];
  }

  lemma AssignLocks(cap: nat, s: Store, op: Op) returns (t1: Tx, t2: Tx)
    requires op.OpAssign? && Perform(cap, s, op).Ok?
    ensures IsNext(cap, s, Begun(op), t1) && IsNext(cap, s, t1, t2)
    ensures t2.op == op && t2.at == 2 && t2.known.app == Some(s.apps[op.app])
    ensures t2.known.task == Some(s.tasks[s.apps[op.app].task])
  {
    t1 := StepOf(cap, s, Begun(op));
    t2 := StepOf(cap, s, t1);
  }

  lemma AssignCounts(cap: nat, s: Store, op: Op, t2: Tx) returns (t3: Tx, t4: Tx)
    requires op.OpAssign? && Perform(cap, s, op).Ok?
    requires t2.op == op && t2.at == 2 && t2.known.app == Some(s.apps[op.app])
    requires t2.known.task == Some(s.tasks[s.apps[op.app].task])
    ensures IsNext(cap, s, t2, t3) && IsNext(cap, s, t3, t4) && Program(cap, t4) == Commit
  {
    t3 := StepOf(cap, s, t2);
    t4 := StepOf(cap, s, t3);
  }

  lemma AssignTrace(cap: nat, s: Store, op: Op) returns (trace: seq<Tx>)
    requires op.OpAssign? && Perform(cap, s, op).Ok?
    ensures IsTrace(cap, s, op, trace) && Program(cap, trace[|trace| - 1]) == Commit
  {
    var t1, t2 := AssignLocks(cap, s, op);
    var t3, t4 := AssignCounts(cap, s, op, t2);
    trace := [Begun(op), t1, t2, t3, t4];
  }

  lemma ReviewLocks(cap: nat, s: Store, op: Op) returns (t1: Tx, t2: Tx)
    requires op.OpReview? && Perform(cap, s, op).Ok?
    ensures IsNext(cap, s, Begun(op), t1) && IsNext(cap, s, t1, t2)
    ensures t2.op == op && t2.at == 2 && t2.known.sub == Some(s.subs[op.sub]) && t2.known.app == Some(s.apps[s.subs[op.sub].app])
  {
    t1 := StepOf(cap, s, Begun(op));
    t2 := StepOf(cap, s, t1);
  }

  lemma ReviewReads(cap: nat, s: Store, op: Op, t2: Tx) returns (t3: Tx, t4: Tx)
    requires op.OpReview? && Perform(cap, s, op).Ok?
    requires t2.op == op && t2.at == 2 && t2.known.sub == Some(s.subs[op.sub]) && t2.known.app == Some(s.apps[s.subs[op.sub].app])
    ensures IsNext(cap, s, t2, t3) && IsNext(cap, s, t3, t4)
    ensures if op.decision == Revise then Program(cap, t4) == Commit
            else Runs(Program(cap, t4)) && Program(cap, StepOf(cap, s, t4)) == Commit
  {
    t3 := StepOf(cap, s, t2);
    t4 := StepOf(cap, s, t3);
  }

  lemma ReviewTrace(cap: nat, s: Store, op: Op) returns (trace: seq<Tx>)
    requires op.OpReview? && Perform(cap, s, op).Ok?
    ensures IsTrace(cap, s, op, trace) && Program(cap, trace[|trace| - 1]) == Commit
  {
    var t1, t2 := ReviewLocks(cap, s, op);
    var t3, t4 := ReviewReads(cap, s, op, t2);
    if op.decision == Revise {
      trace := [Begun(op), t1, t2, t3, t4];
    } else {
      trace := [Begun(op), t1, t2, t3, t4, StepOf(cap, s, t4)];
    }
  }

  lemma SubmitTrace(cap: nat, s: Store, op: Op) returns (trace: seq<Tx>)
    requires op.OpSubmit? && Perform(cap, s, op).Ok?
    ensures IsTrace(cap, s, op, trace) && Program(cap, trace[|trace| - 1]) == Commit
  {
    var t1 := StepOf(cap, s, Begun(op));
    trace := [Begun(op), t1, StepOf(cap, s, t1)];
  }

  lemma LeaveLocks(cap: nat, s: Store, op: Op) returns (t1: Tx, t2: Tx)
    requires (op.OpUnassign? || op.OpWithdraw?) && Perform(cap, s, op).Ok?
    ensures IsNext(cap, s, Begun(op), t1)
    ensures if s.apps[op.app].status == AppStatus.Applied then Program(cap, t1) == Commit
            else IsNext(cap, s, t1, t2) && Runs(Program(cap, t2)) && Program(cap, StepOf(cap, s, t2)) == Commit
  {
    t1 := StepOf(cap, s, Begun(op));
    t2 := StepOf(cap, s, t1);
  }

  lemma LeaveTrace(cap: nat, s: Store, op: Op) returns (trace: seq<Tx>)
    requires (op.OpUnassign? || op.OpWithdraw?) && Perform(cap, s, op).Ok?
    ensures IsTrace(cap, s, op, trace) && Program(cap, trace[|trace| - 1]) == Commit
  {
    var t1, t2 := LeaveLocks(cap, s, op);
    if s.apps[op.app].status == AppStatus.Applied {
      trace := [Begun(op), t1];
    } else {
      trace := [Begun(op), t1, t2, StepOf(cap, s, t2)];
    }
  }

  lemma ShortTrace(cap: nat, s: Store, op: Op) returns (trace: seq<Tx>)
    requires op.OpCreate? || op.OpApprove? || op.OpDiscard? || op.OpClose? || op.OpReopen? || op.OpRegister? || op.OpDecline? || op.OpMoney?
    requires Perform(cap, s, op).Ok?
    ensures IsTrace(cap, s, op, trace) && Program(cap, trace[|trace| - 1]) == Commit
  {
    if op.OpCreate? {
      trace := [Begun(op)];
    } else if op.OpMoney? {
      var t1 := StepOf(cap, s, Begun(op));
      trace := [Begun(op), t1, StepOf(cap, s, t1)];
    } else {
      trace := [Begun(op), StepOf(cap, s, Begun(op))];
    }
  }

  lemma Trace(cap: nat, s: Store, op: Op) returns (trace: seq<Tx>)
    requires Perform(cap, s, op).Ok? && !op.OpForget?
    ensures IsTrace(cap, s, op, trace) && Program(cap, trace[|trace| - 1]) == Commit
  {
    if op.OpApply? {
      trace := ApplyTrace(cap, s, op);
    } else if op.OpAssign? {
      trace := AssignTrace(cap, s, op);
    } else if op.OpReview? {
      trace := ReviewTrace(cap, s, op);
    } else if op.OpUnassign? || op.OpWithdraw? {
      trace := LeaveTrace(cap, s, op);
    } else if op.OpSubmit? {
      trace := SubmitTrace(cap, s, op);
    } else {
      trace := ShortTrace(cap, s, op);
    }
  }

  /** Any mutator but an erasure that alone would not be refused can begin, run and
      commit at once while nobody else holds a lock, and does what it does alone. */
  lemma RunsAlone(cap: nat, sys: System, k: nat, op: Op) returns (events: seq<Event>)
    requires SysOk(sys) && k !in sys.txs && Unlocked(sys, k) && !op.OpForget? && Perform(cap, sys.store, op).Ok?
    ensures After(cap, sys, events) == Some(System(Perform(cap, sys.store, op).value, sys.txs))
  {
    var trace := Trace(cap, sys.store, op);
    events := CommitsAlone(cap, sys, k, op, trace);
  }
}
