// Deadlock freedom: every mutator takes its row locks in one rank order
// (applications by id, the task, payouts by id, the contributor), so no cycle of
// waiting transactions forms, and somebody can always go on. The exception is the
// erasure's DELETE, when it wants a row that came late.
module Deadlock {
  import opened Wrappers
  import opened Workflow
  import opened Locking
  import opened LockingLaws

  function Class(row: Row): nat {
    match row
    case AppLock(_) => 0
    case TaskLock(_) => 1
    case PayoutLock(_) => 2
    case PersonLock(_) => 3
  }

  predicate Before(a: Row, b: Row) {
    Class(a) < Class(b) || (Class(a) == Class(b) && a.id < b.id)
  }

  predicate Below(held: set<Row>, rank: nat) {
    forall row | row in held :: Class(row) < rank
  }

  predicate BeforeAll(held: set<Row>, rank: nat, todo: seq<nat>) {
    && (forall row | row in held :: Class(row) < rank || (Class(row) == rank && forall id | id in todo :: row.id < id))
    && (forall i, j | 0 <= i < j < |todo| :: todo[i] < todo[j])
  }

  /** What a transaction holds by the time it has run `at` statements. */
  predicate Shape(tx: Tx) {
    match tx.op
    case OpApply(_, _, _) => (tx.at == 0 ==> tx.held == {}) && (tx.at <= 1 ==> Below(tx.held, 1)) && (tx.at <= 2 ==> Below(tx.held, 2))
    case OpAssign(_, _) => (tx.at == 0 ==> tx.held == {}) && (tx.at <= 1 ==> Below(tx.held, 1)) && (tx.at <= 3 ==> Below(tx.held, 2))
    case OpReview(_, _, _, _) => (tx.at <= 1 ==> tx.held == {}) && (tx.at <= 4 ==> Below(tx.held, 1))
    case OpForget(_, _, _) =>
      && (tx.at == 0 ==> tx.held == {})
      && (tx.at <= 1 ==> BeforeAll(tx.held, 0, tx.known.todo))
      && (tx.at == 2 ==> BeforeAll(tx.held, 2, tx.known.todo))
      && (tx.at <= 3 ==> Below(tx.held, 3))
    case OpMoney(_, _) => (tx.at == 0 ==> tx.held == {}) && (tx.at <= 1 ==> Below(tx.held, 3))
    case OpRegister(_) => tx.at == 0 ==> tx.held == {}
    case _ => (tx.at == 0 ==> tx.held == {}) && (tx.at <= 2 ==> Below(tx.held, 2))
  }

  lemma ForgetShape(cap: nat, s: Store, tx: Tx)
    requires tx.op.OpForget? && Shape(tx) && Runs(Program(cap, tx))
    ensures Shape(Ran(s, tx, Program(cap, tx)))
  {
    if tx.at in {1, 2} {
      TailAbove(tx.known.todo);
    }
  }

  lemma TailAbove(todo: seq<nat>)
    requires forall i, j | 0 <= i < j < |todo| :: todo[i] < todo[j]
    ensures todo != [] ==> todo[0] in todo && forall id | id in todo[1..] :: todo[0] < id && id in todo
  {
  }

  /** An erasure that deletes. */
  predicate Deletes(tx: Tx) {
    tx.op.OpForget? && tx.at >= 5
  }

  /** Whatever a transaction wants next ranks above all it holds. */
  lemma WantsAbove(cap: nat, s: Store, tx: Tx)
    requires Shape(tx) && !Deletes(tx) && Wanted(s, Program(cap, tx)).Some?
    ensures forall row | row in tx.held :: Before(row, Wanted(s, Program(cap, tx)).value)
  {
    if tx.op.OpForget? && tx.at in {1, 2} {
      TailAbove(tx.known.todo);
    }
  }

  lemma RanShape(cap: nat, s: Store, tx: Tx)
    requires Shape(tx) && Runs(Program(cap, tx))
    ensures Shape(Ran(s, tx, Program(cap, tx)))
  {
    if tx.op.OpForget? {
      ForgetShape(cap, s, tx);
    }
  }

  ghost predicate Shaped(sys: System) {
    forall k | k in sys.txs :: Shape(sys.txs[k])
  }

  lemma StepShaped(cap: nat, sys: System, ev: Event)
    requires Shaped(sys) && Enabled(cap, sys, ev)
    ensures Shaped(Next(cap, sys, ev))
  {
    if ev.Step? && Runs(Program(cap, sys.txs[ev.tx])) {
      RanShape(cap, sys.store, sys.txs[ev.tx]);
    }
  }

  lemma {:induction false} RunShaped(cap: nat, states: seq<System>, events: seq<Event>, n: nat)
    requires IsRun(cap, states, events) && n < |states|
    ensures Shaped(states[n])
  {
    if n > 0 {
      RunShaped(cap, states, events, n - 1);
      StepShaped(cap, states[n - 1], events[n - 1]);
    }
  }

  // ---- Waiting ----

  function WantedBy(cap: nat, sys: System, k: nat): Option<Row>
    requires k in sys.txs
  {
    Wanted(sys.store, Program(cap, sys.txs[k]))
  }

  /** `j` wants a row that `k` holds. */
  predicate WaitsFor(cap: nat, sys: System, j: nat, k: nat) {
    && j in sys.txs && k in sys.txs && j != k
    && WantedBy(cap, sys, j).Some? && WantedBy(cap, sys, j).value in sys.txs[k].held
  }

  /** Each waits for the next, the last for the first. */
  predicate WaitCycle(cap: nat, sys: System, ring: seq<nat>) {
    && |ring| >= 2
    && forall i | 0 <= i < |ring| :: WaitsFor(cap, sys, ring[i], ring[if i + 1 < |ring| then i + 1 else 0])
  }

  /** An erasure whose DELETE wants a row it had not locked: one that came late. */
  predicate WantsLate(cap: nat, sys: System, k: nat) {
    && k in sys.txs && Deletes(sys.txs[k])
    && WantedBy(cap, sys, k).Some? && WantedBy(cap, sys, k).value !in sys.txs[k].held
  }

  predicate RanksUp(cap: nat, sys: System, j: nat, k: nat) {
    && j in sys.txs && k in sys.txs && WantedBy(cap, sys, j).Some? && WantedBy(cap, sys, k).Some?
    && Before(WantedBy(cap, sys, j).value, WantedBy(cap, sys, k).value)
  }

  /** What a transaction waits for it does not hold itself. */
  lemma WaitingRanksUp(cap: nat, sys: System, j: nat, k: nat, l: nat)
    requires Shaped(sys) && Disjoint(sys) && WaitsFor(cap, sys, j, k) && WaitsFor(cap, sys, k, l) && !WantsLate(cap, sys, k)
    ensures RanksUp(cap, sys, j, k)
  {
    WantsAbove(cap, sys.store, sys.txs[k]);
  }

  lemma {:induction false} RingRanksUp(cap: nat, sys: System, ring: seq<nat>, i: nat)
    requires Shaped(sys) && Disjoint(sys) && WaitCycle(cap, sys, ring) && 0 < i < |ring|
    requires forall m | 0 <= m < |ring| :: !WantsLate(cap, sys, ring[m])
    ensures RanksUp(cap, sys, ring[0], ring[i])
  {
    var next := ring[if i + 1 < |ring| then i + 1 else 0];
    assert WaitsFor(cap, sys, ring[i - 1], ring[i]) && WaitsFor(cap, sys, ring[i], next);
    WaitingRanksUp(cap, sys, ring[i - 1], ring[i], next);
    if i > 1 {
      RingRanksUp(cap, sys, ring, i - 1);
    }
  }

  /** Every cycle of waiting transactions runs through an erasure that wants the lock
      of a row that came late. */
  lemma NoWaitCycle(cap: nat, states: seq<System>, events: seq<Event>, n: nat, ring: seq<nat>)
    requires IsRun(cap, states, events) && n < |states| && WaitCycle(cap, states[n], ring)
    ensures exists m :: 0 <= m < |ring| && WantsLate(cap, states[n], ring[m])
  {
    RunShaped(cap, states, events, n);
    RunSysOk(cap, states, events, n);
    RingHasLate(cap, states[n], ring);
  }

  lemma RingHasLate(cap: nat, sys: System, ring: seq<nat>)
    requires Shaped(sys) && Disjoint(sys) && WaitCycle(cap, sys, ring)
    ensures exists m :: 0 <= m < |ring| && WantsLate(cap, sys, ring[m])
  {
    var last := |ring| - 1;
    assert WaitsFor(cap, sys, ring[last], ring[0]) && WaitsFor(cap, sys, ring[0], ring[1]);
    if forall m | 0 <= m < |ring| :: !WantsLate(cap, sys, ring[m]) {
      RingRanksUp(cap, sys, ring, last);
      WaitingRanksUp(cap, sys, ring[last], ring[0], ring[1]);
    }
  }

  // ---- Somebody can go on ----

  /** Follows the waiting from `k` to a transaction whose next statement is not
      blocked; `seen` have been passed, and all they wanted ranks below. */
  lemma {:induction false} FollowWaiting(cap: nat, sys: System, k: nat, seen: set<nat>) returns (free: nat)
    requires Shaped(sys) && Disjoint(sys) && k in sys.txs && k !in seen && seen <= sys.txs.Keys
    requires forall j | j in sys.txs :: !WantsLate(cap, sys, j)
    requires WantedBy(cap, sys, k).Some? ==> forall j | j in seen :: RanksUp(cap, sys, j, k)
    ensures free in sys.txs && Enabled(cap, sys, Step(free))
    decreases sys.txs.Keys - seen
  {
    if Enabled(cap, sys, Step(k)) {
      free := k;
    } else {
      var j := Blocker(cap, sys, k);
      if Enabled(cap, sys, Step(j)) {
        free := j;
      } else {
        var l := Blocker(cap, sys, j);
        WaitingRanksUp(cap, sys, k, j, l);
        assert k in sys.txs.Keys - seen;
        free := FollowWaiting(cap, sys, j, seen + {k});
      }
    }
  }

  lemma Blocker(cap: nat, sys: System, k: nat) returns (j: nat)
    requires k in sys.txs && !Enabled(cap, sys, Step(k))
    ensures WaitsFor(cap, sys, k, j)
  {
    j :| j in sys.txs && j != k && WantedBy(cap, sys, k).value in sys.txs[j].held;
  }

  /** While transactions are open and no erasure wants the lock of a row that came
      late, one of them can run its next statement at once. */
  lemma SomebodyCanRun(cap: nat, states: seq<System>, events: seq<Event>, n: nat)
    requires IsRun(cap, states, events) && n < |states| && states[n].txs != map[]
    requires forall j | j in states[n].txs :: !WantsLate(cap, states[n], j)
    ensures exists k :: k in states[n].txs && Enabled(cap, states[n], Step(k))
  {
    RunShaped(cap, states, events, n);
    RunSysOk(cap, states, events, n);
    var k :| k in states[n].txs;
    var free := FollowWaiting(cap, states[n], k, {});
  }
}
