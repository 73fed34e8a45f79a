// What a transaction's locks guarantee: everything it has read and still relies on
// holds of the committed tables until it ends, whoever commits in between.
module LockingFits {
  import opened Wrappers
  import opened Workflow
  import opened WorkflowInvariant
  import opened Locking

  // ---- What a commit can change, given the locks it held ----

  ghost predicate SameTask(a: Task, b: Task) {
    a.(createdBy := b.createdBy) == b
  }

  ghost predicate AppsUnder(s: Store, s': Store, held: set<Row>) {
    && s.nextApp <= s'.nextApp
    && (forall a | a in s.apps && AppLock(a) !in held :: a in s'.apps && s'.apps[a] == s.apps[a])
    && (forall a | a in s.apps && a in s'.apps :: s'.apps[a].task == s.apps[a].task && s'.apps[a].contributor == s.apps[a].contributor)
    && (forall a | a in s'.apps && a !in s.apps ::
          a >= s.nextApp && TaskLock(s'.apps[a].task) in held && PersonLock(s'.apps[a].contributor) in held)
  }

  ghost predicate TasksUnder(s: Store, s': Store, held: set<Row>) {
    && (forall t | t in s.tasks && TaskLock(t) !in held :: t in s'.tasks && SameTask(s'.tasks[t], s.tasks[t]))
    && (forall t | t in s.tasks && s.tasks[t].status != TaskStatus.Draft ::
          t in s'.tasks && s'.tasks[t].status != TaskStatus.Draft && s'.tasks[t].reward == s.tasks[t].reward)
  }

  ghost predicate PeopleUnder(s: Store, s': Store, held: set<Row>) {
    forall c | c in s.contributors && PersonLock(c) !in held :: c in s'.contributors
  }

  ghost predicate SubsUnder(s: Store, s': Store, held: set<Row>) {
    && s.nextSub <= s'.nextSub
    && (forall i | i in s.subs && s.subs[i].app in s.apps && AppLock(s.subs[i].app) !in held :: i in s'.subs && s'.subs[i] == s.subs[i])
    && (forall i | i in s'.subs && i < s.nextSub :: i in s.subs && s'.subs[i].app == s.subs[i].app)
    && (forall i | i in s'.subs && i >= s.nextSub :: AppLock(s'.subs[i].app) in held)
  }

  ghost predicate CountsUnder(s: Store, s': Store, held: set<Row>) {
    && (forall t | TaskLock(t) !in held :: SlotsTaken(s', t) <= SlotsTaken(s, t))
    && (forall c | PersonLock(c) !in held :: AppsIn(s', c, AppStatus.Applied) <= AppsIn(s, c, AppStatus.Applied))
  }

  ghost predicate PayoutsUnder(s: Store, s': Store, held: set<Row>) {
    && (forall p | p in s.payouts && PayoutLock(p) !in held :: p in s'.payouts && s'.payouts[p] == s.payouts[p])
    && (forall p | p in s.payouts && p in s'.payouts ::
          s'.payouts[p].contributor == s.payouts[p].contributor && s'.payouts[p].submission == s.payouts[p].submission)
    && (forall p | p in s'.payouts && p !in s.payouts ::
          s'.payouts[p].submission in s.subs && AppLock(s.subs[s'.payouts[p].submission].app) in held)
  }

  /** Nothing changes but under a lock the committing transaction held, and nothing
      anybody counts grows but under the lock its counter holds. */
  ghost predicate Under(s: Store, s': Store, held: set<Row>) {
    && AppsUnder(s, s', held) && TasksUnder(s, s', held) && PeopleUnder(s, s', held)
    && SubsUnder(s, s', held) && CountsUnder(s, s', held) && PayoutsUnder(s, s', held)
  }

  // ---- What a transaction knows ----

  ghost predicate AppKnown(s: Store, tx: Tx, a: nat) {
    tx.known.app.Some? ==> AppLock(a) in tx.held && a in s.apps && s.apps[a] == tx.known.app.value
  }

  ghost predicate TaskKnown(s: Store, tx: Tx, t: nat) {
    tx.known.task.Some? ==> TaskLock(t) in tx.held && t in s.tasks && SameTask(s.tasks[t], tx.known.task.value)
  }

  ghost predicate PersonHeld(s: Store, tx: Tx, c: nat) {
    PersonLock(c) in tx.held && c in s.contributors
  }

  ghost predicate LatestKnown(s: Store, tx: Tx, a: nat) {
    tx.known.latest == LatestRow(s, a)
  }

  ghost predicate FitsTask(s: Store, tx: Tx, t: nat) {
    tx.at >= 1 ==> TaskKnown(s, tx, t)
  }

  ghost predicate LockedRow(s: Store, tx: Tx, a: nat, t: nat, c: nat) {
    AppLock(a) in tx.held && a in s.apps && s.apps[a].task == t && s.apps[a].contributor == c
  }

  ghost predicate NoRow(s: Store, t: nat, c: nat) {
    forall a | a in s.apps :: !(s.apps[a].task == t && s.apps[a].contributor == c)
  }

  ghost predicate ExistingKnown(s: Store, tx: Tx, t: nat, c: nat) {
    && TaskLock(t) in tx.held && PersonLock(c) in tx.held
    && (tx.known.existing.None? ==> tx.known.existingApp.None? && NoRow(s, t, c))
    && (tx.known.existing.Some? && tx.known.appId.Some? ==>
          && tx.known.existing == tx.known.appId && tx.known.existing.value in s.apps
          && tx.known.existingApp == Some(s.apps[tx.known.existing.value]))
  }

  ghost predicate FitsApply(s: Store, tx: Tx, t: nat, c: nat) {
    && (tx.at >= 1 && tx.known.appId.Some? ==> LockedRow(s, tx, tx.known.appId.value, t, c))
    && (tx.at >= 2 ==> TaskKnown(s, tx, t))
    && (tx.at >= 3 && tx.known.person ==> PersonHeld(s, tx, c))
    && (tx.at >= 4 ==> tx.known.task.Some? && tx.known.person && ExistingKnown(s, tx, t, c))
    && (tx.at >= 5 ==> SlotsTaken(s, t) <= tx.known.slots)
    && (tx.at >= 6 ==> AppsIn(s, c, AppStatus.Applied) <= tx.known.pending)
  }

  ghost predicate FitsAssign(s: Store, tx: Tx, a: nat) {
    && (tx.at >= 1 ==> AppKnown(s, tx, a))
    && (tx.at >= 2 ==> tx.known.app.Some? && tx.known.app.value.status == AppStatus.Applied && TaskKnown(s, tx, tx.known.app.value.task))
    && (tx.at >= 3 ==> tx.known.task.Some? && tx.known.task.value.status == TaskStatus.Open
                       && SlotsTaken(s, tx.known.app.value.task) <= tx.known.slots)
    && (tx.at >= 4 ==> |tx.known.slots| < tx.known.task.value.max && PersonHeld(s, tx, tx.known.app.value.contributor))
  }

  ghost predicate FitsWork(s: Store, tx: Tx, a: nat) {
    && (tx.at >= 1 ==> AppKnown(s, tx, a))
    && (tx.at >= 2 ==> tx.known.app.Some? && LatestKnown(s, tx, a))
    && (tx.at >= 3 ==> PersonHeld(s, tx, tx.known.app.value.contributor))
  }

  ghost predicate SubKnown(s: Store, tx: Tx, i: nat) {
    && i in s.subs && tx.known.sub == Some(s.subs[i]) && tx.known.appId == Some(s.subs[i].app)
  }

  ghost predicate FitsReview(s: Store, tx: Tx, i: nat) {
    && (tx.at >= 1 && tx.known.sub.Some? ==> i < s.nextSub && (i in s.subs ==> s.subs[i].app == tx.known.sub.value.app))
    && (tx.at >= 2 ==> tx.known.appId.Some? && AppKnown(s, tx, tx.known.appId.value)
                       && (tx.known.sub.Some? ==> tx.known.appId == Some(tx.known.sub.value.app)))
    && (tx.at >= 3 && tx.known.sub.Some? ==> tx.known.app.Some? && SubKnown(s, tx, i))
    && (tx.at >= 4 ==> tx.known.sub.Some? && tx.known.app.value.task in s.tasks && s.tasks[tx.known.app.value.task].status != TaskStatus.Draft
                       && tx.known.reward == s.tasks[tx.known.app.value.task].reward)
    && (tx.at >= 5 ==> PersonHeld(s, tx, tx.known.app.value.contributor))
  }

  ghost predicate FitsMoney(s: Store, tx: Tx, p: nat) {
    tx.at >= 1 && tx.known.owner.Some? ==>
      PayoutLock(p) in tx.held && p in s.payouts && s.payouts[p].contributor == tx.known.owner.value
  }

  /** No application of the contributor has come since the erasure locked them. */
  ghost predicate NoneLate(s: Store, tx: Tx, c: nat) {
    forall a | a in s.apps && s.apps[a].contributor == c :: AppLock(a) in tx.held
  }

  ghost predicate PayoutsHeld(s: Store, tx: Tx, c: nat) {
    forall p | p in s.payouts && s.payouts[p].contributor == c :: PayoutLock(p) in tx.held || p in tx.known.todo
  }

  /** The application whose submission the payout pays for. */
  function PaidApp(s: Store, p: nat): Option<nat>
    requires p in s.payouts
  {
    if s.payouts[p].submission in s.subs then Some(s.subs[s.payouts[p].submission].app) else None
  }

  /** The payout is the contributor's, for one of these applications. */
  predicate PaysOneOf(s: Store, p: nat, c: nat, apps: set<nat>) {
    && p in s.payouts && s.payouts[p].contributor == c
    && PaidApp(s, p).Some? && PaidApp(s, p).value in apps
  }

  /** The payouts for applications the erasure has locked are locked or listed. */
  ghost predicate LockedOnesHeld(s: Store, tx: Tx, c: nat) {
    forall p | PaysOneOf(s, p, c, AppsLocked(tx.held)) :: PayoutLock(p) in tx.held || p in tx.known.todo
  }

  /** Those for applications it had locked when it counted were counted. */
  ghost predicate EarlyOnesCounted(s: Store, tx: Tx, c: nat) {
    forall p | PaysOneOf(s, p, c, tx.early) :: PayoutLock(p) in tx.held && (s.payouts[p].inFlight ==> tx.known.money)
  }

  ghost predicate FitsForget(s: Store, tx: Tx, c: nat) {
    && (forall a | a in tx.early :: AppLock(a) in tx.held)
    && (tx.at == 2 ==> LockedOnesHeld(s, tx, c))
    && (tx.at >= 3 ==> EarlyOnesCounted(s, tx, c))
    && (tx.at >= 4 ==> !tx.known.money && (tx.known.person ==> PersonHeld(s, tx, c)))
    && (tx.at >= 5 ==> tx.known.person)
    && (tx.at == 5 ==> forall a | a in s.apps && s.apps[a].contributor == c :: AppLock(a) in tx.held || a in tx.known.todo)
    && (tx.at >= 6 ==> NoneLate(s, tx, c) && PayoutsHeld(s, tx, c))
    && tx.at <= 6
  }

  /** What holds of the committed tables by virtue of what the transaction read and
      locked so far. */
  ghost predicate Fits(s: Store, tx: Tx) {
    match tx.op
    case OpCreate(_, _, _) => true
    case OpApprove(t, _) => FitsTask(s, tx, t)
    case OpDiscard(t, _) => FitsTask(s, tx, t)
    case OpClose(t, _) => FitsTask(s, tx, t)
    case OpReopen(t, _) => FitsTask(s, tx, t)
    case OpRegister(_) => true
    case OpApply(t, c, _) => FitsApply(s, tx, t, c)
    case OpAssign(a, _) => FitsAssign(s, tx, a)
    case OpDecline(a, _) => FitsWork(s, tx, a)
    case OpUnassign(a, _, _) => FitsWork(s, tx, a)
    case OpWithdraw(a, _) => FitsWork(s, tx, a)
    case OpSubmit(a, _) => FitsWork(s, tx, a)
    case OpReview(i, _, _, _) => FitsReview(s, tx, i)
    case OpForget(c, _, _) => FitsForget(s, tx, c)
    case OpMoney(p, _) => FitsMoney(s, tx, p)
  }

  // ---- Others may commit ----

  lemma PersonStays(s: Store, s': Store, held: set<Row>, tx: Tx, c: nat)
    requires PeopleUnder(s, s', held) && held !! tx.held
    ensures PersonHeld(s, tx, c) ==> PersonHeld(s', tx, c)
  {
  }

  lemma LatestStays(s: Store, s': Store, held: set<Row>, a: nat)
    requires SubsUnder(s, s', held) && VersionsOk(s) && VersionsOk(s') && RefsOk(s) && RefsOk(s')
    requires AppLock(a) !in held && a in s.apps
    ensures LatestRow(s', a) == LatestRow(s, a)
  {
    LatestMeans(s, a);
    LatestMeans(s', a);
    if Latest(s, a).Some? {
      LatestStillLatest(s, s', held, a, Latest(s, a).value);
    }
  }

  lemma LatestStillLatest(s: Store, s': Store, held: set<Row>, a: nat, i: nat)
    requires SubsUnder(s, s', held) && RefsOk(s) && RefsOk(s') && AppLock(a) !in held && a in s.apps
    requires IsLatest(s, i) && s.subs[i].app == a
    ensures IsLatest(s', i) && s'.subs[i] == s.subs[i]
  {
    forall j | j in s'.subs && j != i && s'.subs[j].app == a ensures s'.subs[j].version < s'.subs[i].version {
      assert j < s.nextSub && j in s.subs && s.subs[j].app == a;
    }
  }

  lemma ApplyStays(s: Store, s': Store, held: set<Row>, tx: Tx, t: nat, c: nat)
    requires Under(s, s', held) && held !! tx.held && FitsApply(s, tx, t, c)
    ensures FitsApply(s', tx, t, c)
  {
    PersonStays(s, s', held, tx, c);
  }

  lemma AssignStays(s: Store, s': Store, held: set<Row>, tx: Tx, a: nat)
    requires Under(s, s', held) && held !! tx.held && FitsAssign(s, tx, a)
    ensures FitsAssign(s', tx, a)
  {
    if tx.at >= 2 {
      PersonStays(s, s', held, tx, tx.known.app.value.contributor);
    }
  }

  lemma WorkStays(s: Store, s': Store, held: set<Row>, tx: Tx, a: nat)
    requires Under(s, s', held) && held !! tx.held && FitsWork(s, tx, a)
    requires VersionsOk(s) && VersionsOk(s') && RefsOk(s) && RefsOk(s')
    ensures FitsWork(s', tx, a)
  {
    if tx.at >= 2 {
      LatestStays(s, s', held, a);
      PersonStays(s, s', held, tx, tx.known.app.value.contributor);
    }
  }

  lemma ReviewStays(s: Store, s': Store, held: set<Row>, tx: Tx, i: nat)
    requires Under(s, s', held) && held !! tx.held && FitsReview(s, tx, i)
    ensures FitsReview(s', tx, i)
  {
    if tx.at >= 5 {
      PersonStays(s, s', held, tx, tx.known.app.value.contributor);
    }
  }

  // The erasure: a payout is created only under its application's lock, and changed
  // only under its own.

  lemma PaidBefore(s: Store, s': Store, held: set<Row>, p: nat, c: nat, apps: set<nat>)
    requires SubsUnder(s, s', held) && PayoutsUnder(s, s', held) && RefsOk(s)
    requires PaysOneOf(s', p, c, apps) && forall a | a in apps :: AppLock(a) !in held
    ensures PaysOneOf(s, p, c, apps)
  {
    var i := s'.payouts[p].submission;
    assert i < s.nextSub ==> i in s.subs && s'.subs[i].app == s.subs[i].app;
  }

  lemma CountedStays(s: Store, s': Store, held: set<Row>, tx: Tx, c: nat)
    requires SubsUnder(s, s', held) && PayoutsUnder(s, s', held) && RefsOk(s) && held !! tx.held
    requires forall a | a in tx.early :: AppLock(a) in tx.held
    requires EarlyOnesCounted(s, tx, c)
    ensures EarlyOnesCounted(s', tx, c)
  {
    forall p | PaysOneOf(s', p, c, tx.early)
      ensures PayoutLock(p) in tx.held && (s'.payouts[p].inFlight ==> tx.known.money)
    {
      PaidBefore(s, s', held, p, c, tx.early);
    }
  }

  lemma ListedStays(s: Store, s': Store, held: set<Row>, tx: Tx, c: nat)
    requires SubsUnder(s, s', held) && PayoutsUnder(s, s', held) && RefsOk(s) && held !! tx.held
    requires LockedOnesHeld(s, tx, c)
    ensures LockedOnesHeld(s', tx, c)
  {
    var apps := AppsLocked(tx.held);
    forall p | PaysOneOf(s', p, c, apps) ensures PayoutLock(p) in tx.held || p in tx.known.todo {
      assert forall a | a in apps :: AppLock(a) in tx.held;
      PaidBefore(s, s', held, p, c, apps);
    }
  }

  /** Past its second list the erasure has everything of the contributor's locked. */
  lemma AllStays(s: Store, s': Store, held: set<Row>, tx: Tx, c: nat)
    requires AppsUnder(s, s', held) && PayoutsUnder(s, s', held) && held !! tx.held && PayoutsOk(s')
    requires PersonLock(c) in tx.held && NoneLate(s, tx, c) && PayoutsHeld(s, tx, c) && RefsOk(s) && SubsUnder(s, s', held)
    ensures NoneLate(s', tx, c) && PayoutsHeld(s', tx, c)
  {
    forall p | p in s'.payouts && s'.payouts[p].contributor == c ensures PayoutLock(p) in tx.held || p in tx.known.todo {
      assert PayoutOk(s', p);
      assert s'.subs[s'.payouts[p].submission].app in s'.apps;
    }
  }

  lemma ForgetStays(s: Store, s': Store, held: set<Row>, tx: Tx, c: nat)
    requires Under(s, s', held) && held !! tx.held && FitsForget(s, tx, c) && RefsOk(s) && PayoutsOk(s')
    ensures FitsForget(s', tx, c)
  {
    if tx.at == 2 {
      ListedStays(s, s', held, tx, c);
    }
    if tx.at >= 3 {
      CountedStays(s, s', held, tx, c);
    }
    if tx.at >= 6 {
      AllStays(s, s', held, tx, c);
    }
    PersonStays(s, s', held, tx, c);
  }

  /** Whatever commits beside it, a transaction's knowledge stays true. */
  lemma FitsStays(s: Store, s': Store, held: set<Row>, tx: Tx)
    requires Under(s, s', held) && held !! tx.held && Fits(s, tx)
    requires VersionsOk(s) && VersionsOk(s') && RefsOk(s) && RefsOk(s') && PayoutsOk(s')
    ensures Fits(s', tx)
  {
    match tx.op
    case OpCreate(_, _, _) =>
    case OpApprove(t, _) =>
    case OpDiscard(t, _) =>
    case OpClose(t, _) =>
    case OpReopen(t, _) =>
    case OpRegister(_) =>
    case OpApply(t, c, _) => ApplyStays(s, s', held, tx, t, c);
    case OpAssign(a, _) => AssignStays(s, s', held, tx, a);
    case OpDecline(a, _) => WorkStays(s, s', held, tx, a);
    case OpUnassign(a, _, _) => WorkStays(s, s', held, tx, a);
    case OpWithdraw(a, _) => WorkStays(s, s', held, tx, a);
    case OpSubmit(a, _) => WorkStays(s, s', held, tx, a);
    case OpReview(i, _, _, _) => ReviewStays(s, s', held, tx, i);
    case OpForget(c, _, _) => ForgetStays(s, s', held, tx, c);
    case OpMoney(p, _) =>
  }
}
