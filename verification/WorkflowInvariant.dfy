// What every mutator keeps: one application per contributor and task, versions
// without gaps, reviews that land on assigned work, counters that count, no task
// oversold, and one payout per completed rewarded work.
module WorkflowInvariant {
  import opened Wrappers
  import opened Workflow

  // ---- The invariant ----

  ghost predicate RefsOk(s: Store) {
    && (forall t | t in s.tasks :: t < s.nextTask)
    && (forall a | a in s.apps ::
          && a < s.nextApp && s.apps[a].contributor in s.contributors
          && s.apps[a].task in s.tasks && s.tasks[s.apps[a].task].status != TaskStatus.Draft)
    && (forall i | i in s.subs :: i < s.nextSub && s.subs[i].app in s.apps)
    && (forall p | p in s.payouts :: p < s.nextPayout)
  }

  ghost predicate OneApp(s: Store) {
    forall a, b | a in s.apps && b in s.apps && s.apps[a].task == s.apps[b].task && s.apps[a].contributor == s.apps[b].contributor ::
      a == b
  }

  ghost predicate IsLatest(s: Store, i: nat) {
    i in s.subs && forall j | j in s.subs && j != i && s.subs[j].app == s.subs[i].app :: s.subs[j].version < s.subs[i].version
  }

  /** The submissions of an application are its versions 1, 2, up to the latest. */
  ghost predicate VersionsOk(s: Store) {
    && (forall i | i in s.subs :: s.subs[i].version >= 1)
    && (forall i, j | i in s.subs && j in s.subs && s.subs[i].app == s.subs[j].app && s.subs[i].version == s.subs[j].version :: i == j)
    && (forall i, v: nat | i in s.subs && 1 <= v < s.subs[i].version :: HasVersion(s, s.subs[i].app, v))
  }

  ghost predicate HasVersion(s: Store, a: nat, v: nat) {
    exists j :: j in s.subs && s.subs[j].app == a && s.subs[j].version == v
  }

  /** What a submission's status says about its application. */
  ghost predicate SubStatusOk(s: Store, i: nat)
    requires i in s.subs && s.subs[i].app in s.apps
  {
    var status := s.apps[s.subs[i].app].status;
    && (!IsLatest(s, i) ==> s.subs[i].status == SubStatus.NeedsRevision)
    && (s.subs[i].status == SubStatus.Submitted ==> status == AppStatus.Assigned)
    && (s.subs[i].status == SubStatus.Approved <==> status == AppStatus.Completed && IsLatest(s, i))
    && (s.subs[i].status == SubStatus.Rejected <==> status == AppStatus.Rejected && IsLatest(s, i))
  }

  ghost predicate SubsOk(s: Store) {
    && VersionsOk(s)
    && (forall i | i in s.subs :: s.subs[i].app in s.apps && SubStatusOk(s, i))
    && (forall a | a in s.apps && s.apps[a].status in {AppStatus.Completed, AppStatus.Rejected} ::
          exists i :: i in s.subs && s.subs[i].app == a)
  }

  ghost predicate CountsOk(s: Store, c: nat)
    requires c in s.contributors
  {
    && s.contributors[c].appliedCount == |AppsOf(s, c)|
    && s.contributors[c].assignedCount == |AppsIn(s, c, AppStatus.Assigned)|
    && s.contributors[c].completedCount == |AppsIn(s, c, AppStatus.Completed)|
    && s.contributors[c].rejectedCount == |AppsIn(s, c, AppStatus.Rejected)|
  }

  ghost predicate CountersOk(s: Store) {
    forall c | c in s.contributors :: CountsOk(s, c)
  }

  ghost predicate SlotsOk(s: Store) {
    forall t | t in s.tasks :: 1 <= s.tasks[t].max <= MAX_ASSIGNEES && |SlotsTaken(s, t)| <= s.tasks[t].max
  }

  ghost predicate Rewarded(s: Store, t: nat) {
    t in s.tasks && s.tasks[t].reward.Some? && s.tasks[t].reward.value != ""
  }

  ghost predicate PaysFor(s: Store, p: nat, i: nat) {
    p in s.payouts && s.payouts[p].submission == i
  }

  /** A payout belongs to an approved submission on a rewarded task. */
  ghost predicate PayoutOk(s: Store, p: nat)
    requires p in s.payouts
  {
    var i := s.payouts[p].submission;
    && i in s.subs && s.subs[i].status == SubStatus.Approved && s.subs[i].app in s.apps
    && var app := s.apps[s.subs[i].app];
       && s.payouts[p].task == app.task && s.payouts[p].contributor == app.contributor
       && Rewarded(s, app.task) && s.payouts[p].reward == s.tasks[app.task].reward.value
  }

  ghost predicate PayoutsOk(s: Store) {
    && (forall p | p in s.payouts :: PayoutOk(s, p))
    && (forall p, q | p in s.payouts && q in s.payouts && s.payouts[p].submission == s.payouts[q].submission :: p == q)
    && (forall i | i in s.subs && s.subs[i].status == SubStatus.Approved && s.subs[i].app in s.apps && Rewarded(s, s.apps[s.subs[i].app].task) ::
          exists p :: PaysFor(s, p, i))
  }

  ghost predicate Inv(s: Store) {
    RefsOk(s) && OneApp(s) && SubsOk(s) && CountersOk(s) && SlotsOk(s) && PayoutsOk(s)
  }

  lemma EmptyIsOk()
    ensures Inv(EMPTY)
  {
    assert SlotsTaken(EMPTY, 0) == {};
  }

  // ---- The latest submission ----

  lemma LatestMeans(s: Store, a: nat)
    requires VersionsOk(s) && (forall i | i in s.subs :: i < s.nextSub)
    ensures Latest(s, a).Some? ==> IsLatest(s, Latest(s, a).value) && s.subs[Latest(s, a).value].app == a
    ensures forall i | IsLatest(s, i) && s.subs[i].app == a :: Latest(s, a) == Some(i)
    ensures Latest(s, a).None? ==> forall i | i in s.subs :: s.subs[i].app != a
  {
    if Latest(s, a).Some? {
      var l := Latest(s, a).value;
      forall j | j in s.subs && j != l && s.subs[j].app == a ensures s.subs[j].version < s.subs[l].version {
        assert s.subs[j].version <= s.subs[l].version;
      }
    }
  }

  // ---- Moving one application ----

  function One(b: bool): int {
    if b then 1 else 0
  }

  /** Application `a` goes to `to`, its contributor's counters follow, and nothing
      else changes but the log. */
  ghost predicate Moved(s: Store, s': Store, a: nat, to: AppStatus) {
    && a in s.apps && a in s'.apps
    && var app := s.apps[a];
       && s'.apps == s.apps[a := app.(status := to, pitch := s'.apps[a].pitch)]
       && s'.tasks == s.tasks && s'.nextTask == s.nextTask && s'.nextApp == s.nextApp
       && s'.contributors == Bump(s, app.contributor, 0,
            One(to == AppStatus.Assigned) - One(app.status == AppStatus.Assigned),
            One(to == AppStatus.Completed) - One(app.status == AppStatus.Completed),
            One(to == AppStatus.Rejected) - One(app.status == AppStatus.Rejected)).contributors
  }

  lemma MovedSets(s: Store, s': Store, a: nat, to: AppStatus, c: nat, status: AppStatus)
    requires Moved(s, s', a, to)
    ensures AppsOf(s', c) == AppsOf(s, c)
    ensures |AppsIn(s', c, status)| == |AppsIn(s, c, status)| +
              (if s.apps[a].contributor == c then One(to == status) - One(s.apps[a].status == status) else 0)
  {
    MovedAppsOf(s, s', a, to, c);
    MovedAppsIn(s, s', a, to, c, status);
    CountBut(AppsIn(s, c, status), a);
    CountBut(AppsIn(s', c, status), a);
  }

  lemma MovedAppsOf(s: Store, s': Store, a: nat, to: AppStatus, c: nat)
    requires Moved(s, s', a, to)
    ensures AppsOf(s', c) == AppsOf(s, c)
  {
  }

  lemma MovedAppsIn(s: Store, s': Store, a: nat, to: AppStatus, c: nat, status: AppStatus)
    requires Moved(s, s', a, to)
    ensures AppsIn(s', c, status) - {a} == AppsIn(s, c, status) - {a}
    ensures a in AppsIn(s, c, status) <==> s.apps[a].contributor == c && s.apps[a].status == status
    ensures a in AppsIn(s', c, status) <==> s.apps[a].contributor == c && to == status
  {
  }

  lemma CountBut(all: set<nat>, a: nat)
    ensures |all| == |all - {a}| + One(a in all)
  {
    assert a in all ==> all == all - {a} + {a};
    assert a !in all ==> all == all - {a};
  }

  lemma MoveKeepsCounters(s: Store, s': Store, a: nat, to: AppStatus)
    requires CountersOk(s) && Moved(s, s', a, to)
    ensures CountersOk(s')
  {
    forall c | c in s'.contributors ensures CountsOk(s', c) {
      assert CountsOk(s, c);
      MovedSets(s, s', a, to, c, AppStatus.Assigned);
      MovedSets(s, s', a, to, c, AppStatus.Completed);
      MovedSets(s, s', a, to, c, AppStatus.Rejected);
    }
  }

  predicate TakesSlot(status: AppStatus) {
    status in {AppStatus.Assigned, AppStatus.Completed}
  }

  lemma MoveKeepsSlots(s: Store, s': Store, a: nat, to: AppStatus)
    requires SlotsOk(s) && Moved(s, s', a, to)
    requires TakesSlot(to) && !TakesSlot(s.apps[a].status) ==>
               s.apps[a].task in s.tasks && |SlotsTaken(s, s.apps[a].task)| < s.tasks[s.apps[a].task].max
    ensures SlotsOk(s')
  {
    forall t | t in s'.tasks ensures |SlotsTaken(s', t)| <= s'.tasks[t].max {
      SlotsAfterMove(s, s', a, to, t);
    }
  }

  lemma SlotsAfterMove(s: Store, s': Store, a: nat, to: AppStatus, t: nat)
    requires Moved(s, s', a, to)
    ensures |SlotsTaken(s', t)| <= |SlotsTaken(s, t)| + One(t == s.apps[a].task && TakesSlot(to) && !TakesSlot(s.apps[a].status))
  {
    if t == s.apps[a].task && TakesSlot(to) && !TakesSlot(s.apps[a].status) {
      assert SlotsTaken(s', t) == SlotsTaken(s, t) + {a};
    } else {
      assert SlotsTaken(s', t) <= SlotsTaken(s, t);
      FewerCount(SlotsTaken(s', t), SlotsTaken(s, t));
    }
  }

  lemma FewerCount(a: set<nat>, b: set<nat>)
    requires a <= b
    ensures |a| <= |b|
  {
    assert b == a + (b - a);
  }

  lemma MoveKeepsRefs(s: Store, s': Store, a: nat, to: AppStatus)
    requires RefsOk(s) && OneApp(s) && Moved(s, s', a, to)
    requires s'.subs.Keys == s.subs.Keys && s'.nextSub == s.nextSub
    requires forall i | i in s.subs :: s'.subs[i].app == s.subs[i].app
    requires forall p | p in s'.payouts :: p < s'.nextPayout
    ensures RefsOk(s') && OneApp(s')
  {
  }

  /** A move that decides nothing leaves every submission's meaning as it was. */
  lemma MoveKeepsSubs(s: Store, s': Store, a: nat, to: AppStatus)
    requires SubsOk(s) && PayoutsOk(s) && Moved(s, s', a, to)
    requires s'.subs == s.subs && s'.payouts == s.payouts
    requires to !in {AppStatus.Completed, AppStatus.Rejected}
    requires s.apps[a].status !in {AppStatus.Completed, AppStatus.Rejected}
    requires s.apps[a].status == AppStatus.Assigned ==>
               forall i | i in s.subs && s.subs[i].app == a :: s.subs[i].status != SubStatus.Submitted
    ensures SubsOk(s') && PayoutsOk(s')
  {
    assert forall i | i in s.subs :: IsLatest(s', i) == IsLatest(s, i);
    assert forall i | i in s.subs :: SubStatusOk(s, i) ==> SubStatusOk(s', i);
    forall a' | a' in s'.apps && s'.apps[a'].status in {AppStatus.Completed, AppStatus.Rejected}
      ensures exists i :: i in s'.subs && s'.subs[i].app == a'
    {
      assert s.apps[a'].status in {AppStatus.Completed, AppStatus.Rejected};
    }
    VersionsStay(s, s');
    PayoutsStay(s, s', a, to);
  }

  lemma VersionsStay(s: Store, s': Store)
    requires VersionsOk(s) && s'.subs == s.subs
    ensures VersionsOk(s')
  {
    forall i, v: nat | i in s'.subs && 1 <= v < s'.subs[i].version ensures HasVersion(s', s'.subs[i].app, v) {
      assert HasVersion(s, s.subs[i].app, v);
    }
  }

  lemma PayoutsStay(s: Store, s': Store, a: nat, to: AppStatus)
    requires PayoutsOk(s) && Moved(s, s', a, to) && s'.subs == s.subs && s'.payouts == s.payouts
    ensures PayoutsOk(s')
  {
    forall p | p in s'.payouts ensures PayoutOk(s', p) {
      assert PayoutOk(s, p);
    }
    forall i | i in s'.subs && s'.subs[i].status == SubStatus.Approved && s'.subs[i].app in s'.apps && Rewarded(s', s'.apps[s'.subs[i].app].task)
      ensures exists p :: PaysFor(s', p, i)
    {
      var p :| PaysFor(s, p, i);
      assert PaysFor(s', p, i);
    }
  }

  /** What assign, decline, unassign, withdraw and re-apply have in common. */
  lemma MoveKeeps(s: Store, s': Store, a: nat, to: AppStatus)
    requires Inv(s) && Moved(s, s', a, to)
    requires s'.subs == s.subs && s'.payouts == s.payouts && s'.nextSub == s.nextSub && s'.nextPayout == s.nextPayout
    requires to !in {AppStatus.Completed, AppStatus.Rejected}
    requires s.apps[a].status !in {AppStatus.Completed, AppStatus.Rejected}
    requires s.apps[a].status == AppStatus.Assigned ==>
               forall i | i in s.subs && s.subs[i].app == a :: s.subs[i].status != SubStatus.Submitted
    requires TakesSlot(to) ==> |SlotsTaken(s, s.apps[a].task)| < s.tasks[s.apps[a].task].max
    ensures Inv(s')
  {
    MoveKeepsRefs(s, s', a, to);
    MoveKeepsSubs(s, s', a, to);
    MoveKeepsCounters(s, s', a, to);
    MoveKeepsSlots(s, s', a, to);
  }

  // ---- The mutators that only move an application ----

  ghost predicate OnlyMoves(s: Store, s': Store, a: nat, to: AppStatus) {
    && Moved(s, s', a, to) && s'.subs == s.subs && s'.payouts == s.payouts
    && s'.nextSub == s.nextSub && s'.nextPayout == s.nextPayout
  }

  lemma AssignMoves(s: Store, a: nat, admin: nat)
    requires a in s.apps && s.apps[a].status == AppStatus.Applied
    ensures OnlyMoves(s, AssignEffect(s, a, s.apps[a], admin), a, AppStatus.Assigned)
  {
  }

  lemma DeclineMoves(s: Store, a: nat, admin: nat)
    requires a in s.apps && s.apps[a].status == AppStatus.Applied
    ensures OnlyMoves(s, DeclineEffect(s, a, s.apps[a], admin), a, AppStatus.Declined)
  {
  }

  lemma UnassignMoves(s: Store, a: nat, admin: nat, reason: string)
    requires a in s.apps && s.apps[a].status == AppStatus.Assigned
    ensures OnlyMoves(s, UnassignEffect(s, a, s.apps[a], admin, reason), a, AppStatus.Applied)
  {
  }

  lemma WithdrawMoves(s: Store, a: nat)
    requires a in s.apps && s.apps[a].status in {AppStatus.Applied, AppStatus.Assigned}
    ensures OnlyMoves(s, WithdrawEffect(s, a, s.apps[a]), a, AppStatus.Withdrawn)
  {
  }

  lemma ReapplyMoves(s: Store, t: nat, c: nat, pitch: Option<string>, a: nat)
    requires a in s.apps && s.apps[a].status in {AppStatus.Declined, AppStatus.Withdrawn}
    ensures OnlyMoves(s, ApplyEffect(s, t, c, pitch, Some(a)), a, AppStatus.Applied)
  {
  }

  lemma AssignKeeps(s: Store, a: nat, admin: nat)
    requires Inv(s) && a in s.apps && s.apps[a].status == AppStatus.Applied
    requires |SlotsTaken(s, s.apps[a].task)| < s.tasks[s.apps[a].task].max
    ensures Inv(AssignEffect(s, a, s.apps[a], admin))
  {
    AssignMoves(s, a, admin);
    MoveKeeps(s, AssignEffect(s, a, s.apps[a], admin), a, AppStatus.Assigned);
  }

  lemma DeclineKeeps(s: Store, a: nat, admin: nat)
    requires Inv(s) && a in s.apps && s.apps[a].status == AppStatus.Applied
    ensures Inv(DeclineEffect(s, a, s.apps[a], admin))
  {
    DeclineMoves(s, a, admin);
    MoveKeeps(s, DeclineEffect(s, a, s.apps[a], admin), a, AppStatus.Declined);
  }

  /** assertNoPendingReview lets an application go only with nothing in review. */
  lemma NothingInReview(s: Store, a: nat)
    requires RefsOk(s) && SubsOk(s) && !LatestIs(s, a, SubStatus.Submitted)
    ensures forall i | i in s.subs && s.subs[i].app == a :: s.subs[i].status != SubStatus.Submitted
  {
    forall i | i in s.subs && s.subs[i].app == a ensures s.subs[i].status != SubStatus.Submitted {
      NotInReview(s, a, i);
    }
  }

  lemma NotInReview(s: Store, a: nat, i: nat)
    requires RefsOk(s) && SubsOk(s) && !LatestIs(s, a, SubStatus.Submitted) && i in s.subs && s.subs[i].app == a
    ensures s.subs[i].status != SubStatus.Submitted
  {
    LatestMeans(s, a);
    if s.subs[i].status == SubStatus.Submitted {
      InReviewIsLatest(s, i);
    }
  }

  lemma InReviewIsLatest(s: Store, i: nat)
    requires SubsOk(s) && i in s.subs && s.subs[i].status == SubStatus.Submitted
    ensures IsLatest(s, i)
  {
    assert SubStatusOk(s, i);
  }

  lemma UnassignKeeps(s: Store, a: nat, admin: nat, reason: string)
    requires Inv(s) && a in s.apps && s.apps[a].status == AppStatus.Assigned && !LatestIs(s, a, SubStatus.Submitted)
    ensures Inv(UnassignEffect(s, a, s.apps[a], admin, reason))
  {
    NothingInReview(s, a);
    UnassignMoves(s, a, admin, reason);
    MoveKeeps(s, UnassignEffect(s, a, s.apps[a], admin, reason), a, AppStatus.Applied);
  }

  lemma WithdrawKeeps(s: Store, a: nat)
    requires Inv(s) && a in s.apps && s.apps[a].status in {AppStatus.Applied, AppStatus.Assigned}
    requires s.apps[a].status == AppStatus.Assigned ==> !LatestIs(s, a, SubStatus.Submitted)
    ensures Inv(WithdrawEffect(s, a, s.apps[a]))
  {
    if s.apps[a].status == AppStatus.Assigned {
      NothingInReview(s, a);
    }
    WithdrawMoves(s, a);
    MoveKeeps(s, WithdrawEffect(s, a, s.apps[a]), a, AppStatus.Withdrawn);
  }

  lemma ReapplyKeeps(s: Store, t: nat, c: nat, pitch: Option<string>, a: nat)
    requires Inv(s) && a in s.apps && s.apps[a].status in {AppStatus.Declined, AppStatus.Withdrawn}
    ensures Inv(ApplyEffect(s, t, c, pitch, Some(a)))
  {
    ReapplyMoves(s, t, c, pitch, a);
    MoveKeeps(s, ApplyEffect(s, t, c, pitch, Some(a)), a, AppStatus.Applied);
  }

  // ---- A first application ----

  ghost predicate Opens(s: Store, s': Store, t: nat, c: nat, pitch: Option<string>) {
    && s'.apps == s.apps[s.nextApp := Application(t, c, pitch, AppStatus.Applied)] && s'.nextApp == s.nextApp + 1
    && s'.tasks == s.tasks && s'.nextTask == s.nextTask && s'.subs == s.subs && s'.nextSub == s.nextSub
    && s'.payouts == s.payouts && s'.nextPayout == s.nextPayout
    && s'.contributors == Bump(s, c, 1, 0, 0, 0).contributors
  }

  lemma CreateKeeps(s: Store, t: nat, c: nat, pitch: Option<string>)
    requires Inv(s) && t in s.tasks && s.tasks[t].status != TaskStatus.Draft && c in s.contributors
    requires AppFor(s.apps, t, c, s.nextApp).None?
    ensures Inv(ApplyEffect(s, t, c, pitch, None))
  {
    CreateOpens(s, t, c, pitch);
    OpenKeeps(s, ApplyEffect(s, t, c, pitch, None), t, c, pitch);
  }

  lemma CreateOpens(s: Store, t: nat, c: nat, pitch: Option<string>)
    ensures Opens(s, ApplyEffect(s, t, c, pitch, None), t, c, pitch)
  {
  }

  lemma OpenKeeps(s: Store, s': Store, t: nat, c: nat, pitch: Option<string>)
    requires Inv(s) && Opens(s, s', t, c, pitch)
    requires t in s.tasks && s.tasks[t].status != TaskStatus.Draft && c in s.contributors
    requires AppFor(s.apps, t, c, s.nextApp).None?
    ensures Inv(s')
  {
    OpenKeepsRefs(s, s', t, c, pitch);
    OpenKeepsSubs(s, s', t, c, pitch);
    OpenKeepsCounts(s, s', t, c, pitch);
  }

  lemma OpenKeepsRefs(s: Store, s': Store, t: nat, c: nat, pitch: Option<string>)
    requires RefsOk(s) && OneApp(s) && Opens(s, s', t, c, pitch)
    requires t in s.tasks && s.tasks[t].status != TaskStatus.Draft && c in s.contributors
    requires AppFor(s.apps, t, c, s.nextApp).None?
    ensures RefsOk(s') && OneApp(s')
  {
  }

  lemma OpenKeepsSubs(s: Store, s': Store, t: nat, c: nat, pitch: Option<string>)
    requires RefsOk(s) && SubsOk(s) && PayoutsOk(s) && Opens(s, s', t, c, pitch)
    ensures SubsOk(s') && PayoutsOk(s')
  {
    VersionsStay(s, s');
    OpenKeepsStatuses(s, s', t, c, pitch);
    OpenKeepsPayouts(s, s', t, c, pitch);
  }

  lemma OpenKeepsStatuses(s: Store, s': Store, t: nat, c: nat, pitch: Option<string>)
    requires RefsOk(s) && SubsOk(s) && Opens(s, s', t, c, pitch)
    ensures forall i | i in s'.subs :: s'.subs[i].app in s'.apps && SubStatusOk(s', i)
  {
    assert forall i | i in s.subs :: IsLatest(s', i) == IsLatest(s, i);
    forall i | i in s'.subs ensures s'.subs[i].app in s'.apps && SubStatusOk(s', i) {
      assert SubStatusOk(s, i);
    }
  }

  lemma OpenKeepsPayouts(s: Store, s': Store, t: nat, c: nat, pitch: Option<string>)
    requires RefsOk(s) && PayoutsOk(s) && Opens(s, s', t, c, pitch)
    ensures PayoutsOk(s')
  {
    forall p | p in s'.payouts ensures PayoutOk(s', p) {
      assert PayoutOk(s, p);
    }
    forall i | i in s'.subs && s'.subs[i].status == SubStatus.Approved && s'.subs[i].app in s'.apps && Rewarded(s', s'.apps[s'.subs[i].app].task)
      ensures exists p :: PaysFor(s', p, i)
    {
      var p :| PaysFor(s, p, i);
      assert PaysFor(s', p, i);
    }
  }

  lemma OpenKeepsCounts(s: Store, s': Store, t: nat, c: nat, pitch: Option<string>)
    requires RefsOk(s) && CountersOk(s) && SlotsOk(s) && Opens(s, s', t, c, pitch)
    ensures CountersOk(s') && SlotsOk(s')
  {
    forall d | d in s'.contributors ensures CountsOk(s', d) {
      OpenedCounts(s, s', t, c, pitch, d);
    }
    OpenKeepsSlots(s, s', t, c, pitch);
  }

  lemma OpenKeepsSlots(s: Store, s': Store, t: nat, c: nat, pitch: Option<string>)
    requires RefsOk(s) && SlotsOk(s) && Opens(s, s', t, c, pitch)
    ensures SlotsOk(s')
  {
    forall u | u in s'.tasks ensures |SlotsTaken(s', u)| <= s'.tasks[u].max {
      assert SlotsTaken(s', u) == SlotsTaken(s, u);
    }
  }

  lemma OpenedCounts(s: Store, s': Store, t: nat, c: nat, pitch: Option<string>, d: nat)
    requires RefsOk(s) && Opens(s, s', t, c, pitch) && d in s.contributors && CountsOk(s, d)
    ensures CountsOk(s', d)
  {
    OpenedSets(s, s', t, c, pitch, d);
  }

  lemma OpenedSets(s: Store, s': Store, t: nat, c: nat, pitch: Option<string>, d: nat)
    requires RefsOk(s) && Opens(s, s', t, c, pitch)
    ensures |AppsOf(s', d)| == |AppsOf(s, d)| + One(d == c)
    ensures forall status | status != AppStatus.Applied :: AppsIn(s', d, status) == AppsIn(s, d, status)
  {
    OpenedAppsOf(s, s', t, c, pitch, d);
  }

  lemma OpenedAppsOf(s: Store, s': Store, t: nat, c: nat, pitch: Option<string>, d: nat)
    requires RefsOk(s) && Opens(s, s', t, c, pitch)
    ensures |AppsOf(s', d)| == |AppsOf(s, d)| + One(d == c)
  {
    assert AppsOf(s', d) == if d == c then AppsOf(s, d) + {s.nextApp} else AppsOf(s, d);
    assert s.nextApp !in AppsOf(s, d);
  }

  // ---- Submitting ----

  lemma SubmitKeeps(s: Store, a: nat)
    requires Inv(s) && a in s.apps && s.apps[a].status == AppStatus.Assigned && !LatestIs(s, a, SubStatus.Submitted)
    ensures Inv(SubmitEffect(s, a, s.apps[a], NextVersion(s, a)))
  {
    SubmitAdds(s, a);
    SubmitAddKeeps(s, SubmitEffect(s, a, s.apps[a], NextVersion(s, a)), a);
  }

  /** The store with a new version of an application's work in review. */
  ghost predicate Adds(s: Store, s': Store, a: nat, version: nat) {
    s' == s.(subs := s.subs[s.nextSub := Submission(a, version, SubStatus.Submitted)], nextSub := s.nextSub + 1, history := s'.history)
  }

  lemma SubmitAdds(s: Store, a: nat)
    requires a in s.apps
    ensures Adds(s, SubmitEffect(s, a, s.apps[a], NextVersion(s, a)), a, NextVersion(s, a))
  {
  }

  lemma SubmitAddKeeps(s: Store, s': Store, a: nat)
    requires Inv(s) && a in s.apps && s.apps[a].status == AppStatus.Assigned && !LatestIs(s, a, SubStatus.Submitted)
    requires Adds(s, s', a, NextVersion(s, a))
    ensures Inv(s')
  {
    NewVersion(s, a);
    SubmitKeepsSubs(s, s', a);
    SubmitKeepsRest(s, s', a, NextVersion(s, a));
  }

  lemma SubmitKeepsRest(s: Store, s': Store, a: nat, version: nat)
    requires RefsOk(s) && OneApp(s) && CountersOk(s) && SlotsOk(s) && a in s.apps && Adds(s, s', a, version)
    ensures RefsOk(s') && OneApp(s') && CountersOk(s') && SlotsOk(s')
  {
    SubmitKeepsRefs(s, s', a, version);
    SameAppsSameCounts(s, s');
  }

  lemma SubmitKeepsRefs(s: Store, s': Store, a: nat, version: nat)
    requires RefsOk(s) && OneApp(s) && a in s.apps && Adds(s, s', a, version)
    ensures RefsOk(s') && OneApp(s')
  {
  }

  /** The new version is one past the greatest, and what came before is decided. */
  lemma NewVersion(s: Store, a: nat)
    requires Inv(s) && a in s.apps && s.apps[a].status == AppStatus.Assigned && !LatestIs(s, a, SubStatus.Submitted)
    ensures forall i | i in s.subs && s.subs[i].app == a ::
              s.subs[i].version < NextVersion(s, a) && s.subs[i].status == SubStatus.NeedsRevision
    ensures forall v: nat | 1 <= v < NextVersion(s, a) :: HasVersion(s, a, v)
  {
    LatestMeans(s, a);
    forall i | i in s.subs && s.subs[i].app == a
      ensures s.subs[i].version < NextVersion(s, a) && s.subs[i].status == SubStatus.NeedsRevision
    {
      assert SubStatusOk(s, i);
    }
    if Latest(s, a).Some? {
      var l := Latest(s, a).value;
      forall v: nat | 1 <= v < NextVersion(s, a) ensures HasVersion(s, a, v) {
        if v == s.subs[l].version {
          assert l in s.subs && s.subs[l].app == a;
        }
      }
    }
  }

  lemma SubmitKeepsSubs(s: Store, s': Store, a: nat)
    requires RefsOk(s) && SubsOk(s) && PayoutsOk(s) && a in s.apps && s.apps[a].status == AppStatus.Assigned
    requires Adds(s, s', a, NextVersion(s, a))
    requires forall i | i in s.subs && s.subs[i].app == a ::
               s.subs[i].version < NextVersion(s, a) && s.subs[i].status == SubStatus.NeedsRevision
    requires forall v: nat | 1 <= v < NextVersion(s, a) :: HasVersion(s, a, v)
    ensures SubsOk(s') && PayoutsOk(s')
  {
    SubmitKeepsVersions(s, s', a);
    forall i | i in s'.subs ensures s'.subs[i].app in s'.apps && SubStatusOk(s', i) {
      if i != s.nextSub {
        assert SubStatusOk(s, i);
        if s.subs[i].app != a {
          LatestElsewhere(s, s', a, i);
        }
      }
    }
    forall b | b in s'.apps && s'.apps[b].status in {AppStatus.Completed, AppStatus.Rejected}
      ensures exists i :: i in s'.subs && s'.subs[i].app == b
    {
      var i :| i in s.subs && s.subs[i].app == b;
      assert i in s'.subs && s'.subs[i].app == b;
    }
    SubmitKeepsPayouts(s, s', a);
  }

  lemma LatestElsewhere(s: Store, s': Store, a: nat, i: nat)
    requires i in s.subs && s.subs[i].app != a && s.nextSub !in s.subs && Adds(s, s', a, NextVersion(s, a))
    ensures IsLatest(s', i) == IsLatest(s, i)
  {
    if IsLatest(s', i) {
      forall j | j in s.subs && j != i && s.subs[j].app == s.subs[i].app ensures s.subs[j].version < s.subs[i].version {
        assert s'.subs[j].version < s'.subs[i].version;
      }
    }
  }

  lemma SubmitKeepsVersions(s: Store, s': Store, a: nat)
    requires RefsOk(s) && VersionsOk(s)
    requires Adds(s, s', a, NextVersion(s, a))
    requires forall i | i in s.subs && s.subs[i].app == a :: s.subs[i].version < NextVersion(s, a)
    requires forall v: nat | 1 <= v < NextVersion(s, a) :: HasVersion(s, a, v)
    ensures VersionsOk(s')
  {
    forall i, v: nat | i in s'.subs && 1 <= v < s'.subs[i].version ensures HasVersion(s', s'.subs[i].app, v) {
      assert HasVersion(s, s'.subs[i].app, v);
      var j :| j in s.subs && s.subs[j].app == s'.subs[i].app && s.subs[j].version == v;
      assert j in s'.subs && s'.subs[j].app == s'.subs[i].app && s'.subs[j].version == v;
    }
  }

  lemma SubmitKeepsPayouts(s: Store, s': Store, a: nat)
    requires RefsOk(s) && PayoutsOk(s)
    requires Adds(s, s', a, NextVersion(s, a))
    ensures PayoutsOk(s')
  {
    forall p | p in s'.payouts ensures PayoutOk(s', p) {
      assert PayoutOk(s, p);
    }
    forall i | i in s'.subs && s'.subs[i].status == SubStatus.Approved && s'.subs[i].app in s'.apps && Rewarded(s', s'.apps[s'.subs[i].app].task)
      ensures exists p :: PaysFor(s', p, i)
    {
      var p :| PaysFor(s, p, i);
      assert PaysFor(s', p, i);
    }
  }

  lemma SameAppsSameCounts(s: Store, s': Store)
    requires CountersOk(s) && SlotsOk(s) && s'.apps == s.apps && s'.contributors == s.contributors
    requires s'.tasks.Keys == s.tasks.Keys && forall t | t in s.tasks :: s'.tasks[t].max == s.tasks[t].max
    ensures CountersOk(s') && SlotsOk(s')
  {
    forall c | c in s'.contributors ensures CountsOk(s', c) {
      assert CountsOk(s, c);
    }
    forall t | t in s'.tasks ensures |SlotsTaken(s', t)| <= s'.tasks[t].max {
      assert SlotsTaken(s', t) == SlotsTaken(s, t);
    }
  }

  // ---- Reviewing ----

  /** A review finds its application assigned and its submission the latest one,
      though the code checks neither. */
  lemma ReviewLandsOnAssigned(s: Store, i: nat)
    requires Inv(s) && i in s.subs && s.subs[i].status == SubStatus.Submitted
    ensures s.subs[i].app in s.apps && s.apps[s.subs[i].app].status == AppStatus.Assigned && IsLatest(s, i)
  {
    assert SubStatusOk(s, i);
  }

  /** The submission is decided, its application follows, payouts may be added. */
  ghost predicate Decides(s: Store, s': Store, i: nat, decision: Decision) {
    && i in s.subs && s.subs[i].app in s.apps
    && s'.subs == s.subs[i := s.subs[i].(status := DecisionStatus(decision))] && s'.nextSub == s.nextSub
    && s'.tasks == s.tasks && s'.nextTask == s.nextTask
    && match decision
       case Revise => s'.apps == s.apps && s'.contributors == s.contributors && s'.nextApp == s.nextApp
       case Approve => Moved(s, s', s.subs[i].app, AppStatus.Completed)
       case Reject => Moved(s, s', s.subs[i].app, AppStatus.Rejected)
  }

  ghost predicate SamePayouts(s: Store, s': Store) {
    s'.payouts == s.payouts && s'.nextPayout == s.nextPayout
  }

  ghost predicate Owes(s: Store, s': Store, i: nat) {
    && i in s.subs && s.subs[i].app in s.apps
    && var app := s.apps[s.subs[i].app];
       if Rewarded(s, app.task)
       then s'.payouts == s.payouts[s.nextPayout := Owed(app.task, app.contributor, i, s.tasks[app.task].reward.value, false)]
            && s'.nextPayout == s.nextPayout + 1
       else SamePayouts(s, s')
  }

  lemma RejectDecides(s: Store, i: nat, reviewer: nat, note: Option<string>)
    requires i in s.subs && s.subs[i].app in s.apps && s.apps[s.subs[i].app].status == AppStatus.Assigned
    ensures var a := s.subs[i].app;
            var s' := ReviewEffect(s, i, a, s.apps[a], RewardOf(s, s.apps[a].task), reviewer, Reject, note);
            Decides(s, s', i, Reject) && SamePayouts(s, s')
  {
  }

  lemma ApproveDecides(s: Store, i: nat, reviewer: nat, note: Option<string>)
    requires i in s.subs && s.subs[i].app in s.apps && s.apps[s.subs[i].app].status == AppStatus.Assigned
    requires s.apps[s.subs[i].app].task in s.tasks
    requires forall p | p in s.payouts :: s.payouts[p].submission != i
    ensures var a := s.subs[i].app;
            var s' := ReviewEffect(s, i, a, s.apps[a], RewardOf(s, s.apps[a].task), reviewer, Approve, note);
            Decides(s, s', i, Approve) && Owes(s, s', i)
  {
  }

  lemma DecideKeepsSubs(s: Store, s': Store, i: nat, decision: Decision)
    requires RefsOk(s) && SubsOk(s) && Decides(s, s', i, decision) && s.subs[i].status == SubStatus.Submitted
    ensures SubsOk(s')
  {
    forall j | j in s'.subs ensures s'.subs[j].app in s'.apps && SubStatusOk(s', j) {
      DecideKeepsStatus(s, s', i, decision, j);
    }
    DecideKeepsVersions(s, s', i, decision);
    forall b | b in s'.apps && s'.apps[b].status in {AppStatus.Completed, AppStatus.Rejected}
      ensures exists j :: j in s'.subs && s'.subs[j].app == b
    {
      if b == s.subs[i].app {
        assert i in s'.subs && s'.subs[i].app == b;
      } else {
        var j :| j in s.subs && s.subs[j].app == b;
        assert j in s'.subs && s'.subs[j].app == b;
      }
    }
  }

  lemma DecideKeepsStatus(s: Store, s': Store, i: nat, decision: Decision, j: nat)
    requires RefsOk(s) && SubsOk(s) && Decides(s, s', i, decision) && s.subs[i].status == SubStatus.Submitted
    requires j in s.subs
    ensures s'.subs[j].app in s'.apps && SubStatusOk(s', j)
  {
    assert SubStatusOk(s, i) && SubStatusOk(s, j);
    LatestIgnoresStatus(s, s', i, decision, j);
    if s.subs[j].app == s.subs[i].app {
      OnlyLatestDecides(s, s', i, decision, j);
    }
  }

  lemma LatestIgnoresStatus(s: Store, s': Store, i: nat, decision: Decision, j: nat)
    requires Decides(s, s', i, decision) && j in s.subs
    ensures IsLatest(s', j) == IsLatest(s, j)
  {
    assert forall k | k in s.subs :: s'.subs[k].app == s.subs[k].app && s'.subs[k].version == s.subs[k].version;
    if IsLatest(s', j) {
      forall k | k in s.subs && k != j && s.subs[k].app == s.subs[j].app ensures s.subs[k].version < s.subs[j].version {
        assert s'.subs[k].app == s'.subs[j].app;
      }
    }
  }

  lemma OnlyLatestDecides(s: Store, s': Store, i: nat, decision: Decision, j: nat)
    requires Decides(s, s', i, decision) && j in s.subs && s.subs[j].app == s.subs[i].app
    requires SubStatusOk(s, i) && SubStatusOk(s, j) && s.subs[i].status == SubStatus.Submitted
    ensures SubStatusOk(s', j)
  {
    LatestIgnoresStatus(s, s', i, decision, j);
    assert IsLatest(s, i) && (j != i ==> s.subs[j].version < s.subs[i].version);
    assert j != i ==> !IsLatest(s, j);
    assert s.apps[s.subs[i].app].status == AppStatus.Assigned;
  }

  lemma DecideKeepsVersions(s: Store, s': Store, i: nat, decision: Decision)
    requires VersionsOk(s) && Decides(s, s', i, decision)
    ensures VersionsOk(s')
  {
    forall j, v: nat | j in s'.subs && 1 <= v < s'.subs[j].version ensures HasVersion(s', s'.subs[j].app, v) {
      assert HasVersion(s, s.subs[j].app, v);
      var k :| k in s.subs && s.subs[k].app == s.subs[j].app && s.subs[k].version == v;
      assert k in s'.subs && s'.subs[k].app == s'.subs[j].app && s'.subs[k].version == v;
    }
  }

  lemma DecideKeepsCounts(s: Store, s': Store, i: nat, decision: Decision)
    requires CountersOk(s) && SlotsOk(s) && Decides(s, s', i, decision)
    requires s.apps[s.subs[i].app].status == AppStatus.Assigned
    ensures CountersOk(s') && SlotsOk(s')
  {
    var a := s.subs[i].app;
    match decision
    case Revise => SameAppsSameCounts(s, s');
    case Approve =>
      MoveKeepsCounters(s, s', a, AppStatus.Completed);
      MoveKeepsSlots(s, s', a, AppStatus.Completed);
    case Reject =>
      MoveKeepsCounters(s, s', a, AppStatus.Rejected);
      MoveKeepsSlots(s, s', a, AppStatus.Rejected);
  }

  lemma DecideKeepsRefs(s: Store, s': Store, i: nat, decision: Decision)
    requires RefsOk(s) && OneApp(s) && Decides(s, s', i, decision)
    requires forall p | p in s'.payouts :: p < s'.nextPayout
    ensures RefsOk(s') && OneApp(s')
  {
  }

  lemma DecideKeepsPayouts(s: Store, s': Store, i: nat, decision: Decision)
    requires RefsOk(s) && PayoutsOk(s) && Decides(s, s', i, decision) && s.subs[i].status == SubStatus.Submitted
    requires decision != Approve && SamePayouts(s, s')
    ensures PayoutsOk(s')
  {
    forall p | p in s'.payouts ensures PayoutOk(s', p) {
      assert PayoutOk(s, p);
    }
    forall j | j in s'.subs && s'.subs[j].status == SubStatus.Approved && s'.subs[j].app in s'.apps && Rewarded(s', s'.apps[s'.subs[j].app].task)
      ensures exists p :: PaysFor(s', p, j)
    {
      var p :| PaysFor(s, p, j);
      assert PaysFor(s', p, j);
    }
  }

  lemma ApproveKeepsPayouts(s: Store, s': Store, i: nat)
    requires RefsOk(s) && PayoutsOk(s) && Decides(s, s', i, Approve) && s.subs[i].status == SubStatus.Submitted && Owes(s, s', i)
    ensures PayoutsOk(s') && forall p | p in s'.payouts :: p < s'.nextPayout
  {
    forall p | p in s'.payouts ensures PayoutOk(s', p) {
      ApproveKeepsPayout(s, s', i, p);
    }
    assert forall p | p in s.payouts :: PayoutOk(s, p) && s.payouts[p].submission != i;
    forall j | j in s'.subs && s'.subs[j].status == SubStatus.Approved && s'.subs[j].app in s'.apps && Rewarded(s', s'.apps[s'.subs[j].app].task)
      ensures exists p :: PaysFor(s', p, j)
    {
      ApprovedIsOwed(s, s', i, j);
    }
  }

  lemma ApproveKeepsPayout(s: Store, s': Store, i: nat, p: nat)
    requires RefsOk(s) && PayoutsOk(s) && Decides(s, s', i, Approve) && s.subs[i].status == SubStatus.Submitted && Owes(s, s', i)
    requires p in s'.payouts
    ensures PayoutOk(s', p)
  {
    if p in s.payouts {
      assert PayoutOk(s, p);
    }
  }

  lemma ApprovedIsOwed(s: Store, s': Store, i: nat, j: nat)
    requires RefsOk(s) && PayoutsOk(s) && Decides(s, s', i, Approve) && s.subs[i].status == SubStatus.Submitted && Owes(s, s', i)
    requires j in s'.subs && s'.subs[j].status == SubStatus.Approved && s'.subs[j].app in s'.apps && Rewarded(s', s'.apps[s'.subs[j].app].task)
    ensures exists p :: PaysFor(s', p, j)
  {
    if j == i {
      assert PaysFor(s', s.nextPayout, i);
    } else {
      var p :| PaysFor(s, p, j);
      assert PaysFor(s', p, j);
    }
  }

  lemma DecideKeeps(s: Store, s': Store, i: nat, decision: Decision)
    requires Inv(s) && Decides(s, s', i, decision) && s.subs[i].status == SubStatus.Submitted
    requires if decision == Approve then Owes(s, s', i) else SamePayouts(s, s')
    ensures Inv(s')
  {
    ReviewLandsOnAssigned(s, i);
    if decision == Approve {
      ApproveKeepsPayouts(s, s', i);
    } else {
      DecideKeepsPayouts(s, s', i, decision);
    }
    DecideKeepsRefs(s, s', i, decision);
    DecideKeepsSubs(s, s', i, decision);
    DecideKeepsCounts(s, s', i, decision);
  }

  lemma ReviewKeeps(s: Store, i: nat, reviewer: nat, decision: Decision, note: Option<string>)
    requires Inv(s) && i in s.subs && s.subs[i].status == SubStatus.Submitted && s.subs[i].app in s.apps
    ensures var a := s.subs[i].app;
            Inv(ReviewEffect(s, i, a, s.apps[a], RewardOf(s, s.apps[a].task), reviewer, decision, note))
  {
    var a := s.subs[i].app;
    var s' := ReviewEffect(s, i, a, s.apps[a], RewardOf(s, s.apps[a].task), reviewer, decision, note);
    ReviewDecides(s, i, reviewer, decision, note);
    DecideKeeps(s, s', i, decision);
  }

  lemma ReviewDecides(s: Store, i: nat, reviewer: nat, decision: Decision, note: Option<string>)
    requires Inv(s) && i in s.subs && s.subs[i].status == SubStatus.Submitted && s.subs[i].app in s.apps
    ensures var a := s.subs[i].app;
            var s' := ReviewEffect(s, i, a, s.apps[a], RewardOf(s, s.apps[a].task), reviewer, decision, note);
            Decides(s, s', i, decision) && if decision == Approve then Owes(s, s', i) else SamePayouts(s, s')
  {
    ReviewLandsOnAssigned(s, i);
    match decision
    case Revise =>
    case Reject => RejectDecides(s, i, reviewer, note);
    case Approve =>
      UnapprovedOwesNothing(s, i);
      ApproveDecides(s, i, reviewer, note);
  }

  lemma UnapprovedOwesNothing(s: Store, i: nat)
    requires PayoutsOk(s) && i in s.subs && s.subs[i].status == SubStatus.Submitted
    ensures forall p | p in s.payouts :: s.payouts[p].submission != i
  {
    assert forall p | p in s.payouts :: PayoutOk(s, p);
  }

  // ---- Tasks, contributors, money ----

  /** Nothing but task rows, the contributor rows and the money flags differs. */
  ghost predicate SameWork(s: Store, s': Store) {
    && s'.apps == s.apps && s'.subs == s.subs && s'.nextApp == s.nextApp && s'.nextSub == s.nextSub
    && s'.nextPayout == s.nextPayout && s'.payouts.Keys == s.payouts.Keys
    && forall p | p in s.payouts :: s'.payouts[p] == s.payouts[p].(inFlight := s'.payouts[p].inFlight)
  }

  lemma SameWorkKeeps(s: Store, s': Store)
    requires Inv(s) && SameWork(s, s') && s.nextTask <= s'.nextTask && s.contributors.Keys <= s'.contributors.Keys
    requires forall t | t in s'.tasks :: t < s'.nextTask
    requires forall t | t in s.tasks && s.tasks[t].status != TaskStatus.Draft :: t in s'.tasks && s'.tasks[t].status != TaskStatus.Draft
    requires forall t | t in s.tasks && t in s'.tasks :: s'.tasks[t].reward == s.tasks[t].reward
    ensures RefsOk(s') && SubsOk(s') && PayoutsOk(s') && OneApp(s')
  {
    SameWorkSubs(s, s');
    SameWorkPayouts(s, s');
  }

  lemma SameWorkSubs(s: Store, s': Store)
    requires SubsOk(s) && SameWork(s, s')
    ensures SubsOk(s')
  {
    VersionsStay(s, s');
    assert forall i | i in s.subs :: IsLatest(s', i) == IsLatest(s, i);
    forall i | i in s'.subs ensures s'.subs[i].app in s'.apps && SubStatusOk(s', i) {
      assert SubStatusOk(s, i);
    }
  }

  lemma SameWorkPayouts(s: Store, s': Store)
    requires RefsOk(s) && PayoutsOk(s) && SameWork(s, s')
    requires forall t | t in s.tasks && s.tasks[t].status != TaskStatus.Draft :: t in s'.tasks
    requires forall t | t in s.tasks && t in s'.tasks :: s'.tasks[t].reward == s.tasks[t].reward
    ensures PayoutsOk(s')
  {
    forall p | p in s'.payouts ensures PayoutOk(s', p) {
      assert PayoutOk(s, p);
    }
    forall j | j in s'.subs && s'.subs[j].status == SubStatus.Approved && s'.subs[j].app in s'.apps && Rewarded(s', s'.apps[s'.subs[j].app].task)
      ensures exists p :: PaysFor(s', p, j)
    {
      var p :| PaysFor(s, p, j);
      assert PaysFor(s', p, j);
    }
  }

  /** Task rows come and go, but every task with applications keeps its slots. */
  lemma TasksKeepCounts(s: Store, s': Store)
    requires RefsOk(s) && CountersOk(s) && SlotsOk(s) && s'.apps == s.apps && s'.contributors == s.contributors
    requires forall t | t in s'.tasks && t in s.tasks :: s'.tasks[t].max == s.tasks[t].max
    requires forall t | t in s'.tasks && t !in s.tasks :: 1 <= s'.tasks[t].max <= MAX_ASSIGNEES
    ensures CountersOk(s') && SlotsOk(s')
  {
    forall c | c in s'.contributors ensures CountsOk(s', c) {
      assert CountsOk(s, c);
    }
    forall t | t in s'.tasks ensures 1 <= s'.tasks[t].max <= MAX_ASSIGNEES && |SlotsTaken(s', t)| <= s'.tasks[t].max {
      assert SlotsTaken(s', t) == SlotsTaken(s, t);
      if t !in s.tasks {
        assert SlotsTaken(s, t) == {};
      }
    }
  }

  lemma CreateTaskKeeps(s: Store, max: int, reward: Option<string>, createdBy: Option<nat>)
    requires Inv(s) && CreateTask(s, max, reward, createdBy).Ok?
    ensures Inv(CreateTask(s, max, reward, createdBy).value)
  {
    var s' := CreateTask(s, max, reward, createdBy).value;
    SameWorkKeeps(s, s');
    TasksKeepCounts(s, s');
  }

  lemma MoveTaskKeeps(s: Store, t: nat, to: TaskStatus, action: Action, admin: nat)
    requires Inv(s) && t in s.tasks && to != TaskStatus.Draft
    ensures Inv(MoveTask(s, t, to, action, admin))
  {
    var s' := MoveTask(s, t, to, action, admin);
    SameWorkKeeps(s, s');
    TasksKeepCounts(s, s');
  }

  lemma DropDraftKeeps(s: Store, t: nat)
    requires Inv(s) && t in s.tasks && s.tasks[t].status == TaskStatus.Draft
    ensures Inv(DropDraft(s, t))
  {
    var s' := DropDraft(s, t);
    SameWorkKeeps(s, s');
    TasksKeepCounts(s, s');
  }

  lemma RegisterKeeps(s: Store, c: nat)
    requires Inv(s)
    ensures Inv(Register(s, c))
  {
    SameWorkKeeps(s, Register(s, c));
    RegisterKeepsCounts(s, c);
  }

  lemma RegisterKeepsCounts(s: Store, c: nat)
    requires RefsOk(s) && CountersOk(s) && SlotsOk(s)
    ensures CountersOk(Register(s, c)) && SlotsOk(Register(s, c))
  {
    var s' := Register(s, c);
    forall d | d in s'.contributors ensures CountsOk(s', d) {
      RegisterCounts(s, c, d);
    }
    forall t | t in s'.tasks ensures 1 <= s'.tasks[t].max <= MAX_ASSIGNEES && |SlotsTaken(s', t)| <= s'.tasks[t].max {
      assert SlotsTaken(s', t) == SlotsTaken(s, t);
    }
  }

  lemma RegisterCounts(s: Store, c: nat, d: nat)
    requires RefsOk(s) && CountersOk(s) && d in Register(s, c).contributors
    ensures CountsOk(Register(s, c), d)
  {
    if d in s.contributors {
      assert CountsOk(s, d);
    } else {
      NewcomerCounts(s, c);
    }
  }

  lemma NewcomerCounts(s: Store, c: nat)
    requires RefsOk(s) && c !in s.contributors
    ensures CountsOk(Register(s, c), c)
  {
  }

  lemma MoneyKeeps(s: Store, p: nat, inFlight: bool)
    requires Inv(s) && p in s.payouts
    ensures Inv(Money(s, p, inFlight).value)
  {
    var s' := Money(s, p, inFlight).value;
    MoneyIsSameWork(s, p, inFlight);
    SameWorkKeeps(s, s');
    TasksKeepCounts(s, s');
  }

  lemma MoneyIsSameWork(s: Store, p: nat, inFlight: bool)
    requires p in s.payouts
    ensures SameWork(s, Money(s, p, inFlight).value)
  {
  }
}
