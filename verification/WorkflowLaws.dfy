// Erasure, every mutator together, and what holds in every store they can reach.
module WorkflowLaws {
  import opened Wrappers
  import opened Workflow
  import opened WorkflowInvariant

  // ---- Erasure ----

  /** Everything of contributor `c` is gone and nothing of anybody else's. */
  ghost predicate Erases(s: Store, s': Store, c: nat) {
    && (forall a :: a in s'.apps <==> a in s.apps && s.apps[a].contributor != c)
    && (forall a | a in s'.apps :: s'.apps[a] == s.apps[a])
    && (forall i :: i in s'.subs <==> i in s.subs && !(s.subs[i].app in s.apps && s.apps[s.subs[i].app].contributor == c))
    && (forall i | i in s'.subs :: s'.subs[i] == s.subs[i])
    && (forall p :: p in s'.payouts <==> p in s.payouts && s.payouts[p].contributor != c)
    && (forall p | p in s'.payouts :: s'.payouts[p] == s.payouts[p])
    && s'.tasks.Keys == s.tasks.Keys
    && (forall t | t in s'.tasks :: s'.tasks[t] == s.tasks[t].(createdBy := s'.tasks[t].createdBy) && s'.tasks[t].createdBy != Some(c))
    && (forall t | t in s'.tasks && s.tasks[t].createdBy != Some(c) :: s'.tasks[t] == s.tasks[t])
    && s'.contributors == s.contributors - {c}
    && s'.nextTask == s.nextTask && s'.nextApp == s.nextApp && s'.nextSub == s.nextSub && s'.nextPayout == s.nextPayout
  }

  lemma EraseErases(s: Store, c: nat, admin: nat)
    ensures Erases(s, EraseEffect(s, c, admin), c)
  {
  }

  lemma EraseKeepsRefs(s: Store, s': Store, c: nat)
    requires RefsOk(s) && OneApp(s) && Erases(s, s', c)
    ensures RefsOk(s') && OneApp(s')
  {
  }

  lemma EraseKeepsSubs(s: Store, s': Store, c: nat)
    requires RefsOk(s) && SubsOk(s) && Erases(s, s', c)
    ensures SubsOk(s')
  {
    forall i | i in s'.subs ensures s'.subs[i].app in s'.apps && SubStatusOk(s', i) {
      assert SubStatusOk(s, i);
      EraseKeepsLatest(s, s', c, i);
    }
    forall i, v: nat | i in s'.subs && 1 <= v < s'.subs[i].version ensures HasVersion(s', s'.subs[i].app, v) {
      assert HasVersion(s, s.subs[i].app, v);
      var j :| j in s.subs && s.subs[j].app == s.subs[i].app && s.subs[j].version == v;
      assert j in s'.subs && s'.subs[j].app == s'.subs[i].app && s'.subs[j].version == v;
    }
    forall a | a in s'.apps && s'.apps[a].status in {AppStatus.Completed, AppStatus.Rejected}
      ensures exists i :: i in s'.subs && s'.subs[i].app == a
    {
      var i :| i in s.subs && s.subs[i].app == a;
      assert i in s'.subs && s'.subs[i].app == a;
    }
  }

  lemma EraseKeepsLatest(s: Store, s': Store, c: nat, i: nat)
    requires RefsOk(s) && Erases(s, s', c) && i in s'.subs
    ensures IsLatest(s', i) == IsLatest(s, i)
  {
    if IsLatest(s', i) {
      forall j | j in s.subs && j != i && s.subs[j].app == s.subs[i].app ensures s.subs[j].version < s.subs[i].version {
        assert j in s'.subs;
      }
    }
  }

  lemma EraseKeepsCounts(s: Store, s': Store, c: nat)
    requires CountersOk(s) && SlotsOk(s) && Erases(s, s', c)
    ensures CountersOk(s') && SlotsOk(s')
  {
    forall d | d in s'.contributors ensures CountsOk(s', d) {
      assert CountsOk(s, d);
      assert AppsOf(s', d) == AppsOf(s, d);
      assert AppsIn(s', d, AppStatus.Assigned) == AppsIn(s, d, AppStatus.Assigned);
      assert AppsIn(s', d, AppStatus.Completed) == AppsIn(s, d, AppStatus.Completed);
      assert AppsIn(s', d, AppStatus.Rejected) == AppsIn(s, d, AppStatus.Rejected);
    }
    forall t | t in s'.tasks ensures |SlotsTaken(s', t)| <= s'.tasks[t].max {
      FewerCount(SlotsTaken(s', t), SlotsTaken(s, t));
    }
  }

  lemma EraseKeepsPayouts(s: Store, s': Store, c: nat)
    requires RefsOk(s) && PayoutsOk(s) && Erases(s, s', c)
    ensures PayoutsOk(s')
  {
    forall p | p in s'.payouts ensures PayoutOk(s', p) {
      assert PayoutOk(s, p);
    }
    forall i | i in s'.subs && s'.subs[i].status == SubStatus.Approved && s'.subs[i].app in s'.apps && Rewarded(s', s'.apps[s'.subs[i].app].task)
      ensures exists p :: PaysFor(s', p, i)
    {
      EraseKeepsDebt(s, s', c, i);
    }
  }

  lemma EraseKeepsDebt(s: Store, s': Store, c: nat, i: nat)
    requires PayoutsOk(s) && Erases(s, s', c) && i in s'.subs && s'.subs[i].status == SubStatus.Approved
    requires s'.subs[i].app in s'.apps && Rewarded(s', s'.apps[s'.subs[i].app].task)
    ensures exists p :: PaysFor(s', p, i)
  {
    var p :| PaysFor(s, p, i);
    assert PayoutOk(s, p);
    assert PaysFor(s', p, i);
  }

  /** Erasure keeps the invariant with or without its money guard. */
  lemma EraseKeeps(s: Store, c: nat, admin: nat)
    requires Inv(s)
    ensures Inv(EraseEffect(s, c, admin))
  {
    var s' := EraseEffect(s, c, admin);
    EraseErases(s, c, admin);
    EraseKeepsRefs(s, s', c);
    EraseKeepsSubs(s, s', c);
    EraseKeepsCounts(s, s', c);
    EraseKeepsPayouts(s, s', c);
  }

  lemma ForgetKeeps(s: Store, c: nat, admin: nat, elsewhere: nat)
    requires Inv(s) && Forget(s, c, admin, elsewhere).Ok?
    ensures Inv(Forget(s, c, admin, elsewhere).value)
  {
    if c in s.contributors {
      EraseKeeps(s, c, admin);
      assert Forget(s, c, admin, elsewhere).value == EraseEffect(s, c, admin);
    } else {
      assert Forget(s, c, admin, elsewhere).value == s;
    }
  }

  // ---- Every mutator ----

  lemma TaskOpKeeps(cap: nat, s: Store, op: Op)
    requires Inv(s) && Perform(cap, s, op).Ok?
    requires op.OpCreate? || op.OpApprove? || op.OpDiscard? || op.OpClose? || op.OpReopen?
    ensures Inv(Perform(cap, s, op).value)
  {
    match op
    case OpCreate(max, reward, createdBy) => CreateTaskKeeps(s, max, reward, createdBy);
    case OpApprove(t, admin) => MoveTaskKeeps(s, t, TaskStatus.Open, TaskApproved, admin);
    case OpDiscard(t, _) => DropDraftKeeps(s, t);
    case OpClose(t, admin) => MoveTaskKeeps(s, t, TaskStatus.Closed, TaskClosed, admin);
    case OpReopen(t, admin) => MoveTaskKeeps(s, t, TaskStatus.Open, TaskReopened, admin);
  }

  /** What an accepted apply found: an open task with a free slot, a registered
      contributor below the cap, and no application but one to take up again. */
  lemma ApplyAccepts(cap: nat, s: Store, t: nat, c: nat, pitch: Option<string>)
    requires Apply(cap, s, t, c, pitch).Ok?
    ensures t in s.tasks && s.tasks[t].status == TaskStatus.Open && |SlotsTaken(s, t)| < s.tasks[t].max
    ensures c in s.contributors && |AppsIn(s, c, AppStatus.Applied)| < cap
    ensures var existing := AppFor(s.apps, t, c, s.nextApp);
            && (existing.Some? ==> s.apps[existing.value].status in {AppStatus.Declined, AppStatus.Withdrawn})
            && Apply(cap, s, t, c, pitch).value == ApplyEffect(s, t, c, pitch, existing)
  {
  }

  lemma ApplyKeeps(cap: nat, s: Store, t: nat, c: nat, pitch: Option<string>)
    requires Inv(s) && Apply(cap, s, t, c, pitch).Ok?
    ensures Inv(Apply(cap, s, t, c, pitch).value)
  {
    ApplyAccepts(cap, s, t, c, pitch);
    ApplyEffectKeeps(s, t, c, pitch);
  }

  lemma ApplyEffectKeeps(s: Store, t: nat, c: nat, pitch: Option<string>)
    requires Inv(s) && t in s.tasks && s.tasks[t].status == TaskStatus.Open && c in s.contributors
    requires AppFor(s.apps, t, c, s.nextApp).Some? ==>
               s.apps[AppFor(s.apps, t, c, s.nextApp).value].status in {AppStatus.Declined, AppStatus.Withdrawn}
    ensures Inv(ApplyEffect(s, t, c, pitch, AppFor(s.apps, t, c, s.nextApp)))
  {
    var existing := AppFor(s.apps, t, c, s.nextApp);
    if existing.Some? {
      ReapplyKeeps(s, t, c, pitch, existing.value);
    } else {
      CreateKeeps(s, t, c, pitch);
    }
  }

  lemma AssignOpKeeps(cap: nat, s: Store, op: Op)
    requires Inv(s) && Perform(cap, s, op).Ok? && op.OpAssign?
    ensures Inv(Perform(cap, s, op).value)
  {
    AssignAccepts(cap, s, op);
    AssignKeeps(s, op.app, op.admin);
  }

  /** What an accepted assign found. */
  lemma AssignAccepts(cap: nat, s: Store, op: Op)
    requires op.OpAssign? && Perform(cap, s, op).Ok? && RefsOk(s)
    ensures op.app in s.apps && s.apps[op.app].status == AppStatus.Applied
    ensures |SlotsTaken(s, s.apps[op.app].task)| < s.tasks[s.apps[op.app].task].max
    ensures Perform(cap, s, op).value == AssignEffect(s, op.app, s.apps[op.app], op.admin)
  {
  }

  lemma DeclineOpKeeps(cap: nat, s: Store, op: Op)
    requires Inv(s) && Perform(cap, s, op).Ok? && op.OpDecline?
    ensures Inv(Perform(cap, s, op).value)
  {
    DeclineKeeps(s, op.app, op.admin);
  }

  lemma ExitOpKeeps(cap: nat, s: Store, op: Op)
    requires Inv(s) && Perform(cap, s, op).Ok?
    requires op.OpUnassign? || op.OpWithdraw?
    ensures Inv(Perform(cap, s, op).value)
  {
    match op
    case OpUnassign(a, admin, reason) => UnassignKeeps(s, a, admin, reason);
    case OpWithdraw(a, _) => WithdrawKeeps(s, a);
  }

  lemma WorkOpKeeps(cap: nat, s: Store, op: Op)
    requires Inv(s) && Perform(cap, s, op).Ok?
    requires op.OpSubmit? || op.OpReview?
    ensures Inv(Perform(cap, s, op).value)
  {
    match op
    case OpSubmit(a, _) => SubmitKeeps(s, a);
    case OpReview(i, reviewer, decision, note) => ReviewKeeps(s, i, reviewer, decision, note);
  }

  lemma PersonOpKeeps(cap: nat, s: Store, op: Op)
    requires Inv(s) && Perform(cap, s, op).Ok?
    requires op.OpForget? || op.OpRegister? || op.OpMoney?
    ensures Inv(Perform(cap, s, op).value)
  {
    match op
    case OpForget(c, admin, elsewhere) => ForgetKeeps(s, c, admin, elsewhere);
    case OpRegister(c) => RegisterKeeps(s, c);
    case OpMoney(p, inFlight) => MoneyKeeps(s, p, inFlight);
  }

  /** Whatever a mutator does when it is not refused keeps the invariant. */
  lemma PerformKeeps(cap: nat, s: Store, op: Op)
    requires Inv(s) && Perform(cap, s, op).Ok?
    ensures Inv(Perform(cap, s, op).value)
  {
    if op.OpCreate? || op.OpApprove? || op.OpDiscard? || op.OpClose? || op.OpReopen? {
      TaskOpKeeps(cap, s, op);
    } else if op.OpApply? {
      ApplyKeeps(cap, s, op.task, op.contributor, op.pitch);
    } else if op.OpAssign? {
      AssignOpKeeps(cap, s, op);
    } else if op.OpDecline? {
      DeclineOpKeeps(cap, s, op);
    } else if op.OpUnassign? || op.OpWithdraw? {
      ExitOpKeeps(cap, s, op);
    } else if op.OpSubmit? || op.OpReview? {
      WorkOpKeeps(cap, s, op);
    } else {
      PersonOpKeeps(cap, s, op);
    }
  }
}
