// What each mutator accepts, exactly, and what an accepted one leaves, said of the
// rows alone.
module WorkflowExact {
  import opened Wrappers
  import opened Decimal
  import opened Workflow
  import opened WorkflowInvariant

  // ---- Rows ----

  /** The log goes on with one entry. */
  function Logged(s: Store, e: Entry): seq<Entry> {
    s.history + [e]
  }

  function Named(c: nat): Option<string> {
    Some("contributor " + Digits(c))
  }

  function NamedBecause(c: nat, reason: string): Option<string> {
    Some(if reason == "" then "contributor " + Digits(c) else "contributor " + Digits(c) + ": " + reason)
  }

  /** The contributor's counters, moved. */
  function Moved(s: Store, c: nat, dApplied: int, dAssigned: int, dCompleted: int, dRejected: int): map<nat, Contributor>
    requires c in s.contributors
  {
    var row := s.contributors[c];
    s.contributors[c := row.(appliedCount := row.appliedCount + dApplied, assignedCount := row.assignedCount + dAssigned,
                             completedCount := row.completedCount + dCompleted, rejectedCount := row.rejectedCount + dRejected)]
  }

  predicate InReviewNow(s: Store, a: nat) {
    exists i :: i in s.subs && s.subs[i].app == a && s.subs[i].status == SubStatus.Submitted
  }

  /** What the latest version is asked for in unassign, withdraw and submit: whether any
      is in review. */
  lemma InReviewIsLatest(s: Store, a: nat)
    requires Inv(s)
    ensures LatestIs(s, a, SubStatus.Submitted) <==> InReviewNow(s, a)
  {
    LatestMeans(s, a);
    if i :| i in s.subs && s.subs[i].app == a && s.subs[i].status == SubStatus.Submitted {
      ReviewLandsOnAssigned(s, i);
    }
  }

  // ---- Tasks ----

  lemma CreateExactly(cap: nat, s: Store, max: int, reward: Option<string>, createdBy: Option<nat>)
    ensures Perform(cap, s, OpCreate(max, reward, createdBy)) ==
              if 1 <= max <= 100
              then Ok(s.(tasks := s.tasks[s.nextTask := Task(max, reward, TaskStatus.Draft, createdBy)], nextTask := s.nextTask + 1,
                         history := Logged(s, Entry(s.nextTask, Created, createdBy, None, None))))
              else Err(BadMaxAssignees)
  {
  }

  /** approve, close and reopen take a task from its one status to the next. */
  lemma EdgesExactly(cap: nat, s: Store, t: nat, admin: nat)
    ensures t !in s.tasks ==> Perform(cap, s, OpApprove(t, admin)) == Perform(cap, s, OpClose(t, admin)) == Perform(cap, s, OpReopen(t, admin)) == Err(NotFound)
    ensures t in s.tasks ==>
              var task := s.tasks[t];
              && Perform(cap, s, OpApprove(t, admin)) ==
                   (if task.status == TaskStatus.Draft
                    then Ok(s.(tasks := s.tasks[t := task.(status := TaskStatus.Open)], history := Logged(s, Entry(t, TaskApproved, Some(admin), None, None))))
                    else Err(OnlyDrafts))
              && Perform(cap, s, OpClose(t, admin)) ==
                   (if task.status == TaskStatus.Open
                    then Ok(s.(tasks := s.tasks[t := task.(status := TaskStatus.Closed)], history := Logged(s, Entry(t, TaskClosed, Some(admin), None, None))))
                    else Err(WrongStatus))
              && Perform(cap, s, OpReopen(t, admin)) ==
                   (if task.status == TaskStatus.Closed
                    then Ok(s.(tasks := s.tasks[t := task.(status := TaskStatus.Open)], history := Logged(s, Entry(t, TaskReopened, Some(admin), None, None))))
                    else Err(WrongStatus))
  {
  }

  lemma {:induction false} WithoutTaskExactly(history: seq<Entry>, t: nat)
    ensures multiset(WithoutTask(history, t)) == multiset(history) - OfTask(history, t)
    ensures forall e | e in WithoutTask(history, t) :: e.task != t
  {
    if history != [] {
      var n := |history| - 1;
      WithoutTaskExactly(history[..n], t);
      assert history == history[..n] + [history[n]];
      OfTaskFits(history[..n], t);
    }
  }

  function OfTask(history: seq<Entry>, t: nat): multiset<Entry> {
    if history == [] then multiset{}
    else OfTask(history[..|history| - 1], t) + if history[|history| - 1].task == t then multiset{history[|history| - 1]} else multiset{}
  }

  lemma {:induction false} OfTaskFits(history: seq<Entry>, t: nat)
    ensures OfTask(history, t) <= multiset(history)
  {
    if history != [] {
      OfTaskFits(history[..|history| - 1], t);
      assert history == history[..|history| - 1] + [history[|history| - 1]];
    }
  }

  /** A draft goes with its entries, and nothing else does. */
  lemma DiscardExactly(cap: nat, s: Store, t: nat, admin: nat)
    ensures Perform(cap, s, OpDiscard(t, admin)).Ok? <==> t in s.tasks && s.tasks[t].status == TaskStatus.Draft
    ensures Perform(cap, s, OpDiscard(t, admin)).Err? ==>
              Perform(cap, s, OpDiscard(t, admin)) == Err(if t in s.tasks then OnlyDrafts else NotFound)
    ensures Perform(cap, s, OpDiscard(t, admin)).Ok? ==>
              var s' := Perform(cap, s, OpDiscard(t, admin)).value;
              && s' == s.(tasks := s'.tasks, history := s'.history)
              && t !in s'.tasks && (forall u | u in s.tasks && u != t :: u in s'.tasks && s'.tasks[u] == s.tasks[u]) && s'.tasks.Keys <= s.tasks.Keys
              && multiset(s'.history) == multiset(s.history) - OfTask(s.history, t)
  {
    WithoutTaskExactly(s.history, t);
  }

  // ---- Applications ----

  /** The contributor may apply to the task again, or for the first time. */
  predicate MayApply(s: Store, t: nat, c: nat) {
    forall a | a in s.apps && s.apps[a].task == t && s.apps[a].contributor == c ::
      s.apps[a].status in {AppStatus.Declined, AppStatus.Withdrawn}
  }

  lemma ExistingIs(s: Store, t: nat, c: nat, a: nat)
    requires RefsOk(s) && OneApp(s) && a in s.apps && s.apps[a].task == t && s.apps[a].contributor == c
    ensures AppFor(s.apps, t, c, s.nextApp) == Some(a)
  {
  }

  /** An apply is accepted if and only if the task is open with a free slot, its
      contributor is registered and below the cap, and has no application to it but a
      declined or a withdrawn one. */
  lemma ApplyExactly(cap: nat, s: Store, t: nat, c: nat, pitch: Option<string>)
    requires RefsOk(s) && OneApp(s)
    ensures Perform(cap, s, OpApply(t, c, pitch)).Ok? <==>
              && t in s.tasks && s.tasks[t].status == TaskStatus.Open && |SlotsTaken(s, t)| < s.tasks[t].max
              && c in s.contributors && |AppsIn(s, c, AppStatus.Applied)| < cap && MayApply(s, t, c)
  {
    if a :| a in s.apps && s.apps[a].task == t && s.apps[a].contributor == c {
      ExistingIs(s, t, c, a);
    }
  }

  /** A first application is a new row; a declined or withdrawn one is taken up again
      with the new pitch. */
  lemma ApplyLeaves(cap: nat, s: Store, t: nat, c: nat, pitch: Option<string>)
    requires RefsOk(s) && OneApp(s) && Perform(cap, s, OpApply(t, c, pitch)).Ok?
    ensures var s' := Perform(cap, s, OpApply(t, c, pitch)).value;
            var history := Logged(s, Entry(t, AppliedFor, Some(c), Some(c), pitch));
            && c in s.contributors
            && ((forall a | a in s.apps :: !(s.apps[a].task == t && s.apps[a].contributor == c)) ==>
                  s' == s.(apps := s.apps[s.nextApp := Application(t, c, pitch, AppStatus.Applied)], nextApp := s.nextApp + 1,
                           contributors := Moved(s, c, 1, 0, 0, 0), history := history))
            && (forall a | a in s.apps && s.apps[a].task == t && s.apps[a].contributor == c ::
                  s' == s.(apps := s.apps[a := Application(t, c, pitch, AppStatus.Applied)], history := history))
  {
    forall a | a in s.apps && s.apps[a].task == t && s.apps[a].contributor == c
      ensures AppFor(s.apps, t, c, s.nextApp) == Some(a)
    {
      ExistingIs(s, t, c, a);
    }
  }

  predicate HasSlot(s: Store, t: nat) {
    t in s.tasks && s.tasks[t].status == TaskStatus.Open && |SlotsTaken(s, t)| < s.tasks[t].max
  }

  predicate Holds(s: Store, a: nat, t: nat, c: nat) {
    a in s.apps && s.apps[a].task == t && s.apps[a].contributor == c
  }

  /** Why an apply is refused, the first of the reasons that hold. */
  lemma ApplyRefused(cap: nat, s: Store, t: nat, c: nat, pitch: Option<string>, a: nat)
    requires RefsOk(s) && OneApp(s) && t in s.tasks && c in s.contributors
    ensures s.tasks[t].status != TaskStatus.Open ==> Perform(cap, s, OpApply(t, c, pitch)) == Err(NotOpen)
    ensures s.tasks[t].status == TaskStatus.Open && |SlotsTaken(s, t)| >= s.tasks[t].max ==> Perform(cap, s, OpApply(t, c, pitch)) == Err(Full)
    ensures HasSlot(s, t) && MayApply(s, t, c) && |AppsIn(s, c, AppStatus.Applied)| >= cap ==>
              Perform(cap, s, OpApply(t, c, pitch)) == Err(TooManyPending)
    ensures HasSlot(s, t) && Holds(s, a, t, c) && s.apps[a].status !in {AppStatus.Declined, AppStatus.Withdrawn} ==>
              Perform(cap, s, OpApply(t, c, pitch)) ==
                Err(if s.apps[a].status == AppStatus.Completed then AlreadyCompleted
                    else if s.apps[a].status == AppStatus.Rejected then WorkWasRejected else AlreadyApplied)
  {
    if Holds(s, a, t, c) {
      ExistingIs(s, t, c, a);
    }
  }

  lemma AssignExactly(cap: nat, s: Store, a: nat, admin: nat)
    requires RefsOk(s)
    ensures var r := Perform(cap, s, OpAssign(a, admin));
            if a !in s.apps then r == Err(NotFound)
            else
              var app := s.apps[a];
              r == (if app.status != AppStatus.Applied then Err(WrongStatus)
                    else if s.tasks[app.task].status != TaskStatus.Open then Err(NotOpen)
                    else if |SlotsTaken(s, app.task)| >= s.tasks[app.task].max then Err(Full)
                    else Ok(s.(apps := s.apps[a := app.(status := AppStatus.Assigned)], contributors := Moved(s, app.contributor, 0, 1, 0, 0),
                               history := Logged(s, Entry(app.task, WasAssigned, Some(admin), Some(app.contributor), Named(app.contributor))))))
  {
  }

  lemma DeclineExactly(cap: nat, s: Store, a: nat, admin: nat)
    ensures var r := Perform(cap, s, OpDecline(a, admin));
            if a !in s.apps then r == Err(NotFound)
            else
              var app := s.apps[a];
              r == (if app.status != AppStatus.Applied then Err(WrongStatus)
                    else Ok(s.(apps := s.apps[a := app.(status := AppStatus.Declined)],
                               history := Logged(s, Entry(app.task, WasDeclined, Some(admin), Some(app.contributor), Named(app.contributor))))))
  {
  }

  /** Accepted, an unassign or a withdraw finds nothing in review. */
  lemma UnassignLeaves(cap: nat, s: Store, a: nat, admin: nat, reason: string)
    requires RefsOk(s)
    ensures var r := Perform(cap, s, OpUnassign(a, admin, reason));
            if a !in s.apps then r == Err(NotFound)
            else
              var app := s.apps[a];
              r == (if app.status != AppStatus.Assigned then Err(NotAssigned)
                    else if LatestIs(s, a, SubStatus.Submitted) then Err(AwaitingReview)
                    else Ok(s.(apps := s.apps[a := app.(status := AppStatus.Applied)], contributors := Moved(s, app.contributor, 0, -1, 0, 0),
                               history := Logged(s, Entry(app.task, WasUnassigned, Some(admin), Some(app.contributor), NamedBecause(app.contributor, reason))))))
  {
  }

  lemma WithdrawLeaves(cap: nat, s: Store, a: nat, c: nat)
    requires RefsOk(s)
    ensures var r := Perform(cap, s, OpWithdraw(a, c));
            if a !in s.apps || s.apps[a].contributor != c then r == Err(NotYours)
            else
              var app := s.apps[a];
              r == (if app.status != AppStatus.Applied && app.status != AppStatus.Assigned then Err(WrongStatus)
                    else if app.status == AppStatus.Assigned && LatestIs(s, a, SubStatus.Submitted) then Err(AwaitingReview)
                    else Ok(s.(apps := s.apps[a := app.(status := AppStatus.Withdrawn)],
                               contributors := if app.status == AppStatus.Assigned then Moved(s, c, 0, -1, 0, 0) else s.contributors,
                               history := Logged(s, Entry(app.task, Withdrew, Some(c), Some(c), None)))))
  {
  }

  // ---- Submissions ----

  /** One more than every version there is, and no more than that. */
  predicate IsNextVersion(s: Store, a: nat, v: nat) {
    && v >= 1 && (forall i | i in s.subs && s.subs[i].app == a :: s.subs[i].version < v)
    && (v > 1 ==> exists i :: i in s.subs && s.subs[i].app == a && s.subs[i].version == v - 1)
  }

  lemma NextVersionExactly(s: Store, a: nat)
    requires Inv(s)
    ensures IsNextVersion(s, a, NextVersion(s, a))
  {
    LatestMeans(s, a);
  }

  lemma SubmitLeaves(cap: nat, s: Store, a: nat, c: nat)
    ensures var r := Perform(cap, s, OpSubmit(a, c));
            var v := NextVersion(s, a);
            if a !in s.apps || s.apps[a].contributor != c then r == Err(NotYours)
            else
              r == (if s.apps[a].status != AppStatus.Assigned then Err(NotAssigned)
                    else if LatestIs(s, a, SubStatus.Submitted) then Err(AwaitingReview)
                    else Ok(s.(subs := s.subs[s.nextSub := Submission(a, v, SubStatus.Submitted)], nextSub := s.nextSub + 1,
                               history := Logged(s, Entry(s.apps[a].task, SentWork, Some(c), Some(c), Some("v" + Digits(v)))))))
  {
  }

  /** A review is accepted if and only if the submission is there and in review. */
  lemma ReviewAccepted(cap: nat, s: Store, i: nat, reviewer: nat, decision: Decision, note: Option<string>)
    requires RefsOk(s)
    ensures var r := Perform(cap, s, OpReview(i, reviewer, decision, note));
            && (r.Ok? <==> i in s.subs && s.subs[i].status == SubStatus.Submitted)
            && (r.Err? ==> r == Err(if i in s.subs then WrongStatus else NotFound))
  {
  }

  lemma ReviseLeaves(cap: nat, s: Store, i: nat, reviewer: nat, note: Option<string>)
    requires RefsOk(s) && i in s.subs && s.subs[i].status == SubStatus.Submitted
    ensures var app := s.apps[s.subs[i].app];
            Perform(cap, s, OpReview(i, reviewer, Revise, note)) ==
              Ok(s.(subs := s.subs[i := s.subs[i].(status := SubStatus.NeedsRevision)],
                    history := Logged(s, Entry(app.task, Reviewed(Revise), Some(reviewer), Some(app.contributor), note))))
  {
  }

  lemma RejectLeaves(cap: nat, s: Store, i: nat, reviewer: nat, note: Option<string>)
    requires RefsOk(s) && i in s.subs && s.subs[i].status == SubStatus.Submitted
    ensures var a := s.subs[i].app;
            var app := s.apps[a];
            Perform(cap, s, OpReview(i, reviewer, Reject, note)) ==
              Ok(s.(subs := s.subs[i := s.subs[i].(status := SubStatus.Rejected)], apps := s.apps[a := app.(status := AppStatus.Rejected)],
                    contributors := Moved(s, app.contributor, 0, -1, 0, 1),
                    history := Logged(s, Entry(app.task, Reviewed(Reject), Some(reviewer), Some(app.contributor), note))
                               + [Entry(app.task, WasRejected, Some(reviewer), Some(app.contributor),
                                        NamedBecause(app.contributor, if note.Some? then note.value else "submission rejected"))]))
  {
  }

  predicate PaidFor(s: Store, i: nat) {
    exists p :: p in s.payouts && s.payouts[p].submission == i
  }

  /** An approval owes the task's reward, if there is one, to the contributor. */
  lemma ApproveLeaves(cap: nat, s: Store, i: nat, reviewer: nat, note: Option<string>)
    requires RefsOk(s) && i in s.subs && s.subs[i].status == SubStatus.Submitted && !PaidFor(s, i)
    ensures var a := s.subs[i].app;
            var app := s.apps[a];
            var reward := s.tasks[app.task].reward;
            var owed := reward.Some? && reward.value != "";
            Perform(cap, s, OpReview(i, reviewer, Approve, note)) ==
              Ok(s.(subs := s.subs[i := s.subs[i].(status := SubStatus.Approved)], apps := s.apps[a := app.(status := AppStatus.Completed)],
                    contributors := Moved(s, app.contributor, 0, -1, 1, 0),
                    payouts := if owed then s.payouts[s.nextPayout := Owed(app.task, app.contributor, i, reward.value, false)] else s.payouts,
                    nextPayout := if owed then s.nextPayout + 1 else s.nextPayout,
                    history := Logged(s, Entry(app.task, Reviewed(Approve), Some(reviewer), Some(app.contributor), note))
                               + [Entry(app.task, WasCompleted, Some(reviewer), Some(app.contributor), Named(app.contributor))]))
  {
  }

  lemma NotPaidYet(s: Store, i: nat)
    requires Inv(s) && i in s.subs && s.subs[i].status == SubStatus.Submitted
    ensures !PaidFor(s, i)
  {
    forall p | p in s.payouts ensures s.payouts[p].submission != i {
      assert PayoutOk(s, p);
    }
  }

  // ---- Erasure ----

  /** An erasure is refused over money in flight, and when there is nothing to erase;
      otherwise it takes exactly the contributor's rows. */
  lemma ForgetExactly(cap: nat, s: Store, c: nat, admin: nat, elsewhere: nat)
    ensures var r := Perform(cap, s, OpForget(c, admin, elsewhere));
            && (r.Ok? <==> (forall p | p in s.payouts && s.payouts[p].contributor == c :: !s.payouts[p].inFlight)
                           && (c in s.contributors || elsewhere > 0))
            && (r.Err? && (exists p :: p in s.payouts && s.payouts[p].contributor == c && s.payouts[p].inFlight) ==> r == Err(MoneyInFlight))
            && (r.Ok? && c !in s.contributors ==> r == Ok(s))
  {
  }

  lemma ForgetLeaves(cap: nat, s: Store, c: nat, admin: nat, elsewhere: nat)
    requires c in s.contributors && Perform(cap, s, OpForget(c, admin, elsewhere)).Ok?
    ensures var s' := Perform(cap, s, OpForget(c, admin, elsewhere)).value;
            && (forall a :: a in s'.apps <==> a in s.apps && s.apps[a].contributor != c)
            && (forall a | a in s'.apps :: s'.apps[a] == s.apps[a])
            && (forall i :: i in s'.subs <==> i in s.subs && (s.subs[i].app in s.apps ==> s.apps[s.subs[i].app].contributor != c))
            && (forall i | i in s'.subs :: s'.subs[i] == s.subs[i])
            && (forall p :: p in s'.payouts <==> p in s.payouts && s.payouts[p].contributor != c)
            && (forall p | p in s'.payouts :: s'.payouts[p] == s.payouts[p])
            && s'.contributors.Keys == s.contributors.Keys - {c} && (forall d | d in s'.contributors :: s'.contributors[d] == s.contributors[d])
            && s'.tasks.Keys == s.tasks.Keys
            && (forall t | t in s.tasks :: s'.tasks[t] == s.tasks[t].(createdBy := if s.tasks[t].createdBy == Some(c) then None else s.tasks[t].createdBy))
            && s'.nextTask == s.nextTask && s'.nextApp == s.nextApp && s'.nextSub == s.nextSub && s'.nextPayout == s.nextPayout
  {
  }

  /** The log keeps every entry, scrubbed of the contributor and of nothing else, and
      goes on with one entry for each application of theirs. */
  lemma ForgetScrubs(cap: nat, s: Store, c: nat, admin: nat, elsewhere: nat, k: nat)
    requires c in s.contributors && Perform(cap, s, OpForget(c, admin, elsewhere)).Ok? && k < |s.history|
    ensures var e, h := s.history[k], Perform(cap, s, OpForget(c, admin, elsewhere)).value.history;
            && k < |h|
            && h[k].task == e.task && h[k].action == e.action
            && h[k].actor == (if e.actor == Some(c) then None else e.actor)
            && h[k].subject == (if e.subject == Some(c) then None else e.subject)
            && (e.actor == Some(c) ==> h[k].detail == None)
            && (e.actor != Some(c) ==>
                  h[k].detail == if e.detail.Some? && DetailNames(e.detail.value, c) then Some("(contributor erased)") else e.detail)
  {
  }

  lemma {:induction false} ForgottenCount(s: Store, c: nat, admin: nat, n: nat)
    ensures |ForgottenEntries(s, c, admin, n)| == |set a | 0 <= a < n && a in s.apps && s.apps[a].contributor == c|
  {
    if n > 0 {
      ForgottenCount(s, c, admin, n - 1);
      var before := set a | 0 <= a < n - 1 && a in s.apps && s.apps[a].contributor == c;
      var all := set a | 0 <= a < n && a in s.apps && s.apps[a].contributor == c;
      assert all == if n - 1 in s.apps && s.apps[n - 1].contributor == c then before + {n - 1} else before;
    }
  }

  lemma ForgetLogs(cap: nat, s: Store, c: nat, admin: nat, elsewhere: nat)
    requires RefsOk(s) && c in s.contributors && Perform(cap, s, OpForget(c, admin, elsewhere)).Ok?
    ensures var h := Perform(cap, s, OpForget(c, admin, elsewhere)).value.history;
            && |h| == |s.history| + |AppsOf(s, c)|
            && forall k | |s.history| <= k < |h| ::
                 h[k].action == ContributorForgotten && h[k].subject == None && h[k].detail == None
                 && h[k].actor == (if admin == c then None else Some(admin))
  {
    ForgottenCount(s, c, admin, s.nextApp);
    assert AppsOf(s, c) == set a | 0 <= a < s.nextApp && a in s.apps && s.apps[a].contributor == c;
    var entries := ForgottenEntries(s, c, admin, s.nextApp);
    forall k | 0 <= k < |entries| ensures entries[k].action == ContributorForgotten && entries[k].subject == None && entries[k].detail == None
                                          && entries[k].actor == Some(admin) {
      assert entries[k] in entries;
    }
  }
}
