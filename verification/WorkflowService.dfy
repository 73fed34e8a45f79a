// The mutators of src/core/service.ts over tables they change in place, statement by
// statement; each leaves exactly what its specification in Workflow says.
module WorkflowService {
  import opened Wrappers
  import opened Decimal
  import W = Workflow
  import WorkflowInvariant
  import WorkflowAudit
  import WorkflowLaws

  type Store = W.Store
  type Refusal = W.Refusal

  /** The mutator did what `outcome` says, or was refused and changed nothing. */
  ghost predicate Did(before: Store, after: Store, refusal: Option<Refusal>, outcome: Result<Store, Refusal>) {
    match outcome
    case Ok(s) => refusal == None && after == s
    case Err(why) => refusal == Some(why) && after == before
  }

  /** The tables are in step and their log accounts for them. */
  ghost predicate Sound(s: Store) {
    WorkflowInvariant.Inv(s) && WorkflowAudit.Audit(s)
  }

  /** Whatever a mutator did, sound tables stay sound. */
  lemma DidKeeps(cap: nat, op: W.Op, before: Store, after: Store, refusal: Option<Refusal>)
    requires Did(before, after, refusal, W.Perform(cap, before, op))
    ensures Sound(before) ==> Sound(after)
  {
    if Sound(before) && W.Perform(cap, before, op).Ok? {
      WorkflowLaws.PerformKeeps(cap, before, op);
      WorkflowAudit.PerformTells(cap, before, op);
    }
  }

  lemma BumpTwice(s: Store, c: nat, dCompleted: int, dRejected: int)
    ensures W.Bump(W.Bump(s, c, 0, 0, dCompleted, dRejected), c, 0, -1, 0, 0) == W.Bump(s, c, 0, -1, dCompleted, dRejected)
  {
    if c in s.contributors {
      assert W.Bump(W.Bump(s, c, 0, 0, dCompleted, dRejected), c, 0, -1, 0, 0).contributors ==
             W.Bump(s, c, 0, -1, dCompleted, dRejected).contributors;
    }
  }

  class Database {
    var tasks: map<nat, W.Task>
    var apps: map<nat, W.Application>
    var subs: map<nat, W.Submission>
    var contributors: map<nat, W.Contributor>
    var payouts: map<nat, W.Owed>
    var history: seq<W.Entry>
    var nextTask: nat
    var nextApp: nat
    var nextSub: nat
    var nextPayout: nat

    ghost function Contents(): Store
      reads this
    {
      W.Store(tasks, apps, subs, contributors, payouts, history, nextTask, nextApp, nextSub, nextPayout)
    }

    constructor ()
      ensures Contents() == W.EMPTY
    {
      tasks, apps, subs, contributors, payouts := map[], map[], map[], map[], map[];
      history := [];
      nextTask, nextApp, nextSub, nextPayout := 0, 0, 0, 0;
    }

    // ---- Row writers ----

    method SetTaskStatus(t: nat, status: W.TaskStatus)
      requires t in tasks
      modifies this
      ensures Contents() == W.SetTask(old(Contents()), t, status)
    {
      tasks := tasks[t := tasks[t].(status := status)];
    }

    method SetAppStatus(a: nat, status: W.AppStatus)
      requires a in apps
      modifies this
      ensures Contents() == W.SetApp(old(Contents()), a, status)
    {
      apps := apps[a := apps[a].(status := status)];
    }

    method Reapply(a: nat, pitch: Option<string>)
      requires a in apps
      modifies this
      ensures Contents() == W.Reapply(old(Contents()), a, pitch)
    {
      apps := apps[a := apps[a].(status := W.AppStatus.Applied, pitch := pitch)];
    }

    method CreateApplication(t: nat, c: nat, pitch: Option<string>)
      modifies this
      ensures Contents() == W.CreateApp(old(Contents()), t, c, pitch)
    {
      apps := apps[nextApp := W.Application(t, c, pitch, W.AppStatus.Applied)];
      nextApp := nextApp + 1;
    }

    /** Adds the deltas to the four counter columns of a row, if there is one. */
    method Bump(c: nat, dApplied: int, dAssigned: int, dCompleted: int, dRejected: int)
      modifies this
      ensures Contents() == W.Bump(old(Contents()), c, dApplied, dAssigned, dCompleted, dRejected)
    {
      if c in contributors {
        var row := contributors[c];
        contributors := contributors[c := W.Contributor(row.appliedCount + dApplied, row.assignedCount + dAssigned,
                                                        row.completedCount + dCompleted, row.rejectedCount + dRejected)];
      }
    }

    method AddHistory(t: nat, action: W.Action, actor: Option<nat>, detail: Option<string>, subject: Option<nat>)
      modifies this
      ensures Contents() == W.AddHistory(old(Contents()), t, action, actor, detail, subject)
    {
      history := history + [W.Entry(t, action, actor, subject, detail)];
    }

    method CreateSubmission(a: nat) returns (version: nat)
      modifies this
      ensures version == W.NextVersion(old(Contents()), a)
      ensures Contents() == W.CreateSub(old(Contents()), a, version)
    {
      var latest := W.LatestBelow(subs, a, nextSub);
      version := if latest.Some? then subs[latest.value].version + 1 else 1;
      subs := subs[nextSub := W.Submission(a, version, W.SubStatus.Submitted)];
      nextSub := nextSub + 1;
    }

    method SetReview(i: nat, status: W.SubStatus)
      requires i in subs
      modifies this
      ensures Contents() == W.SetReview(old(Contents()), i, status)
    {
      subs := subs[i := subs[i].(status := status)];
    }

    method CreatePayout(t: nat, c: nat, i: nat, reward: string)
      modifies this
      ensures Contents() == W.CreatePayout(old(Contents()), t, c, i, reward)
    {
      if exists p :: p in payouts && payouts[p].submission == i {
        return;
      }
      payouts := payouts[nextPayout := W.Owed(t, c, i, reward, false)];
      nextPayout := nextPayout + 1;
    }

    /** Scrubs a contributor from the log, entry by entry. */
    method EraseActor(c: nat)
      modifies this
      ensures Contents() == old(Contents()).(history := W.EraseActor(old(history), c))
    {
      var scrubbed: seq<W.Entry> := [];
      for k := 0 to |history|
        invariant scrubbed == W.EraseActor(history, c)[..k]
        invariant Contents() == old(Contents())
      {
        var e := history[k];
        if e.actor == Some(c) {
          e := e.(actor := None, detail := None);
        }
        if e.subject == Some(c) {
          e := e.(subject := None);
        }
        if e.detail.Some? && W.DetailNames(e.detail.value, c) {
          e := e.(detail := Some(W.ERASED_DETAIL));
        }
        scrubbed := scrubbed + [e];
      }
      history := scrubbed;
    }

    method InReview(a: nat) returns (yes: bool)
      ensures yes == W.LatestIs(Contents(), a, W.SubStatus.Submitted)
    {
      var latest := W.LatestBelow(subs, a, nextSub);
      yes := latest.Some? && subs[latest.value].status == W.SubStatus.Submitted;
    }

    method CountSlotsTaken(t: nat) returns (n: nat)
      ensures n == |W.SlotsTaken(Contents(), t)|
    {
      n := |set a | a in apps && apps[a].task == t && apps[a].status in {W.AppStatus.Assigned, W.AppStatus.Completed}|;
      assert W.SlotsTaken(Contents(), t) ==
        set a | a in apps && apps[a].task == t && apps[a].status in {W.AppStatus.Assigned, W.AppStatus.Completed};
    }

    method CountPending(c: nat) returns (n: nat)
      ensures n == |W.AppsIn(Contents(), c, W.AppStatus.Applied)|
    {
      n := |set a | a in apps && apps[a].contributor == c && apps[a].status == W.AppStatus.Applied|;
      assert W.AppsIn(Contents(), c, W.AppStatus.Applied) ==
        set a | a in apps && apps[a].contributor == c && apps[a].status == W.AppStatus.Applied;
    }

    // ---- Tasks ----

    method CreateTask(max: int, reward: Option<string>, createdBy: Option<nat>) returns (refusal: Option<Refusal>)
      modifies this
      ensures Did(old(Contents()), Contents(), refusal, W.CreateTask(old(Contents()), max, reward, createdBy))
      ensures Sound(old(Contents())) ==> Sound(Contents())
    {
      if !(1 <= max <= W.MAX_ASSIGNEES) {
        return Some(W.BadMaxAssignees);
      }
      var t := nextTask;
      tasks := tasks[t := W.Task(max, reward, W.TaskStatus.Draft, createdBy)];
      nextTask := nextTask + 1;
      AddHistory(t, W.Created, createdBy, None, None);
      DidKeeps(0, W.OpCreate(max, reward, createdBy), old(Contents()), Contents(), None);
      return None;
    }

    /** One edge, from its one status. */
    method TransitionTask(t: nat, from: W.TaskStatus, otherwise: Refusal, to: W.TaskStatus, action: W.Action, admin: nat) returns (refusal: Option<Refusal>)
      modifies this
      ensures Did(old(Contents()), Contents(), refusal, W.TaskOp(old(Contents()), t, from, otherwise, to, action, admin))
    {
      if t !in tasks {
        return Some(W.NotFound);
      }
      if tasks[t].status != from {
        return Some(otherwise);
      }
      assert W.TaskRefusal(W.TaskRow(Contents(), t), from, otherwise) == None;
      SetTaskStatus(t, to);
      AddHistory(t, action, Some(admin), None, None);
      return None;
    }

    method ApproveTask(t: nat, admin: nat) returns (refusal: Option<Refusal>)
      modifies this
      ensures Did(old(Contents()), Contents(), refusal, W.Perform(0, old(Contents()), W.OpApprove(t, admin)))
      ensures Sound(old(Contents())) ==> Sound(Contents())
    {
      refusal := TransitionTask(t, W.TaskStatus.Draft, W.OnlyDrafts, W.TaskStatus.Open, W.TaskApproved, admin);
      DidKeeps(0, W.OpApprove(t, admin), old(Contents()), Contents(), refusal);
    }

    method CloseTask(t: nat, admin: nat) returns (refusal: Option<Refusal>)
      modifies this
      ensures Did(old(Contents()), Contents(), refusal, W.Perform(0, old(Contents()), W.OpClose(t, admin)))
      ensures Sound(old(Contents())) ==> Sound(Contents())
    {
      refusal := TransitionTask(t, W.TaskStatus.Open, W.WrongStatus, W.TaskStatus.Closed, W.TaskClosed, admin);
      DidKeeps(0, W.OpClose(t, admin), old(Contents()), Contents(), refusal);
    }

    method ReopenTask(t: nat, admin: nat) returns (refusal: Option<Refusal>)
      modifies this
      ensures Did(old(Contents()), Contents(), refusal, W.Perform(0, old(Contents()), W.OpReopen(t, admin)))
      ensures Sound(old(Contents())) ==> Sound(Contents())
    {
      refusal := TransitionTask(t, W.TaskStatus.Closed, W.WrongStatus, W.TaskStatus.Open, W.TaskReopened, admin);
      DidKeeps(0, W.OpReopen(t, admin), old(Contents()), Contents(), refusal);
    }

    method DiscardDraft(t: nat) returns (refusal: Option<Refusal>)
      modifies this
      ensures Did(old(Contents()), Contents(), refusal, W.Discard(old(Contents()), t))
      ensures Sound(old(Contents())) ==> Sound(Contents())
    {
      if t !in tasks {
        return Some(W.NotFound);
      }
      if tasks[t].status != W.TaskStatus.Draft {
        return Some(W.OnlyDrafts);
      }
      history := W.WithoutTask(history, t);
      tasks := tasks - {t};
      DidKeeps(0, W.OpDiscard(t, 0), old(Contents()), Contents(), None);
      return None;
    }

    // ---- Applications ----

    method Apply(cap: nat, t: nat, c: nat, pitch: Option<string>) returns (refusal: Option<Refusal>)
      modifies this
      ensures Did(old(Contents()), Contents(), refusal, W.Apply(cap, old(Contents()), t, c, pitch))
      ensures Sound(old(Contents())) ==> Sound(Contents())
    {
      if t !in tasks {
        return Some(W.NotFound);
      }
      if c !in contributors {
        return Some(W.JustErased);
      }
      var existing := W.AppFor(apps, t, c, nextApp);
      var slots := CountSlotsTaken(t);
      var pending := CountPending(c);
      var no := W.ApplyRefusal(cap, tasks[t], slots, if existing.Some? then Some(apps[existing.value]) else None, pending);
      if no.Some? {
        return no;
      }
      if existing.Some? {
        Reapply(existing.value, pitch);
      } else {
        CreateApplication(t, c, pitch);
        Bump(c, 1, 0, 0, 0);
      }
      AddHistory(t, W.AppliedFor, Some(c), pitch, Some(c));
      DidKeeps(cap, W.OpApply(t, c, pitch), old(Contents()), Contents(), None);
      return None;
    }

    method Assign(a: nat, admin: nat) returns (refusal: Option<Refusal>)
      modifies this
      ensures Did(old(Contents()), Contents(), refusal, W.Assign(old(Contents()), a, admin))
      ensures Sound(old(Contents())) ==> Sound(Contents())
    {
      if a !in apps {
        return Some(W.NotFound);
      }
      var app := apps[a];
      if app.status != W.AppStatus.Applied {
        return Some(W.WrongStatus);
      }
      if app.task !in tasks {
        return Some(W.NotFound);
      }
      var task := tasks[app.task];
      if task.status != W.TaskStatus.Open {
        return Some(W.NotOpen);
      }
      var taken := CountSlotsTaken(app.task);
      if taken >= task.max {
        return Some(W.Full);
      }
      SetAppStatus(a, W.AppStatus.Assigned);
      Bump(app.contributor, 0, 1, 0, 0);
      AddHistory(app.task, W.WasAssigned, Some(admin), Some(W.ContributorDetail(app.contributor, None)), Some(app.contributor));
      DidKeeps(0, W.OpAssign(a, admin), old(Contents()), Contents(), None);
      return None;
    }

    method Decline(a: nat, admin: nat) returns (refusal: Option<Refusal>)
      modifies this
      ensures Did(old(Contents()), Contents(), refusal, W.Decline(old(Contents()), a, admin))
      ensures Sound(old(Contents())) ==> Sound(Contents())
    {
      if a !in apps {
        return Some(W.NotFound);
      }
      var app := apps[a];
      if app.status != W.AppStatus.Applied {
        return Some(W.WrongStatus);
      }
      SetAppStatus(a, W.AppStatus.Declined);
      AddHistory(app.task, W.WasDeclined, Some(admin), Some(W.ContributorDetail(app.contributor, None)), Some(app.contributor));
      DidKeeps(0, W.OpDecline(a, admin), old(Contents()), Contents(), None);
      return None;
    }

    method Unassign(a: nat, admin: nat, reason: string) returns (refusal: Option<Refusal>)
      modifies this
      ensures Did(old(Contents()), Contents(), refusal, W.Unassign(old(Contents()), a, admin, reason))
      ensures Sound(old(Contents())) ==> Sound(Contents())
    {
      if a !in apps {
        return Some(W.NotFound);
      }
      var app := apps[a];
      if app.status != W.AppStatus.Assigned {
        return Some(W.NotAssigned);
      }
      var pending := InReview(a);
      if pending {
        return Some(W.AwaitingReview);
      }
      SetAppStatus(a, W.AppStatus.Applied);
      Bump(app.contributor, 0, -1, 0, 0);
      AddHistory(app.task, W.WasUnassigned, Some(admin), Some(W.ContributorDetail(app.contributor, Some(reason))), Some(app.contributor));
      DidKeeps(0, W.OpUnassign(a, admin, reason), old(Contents()), Contents(), None);
      return None;
    }

    method Withdraw(a: nat, c: nat) returns (refusal: Option<Refusal>)
      modifies this
      ensures Did(old(Contents()), Contents(), refusal, W.Withdraw(old(Contents()), a, c))
      ensures Sound(old(Contents())) ==> Sound(Contents())
    {
      if a !in apps || apps[a].contributor != c {
        return Some(W.NotYours);
      }
      var app := apps[a];
      if app.status != W.AppStatus.Applied && app.status != W.AppStatus.Assigned {
        return Some(W.WrongStatus);
      }
      if app.status == W.AppStatus.Assigned {
        var pending := InReview(a);
        if pending {
          return Some(W.AwaitingReview);
        }
        Bump(app.contributor, 0, -1, 0, 0);
      }
      SetAppStatus(a, W.AppStatus.Withdrawn);
      AddHistory(app.task, W.Withdrew, Some(c), None, Some(c));
      DidKeeps(0, W.OpWithdraw(a, c), old(Contents()), Contents(), None);
      return None;
    }

    // ---- Submissions ----

    method SubmitWork(a: nat, c: nat) returns (refusal: Option<Refusal>)
      modifies this
      ensures Did(old(Contents()), Contents(), refusal, W.Submit(old(Contents()), a, c))
      ensures Sound(old(Contents())) ==> Sound(Contents())
    {
      if a !in apps || apps[a].contributor != c {
        return Some(W.NotYours);
      }
      var app := apps[a];
      var pending := InReview(a);
      if app.status != W.AppStatus.Assigned {
        return Some(W.NotAssigned);
      }
      if pending {
        return Some(W.AwaitingReview);
      }
      var version := CreateSubmission(a);
      AddHistory(app.task, W.SentWork, Some(c), Some("v" + Digits(version)), Some(c));
      DidKeeps(0, W.OpSubmit(a, c), old(Contents()), Contents(), None);
      return None;
    }

    /** The assignment is no longer in progress: it counts as completed or rejected. */
    method EndAssignment(a: nat, c: nat, dCompleted: int, dRejected: int, status: W.AppStatus)
      requires a in apps
      modifies this
      ensures Contents() == W.SetApp(W.Bump(old(Contents()), c, 0, -1, dCompleted, dRejected), a, status)
    {
      BumpTwice(Contents(), c, dCompleted, dRejected);
      Bump(c, 0, 0, dCompleted, dRejected);
      Bump(c, 0, -1, 0, 0);
      SetAppStatus(a, status);
    }

    /** The writes of a review, whose submission and application have been read. */
    method Decide(i: nat, a: nat, reviewer: nat, decision: W.Decision, note: Option<string>)
      requires i in subs && a in apps
      modifies this
      ensures Contents() == W.ReviewEffect(old(Contents()), i, a, old(apps[a]), W.RewardOf(old(Contents()), old(apps[a]).task), reviewer, decision, note)
    {
      var app := apps[a];
      var reward := if app.task in tasks then tasks[app.task].reward else None;
      SetReview(i, W.DecisionStatus(decision));
      AddHistory(app.task, W.Reviewed(decision), Some(reviewer), note, Some(app.contributor));
      if decision == W.Approve {
        EndAssignment(a, app.contributor, 1, 0, W.AppStatus.Completed);
        AddHistory(app.task, W.WasCompleted, Some(reviewer), Some(W.ContributorDetail(app.contributor, None)), Some(app.contributor));
        if reward.Some? && reward.value != "" {
          CreatePayout(app.task, app.contributor, i, reward.value);
        }
      }
      if decision == W.Reject {
        EndAssignment(a, app.contributor, 0, 1, W.AppStatus.Rejected);
        AddHistory(app.task, W.WasRejected, Some(reviewer),
                   Some(W.ContributorDetail(app.contributor, Some(if note.Some? then note.value else "submission rejected"))),
                   Some(app.contributor));
      }
    }

    method ReviewSubmission(i: nat, reviewer: nat, decision: W.Decision, note: Option<string>) returns (refusal: Option<Refusal>)
      modifies this
      ensures Did(old(Contents()), Contents(), refusal, W.Review(old(Contents()), i, reviewer, decision, note))
      ensures Sound(old(Contents())) ==> Sound(Contents())
    {
      if i !in subs || subs[i].app !in apps {
        return Some(W.NotFound);
      }
      if subs[i].status != W.SubStatus.Submitted {
        return Some(W.WrongStatus);
      }
      Decide(i, subs[i].app, reviewer, decision, note);
      DidKeeps(0, W.OpReview(i, reviewer, decision, note), old(Contents()), Contents(), None);
      return None;
    }

    // ---- Erasure ----

    /** One entry for each task the contributor touched, before authorship goes. */
    method LogForgotten(c: nat, admin: nat)
      modifies this
      ensures Contents() == old(Contents()).(history := old(history) + W.ForgottenEntries(old(Contents()), c, admin, nextApp))
    {
      for a := 0 to nextApp
        invariant Contents() == old(Contents()).(history := old(history) + W.ForgottenEntries(old(Contents()), c, admin, a))
      {
        if a in apps && apps[a].contributor == c {
          AddHistory(apps[a].task, W.ContributorForgotten, Some(admin), None, None);
        }
      }
    }

    method DeleteContributor(c: nat, admin: nat)
      modifies this
      ensures Contents() == W.EraseEffect(old(Contents()), c, admin)
    {
      LogForgotten(c, admin);
      subs := map i | i in subs && !(subs[i].app in apps && apps[subs[i].app].contributor == c) :: subs[i];
      apps := map a | a in apps && apps[a].contributor != c :: apps[a];
      EraseActor(c);
      tasks := map t | t in tasks :: if tasks[t].createdBy == Some(c) then tasks[t].(createdBy := None) else tasks[t];
      payouts := map p | p in payouts && payouts[p].contributor != c :: payouts[p];
      contributors := contributors - {c};
    }

    method ForgetContributor(c: nat, admin: nat, elsewhere: nat) returns (refusal: Option<Refusal>)
      modifies this
      ensures Did(old(Contents()), Contents(), refusal, W.Forget(old(Contents()), c, admin, elsewhere))
      ensures Sound(old(Contents())) ==> Sound(Contents())
    {
      if exists p :: p in payouts && payouts[p].contributor == c && payouts[p].inFlight {
        return Some(W.MoneyInFlight);
      }
      if c !in contributors {
        return if elsewhere == 0 then Some(W.NothingErased) else None;
      }
      DeleteContributor(c, admin);
      DidKeeps(0, W.OpForget(c, admin, elsewhere), old(Contents()), Contents(), None);
      return None;
    }
  }
}
