// The audit log replays: folding a task's entries about a contributor gives that
// contributor's application, its number of versions and the fate of the latest,
// and folding the task-level entries gives the task's status.
module WorkflowAudit {
  import opened Wrappers
  import opened Workflow
  import opened WorkflowInvariant
  import opened WorkflowLaws

  // ---- Reading the log ----

  /** What the log says of one contributor on one task so far; `Broken` when it
      says something the state machines of an application and its work forbid. */
  datatype Trail = Nothing | At(status: AppStatus, versions: nat, latest: Option<SubStatus>) | Broken

  function Follow(trail: Trail, action: Action): Trail {
    match trail
    case Broken => Broken
    case Nothing => if action == AppliedFor then At(AppStatus.Applied, 0, None) else Broken
    case At(status, versions, latest) =>
      match action
      case AppliedFor => if status in {AppStatus.Declined, AppStatus.Withdrawn} then trail.(status := AppStatus.Applied) else Broken
      case WasAssigned => if status == AppStatus.Applied then trail.(status := AppStatus.Assigned) else Broken
      case WasDeclined => if status == AppStatus.Applied then trail.(status := AppStatus.Declined) else Broken
      case WasUnassigned =>
        if status == AppStatus.Assigned && latest != Some(SubStatus.Submitted) then trail.(status := AppStatus.Applied) else Broken
      case Withdrew =>
        if status == AppStatus.Applied || (status == AppStatus.Assigned && latest != Some(SubStatus.Submitted))
        then trail.(status := AppStatus.Withdrawn) else Broken
      case SentWork =>
        if status == AppStatus.Assigned && latest != Some(SubStatus.Submitted)
        then At(status, versions + 1, Some(SubStatus.Submitted)) else Broken
      case Reviewed(decision) =>
        if status == AppStatus.Assigned && latest == Some(SubStatus.Submitted)
        then trail.(latest := Some(DecisionStatus(decision))) else Broken
      case WasCompleted =>
        if status == AppStatus.Assigned && latest == Some(SubStatus.Approved) then trail.(status := AppStatus.Completed) else Broken
      case WasRejected =>
        if status == AppStatus.Assigned && latest == Some(SubStatus.Rejected) then trail.(status := AppStatus.Rejected) else Broken
      case _ => Broken
  }

  function Replay(history: seq<Entry>, t: nat, c: nat): Trail {
    if history == [] then Nothing
    else
      var e := history[|history| - 1];
      var before := Replay(history[..|history| - 1], t, c);
      if e.task == t && e.subject == Some(c) then Follow(before, e.action) else before
  }

  datatype TaskTrail = NoTask | Is(status: TaskStatus) | Unlawful

  function FollowTask(trail: TaskTrail, action: Action): TaskTrail {
    match action
    case Created => if trail == NoTask then Is(TaskStatus.Draft) else Unlawful
    case TaskApproved => if trail == Is(TaskStatus.Draft) then Is(TaskStatus.Open) else Unlawful
    case TaskClosed => if trail == Is(TaskStatus.Open) then Is(TaskStatus.Closed) else Unlawful
    case TaskReopened => if trail == Is(TaskStatus.Closed) then Is(TaskStatus.Open) else Unlawful
    case ContributorForgotten => if trail.Is? then trail else Unlawful
    case _ => trail
  }

  function ReplayTask(history: seq<Entry>, t: nat): TaskTrail {
    if history == [] then NoTask
    else
      var e := history[|history| - 1];
      var before := ReplayTask(history[..|history| - 1], t);
      if e.task == t then FollowTask(before, e.action) else before
  }

  // ---- What the tables say ----

  function LatestStatus(s: Store, a: nat): Option<SubStatus> {
    if Latest(s, a).Some? then Some(s.subs[Latest(s, a).value].status) else None
  }

  function Versions(s: Store, a: nat): nat {
    NextVersion(s, a) - 1
  }

  function TrailOf(s: Store, a: nat): (r: Trail)
    requires a in s.apps
    ensures r.At?
  {
    At(s.apps[a].status, Versions(s, a), LatestStatus(s, a))
  }

  ghost predicate HasApp(s: Store, t: nat, c: nat) {
    exists a :: a in s.apps && s.apps[a].task == t && s.apps[a].contributor == c
  }

  ghost predicate AppTold(s: Store, a: nat)
    requires a in s.apps
  {
    Replay(s.history, s.apps[a].task, s.apps[a].contributor) == TrailOf(s, a)
  }

  ghost predicate TaskTold(s: Store, t: nat) {
    ReplayTask(s.history, t) == if t in s.tasks then Is(s.tasks[t].status) else NoTask
  }

  /** The log tells exactly what the tables say. */
  ghost predicate Audit(s: Store) {
    && (forall a | a in s.apps :: AppTold(s, a))
    && (forall t: nat, c: nat | !HasApp(s, t, c) :: Replay(s.history, t, c) == Nothing)
    && (forall t: nat :: TaskTold(s, t))
    && (forall e | e in s.history :: e.task < s.nextTask)
  }

  // ---- Adding an entry ----

  lemma ReplayAdd(history: seq<Entry>, e: Entry, t: nat, c: nat)
    ensures Replay(history + [e], t, c) ==
              if e.task == t && e.subject == Some(c) then Follow(Replay(history, t, c), e.action) else Replay(history, t, c)
    ensures ReplayTask(history + [e], t) ==
              if e.task == t then FollowTask(ReplayTask(history, t), e.action) else ReplayTask(history, t)
  {
    assert (history + [e])[..|history|] == history;
  }

  predicate IsTaskLevel(action: Action) {
    action in {Created, TaskApproved, TaskClosed, TaskReopened, ContributorForgotten}
  }

  /** One entry about one application, which moves as the entry says. */
  ghost predicate Tells(s: Store, s': Store, a: nat, e: Entry) {
    && a in s.apps && s'.history == s.history + [e]
    && e.task == s.apps[a].task && e.subject == Some(s.apps[a].contributor) && !IsTaskLevel(e.action)
    && s'.apps.Keys == s.apps.Keys
    && (forall b | b in s.apps :: s'.apps[b].task == s.apps[b].task && s'.apps[b].contributor == s.apps[b].contributor)
    && (forall b | b in s.apps && b != a :: TrailOf(s', b) == TrailOf(s, b))
    && TrailOf(s', a) == Follow(TrailOf(s, a), e.action)
    && s'.tasks == s.tasks && s'.nextTask == s.nextTask
  }

  lemma TellKeeps(s: Store, s': Store, a: nat, e: Entry)
    requires Audit(s) && OneApp(s) && Tells(s, s', a, e) && s.apps[a].task in s.tasks && e.task < s.nextTask
    ensures Audit(s')
  {
    forall b | b in s'.apps ensures AppTold(s', b) {
      assert AppTold(s, b);
      ReplayAdd(s.history, e, s.apps[b].task, s.apps[b].contributor);
    }
    forall t: nat, c: nat | !HasApp(s', t, c) ensures Replay(s'.history, t, c) == Nothing {
      HasAppSame(s, s', t, c);
      ReplayAdd(s.history, e, t, c);
      assert !(e.task == t && e.subject == Some(c));
    }
    forall t: nat ensures TaskTold(s', t) {
      assert TaskTold(s, t);
      ReplayAdd(s.history, e, t, 0);
    }
  }

  lemma HasAppSame(s: Store, s': Store, t: nat, c: nat)
    requires s'.apps.Keys == s.apps.Keys
    requires forall b | b in s.apps :: s'.apps[b].task == s.apps[b].task && s'.apps[b].contributor == s.apps[b].contributor
    ensures HasApp(s', t, c) == HasApp(s, t, c)
  {
    if HasApp(s, t, c) {
      var a :| a in s.apps && s.apps[a].task == t && s.apps[a].contributor == c;
      assert a in s'.apps && s'.apps[a].task == t && s'.apps[a].contributor == c;
    }
  }

  // ---- Moves ----

  /** The application goes to `to` with one entry that says so. */
  ghost predicate Goes(s: Store, s': Store, a: nat, to: AppStatus, action: Action) {
    && a in s.apps && a in s'.apps
    && s'.apps == s.apps[a := s.apps[a].(status := to, pitch := s'.apps[a].pitch)]
    && s'.subs == s.subs && s'.nextSub == s.nextSub && s'.tasks == s.tasks && s'.nextTask == s.nextTask
    && LogsOne(s, s', s.apps[a].task, s.apps[a].contributor, action)
  }

  ghost predicate LogsOne(s: Store, s': Store, t: nat, c: nat, action: Action) {
    && |s'.history| == |s.history| + 1 && s'.history == s.history + [s'.history[|s.history|]]
    && var e := s'.history[|s.history|];
       e.task == t && e.subject == Some(c) && e.action == action
  }

  lemma GoTells(s: Store, s': Store, a: nat, to: AppStatus, action: Action)
    requires Goes(s, s', a, to, action) && !IsTaskLevel(action)
    requires Follow(TrailOf(s, a), action) == At(to, Versions(s, a), LatestStatus(s, a))
    ensures Tells(s, s', a, s'.history[|s.history|])
  {
  }

  /** A move of an application that leaves the submissions alone. */
  lemma MoveTells(s: Store, s': Store, a: nat, to: AppStatus, action: Action)
    requires Audit(s) && RefsOk(s) && OneApp(s) && Goes(s, s', a, to, action) && !IsTaskLevel(action)
    requires Follow(TrailOf(s, a), action) == At(to, Versions(s, a), LatestStatus(s, a))
    ensures Audit(s')
  {
    GoTells(s, s', a, to, action);
    TellKeeps(s, s', a, s'.history[|s.history|]);
  }

  lemma AssignTells(s: Store, a: nat, admin: nat)
    requires Audit(s) && RefsOk(s) && OneApp(s) && a in s.apps && s.apps[a].status == AppStatus.Applied
    ensures Audit(AssignEffect(s, a, s.apps[a], admin))
  {
    MoveTells(s, AssignEffect(s, a, s.apps[a], admin), a, AppStatus.Assigned, WasAssigned);
  }

  lemma DeclineTells(s: Store, a: nat, admin: nat)
    requires Audit(s) && RefsOk(s) && OneApp(s) && a in s.apps && s.apps[a].status == AppStatus.Applied
    ensures Audit(DeclineEffect(s, a, s.apps[a], admin))
  {
    MoveTells(s, DeclineEffect(s, a, s.apps[a], admin), a, AppStatus.Declined, WasDeclined);
  }

  lemma UnassignTells(s: Store, a: nat, admin: nat, reason: string)
    requires Audit(s) && RefsOk(s) && OneApp(s) && a in s.apps
    requires s.apps[a].status == AppStatus.Assigned && !LatestIs(s, a, SubStatus.Submitted)
    ensures Audit(UnassignEffect(s, a, s.apps[a], admin, reason))
  {
    MoveTells(s, UnassignEffect(s, a, s.apps[a], admin, reason), a, AppStatus.Applied, WasUnassigned);
  }

  lemma WithdrawTells(s: Store, a: nat)
    requires Audit(s) && RefsOk(s) && OneApp(s) && a in s.apps && s.apps[a].status in {AppStatus.Applied, AppStatus.Assigned}
    requires s.apps[a].status == AppStatus.Assigned ==> !LatestIs(s, a, SubStatus.Submitted)
    ensures Audit(WithdrawEffect(s, a, s.apps[a]))
  {
    MoveTells(s, WithdrawEffect(s, a, s.apps[a]), a, AppStatus.Withdrawn, Withdrew);
  }

  lemma ReapplyTells(s: Store, t: nat, c: nat, pitch: Option<string>, a: nat)
    requires Audit(s) && RefsOk(s) && OneApp(s) && a in s.apps && s.apps[a].task == t && s.apps[a].contributor == c
    requires s.apps[a].status in {AppStatus.Declined, AppStatus.Withdrawn}
    ensures Audit(ApplyEffect(s, t, c, pitch, Some(a)))
  {
    MoveTells(s, ApplyEffect(s, t, c, pitch, Some(a)), a, AppStatus.Applied, AppliedFor);
  }

  // ---- A first application ----

  lemma OpenTells(s: Store, s': Store, t: nat, c: nat, pitch: Option<string>)
    requires Audit(s) && RefsOk(s) && Opens(s, s', t, c, pitch) && LogsOne(s, s', t, c, AppliedFor)
    requires !HasApp(s, t, c) && t in s.tasks
    ensures Audit(s')
  {
    var e := s'.history[|s.history|];
    forall a | a in s'.apps ensures AppTold(s', a) {
      OpenTellsApp(s, s', t, c, pitch, a);
    }
    forall u: nat, d: nat | !HasApp(s', u, d) ensures Replay(s'.history, u, d) == Nothing {
      HasAppAfterOpen(s, s', t, c, pitch, u, d);
      ReplayAdd(s.history, e, u, d);
    }
    forall u: nat ensures TaskTold(s', u) {
      assert TaskTold(s, u);
      ReplayAdd(s.history, e, u, 0);
    }
  }

  lemma OpenTellsApp(s: Store, s': Store, t: nat, c: nat, pitch: Option<string>, a: nat)
    requires Audit(s) && RefsOk(s) && Opens(s, s', t, c, pitch) && LogsOne(s, s', t, c, AppliedFor)
    requires !HasApp(s, t, c) && a in s'.apps
    ensures AppTold(s', a)
  {
    ReplayAdd(s.history, s'.history[|s.history|], s'.apps[a].task, s'.apps[a].contributor);
    if a == s.nextApp {
      assert Replay(s.history, t, c) == Nothing;
      assert Latest(s', a) == Latest(s, a) == None;
    } else {
      assert AppTold(s, a);
      assert !(s.apps[a].task == t && s.apps[a].contributor == c);
      assert TrailOf(s', a) == TrailOf(s, a);
    }
  }

  lemma HasAppAfterOpen(s: Store, s': Store, t: nat, c: nat, pitch: Option<string>, u: nat, d: nat)
    requires RefsOk(s) && Opens(s, s', t, c, pitch) && !HasApp(s', u, d)
    ensures !HasApp(s, u, d) && !(u == t && d == c)
  {
    HasAppGrows(s, s', t, c, pitch, u, d);
  }

  lemma HasAppGrows(s: Store, s': Store, t: nat, c: nat, pitch: Option<string>, u: nat, d: nat)
    requires RefsOk(s) && Opens(s, s', t, c, pitch)
    ensures HasApp(s, u, d) ==> HasApp(s', u, d)
    ensures HasApp(s', t, c)
  {
    if HasApp(s, u, d) {
      var a :| a in s.apps && s.apps[a].task == u && s.apps[a].contributor == d;
      assert a in s'.apps && s'.apps[a].task == u && s'.apps[a].contributor == d;
    }
    assert s.nextApp in s'.apps;
  }

  // ---- Submitting ----

  ghost predicate SubsFit(s: Store) {
    VersionsOk(s) && forall i | i in s.subs :: i < s.nextSub
  }

  /** The latest submission of an application none of whose submissions changed. */
  lemma LatestStays(s: Store, s': Store, b: nat)
    requires SubsFit(s) && SubsFit(s')
    requires forall i | i in s.subs && s.subs[i].app == b :: i in s'.subs && s'.subs[i].app == b && s'.subs[i].version == s.subs[i].version
    requires forall i | i in s'.subs && s'.subs[i].app == b :: i in s.subs && s.subs[i].app == b
    ensures Latest(s', b) == Latest(s, b)
  {
    LatestMeans(s, b);
    LatestMeans(s', b);
    if Latest(s, b).Some? {
      assert IsLatest(s', Latest(s, b).value);
    }
  }

  lemma SubmitTrailElsewhere(s: Store, s': Store, a: nat, b: nat)
    requires SubsFit(s) && SubsFit(s') && Adds(s, s', a, NextVersion(s, a)) && b in s.apps && b != a
    ensures TrailOf(s', b) == TrailOf(s, b)
  {
    LatestStays(s, s', b);
  }

  lemma SubmitTrail(s: Store, s': Store, a: nat)
    requires SubsFit(s) && SubsFit(s') && Adds(s, s', a, NextVersion(s, a)) && a in s.apps
    ensures TrailOf(s', a) == At(s.apps[a].status, Versions(s, a) + 1, Some(SubStatus.Submitted))
  {
    assert IsLatest(s', s.nextSub) by {
      LatestMeans(s, a);
    }
    LatestMeans(s', a);
  }

  lemma SubmitTrails(s: Store, s': Store, a: nat)
    requires SubsFit(s) && SubsFit(s') && a in s.apps && Adds(s, s', a, NextVersion(s, a))
    ensures forall b | b in s.apps && b != a :: TrailOf(s', b) == TrailOf(s, b)
    ensures TrailOf(s', a) == At(s.apps[a].status, Versions(s, a) + 1, Some(SubStatus.Submitted))
  {
    forall b | b in s.apps && b != a ensures TrailOf(s', b) == TrailOf(s, b) {
      SubmitTrailElsewhere(s, s', a, b);
    }
    SubmitTrail(s, s', a);
  }

  lemma SubmitTells(s: Store, a: nat)
    requires Audit(s) && Inv(s) && a in s.apps && s.apps[a].status == AppStatus.Assigned && !LatestIs(s, a, SubStatus.Submitted)
    ensures Audit(SubmitEffect(s, a, s.apps[a], NextVersion(s, a)))
  {
    var s' := SubmitEffect(s, a, s.apps[a], NextVersion(s, a));
    SubmitKeeps(s, a);
    SubmitAdds(s, a);
    SubmitTrails(s, s', a);
    AddTells(s, s', a);
  }

  lemma AddTells(s: Store, s': Store, a: nat)
    requires Audit(s) && RefsOk(s) && OneApp(s) && a in s.apps && Adds(s, s', a, NextVersion(s, a))
    requires s.apps[a].status == AppStatus.Assigned && !LatestIs(s, a, SubStatus.Submitted)
    requires LogsOne(s, s', s.apps[a].task, s.apps[a].contributor, SentWork)
    requires forall b | b in s.apps && b != a :: TrailOf(s', b) == TrailOf(s, b)
    requires TrailOf(s', a) == At(s.apps[a].status, Versions(s, a) + 1, Some(SubStatus.Submitted))
    ensures Audit(s')
  {
    TellKeeps(s, s', a, s'.history[|s.history|]);
  }

  // ---- Reviewing ----

  /** The store between a review's two entries: the submission decided and logged,
      the application not yet moved. */
  function Decided(s: Store, i: nat, app: Application, reviewer: nat, decision: Decision, note: Option<string>): Store
    requires i in s.subs
  {
    AddHistory(SetReview(s, i, DecisionStatus(decision)), app.task, Reviewed(decision), Some(reviewer), note, Some(app.contributor))
  }

  /** Nothing but the status of one submission differs. */
  ghost predicate Judges(s: Store, s1: Store, i: nat, status: SubStatus) {
    i in s.subs && s1.subs == s.subs[i := s.subs[i].(status := status)] && s1.nextSub == s.nextSub && s1.apps == s.apps
  }

  lemma JudgedLatest(s: Store, s1: Store, i: nat, status: SubStatus, b: nat)
    requires SubsFit(s) && Judges(s, s1, i, status)
    ensures Latest(s1, b) == Latest(s, b)
  {
    DecidedVersions(s, s1, i, status);
    LatestStays(s, s1, b);
  }

  ghost predicate JudgedTrails(s: Store, s1: Store, a: nat, was: SubStatus, status: SubStatus) {
    && s1.apps == s.apps
    && (forall b | b in s.apps && b != a :: TrailOf(s1, b) == TrailOf(s, b))
    && (a in s.apps ==>
          && TrailOf(s, a) == At(s.apps[a].status, Versions(s, a), Some(was))
          && TrailOf(s1, a) == At(s.apps[a].status, Versions(s, a), Some(status)))
  }

  lemma DecidedTrails(s: Store, s1: Store, i: nat, status: SubStatus)
    requires SubsFit(s) && IsLatest(s, i) && Judges(s, s1, i, status)
    ensures JudgedTrails(s, s1, s.subs[i].app, s.subs[i].status, status)
  {
    forall b | b in s.apps && b != s.subs[i].app ensures TrailOf(s1, b) == TrailOf(s, b) {
      JudgedLatest(s, s1, i, status, b);
    }
    JudgedLatest(s, s1, i, status, s.subs[i].app);
    LatestMeans(s, s.subs[i].app);
  }

  lemma DecidedVersions(s: Store, s1: Store, i: nat, status: SubStatus)
    requires VersionsOk(s) && i in s.subs && s1.subs == s.subs[i := s.subs[i].(status := status)]
    ensures VersionsOk(s1)
  {
    forall j, v: nat | j in s1.subs && 1 <= v < s1.subs[j].version ensures HasVersion(s1, s1.subs[j].app, v) {
      assert HasVersion(s, s.subs[j].app, v);
      var k :| k in s.subs && s.subs[k].app == s.subs[j].app && s.subs[k].version == v;
      assert k in s1.subs && s1.subs[k].app == s1.subs[j].app && s1.subs[k].version == v;
    }
  }

  lemma JudgeTells(s: Store, s1: Store, a: nat, decision: Decision)
    requires Audit(s) && OneApp(s) && a in s.apps && s.apps[a].task in s.tasks && s.apps[a].task < s.nextTask
    requires s.apps[a].status == AppStatus.Assigned
    requires JudgedTrails(s, s1, a, SubStatus.Submitted, DecisionStatus(decision))
    requires s1.tasks == s.tasks && s1.nextTask == s.nextTask
    requires LogsOne(s, s1, s.apps[a].task, s.apps[a].contributor, Reviewed(decision))
    ensures Audit(s1)
  {
    TellKeeps(s, s1, a, s1.history[|s.history|]);
  }

  lemma DecidedTells(s: Store, i: nat, reviewer: nat, decision: Decision, note: Option<string>)
    requires Audit(s) && Inv(s) && i in s.subs && s.subs[i].status == SubStatus.Submitted && s.subs[i].app in s.apps
    ensures Audit(Decided(s, i, s.apps[s.subs[i].app], reviewer, decision, note))
  {
    ReviewLandsOnAssigned(s, i);
    DecidedTrails(s, Decided(s, i, s.apps[s.subs[i].app], reviewer, decision, note), i, DecisionStatus(decision));
    JudgeTells(s, Decided(s, i, s.apps[s.subs[i].app], reviewer, decision, note), s.subs[i].app, decision);
  }

  lemma ReviewTells(s: Store, i: nat, reviewer: nat, decision: Decision, note: Option<string>)
    requires Audit(s) && Inv(s) && i in s.subs && s.subs[i].status == SubStatus.Submitted && s.subs[i].app in s.apps
    ensures var a := s.subs[i].app;
            Audit(ReviewEffect(s, i, a, s.apps[a], RewardOf(s, s.apps[a].task), reviewer, decision, note))
  {
    DecidedTells(s, i, reviewer, decision, note);
    if decision != Revise {
      DecidedFits(s, i, reviewer, decision, note);
      ClosingTells(s, Decided(s, i, s.apps[s.subs[i].app], reviewer, decision, note), i, reviewer, decision, note);
    }
  }

  lemma DecidedFits(s: Store, i: nat, reviewer: nat, decision: Decision, note: Option<string>)
    requires Inv(s) && i in s.subs && s.subs[i].status == SubStatus.Submitted && s.subs[i].app in s.apps
    ensures var s1 := Decided(s, i, s.apps[s.subs[i].app], reviewer, decision, note);
            && RefsOk(s1) && OneApp(s1) && s.apps[s.subs[i].app].status == AppStatus.Assigned
            && JudgedTrails(s, s1, s.subs[i].app, SubStatus.Submitted, DecisionStatus(decision))
  {
    var s1 := Decided(s, i, s.apps[s.subs[i].app], reviewer, decision, note);
    ReviewLandsOnAssigned(s, i);
    JudgedRefs(s, s1, i, DecisionStatus(decision));
    DecidedTrails(s, s1, i, DecisionStatus(decision));
  }

  lemma JudgedRefs(s: Store, s1: Store, i: nat, status: SubStatus)
    requires RefsOk(s) && OneApp(s) && i in s.subs
    requires s1 == s.(subs := s.subs[i := s.subs[i].(status := status)], history := s1.history)
    ensures RefsOk(s1) && OneApp(s1)
  {
  }

  lemma ClosingTells(s: Store, s1: Store, i: nat, reviewer: nat, decision: Decision, note: Option<string>)
    requires i in s.subs && s.subs[i].app in s.apps && decision != Revise
    requires s1 == Decided(s, i, s.apps[s.subs[i].app], reviewer, decision, note) && Audit(s1) && RefsOk(s1) && OneApp(s1)
    requires JudgedTrails(s, s1, s.subs[i].app, SubStatus.Submitted, DecisionStatus(decision))
    requires s.apps[s.subs[i].app].status == AppStatus.Assigned
    ensures var a := s.subs[i].app;
            Audit(ReviewEffect(s, i, a, s.apps[a], RewardOf(s, s.apps[a].task), reviewer, decision, note))
  {
    var a := s.subs[i].app;
    ClosingGoes(s, s1, i, reviewer, decision, note);
    CloseTells(s, s1, ReviewEffect(s, i, a, s.apps[a], RewardOf(s, s.apps[a].task), reviewer, decision, note), a, decision);
  }

  lemma CloseTells(s: Store, s1: Store, s': Store, a: nat, decision: Decision)
    requires a in s.apps && s.apps[a].status == AppStatus.Assigned && decision != Revise
    requires Audit(s1) && RefsOk(s1) && OneApp(s1)
    requires JudgedTrails(s, s1, a, SubStatus.Submitted, DecisionStatus(decision))
    requires Goes(s1, s', a, ClosedAs(decision), ClosingAction(decision))
    ensures Audit(s')
  {
    MoveTells(s1, s', a, ClosedAs(decision), ClosingAction(decision));
  }

  function ClosedAs(decision: Decision): AppStatus {
    if decision == Approve then AppStatus.Completed else AppStatus.Rejected
  }

  function ClosingAction(decision: Decision): (action: Action)
    ensures !IsTaskLevel(action)
  {
    if decision == Approve then WasCompleted else WasRejected
  }

  lemma ClosingGoes(s: Store, s1: Store, i: nat, reviewer: nat, decision: Decision, note: Option<string>)
    requires i in s.subs && s.subs[i].app in s.apps && decision != Revise
    requires s1 == Decided(s, i, s.apps[s.subs[i].app], reviewer, decision, note)
    ensures var a := s.subs[i].app;
            var s' := ReviewEffect(s, i, a, s.apps[a], RewardOf(s, s.apps[a].task), reviewer, decision, note);
            Goes(s1, s', a, ClosedAs(decision), ClosingAction(decision))
  {
  }

  // ---- Tasks ----

  ghost predicate SameTrails(s: Store, s': Store) {
    s'.apps == s.apps && s'.subs == s.subs && s'.nextSub == s.nextSub
  }

  /** One entry about a task itself. */
  lemma TaskEntryTells(s: Store, s': Store, e: Entry)
    requires Audit(s) && SameTrails(s, s') && s'.history == s.history + [e] && e.subject.None?
    requires e.task < s'.nextTask && s.nextTask <= s'.nextTask
    requires forall u: nat | u != e.task :: (u in s'.tasks <==> u in s.tasks) && (u in s.tasks ==> s'.tasks[u].status == s.tasks[u].status)
    requires e.task in s'.tasks && FollowTask(ReplayTask(s.history, e.task), e.action) == Is(s'.tasks[e.task].status)
    ensures Audit(s')
  {
    forall a | a in s'.apps ensures AppTold(s', a) {
      assert AppTold(s, a);
      ReplayAdd(s.history, e, s.apps[a].task, s.apps[a].contributor);
    }
    forall t: nat, c: nat | !HasApp(s', t, c) ensures Replay(s'.history, t, c) == Nothing {
      ReplayAdd(s.history, e, t, c);
    }
    forall u: nat ensures TaskTold(s', u) {
      assert TaskTold(s, u);
      ReplayAdd(s.history, e, u, 0);
    }
  }

  lemma CreateTaskTells(s: Store, max: int, reward: Option<string>, createdBy: Option<nat>)
    requires Audit(s) && RefsOk(s) && CreateTask(s, max, reward, createdBy).Ok?
    ensures Audit(CreateTask(s, max, reward, createdBy).value)
  {
    assert TaskTold(s, s.nextTask);
    TaskEntryTells(s, CreateTask(s, max, reward, createdBy).value, Entry(s.nextTask, Created, createdBy, None, None));
  }

  lemma MoveTaskTells(s: Store, t: nat, to: TaskStatus, action: Action, admin: nat)
    requires Audit(s) && RefsOk(s) && t in s.tasks && FollowTask(Is(s.tasks[t].status), action) == Is(to)
    ensures Audit(MoveTask(s, t, to, action, admin))
  {
    assert TaskTold(s, t);
    TaskEntryTells(s, MoveTask(s, t, to, action, admin), Entry(t, action, Some(admin), None, None));
  }

  lemma {:induction false} ReplayWithout(history: seq<Entry>, t: nat, u: nat, c: nat)
    ensures Replay(WithoutTask(history, t), u, c) == if u == t then Nothing else Replay(history, u, c)
    ensures ReplayTask(WithoutTask(history, t), u) == if u == t then NoTask else ReplayTask(history, u)
  {
    if history != [] {
      var rest := history[..|history| - 1];
      ReplayWithout(rest, t, u, c);
      ReplayAdd(WithoutTask(rest, t), history[|history| - 1], u, c);
    }
  }

  lemma DropDraftTells(s: Store, t: nat)
    requires Audit(s) && RefsOk(s) && t in s.tasks && s.tasks[t].status == TaskStatus.Draft
    ensures Audit(DropDraft(s, t))
  {
    var s' := DropDraft(s, t);
    forall a | a in s'.apps ensures AppTold(s', a) {
      assert AppTold(s, a);
      ReplayWithout(s.history, t, s.apps[a].task, s.apps[a].contributor);
    }
    forall u: nat, c: nat | !HasApp(s', u, c) ensures Replay(s'.history, u, c) == Nothing {
      ReplayWithout(s.history, t, u, c);
    }
    forall u: nat ensures TaskTold(s', u) {
      assert TaskTold(s, u);
      ReplayWithout(s.history, t, u, 0);
    }
  }

  /** Registering and money leave the log and what it is about alone. */
  lemma QuietTells(s: Store, s': Store)
    requires Audit(s) && SameTrails(s, s') && s'.history == s.history && s'.tasks == s.tasks && s'.nextTask == s.nextTask
    ensures Audit(s')
  {
    forall a | a in s'.apps ensures AppTold(s', a) {
      assert AppTold(s, a);
    }
    forall u: nat ensures TaskTold(s', u) {
      assert TaskTold(s, u);
    }
  }

  // ---- Erasure ----

  lemma EraseDrops(history: seq<Entry>, c: nat)
    requires history != []
    ensures EraseActor(history, c)[..|history| - 1] == EraseActor(history[..|history| - 1], c)
  {
  }

  /** Erasure takes nothing out of anybody else's trail, and all of the erased one's. */
  lemma {:induction false} ReplayErased(history: seq<Entry>, c: nat, t: nat, d: nat)
    ensures Replay(EraseActor(history, c), t, d) == if d == c then Nothing else Replay(history, t, d)
    ensures ReplayTask(EraseActor(history, c), t) == ReplayTask(history, t)
  {
    if history != [] {
      EraseDrops(history, c);
      ReplayErased(history[..|history| - 1], c, t, d);
    }
  }

  lemma {:induction false} ReplayForgotten(history: seq<Entry>, more: seq<Entry>, t: nat, d: nat)
    requires forall e | e in more :: e.action == ContributorForgotten && e.subject.None?
    requires (exists e :: e in more && e.task == t) ==> ReplayTask(history, t).Is?
    ensures Replay(history + more, t, d) == Replay(history, t, d)
    ensures ReplayTask(history + more, t) == ReplayTask(history, t)
    decreases |more|
  {
    if more == [] {
      assert history + more == history;
    } else {
      var rest := more[..|more| - 1];
      ReplayForgotten(history, rest, t, d);
      ReplayAdd(history + rest, more[|more| - 1], t, d);
      assert history + more == history + rest + [more[|more| - 1]];
      assert more[|more| - 1] in more;
    }
  }

  lemma EraseReplays(s: Store, c: nat, admin: nat, t: nat, d: nat)
    requires Audit(s) && RefsOk(s)
    ensures Replay(EraseEffect(s, c, admin).history, t, d) == if d == c then Nothing else Replay(s.history, t, d)
    ensures ReplayTask(EraseEffect(s, c, admin).history, t) == ReplayTask(s.history, t)
  {
    var more := ForgottenEntries(s, c, admin, s.nextApp);
    assert TaskTold(s, t);
    ReplayForgotten(s.history, more, t, d);
    ReplayErased(s.history + more, c, t, d);
  }

  lemma EraseTells(s: Store, c: nat, admin: nat)
    requires Audit(s) && Inv(s)
    ensures Audit(EraseEffect(s, c, admin))
  {
    var s' := EraseEffect(s, c, admin);
    EraseErases(s, c, admin);
    EraseKeeps(s, c, admin);
    forall a | a in s'.apps ensures AppTold(s', a) {
      EraseTellsApp(s, c, admin, a);
    }
    forall t: nat, d: nat | !HasApp(s', t, d) ensures Replay(s'.history, t, d) == Nothing {
      EraseReplays(s, c, admin, t, d);
      if d != c {
        StillHasApp(s, s', c, t, d);
      }
    }
    forall t: nat ensures TaskTold(s', t) {
      assert TaskTold(s, t);
      EraseReplays(s, c, admin, t, 0);
    }
    EraseEntriesFit(s, c, admin);
  }

  lemma EraseTellsApp(s: Store, c: nat, admin: nat, a: nat)
    requires Audit(s) && RefsOk(s) && SubsFit(s) && a in EraseEffect(s, c, admin).apps
    requires SubsFit(EraseEffect(s, c, admin))
    ensures AppTold(EraseEffect(s, c, admin), a)
  {
    EraseErases(s, c, admin);
    assert AppTold(s, a);
    EraseReplays(s, c, admin, s.apps[a].task, s.apps[a].contributor);
    LatestStays(s, EraseEffect(s, c, admin), a);
  }

  lemma ForgetTells(s: Store, c: nat, admin: nat, elsewhere: nat)
    requires Audit(s) && Inv(s) && Forget(s, c, admin, elsewhere).Ok?
    ensures Audit(Forget(s, c, admin, elsewhere).value)
  {
    if c in s.contributors {
      EraseTells(s, c, admin);
      assert Forget(s, c, admin, elsewhere).value == EraseEffect(s, c, admin);
    } else {
      assert Forget(s, c, admin, elsewhere).value == s;
    }
  }

  lemma StillHasApp(s: Store, s': Store, c: nat, t: nat, d: nat)
    requires Erases(s, s', c) && d != c
    ensures HasApp(s, t, d) ==> HasApp(s', t, d)
  {
    if HasApp(s, t, d) {
      var a :| a in s.apps && s.apps[a].task == t && s.apps[a].contributor == d;
      assert a in s'.apps;
    }
  }

  lemma EraseEntriesFit(s: Store, c: nat, admin: nat)
    requires Audit(s) && RefsOk(s)
    ensures forall e | e in EraseEffect(s, c, admin).history :: e.task < s.nextTask
  {
    var more := ForgottenEntries(s, c, admin, s.nextApp);
    forall e | e in EraseEffect(s, c, admin).history ensures e.task < s.nextTask {
      var k :| 0 <= k < |s.history + more| && e == EraseEntry((s.history + more)[k], c);
      if k < |s.history| {
        assert s.history[k] in s.history;
      } else {
        assert more[k - |s.history|] in more;
      }
    }
  }

  // ---- Every mutator ----

  lemma TaskOpTells(cap: nat, s: Store, op: Op)
    requires Audit(s) && RefsOk(s) && Perform(cap, s, op).Ok?
    requires op.OpCreate? || op.OpApprove? || op.OpDiscard? || op.OpClose? || op.OpReopen?
    ensures Audit(Perform(cap, s, op).value)
  {
    match op
    case OpCreate(max, reward, createdBy) => CreateTaskTells(s, max, reward, createdBy);
    case OpApprove(t, admin) => MoveTaskTells(s, t, TaskStatus.Open, TaskApproved, admin);
    case OpDiscard(t, _) => DropDraftTells(s, t);
    case OpClose(t, admin) => MoveTaskTells(s, t, TaskStatus.Closed, TaskClosed, admin);
    case OpReopen(t, admin) => MoveTaskTells(s, t, TaskStatus.Open, TaskReopened, admin);
  }

  lemma ApplyEffectTells(s: Store, t: nat, c: nat, pitch: Option<string>)
    requires Audit(s) && RefsOk(s) && OneApp(s) && t in s.tasks
    requires AppFor(s.apps, t, c, s.nextApp).Some? ==>
               s.apps[AppFor(s.apps, t, c, s.nextApp).value].status in {AppStatus.Declined, AppStatus.Withdrawn}
    ensures Audit(ApplyEffect(s, t, c, pitch, AppFor(s.apps, t, c, s.nextApp)))
  {
    var existing := AppFor(s.apps, t, c, s.nextApp);
    if existing.Some? {
      ReapplyTells(s, t, c, pitch, existing.value);
    } else {
      CreateOpens(s, t, c, pitch);
      OpenTells(s, ApplyEffect(s, t, c, pitch, None), t, c, pitch);
    }
  }

  lemma AppOpTells(cap: nat, s: Store, op: Op)
    requires Audit(s) && RefsOk(s) && OneApp(s) && Perform(cap, s, op).Ok?
    requires op.OpApply? || op.OpAssign? || op.OpDecline? || op.OpUnassign? || op.OpWithdraw?
    ensures Audit(Perform(cap, s, op).value)
  {
    match op
    case OpApply(t, c, pitch) =>
      ApplyAccepts(cap, s, t, c, pitch);
      ApplyEffectTells(s, t, c, pitch);
    case OpAssign(a, admin) => AssignTells(s, a, admin);
    case OpDecline(a, admin) => DeclineTells(s, a, admin);
    case OpUnassign(a, admin, reason) => UnassignTells(s, a, admin, reason);
    case OpWithdraw(a, _) => WithdrawTells(s, a);
  }

  lemma RegisterTells(s: Store, c: nat)
    requires Audit(s)
    ensures Audit(Register(s, c))
  {
    QuietTells(s, Register(s, c));
  }

  lemma MoneyTells(s: Store, p: nat, inFlight: bool)
    requires Audit(s) && p in s.payouts
    ensures Audit(Money(s, p, inFlight).value)
  {
    QuietTells(s, Money(s, p, inFlight).value);
  }

  /** Whatever a mutator does, its entries say. */
  lemma PerformTells(cap: nat, s: Store, op: Op)
    requires Audit(s) && Inv(s) && Perform(cap, s, op).Ok?
    ensures Audit(Perform(cap, s, op).value)
  {
    if op.OpCreate? || op.OpApprove? || op.OpDiscard? || op.OpClose? || op.OpReopen? {
      TaskOpTells(cap, s, op);
    } else if op.OpApply? || op.OpAssign? || op.OpDecline? || op.OpUnassign? || op.OpWithdraw? {
      AppOpTells(cap, s, op);
    } else if op.OpSubmit? {
      SubmitTells(s, op.app);
    } else if op.OpReview? {
      ReviewTells(s, op.sub, op.reviewer, op.decision, op.note);
    } else if op.OpForget? {
      ForgetTells(s, op.contributor, op.admin, op.elsewhere);
    } else if op.OpRegister? {
      RegisterTells(s, op.contributor);
    } else {
      MoneyTells(s, op.payout, op.inFlight);
    }
  }
}
