// The task workflow of src/core/service.ts as operations on its tables: the rows of
// src/core/models (task, application, submission, contributor, history, and of
// payout what the workflow needs), the three state machines of src/core/workflow.ts,
// and what every mutator does to the tables when it runs alone.
module Workflow {
  import opened Wrappers
  import opened Decimal

  datatype TaskStatus = Draft | Open | Closed

  datatype AppStatus = Applied | Assigned | Completed | Declined | Withdrawn | Rejected

  datatype SubStatus = Submitted | NeedsRevision | Approved | Rejected

  const MAX_ASSIGNEES: int := 100

  datatype Task = Task(max: int, reward: Option<string>, status: TaskStatus, createdBy: Option<nat>)

  datatype Application = Application(task: nat, contributor: nat, pitch: Option<string>, status: AppStatus)

  datatype Submission = Submission(app: nat, version: nat, status: SubStatus)

  datatype Contributor = Contributor(appliedCount: int, assignedCount: int, completedCount: int, rejectedCount: int)

  /** A payout row; `inFlight` when it is proposed or still carries a claim. */
  datatype Owed = Owed(task: nat, contributor: nat, submission: nat, reward: string, inFlight: bool)

  datatype Action =
    | Created | TaskApproved | TaskClosed | TaskReopened | ContributorForgotten
    | AppliedFor | WasAssigned | WasDeclined | WasUnassigned | Withdrew | SentWork
    | Reviewed(decision: Decision) | WasCompleted | WasRejected

  datatype Decision = Approve | Reject | Revise

  datatype Entry = Entry(task: nat, action: Action, actor: Option<nat>, subject: Option<nat>, detail: Option<string>)

  datatype Store = Store(
    tasks: map<nat, Task>,
    apps: map<nat, Application>,
    subs: map<nat, Submission>,
    contributors: map<nat, Contributor>,
    payouts: map<nat, Owed>,
    history: seq<Entry>,
    nextTask: nat,
    nextApp: nat,
    nextSub: nat,
    nextPayout: nat)

  const EMPTY: Store := Store(map[], map[], map[], map[], map[], [], 0, 0, 0, 0)

  datatype Refusal =
    | BadMaxAssignees | NotFound | NotYours | OnlyDrafts | WrongStatus | NotOpen | Full | AlreadyApplied
    | AlreadyCompleted | WorkWasRejected | TooManyPending | JustErased | JustChanged | NotAssigned
    | AwaitingReview | MoneyInFlight | NothingErased

  // ---- Queries ----

  /** The application of a contributor to a task, looked for below id `n`. */
  function AppFor(apps: map<nat, Application>, t: nat, c: nat, n: nat): (r: Option<nat>)
    ensures r.Some? ==> r.value < n && r.value in apps && apps[r.value].task == t && apps[r.value].contributor == c
    ensures r.None? ==> forall a: nat | a < n && a in apps :: !(apps[a].task == t && apps[a].contributor == c)
  {
    if n == 0 then None
    else if n - 1 in apps && apps[n - 1].task == t && apps[n - 1].contributor == c then Some(n - 1)
    else AppFor(apps, t, c, n - 1)
  }

  /** The submission of an application with the greatest version, below id `n`. */
  function LatestBelow(subs: map<nat, Submission>, a: nat, n: nat): (r: Option<nat>)
    ensures r.Some? ==> r.value < n && r.value in subs && subs[r.value].app == a
    ensures r.Some? ==> forall i: nat | i < n && i in subs && subs[i].app == a :: subs[i].version <= subs[r.value].version
    ensures r.None? ==> forall i: nat | i < n && i in subs :: subs[i].app != a
  {
    if n == 0 then None
    else
      var rest := LatestBelow(subs, a, n - 1);
      if n - 1 in subs && subs[n - 1].app == a && (rest.None? || subs[n - 1].version > subs[rest.value].version)
      then Some(n - 1) else rest
  }

  function Latest(s: Store, a: nat): Option<nat> {
    LatestBelow(s.subs, a, s.nextSub)
  }

  function NextVersion(s: Store, a: nat): nat {
    if Latest(s, a).Some? then s.subs[Latest(s, a).value].version + 1 else 1
  }

  predicate LatestIs(s: Store, a: nat, status: SubStatus) {
    Latest(s, a).Some? && s.subs[Latest(s, a).value].status == status
  }

  /** The applications that consume a slot of the task. */
  function SlotsTaken(s: Store, t: nat): set<nat> {
    set a | a in s.apps && s.apps[a].task == t && s.apps[a].status in {AppStatus.Assigned, AppStatus.Completed}
  }

  function AppsOf(s: Store, c: nat): set<nat> {
    set a | a in s.apps && s.apps[a].contributor == c
  }

  function AppsIn(s: Store, c: nat, status: AppStatus): set<nat> {
    set a | a in s.apps && s.apps[a].contributor == c && s.apps[a].status == status
  }

  // ---- Row writers ----

  function SetTask(s: Store, t: nat, status: TaskStatus): Store
    requires t in s.tasks
  {
    s.(tasks := s.tasks[t := s.tasks[t].(status := status)])
  }

  function SetApp(s: Store, a: nat, status: AppStatus): Store
    requires a in s.apps
  {
    s.(apps := s.apps[a := s.apps[a].(status := status)])
  }

  function Reapply(s: Store, a: nat, pitch: Option<string>): Store
    requires a in s.apps
  {
    s.(apps := s.apps[a := s.apps[a].(status := AppStatus.Applied, pitch := pitch)])
  }

  function CreateApp(s: Store, t: nat, c: nat, pitch: Option<string>): Store {
    s.(apps := s.apps[s.nextApp := Application(t, c, pitch, AppStatus.Applied)], nextApp := s.nextApp + 1)
  }

  /** The counters move by the deltas; a missing row moves nothing. */
  function Bump(s: Store, c: nat, dApplied: int, dAssigned: int, dCompleted: int, dRejected: int): Store {
    if c in s.contributors then
      var row := s.contributors[c];
      s.(contributors := s.contributors[c := Contributor(row.appliedCount + dApplied, row.assignedCount + dAssigned,
                                                         row.completedCount + dCompleted, row.rejectedCount + dRejected)])
    else s
  }

  function AddHistory(s: Store, task: nat, action: Action, actor: Option<nat>, detail: Option<string>, subject: Option<nat>): Store {
    s.(history := s.history + [Entry(task, action, actor, subject, detail)])
  }

  function CreateSub(s: Store, a: nat, version: nat): Store {
    s.(subs := s.subs[s.nextSub := Submission(a, version, SubStatus.Submitted)], nextSub := s.nextSub + 1)
  }

  function SetReview(s: Store, i: nat, status: SubStatus): Store
    requires i in s.subs
  {
    s.(subs := s.subs[i := s.subs[i].(status := status)])
  }

  /** One payout per submission: a second insert does nothing. */
  function CreatePayout(s: Store, t: nat, c: nat, i: nat, reward: string): Store {
    if exists p :: p in s.payouts && s.payouts[p].submission == i then s
    else s.(payouts := s.payouts[s.nextPayout := Owed(t, c, i, reward, false)], nextPayout := s.nextPayout + 1)
  }

  /** "contributor <id>" or "contributor <id>: <reason>". */
  function ContributorDetail(c: nat, reason: Option<string>): string {
    var named := "contributor " + Digits(c);
    if reason.Some? && reason.value != "" then named + ": " + reason.value else named
  }

  predicate StartsWith(s: string, prefix: string) {
    |prefix| <= |s| && s[..|prefix|] == prefix
  }

  /** What the erasure's pattern over details selects. */
  predicate DetailNames(detail: string, c: nat) {
    detail == "contributor " + Digits(c) || StartsWith(detail, "contributor " + Digits(c) + ":")
  }

  const ERASED_DETAIL := "(contributor erased)"

  function EraseEntry(e: Entry, c: nat): Entry {
    var unlinked := if e.actor == Some(c) then e.(actor := None, detail := None) else e;
    var unnamed := if unlinked.subject == Some(c) then unlinked.(subject := None) else unlinked;
    if unnamed.detail.Some? && DetailNames(unnamed.detail.value, c) then unnamed.(detail := Some(ERASED_DETAIL)) else unnamed
  }

  function EraseActor(history: seq<Entry>, c: nat): (r: seq<Entry>)
    ensures |r| == |history| && forall i | 0 <= i < |r| :: r[i] == EraseEntry(history[i], c)
  {
    seq(|history|, i requires 0 <= i < |history| => EraseEntry(history[i], c))
  }

  function WithoutTask(history: seq<Entry>, t: nat): (r: seq<Entry>)
    ensures forall e | e in r :: e in history && e.task != t
  {
    if history == [] then []
    else if history[|history| - 1].task == t then WithoutTask(history[..|history| - 1], t)
    else WithoutTask(history[..|history| - 1], t) + [history[|history| - 1]]
  }

  // ---- Tasks ----

  function CreateTask(s: Store, max: int, reward: Option<string>, createdBy: Option<nat>): Result<Store, Refusal> {
    if !(1 <= max <= MAX_ASSIGNEES) then Err(BadMaxAssignees)
    else
      var s1 := s.(tasks := s.tasks[s.nextTask := Task(max, reward, TaskStatus.Draft, createdBy)], nextTask := s.nextTask + 1);
      Ok(AddHistory(s1, s.nextTask, Created, createdBy, None, None))
  }

  function TaskRefusal(task: Option<Task>, from: TaskStatus, otherwise: Refusal): Option<Refusal> {
    if task.None? then Some(NotFound) else if task.value.status != from then Some(otherwise) else None
  }

  function TaskRow(s: Store, t: nat): Option<Task> {
    if t in s.tasks then Some(s.tasks[t]) else None
  }

  function MoveTask(s: Store, t: nat, to: TaskStatus, action: Action, admin: nat): Store
    requires t in s.tasks
  {
    AddHistory(SetTask(s, t, to), t, action, Some(admin), None, None)
  }

  function DropDraft(s: Store, t: nat): Store {
    s.(tasks := s.tasks - {t}, history := WithoutTask(s.history, t))
  }

  // ---- Applications ----

  function ApplyRefusal(cap: nat, task: Task, slotsTaken: nat, existing: Option<Application>, pending: nat): Option<Refusal> {
    if task.status != TaskStatus.Open then Some(NotOpen)
    else if slotsTaken >= task.max then Some(Full)
    else if existing.Some? && existing.value.status in {AppStatus.Applied, AppStatus.Assigned} then Some(AlreadyApplied)
    else if existing.Some? && existing.value.status == AppStatus.Completed then Some(AlreadyCompleted)
    else if existing.Some? && existing.value.status == AppStatus.Rejected then Some(WorkWasRejected)
    else if pending >= cap then Some(TooManyPending)
    else None
  }

  function AppRow(s: Store, a: Option<nat>): Option<Application> {
    if a.Some? && a.value in s.apps then Some(s.apps[a.value]) else None
  }

  function ApplyEffect(s: Store, t: nat, c: nat, pitch: Option<string>, existing: Option<nat>): Store
    requires existing.Some? ==> existing.value in s.apps
  {
    var s1 := if existing.Some? then Reapply(s, existing.value, pitch)
              else Bump(CreateApp(s, t, c, pitch), c, 1, 0, 0, 0);
    AddHistory(s1, t, AppliedFor, Some(c), pitch, Some(c))
  }

  function Apply(cap: nat, s: Store, t: nat, c: nat, pitch: Option<string>): Result<Store, Refusal> {
    if t !in s.tasks then Err(NotFound)
    else if c !in s.contributors then Err(JustErased)
    else
      var existing := AppFor(s.apps, t, c, s.nextApp);
      var no := ApplyRefusal(cap, s.tasks[t], |SlotsTaken(s, t)|, AppRow(s, existing), |AppsIn(s, c, AppStatus.Applied)|);
      if no.Some? then Err(no.value) else Ok(ApplyEffect(s, t, c, pitch, existing))
  }

  /** `app` is the row as the mutator read it under its lock. */
  function AssignEffect(s: Store, a: nat, app: Application, admin: nat): Store
    requires a in s.apps
  {
    var s1 := Bump(SetApp(s, a, AppStatus.Assigned), app.contributor, 0, 1, 0, 0);
    AddHistory(s1, app.task, WasAssigned, Some(admin), Some(ContributorDetail(app.contributor, None)), Some(app.contributor))
  }

  function AssignRefusal(task: Option<Task>, slotsTaken: nat): Option<Refusal> {
    if task.None? then Some(NotFound)
    else if task.value.status != TaskStatus.Open then Some(NotOpen)
    else if slotsTaken >= task.value.max then Some(Full)
    else None
  }

  function Assign(s: Store, a: nat, admin: nat): Result<Store, Refusal> {
    if a !in s.apps then Err(NotFound)
    else if s.apps[a].status != AppStatus.Applied then Err(WrongStatus)
    else
      var no := AssignRefusal(TaskRow(s, s.apps[a].task), |SlotsTaken(s, s.apps[a].task)|);
      if no.Some? then Err(no.value) else Ok(AssignEffect(s, a, s.apps[a], admin))
  }

  function DeclineEffect(s: Store, a: nat, app: Application, admin: nat): Store
    requires a in s.apps
  {
    AddHistory(SetApp(s, a, AppStatus.Declined), app.task, WasDeclined, Some(admin),
               Some(ContributorDetail(app.contributor, None)), Some(app.contributor))
  }

  function Decline(s: Store, a: nat, admin: nat): Result<Store, Refusal> {
    if a !in s.apps then Err(NotFound)
    else if s.apps[a].status != AppStatus.Applied then Err(WrongStatus)
    else Ok(DeclineEffect(s, a, s.apps[a], admin))
  }

  function UnassignEffect(s: Store, a: nat, app: Application, admin: nat, reason: string): Store
    requires a in s.apps
  {
    var s1 := Bump(SetApp(s, a, AppStatus.Applied), app.contributor, 0, -1, 0, 0);
    AddHistory(s1, app.task, WasUnassigned, Some(admin), Some(ContributorDetail(app.contributor, Some(reason))), Some(app.contributor))
  }

  function Unassign(s: Store, a: nat, admin: nat, reason: string): Result<Store, Refusal> {
    if a !in s.apps then Err(NotFound)
    else if s.apps[a].status != AppStatus.Assigned then Err(NotAssigned)
    else if LatestIs(s, a, SubStatus.Submitted) then Err(AwaitingReview)
    else Ok(UnassignEffect(s, a, s.apps[a], admin, reason))
  }

  function WithdrawEffect(s: Store, a: nat, app: Application): Store
    requires a in s.apps
  {
    var s1 := if app.status == AppStatus.Assigned then Bump(s, app.contributor, 0, -1, 0, 0) else s;
    AddHistory(SetApp(s1, a, AppStatus.Withdrawn), app.task, Withdrew, Some(app.contributor), None, Some(app.contributor))
  }

  function Withdraw(s: Store, a: nat, c: nat): Result<Store, Refusal> {
    if a !in s.apps || s.apps[a].contributor != c then Err(NotYours)
    else if s.apps[a].status !in {AppStatus.Applied, AppStatus.Assigned} then Err(WrongStatus)
    else if s.apps[a].status == AppStatus.Assigned && LatestIs(s, a, SubStatus.Submitted) then Err(AwaitingReview)
    else Ok(WithdrawEffect(s, a, s.apps[a]))
  }

  // ---- Submissions ----

  function SubmitEffect(s: Store, a: nat, app: Application, version: nat): Store {
    AddHistory(CreateSub(s, a, version), app.task, SentWork, Some(app.contributor), Some("v" + Digits(version)), Some(app.contributor))
  }

  function Submit(s: Store, a: nat, c: nat): Result<Store, Refusal> {
    if a !in s.apps || s.apps[a].contributor != c then Err(NotYours)
    else if s.apps[a].status != AppStatus.Assigned then Err(NotAssigned)
    else if LatestIs(s, a, SubStatus.Submitted) then Err(AwaitingReview)
    else Ok(SubmitEffect(s, a, s.apps[a], NextVersion(s, a)))
  }

  function DecisionStatus(decision: Decision): SubStatus {
    match decision
    case Approve => SubStatus.Approved
    case Reject => SubStatus.Rejected
    case Revise => SubStatus.NeedsRevision
  }

  /** `reward` is the task's as read; nothing is owed for none or an empty one. */
  function ReviewEffect(s: Store, i: nat, a: nat, app: Application, reward: Option<string>, reviewer: nat, decision: Decision, note: Option<string>): Store
    requires i in s.subs && a in s.apps
  {
    var s1 := AddHistory(SetReview(s, i, DecisionStatus(decision)), app.task, Reviewed(decision), Some(reviewer), note, Some(app.contributor));
    match decision
    case Revise => s1
    case Approve =>
      var s2 := SetApp(Bump(s1, app.contributor, 0, -1, 1, 0), a, AppStatus.Completed);
      var s3 := AddHistory(s2, app.task, WasCompleted, Some(reviewer), Some(ContributorDetail(app.contributor, None)), Some(app.contributor));
      if reward.Some? && reward.value != "" then CreatePayout(s3, app.task, app.contributor, i, reward.value) else s3
    case Reject =>
      var s2 := SetApp(Bump(s1, app.contributor, 0, -1, 0, 1), a, AppStatus.Rejected);
      var reason := if note.Some? then note.value else "submission rejected";
      AddHistory(s2, app.task, WasRejected, Some(reviewer), Some(ContributorDetail(app.contributor, Some(reason))), Some(app.contributor))
  }

  function RewardOf(s: Store, t: nat): Option<string> {
    if t in s.tasks then s.tasks[t].reward else None
  }

  /** The code checks the submission's status and never the application's. */
  function Review(s: Store, i: nat, reviewer: nat, decision: Decision, note: Option<string>): Result<Store, Refusal> {
    if i !in s.subs || s.subs[i].app !in s.apps then Err(NotFound)
    else if s.subs[i].status != SubStatus.Submitted then Err(WrongStatus)
    else
      var a := s.subs[i].app;
      Ok(ReviewEffect(s, i, a, s.apps[a], RewardOf(s, s.apps[a].task), reviewer, decision, note))
  }

  // ---- Erasure ----

  function ForgottenEntries(s: Store, c: nat, admin: nat, n: nat): (r: seq<Entry>)
    ensures forall e | e in r :: e.action == ContributorForgotten && e.subject.None? && e.detail.None? && e.actor == Some(admin)
    ensures forall e | e in r :: exists a: nat :: a < n && a in s.apps && s.apps[a].contributor == c && s.apps[a].task == e.task
  {
    if n == 0 then []
    else if n - 1 in s.apps && s.apps[n - 1].contributor == c
    then ForgottenEntries(s, c, admin, n - 1) + [Entry(s.apps[n - 1].task, ContributorForgotten, Some(admin), None, None)]
    else ForgottenEntries(s, c, admin, n - 1)
  }

  /** Everything the erasure transaction deletes, unlinks and scrubs. */
  function EraseEffect(s: Store, c: nat, admin: nat): Store {
    s.(subs := map i | i in s.subs && !(s.subs[i].app in s.apps && s.apps[s.subs[i].app].contributor == c) :: s.subs[i],
       apps := map a | a in s.apps && s.apps[a].contributor != c :: s.apps[a],
       payouts := map p | p in s.payouts && s.payouts[p].contributor != c :: s.payouts[p],
       tasks := map t | t in s.tasks :: if s.tasks[t].createdBy == Some(c) then s.tasks[t].(createdBy := None) else s.tasks[t],
       history := EraseActor(s.history + ForgottenEntries(s, c, admin, s.nextApp), c),
       contributors := s.contributors - {c})
  }

  predicate MoneyInFlightFor(s: Store, c: nat) {
    exists p :: p in s.payouts && s.payouts[p].contributor == c && s.payouts[p].inFlight
  }

  /** `elsewhere` is how many room-admin and notification rows went with it. */
  function Forget(s: Store, c: nat, admin: nat, elsewhere: nat): Result<Store, Refusal> {
    if MoneyInFlightFor(s, c) then Err(MoneyInFlight)
    else if c !in s.contributors then if elsewhere == 0 then Err(NothingErased) else Ok(s)
    else Ok(EraseEffect(s, c, admin))
  }

  // ---- All of them ----

  datatype Op =
    | OpCreate(max: int, reward: Option<string>, createdBy: Option<nat>)
    | OpApprove(task: nat, admin: nat)
    | OpDiscard(task: nat, admin: nat)
    | OpClose(task: nat, admin: nat)
    | OpReopen(task: nat, admin: nat)
    | OpRegister(contributor: nat)
    | OpApply(task: nat, contributor: nat, pitch: Option<string>)
    | OpAssign(app: nat, admin: nat)
    | OpDecline(app: nat, admin: nat)
    | OpUnassign(app: nat, admin: nat, reason: string)
    | OpWithdraw(app: nat, contributor: nat)
    | OpSubmit(app: nat, contributor: nat)
    | OpReview(sub: nat, reviewer: nat, decision: Decision, note: Option<string>)
    | OpForget(contributor: nat, admin: nat, elsewhere: nat)
    | OpMoney(payout: nat, inFlight: bool)

  function TaskOp(s: Store, t: nat, from: TaskStatus, otherwise: Refusal, to: TaskStatus, action: Action, admin: nat): Result<Store, Refusal> {
    var no := TaskRefusal(TaskRow(s, t), from, otherwise);
    if no.Some? then Err(no.value) else Ok(MoveTask(s, t, to, action, admin))
  }

  function Discard(s: Store, t: nat): Result<Store, Refusal> {
    var no := TaskRefusal(TaskRow(s, t), TaskStatus.Draft, OnlyDrafts);
    if no.Some? then Err(no.value) else Ok(DropDraft(s, t))
  }

  function Register(s: Store, c: nat): Store {
    if c in s.contributors then s else s.(contributors := s.contributors[c := Contributor(0, 0, 0, 0)])
  }

  /** A payout starts or stops being in flight, as the settlement protocol says. */
  function Money(s: Store, p: nat, inFlight: bool): Result<Store, Refusal> {
    if p !in s.payouts then Err(NotFound) else Ok(s.(payouts := s.payouts[p := s.payouts[p].(inFlight := inFlight)]))
  }

  function Perform(cap: nat, s: Store, op: Op): Result<Store, Refusal> {
    match op
    case OpCreate(max, reward, createdBy) => CreateTask(s, max, reward, createdBy)
    case OpApprove(t, admin) => TaskOp(s, t, TaskStatus.Draft, OnlyDrafts, TaskStatus.Open, TaskApproved, admin)
    case OpDiscard(t, _) => Discard(s, t)
    case OpClose(t, admin) => TaskOp(s, t, TaskStatus.Open, WrongStatus, TaskStatus.Closed, TaskClosed, admin)
    case OpReopen(t, admin) => TaskOp(s, t, TaskStatus.Closed, WrongStatus, TaskStatus.Open, TaskReopened, admin)
    case OpRegister(c) => Ok(Register(s, c))
    case OpApply(t, c, pitch) => Apply(cap, s, t, c, pitch)
    case OpAssign(a, admin) => Assign(s, a, admin)
    case OpDecline(a, admin) => Decline(s, a, admin)
    case OpUnassign(a, admin, reason) => Unassign(s, a, admin, reason)
    case OpWithdraw(a, c) => Withdraw(s, a, c)
    case OpSubmit(a, c) => Submit(s, a, c)
    case OpReview(i, reviewer, decision, note) => Review(s, i, reviewer, decision, note)
    case OpForget(c, admin, elsewhere) => Forget(s, c, admin, elsewhere)
    case OpMoney(p, inFlight) => Money(s, p, inFlight)
  }
}
