// What holds in every run of the workflow, however its transactions interleave.
module WorkflowTheorems {
  import opened Wrappers
  import opened Decimal
  import opened Workflow
  import opened WorkflowInvariant
  import opened WorkflowLaws
  import opened WorkflowAudit
  import opened Locking
  import opened LockingFits
  import opened LockingLaws

  ghost predicate CommitsAt(cap: nat, states: seq<System>, events: seq<Event>, n: nat)
    requires |states| == |events| + 1 && n < |events|
  {
    events[n].Step? && events[n].tx in states[n].txs && Program(cap, states[n].txs[events[n].tx]) == Commit
  }

  /** READ COMMITTED with these locks is as good as one mutator after the other: the
      committed tables change only in a commit, and then by what the mutator does
      alone on the tables as they are committed at that moment. The one exception is
      an erasure behind whose count of the contributor's money more has come. */
  lemma InterleavingsAreAtomic(cap: nat, states: seq<System>, events: seq<Event>, n: nat)
    requires IsRun(cap, states, events) && n < |events|
    ensures states[n + 1].store == states[n].store ||
              (CommitsAt(cap, states, events, n)
               && CommitStep(cap, states[n].store, states[n + 1].store, states[n].txs[events[n].tx]))
  {
    RunSysOk(cap, states, events, n);
    if CommitsAt(cap, states, events, n) {
      CommitIsAtomic(cap, states[n].store, states[n].txs[events[n].tx]);
    }
  }

  /** When an erasure that found its contributor commits, it erases money in flight if
      and only if some of that is for an application which it had not locked when it
      counted; if there is none it does what it does alone. */
  lemma ErasureOutrunsMoneyExactly(cap: nat, states: seq<System>, events: seq<Event>, n: nat)
    requires IsRun(cap, states, events) && n < |events| && CommitsAt(cap, states, events, n)
    requires states[n].txs[events[n].tx].op.OpForget? && states[n].txs[events[n].tx].known.person
    ensures var s, tx := states[n].store, states[n].txs[events[n].tx];
            var c := tx.op.contributor;
            && (MoneyInFlightFor(s, c) <==> LateMoney(s, tx, c))
            && (Perform(cap, s, tx.op) == Ok(states[n + 1].store) <==> !LateMoney(s, tx, c))
            && states[n + 1].store == EraseEffect(s, c, tx.op.admin)
  {
    var s, tx := states[n].store, states[n].txs[events[n].tx];
    RunSysOk(cap, states, events, n);
    OnlyLateMoney(s, tx, tx.op.contributor);
    ForgetCommits(cap, s, tx, tx.op.contributor);
  }

  /** No task is ever oversold. */
  lemma NoOversell(cap: nat, states: seq<System>, events: seq<Event>, n: nat, t: nat)
    requires IsRun(cap, states, events) && n < |states| && t in states[n].store.tasks
    ensures |SlotsTaken(states[n].store, t)| <= states[n].store.tasks[t].max <= MAX_ASSIGNEES
  {
    RunSysOk(cap, states, events, n);
  }

  /** No committed apply lifts its contributor's undecided applications past the cap. */
  lemma ApplyRespectsCap(cap: nat, states: seq<System>, events: seq<Event>, n: nat)
    requires IsRun(cap, states, events) && n < |events| && CommitsAt(cap, states, events, n)
    requires states[n].txs[events[n].tx].op.OpApply?
    ensures var c := states[n].txs[events[n].tx].op.contributor;
            |AppsIn(states[n + 1].store, c, AppStatus.Applied)| <= cap
  {
    InterleavingsAreAtomic(cap, states, events, n);
    var op := states[n].txs[events[n].tx].op;
    var s := states[n].store;
    if states[n + 1].store == s && Perform(cap, s, op) != Ok(s) {
      CommitIsPerform(cap, states, events, n);
    }
    ApplyAccepts(cap, s, op.task, op.contributor, op.pitch);
    ApplyAddsOne(s, op.task, op.contributor, op.pitch, AppFor(s.apps, op.task, op.contributor, s.nextApp));
  }

  lemma CommitIsPerform(cap: nat, states: seq<System>, events: seq<Event>, n: nat)
    requires IsRun(cap, states, events) && n < |events| && CommitsAt(cap, states, events, n)
    requires !states[n].txs[events[n].tx].op.OpForget?
    ensures Perform(cap, states[n].store, states[n].txs[events[n].tx].op) == Ok(states[n + 1].store)
  {
    RunSysOk(cap, states, events, n);
    CommitIsAtomic(cap, states[n].store, states[n].txs[events[n].tx]);
  }

  lemma ApplyAddsOne(s: Store, t: nat, c: nat, pitch: Option<string>, existing: Option<nat>)
    requires existing.Some? ==> existing.value in s.apps
    ensures |AppsIn(ApplyEffect(s, t, c, pitch, existing), c, AppStatus.Applied)| <= |AppsIn(s, c, AppStatus.Applied)| + 1
  {
    var a := if existing.Some? then existing.value else s.nextApp;
    FewerCount(AppsIn(ApplyEffect(s, t, c, pitch, existing), c, AppStatus.Applied), AppsIn(s, c, AppStatus.Applied) + {a});
  }

  /** Every review decision lands on an assigned application and its latest version,
      though the code checks neither. */
  lemma ReviewsLandOnAssigned(cap: nat, states: seq<System>, events: seq<Event>, n: nat)
    requires IsRun(cap, states, events) && n < |events| && CommitsAt(cap, states, events, n)
    requires states[n].txs[events[n].tx].op.OpReview?
    ensures var s, i := states[n].store, states[n].txs[events[n].tx].op.sub;
            && i in s.subs && s.subs[i].status == SubStatus.Submitted && IsLatest(s, i)
            && s.subs[i].app in s.apps && s.apps[s.subs[i].app].status == AppStatus.Assigned
  {
    CommitIsPerform(cap, states, events, n);
    RunSysOk(cap, states, events, n);
    ReviewLandsOnAssigned(states[n].store, states[n].txs[events[n].tx].op.sub);
  }

  /** Versions run from 1 without a gap or a repeat; all but the latest were sent
      back; a submission in review means assigned; and completed and rejected
      applications are exactly those whose latest version was approved or rejected. */
  lemma WorkMatchesApplication(cap: nat, states: seq<System>, events: seq<Event>, n: nat, a: nat)
    requires IsRun(cap, states, events) && n < |states| && a in states[n].store.apps
    ensures var s := states[n].store;
            && (forall v: nat :: 1 <= v < NextVersion(s, a) <==> HasVersion(s, a, v))
            && (forall i, j | i in s.subs && j in s.subs && s.subs[i].app == s.subs[j].app == a && s.subs[i].version == s.subs[j].version :: i == j)
            && (forall i | i in s.subs && s.subs[i].app == a && Latest(s, a) != Some(i) :: s.subs[i].status == SubStatus.NeedsRevision)
            && (LatestIs(s, a, SubStatus.Submitted) ==> s.apps[a].status == AppStatus.Assigned)
            && (LatestIs(s, a, SubStatus.Approved) <==> s.apps[a].status == AppStatus.Completed)
            && (LatestIs(s, a, SubStatus.Rejected) <==> s.apps[a].status == AppStatus.Rejected)
  {
    RunSysOk(cap, states, events, n);
    LatestMeans(states[n].store, a);
    VersionsAreGapless(states[n].store, a);
    StatusesAgree(states[n].store, a);
  }

  lemma VersionsAreGapless(s: Store, a: nat)
    requires VersionsOk(s) && RefsOk(s)
    ensures forall v: nat :: 1 <= v < NextVersion(s, a) <==> HasVersion(s, a, v)
  {
    LatestMeans(s, a);
    forall v: nat ensures 1 <= v < NextVersion(s, a) <==> HasVersion(s, a, v) {
      if Latest(s, a).Some? {
        var l := Latest(s, a).value;
        if v == s.subs[l].version {
          assert HasVersion(s, a, v);
        } else if 1 <= v < s.subs[l].version {
          assert HasVersion(s, s.subs[l].app, v);
        }
      }
    }
  }

  lemma StatusesAgree(s: Store, a: nat)
    requires Inv(s) && a in s.apps
    ensures forall i | i in s.subs && s.subs[i].app == a && Latest(s, a) != Some(i) :: s.subs[i].status == SubStatus.NeedsRevision
    ensures LatestIs(s, a, SubStatus.Submitted) ==> s.apps[a].status == AppStatus.Assigned
    ensures LatestIs(s, a, SubStatus.Approved) <==> s.apps[a].status == AppStatus.Completed
    ensures LatestIs(s, a, SubStatus.Rejected) <==> s.apps[a].status == AppStatus.Rejected
  {
    LatestMeans(s, a);
    if Latest(s, a).Some? {
      assert SubStatusOk(s, Latest(s, a).value);
    }
    forall i | i in s.subs && s.subs[i].app == a && Latest(s, a) != Some(i) ensures s.subs[i].status == SubStatus.NeedsRevision {
      assert SubStatusOk(s, i);
      assert !IsLatest(s, i);
    }
  }

  /** The four counters are the counts of the contributor's application rows. */
  lemma CountersCount(cap: nat, states: seq<System>, events: seq<Event>, n: nat, c: nat)
    requires IsRun(cap, states, events) && n < |states| && c in states[n].store.contributors
    ensures var s := states[n].store;
            s.contributors[c] == Contributor(|AppsOf(s, c)|, |AppsIn(s, c, AppStatus.Assigned)|,
                                             |AppsIn(s, c, AppStatus.Completed)|, |AppsIn(s, c, AppStatus.Rejected)|)
  {
    RunSysOk(cap, states, events, n);
    assert CountsOk(states[n].store, c);
  }

  function PayoutsFor(s: Store, a: nat): set<nat> {
    set p | p in s.payouts && s.payouts[p].submission in s.subs && s.subs[s.payouts[p].submission].app == a
  }

  /** The payout is for the application's contributor, task and that task's reward. */
  ghost predicate PaysItsDebt(s: Store, a: nat, p: nat)
    requires a in s.apps && p in s.payouts && Rewarded(s, s.apps[a].task)
  {
    s.payouts[p].contributor == s.apps[a].contributor && s.payouts[p].task == s.apps[a].task
    && s.payouts[p].reward == s.tasks[s.apps[a].task].reward.value
  }

  /** Exactly one payout for each completed application to a rewarded task, none
      otherwise, for its contributor, its task and the task's reward. */
  lemma OnePayoutPerCompletedWork(cap: nat, states: seq<System>, events: seq<Event>, n: nat, a: nat)
    requires IsRun(cap, states, events) && n < |states| && a in states[n].store.apps
    ensures var s := states[n].store;
            && |PayoutsFor(s, a)| == (if s.apps[a].status == AppStatus.Completed && Rewarded(s, s.apps[a].task) then 1 else 0)
            && forall p | p in PayoutsFor(s, a) :: Rewarded(s, s.apps[a].task) && PaysItsDebt(s, a, p)
  {
    RunSysOk(cap, states, events, n);
    CompletedIsOwedOnce(states[n].store, a);
    forall p | p in PayoutsFor(states[n].store, a)
      ensures Rewarded(states[n].store, states[n].store.apps[a].task) && PaysItsDebt(states[n].store, a, p)
    {
      PayoutIsForLatest(states[n].store, a, p);
    }
  }

  lemma CompletedIsOwedOnce(s: Store, a: nat)
    requires Inv(s) && a in s.apps
    ensures |PayoutsFor(s, a)| == (if s.apps[a].status == AppStatus.Completed && Rewarded(s, s.apps[a].task) then 1 else 0)
  {
    if s.apps[a].status == AppStatus.Completed && Rewarded(s, s.apps[a].task) {
      var p := CompletedIsOwed(s, a);
      forall q | q in PayoutsFor(s, a) ensures q == p {
        SamePayout(s, a, p, q);
      }
      CountOne(PayoutsFor(s, a), p);
    } else {
      OwesNothing(s, a);
    }
  }

  lemma CountOne(all: set<nat>, p: nat)
    requires p in all && forall q | q in all :: q == p
    ensures |all| == 1
  {
    assert all == {p};
  }

  lemma SamePayout(s: Store, a: nat, p: nat, q: nat)
    requires Inv(s) && a in s.apps && p in PayoutsFor(s, a) && q in PayoutsFor(s, a)
    ensures p == q
  {
    PayoutIsForLatest(s, a, p);
    PayoutIsForLatest(s, a, q);
  }

  lemma OwesNothing(s: Store, a: nat)
    requires Inv(s) && a in s.apps && !(s.apps[a].status == AppStatus.Completed && Rewarded(s, s.apps[a].task))
    ensures PayoutsFor(s, a) == {}
  {
    if q :| q in PayoutsFor(s, a) {
      PayoutIsForLatest(s, a, q);
    }
  }

  lemma PayoutIsForLatest(s: Store, a: nat, p: nat)
    requires Inv(s) && a in s.apps && p in PayoutsFor(s, a)
    ensures s.apps[a].status == AppStatus.Completed && Latest(s, a) == Some(s.payouts[p].submission)
    ensures Rewarded(s, s.apps[a].task) && PaysItsDebt(s, a, p)
  {
    assert PayoutOk(s, p) && SubStatusOk(s, s.payouts[p].submission);
    LatestMeans(s, a);
  }

  lemma CompletedIsOwed(s: Store, a: nat) returns (p: nat)
    requires Inv(s) && a in s.apps && s.apps[a].status == AppStatus.Completed && Rewarded(s, s.apps[a].task)
    ensures p in PayoutsFor(s, a) && Latest(s, a) == Some(s.payouts[p].submission)
  {
    StatusesAgree(s, a);
    p := ApprovedIsOwed(s, Latest(s, a).value, a);
  }

  lemma ApprovedIsOwed(s: Store, i: nat, a: nat) returns (p: nat)
    requires RefsOk(s) && PayoutsOk(s) && i in s.subs && s.subs[i].status == SubStatus.Approved && s.subs[i].app == a
    requires a in s.apps && Rewarded(s, s.apps[a].task)
    ensures p in PayoutsFor(s, a) && s.payouts[p].submission == i
  {
    p :| PaysFor(s, p, i);
  }

  /** The audit log replays to the tables. */
  lemma AuditLogReplays(cap: nat, states: seq<System>, events: seq<Event>, n: nat)
    requires IsRun(cap, states, events) && n < |states|
    ensures var s := states[n].store;
            && (forall a | a in s.apps :: Replay(s.history, s.apps[a].task, s.apps[a].contributor) == TrailOf(s, a))
            && (forall t: nat, c: nat | !HasApp(s, t, c) :: Replay(s.history, t, c) == Nothing)
            && (forall t: nat :: ReplayTask(s.history, t) == if t in s.tasks then Is(s.tasks[t].status) else NoTask)
  {
    RunSysOk(cap, states, events, n);
    var s := states[n].store;
    forall a | a in s.apps ensures Replay(s.history, s.apps[a].task, s.apps[a].contributor) == TrailOf(s, a) {
      assert AppTold(s, a);
    }
    forall t: nat ensures ReplayTask(s.history, t) == if t in s.tasks then Is(s.tasks[t].status) else NoTask {
      assert TaskTold(s, t);
    }
  }

  // ---- Erasure ----

  /** The pattern over details selects exactly the one contributor's. */
  lemma DetailNamesOne(c: nat, d: nat, reason: Option<string>)
    ensures DetailNames(ContributorDetail(d, reason), c) <==> c == d
  {
    if DetailNames(ContributorDetail(d, reason), c) {
      NamedIsOne(c, d, reason);
    } else {
      OneIsNamed(c, reason);
    }
  }

  lemma OneIsNamed(c: nat, reason: Option<string>)
    ensures DetailNames(ContributorDetail(c, reason), c)
  {
    var named := "contributor " + Digits(c);
    if reason.Some? && reason.value != "" {
      assert ContributorDetail(c, reason) == named + ":" + (" " + reason.value);
      assert (named + ":" + (" " + reason.value))[..|named + ":"|] == named + ":";
    }
  }

  lemma NamedIsOne(c: nat, d: nat, reason: Option<string>)
    requires DetailNames(ContributorDetail(d, reason), c)
    ensures c == d
  {
    var detail := ContributorDetail(d, reason);
    ValueOfDigits(c);
    ValueOfDigits(d);
    NumeralAfter(detail, "contributor ", Digits(d), if reason.Some? && reason.value != "" then ": " + reason.value else "");
    var rest := NamedTail(detail, c);
    NumeralAfter(detail, "contributor ", Digits(c), rest);
    SameNumeral(detail[|"contributor "|..], Digits(d), Digits(c));
    DigitsInjective(c, d);
  }

  lemma NamedTail(detail: string, c: nat) returns (rest: string)
    requires DetailNames(detail, c)
    ensures detail == "contributor " + Digits(c) + rest && (rest == "" || rest[0] == ':')
  {
    var named := "contributor " + Digits(c);
    if detail == named {
      rest := "";
    } else {
      rest := detail[|named|..];
      assert detail[..|named| + 1] == named + ":";
      assert detail[..|named|] == named;
    }
  }

  lemma NumeralAfter(s: string, head: string, digits: string, rest: string)
    requires s == head + digits + rest
    ensures s[|head|..][..|digits|] == digits
    ensures rest != "" ==> s[|head|..][|digits|] == rest[0]
    ensures rest == "" ==> |s[|head|..]| == |digits|
  {
  }

  /** Two numerals at the start of a text, each ended by the text or a colon. */
  lemma SameNumeral(s: string, a: string, b: string)
    requires |a| <= |s| && |b| <= |s| && s[..|a|] == a && s[..|b|] == b && AllDigits(a) && AllDigits(b)
    requires (|s| == |a| || s[|a|] == ':') && (|s| == |b| || s[|b|] == ':')
    ensures a == b
  {
    assert forall i | 0 <= i < |a| :: s[i] == a[i] && a[i] != ':';
    assert forall i | 0 <= i < |b| :: s[i] == b[i] && b[i] != ':';
    assert |a| == |b|;
  }

  /** The entry but for what the contributor wrote or what names them. */
  ghost predicate Scrubbed(e: Entry, e': Entry, c: nat) {
    && e'.task == e.task && e'.action == e.action
    && e'.subject == (if e.subject == Some(c) then None else e.subject)
    && e'.actor == (if e.actor == Some(c) then None else e.actor)
    && (e.actor != Some(c) && e.detail.Some? && !DetailNames(e.detail.value, c) ==> e'.detail == e.detail)
  }

  /** After an erasure no row, no authorship and no detail the mutators write names
      the contributor; everybody else's rows stay, and their entries keep what they
      say but for what the erased one wrote or what named them. */
  lemma ErasureLeavesNoTrace(s: Store, c: nat, admin: nat)
    requires RefsOk(s)
    ensures var s' := EraseEffect(s, c, admin);
            && Erases(s, s', c) && c !in s'.contributors
            && (forall i | i in s'.subs :: s'.subs[i].app in s'.apps && s'.apps[s'.subs[i].app].contributor != c)
            && (forall e | e in s'.history :: e.actor != Some(c) && e.subject != Some(c))
            && (forall e, reason | e in s'.history && e.detail.Some? :: e.detail.value != ContributorDetail(c, reason))
            && |s.history| <= |s'.history| && (forall k | 0 <= k < |s.history| :: Scrubbed(s.history[k], s'.history[k], c))
  {
    EraseErases(s, c, admin);
    ErasedHistory(s, c, admin);
    forall k | 0 <= k < |s.history| ensures Scrubbed(s.history[k], EraseEffect(s, c, admin).history[k], c) {
    }
  }

  lemma ErasedHistory(s: Store, c: nat, admin: nat)
    ensures var history := EraseEffect(s, c, admin).history;
            && (forall e | e in history :: e.actor != Some(c) && e.subject != Some(c))
            && (forall e, reason | e in history && e.detail.Some? :: e.detail.value != ContributorDetail(c, reason))
  {
    var history := EraseEffect(s, c, admin).history;
    var before := s.history + ForgottenEntries(s, c, admin, s.nextApp);
    forall e, reason | e in history && e.detail.Some? ensures e.detail.value != ContributorDetail(c, reason) {
      var k :| 0 <= k < |before| && e == EraseEntry(before[k], c);
      ScrubbedDetail(before[k], c, reason);
    }
  }

  lemma ScrubbedDetail(e: Entry, c: nat, reason: Option<string>)
    ensures EraseEntry(e, c).detail != Some(ContributorDetail(c, reason))
  {
    DetailNamesOne(c, c, reason);
    assert ContributorDetail(c, reason)[0] == 'c' && ERASED_DETAIL[0] == '(';
  }
}
