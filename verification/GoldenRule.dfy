/**
 * The golden rule: at most one paid generation per generation attempt, over every run of any number of sibling
 * jobs. The ledger adds two counters to the disk that no code reads: what was paid for each attempt, and which
 * attempts had a booked record taken off the disk.
 */
module GoldenRule {
  import opened Common
  import opened RecoveryStates
  import opened JournalRecords
  import opened RecoveryClassifier
  import opened RecoveryJournal
  import opened JournalHistory

  datatype Ledger = Ledger(disk: Disk, spent: multiset<AttemptId>, lost: set<AttemptId>)

  /** The attempt this event books a paid generation to, if it books one. */
  ghost function Books(d: Disk, e: Event): Option<AttemptId> {
    if e.Apply? && (e.mark.Submit? || e.mark.Commit?) && Verdict(d, e.job, e.mark).Ok?
      && d.files[e.job].generationOrdinal == 0
    then d.files[e.job].attempt
    else None
  }

  ghost function BookedJobs(files: map<JobId, Record>, a: AttemptId): set<JobId> {
    set j | j in files && files[j].attempt == Some(a) && Booked(files[j])
  }

  ghost function Dropped(before: Disk, after: Disk): set<AttemptId> {
    set j | j in before.files && j !in after.files && Booked(before.files[j]) && before.files[j].attempt.Some?
      :: before.files[j].attempt.value
  }

  ghost function Step(l: Ledger, e: Event): Ledger {
    var n := Next(l.disk, e);
    var a := Books(l.disk, e);
    Ledger(n, if a.Some? then l.spent + multiset{a.value} else l.spent, l.lost + Dropped(l.disk, n))
  }

  ghost function Run(l: Ledger, es: seq<Event>): Ledger
    decreases |es|
  {
    if es == [] then l else Run(Step(l, es[0]), es[1..])
  }

  const EMPTY: Ledger := Ledger(Disk(map[], {}, multiset{}), multiset{}, {})

  /** The books balance: for an attempt with nothing lost, payments are exactly the booked records on disk. */
  ghost predicate Balanced(l: Ledger) {
    && CoherentDisk(l.disk)
    && (forall a :: a !in l.lost ==> |BookedJobs(l.disk.files, a)| == l.spent[a])
    && (forall a :: a in l.lost ==> l.spent[a] >= 1)
  }

  ghost predicate Golden(l: Ledger) {
    forall a :: l.spent[a] <= 1
  }

  /** Booked, but in none of the states the sibling scan counts. */
  predicate Hidden(r: Record) {
    Booked(r) && !Visible(r)
  }

  /** The branch that fails: a booking is accepted while the attempt has a hidden sibling or a lost record. */
  ghost predicate Unguarded(l: Ledger, e: Event) {
    var a := Books(l.disk, e);
    a.Some? && (
      || a.value in l.lost
      || exists j :: j in l.disk.files && j != e.job && l.disk.files[j].attempt == a && Hidden(l.disk.files[j]))
  }

  lemma HiddenExactly(r: Record)
    requires Coherent(r)
    ensures Hidden(r) <==> r.submission == InFlight && !IsPostSubmit(r.localState)
    ensures Hidden(r) ==> r.localState in {Running, NeedsManualAction, Succeeded, Failed, Canceled}
  {
  }

  // ---- the books balance over every run ----

  lemma BookingAddsOne(d: Disk, e: Event, a: AttemptId)
    requires CoherentDisk(d) && Books(d, e) == Some(a)
    ensures BookedJobs(Next(d, e).files, a) == BookedJobs(d.files, a) + {e.job}
    ensures e.job !in BookedJobs(d.files, a)
    ensures forall b :: b != a ==> BookedJobs(Next(d, e).files, b) == BookedJobs(d.files, b)
    ensures Dropped(d, Next(d, e)) == {}
  {
  }

  lemma OthersAddNone(d: Disk, e: Event, a: AttemptId)
    requires CoherentDisk(d) && Books(d, e) != Some(a) && a !in Dropped(d, Next(d, e))
    ensures BookedJobs(Next(d, e).files, a) == BookedJobs(d.files, a)
  {
    var n := Next(d, e);
    forall j | j in d.files && j !in n.files && d.files[j].attempt == Some(a)
      ensures !Booked(d.files[j])
    {
    }
    forall j | j in d.files && j in n.files
      ensures j in BookedJobs(n.files, a) <==> j in BookedJobs(d.files, a)
    {
      NextExtends(d, e, j);
      if d.files[j].attempt == Some(a) {
        BookedStays(d, e, j, a);
      }
    }
  }

  lemma BookedStays(d: Disk, e: Event, j: JobId, a: AttemptId)
    requires CoherentDisk(d) && Books(d, e) != Some(a)
    requires j in d.files && j in Next(d, e).files && d.files[j].attempt == Some(a)
    ensures Booked(Next(d, e).files[j]) ==> Booked(d.files[j])
  {
  }

  lemma LosingMeansPaid(l: Ledger, e: Event, a: AttemptId)
    requires Balanced(l) && a in Dropped(l.disk, Next(l.disk, e)) && a !in l.lost
    ensures l.spent[a] >= 1
  {
    var j :| j in l.disk.files && Booked(l.disk.files[j]) && l.disk.files[j].attempt == Some(a);
    assert j in BookedJobs(l.disk.files, a);
  }

  lemma StepBalances(l: Ledger, e: Event)
    requires Balanced(l)
    ensures Balanced(Step(l, e))
  {
    NextKeepsCoherence(l.disk, e);
    var n := Step(l, e);
    forall a
      ensures a !in n.lost ==> |BookedJobs(n.disk.files, a)| == n.spent[a]
      ensures a in n.lost ==> n.spent[a] >= 1
    {
      if Books(l.disk, e).Some? {
        BookingAddsOne(l.disk, e, Books(l.disk, e).value);
      } else if a in Dropped(l.disk, n.disk) && a !in l.lost {
        LosingMeansPaid(l, e, a);
      } else if a !in n.lost {
        OthersAddNone(l.disk, e, a);
      }
    }
  }

  lemma {:induction false} RunBalances(l: Ledger, es: seq<Event>)
    requires Balanced(l)
    ensures Balanced(Run(l, es))
    decreases |es|
  {
    if es != [] {
      StepBalances(l, es[0]);
      RunBalances(Step(l, es[0]), es[1..]);
    }
  }

  // ---- exactly when the golden rule holds ----

  /** An accepted booking means the scan saw nothing, so whatever is booked to the attempt is hidden. */
  lemma BookedSiblingsAreHidden(d: Disk, e: Event, j: JobId)
    requires CoherentDisk(d) && Books(d, e).Some?
    requires j in d.files && Booked(d.files[j]) && d.files[j].attempt == Books(d, e)
    ensures j != e.job && Hidden(d.files[j])
  {
  }

  lemma StepGolden(l: Ledger, e: Event)
    requires Balanced(l) && Golden(l)
    ensures Golden(Step(l, e)) <==> !Unguarded(l, e)
  {
    var b := Books(l.disk, e);
    var n := Step(l, e);
    if b.Some? {
      var a := b.value;
      assert n.spent[a] == l.spent[a] + 1;
      if a !in l.lost {
        var booked := BookedJobs(l.disk.files, a);
        if booked != {} {
          var j :| j in booked;
          BookedSiblingsAreHidden(l.disk, e, j);
        } else {
          assert forall j :: j in l.disk.files && l.disk.files[j].attempt == b ==> j !in booked;
        }
      }
    }
  }

  lemma {:induction false} SpendingOnlyGrows(l: Ledger, es: seq<Event>, a: AttemptId)
    ensures l.spent[a] <= Run(l, es).spent[a]
    decreases |es|
  {
    if es != [] {
      SpendingOnlyGrows(Step(l, es[0]), es[1..], a);
    }
  }

  /** MAIN: over every run, the golden rule holds at the end iff no step went through the gap in the guard. */
  lemma {:induction false} RunGolden(l: Ledger, es: seq<Event>)
    requires Balanced(l) && Golden(l)
    ensures Golden(Run(l, es)) <==> forall k :: 0 <= k < |es| ==> !Unguarded(Run(l, es[..k]), es[k])
    decreases |es|
  {
    hide Step, Unguarded, Balanced;
    if es != [] {
      var n, rest := Step(l, es[0]), es[1..];
      assert Run(l, es[..0]) == l;
      forall k | 0 < k < |es| ensures Run(l, es[..k]) == Run(n, rest[..k - 1]) && es[k] == rest[k - 1] {
        assert es[..k][1..] == rest[..k - 1];
      }
      StepGolden(l, es[0]);
      StepBalances(l, es[0]);
      if Unguarded(l, es[0]) {
        var a :| n.spent[a] > 1;
        SpendingOnlyGrows(n, rest, a);
      } else {
        RunGolden(n, rest);
        if !Golden(Run(n, rest)) {
          var k :| 0 <= k < |rest| && Unguarded(Run(n, rest[..k]), rest[k]);
          assert es[k + 1] == rest[k];
        }
      }
    }
  }

  /**
   * The gap, seen from outside: a new sibling job can book a second generation for a paid attempt exactly when
   * no record of the attempt is visible to the scan.
   */
  lemma OpenDoor(l: Ledger, a: AttemptId, job: JobId)
    requires Balanced(l) && l.spent[a] == 1 && job !in l.disk.files && job !in l.disk.corrupt
    ensures Run(l, [Create(job, Some(a)), Apply(job, Submit)]).spent[a] ==
      if SiblingBooked(l.disk.files, Some(a), None) then 1 else 2
  {
    var e0, e1 := Create(job, Some(a)), Apply(job, Submit);
    var n := Step(l, e0);
    assert [e0, e1][1..] == [e1] && [e1][1..] == [];
    assert Run(l, [e0, e1]) == Run(n, [e1]) == Step(n, e1);
    assert SiblingBooked(n.disk.files, Some(a), Some(job)) <==> SiblingBooked(l.disk.files, Some(a), None) by {
      if SiblingBooked(l.disk.files, Some(a), None) {
        var j :| j in l.disk.files && l.disk.files[j].attempt == Some(a) && Visible(l.disk.files[j]);
        assert j in n.disk.files && n.disk.files[j] == l.disk.files[j];
      }
    }
  }

  // ---- the runs for which the documented rule holds unconditionally ----

  /** Parking, failing or canceling a record that sits in the submit crash window. */
  ghost predicate AbandonsCrashWindow(d: Disk, e: Event) {
    && e.Apply? && e.job in d.files && d.files[e.job].localState == Submitting
    && match e.mark
       case Progress(phase, _, _, _) => phase == Given(ManualActionPhase)
       case Terminate(_, _) => true
       case _ => false
  }

  ghost predicate Calm(d: Disk, e: Event) {
    !AbandonsCrashWindow(d, e) && Dropped(d, Next(d, e)) == {}
  }

  ghost predicate CalmRun(d: Disk, es: seq<Event>)
    decreases |es|
  {
    es == [] || (Calm(d, es[0]) && CalmRun(Next(d, es[0]), es[1..]))
  }

  ghost predicate InFlightOnlyInWindow(d: Disk) {
    forall j :: j in d.files && d.files[j].submission == InFlight ==> d.files[j].localState == Submitting
  }

  lemma CalmKeepsWindow(d: Disk, e: Event)
    requires CoherentDisk(d) && InFlightOnlyInWindow(d) && Calm(d, e)
    ensures InFlightOnlyInWindow(Next(d, e))
  {
    if e.Apply? && Verdict(d, e.job, e.mark).Ok? {
      match e.mark
      case Progress(_, _, _, _) =>
      case Terminate(_, _) =>
      case _ =>
    }
  }

  /** A run that never abandons a crash window and never drops a booked record keeps the golden rule. */
  lemma {:induction false} CalmRunsAreGolden(l: Ledger, es: seq<Event>)
    requires Balanced(l) && Golden(l) && l.lost == {}
    requires InFlightOnlyInWindow(l.disk) && CalmRun(l.disk, es)
    ensures Golden(Run(l, es))
    decreases |es|
  {
    if es != [] {
      StepBalances(l, es[0]);
      StepGolden(l, es[0]);
      CalmKeepsWindow(l.disk, es[0]);
      CalmRunsAreGolden(Step(l, es[0]), es[1..]);
    }
  }

  /** The operations of the repository's own property test. */
  predicate FuzzOperation(e: Event) {
    match e
    case Create(_, _) => true
    case Read(_) => true
    case ListAll => true
    case Apply(_, Progress(_, _, _, _)) => false
    case Apply(_, Terminate(kind, _)) => kind == Given(JobCompleted)
    case Apply(_, _) => true
    case _ => false
  }

  lemma FuzzOperationIsCalm(d: Disk, e: Event)
    requires CoherentDisk(d) && FuzzOperation(e)
    ensures Dropped(d, Next(d, e)) == {}
    ensures InFlightOnlyInWindow(d) ==> InFlightOnlyInWindow(Next(d, e))
  {
    if e.Apply? && Verdict(d, e.job, e.mark).Ok? {
      match e.mark
      case Terminate(_, _) =>
      case _ =>
    }
  }

  /** On those operations the rule holds for all sequences and any number of jobs, not just the sampled ones. */
  lemma {:induction false} FuzzedRunsAreGolden(l: Ledger, es: seq<Event>)
    requires Balanced(l) && Golden(l) && l.lost == {} && InFlightOnlyInWindow(l.disk)
    requires forall e :: e in es ==> FuzzOperation(e)
    ensures Golden(Run(l, es))
    decreases |es|
  {
    if es != [] {
      assert es[0] in es;
      StepBalances(l, es[0]);
      StepGolden(l, es[0]);
      FuzzOperationIsCalm(l.disk, es[0]);
      FuzzedRunsAreGolden(Step(l, es[0]), es[1..]);
    }
  }

  /** `owner` is the cloud's rule that an attempt has one job. */
  ghost predicate OwnedBy(files: map<JobId, Record>, owner: map<AttemptId, JobId>) {
    forall j :: j in files && files[j].attempt.Some? ==>
      files[j].attempt.value in owner && owner[files[j].attempt.value] == j
  }

  ghost predicate DropsNothing(d: Disk, es: seq<Event>)
    decreases |es|
  {
    es == [] || (Dropped(d, Next(d, es[0])) == {} && DropsNothing(Next(d, es[0]), es[1..]))
  }

  predicate Respects(e: Event, owner: map<AttemptId, JobId>) {
    e.Create? && e.attempt.Some? ==> e.attempt.value in owner && owner[e.attempt.value] == e.job
  }

  lemma OwnershipStays(d: Disk, e: Event, owner: map<AttemptId, JobId>)
    requires CoherentDisk(d) && OwnedBy(d.files, owner) && Respects(e, owner)
    ensures OwnedBy(Next(d, e).files, owner)
  {
    var n := Next(d, e);
    forall j | j in n.files && j in d.files ensures n.files[j].attempt == d.files[j].attempt {
      NextExtends(d, e, j);
    }
  }

  /** With one job per attempt the guard has no siblings to miss: any operations at all keep the rule. */
  lemma {:induction false} OneJobPerAttemptIsGolden(l: Ledger, es: seq<Event>, owner: map<AttemptId, JobId>)
    requires Balanced(l) && Golden(l) && l.lost == {} && OwnedBy(l.disk.files, owner)
    requires DropsNothing(l.disk, es)
    requires forall e :: e in es ==> Respects(e, owner)
    ensures Golden(Run(l, es))
    decreases |es|
  {
    if es != [] {
      assert es[0] in es;
      StepBalances(l, es[0]);
      StepGolden(l, es[0]);
      OwnershipStays(l.disk, es[0], owner);
      OneJobPerAttemptIsGolden(Step(l, es[0]), es[1..], owner);
    }
  }

  // ---- concrete runs that break it ----

  lemma {:induction false} RunConcat(l: Ledger, es: seq<Event>, fs: seq<Event>)
    ensures Run(l, es + fs) == Run(Run(l, es), fs)
    decreases |es|
  {
    if es == [] {
      assert es + fs == fs;
    } else {
      assert (es + fs)[1..] == es[1..] + fs;
      RunConcat(Step(l, es[0]), es[1..], fs);
    }
  }

  /** One job that fails, is canceled, or is parked inside the crash window. */
  function AbandonedJob(last: Mark): seq<Event> {
    [Create(0, Some(7)), Apply(0, Submit), Apply(0, last)]
  }

  lemma RunThree(l: Ledger, e0: Event, e1: Event, e2: Event)
    ensures Run(l, [e0, e1, e2]) == Step(Step(Step(l, e0), e1), e2)
  {
    assert [e0, e1, e2][1..] == [e1, e2] && [e1, e2][1..] == [e2] && [e2][1..] == [];
    assert Run(Step(l, e0), [e1, e2]) == Run(Step(Step(l, e0), e1), [e2]);
  }

  lemma SubmittedOnce()
    ensures var l := Step(Step(EMPTY, Create(0, Some(7))), Apply(0, Submit));
      && l.disk == Disk(map[0 := Rewrite(Fresh(Some(7)), Submit)], {}, multiset{})
      && l.spent == multiset{7} && l.lost == {}
  {
  }

  lemma AbandoningHides(l: Ledger, last: Mark)
    requires l.disk == Disk(map[0 := Rewrite(Fresh(Some(7)), Submit)], {}, multiset{})
    requires last in {Terminate(Given(JobFailed), Omitted), Terminate(Given(JobCanceled), Omitted),
                      Progress(Given(ManualActionPhase), Omitted, Omitted, false)}
    ensures var n := Step(l, Apply(0, last));
      && n.disk == Disk(map[0 := Rewrite(l.disk.files[0], last)], {}, multiset{})
      && Hidden(n.disk.files[0]) && n.spent == l.spent && n.lost == l.lost
  {
  }

  lemma StartIsBalanced()
    ensures Balanced(EMPTY) && Golden(EMPTY)
  {
  }

  lemma AbandonedJobIsHidden(last: Mark)
    requires last in {Terminate(Given(JobFailed), Omitted), Terminate(Given(JobCanceled), Omitted),
                      Progress(Given(ManualActionPhase), Omitted, Omitted, false)}
    ensures var l := Run(EMPTY, AbandonedJob(last));
      Balanced(l) && Golden(l) && l.spent[7] == 1 && 1 !in l.disk.files && 1 !in l.disk.corrupt
      && !SiblingBooked(l.disk.files, Some(7), None)
  {
    hide Run, Step, Balanced, Rewrite;
    StartIsBalanced();
    var es := AbandonedJob(last);
    var l1 := Step(EMPTY, es[0]);
    var l2 := Step(l1, es[1]);
    SubmittedOnce();
    AbandoningHides(l2, last);
    RunThree(EMPTY, es[0], es[1], es[2]);
    RunBalances(EMPTY, es);
  }

  /** After any of those three, a sibling job books the same attempt a second time. */
  lemma AbandonedWindowPaysTwice(last: Mark)
    requires last in {Terminate(Given(JobFailed), Omitted), Terminate(Given(JobCanceled), Omitted),
                      Progress(Given(ManualActionPhase), Omitted, Omitted, false)}
    ensures Run(EMPTY, AbandonedJob(last) + [Create(1, Some(7)), Apply(1, Submit)]).spent[7] == 2
  {
    AbandonedJobIsHidden(last);
    OpenDoor(Run(EMPTY, AbandonedJob(last)), 7, 1);
    RunConcat(EMPTY, AbandonedJob(last), [Create(1, Some(7)), Apply(1, Submit)]);
  }
}
