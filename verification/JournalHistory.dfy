/** What every run of journal operations keeps: coherence of records, submission evidence, and the files themselves. */
module JournalHistory {
  import opened Common
  import opened RecoveryStates
  import opened JournalRecords
  import opened RecoveryClassifier
  import opened RecoveryJournal

  /** One operation on the journal directory. A crash or restart is the absence of one: nothing in memory matters. */
  datatype Event =
    | Create(job: JobId, attempt: Option<AttemptId>)
    | Apply(job: JobId, mark: Mark)
    | Read(job: JobId)
    | ListAll
    | Remove(job: JobId)
    | Quarantine(job: JobId)
    | Damage(job: JobId)
    | Sweep(retention: int, now: Option<int>)

  /** A record file turns unreadable outside the program's control. */
  function Damaged(d: Disk, job: JobId): Disk {
    if job in d.files then d.(files := d.files - {job}, corrupt := d.corrupt + {job}) else d
  }

  ghost function Next(d: Disk, e: Event): Disk {
    match e
    case Create(job, attempt) => Offered(d, job, attempt)
    case Apply(job, mark) => Written(d, job, mark)
    case Read(job) => Touched(d, job)
    case ListAll => Scanned(d)
    case Remove(job) => Removed(d, job)
    case Quarantine(job) => MovedAside(d, job)
    case Damage(job) => Damaged(d, job)
    case Sweep(retention, now) => Swept(d, retention, now)
  }

  ghost function After(d: Disk, es: seq<Event>): Disk
    decreases |es|
  {
    if es == [] then d else After(Next(d, es[0]), es[1..])
  }

  ghost predicate CoherentDisk(d: Disk) {
    ValidDisk(d) && forall j :: j in d.files ==> Coherent(d.files[j])
  }

  lemma NextKeepsCoherence(d: Disk, e: Event)
    requires CoherentDisk(d)
    ensures CoherentDisk(Next(d, e))
  {
    if e.Apply? && Verdict(d, e.job, e.mark).Ok? {
      var r := d.files[e.job];
      RewriteKeepsCoherence(r, e.mark, SiblingBooked(d.files, r.attempt, Some(e.job)));
    }
  }

  lemma {:induction false} RunKeepsCoherence(d: Disk, es: seq<Event>)
    requires CoherentDisk(d)
    ensures CoherentDisk(After(d, es))
    decreases |es|
  {
    if es != [] {
      NextKeepsCoherence(d, es[0]);
      RunKeepsCoherence(Next(d, es[0]), es[1..]);
    }
  }

  /** A refused mark leaves every record as it was, whatever it scanned on the way. */
  lemma RefusalWritesNothing(d: Disk, job: JobId, m: Mark)
    requires Verdict(d, job, m).Err?
    ensures Written(d, job, m).files == d.files
    ensures Written(d, job, m).aside + multiset(Written(d, job, m).corrupt) == d.aside + multiset(d.corrupt)
  {
  }

  function FilesOf(d: Disk): multiset<JobId> {
    multiset(d.files.Keys) + multiset(d.corrupt) + d.aside
  }

  lemma TouchingKeepsFiles(d: Disk, job: JobId)
    ensures FilesOf(Touched(d, job)) == FilesOf(d)
  {
  }

  lemma WritingKeepsFiles(d: Disk, job: JobId, m: Mark)
    ensures FilesOf(Written(d, job, m)) == FilesOf(d)
  {
  }

  lemma OfferingKeepsFiles(d: Disk, job: JobId, attempt: Option<AttemptId>)
    requires ValidDisk(d)
    ensures FilesOf(d) <= FilesOf(Offered(d, job, attempt))
  {
  }

  lemma SettingAsideKeepsFiles(d: Disk, job: JobId)
    requires ValidDisk(d)
    ensures FilesOf(MovedAside(d, job)) == FilesOf(d) == FilesOf(Damaged(d, job))
  {
  }

  /** Only `remove` and `sweep` delete a file; every other operation keeps it, in place or in quarantine. */
  lemma NothingElseDeletes(d: Disk, e: Event)
    requires ValidDisk(d) && !e.Remove? && !e.Sweep?
    ensures FilesOf(d) <= FilesOf(Next(d, e))
    ensures !e.Create? ==> FilesOf(d) == FilesOf(Next(d, e))
  {
    match e
    case Create(job, attempt) => OfferingKeepsFiles(d, job, attempt);
    case Apply(job, m) => WritingKeepsFiles(d, job, m);
    case Read(job) => TouchingKeepsFiles(d, job);
    case ListAll =>
    case Quarantine(job) => SettingAsideKeepsFiles(d, job);
    case Damage(job) => SettingAsideKeepsFiles(d, job);
  }

  // ---- evidence ----

  lemma NextExtends(d: Disk, e: Event, job: JobId)
    requires CoherentDisk(d) && job in d.files && job in Next(d, e).files
    ensures Extends(d.files[job], Next(d, e).files[job])
  {
    if e.Apply? && e.job == job && Verdict(d, job, e.mark).Ok? {
      var r := d.files[job];
      RewriteKeepsCoherence(r, e.mark, SiblingBooked(d.files, r.attempt, Some(job)));
    }
  }

  /** No file of this job is removed, quarantined or damaged by hand; sweeps are allowed. */
  predicate HandsOff(e: Event, job: JobId) {
    e != Remove(job) && e != Quarantine(job) && e != Damage(job)
  }

  ghost predicate NeverSettled(d: Disk, es: seq<Event>, job: JobId) {
    forall k :: 0 <= k <= |es| ==> ClassifyContract(Lookup(After(d, es[..k]), job)) != Settled
  }

  /**
   * Submission facts are monotone over whole runs, with duplicate offers, re-commits, restarts and sweeps at
   * any clock: a record that never settled is still on file and every durable fact about it still stands.
   */
  lemma {:induction false} EvidenceSurvives(d: Disk, es: seq<Event>, job: JobId)
    requires CoherentDisk(d) && job in d.files
    requires forall e :: e in es ==> HandsOff(e, job)
    requires NeverSettled(d, es, job)
    ensures job in After(d, es).files && Extends(d.files[job], After(d, es).files[job])
    decreases |es|
  {
    if es != [] {
      var n := Next(d, es[0]);
      assert es[..0] == [] && After(d, es[..0]) == d;
      assert es[0] in es;
      assert job in n.files;
      NextExtends(d, es[0], job);
      NextKeepsCoherence(d, es[0]);
      forall k | 0 <= k <= |es[1..]|
        ensures ClassifyContract(Lookup(After(n, es[1..][..k]), job)) != Settled
      {
        assert es[..k + 1][1..] == es[1..][..k];
        assert After(d, es[..k + 1]) == After(n, es[1..][..k]);
      }
      EvidenceSurvives(n, es[1..], job);
    }
  }

  /**
   * So an attempt with a booked record that is not settled keeps answering hasSubmittedAttempt with yes, through
   * that record alone iff it is not an unconfirmed submission whose local state has left the pipeline; a committed
   * one never is.
   */
  lemma UnsettledAttemptStaysVisible(d: Disk, es: seq<Event>, job: JobId)
    requires CoherentDisk(d) && job in d.files && Booked(d.files[job]) && d.files[job].attempt.Some?
    requires forall e :: e in es ==> HandsOff(e, job)
    requires NeverSettled(d, es, job)
    ensures job in After(d, es).files && Booked(After(d, es).files[job])
    ensures SiblingBooked(After(d, es).files, d.files[job].attempt, Some(job)) ==>
      SiblingBooked(After(d, es).files, d.files[job].attempt, None)
    ensures !SiblingBooked(After(d, es).files, d.files[job].attempt, Some(job)) ==>
      (SiblingBooked(After(d, es).files, d.files[job].attempt, None) <==>
        After(d, es).files[job].submission == Accepted || IsPostSubmit(After(d, es).files[job].localState))
    ensures d.files[job].submittedToProvider ==> SiblingBooked(After(d, es).files, d.files[job].attempt, None)
  {
    EvidenceSurvives(d, es, job);
    RunKeepsCoherence(d, es);
    SiblingOrItself(After(d, es).files, d.files[job].attempt, job);
  }

  lemma SiblingOrItself(files: map<JobId, Record>, attempt: Option<AttemptId>, job: JobId)
    requires job in files && files[job].attempt == attempt && attempt.Some?
    ensures SiblingBooked(files, attempt, None) <==> SiblingBooked(files, attempt, Some(job)) || Visible(files[job])
  {
  }

  /** A sweep removes exactly the acknowledged terminals that are dated and past retention, and touches no other. */
  lemma SweepSparesOpenBookings(d: Disk, retention: int, now: Option<int>, job: JobId)
    requires CoherentDisk(d) && job in d.files
    ensures job !in Next(d, Sweep(retention, now)).files <==>
      && d.files[job].terminal.Some? && d.files[job].acknowledged
      && d.files[job].acknowledgedAt.Some? && now.Some? && now.value - d.files[job].acknowledgedAt.value >= retention
    ensures job in Next(d, Sweep(retention, now)).files ==> Next(d, Sweep(retention, now)).files[job] == d.files[job]
  {
  }
}
