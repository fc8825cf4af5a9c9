/** The durable journal: one file per job, corrupt files moved aside (lib/worker/recovery-journal.mjs). */
module RecoveryJournal {
  import opened Common
  import opened RecoveryStates
  import opened JournalRecords
  import opened RecoveryClassifier

  /** What is on disk: readable records, unreadable files still in place, and files moved to quarantine. */
  datatype Disk = Disk(files: map<JobId, Record>, corrupt: set<JobId>, aside: multiset<JobId>)

  datatype Entry = Entry(job: JobId, found: Found)

  ghost predicate ValidDisk(d: Disk) {
    d.files.Keys !! d.corrupt
  }

  function Lookup(d: Disk, job: JobId): Found {
    if job in d.files then Live(d.files[job])
    else if job in d.corrupt then CorruptMarker
    else Absent
  }

  /** Reading an unreadable file moves it aside. */
  function Touched(d: Disk, job: JobId): Disk {
    if job in d.corrupt then d.(corrupt := d.corrupt - {job}, aside := d.aside + multiset{job}) else d
  }

  /** Listing reads every file. */
  function Scanned(d: Disk): Disk {
    d.(corrupt := {}, aside := d.aside + multiset(d.corrupt))
  }

  /** Some other readable record of the attempt is already in a state the scan counts as submitted. */
  ghost predicate SiblingBooked(files: map<JobId, Record>, attempt: Option<AttemptId>, self: Option<JobId>) {
    attempt.Some? && exists j :: j in files && Some(j) != self && files[j].attempt == attempt && Visible(files[j])
  }

  /** Whether a mark scans the sibling records before it decides. */
  predicate Scans(r: Record, m: Mark) {
    r.attempt.Some? && ((m.Submit? && r.generationOrdinal == 0) || (m.Commit? && !r.submittedToProvider))
  }

  ghost function Verdict(d: Disk, job: JobId, m: Mark): Result<Record, JournalError> {
    if ArgumentError(m).Some? then Err(ArgumentError(m).value)
    else if job in d.corrupt then Err(CorruptRecord)
    else if job !in d.files then Err(NotFound)
    else
      var r := d.files[job];
      var refusal := Refusal(r, m, SiblingBooked(d.files, r.attempt, Some(job)));
      if refusal.Some? then Err(refusal.value) else Ok(Rewrite(r, m))
  }

  ghost function Written(d: Disk, job: JobId, m: Mark): Disk {
    if ArgumentError(m).Some? then d
    else if job in d.corrupt then Touched(d, job)
    else if job !in d.files then d
    else
      var scanned := if Scans(d.files[job], m) then Scanned(d) else d;
      var v := Verdict(d, job, m);
      if v.Ok? then scanned.(files := d.files[job := v.value]) else scanned
  }

  function Offered(d: Disk, job: JobId, attempt: Option<AttemptId>): Disk {
    if job in d.files then d else Touched(d, job).(files := d.files[job := Fresh(attempt)])
  }

  function Removed(d: Disk, job: JobId): Disk {
    d.(files := d.files - {job}, corrupt := d.corrupt - {job})
  }

  function MovedAside(d: Disk, job: JobId): Disk {
    if job in d.files || job in d.corrupt then Removed(d, job).(aside := d.aside + multiset{job}) else d
  }

  /** A settled record whose acknowledgement is old enough. An unparseable clock or timestamp never expires. */
  predicate Expired(r: Record, retention: int, now: Option<int>) {
    && Classify(Live(r)) == CoarseSettled
    && r.acknowledgedAt.Some?
    && now.Some?
    && now.value - r.acknowledgedAt.value >= retention
  }

  function Unexpired(files: map<JobId, Record>, retention: int, now: Option<int>): map<JobId, Record> {
    map j | j in files && !Expired(files[j], retention, now) :: files[j]
  }

  function Swept(d: Disk, retention: int, now: Option<int>): Disk {
    Scanned(d).(files := Unexpired(d.files, retention, now))
  }

  ghost predicate Ascending(out: seq<Entry>) {
    forall i, j :: 0 <= i < j < |out| ==> out[i].job < out[j].job
  }

  /** `out` is every file on `d`, once, in job order. */
  ghost predicate IsListing(out: seq<Entry>, d: Disk) {
    && Ascending(out)
    && (forall i :: 0 <= i < |out| ==> out[i].found == Lookup(d, out[i].job) && !out[i].found.Absent?)
    && (forall j :: j in d.files || j in d.corrupt ==> exists i :: 0 <= i < |out| && out[i].job == j)
  }

  class Journal {
    var files: map<JobId, Record>
    var corrupt: set<JobId>
    var aside: multiset<JobId>

    function OnDisk(): Disk
      reads this
    {
      Disk(files, corrupt, aside)
    }

    ghost predicate Valid()
      reads this
    {
      ValidDisk(OnDisk())
    }

    /** Opening a journal over a directory changes nothing in it; this is also what a restart does. */
    constructor (found: Disk)
      requires ValidDisk(found)
      ensures Valid() && OnDisk() == found
    {
      files, corrupt, aside := found.files, found.corrupt, found.aside;
    }

    method ReadRaw(job: JobId) returns (found: Found)
      requires Valid()
      modifies this
      ensures Valid() && OnDisk() == Touched(old(OnDisk()), job)
      ensures found == Lookup(old(OnDisk()), job)
    {
      if job in files {
        found := Live(files[job]);
      } else if job in corrupt {
        corrupt, aside := corrupt - {job}, aside + multiset{job};
        found := CorruptMarker;
      } else {
        found := Absent;
      }
    }

    method RequireLive(job: JobId) returns (r: Result<Record, JournalError>)
      requires Valid()
      modifies this
      ensures Valid() && OnDisk() == Touched(old(OnDisk()), job)
      ensures job in files ==> r == Ok(files[job])
      ensures job !in files ==> r == Err(if job in old(corrupt) then CorruptRecord else NotFound)
    {
      var found := ReadRaw(job);
      match found
      case Absent => r := Err(NotFound);
      case CorruptMarker => r := Err(CorruptRecord);
      case Live(record) => r := Ok(record);
    }

    method Create(job: JobId, attempt: Option<AttemptId>) returns (record: Record)
      requires Valid()
      modifies this
      ensures Valid() && OnDisk() == Offered(old(OnDisk()), job, attempt)
      ensures record == files[job]
    {
      var existing := ReadRaw(job);
      if existing.Live? {
        return existing.record;
      }
      record := Fresh(attempt);
      files := files[job := record];
    }

    method Update(job: JobId, next: Record)
      requires Valid() && job in files
      modifies this
      ensures Valid() && OnDisk() == old(OnDisk()).(files := old(files)[job := next])
    {
      files := files[job := next];
    }

    method ListFiles() returns (names: seq<JobId>)
      ensures forall i, j :: 0 <= i < j < |names| ==> names[i] < names[j]
      ensures forall j :: j in names <==> j in files || j in corrupt
    {
      names := [];
      var pending := files.Keys + corrupt;
      while pending != {}
        invariant forall i, j :: 0 <= i < j < |names| ==> names[i] < names[j]
        invariant forall i, j :: 0 <= i < |names| && j in pending ==> names[i] < j
        invariant forall j :: j in files || j in corrupt <==> j in names || j in pending
        decreases pending
      {
        var job := Smallest(pending);
        names := names + [job];
        pending := pending - {job};
      }
    }

    method List() returns (out: seq<Entry>)
      requires Valid()
      modifies this
      ensures Valid() && OnDisk() == Scanned(old(OnDisk()))
      ensures IsListing(out, old(OnDisk()))
    {
      out := [];
      var names := ListFiles();
      ghost var d := OnDisk();
      for i := 0 to |names|
        invariant files == d.files && corrupt <= d.corrupt
        invariant aside + multiset(corrupt) == d.aside + multiset(d.corrupt)
        invariant forall k :: 0 <= k < |names| && names[k] in d.corrupt ==> (names[k] in corrupt <==> i <= k)
        invariant |out| == i
        invariant forall k :: 0 <= k < i ==> out[k] == Entry(names[k], Lookup(d, names[k]))
      {
        assert names[i] in names;
        var found := ReadRaw(names[i]);
        out := out + [Entry(names[i], found)];
      }
      assert corrupt == {};
      forall j | j in d.files || j in d.corrupt ensures exists i :: 0 <= i < |out| && out[i].job == j {
        var i :| 0 <= i < |names| && names[i] == j;
        assert out[i].job == j;
      }
    }

    method FindSubmittedSibling(attempt: Option<AttemptId>, self: JobId) returns (sibling: Option<JobId>)
      requires Valid()
      modifies this
      ensures Valid()
      ensures OnDisk() == if attempt.Some? then Scanned(old(OnDisk())) else old(OnDisk())
      ensures sibling.Some? <==> SiblingBooked(files, attempt, Some(self))
      ensures sibling.Some? ==>
        && sibling.value in files && sibling.value != self
        && files[sibling.value].attempt == attempt && Visible(files[sibling.value])
    {
      if attempt.None? {
        return None;
      }
      var listed := List();
      for i := 0 to |listed|
        invariant forall k :: 0 <= k < i ==>
          listed[k].found.Live? && listed[k].job != self && listed[k].found.record.attempt == attempt ==>
            !Visible(listed[k].found.record)
      {
        var e := listed[i];
        if e.found.Live? && e.job != self && e.found.record.attempt == attempt && Visible(e.found.record) {
          return Some(e.job);
        }
      }
      return None;
    }

    method MarkRunning(job: JobId) returns (r: Result<Record, JournalError>)
      requires Valid()
      modifies this
      ensures Valid() && OnDisk() == Written(old(OnDisk()), job, Run) && r == Verdict(old(OnDisk()), job, Run)
    {
      r := RequireLive(job);
      if r.Err? {
        return;
      }
      if !CanTransition(r.value.localState, Running) {
        return Err(IllegalTransition);
      }
      var next := r.value.(localState := Running);
      Update(job, next);
      r := Ok(next);
    }

    method MarkSubmitting(job: JobId) returns (r: Result<Record, JournalError>)
      requires Valid()
      modifies this
      ensures Valid() && OnDisk() == Written(old(OnDisk()), job, Submit) && r == Verdict(old(OnDisk()), job, Submit)
    {
      r := RequireLive(job);
      if r.Err? {
        return;
      }
      if r.value.generationOrdinal >= 1 {
        return Err(DuplicateGeneration);
      }
      var sibling := FindSubmittedSibling(r.value.attempt, job);
      if sibling.Some? {
        return Err(DuplicateGeneration);
      }
      if !CanTransition(r.value.localState, Submitting) {
        return Err(IllegalTransition);
      }
      var next := r.value.(
        localState := Submitting, submission := InFlight, confidence := Unknown, generationOrdinal := 1);
      Update(job, next);
      r := Ok(next);
    }

    method MarkSubmitted(job: JobId, submission: Arg<nat>, confidence: Option<Confidence>)
      returns (r: Result<Record, JournalError>)
      requires Valid()
      modifies this
      ensures Valid() && OnDisk() == Written(old(OnDisk()), job, Commit(submission, confidence))
      ensures r == Verdict(old(OnDisk()), job, Commit(submission, confidence))
    {
      if submission.Invalid? {
        return Err(InvalidRef);
      }
      r := RequireLive(job);
      if r.Err? {
        return;
      }
      var rec := r.value;
      if !rec.submittedToProvider {
        var sibling := FindSubmittedSibling(rec.attempt, job);
        if sibling.Some? {
          return Err(DuplicateGeneration);
        }
      }
      if rec.localState != Submitted && !CanTransition(rec.localState, Submitted) {
        return Err(IllegalTransition);
      }
      var sure := if confidence.Some? then confidence.value else if submission.Given? then Confirmed else Presumed;
      var next := rec.(
        submittedToProvider := true, submissionId := submission.OrElse(rec.submissionId), localState := Submitted,
        submission := Accepted, confidence := sure,
        generationOrdinal := if rec.generationOrdinal < 1 then 1 else rec.generationOrdinal);
      Update(job, next);
      r := Ok(next);
    }

    method MarkDownloading(job: JobId) returns (r: Result<Record, JournalError>)
      requires Valid()
      modifies this
      ensures Valid() && OnDisk() == Written(old(OnDisk()), job, Download) && r == Verdict(old(OnDisk()), job, Download)
    {
      r := RequireLive(job);
      if r.Err? {
        return;
      }
      if !CanTransition(r.value.localState, Downloading) {
        return Err(IllegalTransition);
      }
      var next := r.value.(localState := Downloading);
      Update(job, next);
      r := Ok(next);
    }

    method MarkProgress(job: JobId, phase: Arg<Phase>, sequence: Arg<int>, percent: Arg<real>, resultAvailable: bool)
      returns (r: Result<Record, JournalError>)
      requires Valid()
      modifies this
      ensures Valid() && OnDisk() == Written(old(OnDisk()), job, Progress(phase, sequence, percent, resultAvailable))
      ensures r == Verdict(old(OnDisk()), job, Progress(phase, sequence, percent, resultAvailable))
    {
      r := RequireLive(job);
      if r.Err? {
        return;
      }
      var rec := r.value;
      if phase.Invalid? {
        return Err(Unsafe);
      }
      var seqNo, pct, manual, state := rec.lastEventSequence, rec.percent, rec.needsManualAction, rec.localState;
      if !sequence.Omitted? {
        if sequence.Invalid? || sequence.value <= rec.lastEventSequence {
          return Err(Unsafe);
        }
        seqNo := sequence.value;
      }
      if !percent.Omitted? {
        if percent.Invalid? {
          return Err(Unsafe);
        }
        pct := Some(Clamp(percent.value));
      }
      if phase == Given(ManualActionPhase) {
        if !CanTransition(rec.localState, NeedsManualAction) {
          return Err(IllegalTransition);
        }
        manual, state := true, NeedsManualAction;
      } else if rec.terminal.None? && (rec.localState == Created || rec.localState == Running) {
        state := Running;
      }
      var next := rec.(
        lastEventSequence := seqNo, percent := pct, phase := phase.OrElse(rec.phase),
        resultAvailable := rec.resultAvailable || resultAvailable, needsManualAction := manual, localState := state);
      Update(job, next);
      r := Ok(next);
    }

    method MarkLocalResult(job: JobId, ref: Arg<nat>, asset: Arg<nat>) returns (r: Result<Record, JournalError>)
      requires Valid()
      modifies this
      ensures Valid() && OnDisk() == Written(old(OnDisk()), job, LocalResult(ref, asset))
      ensures r == Verdict(old(OnDisk()), job, LocalResult(ref, asset))
    {
      if !ref.Given? || asset.Invalid? {
        return Err(InvalidRef);
      }
      r := RequireLive(job);
      if r.Err? {
        return;
      }
      var nextState := if asset.Given? then Imported else Downloading;
      if !CanTransition(r.value.localState, nextState) {
        return Err(IllegalTransition);
      }
      var next := r.value.(localResultRef := Some(ref.value), importedAsset := asset.Value(), localState := nextState);
      Update(job, next);
      r := Ok(next);
    }

    method MarkTerminal(job: JobId, kind: Arg<TerminalType>, message: Arg<MessageId>)
      returns (r: Result<Record, JournalError>)
      requires Valid()
      modifies this
      ensures Valid() && OnDisk() == Written(old(OnDisk()), job, Terminate(kind, message))
      ensures r == Verdict(old(OnDisk()), job, Terminate(kind, message))
    {
      if !kind.Given? {
        return Err(Unsafe);
      }
      if message.Invalid? {
        return Err(InvalidRef);
      }
      r := RequireLive(job);
      if r.Err? {
        return;
      }
      var rec := r.value;
      var nextState := kind.value.LocalState();
      if IsTerminal(rec.localState) {
        if rec.localState == nextState {
          assert Written(old(OnDisk()), job, Terminate(kind, message)).files == files;
          return Ok(rec);
        }
        return Err(IllegalTransition);
      }
      if !CanTransition(rec.localState, nextState) {
        return Err(IllegalTransition);
      }
      var next := rec.(
        terminal := Some(kind.value), terminalMessage := message.Value(), localState := nextState,
        needsManualAction := false);
      Update(job, next);
      r := Ok(next);
    }

    method MarkAckPending(job: JobId, ack: Arg<MessageId>) returns (r: Result<Record, JournalError>)
      requires Valid()
      modifies this
      ensures Valid() && OnDisk() == Written(old(OnDisk()), job, AckPending(ack))
      ensures r == Verdict(old(OnDisk()), job, AckPending(ack))
    {
      if ack.Invalid? {
        return Err(InvalidRef);
      }
      r := RequireLive(job);
      if r.Err? {
        return;
      }
      var next := r.value.(ackPending := true, ackMessage := ack.Value(), acknowledged := false);
      Update(job, next);
      r := Ok(next);
    }

    method MarkAcknowledged(job: JobId, now: Option<int>) returns (r: Result<Record, JournalError>)
      requires Valid()
      modifies this
      ensures Valid() && OnDisk() == Written(old(OnDisk()), job, Acknowledge(now))
      ensures r == Verdict(old(OnDisk()), job, Acknowledge(now))
    {
      r := RequireLive(job);
      if r.Err? {
        return;
      }
      var next := r.value.(ackPending := false, acknowledged := true, acknowledgedAt := now);
      Update(job, next);
      r := Ok(next);
    }

    method HasSubmittedAttempt(attempt: Option<AttemptId>, exclude: Option<JobId>) returns (answer: bool)
      requires Valid()
      modifies this
      ensures Valid()
      ensures OnDisk() == if attempt.Some? then Scanned(old(OnDisk())) else old(OnDisk())
      ensures answer <==> SiblingBooked(files, attempt, exclude)
    {
      if attempt.None? {
        return false;
      }
      var listed := List();
      for i := 0 to |listed|
        invariant forall k :: 0 <= k < i ==>
          listed[k].found.Live? && Some(listed[k].job) != exclude && listed[k].found.record.attempt == attempt ==>
            !Visible(listed[k].found.record)
      {
        var e := listed[i];
        if e.found.Live? && e.found.record.attempt == attempt && Some(e.job) != exclude && Visible(e.found.record) {
          return true;
        }
      }
      return false;
    }

    method ListRecoverable() returns (out: seq<Entry>)
      requires Valid()
      modifies this
      ensures Valid() && OnDisk() == Scanned(old(OnDisk()))
      ensures Ascending(out)
      ensures forall e :: e in out <==>
        e.found == Lookup(old(OnDisk()), e.job) && !e.found.Absent? && IsRecoverable(e.found)
    {
      var listed := List();
      out := [];
      for i := 0 to |listed|
        invariant Ascending(out)
        invariant forall e :: e in out <==> e in listed[..i] && IsRecoverable(e.found)
      {
        if IsRecoverable(listed[i].found) {
          out := out + [listed[i]];
        }
      }
      assert listed[..|listed|] == listed;
    }

    method Remove(job: JobId) returns (removed: bool)
      modifies this
      ensures OnDisk() == Removed(old(OnDisk()), job)
      ensures removed <==> job in old(files) || job in old(corrupt)
    {
      removed := job in files || job in corrupt;
      files, corrupt := files - {job}, corrupt - {job};
    }

    method Quarantine(job: JobId) returns (moved: bool)
      requires Valid()
      modifies this
      ensures Valid() && OnDisk() == MovedAside(old(OnDisk()), job)
      ensures moved <==> job in old(files) || job in old(corrupt)
    {
      moved := job in files || job in corrupt;
      if moved {
        files, corrupt, aside := files - {job}, corrupt - {job}, aside + multiset{job};
      }
    }

    method SweepOne(e: Entry, retention: int, cutoff: Option<int>) returns (gone: bool)
      modifies this
      ensures gone <==> Dies(e, retention, cutoff)
      ensures files == if gone then old(files) - {e.job} else old(files)
      ensures corrupt == if gone then old(corrupt) - {e.job} else old(corrupt)
      ensures aside == old(aside)
    {
      if e.found.CorruptMarker? || Classify(e.found) != CoarseSettled {
        return false;
      }
      var ackAt := e.found.record.acknowledgedAt;
      gone := ackAt.Some? && cutoff.Some? && cutoff.value - ackAt.value >= retention;
      if gone {
        var _ := Remove(e.job);
      }
    }

    /** `nowMs` overrides the injected clock when it is a finite number. */
    method Sweep(retention: int, nowMs: Option<int>, clock: Option<int>) returns (removed: seq<JobId>)
      requires Valid()
      modifies this
      ensures Valid()
      ensures OnDisk() == Swept(old(OnDisk()), retention, if nowMs.Some? then nowMs else clock)
      ensures forall j :: j in removed <==> j in old(files) && j !in files
      ensures forall i, j :: 0 <= i < j < |removed| ==> removed[i] < removed[j]
    {
      var cutoff := if nowMs.Some? then nowMs else clock;
      var listed := List();
      ghost var d := old(OnDisk());
      removed := [];
      for i := 0 to |listed|
        invariant corrupt == {} && aside == d.aside + multiset(d.corrupt)
        invariant removed == Doomed(listed, i, retention, cutoff)
        invariant files == Without(d.files, removed)
      {
        var gone := SweepOne(listed[i], retention, cutoff);
        if gone {
          WithoutOneMore(d.files, removed, listed[i].job);
          removed := removed + [listed[i].job];
        }
      }
      DoomedAscends(listed, |listed|, retention, cutoff);
      DoomedIsExpired(listed, d, retention, cutoff);
    }
  }

  function Without(files: map<JobId, Record>, gone: seq<JobId>): map<JobId, Record> {
    files - (set j | j in gone)
  }

  lemma WithoutOneMore(files: map<JobId, Record>, gone: seq<JobId>, job: JobId)
    ensures Without(files, gone) - {job} == Without(files, gone + [job])
  {
  }

  predicate Dies(e: Entry, retention: int, now: Option<int>) {
    e.found.Live? && Expired(e.found.record, retention, now)
  }

  /** The jobs among the first `n` listed files that a sweep removes, in order. */
  ghost function Doomed(listed: seq<Entry>, n: nat, retention: int, now: Option<int>): seq<JobId>
    requires n <= |listed|
  {
    if n == 0 then []
    else
      var e := listed[n - 1];
      Doomed(listed, n - 1, retention, now)
        + if Dies(e, retention, now) then [e.job] else []
  }

  lemma {:induction false} DoomedAscends(listed: seq<Entry>, n: nat, retention: int, now: Option<int>)
    requires n <= |listed| && Ascending(listed)
    ensures IncreasingBelow(Doomed(listed, n, retention, now), listed[n..])
  {
    if n > 0 {
      DoomedAscends(listed, n - 1, retention, now);
      assert listed[n - 1..][0] == listed[n - 1];
      assert forall k :: 0 <= k < |listed| - n ==> listed[n..][k] == listed[n - 1..][k + 1];
    }
  }

  ghost predicate IncreasingBelow(jobs: seq<JobId>, rest: seq<Entry>) {
    && (forall i, j :: 0 <= i < j < |jobs| ==> jobs[i] < jobs[j])
    && (forall i, k :: 0 <= i < |jobs| && 0 <= k < |rest| ==> jobs[i] < rest[k].job)
  }

  lemma {:induction false} DoomedMembers(listed: seq<Entry>, n: nat, retention: int, now: Option<int>, job: JobId)
    requires n <= |listed|
    ensures job in Doomed(listed, n, retention, now) <==>
      exists k :: 0 <= k < n && listed[k].job == job && Dies(listed[k], retention, now)
  {
    if n > 0 {
      DoomedMembers(listed, n - 1, retention, now, job);
    }
  }

  lemma DoomedIsExpired(listed: seq<Entry>, d: Disk, retention: int, now: Option<int>)
    requires IsListing(listed, d)
    ensures var doomed := Doomed(listed, |listed|, retention, now);
      && Without(d.files, doomed) == Unexpired(d.files, retention, now)
      && (forall j :: j in doomed ==> j in d.files)
  {
    var doomed := Doomed(listed, |listed|, retention, now);
    forall j | j in d.files || j in doomed
      ensures j in d.files && (j in doomed <==> Expired(d.files[j], retention, now))
    {
      DoomedMembers(listed, |listed|, retention, now, j);
    }
  }
}
