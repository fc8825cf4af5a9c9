/** Graceful drain against hard stop in the Worker runtime (lib/worker/worker-runtime.mjs). */
module Drain {
  import opened Common
  import opened RecoveryStates
  import opened JournalRecords

  datatype JobState = Active | NeedsManual | CancelRequested | Done(kind: TerminalType)

  datatype MemoryJob = MemoryJob(state: JobState, executing: bool, cancelRequested: bool)

  /** Runtime flags, the transport subscription, the in-memory jobs, and the journal records. */
  datatype State = State(
    running: bool,
    draining: bool,
    subscribed: bool,
    jobs: map<JobId, MemoryJob>,
    files: map<JobId, Record>)

  datatype Outcome = Success | ManualAction | Failure

  /** What an offer is answered with. */
  datatype Answer = Taken | Repeated | Unavailable | Inadmissible

  predicate CountsAsActive(j: MemoryJob) {
    j.state == Active || j.state == NeedsManual
  }

  function ActiveJobs(s: State): set<JobId> {
    set j | j in s.jobs && CountsAsActive(s.jobs[j])
  }

  /** A mark as the journal takes it: rewritten when legal, otherwise the call throws and nothing changes. */
  function Marked(r: Record, m: Mark, sibling: bool): Record {
    if ArgumentError(m).None? && Refusal(r, m, sibling).None? then Rewrite(r, m) else r
  }

  function MarkFile(files: map<JobId, Record>, job: JobId, m: Mark, sibling: bool): map<JobId, Record> {
    if job in files then files[job := Marked(files[job], m, sibling)] else files
  }

  function Started(s: State): State {
    if s.running then s else s.(running := true, draining := false, subscribed := true)
  }

  function Drained(s: State): State {
    if !s.running then s else s.(running := false, draining := true, subscribed := false)
  }

  function CanceledJob(j: MemoryJob): MemoryJob {
    if !CountsAsActive(j) then j
    else if j.executing then j.(state := CancelRequested, cancelRequested := true)
    else j.(state := Done(JobCanceled), cancelRequested := true)
  }

  predicate Parked(j: MemoryJob) {
    CountsAsActive(j) && !j.executing
  }

  function FileAfterStop(j: MemoryJob, r: Record, message: MessageId): Record {
    if Parked(j) then Marked(r, Terminate(Given(JobCanceled), Given(message)), false) else r
  }

  /** `message` names the terminal message each canceled job is given. */
  function Stopped(s: State, message: JobId -> MessageId): State {
    if !s.running && !s.draining then s
    else
      State(false, false, false,
            map j | j in s.jobs :: CanceledJob(s.jobs[j]),
            map j | j in s.files :: if j in s.jobs then FileAfterStop(s.jobs[j], s.files[j], message(j)) else s.files[j])
  }

  /** `admissible` stands for the capability, payload and handler checks. */
  function Offered(s: State, job: JobId, attempt: Option<AttemptId>, admissible: bool): (State, Answer) {
    if job in s.jobs then (s, Repeated)
    else if !s.running then (s, Unavailable)
    else if !admissible then (s, Inadmissible)
    else
      var r := if job in s.files then s.files[job] else Fresh(attempt);
      var runs := Refusal(r, Run, false).None?;
      (s.(jobs := s.jobs[job := MemoryJob(Active, runs, false)], files := s.files[job := Marked(r, Run, false)]), Taken)
  }

  function Finished(s: State, job: JobId, outcome: Outcome, message: MessageId): State {
    if job !in s.jobs || !s.jobs[job].executing then s
    else
      var j := s.jobs[job].(executing := false);
      if j.cancelRequested then
        s.(jobs := s.jobs[job := j.(state := Done(JobCanceled))],
           files := MarkFile(s.files, job, Terminate(Given(JobCanceled), Given(message)), false))
      else if outcome == ManualAction then s.(jobs := s.jobs[job := j.(state := NeedsManual)])
      else
        var kind := if outcome == Success then JobCompleted else JobFailed;
        s.(jobs := s.jobs[job := j.(state := Done(kind))],
           files := MarkFile(s.files, job, Terminate(Given(kind), Given(message)), false))
  }

  function CancelHandled(s: State, job: JobId, message: MessageId): State {
    if job !in s.jobs || s.jobs[job].state.Done? || s.jobs[job].cancelRequested then s
    else
      var j := s.jobs[job];
      if j.executing then s.(jobs := s.jobs[job := j.(state := CancelRequested, cancelRequested := true)])
      else
        s.(jobs := s.jobs[job := j.(state := Done(JobCanceled), cancelRequested := true)],
           files := MarkFile(s.files, job, Terminate(Given(JobCanceled), Given(message)), false))
  }

  datatype Action =
    | Start
    | BeginDrain
    | Stop(messages: JobId -> MessageId)
    | Offer(job: JobId, attempt: Option<AttemptId>, admissible: bool)
    | Finish(job: JobId, outcome: Outcome, message: MessageId)
    | HandlerMarks(job: JobId, mark: Mark, sibling: bool)
    | CancelArrives(job: JobId, message: MessageId)
    | AckArrives(job: JobId, now: Option<int>)

  /** Cancels and acknowledgements arrive through the subscription only; offers may also be handed in directly. */
  function Act(s: State, a: Action): State {
    match a
    case Start => Started(s)
    case BeginDrain => Drained(s)
    case Stop(messages) => Stopped(s, messages)
    case Offer(job, attempt, admissible) => Offered(s, job, attempt, admissible).0
    case Finish(job, outcome, message) => Finished(s, job, outcome, message)
    case HandlerMarks(job, m, sibling) =>
      if job in s.jobs && s.jobs[job].executing && !m.Terminate? then s.(files := MarkFile(s.files, job, m, sibling)) else s
    case CancelArrives(job, message) => if s.subscribed then CancelHandled(s, job, message) else s
    case AckArrives(job, now) => if s.subscribed then s.(files := MarkFile(s.files, job, Acknowledge(now), false)) else s
  }

  function Play(s: State, acts: seq<Action>): State
    decreases |acts|
  {
    if acts == [] then s else Play(Act(s, acts[0]), acts[1..])
  }

  class Runtime {
    var running: bool
    var draining: bool
    var subscribed: bool
    var jobs: map<JobId, MemoryJob>
    var files: map<JobId, Record>

    function Now(): State
      reads this
    {
      State(running, draining, subscribed, jobs, files)
    }

    constructor (found: map<JobId, Record>)
      ensures Now() == State(false, false, false, map[], found)
    {
      running, draining, subscribed, jobs, files := false, false, false, map[], found;
    }

    method DoStart()
      modifies this
      ensures Now() == Started(old(Now()))
    {
      if running {
        return;
      }
      running, draining, subscribed := true, false, true;
    }

    method DoDrain()
      modifies this
      ensures Now() == Drained(old(Now()))
    {
      if !running {
        return;
      }
      running, draining, subscribed := false, true, false;
    }

    method DoStop(message: JobId -> MessageId)
      modifies this
      ensures Now() == Stopped(old(Now()), message)
    {
      hide FileAfterStop, CanceledJob, Stopped;
      ghost var before := Now();
      if !running && !draining {
        StoppedIdle(before, message);
        return;
      }
      running, draining, subscribed := false, false, false;
      var left := jobs.Keys;
      while left != {}
        invariant !running && !draining && !subscribed
        invariant left <= jobs.Keys == old(jobs).Keys && files.Keys == old(files).Keys
        invariant forall j :: j in jobs ==> jobs[j] == if j in left then old(jobs)[j] else CanceledJob(old(jobs)[j])
        invariant forall j :: j in files ==>
          files[j] == if j in jobs && j !in left then FileAfterStop(old(jobs)[j], old(files)[j], message(j))
                      else old(files)[j]
        decreases left
      {
        var job :| job in left;
        left := left - {job};
        CancelOne(job, message(job));
      }
      StoppedPointwise(before, message, jobs, files);
    }

    /** One active job: ask its handler to stop, or end it now when none is executing. */
    method CancelOne(job: JobId, message: MessageId)
      requires job in jobs
      modifies `jobs, `files
      ensures jobs == old(jobs)[job := CanceledJob(old(jobs)[job])]
      ensures job in old(files) ==> files == old(files)[job := FileAfterStop(old(jobs)[job], old(files)[job], message)]
      ensures job !in old(files) ==> files == old(files)
    {
      var j := jobs[job];
      if j.state != Active && j.state != NeedsManual {
        return;
      }
      if j.executing {
        jobs := jobs[job := j.(state := CancelRequested, cancelRequested := true)];
      } else {
        jobs := jobs[job := j.(state := Done(JobCanceled), cancelRequested := true)];
        files := MarkFile(files, job, Terminate(Given(JobCanceled), Given(message)), false);
      }
    }

    method OnJobOffer(job: JobId, attempt: Option<AttemptId>, admissible: bool) returns (answer: Answer)
      modifies this
      ensures (Now(), answer) == Offered(old(Now()), job, attempt, admissible)
    {
      if job in jobs {
        return Repeated;
      }
      if !running {
        return Unavailable;
      }
      if !admissible {
        return Inadmissible;
      }
      var r := if job in files then files[job] else Fresh(attempt);
      if job !in files {
        files := files[job := r];
      }
      assert files[job := Marked(r, Run, false)] == old(files)[job := Marked(r, Run, false)];
      var runs := Refusal(files[job], Run, false).None?;
      files := files[job := Marked(files[job], Run, false)];
      jobs := jobs[job := MemoryJob(Active, runs, false)];
      answer := Taken;
    }

    method OnHandlerDone(job: JobId, outcome: Outcome, message: MessageId)
      modifies this
      ensures Now() == Finished(old(Now()), job, outcome, message)
    {
      if job !in jobs || !jobs[job].executing {
        return;
      }
      var j := jobs[job].(executing := false);
      if j.cancelRequested {
        jobs := jobs[job := j.(state := Done(JobCanceled))];
        files := MarkFile(files, job, Terminate(Given(JobCanceled), Given(message)), false);
      } else if outcome == ManualAction {
        jobs := jobs[job := j.(state := NeedsManual)];
      } else {
        var kind := if outcome == Success then JobCompleted else JobFailed;
        jobs := jobs[job := j.(state := Done(kind))];
        files := MarkFile(files, job, Terminate(Given(kind), Given(message)), false);
      }
    }
  }

  lemma StoppedPointwise(s: State, message: JobId -> MessageId, jobs: map<JobId, MemoryJob>, files: map<JobId, Record>)
    requires s.running || s.draining
    requires jobs.Keys == s.jobs.Keys && files.Keys == s.files.Keys
    requires forall j :: j in jobs ==> jobs[j] == CanceledJob(s.jobs[j])
    requires forall j :: j in files ==>
      files[j] == if j in s.jobs then FileAfterStop(s.jobs[j], s.files[j], message(j)) else s.files[j]
    ensures Stopped(s, message) == State(false, false, false, jobs, files)
  {
  }

  lemma StoppedIdle(s: State, message: JobId -> MessageId)
    requires !s.running && !s.draining
    ensures Stopped(s, message) == s
  {
  }

  // ---- draining ----

  ghost predicate Quiet(s: State) {
    !s.running && !s.subscribed
  }

  ghost predicate CoherentFiles(s: State) {
    forall j :: j in s.files ==> Coherent(s.files[j])
  }

  /** A handler runs only for a job that is active or asked to cancel. */
  ghost predicate SoundJobs(s: State) {
    forall j :: j in s.jobs && s.jobs[j].executing ==> s.jobs[j].state == Active || s.jobs[j].cancelRequested
  }

  /** `n` is `s` with work finished: no new jobs or records, nothing canceled that was not already, evidence kept. */
  ghost predicate WindsDown(s: State, n: State) {
    && ActiveJobs(n) <= ActiveJobs(s)
    && n.jobs.Keys == s.jobs.Keys && n.files.Keys == s.files.Keys
    && (forall j :: j in s.jobs && !s.jobs[j].cancelRequested ==> !n.jobs[j].cancelRequested)
    && (forall j :: j in s.jobs && !s.jobs[j].cancelRequested && n.jobs[j].state == Done(JobCanceled) ==>
          s.jobs[j].state == Done(JobCanceled))
    && (forall j :: j in s.files ==> Extends(s.files[j], n.files[j]))
  }

  lemma MarkedExtends(r: Record, m: Mark, sibling: bool)
    requires Coherent(r)
    ensures Coherent(Marked(r, m, sibling)) && Extends(r, Marked(r, m, sibling))
  {
    if ArgumentError(m).None? && Refusal(r, m, sibling).None? {
      RewriteKeepsCoherence(r, m, sibling);
    }
  }

  lemma FilesExtend(files: map<JobId, Record>, job: JobId, m: Mark, sibling: bool)
    requires forall j :: j in files ==> Coherent(files[j])
    ensures var n := MarkFile(files, job, m, sibling);
      n.Keys == files.Keys && forall j :: j in files ==> Coherent(n[j]) && Extends(files[j], n[j])
  {
    hide Marked, Coherent, Extends;
    forall j | j in files ensures Extends(files[j], files[j]) {
      ExtendsItself(files[j]);
    }
    if job in files {
      MarkedExtends(files[job], m, sibling);
    }
  }

  lemma ExtendsItself(r: Record)
    ensures Extends(r, r)
  {
  }

  lemma ActWindsDown(s: State, a: Action)
    requires Quiet(s) && CoherentFiles(s) && SoundJobs(s) && !a.Start? && !a.Stop?
    ensures Quiet(Act(s, a)) && CoherentFiles(Act(s, a)) && SoundJobs(Act(s, a)) && WindsDown(s, Act(s, a))
    ensures a.Offer? && a.job !in s.jobs ==> Offered(s, a.job, a.attempt, a.admissible) == (s, Unavailable)
  {
    hide MarkFile, Coherent, Extends;
    forall j | j in s.files ensures Extends(s.files[j], s.files[j]) {
      ExtendsItself(s.files[j]);
    }
    match a
    case Finish(job, outcome, message) =>
      FilesExtend(s.files, job, Terminate(Given(JobCanceled), Given(message)), false);
      var kind := if outcome == Success then JobCompleted else JobFailed;
      FilesExtend(s.files, job, Terminate(Given(kind), Given(message)), false);
    case HandlerMarks(job, m, sibling) => FilesExtend(s.files, job, m, sibling);
    case _ =>
  }

  lemma WindsDownTrans(s: State, m: State, n: State)
    requires WindsDown(s, m) && WindsDown(m, n)
    ensures WindsDown(s, n)
  {
  }

  lemma WindsDownItself(s: State)
    ensures WindsDown(s, s)
  {
  }

  lemma {:induction false} PlayWindsDown(s: State, acts: seq<Action>)
    requires Quiet(s) && CoherentFiles(s) && SoundJobs(s) && forall a :: a in acts ==> !a.Start? && !a.Stop?
    ensures CoherentFiles(Play(s, acts)) && WindsDown(s, Play(s, acts))
    decreases |acts|
  {
    hide WindsDown, CoherentFiles, SoundJobs, Act;
    if acts == [] {
      WindsDownItself(s);
    } else {
      assert acts[0] in acts;
      ActWindsDown(s, acts[0]);
      PlayWindsDown(Act(s, acts[0]), acts[1..]);
      WindsDownTrans(s, Act(s, acts[0]), Play(Act(s, acts[0]), acts[1..]));
    }
  }

  lemma ActKeepsSoundJobs(s: State, a: Action)
    requires SoundJobs(s)
    ensures SoundJobs(Act(s, a))
  {
  }

  lemma ActKeepsCoherentFiles(s: State, a: Action)
    requires CoherentFiles(s)
    ensures CoherentFiles(Act(s, a))
  {
    hide Coherent, Refusal;
    forall r: Record, m, sibling | Coherent(r) ensures Coherent(Marked(r, m, sibling)) {
      MarkedExtends(r, m, sibling);
    }
    FreshIsCoherent();
  }

  lemma FreshIsCoherent()
    ensures forall attempt :: Coherent(Fresh(attempt))
  {
  }

  /** In every run, with starts, stops and cancels as well, records are coherent and handlers run for sound jobs. */
  lemma {:induction false} RunsStaySound(s: State, acts: seq<Action>)
    requires CoherentFiles(s) && SoundJobs(s)
    ensures CoherentFiles(Play(s, acts)) && SoundJobs(Play(s, acts))
    decreases |acts|
  {
    if acts != [] {
      hide CoherentFiles, SoundJobs, Act;
      ActKeepsCoherentFiles(s, acts[0]);
      ActKeepsSoundJobs(s, acts[0]);
      RunsStaySound(Act(s, acts[0]), acts[1..]);
    }
  }

  function Reached(found: map<JobId, Record>, before: seq<Action>): State {
    Play(State(false, false, false, map[], found), before)
  }

  /**
   * MAIN: whenever a running Worker drains, over every interleaving of offers, handler writes and completions
   * until it stops, the active jobs only become fewer, no job and no journal record is added, no job is canceled
   * that had not been already, and every durable fact stands; the final stop keeps them too.
   */
  lemma DrainIsSafe(found: map<JobId, Record>, before: seq<Action>, acts: seq<Action>, message: JobId -> MessageId)
    requires forall j :: j in found ==> Coherent(found[j])
    requires Reached(found, before).running && forall a :: a in acts ==> !a.Start? && !a.Stop?
    ensures WindsDown(Drained(Reached(found, before)), Play(Drained(Reached(found, before)), acts))
    ensures forall j :: j in Reached(found, before).files ==>
      j in Stopped(Play(Drained(Reached(found, before)), acts), message).files
      && Extends(Reached(found, before).files[j], Stopped(Play(Drained(Reached(found, before)), acts), message).files[j])
  {
    var s := Reached(found, before);
    RunsStaySound(State(false, false, false, map[], found), before);
    PlayWindsDown(Drained(s), acts);
    var n := Play(Drained(s), acts);
    forall j | j in s.files ensures Extends(s.files[j], Stopped(n, message).files[j]) {
      MarkedExtends(n.files[j], Terminate(Given(JobCanceled), Given(message(j))), false);
      var m := Marked(n.files[j], Terminate(Given(JobCanceled), Given(message(j))), false);
      ExtendsTrans(s.files[j], n.files[j], m);
    }
  }

  lemma ExtendsTrans(a: Record, b: Record, c: Record)
    requires Extends(a, b) && Extends(b, c)
    ensures Extends(a, c)
  {
  }

  /** The drain also ends the subscription, so an acknowledgement that arrives before a restart is not recorded. */
  lemma {:induction false} AcksDuringDrainAreLost(s: State, job: JobId, now: Option<int>, acts: seq<Action>)
    requires Quiet(s) && forall a :: a in acts ==> !a.Start?
    ensures Act(Play(s, acts), AckArrives(job, now)) == Play(s, acts)
    decreases |acts|
  {
    if acts != [] {
      assert acts[0] in acts;
      QuietStays(s, acts[0]);
      AcksDuringDrainAreLost(Act(s, acts[0]), job, now, acts[1..]);
    }
  }

  lemma QuietStays(s: State, a: Action)
    requires Quiet(s) && !a.Start?
    ensures Quiet(Act(s, a))
  {
  }
}
