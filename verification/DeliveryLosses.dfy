/** Which terminals are lost or stay unsettled, and exactly which runs still reach them. */
module DeliveryLosses {
  import opened Common
  import opened RecoveryStates
  import opened JournalRecords
  import opened RecoveryClassifier
  import opened PendingAckStore
  import opened Inbox
  import opened Delivery
  import opened DeliveryGuarantees
  import opened DeliveryOutcomes

  // ---- lost between the journal and the store ----

  /** A terminal with nothing in memory, in the store or under way that could settle it. */
  ghost predicate Unsettleable(w: World, job: JobId) {
    Closed(w, job) && !Acknowledged(w, job) && !BusyWith(w.busy, job) && !Owes(w, job)
  }

  lemma ActKeepsUnsettleable(w: World, a: Action, job: JobId)
    requires Safe(w) && Unsettleable(w, job) && !ReoffersCanceled(w, a, job)
    ensures Unsettleable(Act(w, a), job)
  {
    hide Safe, Act, Owes;
    ActMoves(w, a, job);
    if job in Act(w, a).idle && job !in w.idle {
      NewlyIdle(w, a, job);
    }
  }

  /** It is never acknowledged in any run that does not take up an offer for it while its record is canceled. */
  lemma {:induction false} UnsettleableForEver(w: World, acts: seq<Action>, job: JobId)
    requires Safe(w) && Unsettleable(w, job) && Steps(w, acts, job, ReoffersCanceled) == 0
    ensures Unsettleable(Play(w, acts), job)
    decreases |acts|
  {
    hide Safe, Act, Unsettleable, ReoffersCanceled;
    if acts != [] {
      ActKeepsSafe(w, acts[0]);
      ActKeepsUnsettleable(w, acts[0], job);
      UnsettleableForEver(Act(w, acts[0]), acts[1..], job);
    }
  }

  /** Taking up an offer for a job whose record has a terminal. */
  predicate ReoffersEnded(w: World, a: Action, job: JobId) {
    a.Begin? && a.job == job && Takes(w, job) && Ended(w, job)
  }

  /** Nothing about the job has left the Worker, and nothing in its memory can. */
  ghost predicate Unsent(w: World, job: JobId) {
    && job !in w.memory && job !in w.active && job !in w.idle && job !in w.cloud.results
    && forall e :: e in w.up ==> e.job != job
  }

  lemma SendsOnlyWhatItHolds(w: World, a: Action, e: Envelope)
    requires Safe(w) && e in Act(w, a).up && e !in w.up
    ensures Owes(w, e.job) || e.job in w.memory || BusyWith(w.busy, e.job)
  {
  }

  lemma HoldsOnlyWhatItTook(w: World, a: Action, job: JobId)
    requires job !in w.memory && job !in w.active && job !in w.idle && Ended(w, job)
    requires !ReoffersEnded(w, a, job)
    ensures job !in Act(w, a).memory && job !in Act(w, a).active && job !in Act(w, a).idle
  {
    hide Rewrite, Refusal, Received;
  }

  lemma ResultsComeFromMessages(w: World, a: Action, job: JobId)
    requires job in Act(w, a).cloud.results && job !in w.cloud.results
    ensures exists e :: e in w.up && e.job == job
  {
  }

  lemma ActKeepsUnsent(w: World, a: Action, job: JobId)
    requires Safe(w) && Unsettleable(w, job) && Unsent(w, job) && !ReoffersEnded(w, a, job)
    ensures Unsent(Act(w, a), job)
  {
    hide Safe, Act;
    forall e | e in Act(w, a).up && e !in w.up ensures e.job != job {
      SendsOnlyWhatItHolds(w, a, e);
    }
    HoldsOnlyWhatItTook(w, a, job);
    if job in Act(w, a).cloud.results {
      ResultsComeFromMessages(w, a, job);
    }
  }

  /** Nothing of it is ever sent in any run that takes up no offer for it. */
  lemma {:induction false} UnsentForEver(w: World, acts: seq<Action>, job: JobId)
    requires Safe(w) && Unsettleable(w, job) && Unsent(w, job) && Steps(w, acts, job, ReoffersEnded) == 0
    ensures Unsettleable(Play(w, acts), job) && Unsent(Play(w, acts), job)
    decreases |acts|
  {
    hide Safe, Act, Unsettleable, Unsent;
    if acts != [] {
      ActKeepsSafe(w, acts[0]);
      ActKeepsUnsettleable(w, acts[0], job);
      ActKeepsUnsent(w, acts[0], job);
      UnsentForEver(Act(w, acts[0]), acts[1..], job);
    }
  }

  /**
   * A crash after the journal wrote the terminal and before the pending-ack store did loses it: no run that
   * follows ever sends, applies or acknowledges it, unless the job is offered again and taken up; and none ever
   * acknowledges it, unless that happens to a canceled one.
   */
  lemma CrashBetweenWritesLosesTerminal(w: World, acts: seq<Action>)
    requires Safe(w) && w.busy.Putting?
    requires w.busy.e.job in w.files && w.files[w.busy.e.job].terminal.Some? && !w.files[w.busy.e.job].acknowledged
    requires !Promised(w, w.busy.e.job) && w.busy.e.job !in w.cloud.results
    requires forall e :: e in w.up ==> e.job != w.busy.e.job
    ensures Steps(Act(w, Crash), acts, w.busy.e.job, ReoffersCanceled) == 0 ==>
      Unsettleable(Play(Act(w, Crash), acts), w.busy.e.job)
    ensures Steps(Act(w, Crash), acts, w.busy.e.job, ReoffersEnded) == 0 ==>
      Unsent(Play(Act(w, Crash), acts), w.busy.e.job)
  {
    ActKeepsSafe(w, Crash);
    CrashLeavesLost(w);
    var n, job := Act(w, Crash), w.busy.e.job;
    if Steps(n, acts, job, ReoffersCanceled) == 0 {
      UnsettleableForEver(n, acts, job);
    }
    if Steps(n, acts, job, ReoffersEnded) == 0 {
      UnsentForEver(n, acts, job);
    }
  }

  lemma CrashLeavesLost(w: World)
    requires Safe(w) && w.busy.Putting?
    requires w.busy.e.job in w.files && w.files[w.busy.e.job].terminal.Some? && !w.files[w.busy.e.job].acknowledged
    requires !Promised(w, w.busy.e.job) && w.busy.e.job !in w.cloud.results
    requires forall e :: e in w.up ==> e.job != w.busy.e.job
    ensures Unsettleable(Act(w, Crash), w.busy.e.job) && Unsent(Act(w, Crash), w.busy.e.job)
  {
  }

  /** Conversely, that is the only way: a journalled terminal with no stored message was hit in that window. */
  lemma LostOnlyBetweenWrites(acts: seq<Action>, job: JobId)
    requires job in Play(START, acts).files && Play(START, acts).files[job].terminal.Some?
    requires !Promised(Play(START, acts), job) && Play(START, acts).busy == Idle
    ensures job in Play(START, acts).stranded
  {
    PlayKeepsSafe(START, acts);
  }

  // ---- an ended job offered again ----

  /** The job is offered again, refuses to run, and is canceled (by the cloud, or by stopping the Worker). */
  function ReofferedAndCanceled(w: World, job: JobId, attempt: Option<AttemptId>, second: MessageId, at: int): World {
    Act(Act(w, Begin(job, attempt)), Finish(job, JobCanceled, second, at))
  }

  lemma EndedRefusesToRun(r: Record)
    requires Coherent(r) && r.terminal.Some?
    ensures !Writable(r, Run)
    ensures forall m :: Writable(r, Terminate(Given(JobCanceled), Given(m))) <==> r.terminal == Some(JobCanceled)
    ensures forall m :: r.terminal == Some(JobCanceled) ==> Rewrite(r, Terminate(Given(JobCanceled), Given(m))) == r
  {
  }

  lemma ReofferCommits(w: World, job: JobId, attempt: Option<AttemptId>, second: MessageId, at: int)
    requires Safe(w) && Takes(w, job) && Ended(w, job) && second !in w.made
    ensures var e := Envelope(second, job, TerminalEvent(JobCanceled), at);
      ReofferedAndCanceled(w, job, attempt, second, at) ==
        w.(made := w.made[second := e], memory := w.memory[job := e],
           busy := if w.files[job].terminal == Some(JobCanceled) then Putting(e, true) else Idle)
  {
    hide Safe, Rewrite, Refusal;
    var e := Envelope(second, job, TerminalEvent(JobCanceled), at);
    FileIsCoherent(w, job);
    EndedRefusesToRun(w.files[job]);
    var b := Act(w, Begin(job, attempt));
    assert b == w.(idle := w.idle + {job});
    assert Released(b, job) == w;
    if w.files[job].terminal == Some(JobCanceled) {
      assert w.files[job := w.files[job]] == w.files;
    }
  }

  lemma FileIsCoherent(w: World, job: JobId)
    requires Safe(w) && job in w.files
    ensures Coherent(w.files[job])
  {
  }

  function Proceeded3(w: World): World {
    Proceeded(Proceeded(Proceeded(w, None), None), None)
  }

  /**
   * If the record is canceled, the second cancel goes out under a new message id: it is stored and published,
   * the job then has two messages if it had one, and an acknowledged job is unacknowledged again. If the record
   * ended otherwise the journal refuses, and nothing is stored.
   */
  lemma ReofferedCancelIsSentAgain(w: World, job: JobId, attempt: Option<AttemptId>, second: MessageId, at: int)
    requires Safe(w) && Takes(w, job) && Ended(w, job) && second !in w.made
    ensures var n := Proceeded3(ReofferedAndCanceled(w, job, attempt, second, at));
      && n.busy == Idle && n.cloud == w.cloud
      && (second in n.store.pending <==> w.files[job].terminal == Some(JobCanceled))
      && (second in n.store.pending ==>
            && n.store.pending[second] == Envelope(second, job, TerminalEvent(JobCanceled), at)
            && n.store.pending[second] in n.up && job in n.files && !Acknowledged(n, job)
            && (Promised(w, job) ==> !AtMostOne(n.persisted, job)))
  {
    ReofferCommits(w, job, attempt, second, at);
    var e := Envelope(second, job, TerminalEvent(JobCanceled), at);
    var c := ReofferedAndCanceled(w, job, attempt, second, at);
    if w.files[job].terminal == Some(JobCanceled) {
      PutPublishes(c, e);
      var n := Proceeded3(c);
      assert n.persisted == w.persisted[second := e];
      if Promised(w, job) {
        var m :| m in w.persisted && w.persisted[m].job == job;
        assert m in w.made;
        assert n.persisted[m].job == job && n.persisted[second].job == job;
      }
    } else {
      assert second !in w.persisted;
    }
  }

  lemma PutPublishes(w: World, e: Envelope)
    requires w.busy == Putting(e, true) && e.job in w.files && e.content.TerminalEvent?
    ensures var n := Proceeded3(w);
      && n.busy == Idle && n.cloud == w.cloud && n.made == w.made
      && n.persisted == w.persisted[e.message := e] && n.store.pending == w.store.pending[e.message := e]
      && e in n.up && e.job in n.files && !Acknowledged(n, e.job)
  {
  }

  /**
   * So a lost cancel can still be settled: after a re-offer and a cancel one delivery in time settles it iff the
   * cloud has no terminal for the job yet.
   */
  lemma LostCancelCanStillSettle(w: World, job: JobId, attempt: Option<AttemptId>, second: MessageId, at: int)
    requires Safe(w) && Takes(w, job) && job in w.files && w.files[job].terminal == Some(JobCanceled)
    requires second !in w.made
    ensures var n := Proceeded3(ReofferedAndCanceled(w, job, attempt, second, at));
      && second in n.store.pending
      && (Acknowledged(Delivered(n, second, at, true, None), job) <==> job !in w.cloud.results)
  {
    hide Safe, Act, Delivered, Proceeded3, ReofferedAndCanceled;
    ReofferedCancelIsSentAgain(w, job, attempt, second, at);
    ReofferStaysSafe(w, job, attempt, second, at);
    var n := Proceeded3(ReofferedAndCanceled(w, job, attempt, second, at));
    FreshIsUnseen(w, second);
    PendingDelivers(n, second, at, true, None);
    if job in w.cloud.results {
      FreshIsNoResult(w, job, second);
    }
  }

  lemma ReofferStaysSafe(w: World, job: JobId, attempt: Option<AttemptId>, second: MessageId, at: int)
    requires Safe(w)
    ensures Safe(Proceeded3(ReofferedAndCanceled(w, job, attempt, second, at)))
  {
    hide Safe;
    ActKeepsSafe(w, Begin(job, attempt));
    var c := ReofferedAndCanceled(w, job, attempt, second, at);
    ActKeepsSafe(Act(w, Begin(job, attempt)), Finish(job, JobCanceled, second, at));
    ProceedKeepsSafe(c, None);
    ProceedKeepsSafe(Proceeded(c, None), None);
    ProceedKeepsSafe(Proceeded(Proceeded(c, None), None), None);
  }

  lemma FreshIsUnseen(w: World, m: MessageId)
    requires Safe(w) && m !in w.made
    ensures m !in w.cloud.seen && m !in w.persisted
  {
  }

  lemma FreshIsNoResult(w: World, job: JobId, m: MessageId)
    requires Safe(w) && m !in w.made && job in w.cloud.results
    ensures w.cloud.results[job].message != m
  {
  }

  /**
   * If the record ended otherwise, the refused cancel stays in memory, and the next offer publishes it: the cloud
   * books a cancellation for a job that the journal says succeeded or failed.
   */
  lemma RefusedCancelIsBooked(w: World, job: JobId, attempt: Option<AttemptId>, second: MessageId, at: int)
    requires Safe(w) && Takes(w, job) && Ended(w, job) && second !in w.made && job !in w.cloud.results
    requires w.files[job].terminal != Some(JobCanceled)
    ensures var e := Envelope(second, job, TerminalEvent(JobCanceled), at);
      var n := Act(Act(ReofferedAndCanceled(w, job, attempt, second, at), RepeatOffer(job)), Receive(e, at, true));
      && second in n.leaked && n.files == w.files && n.store == w.store
      && job in n.cloud.results && n.cloud.results[job] == TerminalResult(JobCanceled, second)
  {
    hide Safe, Rewrite, Refusal;
    ReofferCommits(w, job, attempt, second, at);
    FreshIsUnseen(w, second);
  }
}
