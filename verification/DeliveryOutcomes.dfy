/** How many terminal messages a job gets, and that what is settled is what the journal recorded. */
module DeliveryOutcomes {
  import opened Common
  import opened RecoveryStates
  import opened JournalRecords
  import opened RecoveryClassifier
  import opened PendingAckStore
  import opened Inbox
  import opened Delivery
  import opened DeliveryGuarantees

  // ---- counting ----

  /** The step takes a terminal message of the job past the journal, on to the pending-ack store. */
  predicate Starts(w: World, a: Action, job: JobId) {
    w.busy == Idle && Act(w, a).busy.Putting? && Act(w, a).busy.e.job == job
  }

  /** The step ends a job whose record already has that terminal: the journal takes it for a harmless repeat. */
  predicate Repeats(w: World, a: Action, job: JobId) {
    && a.Finish? && a.job == job && w.busy == Idle && a.message !in w.made
    && MayEnd(w, job, a.kind) && job in w.files && w.files[job].terminal == Some(a.kind)
  }

  predicate Sweeps(w: World, a: Action, job: JobId) {
    a.Sweep? && a.job == job && Forgotten(w, job) != w
  }

  function Steps(w: World, acts: seq<Action>, job: JobId, counts: (World, Action, JobId) -> bool): nat
    decreases |acts|
  {
    if acts == [] then 0
    else (if counts(w, acts[0], job) then 1 else 0) + Steps(Act(w, acts[0]), acts[1..], job, counts)
  }

  function EndedOnce(w: World, job: JobId): nat {
    if Ended(w, job) then 1 else 0
  }

  lemma OnlyEndsStart(w: World, a: Action, job: JobId)
    requires Starts(w, a, job)
    ensures (a.Finish? || a.Resume?) && a.job == job && a.message !in w.made
    ensures a.Finish? ==> MayEnd(w, job, a.kind)
    ensures var kind := if a.Finish? then a.kind else JobCompleted;
      job in w.files && Writable(w.files[job], Terminate(Given(kind), Given(a.message)))
    ensures a.Resume? ==> ClassifyContract(Live(w.files[job])) in {ImportedAsset, Downloaded}
  {
  }

  lemma EndsOnlyByStart(w: World, a: Action, job: JobId)
    requires Safe(w) && Ended(Act(w, a), job) && !Ended(w, job)
    ensures Starts(w, a, job)
  {
    hide Safe, Moves;
    EndingPuts(w, a, job);
    if w.busy != Idle {
      BusyWritesNothing(w, a);
    }
  }

  lemma EndingPuts(w: World, a: Action, job: JobId)
    requires Safe(w) && Ended(Act(w, a), job) && !Ended(w, job)
    ensures Act(w, a).busy.Putting? && Act(w, a).busy.e.job == job
  {
    hide Act, Safe;
    ActMoves(w, a, job);
  }

  lemma BusyWritesNothing(w: World, a: Action)
    requires w.busy != Idle && Act(w, a).busy.Putting?
    ensures Act(w, a).files == w.files
  {
  }

  lemma LeavesOnlyBySweep(w: World, a: Action, job: JobId)
    requires Safe(w) && Ended(w, job) && !Ended(Act(w, a), job)
    ensures Sweeps(w, a, job)
  {
    LeavingLeavesDisk(w, a, job);
    OnlySweepRemoves(w, a, job);
  }

  lemma LeavingLeavesDisk(w: World, a: Action, job: JobId)
    requires Safe(w) && Ended(w, job) && !Ended(Act(w, a), job)
    ensures job !in Act(w, a).files
  {
    hide Act, Safe;
    ActMoves(w, a, job);
  }

  lemma OnlySweepRemoves(w: World, a: Action, job: JobId)
    requires job in w.files && job !in Act(w, a).files
    ensures a.Sweep? && a.job == job
  {
  }

  lemma SweepsTheEnded(w: World, a: Action, job: JobId)
    requires Sweeps(w, a, job)
    ensures Ended(w, job) && !Ended(Act(w, a), job) && !Starts(w, a, job)
  {
    hide Act;
    SweepIsForgetting(w, job);
  }

  lemma SweepIsForgetting(w: World, job: JobId)
    ensures Act(w, Sweep(job)) == Forgotten(w, job)
  {
  }

  lemma RepeatStarts(w: World, a: Action, job: JobId)
    requires Safe(w) && Repeats(w, a, job)
    ensures Starts(w, a, job) && Ended(w, job)
  {
    var m := Terminate(Given(a.kind), Given(a.message));
    assert Coherent(w.files[job]) && Writable(w.files[job], m);
  }

  lemma StartRepeatsOnceEnded(w: World, a: Action, job: JobId)
    requires Safe(w) && Starts(w, a, job) && Ended(w, job)
    ensures Repeats(w, a, job)
  {
    OnlyEndsStart(w, a, job);
    if a.Resume? {
      ResumeNeedsOpen(w.files[job]);
      assert false;
    }
    assert Coherent(w.files[job]);
    TerminateEnds(w.files[job], a.kind, a.message);
  }

  lemma StartEnds(w: World, a: Action, job: JobId)
    requires Safe(w) && Starts(w, a, job)
    ensures Ended(Act(w, a), job) && Ends(Act(w, a), Act(w, a).busy.e)
    ensures !Ended(w, job) ==> Names(Act(w, a), Act(w, a).busy.e)
  {
    hide Act, Safe;
    ActMoves(w, a, job);
  }

  lemma StepConserves(w: World, a: Action, job: JobId)
    requires Safe(w)
    ensures (if Starts(w, a, job) then 1 else 0) + EndedOnce(w, job) ==
      (if Repeats(w, a, job) then 1 else 0) + (if Sweeps(w, a, job) then 1 else 0) + EndedOnce(Act(w, a), job)
  {
    hide Safe, Starts, Repeats, Sweeps, Act, Ended;
    if Starts(w, a, job) {
      StartEnds(w, a, job);
    }
    if Repeats(w, a, job) {
      RepeatStarts(w, a, job);
    } else if Starts(w, a, job) && Ended(w, job) {
      StartRepeatsOnceEnded(w, a, job);
    }
    if Sweeps(w, a, job) {
      SweepsTheEnded(w, a, job);
    } else if Ended(w, job) && !Ended(Act(w, a), job) {
      LeavesOnlyBySweep(w, a, job);
    }
    if Ended(Act(w, a), job) && !Ended(w, job) {
      EndsOnlyByStart(w, a, job);
    }
  }

  /**
   * MAIN: over every run from every safe state, the messages of a job that were taken to the store are one for
   * each time its record was ended, and one for each repeat; a sweep only makes room for another end.
   */
  lemma {:induction false} MessagesAreConserved(w: World, acts: seq<Action>, job: JobId)
    requires Safe(w)
    ensures Steps(w, acts, job, Starts) + EndedOnce(w, job) ==
      Steps(w, acts, job, Repeats) + Steps(w, acts, job, Sweeps) + EndedOnce(Play(w, acts), job)
    decreases |acts|
  {
    hide Starts, Repeats, Sweeps, Safe, Act, EndedOnce;
    if acts != [] {
      ActKeepsSafe(w, acts[0]);
      StepConserves(w, acts[0], job);
      MessagesAreConserved(Act(w, acts[0]), acts[1..], job);
    }
  }

  // ---- at most one message per job ----

  ghost predicate AtMostOne(persisted: map<MessageId, Envelope>, job: JobId) {
    forall m, n :: m in persisted && n in persisted && persisted[m].job == job && persisted[n].job == job ==> m == n
  }

  /** Every stored message of the job, and the one being stored, carries the outcome on record. */
  ghost predicate Agreeing(w: World, job: JobId) {
    && (forall m :: m in w.persisted && w.persisted[m].job == job ==> Ends(w, w.persisted[m]))
    && (w.busy.Putting? && w.busy.e.job == job ==> Ends(w, w.busy.e))
  }

  /** Every stored message of the job, and the one being stored, is the one the record names. */
  ghost predicate OneMessage(w: World, job: JobId) {
    && (forall m :: m in w.persisted && w.persisted[m].job == job ==> Names(w, w.persisted[m]))
    && (w.busy.Putting? && w.busy.e.job == job ==> Names(w, w.busy.e))
  }

  lemma OneMessageIsOne(w: World, job: JobId)
    requires Safe(w) && OneMessage(w, job)
    ensures AtMostOne(w.persisted, job)
  {
    forall m, n | m in w.persisted && n in w.persisted && w.persisted[m].job == job && w.persisted[n].job == job
      ensures m == n
    {
      assert Names(w, w.persisted[m]) && Names(w, w.persisted[n]);
      assert w.persisted[m].message == m && w.persisted[n].message == n;
    }
  }

  lemma PutsOnlyInProceed(w: World, a: Action)
    ensures Act(w, a).persisted == w.persisted
      || (w.busy.Putting? && Act(w, a).busy.Marking? && Act(w, a).persisted == w.persisted[w.busy.e.message := w.busy.e])
  {
  }

  lemma PuttingIsStarted(w: World, a: Action, job: JobId)
    requires Act(w, a).busy.Putting? && Act(w, a).busy.e.job == job
    ensures Act(w, a).busy == w.busy || Starts(w, a, job)
  {
  }

  lemma EndStands(w: World, a: Action, job: JobId)
    requires Safe(w) && Ended(w, job) && !Sweeps(w, a, job)
    ensures Ended(Act(w, a), job) && Act(w, a).files[job].terminal == w.files[job].terminal
    ensures Act(w, a).files[job].terminalMessage == w.files[job].terminalMessage
  {
    hide Act, Safe, Sweeps;
    if !Ended(Act(w, a), job) {
      LeavesOnlyBySweep(w, a, job);
    }
    ActMoves(w, a, job);
  }

  lemma ActKeepsAgreeing(w: World, a: Action, job: JobId)
    requires Safe(w) && Agreeing(w, job) && !Sweeps(w, a, job)
    ensures Agreeing(Act(w, a), job)
  {
    hide Act, Safe, Sweeps, Starts;
    PutsOnlyInProceed(w, a);
    if Ended(w, job) {
      EndStands(w, a, job);
    }
    if Act(w, a).busy.Putting? && Act(w, a).busy.e.job == job {
      PuttingIsStarted(w, a, job);
      if Starts(w, a, job) {
        StartEnds(w, a, job);
      }
    }
  }

  lemma ActKeepsOneMessage(w: World, a: Action, job: JobId)
    requires Safe(w) && OneMessage(w, job) && !Sweeps(w, a, job) && !Repeats(w, a, job)
    ensures OneMessage(Act(w, a), job)
  {
    hide Act, Safe, Sweeps, Starts, Repeats;
    PutsOnlyInProceed(w, a);
    if Ended(w, job) {
      EndStands(w, a, job);
    }
    if Act(w, a).busy.Putting? && Act(w, a).busy.e.job == job {
      PuttingIsStarted(w, a, job);
      if Starts(w, a, job) {
        StartEnds(w, a, job);
        if Ended(w, job) {
          StartRepeatsOnceEnded(w, a, job);
        }
      }
    }
  }

  lemma {:induction false} PlayKeepsAgreeing(w: World, acts: seq<Action>, job: JobId)
    requires Safe(w) && Agreeing(w, job) && Steps(w, acts, job, Sweeps) == 0
    ensures Agreeing(Play(w, acts), job)
    decreases |acts|
  {
    hide Safe, Act, Agreeing, Sweeps;
    if acts != [] {
      ActKeepsSafe(w, acts[0]);
      ActKeepsAgreeing(w, acts[0], job);
      PlayKeepsAgreeing(Act(w, acts[0]), acts[1..], job);
    }
  }

  lemma {:induction false} PlayKeepsOneMessage(w: World, acts: seq<Action>, job: JobId)
    requires Safe(w) && OneMessage(w, job) && Steps(w, acts, job, Sweeps) == 0 && Steps(w, acts, job, Repeats) == 0
    ensures OneMessage(Play(w, acts), job)
    decreases |acts|
  {
    hide Safe, Act, OneMessage, Sweeps, Repeats;
    if acts != [] {
      ActKeepsSafe(w, acts[0]);
      ActKeepsOneMessage(w, acts[0], job);
      PlayKeepsOneMessage(Act(w, acts[0]), acts[1..], job);
    }
  }

  lemma {:induction false} RepeatsLeaveItEnded(w: World, acts: seq<Action>, job: JobId)
    requires Safe(w) && Steps(w, acts, job, Sweeps) == 0
    requires Ended(w, job) || Steps(w, acts, job, Repeats) > 0
    ensures Ended(Play(w, acts), job)
    decreases |acts|
  {
    hide Safe, Act, Sweeps, Repeats, Ended;
    if acts != [] {
      ActKeepsSafe(w, acts[0]);
      if Repeats(w, acts[0], job) {
        RepeatStarts(w, acts[0], job);
      }
      if Ended(w, job) {
        EndStands(w, acts[0], job);
      }
      RepeatsLeaveItEnded(Act(w, acts[0]), acts[1..], job);
    }
  }

  /**
   * MAIN: as long as the job's record is not swept, no second message of the job is ever taken to the store iff no
   * step ends the job while its record already has that terminal. Then whatever is stored for the job is the one
   * message its record names.
   */
  lemma OneMessageExactly(acts: seq<Action>, job: JobId)
    requires Steps(START, acts, job, Sweeps) == 0
    ensures Steps(START, acts, job, Starts) <= 1 <==> Steps(START, acts, job, Repeats) == 0
    ensures Steps(START, acts, job, Repeats) == 0 ==>
      OneMessage(Play(START, acts), job) && AtMostOne(Play(START, acts).persisted, job)
  {
    hide Starts, Repeats, Sweeps;
    MessagesAreConserved(START, acts, job);
    if Steps(START, acts, job, Repeats) == 0 {
      PlayKeepsOneMessage(START, acts, job);
      PlayKeepsSafe(START, acts);
      OneMessageIsOne(Play(START, acts), job);
    } else {
      RepeatsLeaveItEnded(START, acts, job);
    }
  }

  lemma StartIsSound(job: JobId)
    ensures Safe(START) && Agreeing(START, job) && OneMessage(START, job)
  {
  }

  lemma AgreeingSettles(w: World, job: JobId)
    requires Safe(w) && Agreeing(w, job) && Acknowledged(w, job)
    ensures Ended(w, job) && job in w.cloud.results
    ensures w.cloud.results[job].kind == w.files[job].terminal.value
  {
    assert AcceptedByCloud(w, job);
    var m :| m in w.persisted && w.persisted[m].job == job && m in w.cloud.seen && w.cloud.seen[m] == AckAccepted;
    assert w.made[m] == w.persisted[m] && Ends(w, w.persisted[m]);
  }

  /** What the cloud settled and the journal acknowledged is the outcome the journal recorded, in every such run. */
  lemma AcknowledgedOutcomeAgrees(acts: seq<Action>, job: JobId)
    requires Steps(START, acts, job, Sweeps) == 0
    requires Acknowledged(Play(START, acts), job)
    ensures Ended(Play(START, acts), job) && job in Play(START, acts).cloud.results
    ensures Play(START, acts).cloud.results[job].kind == Play(START, acts).files[job].terminal.value
  {
    hide Sweeps, Safe, Agreeing, Act;
    StartIsSound(job);
    PlayKeepsSafe(START, acts);
    PlayKeepsAgreeing(START, acts, job);
    AgreeingSettles(Play(START, acts), job);
  }

  // ---- what a caller can check: how a second end is set up ----

  /** Finding the results of a job whose handler is still running, on a reconnect without a restart. */
  predicate ResumesActive(w: World, a: Action, job: JobId) {
    a.Resume? && a.job == job && job in w.active
  }

  /** Taking up an offer for a job whose record is canceled. */
  predicate ReoffersCanceled(w: World, a: Action, job: JobId) {
    a.Begin? && a.job == job && Takes(w, job) && job in w.files && w.files[job].terminal == Some(JobCanceled)
  }

  /** The job has no terminal yet, or nothing in memory can write it again. */
  predicate Unarmed(w: World, job: JobId) {
    Ended(w, job) ==> Closed(w, job)
  }

  lemma ActKeepsUnarmed(w: World, a: Action, job: JobId)
    requires Safe(w) && Unarmed(w, job) && !ResumesActive(w, a, job) && !ReoffersCanceled(w, a, job)
    ensures Unarmed(Act(w, a), job)
  {
    hide Safe, Act, Starts;
    ActMoves(w, a, job);
    if Ended(Act(w, a), job) {
      if Ended(w, job) {
        if job in Act(w, a).idle && job !in w.idle {
          NewlyIdle(w, a, job);
        }
      } else {
        EndsOnlyByStart(w, a, job);
        StartReleases(w, a, job);
      }
    }
  }

  lemma NewlyIdle(w: World, a: Action, job: JobId)
    requires job in Act(w, a).idle && job !in w.idle
    ensures a.Begin? && a.job == job && Takes(w, job)
  {
  }

  lemma StartReleases(w: World, a: Action, job: JobId)
    requires Safe(w) && Starts(w, a, job) && !Ended(w, job) && !ResumesActive(w, a, job)
    ensures Closed(Act(w, a), job)
  {
    StartEnds(w, a, job);
    StartsInMemory(w, a, job);
  }

  lemma StartsInMemory(w: World, a: Action, job: JobId)
    requires Starts(w, a, job)
    ensures (a.Finish? || a.Resume?) && a.job == job
    ensures a.Finish? ==> job !in Act(w, a).active && job !in Act(w, a).idle
    ensures a.Resume? ==> Act(w, a).active == w.active && Act(w, a).busy.e.content == TerminalEvent(JobCompleted)
  {
  }

  lemma {:induction false} UnarmedNeverRepeats(w: World, acts: seq<Action>, job: JobId)
    requires Safe(w) && Unarmed(w, job)
    requires Steps(w, acts, job, ResumesActive) == 0 && Steps(w, acts, job, ReoffersCanceled) == 0
    ensures Steps(w, acts, job, Repeats) == 0
    decreases |acts|
  {
    hide Safe, Act, ResumesActive, ReoffersCanceled;
    if acts != [] {
      ActKeepsSafe(w, acts[0]);
      ActKeepsUnarmed(w, acts[0], job);
      UnarmedNeverRepeats(Act(w, acts[0]), acts[1..], job);
    }
  }

  /**
   * Unless results are resumed over a running handler, or an offer is taken up for a job whose record is canceled,
   * at most one terminal message per job is ever stored.
   */
  lemma OneTerminalMessagePerJob(acts: seq<Action>, job: JobId)
    requires Steps(START, acts, job, Sweeps) == 0
    requires Steps(START, acts, job, ResumesActive) == 0 && Steps(START, acts, job, ReoffersCanceled) == 0
    ensures Steps(START, acts, job, Starts) <= 1
    ensures OneMessage(Play(START, acts), job) && AtMostOne(Play(START, acts).persisted, job)
  {
    hide Starts, Repeats, Sweeps, ResumesActive, ReoffersCanceled;
    UnarmedNeverRepeats(START, acts, job);
    OneMessageExactly(acts, job);
  }

  /** Resuming over a running handler does lead to a second message, as soon as the handler completes. */
  lemma ResumingAnActiveJobSendsTwice(w: World, job: JobId, first: MessageId, second: MessageId, at: int)
    requires Safe(w) && w.busy == Idle && job in w.active && job in w.files
    requires ClassifyContract(Live(w.files[job])) in {ImportedAsset, Downloaded} && w.files[job].localResultRef.Some?
    requires first !in w.made && second !in w.made && first != second
    ensures var n := Proceeded(Proceeded(Act(w, Resume(job, first, at)), None), None);
      !AtMostOne(Proceeded(Act(n, Finish(job, JobCompleted, second, at)), None).persisted, job)
  {
    ResumedIsCompleted(w.files[job], first, second);
    ResumeStores(w, job, first, at);
    var n := Proceeded(Proceeded(Act(w, Resume(job, first, at)), None), None);
    FinishStores(n, job, second, at);
    var last := Proceeded(Act(n, Finish(job, JobCompleted, second, at)), None).persisted;
    assert last[first].job == job && last[second].job == job;
  }

  lemma ResumeStores(w: World, job: JobId, first: MessageId, at: int)
    requires Safe(w) && w.busy == Idle && job in w.files && first !in w.made
    requires ClassifyContract(Live(w.files[job])) in {ImportedAsset, Downloaded} && w.files[job].localResultRef.Some?
    requires Writable(w.files[job], Terminate(Given(JobCompleted), Given(first)))
    ensures var n := Proceeded(Proceeded(Act(w, Resume(job, first, at)), None), None);
      && n.busy == Idle && n.active == w.active && job in n.files
      && n.made == w.made[first := Envelope(first, job, TerminalEvent(JobCompleted), at)]
      && n.persisted == w.persisted[first := Envelope(first, job, TerminalEvent(JobCompleted), at)]
      && n.files[job] == Rewrite(Rewrite(w.files[job], Terminate(Given(JobCompleted), Given(first))), AckPending(Given(first)))
  {
  }

  lemma FinishStores(w: World, job: JobId, second: MessageId, at: int)
    requires w.busy == Idle && job in w.files && job in w.active && second !in w.made
    requires Writable(w.files[job], Terminate(Given(JobCompleted), Given(second)))
    ensures Proceeded(Act(w, Finish(job, JobCompleted, second, at)), None).persisted ==
      w.persisted[second := Envelope(second, job, TerminalEvent(JobCompleted), at)]
  {
  }

  lemma ResumedIsCompleted(r: Record, first: MessageId, second: MessageId)
    requires Coherent(r) && ClassifyContract(Live(r)) in {ImportedAsset, Downloaded}
    ensures var done := Terminate(Given(JobCompleted), Given(first));
      && Writable(r, done)
      && Writable(Rewrite(Rewrite(r, done), AckPending(Given(first))), Terminate(Given(JobCompleted), Given(second)))
  {
  }
}
