/** What terminal delivery guarantees over every run, and exactly where it stops guaranteeing it. */
module DeliveryGuarantees {
  import opened Common
  import opened RecoveryStates
  import opened JournalRecords
  import opened RecoveryClassifier
  import opened PendingAckStore
  import opened Inbox
  import opened Delivery

  /**
   * MAIN: over every run, with any loss, duplication, reordering and crashes: a job's terminal is applied at most
   * once; a message id never stands for two different messages; a message that reached the store is still
   * pending, or accepted, or set aside after a refusal; nothing is published before it was stored, except a
   * memory copy repeated to a duplicate offer; and the journal says acknowledged only if the cloud accepted.
   */
  lemma DeliveryIsSafe(acts: seq<Action>)
    ensures Safe(Play(START, acts))
    ensures forall j :: Play(START, acts).cloud.applications[j] <= 1
    ensures forall e, f :: e in Play(START, acts).up && f in Play(START, acts).up && e.message == f.message ==> e == f
    ensures forall j :: j in Play(START, acts).files && Play(START, acts).files[j].acknowledged ==>
      && j in Play(START, acts).cloud.results
      && Play(START, acts).cloud.results[j].message in Play(START, acts).persisted
  {
    PlayKeepsSafe(START, acts);
    var w := Play(START, acts);
    forall e, f | e in w.up && f in w.up && e.message == f.message ensures e == f {
      assert Known(w.made, e) && Known(w.made, f);
    }
    forall j | j in w.files && w.files[j].acknowledged
      ensures j in w.cloud.results && w.cloud.results[j].message in w.persisted
    {
      assert AcceptedByCloud(w, j);
      var m :| m in w.persisted && w.persisted[m].job == j && m in w.cloud.seen && w.cloud.seen[m] == AckAccepted;
      assert w.made[m] == w.persisted[m];
    }
  }

  // ---- the cloud's answer is final ----

  lemma {:induction false} AnswersAreFinal(w: World, acts: seq<Action>)
    ensures forall m :: m in w.cloud.seen ==>
      m in Play(w, acts).cloud.seen && Play(w, acts).cloud.seen[m] == w.cloud.seen[m]
    ensures forall j :: j in w.cloud.results ==>
      j in Play(w, acts).cloud.results && Play(w, acts).cloud.results[j] == w.cloud.results[j]
    decreases |acts|
  {
    if acts != [] {
      AnswerStands(w, acts[0]);
      AnswersAreFinal(Act(w, acts[0]), acts[1..]);
    }
  }

  lemma AnswerStands(w: World, a: Action)
    ensures forall m :: m in w.cloud.seen ==> m in Act(w, a).cloud.seen && Act(w, a).cloud.seen[m] == w.cloud.seen[m]
    ensures forall j :: j in w.cloud.results ==>
      j in Act(w, a).cloud.results && Act(w, a).cloud.results[j] == w.cloud.results[j]
  {
  }

  /** Once answered, a message received again at any later time changes nothing and gets the first answer. */
  lemma DuplicateOnlyReplays(w: World, acts: seq<Action>, e: Envelope, at: int, allowed: bool)
    requires e.message in w.cloud.seen && e in Play(w, acts).up && e.content.TerminalEvent?
    ensures var n := Play(w, acts);
      Act(n, Receive(e, at, allowed)) == n.(down := n.down + {Ack(e.message, e.job, w.cloud.seen[e.message])})
  {
    AnswersAreFinal(w, acts);
  }

  // ---- a stored message can be delivered, exactly while it is fresh ----

  /** One replay, one receipt, one acknowledgement. */
  function Delivered(w: World, m: MessageId, at: int, allowed: bool, now: Option<int>): World
    requires m in w.store.pending
  {
    var e := w.store.pending[m];
    var received := Act(Act(w, Replay(m)), Receive(e, at, allowed));
    Act(Act(received, AckArrives(Ack(m, e.job, AckAccepted))), Proceed(now))
  }

  /** The job settles iff the cloud sees the message in time, may take it, and has no other terminal for the job. */
  lemma PendingDelivers(w: World, m: MessageId, at: int, allowed: bool, now: Option<int>)
    requires Safe(w) && w.busy == Idle && m in w.store.pending && m !in w.cloud.seen
    requires w.store.pending[m].job in w.files && !w.files[w.store.pending[m].job].acknowledged
    ensures Acknowledged(Delivered(w, m, at, allowed, now), w.store.pending[m].job) <==>
      InSkew(w.store.pending[m], at) && allowed && NoConflict(w.cloud, w.store.pending[m])
    ensures Acknowledged(Delivered(w, m, at, allowed, now), w.store.pending[m].job) ==>
      m !in Delivered(w, m, at, allowed, now).store.pending
  {
    hide Received, InSkew, NoConflict, Rewrite, Safe, Acked, Arrived, Proceeded;
    UnseenPending(w, m);
    var e := w.store.pending[m];
    var w1 := Replayed(w, m);
    var w2 := Arrived(w1, e, at, allowed);
    ReceiptAnswers(w1, e, at, allowed);
    if InSkew(e, at) && allowed && NoConflict(w.cloud, e) {
      AnswerSettles(w2, m, now);
    } else {
      SilenceSettlesNothing(w2, Ack(m, e.job, AckAccepted), now);
    }
  }

  lemma UnseenPending(w: World, m: MessageId)
    requires Safe(w) && m in w.store.pending && m !in w.cloud.seen
    ensures w.store.pending[m].message == m && w.store.pending[m].content.TerminalEvent?
    ensures Ack(m, w.store.pending[m].job, AckAccepted) !in w.down
  {
  }

  lemma SilenceSettlesNothing(w: World, a: Ack, now: Option<int>)
    requires w.busy == Idle && a !in w.down
    ensures Proceeded(Acked(w, a), now) == w
  {
  }

  lemma AnswerSettles(w: World, m: MessageId, now: Option<int>)
    requires w.busy == Idle && m in w.store.pending && w.store.pending[m].job in w.files
    requires Ack(m, w.store.pending[m].job, AckAccepted) in w.down
    ensures var n := Proceeded(Acked(w, Ack(m, w.store.pending[m].job, AckAccepted)), now);
      Acknowledged(n, w.store.pending[m].job) && m !in n.store.pending
  {
  }

  lemma ReceiptAnswers(w: World, e: Envelope, at: int, allowed: bool)
    requires e in w.up && e.content.TerminalEvent? && e.message !in w.cloud.seen
    ensures var n := Arrived(w, e, at, allowed);
      && n == w.(cloud := n.cloud, down := n.down)
      && n.down <= w.down + {Ack(e.message, e.job, AckAccepted), Ack(e.message, e.job, AckRejected)}
      && (InSkew(e, at) && allowed && NoConflict(w.cloud, e) ==> Ack(e.message, e.job, AckAccepted) in n.down)
      && (!(InSkew(e, at) && allowed && NoConflict(w.cloud, e)) ==> n.down <= w.down + {Ack(e.message, e.job, AckRejected)})
  {
  }

  /**
   * A replay carries the original `sentAt`, where the documents say it is stamped again. So a message whose first
   * arrival is late is never answered: it stays pending for ever, however often it is replayed.
   */
  lemma {:induction false} LateMessageNeverAnswered(w: World, acts: seq<Action>, m: MessageId)
    requires Safe(w) && m in w.store.pending && m !in w.cloud.seen
    requires forall e, at, allowed :: Receive(e, at, allowed) in acts && e.message == m ==> !InSkew(e, at)
    ensures m in Play(w, acts).store.pending && m !in Play(w, acts).cloud.seen
    decreases |acts|
  {
    hide Safe, Act, InSkew;
    if acts != [] {
      assert acts[0] in acts;
      ActKeepsSafe(w, acts[0]);
      LateStaysPending(w, acts[0], m);
      forall e, at, allowed | Receive(e, at, allowed) in acts[1..] ensures Receive(e, at, allowed) in acts {
      }
      LateMessageNeverAnswered(Act(w, acts[0]), acts[1..], m);
    }
  }

  lemma MostActionsLeaveMessages(w: World, a: Action)
    requires !a.Receive? && !a.AckArrives? && !(a.Proceed? && w.busy.Putting?)
    ensures Act(w, a).store == w.store && Act(w, a).cloud == w.cloud
  {
  }

  lemma LateStaysPending(w: World, a: Action, m: MessageId)
    requires Safe(w) && m in w.store.pending && m !in w.cloud.seen
    requires a.Receive? && a.e.message == m ==> !InSkew(a.e, a.at)
    ensures m in Act(w, a).store.pending && m !in Act(w, a).cloud.seen
  {
    hide Safe, Acked, Arrived, Proceeded, Begun, Worked, Finished, Resumed, Replayed, Repeated, Forgotten;
    match a
    case AckArrives(ack) => LateAnswer(w, ack, m);
    case Receive(e, at, allowed) => LateReceipt(w, e, at, allowed, m);
    case Proceed(now) =>
      if w.busy.Putting? {
        LatePut(w, now, m);
      } else {
        MostActionsLeaveMessages(w, a);
      }
    case _ => MostActionsLeaveMessages(w, a);
  }

  lemma LatePut(w: World, now: Option<int>, m: MessageId)
    requires w.busy.Putting? && m in w.store.pending
    ensures m in Proceeded(w, now).store.pending && Proceeded(w, now).cloud == w.cloud
  {
  }

  lemma LateAnswer(w: World, a: Ack, m: MessageId)
    requires Safe(w) && m in w.store.pending && m !in w.cloud.seen
    ensures m in Acked(w, a).store.pending && Acked(w, a).cloud == w.cloud
  {
    hide Registered, NothingLost, PersistedBeforePublished, JournalTruthful;
    assert a in w.down ==> a.message in w.cloud.seen;
  }

  lemma LateReceipt(w: World, e: Envelope, at: int, allowed: bool, m: MessageId)
    requires m !in w.cloud.seen && (e.message == m ==> !InSkew(e, at))
    ensures Arrived(w, e, at, allowed).store == w.store && m !in Arrived(w, e, at, allowed).cloud.seen
  {
  }

  // ---- what one action can do to one job ----

  predicate Ended(w: World, job: JobId) {
    job in w.files && w.files[job].terminal.Some?
  }

  predicate Acknowledged(w: World, job: JobId) {
    job in w.files && w.files[job].acknowledged
  }

  /** The job's record has the outcome this message carries. */
  predicate Ends(w: World, e: Envelope) {
    Ended(w, e.job) && e.content == TerminalEvent(w.files[e.job].terminal.value)
  }

  /** And names this message as the one that carries it. */
  predicate Names(w: World, e: Envelope) {
    Ends(w, e) && w.files[e.job].terminalMessage == Some(e.message)
  }

  /** The job has its terminal and nothing in memory can write that terminal again. */
  predicate Closed(w: World, job: JobId) {
    Ended(w, job) && !MayEnd(w, job, w.files[job].terminal.value)
  }

  ghost predicate Owes(w: World, job: JobId) {
    exists m :: m in w.store.pending && w.store.pending[m].job == job
  }

  predicate BusyWith(b: Busy, job: JobId) {
    match b
    case Idle => false
    case Putting(e, _) => e.job == job
    case Marking(e, _) => e.job == job
    case Publishing(e) => e.job == job
    case Settling(j, _) => j == job
  }

  /** The only ways a job's record, handler, write in progress and stored messages change in one action. */
  ghost predicate Moves(w: World, n: World, job: JobId) {
    && (Ended(w, job) ==> Ended(n, job) || (Acknowledged(w, job) && job !in n.files))
    && (Ended(w, job) && Ended(n, job) ==>
          n.files[job].terminal == w.files[job].terminal && n.files[job].terminalMessage == w.files[job].terminalMessage)
    && (Ended(n, job) && !Ended(w, job) ==> n.busy.Putting? && n.busy.e.job == job)
    && (Acknowledged(n, job) ==> Acknowledged(w, job) || (w.busy.Settling? && w.busy.job == job))
    && (job in n.active && job !in w.active ==> !Ended(w, job) && job in n.files)
    && (job in n.idle && job !in w.idle ==> Takes(w, job) && job in w.files && !Writable(w.files[job], Run))
    && (job in w.files && job !in n.files ==> Ended(w, job))
    && (BusyWith(n.busy, job) && !BusyWith(w.busy, job) ==>
          || (n.busy.Putting? && Ends(n, n.busy.e) && !Closed(w, job) && (!Ended(w, job) ==> Names(n, n.busy.e)))
          || (n.busy.Settling? && Owes(w, job)))
    && (Owes(n, job) ==> Owes(w, job) || (w.busy.Putting? && w.busy.e.job == job))
  }

  lemma WriteMoves(w: World, n: World, changed: JobId, r: Record, m: Mark, job: JobId)
    requires r == if changed in w.files then w.files[changed] else Fresh(r.attempt)
    requires Writable(r, m) && !m.Terminate? && !m.Acknowledge?
    requires n == w.(files := w.files[changed := Rewrite(r, m)], active := n.active)
    requires n.active == w.active || (n.active == w.active + {changed} && !Ended(w, changed))
    ensures Moves(w, n, job)
  {
  }

  lemma BeginMoves(w: World, id: JobId, attempt: Option<AttemptId>, job: JobId)
    requires Safe(w)
    ensures Moves(w, Begun(w, id, attempt), job)
  {
    var r := if id in w.files then w.files[id] else Fresh(attempt);
    var n := Begun(w, id, attempt);
    if Takes(w, id) && Writable(r, Run) {
      RunNeedsOpen(r);
      WriteMoves(w, n, id, r, Run, job);
    } else if Takes(w, id) {
      HoldMoves(w, id, job);
    }
  }

  lemma HoldMoves(w: World, id: JobId, job: JobId)
    requires Takes(w, id) && id in w.files && !Writable(w.files[id], Run)
    ensures Moves(w, w.(idle := w.idle + {id}), job)
  {
  }

  lemma RunNeedsOpen(r: Record)
    requires Writable(r, Run)
    ensures !IsTerminal(r.localState)
  {
  }

  lemma TerminateEnds(r: Record, kind: TerminalType, message: MessageId)
    requires Coherent(r) && Writable(r, Terminate(Given(kind), Given(message)))
    ensures Rewrite(r, Terminate(Given(kind), Given(message))).terminal == Some(kind)
    ensures r.terminal.Some? ==> r.terminal == Some(kind)
    ensures var next := Rewrite(r, Terminate(Given(kind), Given(message)));
      next.acknowledged == r.acknowledged && next.terminalMessage == if r.terminal.Some? then r.terminalMessage else Some(message)
  {
  }

  lemma EndMoves(w: World, n: World, e: Envelope, publish: bool, next: Record, job: JobId)
    requires e.job in w.files && e.content.TerminalEvent? && w.busy == Idle
    requires n == w.(active := n.active, idle := n.idle, memory := n.memory, made := n.made,
                     files := w.files[e.job := next], busy := Putting(e, publish))
    requires n.active <= w.active && n.idle <= w.idle
    requires next.terminal == Some(e.content.kind) && next.acknowledged == w.files[e.job].acknowledged
    requires next.terminalMessage == if Ended(w, e.job) then w.files[e.job].terminalMessage else Some(e.message)
    requires Ended(w, e.job) ==> next.terminal == w.files[e.job].terminal && MayEnd(w, e.job, e.content.kind)
    ensures Moves(w, n, job)
  {
  }

  /** `v` is `w` with the job released and its message remembered, or `w` itself. */
  lemma CommitMoves(w: World, v: World, e: Envelope, publish: bool, job: JobId)
    requires Safe(w) && w.busy == Idle && e.content.TerminalEvent?
    requires v == w.(active := v.active, idle := v.idle, memory := v.memory)
    requires v.active <= w.active && v.idle <= w.idle
    requires MayEnd(w, e.job, e.content.kind) || !Ended(w, e.job)
    ensures Moves(w, Committed(v, e, publish), job)
  {
    hide Rewrite, Refusal, ArgumentError, Coherent, Moves;
    var n := Committed(v, e, publish);
    var m := Terminate(Given(e.content.kind), Given(e.message));
    if e.job in w.files && Writable(w.files[e.job], m) {
      TerminateEnds(w.files[e.job], e.content.kind, e.message);
      EndMoves(w, n, e, publish, Rewrite(w.files[e.job], m), job);
    } else {
      QuietMoves(w, n, job);
    }
  }

  lemma ResumeNeedsOpen(r: Record)
    requires ClassifyContract(Live(r)) in {ImportedAsset, Downloaded}
    ensures r.terminal.None?
  {
  }

  lemma RewrittenMoves(w: World, n: World, changed: JobId, next: Record, job: JobId)
    requires n == w.(files := w.files[changed := next], busy := n.busy) && changed in w.files
    requires n.busy == Idle || (w.busy.Marking? && n.busy == Publishing(w.busy.e))
    requires next.terminal == w.files[changed].terminal && next.terminalMessage == w.files[changed].terminalMessage
    requires next.acknowledged ==> Acknowledged(w, changed) || (w.busy.Settling? && w.busy.job == changed)
    ensures Moves(w, n, job)
  {
  }

  /** Nothing on disk grows, no handler starts, and the Worker at most goes on with what it was doing. */
  lemma QuietMoves(w: World, n: World, job: JobId)
    requires n.files == w.files && n.active <= w.active && n.idle <= w.idle
    requires n.busy == Idle || n.busy == w.busy || (w.busy.Marking? && n.busy == Publishing(w.busy.e))
    requires forall m :: m in n.store.pending ==> m in w.store.pending && n.store.pending[m] == w.store.pending[m]
    ensures Moves(w, n, job)
  {
  }

  lemma PutMoves(w: World, now: Option<int>, job: JobId)
    requires w.busy.Putting?
    ensures Moves(w, Proceeded(w, now), job)
  {
  }

  lemma ProceedMoves(w: World, now: Option<int>, job: JobId)
    requires Safe(w)
    ensures Moves(w, Proceeded(w, now), job)
  {
    var n := Proceeded(w, now);
    match w.busy
    case Putting(_, _) => PutMoves(w, now, job);
    case Marking(e, _) =>
      if e.job in w.files {
        AckPendingIsSafe(w.files[e.job], Given(e.message));
        RewrittenMoves(w, n, e.job, Rewrite(w.files[e.job], AckPending(Given(e.message))), job);
      } else {
        QuietMoves(w, n, job);
      }
    case Settling(id, _) =>
      if id in w.files {
        AcknowledgeIsSafe(w.files[id], now);
        RewrittenMoves(w, n, id, Rewrite(w.files[id], Acknowledge(now)), job);
      } else {
        QuietMoves(w, n, job);
      }
    case _ => QuietMoves(w, n, job);
  }

  lemma SweepMoves(w: World, id: JobId, job: JobId)
    ensures Moves(w, Forgotten(w, id), job)
  {
  }

  lemma AckMoves(w: World, a: Ack, job: JobId)
    requires Safe(w)
    ensures Moves(w, Acked(w, a), job)
  {
  }

  lemma ActMoves(w: World, a: Action, job: JobId)
    requires Safe(w)
    ensures Moves(w, Act(w, a), job)
  {
    hide Moves, Safe, Rewrite, Refusal, Committed, Begun, Received;
    QuietMoves(w, w, job);
    match a
    case Begin(id, attempt) => BeginMoves(w, id, attempt, job);
    case Work(id, m) =>
      if Worked(w, id, m) != w {
        WriteMoves(w, Worked(w, id, m), id, w.files[id], m, job);
      }
    case Finish(id, kind, message, sentAt) =>
      if w.busy == Idle && MayEnd(w, id, kind) && message !in w.made {
        var e := Envelope(message, id, TerminalEvent(kind), sentAt);
        CommitMoves(w, Released(w, id).(memory := w.memory[id := e]), e, true, job);
      }
    case Resume(id, message, sentAt) =>
      if Resumed(w, id, message, sentAt) != w {
        ResumeNeedsOpen(w.files[id]);
        CommitMoves(w, w, Envelope(message, id, TerminalEvent(JobCompleted), sentAt), false, job);
      }
    case Proceed(now) => ProceedMoves(w, now, job);
    case AckArrives(ack) => AckMoves(w, ack, job);
    case Sweep(id) => SweepMoves(w, id, job);
    case Receive(e, at, allowed) => QuietMoves(w, Arrived(w, e, at, allowed), job);
    case Replay(message) => QuietMoves(w, Replayed(w, message), job);
    case RepeatOffer(id) => QuietMoves(w, Repeated(w, id), job);
    case WriteFails => QuietMoves(w, Act(w, a), job);
    case Crash => QuietMoves(w, Act(w, a), job);
  }
}
