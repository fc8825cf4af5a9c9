/** The acknowledging end: a settled terminal reaches the journal, except through one window, and exactly so. */
module DeliverySettlement {
  import opened Common
  import opened RecoveryStates
  import opened JournalRecords
  import opened RecoveryClassifier
  import opened PendingAckStore
  import opened Inbox
  import opened Delivery
  import opened DeliveryGuarantees
  import opened DeliveryOutcomes

  /** The message the record waits for: the last one it was told to expect an answer to, else its terminal's. */
  function Latest(r: Record): Option<MessageId> {
    if r.ackMessage.Some? then r.ackMessage else r.terminalMessage
  }

  predicate Accepted(w: World, m: MessageId) {
    m in w.cloud.seen && w.cloud.seen[m] == AckAccepted
  }

  /** The cloud has the job's terminal, and the message that carried it has left the Worker's store for good. */
  predicate Spent(w: World, job: JobId) {
    && job in w.cloud.results && w.cloud.results[job].message !in w.store.pending
    && (w.busy.Putting? ==> w.busy.e.message != w.cloud.results[job].message)
  }

  /** The message the record waits for was accepted, and the store has dropped it. */
  predicate Gone(w: World, job: JobId)
    requires job in w.files
  {
    var m := Latest(w.files[job]);
    m.Some? && m.value in w.persisted && m.value !in w.store.pending && Accepted(w, m.value)
  }

  predicate Settles(w: World, job: JobId) {
    w.busy.Settling? && w.busy.job == job
  }

  predicate Own(w: World, job: JobId, m: Option<MessageId>) {
    m.Some? ==> m.value in w.made && w.made[m.value].job == job
  }

  predicate OwnStored(w: World, job: JobId, m: Option<MessageId>) {
    m.Some? ==> m.value in w.persisted && w.persisted[m.value].job == job
  }

  /** What the journal, the store and the cloud know of one job fits together. */
  ghost predicate Kept(w: World, job: JobId) {
    && (Acknowledged(w, job) ==> Spent(w, job))
    && (job !in w.files && Promised(w, job) ==> Spent(w, job))
    && (w.busy.Putting? && w.busy.e.job == job ==> job in w.files)
    && (Settles(w, job) || job in w.unrecorded ==> Spent(w, job) && job in w.files && !Acknowledged(w, job))
    && (Settles(w, job) ==> job !in w.unrecorded)
    && (job in w.files ==> Own(w, job, w.files[job].terminalMessage) && OwnStored(w, job, w.files[job].ackMessage))
    && (job in w.files && Gone(w, job) ==> Acknowledged(w, job) || job in w.unrecorded || Settles(w, job))
  }

  lemma ResultIsMade(w: World, job: JobId)
    requires Safe(w) && job in w.cloud.results
    ensures w.cloud.results[job].message in w.made
  {
  }

  lemma AcceptedIsResult(w: World, m: MessageId)
    requires Safe(w) && m in w.persisted && Accepted(w, m)
    ensures w.persisted[m].job in w.cloud.results && w.cloud.results[w.persisted[m].job].message == m
  {
  }

  /** Writing a record without touching what it says about messages and acknowledgements. */
  lemma RecordKeeps(w: World, n: World, id: JobId, job: JobId)
    requires Kept(w, job) && id in n.files
    requires n == w.(files := w.files[id := n.files[id]], active := n.active, idle := n.idle)
    requires n.files[id].acknowledged == (id in w.files && w.files[id].acknowledged)
    requires n.files[id].ackMessage == (if id in w.files then w.files[id].ackMessage else None)
    requires n.files[id].terminalMessage == (if id in w.files then w.files[id].terminalMessage else None)
    ensures Kept(n, job)
  {
  }

  lemma MarkLeavesMessages(r: Record, m: Mark)
    requires !m.Terminate? && !m.AckPending? && !m.Acknowledge?
    ensures var n := Rewrite(r, m);
      n.acknowledged == r.acknowledged && n.ackMessage == r.ackMessage && n.terminalMessage == r.terminalMessage
  {
  }

  lemma BeginKeeps(w: World, id: JobId, attempt: Option<AttemptId>, job: JobId)
    requires Kept(w, job)
    ensures Kept(Begun(w, id, attempt), job)
  {
    hide Rewrite, Refusal, Kept;
    var r := if id in w.files then w.files[id] else Fresh(attempt);
    MarkLeavesMessages(r, Run);
    if Takes(w, id) && Writable(r, Run) {
      RecordKeeps(w, Begun(w, id, attempt), id, job);
    } else {
      HoldKeeps(w, id, job);
    }
  }

  lemma HoldKeeps(w: World, id: JobId, job: JobId)
    requires Kept(w, job)
    ensures Kept(w.(idle := w.idle + {id}), job)
  {
  }

  lemma WorkKeeps(w: World, id: JobId, m: Mark, job: JobId)
    requires Kept(w, job)
    ensures Kept(Worked(w, id, m), job)
  {
    hide Rewrite, Refusal, Kept;
    if Worked(w, id, m) != w {
      MarkLeavesMessages(w.files[id], m);
      RecordKeeps(w, Worked(w, id, m), id, job);
    }
  }

  lemma EndKeeps(w: World, n: World, e: Envelope, job: JobId)
    requires Kept(w, job) && w.busy == Idle && e.message !in w.made && e.message !in w.persisted
    requires job in w.cloud.results ==> w.cloud.results[job].message != e.message
    requires n == w.(files := n.files, active := n.active, idle := n.idle, memory := n.memory,
                     made := w.made[e.message := e], busy := n.busy)
    requires n.busy == Idle || (n.busy.Putting? && n.busy.e == e && e.job in w.files)
    requires n.files.Keys == w.files.Keys
    requires job in w.files ==>
      && n.files[job].acknowledged == w.files[job].acknowledged && n.files[job].ackMessage == w.files[job].ackMessage
      && (n.files[job].terminalMessage == w.files[job].terminalMessage
          || (job == e.job && n.files[job].terminalMessage == Some(e.message)))
    ensures Kept(n, job)
  {
  }

  lemma FreshIsNew(w: World, m: MessageId)
    requires Safe(w) && m !in w.made
    ensures m !in w.persisted
  {
  }

  lemma CommitKeeps(w: World, v: World, e: Envelope, publish: bool, job: JobId)
    requires Safe(w) && Kept(w, job) && w.busy == Idle && e.content.TerminalEvent? && e.message !in w.made
    requires v == w.(active := v.active, idle := v.idle, memory := v.memory)
    ensures Kept(Committed(v, e, publish), job)
  {
    hide Safe, Rewrite, Refusal, Kept;
    if e.job in w.files {
      TerminateNames(w.files[e.job], e.content.kind, e.message);
    }
    if job in w.cloud.results {
      ResultIsMade(w, job);
    }
    FreshIsNew(w, e.message);
    EndKeeps(w, Committed(v, e, publish), e, job);
  }

  lemma TerminateNames(r: Record, kind: TerminalType, message: MessageId)
    ensures var next := Rewrite(r, Terminate(Given(kind), Given(message)));
      && next.acknowledged == r.acknowledged && next.ackMessage == r.ackMessage
      && (next.terminalMessage == r.terminalMessage || next.terminalMessage == Some(message))
  {
  }

  lemma PutKeeps(w: World, now: Option<int>, job: JobId)
    requires Safe(w) && Kept(w, job) && w.busy.Putting?
    ensures Kept(Proceeded(w, now), job)
  {
  }

  lemma MarkKeeps(w: World, now: Option<int>, job: JobId)
    requires Safe(w) && Kept(w, job) && w.busy.Marking?
    ensures Kept(Proceeded(w, now), job)
  {
    hide Rewrite, Kept, Coherent;
    if w.busy.e.job in w.files {
      MarkedRecord(w.files[w.busy.e.job], w.busy.e.message);
    }
    WaitingKeeps(w, Proceeded(w, now), w.busy.e, job);
  }

  lemma WaitingKeeps(w: World, n: World, e: Envelope, job: JobId)
    requires Kept(w, job) && w.busy.Marking? && !n.busy.Putting? && !n.busy.Settling?
    requires e.message in w.store.pending && e.message in w.persisted && w.persisted[e.message].job == e.job
    requires n == w.(files := n.files, busy := n.busy) && n.files.Keys == w.files.Keys
    requires job in w.files && n.files[job] != w.files[job] ==>
      && job == e.job && !n.files[job].acknowledged && n.files[job].ackMessage == Some(e.message)
      && n.files[job].terminalMessage == w.files[job].terminalMessage
    ensures Kept(n, job)
  {
  }

  lemma MarkedRecord(r: Record, m: MessageId)
    ensures var next := Rewrite(r, AckPending(Given(m)));
      !next.acknowledged && next.ackMessage == Some(m) && next.terminalMessage == r.terminalMessage
  {
  }

  lemma SettleKeeps(w: World, now: Option<int>, job: JobId)
    requires Safe(w) && Kept(w, job) && w.busy.Settling?
    requires Kept(w, w.busy.job)
    ensures Kept(Proceeded(w, now), job)
  {
    hide Rewrite, Safe;
    if w.busy.job in w.files {
      SettledRecord(w.files[w.busy.job], now);
    }
  }

  lemma SettledRecord(r: Record, now: Option<int>)
    ensures var next := Rewrite(r, Acknowledge(now));
      next.acknowledged && next.ackMessage == r.ackMessage && next.terminalMessage == r.terminalMessage
  {
  }

  lemma ReceiveKeeps(w: World, e: Envelope, at: int, allowed: bool, job: JobId)
    requires Safe(w) && Kept(w, job)
    ensures Kept(Arrived(w, e, at, allowed), job)
  {
    hide Rewrite, Kept, Arrived;
    var n := Arrived(w, e, at, allowed);
    AnswerStands(w, Receive(e, at, allowed));
    ReceiptIsLocal(w, e, at, allowed);
    CloudKeeps(w, n, job);
  }

  lemma ReceiptIsLocal(w: World, e: Envelope, at: int, allowed: bool)
    ensures var n := Arrived(w, e, at, allowed); n == w.(cloud := n.cloud, down := n.down)
  {
  }

  lemma CloudKeeps(w: World, n: World, job: JobId)
    requires Kept(w, job) && n == w.(cloud := n.cloud, down := n.down)
    requires forall m :: m in w.persisted && m !in w.store.pending ==> m in w.cloud.seen
    requires forall m :: m in w.cloud.seen ==> m in n.cloud.seen && n.cloud.seen[m] == w.cloud.seen[m]
    requires job in w.cloud.results ==> job in n.cloud.results && n.cloud.results[job] == w.cloud.results[job]
    ensures Kept(n, job)
  {
  }

  lemma AckKeeps(w: World, a: Ack, job: JobId)
    requires Safe(w) && Kept(w, job)
    ensures Kept(Acked(w, a), job)
  {
    hide Safe, Kept;
    if w.busy == Idle && a in w.down && a.message in w.store.pending {
      AnswerIsOwn(w, a);
      if a.status == AckAccepted {
        AcceptedIsResult(w, a.message);
        AcceptedKeeps(w, a, job);
      } else {
        RefusedKeeps(w, a, job);
      }
    }
  }

  lemma AnswerIsOwn(w: World, a: Ack)
    requires Safe(w) && a in w.down && a.message in w.store.pending
    ensures a.message in w.persisted && w.persisted[a.message].job == a.job
    ensures a.message in w.made && w.made[a.message].job == a.job
    ensures Accepted(w, a.message) <==> a.status == AckAccepted
  {
  }

  lemma AcceptedKeeps(w: World, a: Ack, job: JobId)
    requires Kept(w, job) && w.busy == Idle && a in w.down && a.message in w.store.pending && a.status == AckAccepted
    requires a.message in w.persisted && w.persisted[a.message].job == a.job
    requires a.message in w.made && w.made[a.message].job == a.job
    requires a.job in w.cloud.results && w.cloud.results[a.job].message == a.message
    ensures Kept(Acked(w, a), job)
  {
  }

  lemma RefusedKeeps(w: World, a: Ack, job: JobId)
    requires Kept(w, job) && w.busy == Idle && a in w.down && a.message in w.store.pending && a.status != AckAccepted
    requires !Accepted(w, a.message)
    ensures Kept(Acked(w, a), job)
  {
  }

  lemma SweepKeeps(w: World, id: JobId, job: JobId)
    requires Kept(w, job)
    ensures Kept(Forgotten(w, id), job)
  {
  }

  lemma CutKeeps(w: World, n: World, job: JobId)
    requires Kept(w, job)
    requires n == CutShort(w).(active := n.active, idle := n.idle, memory := n.memory)
    ensures Kept(n, job)
  {
  }

  lemma SendKeeps(w: World, n: World, job: JobId)
    requires Kept(w, job) && n == w.(up := n.up, leaked := n.leaked, busy := n.busy)
    requires n.busy == w.busy || (w.busy.Publishing? && n.busy == Idle)
    ensures Kept(n, job)
  {
  }

  lemma ActKeeps(w: World, a: Action, job: JobId)
    requires Safe(w) && forall j :: Kept(w, j)
    ensures Kept(Act(w, a), job)
  {
    hide Safe, Rewrite, Refusal, Committed, Kept, Begun, Worked, Received, Acked, Arrived, Forgotten, CutShort;
    assert Kept(w, job);
    match a
    case Begin(id, attempt) => BeginKeeps(w, id, attempt, job);
    case Work(id, m) => WorkKeeps(w, id, m, job);
    case Finish(id, kind, message, sentAt) =>
      if Finished(w, id, kind, message, sentAt) != w {
        var e := Envelope(message, id, TerminalEvent(kind), sentAt);
        CommitKeeps(w, Released(w, id).(memory := w.memory[id := e]), e, true, job);
      }
    case Resume(id, message, sentAt) =>
      if Resumed(w, id, message, sentAt) != w {
        CommitKeeps(w, w, Envelope(message, id, TerminalEvent(JobCompleted), sentAt), false, job);
      }
    case Proceed(now) => ProceedKeeps(w, now, job);
    case AckArrives(ack) => AckKeeps(w, ack, job);
    case Sweep(id) => SweepKeeps(w, id, job);
    case Receive(e, at, allowed) => ReceiveKeeps(w, e, at, allowed, job);
    case Replay(message) => SendKeeps(w, Replayed(w, message), job);
    case RepeatOffer(id) => SendKeeps(w, Repeated(w, id), job);
    case WriteFails => CutKeeps(w, CutShort(w), job);
    case Crash => CutKeeps(w, Act(w, a), job);
  }

  lemma ProceedKeeps(w: World, now: Option<int>, job: JobId)
    requires Safe(w) && forall j :: Kept(w, j)
    ensures Kept(Proceeded(w, now), job)
  {
    hide Safe, Rewrite, Kept;
    assert Kept(w, job);
    match w.busy
    case Idle =>
    case Putting(_, _) => PutKeeps(w, now, job);
    case Marking(_, _) => MarkKeeps(w, now, job);
    case Publishing(_) => SendKeeps(w, Proceeded(w, now), job);
    case Settling(id, _) =>
      assert Kept(w, id);
      SettleKeeps(w, now, job);
  }

  lemma {:induction false} PlayKeeps(w: World, acts: seq<Action>)
    requires Safe(w) && forall j :: Kept(w, j)
    ensures Safe(Play(w, acts)) && forall j :: Kept(Play(w, acts), j)
    decreases |acts|
  {
    hide Safe, Act, Kept;
    if acts != [] {
      ActKeepsSafe(w, acts[0]);
      forall j ensures Kept(Act(w, acts[0]), j) {
        ActKeeps(w, acts[0], j);
      }
      PlayKeeps(Act(w, acts[0]), acts[1..]);
    }
  }

  lemma StartKeeps()
    ensures Safe(START) && forall j :: Kept(START, j)
  {
  }

  /**
   * MAIN: in every reachable idle state, a record whose message the cloud accepted and the store dropped is
   * acknowledged iff that one write of its acknowledgement was not cut off, by a crash or by failing.
   */
  lemma AcknowledgedExactly(acts: seq<Action>, job: JobId)
    requires Play(START, acts).busy == Idle && job in Play(START, acts).files && Gone(Play(START, acts), job)
    ensures Acknowledged(Play(START, acts), job) <==> job !in Play(START, acts).unrecorded
  {
    hide Safe, Act;
    StartKeeps();
    PlayKeeps(START, acts);
    assert Kept(Play(START, acts), job);
  }

  /** Of a job whose record is not swept and never ended twice, that holds of whatever message was stored. */
  lemma StoredMessageIsAcknowledged(acts: seq<Action>, job: JobId, m: MessageId)
    requires Steps(START, acts, job, Sweeps) == 0 && Steps(START, acts, job, Repeats) == 0
    requires Play(START, acts).busy == Idle
    requires m in Play(START, acts).persisted && Play(START, acts).persisted[m].job == job
    requires m !in Play(START, acts).store.pending && Accepted(Play(START, acts), m)
    ensures Ended(Play(START, acts), job)
    ensures Acknowledged(Play(START, acts), job) <==> job !in Play(START, acts).unrecorded
  {
    hide Safe, Act, Sweeps, Repeats;
    OneMessageExactly(acts, job);
    StartKeeps();
    PlayKeeps(START, acts);
    OneMessageIsLatest(Play(START, acts), job, m);
    AcknowledgedExactly(acts, job);
  }

  lemma OneMessageIsLatest(w: World, job: JobId, m: MessageId)
    requires Safe(w) && OneMessage(w, job) && Kept(w, job) && m in w.persisted && w.persisted[m].job == job
    ensures Ended(w, job) && Latest(w.files[job]) == Some(m)
  {
    assert Names(w, w.persisted[m]) && w.persisted[m].message == m;
    var a := w.files[job].ackMessage;
    if a.Some? {
      assert Names(w, w.persisted[a.value]) && w.persisted[a.value].message == a.value;
    }
  }

  lemma {:induction false} UnrecordedStays(w: World, acts: seq<Action>)
    ensures w.unrecorded <= Play(w, acts).unrecorded
    decreases |acts|
  {
    hide Act;
    if acts != [] {
      UnrecordedGrows(w, acts[0]);
      UnrecordedStays(Act(w, acts[0]), acts[1..]);
    }
  }

  lemma UnrecordedGrows(w: World, a: Action)
    ensures w.unrecorded <= Act(w, a).unrecorded
  {
  }

  /**
   * A crash, or a failed write, after the accepted message left the store and before the journal was told: the
   * cloud has the result, and the record is surfaced as unfinished for ever, whatever is offered or resumed.
   */
  lemma CrashInAckWindowNeverSettles(before: seq<Action>, cut: Action, acts: seq<Action>)
    requires Play(START, before).busy.Settling? && cut in {Crash, WriteFails}
    ensures var n, job := Play(Act(Play(START, before), cut), acts), Play(START, before).busy.job;
      job in n.files && !Acknowledged(n, job) && job in n.cloud.results
  {
    hide Safe, Play, Kept;
    var w := Play(START, before);
    StartKeeps();
    PlayKeeps(START, before);
    CutKeepsAll(w, cut);
    PlayKeeps(Act(w, cut), acts);
    UnrecordedStays(Act(w, cut), acts);
    UnrecordedIsOpen(Play(Act(w, cut), acts), w.busy.job);
  }

  lemma CutKeepsAll(w: World, cut: Action)
    requires Safe(w) && (forall j :: Kept(w, j)) && cut in {Crash, WriteFails}
    ensures Safe(Act(w, cut)) && forall j :: Kept(Act(w, cut), j)
    ensures w.busy.Settling? ==> w.busy.job in Act(w, cut).unrecorded
  {
    hide Safe, Kept;
    ActKeepsSafe(w, cut);
    forall j ensures Kept(Act(w, cut), j) {
      ActKeeps(w, cut, j);
    }
  }

  lemma UnrecordedIsOpen(w: World, job: JobId)
    requires Kept(w, job) && job in w.unrecorded
    ensures job in w.files && !Acknowledged(w, job) && job in w.cloud.results
  {
  }
}
