/**
 * Terminal delivery between one Worker and the cloud, over a network that loses, duplicates and reorders, with a
 * crash of the Worker possible between any two of its writes (lib/worker/worker-runtime.mjs and
 * local-worker-agent.mjs). The cloud side is atomic, so its crashes are invisible.
 */
module Delivery {
  import opened Common
  import opened RecoveryStates
  import opened JournalRecords
  import opened RecoveryClassifier
  import opened PendingAckStore
  import opened Inbox

  /** What the single-threaded Worker is in the middle of. */
  datatype Busy =
    | Idle
    | Putting(e: Envelope, publish: bool)
    | Marking(e: Envelope, publish: bool)
    | Publishing(e: Envelope)
    | Settling(job: JobId, message: MessageId)

  /**
   * Disk (`files`, `store`), memory (`busy`, `active`, `idle`, `memory`), network (`up`, `down`: sent at least
   * once, may arrive any number of times or never) and cloud. An active job has a handler; an idle one was taken
   * and has none, because the journal refused to mark it running. The last five fields are history that no code
   * reads: every envelope built, every envelope that reached the pending-ack store, message ids published without
   * having reached it, jobs for which the store write did not happen after the journal write did, and jobs for
   * which the journal was not told of an accepted message after the store had dropped it.
   */
  datatype World = World(
    files: map<JobId, Record>,
    store: Store,
    busy: Busy,
    active: set<JobId>,
    idle: set<JobId>,
    memory: map<JobId, Envelope>,
    up: set<Envelope>,
    down: set<Ack>,
    cloud: Cloud,
    made: map<MessageId, Envelope>,
    persisted: map<MessageId, Envelope>,
    leaked: set<MessageId>,
    stranded: set<JobId>,
    unrecorded: set<JobId>)

  const START: World := World(
    map[], Store(map[], []), Idle, {}, {}, map[], {}, {}, Cloud(map[], map[], multiset{}), map[], map[], {}, {}, {})

  datatype Action =
    | Begin(job: JobId, attempt: Option<AttemptId>)
    | Work(job: JobId, mark: Mark)
    | Finish(job: JobId, kind: TerminalType, message: MessageId, sentAt: int)
    | Resume(job: JobId, message: MessageId, sentAt: int)
    | Proceed(now: Option<int>)
    | WriteFails
    | Crash
    | Replay(message: MessageId)
    | RepeatOffer(job: JobId)
    | Receive(e: Envelope, at: int, allowed: bool)
    | AckArrives(ack: Ack)
    | Sweep(job: JobId)

  predicate Writable(r: Record, m: Mark) {
    ArgumentError(m).None? && Refusal(r, m, false).None?
  }

  /** An offer for the job is taken up: the Worker is free and does not hold the job in memory. */
  predicate Takes(w: World, job: JobId) {
    w.busy == Idle && job !in w.active && job !in w.idle && job !in w.memory
  }

  /**
   * Create (or find) the job's record and start its handler. The job is in memory before the journal is asked, so
   * when the record refuses to be marked running the job stays there without a handler.
   */
  function Begun(w: World, job: JobId, attempt: Option<AttemptId>): World {
    var r := if job in w.files then w.files[job] else Fresh(attempt);
    if !Takes(w, job) then w
    else if !Writable(r, Run) then w.(idle := w.idle + {job})
    else w.(files := w.files[job := Rewrite(r, Run)], active := w.active + {job})
  }

  function Worked(w: World, job: JobId, m: Mark): World {
    if w.busy != Idle || job !in w.files || !Writable(w.files[job], m)
      || m.Terminate? || m.AckPending? || m.Acknowledge?
    then w
    else w.(files := w.files[job := Rewrite(w.files[job], m)])
  }

  /** Journal first; when that write is refused nothing else happens now, but the envelope stays in memory. */
  function Committed(w: World, e: Envelope, publish: bool): World
    requires e.content.TerminalEvent?
  {
    var m := Terminate(Given(e.content.kind), Given(e.message));
    var n := w.(made := w.made[e.message := e]);
    if e.job in w.files && Writable(w.files[e.job], m)
    then n.(files := w.files[e.job := Rewrite(w.files[e.job], m)], busy := Putting(e, publish))
    else n
  }

  /** A handler ends its job either way; a job without one can only be canceled. */
  predicate MayEnd(w: World, job: JobId, kind: TerminalType) {
    job in w.active || (job in w.idle && kind == JobCanceled)
  }

  function Released(w: World, job: JobId): World {
    w.(active := w.active - {job}, idle := w.idle - {job})
  }

  function Finished(w: World, job: JobId, kind: TerminalType, message: MessageId, sentAt: int): World {
    if w.busy != Idle || !MayEnd(w, job, kind) || message in w.made then w
    else
      var e := Envelope(message, job, TerminalEvent(kind), sentAt);
      Committed(Released(w, job).(memory := w.memory[job := e]), e, true)
  }

  function Resumed(w: World, job: JobId, message: MessageId, sentAt: int): World {
    if w.busy != Idle || job !in w.files || message in w.made
      || ClassifyContract(Live(w.files[job])) !in {ImportedAsset, Downloaded} || w.files[job].localResultRef.None?
    then w
    else Committed(w, Envelope(message, job, TerminalEvent(JobCompleted), sentAt), false)
  }

  function Rewritten(w: World, job: JobId, m: Mark): map<JobId, Record> {
    if job in w.files then w.files[job := Rewrite(w.files[job], m)] else w.files
  }

  function Proceeded(w: World, now: Option<int>): World {
    match w.busy
    case Idle => w
    case Putting(e, publish) =>
      w.(store := Put(w.store, e), persisted := w.persisted[e.message := e], busy := Marking(e, publish))
    case Marking(e, publish) =>
      w.(files := Rewritten(w, e.job, AckPending(Given(e.message))), busy := if publish then Publishing(e) else Idle)
    case Publishing(e) => w.(up := w.up + {e}, busy := Idle)
    case Settling(job, _) => w.(files := Rewritten(w, job, Acknowledge(now)), busy := Idle)
  }

  function LosesPut(w: World): set<JobId> {
    if w.busy.Putting? then {w.busy.e.job} else {}
  }

  function LosesAck(w: World): set<JobId> {
    if w.busy.Settling? then {w.busy.job} else {}
  }

  /** The write under way does not happen, and what would have followed it does not either. */
  function CutShort(w: World): World {
    w.(busy := Idle, stranded := w.stranded + LosesPut(w), unrecorded := w.unrecorded + LosesAck(w))
  }

  function Replayed(w: World, message: MessageId): World {
    if w.busy != Idle || message !in w.store.pending then w
    else w.(up := w.up + {w.store.pending[message]})
  }

  function Repeated(w: World, job: JobId): World {
    if w.busy != Idle || job !in w.memory then w
    else
      var e := w.memory[job];
      w.(up := w.up + {e}, leaked := if e.message in w.persisted then w.leaked else w.leaked + {e.message})
  }

  function Arrived(w: World, e: Envelope, at: int, allowed: bool): World {
    if e !in w.up || !e.content.TerminalEvent? then w
    else
      var (c, ack) := Received(w.cloud, e, at, allowed);
      w.(cloud := c, down := if ack.Some? then w.down + {ack.value} else w.down)
  }

  function Acked(w: World, a: Ack): World {
    if w.busy != Idle || a !in w.down then w
    else
      w.(store := OnAck(w.store, a),
         busy := if a.message in w.store.pending && a.status == AckAccepted then Settling(a.job, a.message) else Idle)
  }

  function Forgotten(w: World, job: JobId): World {
    if w.busy != Idle || job !in w.files || Classify(Live(w.files[job])) != CoarseSettled then w
    else w.(files := w.files - {job})
  }

  function Act(w: World, a: Action): World {
    match a
    case Begin(job, attempt) => Begun(w, job, attempt)
    case Work(job, m) => Worked(w, job, m)
    case Finish(job, kind, message, sentAt) => Finished(w, job, kind, message, sentAt)
    case Resume(job, message, sentAt) => Resumed(w, job, message, sentAt)
    case Proceed(now) => Proceeded(w, now)
    case WriteFails => if w.busy.Publishing? then w else CutShort(w)
    case Crash => CutShort(w).(active := {}, idle := {}, memory := map[])
    case Replay(message) => Replayed(w, message)
    case RepeatOffer(job) => Repeated(w, job)
    case Receive(e, at, allowed) => Arrived(w, e, at, allowed)
    case AckArrives(ack) => Acked(w, ack)
    case Sweep(job) => Forgotten(w, job)
  }

  function Play(w: World, acts: seq<Action>): World
    decreases |acts|
  {
    if acts == [] then w else Play(Act(w, acts[0]), acts[1..])
  }

  // ---- invariants ----

  ghost predicate Known(made: map<MessageId, Envelope>, e: Envelope) {
    e.message in made && made[e.message] == e && e.content.TerminalEvent?
  }

  ghost predicate BusyKnown(w: World) {
    match w.busy
    case Idle => true
    case Putting(e, _) => Known(w.made, e)
    case Marking(e, _) => Known(w.made, e) && e.message in w.persisted && e.message in w.store.pending
    case Publishing(e) => Known(w.made, e) && e.message in w.persisted
    case Settling(job, message) =>
      message in w.persisted && w.persisted[message].job == job && message !in w.store.pending
      && message in w.cloud.seen && w.cloud.seen[message] == AckAccepted
  }

  /** A message id names one envelope, wherever it is. */
  ghost predicate Registered(w: World) {
    && BusyKnown(w)
    && (forall m :: m in w.persisted ==> Known(w.made, w.persisted[m]) && w.persisted[m].message == m)
    && (forall m :: m in w.store.pending ==> m in w.persisted && w.store.pending[m] == w.persisted[m])
    && (forall e :: e in w.store.diagnostics ==> e.message in w.persisted && w.persisted[e.message] == e)
    && (forall e :: e in w.up ==> Known(w.made, e))
    && (forall j :: j in w.memory ==> Known(w.made, w.memory[j]) && w.memory[j].job == j)
  }

  /** The cloud's tables agree with each other, and a job's terminal was applied once or not at all. */
  ghost predicate TablesAgree(made: map<MessageId, Envelope>, c: Cloud) {
    && (forall m :: m in c.seen ==> m in made && made[m].content.TerminalEvent?)
    && (forall m :: m in c.seen && c.seen[m] == AckAccepted ==>
          made[m].job in c.results && c.results[made[m].job] == TerminalResult(made[m].content.kind, m))
    && (forall j :: j in c.results ==> c.results[j].message in c.seen)
    && (forall j :: c.applications[j] == if j in c.results then 1 else 0)
  }

  ghost predicate AppliedOnce(w: World) {
    && TablesAgree(w.made, w.cloud)
    && (forall a :: a in w.down ==>
          a.message in w.cloud.seen && w.cloud.seen[a.message] == a.status && w.made[a.message].job == a.job)
  }

  /** A message that reached the store is still there, or was accepted, or was refused and set aside. */
  ghost predicate NothingLost(w: World) {
    forall m :: m in w.persisted ==>
      || m in w.store.pending
      || (m in w.cloud.seen && w.cloud.seen[m] == AckAccepted)
      || (w.persisted[m] in w.store.diagnostics && m in w.cloud.seen && w.cloud.seen[m] == AckRejected)
  }

  ghost predicate PersistedBeforePublished(w: World) {
    forall e :: e in w.up ==> e.message in w.persisted || e.message in w.leaked
  }

  /** Some message for the job reached the store. */
  ghost predicate Promised(w: World, job: JobId) {
    exists m :: m in w.persisted && w.persisted[m].job == job
  }

  /** The cloud accepted a message of the job that had reached the store. */
  ghost predicate AcceptedByCloud(w: World, job: JobId) {
    exists m :: m in w.persisted && w.persisted[m].job == job && m in w.cloud.seen && w.cloud.seen[m] == AckAccepted
  }

  ghost predicate JournalTruthful(w: World) {
    && (forall j :: j in w.files ==> Coherent(w.files[j]))
    && (forall j :: j in w.files && w.files[j].acknowledged ==> AcceptedByCloud(w, j))
    && (forall j :: j in w.files && w.files[j].terminal.Some? ==>
          Promised(w, j) || j in w.stranded || (w.busy.Putting? && w.busy.e.job == j))
  }

  ghost predicate Safe(w: World) {
    && Registered(w)
    && AppliedOnce(w)
    && NothingLost(w)
    && PersistedBeforePublished(w)
    && JournalTruthful(w)
  }

  // ---- every action keeps them ----

  /** Nothing already promised or accepted is taken back, so the journal stays truthful. */
  lemma TruthCarries(w: World, n: World)
    requires JournalTruthful(w)
    requires forall m :: m in w.persisted ==> m in n.persisted && n.persisted[m] == w.persisted[m]
    requires forall m :: m in w.cloud.seen ==> m in n.cloud.seen && n.cloud.seen[m] == w.cloud.seen[m]
    requires w.stranded <= n.stranded
    requires w.busy.Putting? ==>
      w.busy.e.job in n.stranded || Promised(n, w.busy.e.job) || (n.busy.Putting? && n.busy.e.job == w.busy.e.job)
    requires forall j :: j in n.files ==> Coherent(n.files[j])
    requires forall j :: j in n.files && n.files[j].acknowledged ==>
      (j in w.files && w.files[j].acknowledged) || AcceptedByCloud(w, j)
    requires forall j :: j in n.files && n.files[j].terminal.Some? ==>
      (j in w.files && w.files[j].terminal.Some?) || (n.busy.Putting? && n.busy.e.job == j)
    ensures JournalTruthful(n)
  {
  }

  lemma StoreKeepsSafe(w: World, job: JobId, next: Record, active: set<JobId>)
    requires Safe(w) && Coherent(next)
    requires next.acknowledged ==> (job in w.files && w.files[job].acknowledged) || AcceptedByCloud(w, job)
    requires next.terminal.Some? ==> job in w.files && w.files[job].terminal.Some?
    ensures Safe(w.(files := w.files[job := next], active := active))
  {
    hide Coherent, Known;
    TruthCarries(w, w.(files := w.files[job := next], active := active));
  }

  lemma WriteKeepsSafe(w: World, job: JobId, r: Record, m: Mark, active: set<JobId>)
    requires Safe(w) && Coherent(r) && Writable(r, m) && !m.Terminate? && !m.Acknowledge?
    requires r == if job in w.files then w.files[job] else Fresh(r.attempt)
    ensures Safe(w.(files := w.files[job := Rewrite(r, m)], active := active))
  {
    RewriteKeepsCoherence(r, m, false);
    WriteTellsNothingNew(r, m);
    StoreKeepsSafe(w, job, Rewrite(r, m), active);
  }

  lemma WriteTellsNothingNew(r: Record, m: Mark)
    requires !m.Terminate? && !m.Acknowledge?
    ensures Rewrite(r, m).terminal == r.terminal
    ensures Rewrite(r, m).acknowledged ==> r.acknowledged
  {
  }

  lemma MakeKeepsSafe(w: World, e: Envelope, active: set<JobId>, memory: map<JobId, Envelope>)
    requires Safe(w) && e.message !in w.made && e.content.TerminalEvent?
    requires memory == w.memory || memory == w.memory[e.job := e]
    ensures Safe(w.(made := w.made[e.message := e], active := active, memory := memory))
  {
    var n := w.(made := w.made[e.message := e], active := active, memory := memory);
    assert AppliedOnce(n) && NothingLost(n) && PersistedBeforePublished(n) by {
      assert forall m :: m in w.made ==> n.made[m] == w.made[m];
    }
    MakeKeepsRegistered(w, e, active, memory);
    TruthCarries(w, n);
  }

  lemma MakeKeepsRegistered(w: World, e: Envelope, active: set<JobId>, memory: map<JobId, Envelope>)
    requires Registered(w) && e.message !in w.made && e.content.TerminalEvent?
    requires memory == w.memory || memory == w.memory[e.job := e]
    ensures Registered(w.(made := w.made[e.message := e], active := active, memory := memory))
  {
  }

  lemma TerminateKeepsSafe(w: World, e: Envelope, publish: bool, next: Record)
    requires Safe(w) && w.busy == Idle && Known(w.made, e) && e.job in w.files
    requires Coherent(next) && next.acknowledged == w.files[e.job].acknowledged
    ensures Safe(w.(files := w.files[e.job := next], busy := Putting(e, publish)))
  {
    TruthCarries(w, w.(files := w.files[e.job := next], busy := Putting(e, publish)));
  }

  lemma CommitKeepsSafe(w: World, e: Envelope, publish: bool, active: set<JobId>, memory: map<JobId, Envelope>)
    requires Safe(w) && w.busy == Idle && e.message !in w.made && e.content.TerminalEvent?
    requires memory == w.memory || memory == w.memory[e.job := e]
    ensures Safe(Committed(w.(active := active, memory := memory), e, publish))
  {
    MakeKeepsSafe(w, e, active, memory);
    var n := w.(made := w.made[e.message := e], active := active, memory := memory);
    var m := Terminate(Given(e.content.kind), Given(e.message));
    if e.job in w.files && Writable(w.files[e.job], m) {
      RewriteKeepsCoherence(w.files[e.job], m, false);
      TerminateKeepsSafe(n, e, publish, Rewrite(w.files[e.job], m));
    }
  }

  lemma PutKeepsSafe(w: World, now: Option<int>)
    requires Safe(w) && w.busy.Putting?
    ensures Safe(Proceeded(w, now))
  {
    var n := Proceeded(w, now);
    var e := w.busy.e;
    assert e.message in n.persisted && n.persisted[e.message].job == e.job;
    assert Promised(n, e.job);
    TruthCarries(w, n);
  }

  lemma ProceedKeepsSafe(w: World, now: Option<int>)
    requires Safe(w)
    ensures Safe(Proceeded(w, now))
  {
    match w.busy
    case Idle =>
    case Putting(_, _) => PutKeepsSafe(w, now);
    case Marking(e, publish) =>
      MarkKeepsSafe(w, now);
    case Publishing(e) =>
      AfterPutKeepsSafe(w, Idle);
      PublishKeepsSafe(w.(busy := Idle), {e}, w.leaked);
    case Settling(job, message) => SettleKeepsSafe(w, now);
  }

  lemma MarkKeepsSafe(w: World, now: Option<int>)
    requires Safe(w) && w.busy.Marking?
    ensures Safe(Proceeded(w, now))
  {
    var e, busy := w.busy.e, if w.busy.publish then Publishing(w.busy.e) else Idle;
    if e.job in w.files {
      AckPendingIsSafe(w.files[e.job], Given(e.message));
      var next := Rewrite(w.files[e.job], AckPending(Given(e.message)));
      var n := w.(files := w.files[e.job := next], active := w.active);
      StoreKeepsSafe(w, e.job, next, w.active);
      AfterPutKeepsSafe(n, busy);
      assert Proceeded(w, now) == n.(busy := busy);
    } else {
      AfterPutKeepsSafe(w, busy);
      assert Proceeded(w, now) == w.(busy := busy);
    }
  }

  lemma AckPendingIsSafe(r: Record, ack: Arg<MessageId>)
    requires Coherent(r) && ack.Given?
    ensures var next := Rewrite(r, AckPending(ack));
      && Coherent(next) && next.terminal == r.terminal && next.terminalMessage == r.terminalMessage
      && !next.acknowledged && next.ackMessage == ack.Value()
  {
  }

  lemma AfterPutKeepsSafe(w: World, busy: Busy)
    requires Safe(w) && !w.busy.Putting?
    requires busy == Idle || (w.busy.Marking? && busy == Publishing(w.busy.e))
    ensures Safe(w.(busy := busy))
  {
  }

  lemma PublishKeepsSafe(w: World, es: set<Envelope>, leaked: set<MessageId>)
    requires Safe(w) && w.leaked <= leaked
    requires forall e :: e in es ==> Known(w.made, e) && (e.message in w.persisted || e.message in leaked)
    ensures Safe(w.(up := w.up + es, leaked := leaked))
  {
  }

  lemma SettleKeepsSafe(w: World, now: Option<int>)
    requires Safe(w) && w.busy.Settling?
    ensures Safe(Proceeded(w, now))
  {
    var job := w.busy.job;
    assert AcceptedByCloud(w, job) by {
      assert w.persisted[w.busy.message].job == job;
    }
    if job in w.files {
      AcknowledgeIsSafe(w.files[job], now);
      var next := Rewrite(w.files[job], Acknowledge(now));
      StoreKeepsSafe(w, job, next, w.active);
      AfterPutKeepsSafe(w.(files := w.files[job := next], active := w.active), Idle);
    } else {
      AfterPutKeepsSafe(w, Idle);
    }
  }

  lemma AcknowledgeIsSafe(r: Record, now: Option<int>)
    requires Coherent(r)
    ensures Coherent(Rewrite(r, Acknowledge(now)))
    ensures var next := Rewrite(r, Acknowledge(now));
      && next.acknowledged && next.terminal == r.terminal && next.terminalMessage == r.terminalMessage
      && next.ackMessage == r.ackMessage
  {
  }

  lemma StopKeepsSafe(w: World, active: set<JobId>, idle: set<JobId>, memory: map<JobId, Envelope>)
    requires Safe(w) && (memory == w.memory || memory == map[])
    ensures Safe(CutShort(w).(active := active, idle := idle, memory := memory))
  {
  }

  lemma ReceiveKeepsTables(made: map<MessageId, Envelope>, c: Cloud, e: Envelope, at: int, allowed: bool)
    requires TablesAgree(made, c) && Known(made, e)
    ensures TablesAgree(made, Received(c, e, at, allowed).0)
    ensures forall m :: m in c.seen ==>
      m in Received(c, e, at, allowed).0.seen && Received(c, e, at, allowed).0.seen[m] == c.seen[m]
  {
  }

  lemma ReceiveKeepsSafe(w: World, e: Envelope, at: int, allowed: bool)
    requires Safe(w)
    ensures Safe(Arrived(w, e, at, allowed))
  {
    if e in w.up {
      ReceiveKeepsTables(w.made, w.cloud, e, at, allowed);
      CloudKeepsSafe(w, Received(w.cloud, e, at, allowed).0, Arrived(w, e, at, allowed).down);
    }
  }

  lemma CloudKeepsSafe(w: World, c: Cloud, down: set<Ack>)
    requires Safe(w) && TablesAgree(w.made, c)
    requires forall m :: m in w.cloud.seen ==> m in c.seen && c.seen[m] == w.cloud.seen[m]
    requires forall a :: a in down ==> a.message in c.seen && c.seen[a.message] == a.status && w.made[a.message].job == a.job
    ensures Safe(w.(cloud := c, down := down))
  {
  }

  lemma AckKeepsSafe(w: World, a: Ack)
    requires Safe(w)
    ensures Safe(Acked(w, a))
  {
    if w.busy == Idle && a in w.down {
      var n := Acked(w, a);
      assert forall e :: e in w.store.diagnostics ==> e in n.store.diagnostics;
      TruthCarries(w, n);
    }
  }

  /** Which jobs are in memory says nothing about what was written or sent. */
  lemma HoldingKeepsSafe(w: World, active: set<JobId>, idle: set<JobId>)
    requires Safe(w)
    ensures Safe(w.(active := active, idle := idle))
  {
  }

  lemma SweepKeepsSafe(w: World, job: JobId)
    requires Safe(w)
    ensures Safe(Forgotten(w, job))
  {
  }

  lemma BeginKeepsSafe(w: World, job: JobId, attempt: Option<AttemptId>)
    requires Safe(w)
    ensures Safe(Begun(w, job, attempt))
  {
    var r := if job in w.files then w.files[job] else Fresh(attempt);
    if !Writable(r, Run) {
      HoldingKeepsSafe(w, w.active, w.idle + {job});
    } else if Takes(w, job) {
      WriteKeepsSafe(w, job, r, Run, w.active + {job});
    }
  }

  lemma FinishKeepsSafe(w: World, job: JobId, kind: TerminalType, message: MessageId, sentAt: int)
    requires Safe(w)
    ensures Safe(Finished(w, job, kind, message, sentAt))
  {
    hide Safe, Committed;
    if w.busy == Idle && message !in w.made {
      var e := Envelope(message, job, TerminalEvent(kind), sentAt);
      HoldingKeepsSafe(w, w.active - {job}, w.idle - {job});
      CommitKeepsSafe(Released(w, job), e, true, w.active - {job}, w.memory[job := e]);
    }
  }

  lemma ResumeKeepsSafe(w: World, job: JobId, message: MessageId, sentAt: int)
    requires Safe(w)
    ensures Safe(Resumed(w, job, message, sentAt))
  {
    hide Safe, Committed;
    if w.busy == Idle && message !in w.made {
      CommitKeepsSafe(w, Envelope(message, job, TerminalEvent(JobCompleted), sentAt), false, w.active, w.memory);
    }
  }

  lemma SendKeepsSafe(w: World)
    requires Safe(w)
    ensures forall m :: Safe(Replayed(w, m))
    ensures forall j :: Safe(Repeated(w, j))
  {
    forall m ensures Safe(Replayed(w, m)) {
      if m in w.store.pending {
        PublishKeepsSafe(w, {w.store.pending[m]}, w.leaked);
      }
    }
    forall j ensures Safe(Repeated(w, j)) {
      if w.busy == Idle && j in w.memory {
        PublishKeepsSafe(w, {w.memory[j]}, Repeated(w, j).leaked);
      }
    }
  }

  lemma WorkKeepsSafe(w: World, job: JobId, m: Mark)
    requires Safe(w)
    ensures Safe(Worked(w, job, m))
  {
    if Worked(w, job, m) != w {
      WriteKeepsSafe(w, job, w.files[job], m, w.active);
    }
  }

  lemma ActKeepsSafe(w: World, a: Action)
    requires Safe(w)
    ensures Safe(Act(w, a))
  {
    hide Safe, Begun, Worked, Finished, Resumed, Proceeded, Replayed, Repeated, Arrived, Acked, Forgotten;
    match a
    case Begin(job, attempt) => BeginKeepsSafe(w, job, attempt);
    case Work(job, m) => WorkKeepsSafe(w, job, m);
    case Finish(job, kind, message, sentAt) => FinishKeepsSafe(w, job, kind, message, sentAt);
    case Resume(job, message, sentAt) => ResumeKeepsSafe(w, job, message, sentAt);
    case Proceed(now) => ProceedKeepsSafe(w, now);
    case WriteFails => StopKeepsSafe(w, w.active, w.idle, w.memory);
    case Crash => StopKeepsSafe(w, {}, {}, map[]);
    case Replay(message) => SendKeepsSafe(w);
    case RepeatOffer(job) => SendKeepsSafe(w);
    case Receive(e, at, allowed) => ReceiveKeepsSafe(w, e, at, allowed);
    case AckArrives(ack) => AckKeepsSafe(w, ack);
    case Sweep(job) => SweepKeepsSafe(w, job);
  }

  lemma {:induction false} PlayKeepsSafe(w: World, acts: seq<Action>)
    requires Safe(w)
    ensures Safe(Play(w, acts))
    decreases |acts|
  {
    if acts != [] {
      ActKeepsSafe(w, acts[0]);
      PlayKeepsSafe(Act(w, acts[0]), acts[1..]);
    }
  }
}
