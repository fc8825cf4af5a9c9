/**
 * The golden rule at the provider. Handlers run in memory, ask the provider to generate, and lose their program
 * counter in a crash; the journal directory survives. Handlers may be started for any job at any time, which
 * covers duplicate offers, restarts, and an adversary that retries whenever a plan says it is safe.
 */
module ProviderCalls {
  import opened Common
  import opened RecoveryStates
  import opened JournalRecords
  import opened RecoveryClassifier
  import opened RecoveryJournal
  import opened JournalHistory
  import opened GoldenRule

  datatype Pc = Armed | PastBarrier | Called

  datatype Handler = Handler(job: JobId, attempt: Option<AttemptId>, pc: Pc)

  /**
   * `billed` and `asked` count provider generations per attempt and per job; `forgotten` holds the jobs whose
   * booked record was taken off the disk. No code reads these three.
   */
  datatype World = World(
    ledger: Ledger,
    handlers: map<nat, Handler>,
    billed: multiset<AttemptId>,
    asked: multiset<JobId>,
    forgotten: set<JobId>)

  datatype Action =
    | Start(h: nat, job: JobId)
    | Barrier(h: nat)
    | Call(h: nat)
    | Confirm(h: nat, submission: Arg<nat>, confidence: Option<Confidence>)
    | Stop(h: nat)
    | Crash
    | Journal(event: Event)
    | CallWithoutBarrier(h: nat)

  const START: World := World(EMPTY, map[], multiset{}, multiset{}, {})

  ghost function DroppedJobs(before: Disk, after: Disk): set<JobId> {
    set j | j in before.files && j !in after.files && Booked(before.files[j])
  }

  ghost function OnJournal(w: World, e: Event): World {
    w.(ledger := Step(w.ledger, e), forgotten := w.forgotten + DroppedJobs(w.ledger.disk, Next(w.ledger.disk, e)))
  }

  function Asks(w: World, h: nat): World
    requires h in w.handlers
  {
    var hd := w.handlers[h];
    w.(handlers := w.handlers[h := hd.(pc := Called)],
       billed := if hd.attempt.Some? then w.billed + multiset{hd.attempt.value} else w.billed,
       asked := w.asked + multiset{hd.job})
  }

  /** A refused or impossible action leaves the world alone; a handler whose barrier throws is gone. */
  ghost function Act(w: World, a: Action): World {
    match a
    case Start(h, job) =>
      if h in w.handlers then w else w.(handlers := w.handlers[h := Handler(job, None, Armed)])
    case Barrier(h) =>
      if h !in w.handlers || w.handlers[h].pc != Armed then w
      else
        var job := w.handlers[h].job;
        var n := OnJournal(w, Apply(job, Submit));
        if Verdict(w.ledger.disk, job, Submit).Ok?
        then n.(handlers := w.handlers[h := Handler(job, w.ledger.disk.files[job].attempt, PastBarrier)])
        else n.(handlers := w.handlers - {h})
    case Call(h) =>
      if h !in w.handlers || w.handlers[h].pc != PastBarrier then w else Asks(w, h)
    case Confirm(h, submission, confidence) =>
      if h !in w.handlers || w.handlers[h].pc != Called then w
      else OnJournal(w, Apply(w.handlers[h].job, Commit(submission, confidence)))
    case Stop(h) => w.(handlers := w.handlers - {h})
    case Crash => w.(handlers := map[])
    case Journal(e) => OnJournal(w, e)
    case CallWithoutBarrier(h) =>
      if h !in w.handlers || w.handlers[h].pc != Armed then w else Asks(w, h)
  }

  ghost function Play(w: World, acts: seq<Action>): World
    decreases |acts|
  {
    if acts == [] then w else Play(Act(w, acts[0]), acts[1..])
  }

  ghost function Owing(handlers: map<nat, Handler>, a: AttemptId): set<nat> {
    set h | h in handlers && handlers[h].pc == PastBarrier && handlers[h].attempt == Some(a)
  }

  ghost function OwingJob(handlers: map<nat, Handler>, j: JobId): set<nat> {
    set h | h in handlers && handlers[h].pc == PastBarrier && handlers[h].job == j
  }

  /** Every call made or about to be made was paid for in the journal first. */
  ghost predicate PaidFirst(w: World) {
    && Balanced(w.ledger)
    && (forall a :: w.billed[a] + |Owing(w.handlers, a)| <= w.ledger.spent[a])
    && (forall j :: w.asked[j] + |OwingJob(w.handlers, j)| > 0 ==>
          j in w.forgotten || (j in w.ledger.disk.files && Booked(w.ledger.disk.files[j])))
    && (forall j :: j !in w.forgotten ==> w.asked[j] + |OwingJob(w.handlers, j)| <= 1)
  }

  lemma BookedStaysBooked(d: Disk, e: Event, j: JobId)
    requires CoherentDisk(d) && j in d.files && Booked(d.files[j])
    ensures j in DroppedJobs(d, Next(d, e)) || (j in Next(d, e).files && Booked(Next(d, e).files[j]))
  {
    if j in Next(d, e).files {
      NextExtends(d, e, j);
    }
  }

  lemma JournalKeepsPaidFirst(w: World, e: Event)
    requires PaidFirst(w)
    ensures PaidFirst(OnJournal(w, e))
  {
    var n := OnJournal(w, e);
    StepBalances(w.ledger, e);
    forall j | w.asked[j] + |OwingJob(w.handlers, j)| > 0
      ensures j in n.forgotten || (j in n.ledger.disk.files && Booked(n.ledger.disk.files[j]))
    {
      if j !in w.forgotten {
        BookedStaysBooked(w.ledger.disk, e, j);
      }
    }
  }

  lemma FewerHandlersOweLess(w: World, n: World)
    requires PaidFirst(w) && n == w.(handlers := n.handlers)
    requires forall h :: h in n.handlers && n.handlers[h].pc == PastBarrier ==>
      h in w.handlers && w.handlers[h] == n.handlers[h]
    ensures PaidFirst(n)
  {
    forall a ensures |Owing(n.handlers, a)| <= |Owing(w.handlers, a)| {
      SubsetSize(Owing(n.handlers, a), Owing(w.handlers, a));
    }
    forall j ensures |OwingJob(n.handlers, j)| <= |OwingJob(w.handlers, j)| {
      SubsetSize(OwingJob(n.handlers, j), OwingJob(w.handlers, j));
    }
  }

  lemma BarrierOwes(hs: map<nat, Handler>, h: nat, hd: Handler, a: AttemptId)
    requires h in hs && hs[h].pc == Armed && hd.pc == PastBarrier
    ensures |Owing(hs[h := hd], a)| == |Owing(hs, a)| + if hd.attempt == Some(a) then 1 else 0
  {
    assert h !in Owing(hs, a);
    assert Owing(hs[h := hd], a) == Owing(hs, a) + if hd.attempt == Some(a) then {h} else {};
  }

  lemma BarrierOwesJob(hs: map<nat, Handler>, h: nat, hd: Handler, j: JobId)
    requires h in hs && hs[h].pc == Armed && hd.pc == PastBarrier
    ensures |OwingJob(hs[h := hd], j)| == |OwingJob(hs, j)| + if hd.job == j then 1 else 0
  {
    assert h !in OwingJob(hs, j);
    assert OwingJob(hs[h := hd], j) == OwingJob(hs, j) + if hd.job == j then {h} else {};
  }

  lemma BarrierBooks(d: Disk, job: JobId)
    requires CoherentDisk(d) && Verdict(d, job, Submit).Ok?
    ensures job in d.files && !Booked(d.files[job]) && Books(d, Apply(job, Submit)) == d.files[job].attempt
    ensures var n := Next(d, Apply(job, Submit));
      && DroppedJobs(d, n) == {}
      && n.files.Keys == d.files.Keys && Booked(n.files[job])
      && forall j :: j in d.files && j != job ==> n.files[j] == d.files[j]
  {
  }

  lemma BarrierKeepsPaidFirst(w: World, h: nat)
    requires PaidFirst(w) && h in w.handlers && w.handlers[h].pc == Armed
    requires Verdict(w.ledger.disk, w.handlers[h].job, Submit).Ok?
    ensures PaidFirst(Act(w, Barrier(h)))
  {
    var job := w.handlers[h].job;
    var d := w.ledger.disk;
    StepBalances(w.ledger, Apply(job, Submit));
    BarrierBooks(d, job);
    var n := Act(w, Barrier(h));
    var hd := n.handlers[h];
    forall a: AttemptId ensures n.billed[a] + |Owing(n.handlers, a)| <= n.ledger.spent[a] {
      BarrierOwes(w.handlers, h, hd, a);
    }
    forall j: JobId
      ensures |OwingJob(n.handlers, j)| == |OwingJob(w.handlers, j)| + if hd.job == j then 1 else 0
    {
      BarrierOwesJob(w.handlers, h, hd, j);
    }
  }

  lemma CallKeepsPaidFirst(w: World, h: nat)
    requires PaidFirst(w) && h in w.handlers && w.handlers[h].pc == PastBarrier
    ensures PaidFirst(Asks(w, h))
  {
    hide Balanced;
    var n := Asks(w, h);
    var hd := w.handlers[h];
    forall a: AttemptId
      ensures Owing(n.handlers, a) == if hd.attempt == Some(a) then Owing(w.handlers, a) - {h} else Owing(w.handlers, a)
    {
    }
    forall j: JobId
      ensures OwingJob(n.handlers, j) == if j == hd.job then OwingJob(w.handlers, j) - {h} else OwingJob(w.handlers, j)
    {
    }
    assert hd.attempt.Some? ==> h in Owing(w.handlers, hd.attempt.value);
    assert h in OwingJob(w.handlers, hd.job);
  }

  lemma ActKeepsPaidFirst(w: World, a: Action)
    requires PaidFirst(w) && !a.CallWithoutBarrier?
    ensures PaidFirst(Act(w, a))
  {
    match a
    case Start(_, _) => FewerHandlersOweLess(w, Act(w, a));
    case Barrier(h) =>
      if h in w.handlers && w.handlers[h].pc == Armed {
        var job := w.handlers[h].job;
        if Verdict(w.ledger.disk, job, Submit).Ok? {
          BarrierKeepsPaidFirst(w, h);
        } else {
          JournalKeepsPaidFirst(w, Apply(job, Submit));
          FewerHandlersOweLess(OnJournal(w, Apply(job, Submit)), Act(w, a));
        }
      }
    case Call(h) =>
      if h in w.handlers && w.handlers[h].pc == PastBarrier {
        CallKeepsPaidFirst(w, h);
      }
    case Confirm(h, submission, confidence) =>
      if h in w.handlers {
        JournalKeepsPaidFirst(w, Apply(w.handlers[h].job, Commit(submission, confidence)));
      }
    case Stop(_) => FewerHandlersOweLess(w, Act(w, a));
    case Crash => FewerHandlersOweLess(w, Act(w, a));
    case Journal(e) => JournalKeepsPaidFirst(w, e);
  }

  lemma {:induction false} PlayKeepsPaidFirst(w: World, acts: seq<Action>)
    requires PaidFirst(w)
    requires forall a :: a in acts ==> !a.CallWithoutBarrier?
    ensures PaidFirst(Play(w, acts))
    decreases |acts|
  {
    if acts != [] {
      assert acts[0] in acts;
      ActKeepsPaidFirst(w, acts[0]);
      PlayKeepsPaidFirst(Act(w, acts[0]), acts[1..]);
    }
  }

  /**
   * MAIN: whatever is started, crashed, retried or written, the provider is never asked more often than the
   * journal was charged. While the ledger is golden that is at most one generation per attempt. A record that
   * recovery calls safe to retry has never led to a call, unless an earlier record of the job was deleted.
   */
  lemma ProviderNeverAskedUnpaid(acts: seq<Action>)
    requires forall a :: a in acts ==> !a.CallWithoutBarrier?
    ensures var w := Play(START, acts);
      && (forall a :: w.billed[a] <= w.ledger.spent[a])
      && (Golden(w.ledger) ==> forall a :: w.billed[a] <= 1)
      && (forall j :: j !in w.forgotten ==> w.asked[j] <= 1)
      && (forall j, lookup :: j !in w.forgotten && PlanRecovery(Lookup(w.ledger.disk, j), lookup).safeToRetry ==>
            w.asked[j] == 0)
  {
    PlayKeepsPaidFirst(START, acts);
    var w := Play(START, acts);
    forall j, lookup | j !in w.forgotten && PlanRecovery(Lookup(w.ledger.disk, j), lookup).safeToRetry
      ensures w.asked[j] == 0
    {
      RetryGatesAgree(Lookup(w.ledger.disk, j), lookup);
    }
  }

  /** A handler that asks first and commits afterwards is not covered: a crash in between bills again unseen. */
  lemma AskingBeforeTheBarrierPaysTwice(w: World, h: nat, job: JobId)
    requires h !in w.handlers
    requires PlanRecovery(Lookup(w.ledger.disk, job), None).safeToRetry
    ensures var once := [Start(h, job), CallWithoutBarrier(h), Crash];
      var n := Play(Play(w, once), once);
      && n.ledger == w.ledger
      && n.asked == w.asked + multiset{job, job}
      && PlanRecovery(Lookup(n.ledger.disk, job), None).safeToRetry
  {
    var once := [Start(h, job), CallWithoutBarrier(h), Crash];
    UnbarrieredCallLeavesNoTrace(w, h, job);
    UnbarrieredCallLeavesNoTrace(Play(w, once), h, job);
  }

  lemma UnbarrieredCallLeavesNoTrace(w: World, h: nat, job: JobId)
    requires h !in w.handlers
    ensures var n := Play(w, [Start(h, job), CallWithoutBarrier(h), Crash]);
      n == w.(handlers := map[], asked := w.asked + multiset{job})
  {
    var acts := [Start(h, job), CallWithoutBarrier(h), Crash];
    var w1 := Act(w, acts[0]);
    var w2 := Act(w1, acts[1]);
    assert acts[1..][1..] == [acts[2]] && [acts[2]][1..] == [];
    assert Play(w, acts) == Play(w1, acts[1..]) == Play(w2, [acts[2]]) == Act(w2, acts[2]);
  }
}
