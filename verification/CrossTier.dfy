/**
 * The claim of the whole system: one Control Plane coordinating one attempt over any number of Workers, each with
 * its own journal, handlers and crashes. A Worker learns of the attempt only through an offer that reached it.
 */
module CrossTier {
  import opened Common
  import opened RecoveryStates
  import opened JournalRecords
  import opened RecoveryJournal
  import opened JournalHistory
  import opened GoldenRule
  import P = ProviderCalls
  import O = Ownership
  import OwnershipSafety

  datatype Fleet = Fleet(plane: O.State, workers: map<WorkerId, P.World>)

  datatype Move = OnPlane(a: O.Action) | OnWorker(worker: WorkerId, act: P.Action)

  /** The attempt under study and the one job the cloud created for it. */
  datatype Case = Case(attempt: AttemptId, job: JobId)

  /** An offer has reached the Worker, over the socket or by its own pull. */
  predicate Carried(plane: O.State, w: WorkerId) {
    exists i :: 0 <= i < |plane.offers| && plane.offers[i].worker == w
      && (plane.offers[i].writers != {} || plane.offers[i].accepted)
  }

  /** A journal record for the attempt is created only for its own job, and only on an offer that arrived. */
  predicate Allowed(f: Fleet, c: Case, w: WorkerId, act: P.Action) {
    act.Journal? && act.event.Create? && act.event.attempt == Some(c.attempt) ==>
      act.event.job == c.job && Carried(f.plane, w)
  }

  ghost function World(f: Fleet, w: WorkerId): P.World {
    if w in f.workers then f.workers[w] else P.START
  }

  ghost function MoveTo(f: Fleet, c: Case, m: Move): Fleet {
    match m
    case OnPlane(a) => f.(plane := O.Act(f.plane, a))
    case OnWorker(w, act) =>
      if Allowed(f, c, w, act) then f.(workers := f.workers[w := P.Act(World(f, w), act)]) else f
  }

  ghost function Play(f: Fleet, c: Case, ms: seq<Move>): Fleet
    decreases |ms|
  {
    if ms == [] then f else Play(MoveTo(f, c, ms[0]), c, ms[1..])
  }

  ghost predicate OnlyJob(w: P.World, c: Case) {
    forall j :: j in w.ledger.disk.files && w.ledger.disk.files[j].attempt == Some(c.attempt) ==> j == c.job
  }

  ghost predicate Untouched(w: P.World, c: Case) {
    && w.ledger.spent[c.attempt] == 0
    && forall j :: j in w.ledger.disk.files ==> w.ledger.disk.files[j].attempt != Some(c.attempt)
  }

  ghost predicate Inv(f: Fleet, c: Case, home: WorkerId) {
    && O.Consistent(f.plane) && OwnershipSafety.PinnedTo(f.plane, home)
    && forall w :: w in f.workers ==>
         P.PaidFirst(f.workers[w]) && OnlyJob(f.workers[w], c) && (w == home || Untouched(f.workers[w], c))
  }

  /** Attempts of records never change, and only an offer brings in a new one. */
  lemma NextKeepsAttempts(d: Disk, e: Event, c: Case, j: JobId)
    requires CoherentDisk(d) && j in Next(d, e).files && Next(d, e).files[j].attempt == Some(c.attempt)
    ensures (j in d.files && d.files[j].attempt == Some(c.attempt)) || e == Create(j, Some(c.attempt))
  {
    if j in d.files {
      NextExtends(d, e, j);
    }
  }

  lemma JournalKeepsCase(w: P.World, e: Event, c: Case)
    requires CoherentDisk(w.ledger.disk) && OnlyJob(w, c)
    requires e.Create? && e.attempt == Some(c.attempt) ==> e.job == c.job
    ensures OnlyJob(P.OnJournal(w, e), c)
    ensures Untouched(w, c) && !(e.Create? && e.attempt == Some(c.attempt)) ==> Untouched(P.OnJournal(w, e), c)
  {
    forall j | j in Next(w.ledger.disk, e).files && Next(w.ledger.disk, e).files[j].attempt == Some(c.attempt)
      ensures j == c.job
      ensures Untouched(w, c) ==> e == Create(j, Some(c.attempt))
    {
      NextKeepsAttempts(w.ledger.disk, e, c, j);
    }
  }

  lemma ActKeepsCase(w: P.World, act: P.Action, c: Case)
    requires P.PaidFirst(w) && OnlyJob(w, c)
    requires act.Journal? && act.event.Create? && act.event.attempt == Some(c.attempt) ==> act.event.job == c.job
    ensures OnlyJob(P.Act(w, act), c)
    ensures Untouched(w, c) && !(act.Journal? && act.event.Create? && act.event.attempt == Some(c.attempt)) ==>
      Untouched(P.Act(w, act), c)
  {
    match act
    case Barrier(h) =>
      if h in w.handlers {
        JournalKeepsCase(w, Apply(w.handlers[h].job, Submit), c);
      }
    case Confirm(h, submission, confidence) =>
      if h in w.handlers {
        JournalKeepsCase(w, Apply(w.handlers[h].job, Commit(submission, confidence)), c);
      }
    case Journal(e) => JournalKeepsCase(w, e, c);
    case _ =>
  }

  lemma StartIsClean(c: Case)
    ensures P.PaidFirst(P.START) && OnlyJob(P.START, c) && Untouched(P.START, c)
  {
  }

  lemma CarriedOnlyHome(plane: O.State, home: WorkerId, w: WorkerId)
    requires OwnershipSafety.PinnedTo(plane, home) && Carried(plane, w)
    ensures w == home
  {
  }

  /** The project's affinity is released while the attempt is open. */
  predicate Releases(f: Fleet, m: Move) {
    m.OnPlane? && OwnershipSafety.Unpins(f.plane, m.a)
  }

  /** Handlers cross the barrier before they call, and the affinity is held as long as the attempt is open. */
  ghost predicate Held(f: Fleet, c: Case, ms: seq<Move>)
    decreases |ms|
  {
    ms == [] || (!Releases(f, ms[0]) && !(ms[0].OnWorker? && ms[0].act.CallWithoutBarrier?)
                 && Held(MoveTo(f, c, ms[0]), c, ms[1..]))
  }

  lemma MoveKeepsInv(f: Fleet, c: Case, home: WorkerId, m: Move)
    requires Inv(f, c, home) && !Releases(f, m)
    requires m.OnWorker? ==> !m.act.CallWithoutBarrier?
    ensures Inv(MoveTo(f, c, m), c, home)
  {
    hide P.PaidFirst, P.Act, O.Act, O.Consistent, OwnershipSafety.PinnedTo, OwnershipSafety.Unpins;
    hide OnlyJob, Untouched, Carried;
    match m
    case OnPlane(a) =>
      O.ActKeepsConsistent(f.plane, a);
      OwnershipSafety.StepPinned(f.plane, a, home);
    case OnWorker(w, act) =>
      if Allowed(f, c, w, act) {
        if Carried(f.plane, w) {
          CarriedOnlyHome(f.plane, home, w);
        }
        StartIsClean(c);
        P.ActKeepsPaidFirst(World(f, w), act);
        ActKeepsCase(World(f, w), act, c);
      }
  }

  lemma {:induction false} PlayKeepsInv(f: Fleet, c: Case, home: WorkerId, ms: seq<Move>)
    requires Inv(f, c, home) && Held(f, c, ms)
    ensures Inv(Play(f, c, ms), c, home)
    decreases |ms|
  {
    if ms != [] {
      MoveKeepsInv(f, c, home, ms[0]);
      PlayKeepsInv(MoveTo(f, c, ms[0]), c, home, ms[1..]);
    }
  }

  /**
   * MAIN, across both tiers: when the project's affinity is in force before the first offer and is not released
   * while the attempt is open, handlers cross the barrier before they call, and no booked record of the attempt is
   * deleted, then over every run, with crashes of any Worker and of the delivery processor between any two steps,
   * one Worker at most ever asks the provider for the attempt, and it asks at most once.
   */
  lemma OneGenerationPerAttempt(c: Case, home: WorkerId, ms: seq<Move>)
    requires Held(Fleet(O.Unoffered(Some(home)), map[]), c, ms)
    requires c.attempt !in World(Play(Fleet(O.Unoffered(Some(home)), map[]), c, ms), home).ledger.lost
    ensures forall w :: w != home ==>
      World(Play(Fleet(O.Unoffered(Some(home)), map[]), c, ms), w).billed[c.attempt] == 0
    ensures World(Play(Fleet(O.Unoffered(Some(home)), map[]), c, ms), home).billed[c.attempt] <= 1
  {
    var start := Fleet(O.Unoffered(Some(home)), map[]);
    PlayKeepsInv(start, c, home, ms);
    var f := Play(start, c, ms);
    StartIsClean(c);
    var l := World(f, home).ledger;
    assert BookedJobs(l.disk.files, c.attempt) <= {c.job};
    SetOfOne(BookedJobs(l.disk.files, c.attempt), c.job);
  }

  lemma SetOfOne(s: set<JobId>, x: JobId)
    requires s <= {x}
    ensures |s| <= 1
  {
    assert s == {} || s == {x};
  }

  // ---- releasing the affinity of an open attempt ----

  /** A Worker that the offer reached takes up the job, books the generation and asks the provider. */
  ghost function AskedBy(f: Fleet, c: Case, w: WorkerId): Fleet {
    var offered := MoveTo(f, c, OnWorker(w, P.Journal(Create(c.job, Some(c.attempt)))));
    var started := MoveTo(offered, c, OnWorker(w, P.Start(0, c.job)));
    MoveTo(MoveTo(started, c, OnWorker(w, P.Barrier(0))), c, OnWorker(w, P.Call(0)))
  }

  lemma FirstAskIsBilled(f: Fleet, c: Case, w: WorkerId)
    requires Carried(f.plane, w) && w !in f.workers
    ensures var n := AskedBy(f, c, w);
      && n.plane == f.plane && n.workers.Keys == f.workers.Keys + {w}
      && (forall v :: v in f.workers ==> n.workers[v] == f.workers[v])
      && n.workers[w].billed[c.attempt] == 1
  {
    hide Carried;
    FreshBarrierPasses(c);
  }

  lemma FreshBarrierPasses(c: Case)
    ensures var w := P.Act(P.Act(P.START, P.Journal(Create(c.job, Some(c.attempt)))), P.Start(0, c.job));
      P.Act(P.Act(w, P.Barrier(0)), P.Call(0)).billed == multiset{c.attempt}
  {
    hide Coherent;
    var d := Next(EMPTY.disk, Create(c.job, Some(c.attempt)));
    assert d.files == map[c.job := Fresh(Some(c.attempt))];
    assert Verdict(d, c.job, Submit).Ok?;
  }

  ghost function PlaneRuns(f: Fleet, acts: seq<O.Action>): Fleet {
    f.(plane := O.Play(f.plane, acts))
  }

  /**
   * The first Worker has asked the provider and its fact is still on the way; the delivery processor has not marked
   * the offer sent. Releasing the affinity then lets a safe re-offer take the attempt to a second Worker, which
   * has no record of it and asks the provider again.
   */
  lemma ReleasedAffinityPaysTwice(c: Case, first: WorkerId, second: WorkerId)
    requires first != second
    ensures var f := PlaneRuns(Fleet(O.Unoffered(Some(first)), map[]),
                               [O.DoClaim(first, true), O.DoOutbox(0, O.TakeClaim(0)), O.DoOutbox(0, O.WriteSocket(0))]);
      var g := PlaneRuns(AskedBy(f, c, first),
                         [O.DoReleaseAffinity(true), O.DoSafeReoffer(second, true),
                          O.DoOutbox(1, O.TakeClaim(0)), O.DoOutbox(1, O.WriteSocket(0))]);
      var n := AskedBy(g, c, second);
      && first in n.workers && n.workers[first].billed[c.attempt] == 1
      && second in n.workers && n.workers[second].billed[c.attempt] == 1
  {
    hide O.Play, O.Act, AskedBy;
    var f := PlaneRuns(Fleet(O.Unoffered(Some(first)), map[]),
                       [O.DoClaim(first, true), O.DoOutbox(0, O.TakeClaim(0)), O.DoOutbox(0, O.WriteSocket(0))]);
    FirstOfferWritten(first);
    FirstAskIsBilled(f, c, first);
    var asked := AskedBy(f, c, first);
    SecondOfferWritten(f.plane, first, second);
    var g := PlaneRuns(asked, [O.DoReleaseAffinity(true), O.DoSafeReoffer(second, true),
                               O.DoOutbox(1, O.TakeClaim(0)), O.DoOutbox(1, O.WriteSocket(0))]);
    FirstAskIsBilled(g, c, second);
  }

  lemma FirstOfferWritten(first: WorkerId)
    ensures var p := O.Play(O.Unoffered(Some(first)),
                            [O.DoClaim(first, true), O.DoOutbox(0, O.TakeClaim(0)), O.DoOutbox(0, O.WriteSocket(0))]);
      && p.offers == [O.Offer(first, O.Open, false, O.Pending, false, Some(0), {}, {0})]
      && p.barriers == {} && !O.HasEvidence(p) && Carried(p, first)
  {
    var s := O.Unoffered(Some(first));
    var a := [O.DoClaim(first, true), O.DoOutbox(0, O.TakeClaim(0)), O.DoOutbox(0, O.WriteSocket(0))];
    var s1 := O.Act(s, a[0]);
    assert s1.offers == [O.Offer(first, O.Open, false, O.Pending, false, None, {}, {})];
    var n := O.Act(O.Act(s1, a[1]), a[2]);
    OwnershipSafety.ClaimedAndWritten(s1.offers[0], 0);
    assert n.offers == [O.Offer(first, O.Open, false, O.Pending, false, Some(0), {}, {0})];
    assert a[0..] == a && a[3..] == [];
    OwnershipSafety.Unfold(s, a, 0);
    OwnershipSafety.Unfold(s1, a, 1);
    OwnershipSafety.Unfold(O.Act(s1, a[1]), a, 2);
    assert 0 in n.offers[0].writers && n.offers[0].worker == first;
  }

  lemma SecondOfferWritten(p: O.State, first: WorkerId, second: WorkerId)
    requires p.offers == [O.Offer(first, O.Open, false, O.Pending, false, Some(0), {}, {0})]
    requires p.barriers == {} && !O.HasEvidence(p)
    ensures Carried(O.Play(p, [O.DoReleaseAffinity(true), O.DoSafeReoffer(second, true),
                               O.DoOutbox(1, O.TakeClaim(0)), O.DoOutbox(1, O.WriteSocket(0))]), second)
  {
    var a := [O.DoReleaseAffinity(true), O.DoSafeReoffer(second, true),
              O.DoOutbox(1, O.TakeClaim(0)), O.DoOutbox(1, O.WriteSocket(0))];
    var s1 := O.Act(p, a[0]);
    assert O.LiveFrom(s1.offers, 0) == Some(0);
    var s2 := O.Act(s1, a[1]);
    assert s2.offers == [O.Offer(first, O.ExpiredPreSubmit, false, O.Dead, false, Some(0), {}, {0}),
                         O.Offer(second, O.Open, false, O.Pending, false, None, {}, {})];
    var n := O.Act(O.Act(s2, a[2]), a[3]);
    assert a[0..] == a && a[4..] == [];
    OwnershipSafety.Unfold(p, a, 0);
    OwnershipSafety.Unfold(s1, a, 1);
    OwnershipSafety.Unfold(s2, a, 2);
    OwnershipSafety.Unfold(O.Act(s2, a[2]), a, 3);
    assert 0 in n.offers[1].writers && n.offers[1].worker == second;
  }
}
