/** At most one Worker per paid attempt: when the offer transactions guarantee it, and exactly when they do not. */
module OwnershipSafety {
  import opened Common
  import opened RecoveryStates
  import opened JournalRecords
  import opened Inbox
  import opened Ownership

  // ---- only the current Worker is heard ----

  ghost predicate Attributed(s: State) {
    forall i :: 0 <= i < |s.offers| && IsLive(s.offers[i]) ==>
      s.producer == Some(s.offers[i].worker) && s.jobWorker == Some(s.offers[i].worker)
  }

  lemma MintAttributed(s: State, w: WorkerId, member: bool)
    requires ClaimFor(s, w, member).Ok?
    ensures Attributed(ClaimFor(s, w, member).value)
  {
  }

  lemma NarrowingAttributed(s: State, n: State)
    requires Attributed(s) && n.producer == s.producer && n.jobWorker == s.jobWorker && |n.offers| == |s.offers|
    requires forall i :: 0 <= i < |s.offers| && IsLive(n.offers[i]) ==>
      IsLive(s.offers[i]) && n.offers[i].worker == s.offers[i].worker
    ensures Attributed(n)
  {
  }

  lemma EventAttributed(s: State, w: WorkerId, event: WorkerEvent)
    requires Consistent(s) && Attributed(s)
    ensures Attributed(Or(s, ApplyWorkerEvent(s, w, event)))
  {
  }

  lemma RecoveryAttributed(s: State, w: WorkerId, member: bool, asset: bool)
    requires Attributed(s)
    ensures Attributed(RecoveryReoffer(s, w, member, asset))
  {
  }

  lemma PullAttributed(s: State, i: nat)
    requires Attributed(s)
    ensures Attributed(PullOffer(s, i))
  {
  }

  lemma ActKeepsAttributed(s: State, a: Action)
    requires Consistent(s) && Attributed(s)
    ensures Attributed(Act(s, a))
  {
    hide Attributed, Consistent, RecoveryReoffer, ApplyWorkerEvent;
    match a
    case DoClaim(w, member) =>
      if ClaimFor(s, w, member).Ok? {
        MintAttributed(s, w, member);
      }
    case DoSafeReoffer(w, member) =>
      var live := LiveFrom(s.offers, 0);
      if live.Some? {
        NarrowingAttributed(s, Quarantined(s, live.value));
        if ClaimFor(Retired(s, live.value), w, member).Ok? {
          MintAttributed(Retired(s, live.value), w, member);
        }
      }
    case DoExpire(i, member) =>
      if i < |s.offers| && s.offers[i].status == Open {
        NarrowingAttributed(s, Quarantined(s, i));
        if ClaimFor(Retired(s, i), s.offers[i].worker, member).Ok? {
          MintAttributed(Retired(s, i), s.offers[i].worker, member);
        }
      }
    case DoRecovery(w, member, asset) => RecoveryAttributed(s, w, member, asset);
    case DoEvent(w, event) => EventAttributed(s, w, event);
    case DoPull(i) => PullAttributed(s, i);
    case _ => NarrowingAttributed(s, Act(s, a));
  }

  lemma {:induction false} RunsStayAttributed(s: State, acts: seq<Action>)
    requires Consistent(s) && Attributed(s)
    ensures Consistent(Play(s, acts)) && Attributed(Play(s, acts))
    decreases |acts|
  {
    if acts != [] {
      ActKeepsConsistent(s, acts[0]);
      ActKeepsAttributed(s, acts[0]);
      RunsStayAttributed(Act(s, acts[0]), acts[1..]);
    }
  }

  /** While an offer is live, no event, fact or terminal from any other Worker has an effect, however late. */
  lemma OnlyTheOfferedWorkerIsHeard(acts: seq<Action>, affinity: Option<WorkerId>, i: nat, other: WorkerId)
    requires i < |Play(Unoffered(affinity), acts).offers| && IsLive(Play(Unoffered(affinity), acts).offers[i])
    requires other != Play(Unoffered(affinity), acts).offers[i].worker
    ensures forall e :: Act(Play(Unoffered(affinity), acts), DoEvent(other, e)) == Play(Unoffered(affinity), acts)
    ensures forall ok :: Act(Play(Unoffered(affinity), acts), DoFact(other, ok)) == Play(Unoffered(affinity), acts)
    ensures forall k, m, sub ::
      Act(Play(Unoffered(affinity), acts), DoTerminal(other, k, m, sub)) == Play(Unoffered(affinity), acts)
  {
    RunsStayAttributed(Unoffered(affinity), acts);
  }

  // ---- one Worker per attempt ----

  /** The Worker was sent this offer, or the outbox may still send it. */
  predicate Reaches(o: Offer) {
    o.writers != {} || o.holders != {} || o.delivery in {Pending, Sent}
  }

  /** The Worker may hold this offer now or may still be handed it; a rejected offer is taken at its word. */
  predicate Exposed(o: Offer) {
    o.status != OfferRejected && (IsLive(o) || o.accepted || Reaches(o))
  }

  ghost predicate Sole(s: State) {
    forall i, j :: 0 <= i < |s.offers| && 0 <= j < |s.offers| && Exposed(s.offers[i]) && Exposed(s.offers[j]) ==>
      s.offers[i].worker == s.offers[j].worker
  }

  ghost predicate ExposedElsewhere(offers: seq<Offer>, worker: WorkerId) {
    exists i :: 0 <= i < |offers| && Exposed(offers[i]) && offers[i].worker != worker
  }

  /** The two transactions that can hand the attempt to a second Worker, and the check they lack. */
  ghost predicate Redirects(s: State, a: Action) {
    match a
    case DoClaim(w, member) => ClaimFor(s, w, member).Ok? && ExposedElsewhere(s.offers, w)
    case DoSafeReoffer(w, member) =>
      SafeReoffer(s, w, member).1.None? && LiveFrom(s.offers, 0).Some?
        && ExposedElsewhere(Retired(s, LiveFrom(s.offers, 0).value).offers, w)
    case _ => false
  }

  lemma StepsStaySole(s: State, n: State)
    requires Sole(s) && |n.offers| == |s.offers|
    requires forall i :: 0 <= i < |s.offers| ==> n.offers[i].worker == s.offers[i].worker
    requires forall i :: 0 <= i < |s.offers| && Exposed(n.offers[i]) ==> Exposed(s.offers[i])
    ensures Sole(n)
  {
  }

  lemma MintIsSole(s: State, w: WorkerId, member: bool)
    requires Sole(s) && ClaimFor(s, w, member).Ok?
    ensures Sole(ClaimFor(s, w, member).value) <==> !ExposedElsewhere(s.offers, w)
  {
    var n := ClaimFor(s, w, member).value;
    var last := |s.offers|;
    assert n.offers[last].worker == w && Exposed(n.offers[last]);
    assert forall i :: 0 <= i < last ==> n.offers[i] == s.offers[i];
  }

  lemma RetiringStaysSole(s: State, i: nat)
    requires Sole(s) && i < |s.offers| && IsLive(s.offers[i])
    ensures Sole(Retired(s, i)) && !ExposedElsewhere(Retired(s, i).offers, s.offers[i].worker)
  {
  }

  lemma SafeReofferSole(s: State, w: WorkerId, member: bool)
    requires Sole(s)
    ensures Sole(SafeReoffer(s, w, member).0) <==> !Redirects(s, DoSafeReoffer(w, member))
  {
    var live := LiveFrom(s.offers, 0);
    if live.Some? {
      RetiringStaysSole(s, live.value);
      StepsStaySole(s, Quarantined(s, live.value));
      if SafeReoffer(s, w, member).1.None? {
        MintIsSole(Retired(s, live.value), w, member);
      }
    }
  }

  lemma ExpireSole(s: State, i: nat, member: bool)
    requires Sole(s)
    ensures Sole(ExpireOffer(s, i, member))
  {
  }

  lemma RecoverySole(s: State, w: WorkerId, member: bool, asset: bool)
    requires Consistent(s) && Attributed(s) && Sole(s)
    ensures Sole(RecoveryReoffer(s, w, member, asset))
  {
  }

  lemma OutboxSole(s: State, i: nat, step: OutboxStep)
    requires Sole(s)
    ensures Sole(Outbox(s, i, step))
  {
  }

  lemma EventSole(s: State, w: WorkerId, event: WorkerEvent)
    requires Sole(s)
    ensures Sole(Or(s, ApplyWorkerEvent(s, w, event)))
  {
  }

  /** MAIN: a step exposes a second Worker to the attempt iff it redirects a claim or a re-offer as above. */
  lemma StepSole(s: State, a: Action)
    requires Consistent(s) && Attributed(s) && Sole(s)
    ensures Sole(Act(s, a)) <==> !Redirects(s, a)
  {
    match a
    case DoClaim(w, member) =>
      if ClaimFor(s, w, member).Ok? {
        MintIsSole(s, w, member);
      }
    case DoSafeReoffer(w, member) => SafeReofferSole(s, w, member);
    case DoExpire(i, member) => ExpireSole(s, i, member);
    case DoRecovery(w, member, asset) => RecoverySole(s, w, member, asset);
    case DoEvent(w, event) => EventSole(s, w, event);
    case DoOutbox(i, step) => OutboxSole(s, i, step);
    case _ => StepsStaySole(s, Act(s, a));
  }

  /** One instance claims a row that nobody has touched, and writes it. */
  lemma ClaimedAndWritten(o: Offer, t: Token)
    requires o.delivery == Pending && o.claim.None? && o.holders == {} && o.writers == {}
    ensures Stepped(Stepped(o, TakeClaim(t)), WriteSocket(t)) == o.(claim := Some(t), writers := {t})
  {
    assert o.holders + {t} - {t} == {} && o.writers + {t} == {t};
  }

  /** One claims it, another takes it over and gives it back: the first still has it in memory. */
  lemma TakenOverAndReleased(o: Offer, t: Token, u: Token)
    requires o.delivery == Pending && o.claim.None? && o.holders == {} && o.writers == {} && t != u
    ensures Stepped(Stepped(Stepped(Stepped(o, TakeClaim(t)), TakeClaim(u)), ReleaseClaim(u)), GiveUp(u)) ==
      o.(holders := {t})
  {
    assert o.holders + {t} + {u} - {u} == {t};
  }

  lemma Unfold(s: State, acts: seq<Action>, i: nat)
    requires i < |acts|
    ensures Play(s, acts[i..]) == Play(Act(s, acts[i]), acts[i + 1..])
  {
    assert acts[i..][1..] == acts[i + 1..];
  }

  // ---- project affinity closes the gap ----

  ghost predicate PinnedTo(s: State, w: WorkerId) {
    && (forall i :: 0 <= i < |s.offers| ==> s.offers[i].worker == w)
    && (s.affinity == Some(w) || s.terminal.Some?)
  }

  /** Releasing the project's affinity while the attempt is open; the code checks no more than a generation. */
  predicate Unpins(s: State, a: Action) {
    a.DoReleaseAffinity? && a.matches && s.terminal.None?
  }

  /** A step takes the attempt off its Worker iff it releases the affinity while the attempt is open. */
  lemma StepPinned(s: State, a: Action, w: WorkerId)
    requires Consistent(s) && PinnedTo(s, w)
    ensures PinnedTo(Act(s, a), w) <==> !Unpins(s, a)
  {
    hide Consistent, TerminalEvent, HasExpired;
    match a
    case DoTerminal(v, kind, message, submitted) => TerminalPinned(s, v, kind, message, submitted, w);
    case DoRecovery(v, member, asset) => RecoveryPinned(s, v, member, asset, w);
    case DoSafeReoffer(v, member) => SafeReofferPinned(s, v, member, w);
    case DoExpire(i, member) => ExpirePinned(s, i, member, w);
    case _ =>
  }

  lemma TerminalPinned(s: State, v: WorkerId, kind: TerminalType, message: MessageId, submitted: bool, w: WorkerId)
    requires PinnedTo(s, w)
    ensures PinnedTo(Or(s, TerminalEvent(s, v, kind, message, submitted)), w)
  {
  }

  lemma RecoveryPinned(s: State, v: WorkerId, member: bool, asset: bool, w: WorkerId)
    requires PinnedTo(s, w)
    ensures PinnedTo(RecoveryReoffer(s, v, member, asset), w)
  {
  }

  lemma SafeReofferPinned(s: State, v: WorkerId, member: bool, w: WorkerId)
    requires PinnedTo(s, w)
    ensures PinnedTo(SafeReoffer(s, v, member).0, w)
  {
  }

  lemma ExpirePinned(s: State, i: nat, member: bool, w: WorkerId)
    requires PinnedTo(s, w)
    ensures PinnedTo(ExpireOffer(s, i, member), w)
  {
  }

  ghost predicate NeverUnpins(s: State, acts: seq<Action>)
    decreases |acts|
  {
    acts == [] || (!Unpins(s, acts[0]) && NeverUnpins(Act(s, acts[0]), acts[1..]))
  }

  /**
   * With a project affinity in force before the first offer, and not released while the attempt is open, every
   * offer ever made for the attempt goes to that one Worker: over every run of claims, expiries, re-offers,
   * recoveries, crashes between the socket write and the SENT mark, and attempts to move the affinity.
   */
  lemma {:induction false} AffinityPinsTheAttempt(s: State, acts: seq<Action>, w: WorkerId)
    requires Consistent(s) && PinnedTo(s, w) && NeverUnpins(s, acts)
    ensures PinnedTo(Play(s, acts), w) && Sole(Play(s, acts))
    decreases |acts|
  {
    if acts != [] {
      ActKeepsConsistent(s, acts[0]);
      StepPinned(s, acts[0], w);
      AffinityPinsTheAttempt(Act(s, acts[0]), acts[1..], w);
    }
  }

  /** Released while the offer is out, a safe re-offer sends the attempt to a second Worker. */
  lemma ReleaseReachesSecondWorker(first: WorkerId, second: WorkerId)
    requires first != second
    ensures var n := Play(Unoffered(Some(first)),
        [DoClaim(first, true), DoOutbox(0, TakeClaim(0)), DoOutbox(0, WriteSocket(0))]);
      && PinnedTo(n, first) && Act(n, DoSafeReoffer(second, true)) == n
      && Unpins(n, DoReleaseAffinity(true))
      && !Sole(Act(Act(n, DoReleaseAffinity(true)), DoSafeReoffer(second, true)))
      && Act(n, DoAffinity(second, false)) == n
      && Act(Act(n, DoReleaseAffinity(true)), DoAffinity(second, false)).affinity == Some(second)
      && !Sole(Act(Act(Act(n, DoReleaseAffinity(true)), DoAffinity(second, false)), DoSafeReoffer(second, true)))
  {
    var s := Unoffered(Some(first));
    var a := [DoClaim(first, true), DoOutbox(0, TakeClaim(0)), DoOutbox(0, WriteSocket(0))];
    var s1 := Act(s, a[0]);
    assert s1.offers == [Offer(first, Open, false, Pending, false, None, {}, {})];
    var n := Act(Act(s1, a[1]), a[2]);
    ClaimedAndWritten(s1.offers[0], 0);
    assert n.offers == [Offer(first, Open, false, Pending, false, Some(0), {}, {0})];
    assert a[0..] == a && a[3..] == [];
    Unfold(s, a, 0);
    Unfold(s1, a, 1);
    Unfold(Act(s1, a[1]), a, 2);
    var released := Act(n, DoReleaseAffinity(true));
    SecondWorkerIsExposed(released, first, second);
    SecondWorkerIsExposed(Act(released, DoAffinity(second, false)), first, second);
  }

  lemma SecondWorkerIsExposed(s: State, first: WorkerId, second: WorkerId)
    requires first != second && s.offers == [Offer(first, Open, false, Pending, false, Some(0), {}, {0})]
    requires s.affinity.Some? ==> s.affinity.value == second
    requires s.barriers == {} && !HasEvidence(s)
    ensures SafeReoffer(s, second, true).1.None?
    ensures !Sole(SafeReoffer(s, second, true).0)
  {
    var n := SafeReoffer(s, second, true).0;
    assert LiveFrom(s.offers, 0) == Some(0);
    assert n.offers == [Offer(first, ExpiredPreSubmit, false, Dead, false, Some(0), {}, {0}),
                        Offer(second, Open, false, Pending, false, None, {}, {})];
    assert Exposed(n.offers[0]) && Exposed(n.offers[1]);
  }

  // ---- what "still PENDING, never SENT" proves ----

  function StepAll(o: Offer, steps: seq<OutboxStep>): Offer
    decreases |steps|
  {
    if steps == [] then o else StepAll(Stepped(o, steps[0]), steps[1..])
  }

  lemma {:induction false} UnreachedStays(o: Offer, steps: seq<OutboxStep>)
    requires !Reaches(o)
    ensures StepAll(o, steps).writers == {}
    decreases |steps|
  {
    if steps != [] {
      UnreachedStays(Stepped(o, steps[0]), steps[1..]);
    }
  }

  /** A token the row has not seen. */
  lemma FreshToken(o: Offer) returns (t: Token)
    requires o.holders == {} && o.writers == {}
    ensures o.claim != Some(t) && t !in o.holders && t !in o.writers
  {
    t := if o.claim == Some(0) then 1 else 0;
  }

  /** What `Reaches` means: the socket has carried the offer, or some steps of the outbox still make it do so. */
  lemma ReachesExactly(o: Offer)
    ensures Reaches(o) <==> exists steps :: StepAll(o, steps).writers != {}
  {
    if Reaches(o) {
      var steps := WriteOut(o);
      assert StepAll(o, steps).writers != {};
    } else {
      forall steps ensures StepAll(o, steps).writers == {} {
        UnreachedStays(o, steps);
      }
    }
  }

  lemma WriteOut(o: Offer) returns (steps: seq<OutboxStep>)
    requires Reaches(o)
    ensures StepAll(o, steps).writers != {}
  {
    if o.writers != {} {
      steps := [];
    } else if o.holders != {} {
      var t :| t in o.holders;
      steps := [WriteSocket(t)];
      StepsOne(o, WriteSocket(t));
      assert t in Stepped(o, WriteSocket(t)).writers;
    } else {
      var armed := Stepped(o, ReArm);
      var t := FreshToken(armed);
      steps := [ReArm, TakeClaim(t), WriteSocket(t)];
      var claimed := Stepped(armed, TakeClaim(t));
      StepsOne(claimed, WriteSocket(t));
      assert steps[1..][1..] == [WriteSocket(t)] && steps[1..] == [TakeClaim(t), WriteSocket(t)];
      assert StepAll(o, steps) == StepAll(armed, steps[1..]) == StepAll(claimed, [WriteSocket(t)]);
      assert t in claimed.holders && t in Stepped(claimed, WriteSocket(t)).writers;
    }
  }

  lemma StepsOne(o: Offer, step: OutboxStep)
    ensures StepAll(o, [step]) == Stepped(o, step)
  {
    assert [step][1..] == [];
  }

  /** The claimant now on the row has written it and has still to say so. */
  predicate Unmarked(o: Offer) {
    o.claim.Some? && o.claim.value in o.writers
  }

  /** The row's columns, and whoever is still at it, account for every write. */
  predicate Accounted(o: Offer) {
    o.writers == {} || o.delivery != Pending || Unmarked(o)
  }

  /**
   * Sending again after a settlement timeout, taking over or releasing a claim between its write and its mark, and
   * a write by a claimant that has lost the claim.
   */
  predicate Interrupts(o: Offer, step: OutboxStep) {
    match step
    case ReArm => o.delivery == Sent && o.writers != {}
    case TakeClaim(t) => Claimable(o, t) && o.writers != {}
    case ReleaseClaim(t) => o.claim == Some(t) && o.delivery == Pending && o.writers != {}
    case WriteSocket(t) => t in o.holders && o.claim != Some(t) && o.delivery == Pending && !Unmarked(o)
    case _ => false
  }

  /** A step makes a row unaccounted for iff it is one of these four. */
  lemma StepAccounts(o: Offer, step: OutboxStep)
    requires Accounted(o)
    ensures Accounted(Stepped(o, step)) <==> !Interrupts(o, step)
  {
    match step
    case WriteSocket(t) =>
      if t in o.holders {
        assert t in Stepped(o, step).writers;
      }
    case _ =>
  }

  ghost predicate Uninterrupted(o: Offer, steps: seq<OutboxStep>)
    decreases |steps|
  {
    steps == [] || (!Interrupts(o, steps[0]) && Uninterrupted(Stepped(o, steps[0]), steps[1..]))
  }

  /**
   * The proof of non-delivery is right for a row that was never sent again, whose claim was never taken over or
   * released between the write and the mark, and that no claimant wrote after it had lost the claim, unless the
   * claimant now on it has just written.
   */
  lemma {:induction false} PendingProvesUnwritten(o: Offer, steps: seq<OutboxStep>)
    requires Accounted(o) && Uninterrupted(o, steps)
    ensures Accounted(StepAll(o, steps))
    ensures Undelivered(StepAll(o, steps)) && !Unmarked(StepAll(o, steps)) ==> StepAll(o, steps).writers == {}
    decreases |steps|
  {
    if steps != [] {
      StepAccounts(o, steps[0]);
      PendingProvesUnwritten(Stepped(o, steps[0]), steps[1..]);
    }
  }

  /**
   * What the proof would have to show: an open offer retired as undelivered can never reach its Worker, by any
   * steps of the outbox afterwards, iff nobody has written it and nobody has it in memory to write.
   */
  lemma RetiringIsFinalExactly(s: State, i: nat)
    requires i < |s.offers| && Undelivered(s.offers[i]) && !s.offers[i].accepted
    ensures Exposed(Retired(s, i).offers[i]) <==> s.offers[i].writers != {} || s.offers[i].holders != {}
    ensures (exists steps :: StepAll(Retired(s, i).offers[i], steps).writers != {}) <==>
      s.offers[i].writers != {} || s.offers[i].holders != {}
  {
    ReachesExactly(Retired(s, i).offers[i]);
  }

  /** Each of the four interruptions makes a delivered offer look undelivered, and so does the write itself. */
  lemma InterruptionsHideDelivery(o: Offer, t: Token, u: Token)
    requires Undelivered(o) && o.claim.None? && o.writers == {} && t != u && t !in o.holders && u !in o.holders
    ensures var n := Stepped(Stepped(o, TakeClaim(t)), WriteSocket(t));
      && Undelivered(n) && n.writers == {t} && Unmarked(n)
    ensures var n := Stepped(Stepped(Stepped(o, TakeClaim(t)), WriteSocket(t)), ReleaseClaim(t));
      && Undelivered(n) && n.claim.None? && n.writers == {t}
    ensures var n := Stepped(Stepped(Stepped(o, TakeClaim(t)), WriteSocket(t)), TakeClaim(u));
      && Undelivered(n) && !Unmarked(n) && n.writers == {t}
    ensures var n := Stepped(Stepped(Stepped(Stepped(o, TakeClaim(t)), WriteSocket(t)), MarkSent(t, false)), ReArm);
      && Undelivered(n) && n.claim.None? && n.writers == {t}
    ensures var lost := Stepped(Stepped(Stepped(o, TakeClaim(t)), TakeClaim(u)), ReleaseClaim(u));
      && Undelivered(lost) && lost.claim.None? && lost.writers == {} && t in lost.holders
      && Undelivered(Stepped(lost, WriteSocket(t))) && Stepped(lost, WriteSocket(t)).writers == {t}
  {
  }

  /**
   * The late write: one instance is slow in working off its batch, another takes a row over, finds that the
   * session is not its own and releases it. Nothing has been written, nothing was sent again, and no claim changed
   * hands between a write and its mark. The re-offer goes to a second Worker, and then the first instance writes
   * the old offer to the first Worker, whatever has become of the row.
   */
  lemma LateWriteReachesSecondWorker(first: WorkerId, second: WorkerId)
    requires first != second
    ensures var n := Play(Unoffered(None),
        [DoClaim(first, true), DoOutbox(0, TakeClaim(0)), DoOutbox(0, TakeClaim(1)), DoOutbox(0, ReleaseClaim(1)),
         DoOutbox(0, GiveUp(1))]);
      var moved := Act(n, DoSafeReoffer(second, true));
      var late := Act(moved, DoOutbox(0, WriteSocket(0)));
      && n.offers == [Offer(first, Open, false, Pending, false, None, {0}, {})]
      && Redirects(n, DoSafeReoffer(second, true)) && !Sole(moved)
      && late.offers == [Offer(first, ExpiredPreSubmit, false, Dead, false, None, {}, {0}),
                         Offer(second, Open, false, Pending, false, None, {}, {})]
  {
    var s := Unoffered(None);
    var a := [DoClaim(first, true), DoOutbox(0, TakeClaim(0)), DoOutbox(0, TakeClaim(1)), DoOutbox(0, ReleaseClaim(1)),
              DoOutbox(0, GiveUp(1))];
    var s1 := Act(s, a[0]);
    assert s1.offers == [Offer(first, Open, false, Pending, false, None, {}, {})];
    var s3 := Act(Act(s1, a[1]), a[2]);
    var n := Act(Act(s3, a[3]), a[4]);
    TakenOverAndReleased(s1.offers[0], 0, 1);
    assert n.offers == [Offer(first, Open, false, Pending, false, None, {0}, {})];
    assert a[0..] == a && a[5..] == [];
    Unfold(s, a, 0);
    Unfold(s1, a, 1);
    Unfold(Act(s1, a[1]), a, 2);
    Unfold(s3, a, 3);
    Unfold(Act(s3, a[3]), a, 4);
    LateWriteAfterReoffer(n, first, second);
  }

  lemma LateWriteAfterReoffer(n: State, first: WorkerId, second: WorkerId)
    requires first != second && n.offers == [Offer(first, Open, false, Pending, false, None, {0}, {})]
    requires n.barriers == {} && n.affinity.None? && !HasEvidence(n)
    ensures var moved := Act(n, DoSafeReoffer(second, true));
      && Redirects(n, DoSafeReoffer(second, true)) && !Sole(moved)
      && Act(moved, DoOutbox(0, WriteSocket(0))).offers ==
           [Offer(first, ExpiredPreSubmit, false, Dead, false, None, {}, {0}),
            Offer(second, Open, false, Pending, false, None, {}, {})]
  {
    assert LiveFrom(n.offers, 0) == Some(0);
    var retired := Retired(n, 0);
    assert retired.offers == [Offer(first, ExpiredPreSubmit, false, Dead, false, None, {0}, {})];
    assert Exposed(retired.offers[0]);
    assert LiveFrom(retired.offers, 0).None?;
    var moved := Act(n, DoSafeReoffer(second, true));
    assert moved.offers == retired.offers + [Offer(second, Open, false, Pending, false, None, {}, {})];
    assert Exposed(moved.offers[0]) && Exposed(moved.offers[1]);
    assert moved.offers[0].holders - {0} == {} && moved.offers[0].writers + {0} == {0};
  }

  /** So without an affinity a re-offer can reach a second Worker while the first one is executing. */
  lemma ReofferReachesSecondWorker(s: State, first: WorkerId, second: WorkerId)
    requires s == Unoffered(None) && first != second
    ensures var n := Play(s, [DoClaim(first, true), DoOutbox(0, TakeClaim(0)), DoOutbox(0, WriteSocket(0))]);
      && Consistent(n) && Attributed(n) && Sole(n)
      && Redirects(n, DoSafeReoffer(second, true))
      && !Sole(Act(n, DoSafeReoffer(second, true)))
  {
    var a := [DoClaim(first, true), DoOutbox(0, TakeClaim(0)), DoOutbox(0, WriteSocket(0))];
    var s1 := Act(s, a[0]);
    assert s1.offers == [Offer(first, Open, false, Pending, false, None, {}, {})];
    var s2 := Act(s1, a[1]);
    var s3 := Act(s2, a[2]);
    ClaimedAndWritten(s1.offers[0], 0);
    assert s3.offers == [Offer(first, Open, false, Pending, false, Some(0), {}, {0})];
    assert a[1..][1..] == [a[2]] && [a[2]][1..] == [];
    assert Play(s, a) == Play(s1, a[1..]) == Play(s2, [a[2]]) == s3;
    var n := Act(s3, DoSafeReoffer(second, true));
    assert Exposed(Retired(s3, 0).offers[0]);
    StepSole(s3, DoSafeReoffer(second, true));
  }

  // ---- recovery re-offers and expiry ----

  lemma RetirementSticks(s: State, a: Action)
    requires Consistent(s) && HasExpired(s.offers)
    ensures HasExpired(Act(s, a).offers)
  {
    var i :| 0 <= i < |s.offers| && s.offers[i].status == ExpiredPreSubmit;
    ExpiredStays(s, a, i);
    assert Act(s, a).offers[i].status == ExpiredPreSubmit;
  }

  lemma ExpiredStays(s: State, a: Action, i: nat)
    requires i < |s.offers| && s.offers[i].status == ExpiredPreSubmit
    ensures i < |Act(s, a).offers| && Act(s, a).offers[i].status == ExpiredPreSubmit
  {
  }

  /** Once an offer was retired, repeated recovery reports never mint another, in any order with anything else. */
  lemma {:induction false} RecoveryReoffersAtMostOnce(s: State, acts: seq<Action>, w: WorkerId, member: bool, asset: bool)
    requires Consistent(s) && HasExpired(s.offers)
    ensures RecoveryReoffer(Play(s, acts), w, member, asset) == Play(s, acts)
    decreases |acts|
  {
    if acts != [] {
      ActKeepsConsistent(s, acts[0]);
      RetirementSticks(s, acts[0]);
      RecoveryReoffersAtMostOnce(Act(s, acts[0]), acts[1..], w, member, asset);
    }
  }

  /** What safe re-offer and expiry take for proof that nothing was delivered and nothing paid. */
  predicate TakenForUntouched(s: State, i: nat)
    requires i < |s.offers|
  {
    !HasEvidence(s) && Undelivered(s.offers[i])
  }

  /** Only a pull sets an offer's acceptance time, and it takes the offer out of the open state for good. */
  ghost predicate OpenIsUnaccepted(offers: seq<Offer>) {
    forall i :: 0 <= i < |offers| && offers[i].status == Open ==> !offers[i].accepted
  }

  lemma ActKeepsOpenUnaccepted(s: State, a: Action)
    requires OpenIsUnaccepted(s.offers)
    ensures OpenIsUnaccepted(Act(s, a).offers)
  {
  }

  lemma {:induction false} RunsKeepOpenUnaccepted(s: State, acts: seq<Action>)
    requires OpenIsUnaccepted(s.offers)
    ensures OpenIsUnaccepted(Play(s, acts).offers)
    decreases |acts|
  {
    if acts != [] {
      ActKeepsOpenUnaccepted(s, acts[0]);
      RunsKeepOpenUnaccepted(Act(s, acts[0]), acts[1..]);
    }
  }

  /**
   * In every reachable state, expiry puts an attempt that was not under recovery there iff its offer is still open
   * and there is evidence or delivery cannot be ruled out. Whether the attempt was accepted, is running or has
   * ended is not asked; an ended attempt keeps its terminal and its evidence.
   */
  lemma ExpiryQuarantinesExactly(acts: seq<Action>, affinity: Option<WorkerId>, i: nat, member: bool)
    ensures var s := Play(Unoffered(affinity), acts);
      && (s.status != RecoveringOwner ==>
            (ExpireOffer(s, i, member).status == RecoveringOwner <==>
              i < |s.offers| && s.offers[i].status == Open && !TakenForUntouched(s, i)))
      && EvidenceKept(s, ExpireOffer(s, i, member)) && ExpireOffer(s, i, member).terminal == s.terminal
  {
    hide Play;
    RunsKeepOpenUnaccepted(Unoffered(affinity), acts);
    RunsStayConsistent(Unoffered(affinity), acts);
    ActKeepsEvidence(Play(Unoffered(affinity), acts), DoExpire(i, member));
  }

  lemma AcceptedOverTheWire(w: WorkerId)
    ensures var n := Play(Unoffered(None),
      [DoClaim(w, true), DoOutbox(0, TakeClaim(0)), DoOutbox(0, WriteSocket(0)), DoOutbox(0, MarkSent(0, false)),
       DoEvent(w, AcceptEvent)]);
      && n.status == AcceptedByWorker && n.producer == Some(w) && n.jobWorker == Some(w)
      && n.submission == NotSubmitted && n.terminal.None? && n.result.None?
      && n.offers == [Offer(w, Open, false, Sent, false, None, {}, {0})]
  {
    var s := Unoffered(None);
    var a := [DoClaim(w, true), DoOutbox(0, TakeClaim(0)), DoOutbox(0, WriteSocket(0)), DoOutbox(0, MarkSent(0, false)),
              DoEvent(w, AcceptEvent)];
    var s1 := Act(s, a[0]);
    assert s1.offers == [Offer(w, Open, false, Pending, false, None, {}, {})];
    var s3 := Act(Act(s1, a[1]), a[2]);
    ClaimedAndWritten(s1.offers[0], 0);
    assert s3.offers == [Offer(w, Open, false, Pending, false, Some(0), {}, {0})];
    assert a[0..] == a && a[5..] == [];
    Unfold(s, a, 0);
    Unfold(s1, a, 1);
    Unfold(Act(s1, a[1]), a, 2);
    Unfold(s3, a, 3);
    Unfold(Act(s3, a[3]), a, 4);
  }

  /** An accept over the wire does not close its offer, so the offer of a finished attempt still expires. */
  lemma ExpiryReopensEndedAttempt(w: WorkerId, message: MessageId)
    ensures var accepted := Play(Unoffered(None),
      [DoClaim(w, true), DoOutbox(0, TakeClaim(0)), DoOutbox(0, WriteSocket(0)), DoOutbox(0, MarkSent(0, false)),
       DoEvent(w, AcceptEvent)]);
      var n := Play(accepted, [DoEvent(w, StartEvent), DoTerminal(w, JobCompleted, message, true)]);
      && n.terminal == Some(JobCompleted) && n.status == AttemptCompleted
      && Act(n, DoExpire(0, true)).status == RecoveringOwner
      && Act(n, DoExpire(0, true)).terminal == Some(JobCompleted)
  {
    hide Play;
    AcceptedOverTheWire(w);
    var accepted := Play(Unoffered(None),
      [DoClaim(w, true), DoOutbox(0, TakeClaim(0)), DoOutbox(0, WriteSocket(0)), DoOutbox(0, MarkSent(0, false)),
       DoEvent(w, AcceptEvent)]);
    CompletedKeepsItsOffer(accepted, w, message);
  }

  lemma CompletedKeepsItsOffer(s: State, w: WorkerId, message: MessageId)
    requires s.status == AcceptedByWorker && s.producer == Some(w) && s.jobWorker == Some(w)
    requires s.submission == NotSubmitted && s.terminal.None? && s.result.None?
    ensures var n := Play(s, [DoEvent(w, StartEvent), DoTerminal(w, JobCompleted, message, true)]);
      n.offers == s.offers && n.terminal == Some(JobCompleted) && n.status == AttemptCompleted
  {
    var a := [DoEvent(w, StartEvent), DoTerminal(w, JobCompleted, message, true)];
    assert a[0..] == a && a[2..] == [];
    Unfold(s, a, 0);
    Unfold(Act(s, a[0]), a, 1);
  }
}
