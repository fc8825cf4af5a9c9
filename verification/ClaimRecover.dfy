/**
 * The in-process generation facade on one job: start, claim, submit, defer, cancel and restart recovery, with any
 * number of runtime instances and crashes (api-staging/generation-control-plane.mjs). An executor claims the job,
 * records the submission, then clicks once at the provider.
 */
module ClaimRecover {
  import opened Common

  datatype Phase =
    | Queued
    | WaitingForAccount
    | Preparing
    | ReadyToSubmit
    | Submitted
    | Processing
    | Completed
    | FailedPreSubmit
    | SubmitUncertain
    | WaitingForManual
    | Cancelled

  predicate IsTerminal(p: Phase) {
    p in {Completed, FailedPreSubmit, SubmitUncertain, Cancelled}
  }

  predicate IsPostSubmit(p: Phase) {
    p in {Submitted, Processing, Completed, SubmitUncertain}
  }

  function Transitions(p: Phase): set<Phase> {
    match p
    case Queued => {WaitingForAccount, Preparing, Cancelled, FailedPreSubmit}
    case WaitingForAccount => {Preparing, Cancelled, FailedPreSubmit, WaitingForManual}
    case Preparing => {ReadyToSubmit, Queued, FailedPreSubmit, WaitingForManual, Cancelled}
    case ReadyToSubmit => {Submitted, Queued, FailedPreSubmit, WaitingForManual}
    case Submitted => {Processing, Completed, SubmitUncertain, WaitingForManual}
    case Processing => {Completed, SubmitUncertain, WaitingForManual}
    case WaitingForManual => {SubmitUncertain, FailedPreSubmit, Cancelled}
    case Completed => {}
    case FailedPreSubmit => {}
    case SubmitUncertain => {}
    case Cancelled => {}
  }

  datatype OfferStatus = Open | Taken | Submitting | Recovering | Ended | Expired

  datatype Offer = Offer(status: OfferStatus, accepted: bool)

  datatype Stage = Working | Cleared

  /** `clicks` counts provider invocations; only the provider knows it. */
  datatype State = State(
    phase: Phase,
    consumed: bool,
    possiblySubmitted: bool,
    terminal: bool,
    unowned: bool,
    offers: seq<Offer>,
    executors: map<nat, Stage>,
    clicks: nat)

  const ENQUEUED: State := State(Queued, false, false, false, true, [], map[], 0)

  predicate IsLive(o: Offer) {
    o.status != Expired
  }

  function LiveFrom(offers: seq<Offer>, i: nat): (live: Option<nat>)
    requires i <= |offers|
    ensures live.Some? ==> i <= live.value < |offers| && IsLive(offers[live.value])
    ensures live.None? ==> forall k :: i <= k < |offers| ==> !IsLive(offers[k])
    decreases |offers| - i
  {
    if i == |offers| then None else if IsLive(offers[i]) then Some(i) else LiveFrom(offers, i + 1)
  }

  function SetLive(s: State, status: OfferStatus): seq<Offer> {
    var live := LiveFrom(s.offers, 0);
    if live.Some? then s.offers[live.value := s.offers[live.value].(status := status)] else s.offers
  }

  /** The claim core; it throws, and the state stays, when any of its checks fails. */
  function Minted(s: State): State {
    if s.terminal || s.possiblySubmitted || !s.unowned || LiveFrom(s.offers, 0).Some? then s
    else s.(unowned := false, offers := s.offers + [Offer(Open, false)])
  }

  function StartRequested(s: State): State {
    if IsPostSubmit(s.phase) || IsTerminal(s.phase) || LiveFrom(s.offers, 0).Some? then s else Minted(s)
  }

  /** Takes the open offer, if there is one, and starts executor `e` on it. */
  function ClaimedBy(s: State, e: nat): State {
    var live := LiveFrom(s.offers, 0);
    if e in s.executors || live.None? || s.offers[live.value].status != Open || s.offers[live.value].accepted then s
    else
      s.(offers := s.offers[live.value := Offer(Taken, true)], unowned := false,
         phase := if s.phase == Queued then Preparing else s.phase, executors := s.executors[e := Working])
  }

  datatype Plan = Nothing | Track | Resume | Expire

  predicate MayHaveRun(s: State) {
    s.consumed || s.possiblySubmitted || IsPostSubmit(s.phase)
  }

  /** The recovery plan looks at the latest offer, whatever has become of it. */
  function PlanFor(s: State): Plan {
    if IsTerminal(s.phase) then Nothing
    else if MayHaveRun(s) then Track
    else if s.offers == [] then Nothing
    else if s.offers[|s.offers| - 1].accepted then Resume
    else if s.offers[|s.offers| - 1].status == Open then Expire
    else Nothing
  }

  /** `due`: the offer time has run out; `delivered`: its outbox row does not prove it undelivered. */
  function RecoveredBy(s: State, e: nat, due: bool, delivered: bool): State {
    match PlanFor(s)
    case Nothing => s
    case Track => s
    case Resume => if e in s.executors then s else s.(executors := s.executors[e := Working])
    case Expire =>
      var last := |s.offers| - 1;
      if !due then s
      else if delivered || s.terminal || s.possiblySubmitted then
        s.(unowned := false, offers := s.offers[last := s.offers[last].(status := Recovering)])
      else
        var retired := s.(unowned := true, offers := s.offers[last := s.offers[last].(status := Expired)]);
        if Minted(retired) == retired then s else Minted(retired)
  }

  /** Records the submission before the click. It is idempotent: an earlier submission does not refuse it. */
  function SubmittedBy(s: State, e: nat): State {
    if e !in s.executors || s.executors[e] != Working then s
    else if s.terminal then s.(executors := s.executors - {e})
    else
      var live := LiveFrom(s.offers, 0);
      s.(consumed := true, possiblySubmitted := true, unowned := false,
         offers := if live.Some? && s.offers[live.value].status == Taken then SetLive(s, Submitting) else s.offers,
         phase := if s.phase in {Preparing, ReadyToSubmit} then Submitted else s.phase,
         executors := s.executors[e := Cleared])
  }

  function ClickedBy(s: State, e: nat): State {
    if e !in s.executors || s.executors[e] != Cleared then s
    else s.(executors := s.executors - {e}, clicks := s.clicks + 1)
  }

  function Moved(s: State, to: Phase): State {
    if to in {ReadyToSubmit, Processing, WaitingForAccount, WaitingForManual} && to in Transitions(s.phase)
    then s.(phase := to) else s
  }

  function FailedEarly(s: State): State {
    if IsTerminal(s.phase) || IsPostSubmit(s.phase) || s.terminal || FailedPreSubmit !in Transitions(s.phase) then s
    else s.(phase := FailedPreSubmit, terminal := true, unowned := false, offers := SetLive(s, Ended))
  }

  function Uncertain(s: State): State {
    if IsTerminal(s.phase) || s.terminal || SubmitUncertain !in Transitions(s.phase) then s
    else s.(phase := SubmitUncertain, terminal := true, unowned := false, offers := SetLive(s, Recovering))
  }

  function Finished(s: State): State {
    if IsTerminal(s.phase) || s.terminal || !s.possiblySubmitted || s.phase == WaitingForManual then s
    else
      s.(phase := if s.phase in {Submitted, Processing} then Completed else s.phase, terminal := true, unowned := false,
         offers := SetLive(s, Ended))
  }

  function CancelledEarly(s: State): State {
    if IsTerminal(s.phase) || IsPostSubmit(s.phase) || Cancelled !in Transitions(s.phase) then s
    else s.(phase := Cancelled, offers := SetLive(s, Expired))
  }

  /** Pacing: releases a claim that provably has not submitted. The offer keeps its acceptance time. */
  function Deferred(s: State): State {
    if s.phase !in {Preparing, ReadyToSubmit} || s.possiblySubmitted || s.consumed then s
    else s.(phase := Queued, unowned := true, offers := SetLive(s, Expired))
  }

  datatype Action =
    | RequestStart
    | ClaimNext(e: nat)
    | Recover(e: nat, due: bool, delivered: bool)
    | MarkSubmitted(e: nat)
    | Click(e: nat)
    | Die(e: nat)
    | CrashAll
    | MarkPhase(to: Phase)
    | FailPreSubmit
    | SubmitUncertainly
    | Complete
    | Cancel
    | Defer

  function Act(s: State, a: Action): State {
    match a
    case RequestStart => StartRequested(s)
    case ClaimNext(e) => ClaimedBy(s, e)
    case Recover(e, due, delivered) => RecoveredBy(s, e, due, delivered)
    case MarkSubmitted(e) => SubmittedBy(s, e)
    case Click(e) => ClickedBy(s, e)
    case Die(e) => s.(executors := s.executors - {e})
    case CrashAll => s.(executors := map[])
    case MarkPhase(to) => Moved(s, to)
    case FailPreSubmit => FailedEarly(s)
    case SubmitUncertainly => Uncertain(s)
    case Complete => Finished(s)
    case Cancel => CancelledEarly(s)
    case Defer => Deferred(s)
  }

  function Play(s: State, acts: seq<Action>): State
    decreases |acts|
  {
    if acts == [] then s else Play(Act(s, acts[0]), acts[1..])
  }

  // ---- in every run ----

  ghost predicate OneLiveOffer(offers: seq<Offer>) {
    && (forall i, j :: 0 <= i < |offers| && 0 <= j < |offers| && IsLive(offers[i]) && IsLive(offers[j]) ==> i == j)
    && (forall i :: 0 <= i < |offers| && offers[i].status == Open ==> !offers[i].accepted)
  }

  ghost predicate Sound(s: State) {
    && OneLiveOffer(s.offers)
    && (s.consumed <==> s.possiblySubmitted)
    && (s.clicks > 0 ==> s.consumed)
    && (forall e :: e in s.executors && s.executors[e] == Cleared ==> s.consumed)
    && (IsPostSubmit(s.phase) && s.phase != SubmitUncertain ==> s.consumed)
  }

  lemma ActKeepsOffers(s: State, a: Action)
    requires OneLiveOffer(s.offers)
    ensures OneLiveOffer(Act(s, a).offers)
  {
  }

  lemma ActKeepsSound(s: State, a: Action)
    requires Sound(s)
    ensures Sound(Act(s, a))
    ensures s.consumed ==> Act(s, a).consumed
  {
    hide OneLiveOffer, LiveFrom;
    ActKeepsOffers(s, a);
  }

  /** The invocation fact is durable; a plan tracks exactly the unfinished consumed jobs, and resumes none of them. */
  lemma {:induction false} PlansAreSound(s: State, acts: seq<Action>)
    requires Sound(s)
    ensures Sound(Play(s, acts)) && (s.consumed ==> Play(s, acts).consumed)
    ensures PlanFor(Play(s, acts)) == Resume ==> !Play(s, acts).consumed && Play(s, acts).clicks == 0
    ensures PlanFor(Play(s, acts)) == Track <==> Play(s, acts).consumed && !IsTerminal(Play(s, acts).phase)
    decreases |acts|
  {
    if acts != [] {
      ActKeepsSound(s, acts[0]);
      PlansAreSound(Act(s, acts[0]), acts[1..]);
    }
  }

  function Accepts(offers: seq<Offer>): nat {
    if offers == [] then 0 else (if offers[0].accepted then 1 else 0) + Accepts(offers[1..])
  }

  lemma {:induction false} AcceptingOne(offers: seq<Offer>, i: nat)
    requires i < |offers| && !offers[i].accepted
    ensures Accepts(offers[i := Offer(Taken, true)]) == Accepts(offers) + 1
  {
    if i > 0 {
      assert offers[i := Offer(Taken, true)][1..] == offers[1..][i - 1 := Offer(Taken, true)];
      AcceptingOne(offers[1..], i - 1);
    } else {
      assert offers[0 := Offer(Taken, true)][1..] == offers[1..];
    }
  }

  function Steps(s: State, acts: seq<Action>, counts: (State, Action) -> bool): nat
    decreases |acts|
  {
    if acts == [] then 0 else (if counts(s, acts[0]) then 1 else 0) + Steps(Act(s, acts[0]), acts[1..], counts)
  }

  predicate ClaimStarts(s: State, a: Action) {
    a.ClaimNext? && Act(s, a) != s
  }

  predicate HasOpen(offers: seq<Offer>) {
    exists i :: 0 <= i < |offers| && offers[i].status == Open
  }

  function OpenOffers(s: State): nat {
    if HasOpen(s.offers) then 1 else 0
  }

  lemma {:induction false} AcceptsOfSame(was: seq<Offer>, now: seq<Offer>)
    requires |was| <= |now|
    requires forall i :: 0 <= i < |was| ==> now[i].accepted == was[i].accepted
    requires forall i :: |was| <= i < |now| ==> !now[i].accepted
    ensures Accepts(now) == Accepts(was)
    decreases |now|
  {
    if now != [] {
      AcceptsOfSame(if was == [] then [] else was[1..], now[1..]);
    }
  }

  lemma OnlyClaimsAccept(s: State, a: Action)
    requires !ClaimStarts(s, a)
    ensures |s.offers| <= |Act(s, a).offers|
    ensures forall i :: 0 <= i < |s.offers| ==> Act(s, a).offers[i].accepted == s.offers[i].accepted
    ensures forall i :: |s.offers| <= i < |Act(s, a).offers| ==> !Act(s, a).offers[i].accepted
    ensures HasOpen(Act(s, a).offers) ==> HasOpen(s.offers) || |Act(s, a).offers| > |s.offers|
  {
  }

  lemma ClaimTakesTheOpen(s: State, e: nat)
    requires Sound(s) && ClaimStarts(s, ClaimNext(e))
    ensures var n := ClaimedBy(s, e);
      && HasOpen(s.offers) && !HasOpen(n.offers) && |n.offers| == |s.offers| && Accepts(n.offers) == Accepts(s.offers) + 1
  {
    var live := LiveFrom(s.offers, 0).value;
    assert s.offers[live].status == Open;
    AcceptingOne(s.offers, live);
  }

  /**
   * Any number of instances may contest the offers, with anything in between: every claim that starts an executor
   * accepts one offer for good, and there are no more of them than offers that were open or are made meanwhile.
   */
  lemma {:induction false} ContestedClaims(s: State, acts: seq<Action>)
    requires Sound(s)
    ensures |s.offers| <= |Play(s, acts).offers|
    ensures Accepts(Play(s, acts).offers) == Accepts(s.offers) + Steps(s, acts, ClaimStarts)
    ensures Steps(s, acts, ClaimStarts) + OpenOffers(Play(s, acts)) <=
      OpenOffers(s) + |Play(s, acts).offers| - |s.offers|
    decreases |acts|
  {
    hide Act, HasOpen, Sound;
    if acts != [] {
      ActKeepsSound(s, acts[0]);
      if ClaimStarts(s, acts[0]) {
        ClaimTakesTheOpen(s, acts[0].e);
        ClaimIsAct(s, acts[0].e);
      } else {
        OnlyClaimsAccept(s, acts[0]);
        AcceptsOfSame(s.offers, Act(s, acts[0]).offers);
      }
      ContestedClaims(Act(s, acts[0]), acts[1..]);
    }
  }

  lemma ClaimIsAct(s: State, e: nat)
    ensures Act(s, ClaimNext(e)) == ClaimedBy(s, e)
  {
  }

  /** So of all instances that contest one offer, however they interleave, at most one starts. */
  lemma ContestedClaimHasOneWinner(s: State, acts: seq<Action>)
    requires Sound(s) && |Play(s, acts).offers| == |s.offers|
    ensures Steps(s, acts, ClaimStarts) <= 1
  {
    ContestedClaims(s, acts);
  }

  // ---- one invocation ----

  /** The submission is recorded, and the executor goes on to click. */
  predicate Submits(s: State, a: Action) {
    a.MarkSubmitted? && a.e in s.executors && s.executors[a.e] == Working && !s.terminal
  }

  /** It is recorded although one is recorded already: the check that recording a submission does not make. */
  predicate Resubmits(s: State, a: Action) {
    Submits(s, a) && s.consumed
  }

  function ConsumedOnce(s: State): nat {
    if s.consumed then 1 else 0
  }

  function ToClick(s: State): set<nat> {
    set e | e in s.executors && s.executors[e] == Cleared
  }

  lemma SubmissionConsumes(s: State, a: Action)
    ensures Act(s, a).consumed <==> s.consumed || Submits(s, a)
  {
  }

  lemma {:induction false} SubmissionsAreConserved(s: State, acts: seq<Action>)
    ensures Steps(s, acts, Submits) + ConsumedOnce(s) == Steps(s, acts, Resubmits) + ConsumedOnce(Play(s, acts))
    decreases |acts|
  {
    hide Act, Submits;
    if acts != [] {
      SubmissionConsumes(s, acts[0]);
      SubmissionsAreConserved(Act(s, acts[0]), acts[1..]);
    }
  }

  /** An action either clicks once, for one executor that was cleared, or clears at most one by a submission. */
  lemma ClearedClick(s: State, a: Action)
    ensures Act(s, a).clicks + |ToClick(Act(s, a))| <= s.clicks + |ToClick(s)| + if Submits(s, a) then 1 else 0
  {
    var n := Act(s, a);
    if a.Click? && n != s {
      assert ToClick(n) == ToClick(s) - {a.e};
    } else if Submits(s, a) {
      assert ToClick(n) == ToClick(s) + {a.e};
    } else {
      NoneCleared(s, a);
      SubsetSize(ToClick(n), ToClick(s));
    }
  }

  lemma NoneCleared(s: State, a: Action)
    requires !Submits(s, a) && !(a.Click? && Act(s, a) != s)
    ensures ToClick(Act(s, a)) <= ToClick(s) && Act(s, a).clicks == s.clicks
  {
  }

  lemma {:induction false} ClicksFollowSubmissions(s: State, acts: seq<Action>)
    ensures Play(s, acts).clicks + |ToClick(Play(s, acts))| <= s.clicks + |ToClick(s)| + Steps(s, acts, Submits)
    decreases |acts|
  {
    hide Act, Submits, ToClick;
    if acts != [] {
      ClearedClick(s, acts[0]);
      ClicksFollowSubmissions(Act(s, acts[0]), acts[1..]);
    }
  }

  /**
   * MAIN: over every interleaving of claims, submissions, expiries, deferrals, crashes and recoveries, the attempt
   * is submitted at most once iff no executor records its submission on a job that already has one and is not
   * over; and then the provider is invoked at most once.
   */
  lemma SubmittedOnceExactly(acts: seq<Action>)
    ensures Steps(ENQUEUED, acts, Submits) <= 1 <==> Steps(ENQUEUED, acts, Resubmits) == 0
    ensures Play(ENQUEUED, acts).clicks <= Steps(ENQUEUED, acts, Submits)
    ensures Steps(ENQUEUED, acts, Resubmits) == 0 ==> Play(ENQUEUED, acts).clicks <= 1
  {
    SubmissionsAreConserved(ENQUEUED, acts);
    ClicksFollowSubmissions(ENQUEUED, acts);
    if Steps(ENQUEUED, acts, Resubmits) > 0 {
      ResubmittedIsConsumed(ENQUEUED, acts);
    }
  }

  lemma {:induction false} ResubmittedIsConsumed(s: State, acts: seq<Action>)
    requires s.consumed || Steps(s, acts, Resubmits) > 0
    ensures Play(s, acts).consumed
    decreases |acts|
  {
    hide Act, Submits;
    if acts != [] {
      SubmissionConsumes(s, acts[0]);
      ResubmittedIsConsumed(Act(s, acts[0]), acts[1..]);
    }
  }

  predicate Starts(s: State, a: Action) {
    (a.ClaimNext? || a.Recover?) && Act(s, a).executors != s.executors
  }

  /** Starting or releasing while an executor is alive, or resuming a claim that was released. */
  predicate Overreaches(s: State, a: Action) {
    || ((Starts(s, a) || (a.Defer? && Act(s, a) != s)) && s.executors != map[])
    || (a.Recover? && Starts(s, a) && !IsLive(s.offers[|s.offers| - 1]))
  }

  ghost predicate Orderly(s: State, acts: seq<Action>)
    decreases |acts|
  {
    acts == [] || (!Overreaches(s, acts[0]) && Orderly(Act(s, acts[0]), acts[1..]))
  }

  ghost predicate HasLive(offers: seq<Offer>) {
    exists i :: 0 <= i < |offers| && IsLive(offers[i])
  }

  ghost predicate AtMostOneClick(s: State) {
    && Sound(s)
    && (forall e, f :: e in s.executors && f in s.executors ==> e == f)
    && (forall e :: e in s.executors ==> s.clicks == 0)
    && (forall e :: e in s.executors && s.executors[e] == Working ==>
          !s.consumed && !HasOpen(s.offers) && (HasLive(s.offers) || IsTerminal(s.phase)))
    && (s.consumed ==> !HasOpen(s.offers))
    && s.clicks <= 1
  }

  lemma ClaimIsOrderly(s: State, e: nat)
    requires AtMostOneClick(s) && !Overreaches(s, ClaimNext(e))
    ensures AtMostOneClick(ClaimedBy(s, e))
  {
    var live := LiveFrom(s.offers, 0);
    var n := ClaimedBy(s, e);
    if n != s {
      assert HasOpen(s.offers);
      assert n.executors[e] == Working && e !in s.executors;
      assert IsLive(n.offers[live.value]);
    }
  }

  lemma RecoverIsOrderly(s: State, e: nat, due: bool, delivered: bool)
    requires AtMostOneClick(s) && !Overreaches(s, Recover(e, due, delivered))
    ensures AtMostOneClick(RecoveredBy(s, e, due, delivered))
  {
  }

  lemma SubmitIsOrderly(s: State, e: nat)
    requires AtMostOneClick(s)
    ensures AtMostOneClick(SubmittedBy(s, e))
  {
  }

  lemma EndingsAreOrderly(s: State, a: Action)
    requires AtMostOneClick(s) && !Overreaches(s, a)
    requires a.FailPreSubmit? || a.SubmitUncertainly? || a.Complete? || a.Cancel? || a.Defer?
    ensures AtMostOneClick(Act(s, a))
  {
  }

  lemma StartIsOrderly(s: State)
    requires AtMostOneClick(s)
    ensures AtMostOneClick(StartRequested(s))
  {
  }

  lemma ActIsOrderly(s: State, a: Action)
    requires AtMostOneClick(s) && !Overreaches(s, a)
    ensures AtMostOneClick(Act(s, a))
  {
    match a
    case RequestStart => StartIsOrderly(s);
    case ClaimNext(e) => ClaimIsOrderly(s, e);
    case Recover(e, due, delivered) => RecoverIsOrderly(s, e, due, delivered);
    case MarkSubmitted(e) => SubmitIsOrderly(s, e);
    case FailPreSubmit => EndingsAreOrderly(s, a);
    case SubmitUncertainly => EndingsAreOrderly(s, a);
    case Complete => EndingsAreOrderly(s, a);
    case Cancel => EndingsAreOrderly(s, a);
    case Defer => EndingsAreOrderly(s, a);
    case _ => ActKeepsSound(s, a);
  }

  lemma {:induction false} OrderlyNeverResubmits(s: State, acts: seq<Action>)
    requires AtMostOneClick(s) && Orderly(s, acts)
    ensures Steps(s, acts, Resubmits) == 0
    decreases |acts|
  {
    if acts != [] {
      ActIsOrderly(s, acts[0]);
      OrderlyNeverResubmits(Act(s, acts[0]), acts[1..]);
    }
  }

  /**
   * What a caller can see to: when no executor is started or released over a living one and no released claim is
   * resumed, nothing is submitted twice, and the provider is invoked at most once.
   */
  lemma InvokedAtMostOnce(acts: seq<Action>)
    requires Orderly(ENQUEUED, acts)
    ensures Steps(ENQUEUED, acts, Submits) <= 1 && Play(ENQUEUED, acts).clicks <= 1
  {
    OrderlyNeverResubmits(ENQUEUED, acts);
    SubmittedOnceExactly(acts);
  }

  // ---- both conditions are needed ----

  /** Recovery on a second instance while the first one's executor lives: both submit, both click. */
  lemma ResumeOverLivingExecutorInvokesTwice(s: State, e: nat, f: nat)
    requires Sound(s) && e != f && s.executors == map[e := Working] && !s.terminal && PlanFor(s) == Resume
    ensures Overreaches(s, Recover(f, false, false))
    ensures var r := RecoveredBy(s, f, false, false);
      ClickedBy(ClickedBy(SubmittedBy(SubmittedBy(r, e), f), e), f).clicks == s.clicks + 2
  {
    var r := RecoveredBy(s, f, false, false);
    assert r.executors == map[e := Working, f := Working];
    var m := SubmittedBy(SubmittedBy(r, e), f);
    assert m.executors == map[e := Cleared, f := Cleared];
  }

  /**
   * Recovery resumes a deferred job, whose offer was released but keeps its acceptance time, while the scheduler
   * is free to start it again: two clicks with never more than one executor alive.
   */
  lemma ResumingDeferredJobInvokesTwice()
    ensures var deferred := Deferred(ClaimedBy(StartRequested(ENQUEUED), 0)).(executors := map[]);
      && PlanFor(deferred) == Resume && Overreaches(deferred, Recover(1, false, false))
      && var resumed := StartRequested(RecoveredBy(deferred, 1, false, false));
         var first := ClickedBy(SubmittedBy(resumed, 1), 1);
         first.executors == map[] && ClickedBy(SubmittedBy(ClaimedBy(first, 2), 2), 2).clicks == 2
  {
    var s1 := StartRequested(ENQUEUED);
    assert s1.offers == [Offer(Open, false)];
    var s2 := ClaimedBy(s1, 0);
    assert s2.offers == [Offer(Taken, true)];
    var deferred := Deferred(s2).(executors := map[]);
    assert deferred.offers == [Offer(Expired, true)] && deferred.phase == Queued && deferred.unowned;
    var r := RecoveredBy(deferred, 1, false, false);
    assert LiveFrom(r.offers, 0).None?;
    var resumed := StartRequested(r);
    assert resumed.offers == [Offer(Expired, true), Offer(Open, false)];
    assert LiveFrom(resumed.offers, 0) == Some(1);
    var m := SubmittedBy(resumed, 1);
    assert m.offers == resumed.offers && m.executors == map[1 := Cleared];
    var first := ClickedBy(m, 1);
    assert first.executors == map[] && LiveFrom(first.offers, 0) == Some(1);
    var c := ClaimedBy(first, 2);
    assert c.executors == map[2 := Working];
    var n := SubmittedBy(c, 2);
    assert n.executors == map[2 := Cleared];
  }
}
