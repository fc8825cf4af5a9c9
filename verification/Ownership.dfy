/**
 * Who may execute a paid attempt: the Control Plane's offer, expiry, recovery and terminal transactions on one
 * generation attempt, and the outbox row that carries each offer (persistence/transactions/ownership.mjs).
 */
module Ownership {
  import opened Common
  import opened RecoveryStates
  import opened JournalRecords
  import opened Inbox

  datatype Status =
    | Unowned
    | OfferMade
    | AcceptedByWorker
    | Executing
    | CrossingBarrier
    | SubmittedByWorker
    | RecoveringOwner
    | AttemptCompleted
    | AttemptFailed
    | AttemptCanceled
    | ManualActionRequired

  datatype OfferStatus = Open | Pulled | UnderRecovery | ExpiredPreSubmit | OfferRejected

  datatype DeliveryState = Pending | Sent | Settled | Dead

  /** The token a gateway instance stamps on the outbox rows it claims, new for every batch. */
  type Token = nat

  /**
   * `accepted` is the offer's acceptance time being set, which only a pull does. `claim` is the token on the outbox
   * row. The last two are not columns and no code reads them: the claimants that have the row in memory and have yet
   * to write it, whether or not the claim is still theirs, and the claimants that have written it to the socket.
   */
  datatype Offer = Offer(
    worker: WorkerId,
    status: OfferStatus,
    accepted: bool,
    delivery: DeliveryState,
    uncertain: bool,
    claim: Option<Token>,
    holders: set<Token>,
    writers: set<Token>)

  datatype JobStatus = Queued | Dispatched | JobAccepted | JobRunning | JobParked | JobEnded(kind: TerminalType)

  datatype State = State(
    status: Status,
    producer: Option<WorkerId>,
    submission: SubmissionState,
    possiblySubmitted: bool,
    ordinal: nat,
    terminal: Option<TerminalType>,
    result: Option<TerminalResult>,
    jobStatus: JobStatus,
    jobWorker: Option<WorkerId>,
    offers: seq<Offer>,
    affinity: Option<WorkerId>,
    barriers: set<WorkerId>)

  datatype OwnershipError =
    | AttemptTerminal
    | AttemptPossiblySubmitted
    | AlreadyOwned
    | WorkerNotFound
    | ReconciliationRequired
    | AffinityConflict
    | NotSafeToRetry
    | IdentityMismatch
    | ConflictingTerminal
    | CheckViolated

  function Unoffered(affinity: Option<WorkerId>): State {
    State(Unowned, None, NotSubmitted, false, 0, None, None, Queued, None, [], affinity, {})
  }

  predicate IsLive(o: Offer) {
    o.status != ExpiredPreSubmit && o.status != OfferRejected
  }

  /** The position of the live offer; there is never more than one. */
  function LiveFrom(offers: seq<Offer>, i: nat): (live: Option<nat>)
    requires i <= |offers|
    ensures live.Some? ==> i <= live.value < |offers| && IsLive(offers[live.value])
    ensures live.None? ==> forall k :: i <= k < |offers| ==> !IsLive(offers[k])
    decreases |offers| - i
  {
    if i == |offers| then None else if IsLive(offers[i]) then Some(i) else LiveFrom(offers, i + 1)
  }

  /** The attempt may already have been paid for, or is over. */
  predicate HasEvidence(s: State) {
    s.terminal.Some? || s.possiblySubmitted || s.submission != NotSubmitted || s.ordinal != 0
  }

  predicate Undelivered(o: Offer) {
    o.delivery == Pending && !o.uncertain
  }

  function SetStatus(s: State, i: nat, status: OfferStatus): seq<Offer>
    requires i < |s.offers|
  {
    s.offers[i := s.offers[i].(status := status)]
  }

  function ClaimFor(s: State, worker: WorkerId, member: bool): Result<State, OwnershipError> {
    if s.terminal.Some? then Err(AttemptTerminal)
    else if s.submission != NotSubmitted || s.possiblySubmitted then Err(AttemptPossiblySubmitted)
    else if s.status != Unowned then Err(AlreadyOwned)
    else if !member then Err(WorkerNotFound)
    else if worker in s.barriers then Err(ReconciliationRequired)
    else if s.affinity.Some? && s.affinity.value != worker then Err(AffinityConflict)
    else if LiveFrom(s.offers, 0).Some? then Err(AlreadyOwned)
    else
      Ok(s.(status := OfferMade, producer := Some(worker), jobStatus := Dispatched, jobWorker := Some(worker),
            offers := s.offers + [Offer(worker, Open, false, Pending, false, None, {}, {})]))
  }

  /** Retires an offer taken to be undelivered. The claim on its outbox row, if any, is left in place. */
  function Retired(s: State, i: nat): State
    requires i < |s.offers|
  {
    s.(status := Unowned, producer := None,
       offers := s.offers[i := s.offers[i].(status := ExpiredPreSubmit, delivery := Dead)])
  }

  function Quarantined(s: State, i: nat): State
    requires i < |s.offers|
  {
    s.(status := RecoveringOwner, offers := SetStatus(s, i, UnderRecovery))
  }

  /** The transaction commits a quarantine even when the caller then gets an error. */
  function SafeReoffer(s: State, worker: WorkerId, member: bool): (State, Option<OwnershipError>) {
    if s.terminal.Some? then (s, Some(AttemptTerminal))
    else if HasEvidence(s) then (s, Some(NotSafeToRetry))
    else
      var live := LiveFrom(s.offers, 0);
      if live.None? || s.offers[live.value].accepted then (s, Some(NotSafeToRetry))
      else if !Undelivered(s.offers[live.value]) then (Quarantined(s, live.value), Some(NotSafeToRetry))
      else
        match ClaimFor(Retired(s, live.value), worker, member)
        case Ok(n) => (n, None)
        case Err(e) => (s, Some(e))
  }

  function ExpireOffer(s: State, i: nat, member: bool): State {
    if i >= |s.offers| || s.offers[i].status != Open || s.offers[i].accepted then s
    else if HasEvidence(s) || !Undelivered(s.offers[i]) then Quarantined(s, i)
    else
      match ClaimFor(Retired(s, i), s.offers[i].worker, member)
      case Ok(n) => n
      case Err(_) => s
  }

  /** A submission fact from the producing Worker; `accepted` distinguishes SUBMITTED from SUBMITTING. */
  function SubmissionFact(s: State, worker: WorkerId, accepted: bool): Result<State, OwnershipError> {
    var status := if accepted then SubmittedByWorker else CrossingBarrier;
    if s.producer.Some? && s.producer.value != worker then Err(IdentityMismatch)
    else if s.terminal.Some? then Err(AttemptTerminal)
    else if s.submission == NotSubmitted then
      Ok(s.(ordinal := 1, submission := if accepted then Accepted else InFlight, possiblySubmitted := true, status := status))
    else if s.submission == InFlight && accepted then Ok(s.(submission := Accepted, status := status))
    else Ok(s)
  }

  function EndedStatus(kind: TerminalType): Status {
    match kind
    case JobCompleted => AttemptCompleted
    case JobFailed => AttemptFailed
    case JobCanceled => AttemptCanceled
  }

  function ApplyTerminal(s: State, worker: WorkerId, kind: TerminalType, message: MessageId): Result<State, OwnershipError> {
    if s.producer.Some? && s.producer.value != worker then Err(IdentityMismatch)
    else if s.result.Some? then (if s.result.value.message == message then Ok(s) else Err(ConflictingTerminal))
    else if kind == JobCompleted && s.submission != Accepted then Err(CheckViolated)
    else
      Ok(s.(result := Some(TerminalResult(kind, message)), jobStatus := JobEnded(kind), terminal := Some(kind),
            status := EndedStatus(kind)))
  }

  /** How the inbox applies a terminal event: a completion, or a failure reported as submitted, books the fact first. */
  function TerminalEvent(s: State, worker: WorkerId, kind: TerminalType, message: MessageId, submitted: bool)
    : Result<State, OwnershipError>
  {
    if kind == JobCompleted || (kind == JobFailed && submitted) then
      match SubmissionFact(s, worker, true)
      case Err(e) => Err(e)
      case Ok(n) => ApplyTerminal(n, worker, kind, message)
    else ApplyTerminal(s, worker, kind, message)
  }

  /** A Worker inside the Control Plane's process, or a remote one that polls for work, takes its own open offer. */
  function PullOffer(s: State, i: nat): State {
    if i >= |s.offers| || s.offers[i].status != Open || s.offers[i].accepted then s
    else
      s.(status := AcceptedByWorker, producer := Some(s.offers[i].worker), jobStatus := JobAccepted,
         jobWorker := Some(s.offers[i].worker), offers := s.offers[i := s.offers[i].(status := Pulled, accepted := true)])
  }

  datatype WorkerEvent = AcceptEvent | RejectEvent | StartEvent | ManualEvent

  function ApplyWorkerEvent(s: State, worker: WorkerId, event: WorkerEvent): Result<State, OwnershipError> {
    if s.jobWorker.Some? && s.jobWorker.value != worker then Err(IdentityMismatch)
    else
      match event
      case AcceptEvent => Ok(s.(jobStatus := JobAccepted, jobWorker := Some(worker), status := AcceptedByWorker))
      case RejectEvent =>
        var live := LiveFrom(s.offers, 0);
        Ok(s.(jobStatus := Queued, status := Unowned, producer := None,
              offers := if live.Some? then SetStatus(s, live.value, OfferRejected) else s.offers))
      case StartEvent =>
        Ok(s.(jobStatus := JobRunning, jobWorker := Some(worker),
              status := if s.status == AcceptedByWorker then Executing else s.status))
      case ManualEvent => Ok(s.(jobStatus := JobParked, status := ManualActionRequired))
  }

  predicate HasExpired(offers: seq<Offer>) {
    exists i :: 0 <= i < |offers| && offers[i].status == ExpiredPreSubmit
  }

  /** One re-offer after a PRE_SUBMIT recovery report; here the old outbox row is not dead-lettered. */
  function RecoveryReoffer(s: State, worker: WorkerId, member: bool, assetExists: bool): State {
    if s.terminal.Some? then s
    else if s.producer.Some? && s.producer.value != worker then s
    else if HasEvidence(s) || s.result.Some? || assetExists || worker in s.barriers || HasExpired(s.offers) then s
    else
      var live := LiveFrom(s.offers, 0);
      var offers := if live.Some? then SetStatus(s, live.value, ExpiredPreSubmit) else s.offers;
      match ClaimFor(s.(offers := offers, status := Unowned, producer := None, jobStatus := Queued), worker, member)
      case Ok(n) => n
      case Err(_) => s
  }

  function SetRecovering(s: State, worker: WorkerId, possibly: bool): State {
    if (s.producer.Some? && s.producer.value != worker) || s.terminal.Some? then s
    else
      var live := LiveFrom(s.offers, 0);
      s.(status := RecoveringOwner, possiblySubmitted := s.possiblySubmitted || possibly,
         offers := if live.Some? then SetStatus(s, live.value, UnderRecovery) else s.offers)
  }

  /** `otherUnresolved`: some other attempt of the project is unresolved. */
  function AssignAffinity(s: State, worker: WorkerId, otherUnresolved: bool): Result<State, OwnershipError> {
    if s.affinity == Some(worker) then Ok(s)
    else if s.affinity.Some? && (otherUnresolved || s.terminal.None? || s.possiblySubmitted) then
      Err(ReconciliationRequired)
    else Ok(s.(affinity := Some(worker)))
  }

  /** `matches`: no generation was expected, or it is the current one. Open attempts are not looked at. */
  function ReleaseAffinity(s: State, matches: bool): Result<State, OwnershipError> {
    if s.affinity.Some? && !matches then Err(AffinityConflict) else Ok(s.(affinity := None))
  }

  // ---- the outbox row of one offer ----

  datatype OutboxStep =
    | TakeClaim(token: Token)
    | WriteSocket(token: Token)
    | GiveUp(token: Token)
    | MarkSent(token: Token, uncertain: bool)
    | ReleaseClaim(token: Token)
    | ReArm
    | Settle
    | DeadLetter

  /** The token is not one that this row has seen, and the row may be claimed: unclaimed, or the lease is over. */
  predicate Claimable(o: Offer, token: Token) {
    o.delivery == Pending && o.claim != Some(token) && token !in o.holders && token !in o.writers
  }

  /**
   * A claim is taken over once its lease is over. The row's columns are guarded by the token, not by its state; the
   * socket is guarded by neither, so a claimant writes what it has in memory even after it lost the claim, or
   * after its result was reported as uncertain. `GiveUp` is a result that rules out a later write, or a crash.
   */
  function Stepped(o: Offer, step: OutboxStep): Offer {
    match step
    case TakeClaim(t) => if Claimable(o, t) then o.(claim := Some(t), holders := o.holders + {t}) else o
    case WriteSocket(t) =>
      if t in o.holders then o.(holders := o.holders - {t}, writers := o.writers + {t}) else o
    case GiveUp(t) => o.(holders := o.holders - {t})
    case MarkSent(t, uncertain) =>
      if o.claim == Some(t) && (t in o.writers || (uncertain && t in o.holders))
      then o.(delivery := Sent, uncertain := o.uncertain || uncertain, claim := None)
      else o
    case ReleaseClaim(t) => if o.claim == Some(t) then o.(claim := None) else o
    case ReArm => if o.delivery == Sent then o.(delivery := Pending, claim := None) else o
    case Settle => if o.delivery in {Pending, Sent} then o.(delivery := Settled, claim := None) else o
    case DeadLetter => if o.delivery == Sent || o.claim.Some? then o.(delivery := Dead, claim := None) else o
  }

  function Outbox(s: State, i: nat, step: OutboxStep): State {
    if i < |s.offers| then s.(offers := s.offers[i := Stepped(s.offers[i], step)]) else s
  }

  // ---- runs ----

  datatype Action =
    | DoClaim(worker: WorkerId, member: bool)
    | DoSafeReoffer(worker: WorkerId, member: bool)
    | DoExpire(offer: nat, member: bool)
    | DoFact(worker: WorkerId, accepted: bool)
    | DoTerminal(worker: WorkerId, kind: TerminalType, message: MessageId, submitted: bool)
    | DoEvent(worker: WorkerId, event: WorkerEvent)
    | DoRecovery(worker: WorkerId, member: bool, assetExists: bool)
    | DoSetRecovering(worker: WorkerId, possibly: bool)
    | DoPull(offer: nat)
    | DoAffinity(worker: WorkerId, otherUnresolved: bool)
    | DoReleaseAffinity(matches: bool)
    | DoBarrier(worker: WorkerId, open: bool)
    | DoOutbox(offer: nat, step: OutboxStep)

  /** A transaction that throws is rolled back. */
  function Or(s: State, r: Result<State, OwnershipError>): State {
    if r.Ok? then r.value else s
  }

  function Act(s: State, a: Action): State {
    match a
    case DoClaim(w, member) => Or(s, ClaimFor(s, w, member))
    case DoSafeReoffer(w, member) => SafeReoffer(s, w, member).0
    case DoExpire(i, member) => ExpireOffer(s, i, member)
    case DoFact(w, accepted) => Or(s, SubmissionFact(s, w, accepted))
    case DoTerminal(w, kind, message, submitted) => Or(s, TerminalEvent(s, w, kind, message, submitted))
    case DoEvent(w, event) => Or(s, ApplyWorkerEvent(s, w, event))
    case DoRecovery(w, member, assetExists) => RecoveryReoffer(s, w, member, assetExists)
    case DoSetRecovering(w, possibly) => SetRecovering(s, w, possibly)
    case DoPull(i) => PullOffer(s, i)
    case DoAffinity(w, other) => Or(s, AssignAffinity(s, w, other))
    case DoReleaseAffinity(matches) => Or(s, ReleaseAffinity(s, matches))
    case DoBarrier(w, open) => s.(barriers := if open then s.barriers + {w} else s.barriers - {w})
    case DoOutbox(i, step) => Outbox(s, i, step)
  }

  function Play(s: State, acts: seq<Action>): State
    decreases |acts|
  {
    if acts == [] then s else Play(Act(s, acts[0]), acts[1..])
  }

  // ---- what every run keeps ----

  ghost predicate OneLive(offers: seq<Offer>) {
    forall i, j :: 0 <= i < |offers| && 0 <= j < |offers| && IsLive(offers[i]) && IsLive(offers[j]) ==> i == j
  }

  /** The table's CHECK constraints and partial unique index, and the terminal row. */
  ghost predicate Consistent(s: State) {
    && OneLive(s.offers)
    && s.ordinal <= 1
    && (s.ordinal == 0 <==> s.submission == NotSubmitted)
    && (s.submission != NotSubmitted ==> s.possiblySubmitted)
    && (s.terminal == Some(JobCompleted) ==> s.submission == Accepted)
    && (s.terminal.Some? <==> s.result.Some?)
    && (s.result.Some? ==> s.terminal == Some(s.result.value.kind))
  }

  lemma ClaimKeepsConsistent(s: State, w: WorkerId, member: bool)
    requires Consistent(s)
    ensures Consistent(Or(s, ClaimFor(s, w, member)))
  {
  }

  lemma StatusKeepsConsistent(s: State, n: State)
    requires Consistent(s) && |n.offers| == |s.offers|
    requires forall i :: 0 <= i < |s.offers| && IsLive(n.offers[i]) ==> IsLive(s.offers[i])
    requires n.ordinal == s.ordinal && n.submission == s.submission && n.terminal == s.terminal && n.result == s.result
    requires s.possiblySubmitted ==> n.possiblySubmitted
    ensures Consistent(n)
  {
  }

  lemma TerminalKeepsConsistent(s: State, w: WorkerId, kind: TerminalType, message: MessageId, submitted: bool)
    requires Consistent(s)
    ensures Consistent(Or(s, TerminalEvent(s, w, kind, message, submitted)))
  {
  }

  lemma FactKeepsConsistent(s: State, w: WorkerId, accepted: bool)
    requires Consistent(s)
    ensures Consistent(Or(s, SubmissionFact(s, w, accepted)))
  {
  }

  lemma RemintKeepsConsistent(s: State, i: nat, w: WorkerId, member: bool)
    requires Consistent(s) && i < |s.offers| && IsLive(s.offers[i])
    ensures Consistent(Or(s, ClaimFor(Retired(s, i), w, member))) && Consistent(Quarantined(s, i))
  {
  }

  lemma ActKeepsConsistent(s: State, a: Action)
    requires Consistent(s)
    ensures Consistent(Act(s, a))
  {
    hide Consistent, TerminalEvent, RecoveryReoffer, SubmissionFact;
    match a
    case DoClaim(w, member) => ClaimKeepsConsistent(s, w, member);
    case DoSafeReoffer(w, member) =>
      var live := LiveFrom(s.offers, 0);
      if live.Some? {
        RemintKeepsConsistent(s, live.value, w, member);
      }
    case DoExpire(i, member) =>
      if i < |s.offers| && s.offers[i].status == Open {
        RemintKeepsConsistent(s, i, s.offers[i].worker, member);
      }
    case DoRecovery(w, member, _) => RecoveryKeepsConsistent(s, w, member);
    case DoFact(w, accepted) => FactKeepsConsistent(s, w, accepted);
    case DoTerminal(w, kind, message, submitted) => TerminalKeepsConsistent(s, w, kind, message, submitted);
    case DoEvent(_, _) => StatusKeepsConsistent(s, Act(s, a));
    case _ => StatusKeepsConsistent(s, Act(s, a));
  }

  lemma RecoveryKeepsConsistent(s: State, w: WorkerId, member: bool)
    requires Consistent(s)
    ensures forall asset :: Consistent(RecoveryReoffer(s, w, member, asset))
  {
  }

  /** At most one live offer, and no illegal combination of evidence, in every reachable state. */
  lemma {:induction false} RunsStayConsistent(s: State, acts: seq<Action>)
    requires Consistent(s)
    ensures Consistent(Play(s, acts))
    decreases |acts|
  {
    if acts != [] {
      ActKeepsConsistent(s, acts[0]);
      RunsStayConsistent(Act(s, acts[0]), acts[1..]);
    }
  }

  predicate EvidenceKept(s: State, n: State) {
    && s.ordinal <= n.ordinal
    && Strength(s.submission) <= Strength(n.submission)
    && (s.possiblySubmitted ==> n.possiblySubmitted)
    && (s.result.Some? ==> n.result == s.result && n.terminal == s.terminal)
  }

  lemma ActKeepsEvidence(s: State, a: Action)
    requires Consistent(s)
    ensures EvidenceKept(s, Act(s, a))
    ensures HasEvidence(s) ==> |Act(s, a).offers| == |s.offers|
  {
  }

  /**
   * Paid-risk evidence only accumulates, the first terminal stays, and once there is evidence no transaction ever
   * mints another offer for the attempt, in any order and from any number of processors.
   */
  lemma {:induction false} NoOfferAfterEvidence(s: State, acts: seq<Action>)
    requires Consistent(s)
    ensures EvidenceKept(s, Play(s, acts))
    ensures HasEvidence(s) ==> |Play(s, acts).offers| == |s.offers|
    decreases |acts|
  {
    if acts != [] {
      ActKeepsConsistent(s, acts[0]);
      ActKeepsEvidence(s, acts[0]);
      NoOfferAfterEvidence(Act(s, acts[0]), acts[1..]);
    }
  }
}
