/** What recovery may do with a record found after a restart (lib/worker/recovery-classifier.mjs). */
module RecoveryClassifier {
  import opened Common
  import opened RecoveryStates
  import opened JournalRecords

  /** What reading a job's record can return. */
  datatype Found = Absent | CorruptMarker | Live(record: Record)

  datatype CoarseState =
    | SafeToRetry
    | WaitForProvider
    | SubmittedResultAvailable
    | DownloadedNotImported
    | ImportedNotAcknowledged
    | CoarseTerminalPendingAck
    | CoarseManualAction
    | CorruptJournal
    | NeedsOperator
    | CoarseSettled

  datatype ContractState =
    | PreSubmit
    | SubmittingUnknown
    | SubmittedWaiting
    | ResultAvailable
    | Downloaded
    | ImportedAsset
    | TerminalPendingAck
    | ManualActionRequired
    | Settled
    | Corrupt
    | Unplaceable

  datatype RecoveryAction =
    | RetrySafe
    | InspectProvider
    | WaitOnProvider
    | ResumeDownload
    | ResumeImport
    | RedeliverTerminal
    | EscalateOperator
    | NoAction

  datatype Plan = Plan(
    state: ContractState,
    action: RecoveryAction,
    safeToRetry: bool,
    needsOperator: bool,
    canResume: bool,
    inspectProvider: bool,
    degradedNoLookup: bool)

  predicate HasResult(r: Record) {
    r.importedAsset.Some? || r.localResultRef.Some? || r.resultAvailable
  }

  function Classify(f: Found): CoarseState {
    match f
    case Absent => NeedsOperator
    case CorruptMarker => CorruptJournal
    case Live(r) =>
      if r.terminal.Some? then (if r.acknowledged then CoarseSettled else CoarseTerminalPendingAck)
      else if r.needsManualAction || r.localState == NeedsManualAction then CoarseManualAction
      else if r.submittedToProvider then
        if r.importedAsset.Some? then ImportedNotAcknowledged
        else if r.localResultRef.Some? then DownloadedNotImported
        else if r.resultAvailable then SubmittedResultAvailable
        else WaitForProvider
      else if HasResult(r) then NeedsOperator
      else SafeToRetry
  }

  function ClassifyContract(f: Found): ContractState {
    match f
    case Absent => Unplaceable
    case CorruptMarker => Corrupt
    case Live(r) =>
      if r.terminal.Some? then (if r.acknowledged then Settled else TerminalPendingAck)
      else if r.needsManualAction || r.localState == NeedsManualAction then ManualActionRequired
      else if r.localState == Submitting || r.submission == InFlight then SubmittingUnknown
      else if r.submittedToProvider || r.submission == Accepted then
        if r.importedAsset.Some? then ImportedAsset
        else if r.localResultRef.Some? then Downloaded
        else if r.resultAvailable then ResultAvailable
        else SubmittedWaiting
      else if HasResult(r) then Unplaceable
      else PreSubmit
  }

  function PlanFor(s: ContractState): Plan {
    match s
    case PreSubmit => Plan(s, RetrySafe, true, false, true, false, false)
    case SubmittingUnknown => Plan(s, InspectProvider, false, true, true, true, false)
    case SubmittedWaiting => Plan(s, WaitOnProvider, false, false, true, false, false)
    case ResultAvailable => Plan(s, ResumeDownload, false, false, true, false, false)
    case Downloaded => Plan(s, ResumeImport, false, false, true, false, false)
    case ImportedAsset => Plan(s, RedeliverTerminal, false, false, true, false, false)
    case TerminalPendingAck => Plan(s, RedeliverTerminal, false, false, true, false, false)
    case ManualActionRequired => Plan(s, EscalateOperator, false, true, true, false, false)
    case Settled => Plan(s, NoAction, false, false, false, false, false)
    case Corrupt => Plan(s, EscalateOperator, false, true, false, false, false)
    case Unplaceable => Plan(s, EscalateOperator, false, true, false, false, false)
  }

  /** `lookup` is the provider's declared supportsSubmissionLookup, if capabilities were supplied at all. */
  function PlanRecovery(f: Found, lookup: Option<bool>): Plan {
    var plan := PlanFor(ClassifyContract(f));
    if plan.inspectProvider && lookup.Some? && !lookup.value then
      plan.(action := EscalateOperator, inspectProvider := false, needsOperator := true, degradedNoLookup := true)
    else plan
  }

  function AssertNoAutoRegenerate(f: Found): Result<bool, JournalError> {
    if ClassifyContract(f) != PreSubmit then Err(DuplicateGeneration) else Ok(true)
  }

  predicate CanAutoRetryGeneration(f: Found) {
    !(f.Live? && f.record.submittedToProvider) && ClassifyContract(f) == PreSubmit
  }

  predicate IsRecoverable(f: Found) {
    Classify(f) != CoarseSettled
  }

  /**
   * On every record the journal can produce, the three retry gates agree, whatever the provider declares,
   * and they open exactly when no generation was booked and nothing else has happened to the record.
   */
  lemma RetryGatesAgree(f: Found, lookup: Option<bool>)
    requires f.Live? ==> Coherent(f.record)
    ensures PlanRecovery(f, lookup).safeToRetry <==> AssertNoAutoRegenerate(f).Ok?
    ensures PlanRecovery(f, lookup).safeToRetry <==> CanAutoRetryGeneration(f)
    ensures PlanRecovery(f, lookup).safeToRetry <==> PlanRecovery(f, lookup).action == RetrySafe
    ensures PlanRecovery(f, lookup).safeToRetry <==>
      f.Live? && !Booked(f.record) && f.record.terminal.None? && !f.record.needsManualAction && !HasResult(f.record)
  {
  }

  /** Who is needed: the operator for exactly four states; nothing at all is left to do for exactly the settled. */
  lemma PlanNeedsWho(f: Found, lookup: Option<bool>)
    ensures PlanRecovery(f, lookup).needsOperator <==>
      ClassifyContract(f) in {SubmittingUnknown, ManualActionRequired, Corrupt, Unplaceable}
    ensures PlanRecovery(f, lookup).canResume <==> ClassifyContract(f) !in {Settled, Corrupt, Unplaceable}
    ensures PlanRecovery(f, lookup).action == NoAction <==> !IsRecoverable(f)
    ensures PlanRecovery(f, lookup).action == EscalateOperator ==> PlanRecovery(f, lookup).needsOperator
  {
  }

  /** A provider without a lookup is never inspected, and only the crash window is degraded. */
  lemma DegradesExactlyTheCrashWindow(f: Found, lookup: Option<bool>)
    ensures PlanRecovery(f, lookup).degradedNoLookup <==> ClassifyContract(f) == SubmittingUnknown && lookup == Some(false)
    ensures PlanRecovery(f, lookup).action == InspectProvider <==>
      ClassifyContract(f) == SubmittingUnknown && lookup != Some(false)
    ensures ClassifyContract(f) == SubmittingUnknown ==> PlanRecovery(f, lookup).needsOperator
  {
  }

  /** The older classifier differs in one place: it calls a record in the submit crash window safe to retry. */
  lemma CoarseMissesTheCrashWindow(r: Record)
    requires Coherent(r)
    ensures Classify(Live(r)) == SafeToRetry <==>
      ClassifyContract(Live(r)) == PreSubmit || (ClassifyContract(Live(r)) == SubmittingUnknown && !HasResult(r))
    ensures IsRecoverable(Live(r)) <==> ClassifyContract(Live(r)) != Settled
  {
  }

  // ---- recovery terminates without generating ----

  function Distance(s: ContractState): nat {
    match s
    case SubmittedWaiting => 5
    case ResultAvailable => 4
    case Downloaded => 3
    case ImportedAsset => 2
    case TerminalPendingAck => 1
    case _ => 0
  }

  /** The journal write that records the outcome of carrying a record's plan out. */
  function Outcome(r: Record, ref: nat, asset: nat, message: MessageId, now: Option<int>): Mark {
    match PlanRecovery(Live(r), None).action
    case WaitOnProvider => Progress(Omitted, Omitted, Omitted, true)
    case ResumeDownload => LocalResult(Given(ref), Omitted)
    case ResumeImport => LocalResult(Given(ref), Given(asset))
    case RedeliverTerminal =>
      if r.terminal.None? then Terminate(Given(JobCompleted), Given(message)) else Acknowledge(now)
    case _ => AckPending(Omitted)
  }

  /** Writes a list of accepted marks; None as soon as one is refused. No sibling matters: none of them submits. */
  function WriteAll(r: Record, ms: seq<Mark>): Option<Record>
    decreases |ms|
  {
    if ms == [] then Some(r)
    else if ArgumentError(ms[0]).Some? || Refusal(r, ms[0], false).Some? then None
    else WriteAll(Rewrite(r, ms[0]), ms[1..])
  }

  /** A record that was submitted, or already has its outcome, and that recovery can carry on with by itself. */
  predicate Recoverable(r: Record) {
    Coherent(r) && Distance(ClassifyContract(Live(r))) > 0
  }

  lemma OutcomeAdvances(r: Record, ref: nat, asset: nat, message: MessageId, now: Option<int>, sibling: bool)
    requires Recoverable(r)
    ensures var m := Outcome(r, ref, asset, message, now);
      && ArgumentError(m).None?
      && Refusal(r, m, sibling).None?
      && Coherent(Rewrite(r, m))
      && Rewrite(r, m).generationOrdinal == r.generationOrdinal
      && var after := ClassifyContract(Live(Rewrite(r, m)));
         && (after == Settled || Recoverable(Rewrite(r, m)))
         && Distance(after) < Distance(ClassifyContract(Live(r)))
  {
    var m := Outcome(r, ref, asset, message, now);
    RewriteKeepsCoherence(r, m, sibling);
  }

  function Recover(r: Record, ref: nat, asset: nat, message: MessageId, now: Option<int>): (ms: seq<Mark>)
    requires Coherent(r)
    decreases Distance(ClassifyContract(Live(r)))
  {
    var s := ClassifyContract(Live(r));
    if Distance(s) == 0 then []
    else
      var m := Outcome(r, ref, asset, message, now);
      OutcomeAdvances(r, ref, asset, message, now, false);
      [m] + Recover(Rewrite(r, m), ref, asset, message, now)
  }

  /** From any such record, at most five accepted non-generating writes settle it. */
  lemma {:induction false} RecoverySettles(r: Record, ref: nat, asset: nat, message: MessageId, now: Option<int>)
    requires Recoverable(r)
    ensures var ms := Recover(r, ref, asset, message, now);
      && |ms| <= Distance(ClassifyContract(Live(r)))
      && (forall m :: m in ms ==> !m.Run? && !m.Submit? && !m.Commit?)
      && WriteAll(r, ms).Some?
      && ClassifyContract(Live(WriteAll(r, ms).value)) == Settled
      && WriteAll(r, ms).value.generationOrdinal == r.generationOrdinal
    decreases Distance(ClassifyContract(Live(r)))
  {
    var m := Outcome(r, ref, asset, message, now);
    OutcomeAdvances(r, ref, asset, message, now, false);
    var next := Rewrite(r, m);
    var rest := Recover(next, ref, asset, message, now);
    assert Recover(r, ref, asset, message, now) == [m] + rest;
    assert ([m] + rest)[1..] == rest;
    if ClassifyContract(Live(next)) != Settled {
      RecoverySettles(next, ref, asset, message, now);
    } else {
      assert rest == [];
    }
  }

  lemma ParkedStaysParked(r: Record, m: Mark)
    requires Coherent(r) && r.needsManualAction && !m.Terminate?
    ensures Rewrite(r, m).needsManualAction
    ensures ClassifyContract(Live(r)) == ManualActionRequired
  {
  }

  /**
   * Parking is sticky: no accepted write except a terminal one clears the flag, so a record resumed by the
   * operator is still classified as needing the operator at every later restart.
   */
  lemma {:induction false} ParkedUntilTerminal(r: Record, ms: seq<Mark>)
    requires Coherent(r) && r.needsManualAction
    requires forall m :: m in ms ==> !m.Terminate?
    requires WriteAll(r, ms).Some?
    ensures ClassifyContract(Live(WriteAll(r, ms).value)) == ManualActionRequired
    ensures !PlanRecovery(Live(WriteAll(r, ms).value), None).safeToRetry
    decreases |ms|
  {
    if ms != [] {
      hide Rewrite, Refusal, Coherent, ClassifyContract;
      assert ms[0] in ms;
      ParkedStaysParked(r, ms[0]);
      RewriteKeepsCoherence(r, ms[0], false);
      ParkedUntilTerminal(Rewrite(r, ms[0]), ms[1..]);
    }
  }
}
