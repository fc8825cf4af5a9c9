/** One journal record and the effect of each mark method on it (lib/worker/recovery-journal.mjs). */
module JournalRecords {
  import opened Common
  import opened RecoveryStates

  datatype TerminalType = JobCompleted | JobFailed | JobCanceled {
    function LocalState(): LocalState {
      match this
      case JobCompleted => Succeeded
      case JobFailed => Failed
      case JobCanceled => Canceled
    }
  }

  datatype Phase = ManualActionPhase | WorkPhase(index: nat)

  datatype Record = Record(
    attempt: Option<AttemptId>,
    localState: LocalState,
    phase: Option<Phase>,
    lastEventSequence: int,
    percent: Option<real>,
    generationOrdinal: nat,
    submission: SubmissionState,
    confidence: Confidence,
    submittedToProvider: bool,
    submissionId: Option<nat>,
    resultAvailable: bool,
    localResultRef: Option<nat>,
    importedAsset: Option<nat>,
    terminal: Option<TerminalType>,
    terminalMessage: Option<MessageId>,
    ackPending: bool,
    ackMessage: Option<MessageId>,
    acknowledged: bool,
    acknowledgedAt: Option<int>,
    needsManualAction: bool)

  function Fresh(attempt: Option<AttemptId>): Record {
    Record(attempt, Created, None, 0, None, 0, NotSubmitted, NoConfidence, false, None, false, None, None,
           None, None, false, None, false, None, false)
  }

  datatype Mark =
    | Run
    | Submit
    | Commit(submission: Arg<nat>, confidence: Option<Confidence>)
    | Download
    | Progress(phase: Arg<Phase>, sequence: Arg<int>, percent: Arg<real>, resultAvailable: bool)
    | LocalResult(ref: Arg<nat>, asset: Arg<nat>)
    | Terminate(kind: Arg<TerminalType>, message: Arg<MessageId>)
    | AckPending(ack: Arg<MessageId>)
    | Acknowledge(now: Option<int>)

  datatype JournalError =
    | InvalidRef
    | Unsafe
    | NotFound
    | CorruptRecord
    | DuplicateGeneration
    | IllegalTransition

  /** Arguments refused before the record is even read. */
  function ArgumentError(m: Mark): Option<JournalError> {
    match m
    case Commit(Invalid, _) => Some(InvalidRef)
    case LocalResult(ref, asset) => if !ref.Given? || asset.Invalid? then Some(InvalidRef) else None
    case Terminate(kind, message) =>
      if !kind.Given? then Some(Unsafe) else if message.Invalid? then Some(InvalidRef) else None
    case AckPending(Invalid) => Some(InvalidRef)
    case _ => None
  }

  function ProgressError(r: Record, m: Mark): Option<JournalError>
    requires m.Progress?
  {
    if m.phase.Invalid? then Some(Unsafe)
    else if m.sequence.Invalid? || (m.sequence.Given? && m.sequence.value <= r.lastEventSequence) then Some(Unsafe)
    else if m.percent.Invalid? then Some(Unsafe)
    else None
  }

  /** Where a mark wants to take the record; None when it leaves `localState` alone. */
  function Target(r: Record, m: Mark): Option<LocalState> {
    match m
    case Run => Some(Running)
    case Submit => Some(Submitting)
    case Commit(_, _) => if r.localState == Submitted then None else Some(Submitted)
    case Download => Some(Downloading)
    case Progress(phase, _, _, _) =>
      if phase == Given(ManualActionPhase) then Some(NeedsManualAction)
      else if r.terminal.None? && r.localState in {Created, Running} then Some(Running)
      else None
    case LocalResult(_, asset) => Some(if asset.Given? then Imported else Downloading)
    case Terminate(kind, _) =>
      if !kind.Given? || r.localState == kind.value.LocalState() then None else Some(kind.value.LocalState())
    case AckPending(_) => None
    case Acknowledge(_) => None
  }

  /** Why a mark is refused on a live record; `siblingBooked` is the answer of the sibling scan. */
  function Refusal(r: Record, m: Mark, siblingBooked: bool): Option<JournalError> {
    if m.Submit? && (r.generationOrdinal >= 1 || siblingBooked) then Some(DuplicateGeneration)
    else if m.Commit? && !r.submittedToProvider && siblingBooked then Some(DuplicateGeneration)
    else if m.Progress? && ProgressError(r, m).Some? then ProgressError(r, m)
    else if Target(r, m).Some? && !CanTransition(r.localState, Target(r, m).value) then Some(IllegalTransition)
    else None
  }

  function Clamp(p: real): real {
    if p < 0.0 then 0.0 else if p > 100.0 then 100.0 else p
  }

  /** The record as rewritten by an accepted mark. */
  function Rewrite(r: Record, m: Mark): Record {
    var s := if Target(r, m).Some? then Target(r, m).value else r.localState;
    match m
    case Run => r.(localState := s)
    case Submit => r.(localState := s, submission := InFlight, confidence := Unknown, generationOrdinal := 1)
    case Commit(id, confidence) =>
      r.(localState := s,
         submission := Accepted,
         confidence := if confidence.Some? then confidence.value else if id.Given? then Confirmed else Presumed,
         submittedToProvider := true,
         submissionId := id.OrElse(r.submissionId),
         generationOrdinal := if r.generationOrdinal < 1 then 1 else r.generationOrdinal)
    case Download => r.(localState := s)
    case Progress(phase, sequence, percent, resultAvailable) =>
      r.(localState := s,
         phase := phase.OrElse(r.phase),
         lastEventSequence := if sequence.Given? then sequence.value else r.lastEventSequence,
         percent := if percent.Given? then Some(Clamp(percent.value)) else r.percent,
         resultAvailable := r.resultAvailable || resultAvailable,
         needsManualAction := r.needsManualAction || phase == Given(ManualActionPhase))
    case LocalResult(ref, asset) =>
      r.(localState := s, localResultRef := ref.Value(), importedAsset := asset.Value())
    case Terminate(kind, message) =>
      if !kind.Given? || r.localState == s then r
      else r.(localState := s, terminal := Some(kind.value), terminalMessage := message.Value(), needsManualAction := false)
    case AckPending(ack) => r.(ackPending := true, ackMessage := ack.Value(), acknowledged := false)
    case Acknowledge(now) => r.(ackPending := false, acknowledged := true, acknowledgedAt := now)
  }

  /** A paid generation is on this record's account. */
  predicate Booked(r: Record) {
    r.generationOrdinal >= 1
  }

  /** What the sibling scan looks at: the boolean or the local state, never the ordinal. */
  predicate Visible(r: Record) {
    r.submittedToProvider || IsPostSubmit(r.localState)
  }

  /** Holds of every record the journal can produce. */
  predicate Coherent(r: Record) {
    && r.generationOrdinal <= 1
    && (r.submittedToProvider <==> r.submission == Accepted)
    && (r.generationOrdinal == 0 <==> r.submission == NotSubmitted)
    && (r.localState == Submitted ==> r.submittedToProvider)
    && (r.localState == Submitting ==> r.submission == InFlight)
    && (r.localState == Created ==> r.generationOrdinal == 0)
    && (r.terminal.Some? <==> IsTerminal(r.localState))
    && (r.terminal.Some? ==> r.terminal.value.LocalState() == r.localState)
    && (r.localState == NeedsManualAction ==> r.needsManualAction)
    && (r.needsManualAction ==> r.terminal.None?)
    && (r.localState == Running && r.generationOrdinal == 1 ==> r.needsManualAction)
    && (r.localState in {Downloading, Imported} && r.generationOrdinal == 0 ==> r.needsManualAction)
    && (r.localState == Imported ==> r.importedAsset.Some?)
    && (r.submission == NotSubmitted ==> r.confidence == NoConfidence && r.submissionId.None?)
    && (r.submission == InFlight ==> r.confidence == Unknown)
    && (r.percent.Some? ==> 0.0 <= r.percent.value <= 100.0)
  }

  function Strength(s: SubmissionState): nat {
    match s
    case NotSubmitted => 0
    case InFlight => 1
    case Accepted => 2
  }

  /** The durable facts that no later write may take back. */
  predicate Extends(was: Record, now: Record) {
    && was.attempt == now.attempt
    && was.generationOrdinal <= now.generationOrdinal
    && (was.submittedToProvider ==> now.submittedToProvider)
    && Strength(was.submission) <= Strength(now.submission)
    && was.lastEventSequence <= now.lastEventSequence
    && (was.submissionId.Some? ==> now.submissionId.Some?)
    && (was.resultAvailable ==> now.resultAvailable)
    && (was.terminal.Some? ==> now.terminal == was.terminal && now.terminalMessage == was.terminalMessage)
  }

  lemma RewriteKeepsCoherence(r: Record, m: Mark, siblingBooked: bool)
    requires Coherent(r) && ArgumentError(m).None? && Refusal(r, m, siblingBooked).None?
    ensures Coherent(Rewrite(r, m))
    ensures Extends(r, Rewrite(r, m))
    ensures r.localState == Rewrite(r, m).localState || CanTransition(r.localState, Rewrite(r, m).localState)
  {
    match m
    case Progress(_, _, _, _) =>
    case Terminate(kind, _) =>
    case _ =>
  }

  /** Each accepted mark writes its own evidence and leaves everyone else's alone. */
  lemma MarksKeepToTheirOwn(r: Record, m: Mark, siblingBooked: bool)
    requires Coherent(r) && ArgumentError(m).None? && Refusal(r, m, siblingBooked).None?
    ensures var n := Rewrite(r, m);
      && (!m.Submit? && !m.Commit? ==>
            n.generationOrdinal == r.generationOrdinal && n.submission == r.submission && n.confidence == r.confidence)
      && (!m.Commit? ==> n.submittedToProvider == r.submittedToProvider && n.submissionId == r.submissionId)
      && (!m.LocalResult? ==> n.localResultRef == r.localResultRef && n.importedAsset == r.importedAsset)
      && (!m.Terminate? ==> n.terminal == r.terminal && n.terminalMessage == r.terminalMessage)
      && (!m.AckPending? && !m.Acknowledge? ==> n.acknowledged == r.acknowledged && n.ackPending == r.ackPending)
      && (m.Submit? ==> !Booked(r) && !siblingBooked && n.localState == Submitting && n.generationOrdinal == 1)
      && (m.Commit? ==> n.localState == Submitted && n.submittedToProvider && n.generationOrdinal == 1)
      && (m.LocalResult? ==> n.localResultRef == m.ref.Value() && n.importedAsset == m.asset.Value())
      && (m.Terminate? ==> n.terminal == m.kind.Value() && !n.needsManualAction)
  {
  }

  /** A second terminal of the same kind is accepted and changes nothing, not even the message id on file. */
  lemma TerminalIsWrittenOnce(r: Record, kind: TerminalType, first: MessageId, second: MessageId)
    requires Coherent(r) && Refusal(r, Terminate(Given(kind), Given(first)), false).None? && r.terminal.None?
    ensures var n := Rewrite(r, Terminate(Given(kind), Given(first)));
      && n.terminalMessage == Some(first)
      && forall k: TerminalType ::
           if k == kind then
             Refusal(n, Terminate(Given(k), Given(second)), false).None?
             && Rewrite(n, Terminate(Given(k), Given(second))) == n
           else Refusal(n, Terminate(Given(k), Given(second)), false) == Some(IllegalTransition)
  {
  }
}
