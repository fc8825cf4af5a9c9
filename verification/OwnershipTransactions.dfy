/** The ownership transactions as they run: rows updated in place, thrown errors rolled back to the rows before. */
module OwnershipTransactions {
  import opened Common
  import opened RecoveryStates
  import opened JournalRecords
  import opened Inbox
  import opened Ownership

  class AttemptRows {
    var status: Status
    var producer: Option<WorkerId>
    var submission: SubmissionState
    var possiblySubmitted: bool
    var ordinal: nat
    var terminal: Option<TerminalType>
    var result: Option<TerminalResult>
    var jobStatus: JobStatus
    var jobWorker: Option<WorkerId>
    var offers: seq<Offer>
    var affinity: Option<WorkerId>
    var barriers: set<WorkerId>

    function Rows(): State
      reads this
    {
      State(status, producer, submission, possiblySubmitted, ordinal, terminal, result, jobStatus, jobWorker, offers,
            affinity, barriers)
    }

    constructor (project: Option<WorkerId>)
      ensures Rows() == Unoffered(project)
    {
      status, producer, submission, possiblySubmitted, ordinal := Unowned, None, NotSubmitted, false, 0;
      terminal, result, jobStatus, jobWorker, offers := None, None, Queued, None, [];
      affinity, barriers := project, {};
    }

    method LiveForAttempt() returns (live: Option<nat>)
      ensures live == LiveFrom(offers, 0)
    {
      var i := 0;
      while i < |offers|
        invariant i <= |offers| && LiveFrom(offers, 0) == LiveFrom(offers, i)
      {
        if offers[i].status != ExpiredPreSubmit && offers[i].status != OfferRejected {
          return Some(i);
        }
        i := i + 1;
      }
      return None;
    }

    method Claim(worker: WorkerId, member: bool) returns (error: Option<OwnershipError>)
      modifies this
      ensures Rows() == Or(old(Rows()), ClaimFor(old(Rows()), worker, member))
      ensures error.None? <==> ClaimFor(old(Rows()), worker, member).Ok?
      ensures error.Some? ==> ClaimFor(old(Rows()), worker, member) == Err(error.value)
    {
      if terminal.Some? {
        return Some(AttemptTerminal);
      }
      if submission != NotSubmitted || possiblySubmitted {
        return Some(AttemptPossiblySubmitted);
      }
      if status != Unowned {
        return Some(AlreadyOwned);
      }
      if !member {
        return Some(WorkerNotFound);
      }
      if worker in barriers {
        return Some(ReconciliationRequired);
      }
      if affinity.Some? && affinity.value != worker {
        return Some(AffinityConflict);
      }
      var live := LiveForAttempt();
      if live.Some? {
        return Some(AlreadyOwned);
      }
      offers := offers + [Offer(worker, Open, false, Pending, false, None, {}, {})];
      status, producer := OfferMade, Some(worker);
      jobStatus, jobWorker := Dispatched, Some(worker);
      error := None;
    }

    method Restore(s: State)
      modifies this
      ensures Rows() == s
    {
      status, producer, submission, possiblySubmitted := s.status, s.producer, s.submission, s.possiblySubmitted;
      ordinal, terminal, result, jobStatus, jobWorker := s.ordinal, s.terminal, s.result, s.jobStatus, s.jobWorker;
      offers, affinity, barriers := s.offers, s.affinity, s.barriers;
    }

    /** Retire one offer and claim again in the same transaction. */
    method Remint(i: nat, worker: WorkerId, member: bool) returns (error: Option<OwnershipError>)
      requires i < |offers|
      modifies this
      ensures Rows() == Or(old(Rows()), ClaimFor(Retired(old(Rows()), i), worker, member))
      ensures error.None? <==> ClaimFor(Retired(old(Rows()), i), worker, member).Ok?
      ensures error.Some? ==> ClaimFor(Retired(old(Rows()), i), worker, member) == Err(error.value)
    {
      var before := Rows();
      offers := offers[i := offers[i].(status := ExpiredPreSubmit, delivery := Dead)];
      status, producer := Unowned, None;
      error := Claim(worker, member);
      if error.Some? {
        Restore(before);
      }
    }

    method SafeReofferTo(worker: WorkerId, member: bool) returns (error: Option<OwnershipError>)
      modifies this
      ensures (Rows(), error) == SafeReoffer(old(Rows()), worker, member)
    {
      if terminal.Some? {
        return Some(AttemptTerminal);
      }
      if possiblySubmitted || submission != NotSubmitted || ordinal != 0 {
        return Some(NotSafeToRetry);
      }
      var live := LiveForAttempt();
      if live.None? {
        return Some(NotSafeToRetry);
      }
      var i := live.value;
      if offers[i].accepted {
        return Some(NotSafeToRetry);
      }
      if offers[i].delivery != Pending || offers[i].uncertain {
        offers := offers[i := offers[i].(status := UnderRecovery)];
        status := RecoveringOwner;
        return Some(NotSafeToRetry);
      }
      error := Remint(i, worker, member);
    }

    method Expire(i: nat, member: bool)
      modifies this
      ensures Rows() == ExpireOffer(old(Rows()), i, member)
    {
      if i >= |offers| || offers[i].status != Open || offers[i].accepted {
        return;
      }
      var unsafe := terminal.Some? || possiblySubmitted || submission != NotSubmitted || ordinal != 0;
      if unsafe || offers[i].delivery != Pending || offers[i].uncertain {
        offers := offers[i := offers[i].(status := UnderRecovery)];
        status := RecoveringOwner;
        return;
      }
      var _ := Remint(i, offers[i].worker, member);
    }

    method Pull(i: nat)
      modifies this
      ensures Rows() == PullOffer(old(Rows()), i)
    {
      if i >= |offers| || offers[i].status != Open || offers[i].accepted {
        return;
      }
      status, producer := AcceptedByWorker, Some(offers[i].worker);
      jobStatus, jobWorker := JobAccepted, Some(offers[i].worker);
      offers := offers[i := offers[i].(status := Pulled, accepted := true)];
    }

    method RecordSubmission(worker: WorkerId, accepted: bool) returns (error: Option<OwnershipError>)
      modifies this
      ensures Rows() == Or(old(Rows()), SubmissionFact(old(Rows()), worker, accepted))
      ensures error.None? <==> SubmissionFact(old(Rows()), worker, accepted).Ok?
      ensures error.Some? ==> SubmissionFact(old(Rows()), worker, accepted) == Err(error.value)
    {
      if producer.Some? && producer.value != worker {
        return Some(IdentityMismatch);
      }
      if terminal.Some? {
        return Some(AttemptTerminal);
      }
      if submission == NotSubmitted {
        ordinal, possiblySubmitted := 1, true;
        submission := if accepted then Accepted else InFlight;
        status := if accepted then SubmittedByWorker else CrossingBarrier;
      } else if submission == InFlight && accepted {
        submission, status := Accepted, SubmittedByWorker;
      }
      error := None;
    }

    method RecordTerminal(worker: WorkerId, kind: TerminalType, message: MessageId) returns (error: Option<OwnershipError>)
      modifies this
      ensures Rows() == Or(old(Rows()), ApplyTerminal(old(Rows()), worker, kind, message))
      ensures error.None? <==> ApplyTerminal(old(Rows()), worker, kind, message).Ok?
      ensures error.Some? ==> ApplyTerminal(old(Rows()), worker, kind, message) == Err(error.value)
    {
      if producer.Some? && producer.value != worker {
        return Some(IdentityMismatch);
      }
      if result.Some? {
        return if result.value.message == message then None else Some(ConflictingTerminal);
      }
      if kind == JobCompleted && submission != Accepted {
        return Some(CheckViolated);
      }
      result, jobStatus := Some(TerminalResult(kind, message)), JobEnded(kind);
      terminal, status := Some(kind), EndedStatus(kind);
      error := None;
    }

    method ReceiveTerminal(worker: WorkerId, kind: TerminalType, message: MessageId, submitted: bool)
      returns (error: Option<OwnershipError>)
      modifies this
      ensures Rows() == Or(old(Rows()), TerminalEvent(old(Rows()), worker, kind, message, submitted))
      ensures error.None? <==> TerminalEvent(old(Rows()), worker, kind, message, submitted).Ok?
    {
      var before := Rows();
      if kind == JobCompleted || (kind == JobFailed && submitted) {
        error := RecordSubmission(worker, true);
        if error.Some? {
          return;
        }
      }
      error := RecordTerminal(worker, kind, message);
      if error.Some? {
        Restore(before);
      }
    }

    method ReceiveWorkerEvent(worker: WorkerId, event: WorkerEvent) returns (error: Option<OwnershipError>)
      modifies this
      ensures Rows() == Or(old(Rows()), ApplyWorkerEvent(old(Rows()), worker, event))
      ensures error.None? <==> ApplyWorkerEvent(old(Rows()), worker, event).Ok?
    {
      if jobWorker.Some? && jobWorker.value != worker {
        return Some(IdentityMismatch);
      }
      error := None;
      match event
      case AcceptEvent =>
        jobStatus, jobWorker := JobAccepted, Some(worker);
        status := AcceptedByWorker;
      case RejectEvent =>
        jobStatus := Queued;
        var live := LiveForAttempt();
        if live.Some? {
          offers := offers[live.value := offers[live.value].(status := OfferRejected)];
        }
        status, producer := Unowned, None;
      case StartEvent =>
        jobStatus, jobWorker := JobRunning, Some(worker);
        if status == AcceptedByWorker {
          status := Executing;
        }
      case ManualEvent =>
        jobStatus, status := JobParked, ManualActionRequired;
    }

    method CountExpired() returns (n: nat)
      ensures n > 0 <==> HasExpired(offers)
    {
      n := 0;
      for i := 0 to |offers|
        invariant n > 0 <==> exists k :: 0 <= k < i && offers[k].status == ExpiredPreSubmit
      {
        if offers[i].status == ExpiredPreSubmit {
          n := n + 1;
        }
      }
    }

    method RecoveryReofferTo(worker: WorkerId, member: bool, assetExists: bool)
      modifies this
      ensures Rows() == RecoveryReoffer(old(Rows()), worker, member, assetExists)
    {
      if terminal.Some? || (producer.Some? && producer.value != worker) {
        return;
      }
      if possiblySubmitted || submission != NotSubmitted || ordinal != 0 || result.Some? || assetExists
        || worker in barriers
      {
        return;
      }
      var retired := CountExpired();
      if retired > 0 {
        return;
      }
      var before := Rows();
      var live := LiveForAttempt();
      if live.Some? {
        offers := offers[live.value := offers[live.value].(status := ExpiredPreSubmit)];
      }
      status, producer, jobStatus := Unowned, None, Queued;
      var error := Claim(worker, member);
      if error.Some? {
        Restore(before);
      }
    }

    method MarkRecovering(worker: WorkerId, possibly: bool)
      modifies this
      ensures Rows() == SetRecovering(old(Rows()), worker, possibly)
    {
      if (producer.Some? && producer.value != worker) || terminal.Some? {
        return;
      }
      possiblySubmitted := possiblySubmitted || possibly;
      status := RecoveringOwner;
      var live := LiveForAttempt();
      if live.Some? {
        offers := offers[live.value := offers[live.value].(status := UnderRecovery)];
      }
    }

    method Assign(worker: WorkerId, otherUnresolved: bool) returns (error: Option<OwnershipError>)
      modifies this
      ensures Rows() == Or(old(Rows()), AssignAffinity(old(Rows()), worker, otherUnresolved))
      ensures error.None? <==> AssignAffinity(old(Rows()), worker, otherUnresolved).Ok?
    {
      error := None;
      if affinity.Some? {
        if affinity.value == worker {
          return;
        }
        if otherUnresolved || terminal.None? || possiblySubmitted {
          return Some(ReconciliationRequired);
        }
      }
      affinity := Some(worker);
    }

    method Release(matches: bool) returns (error: Option<OwnershipError>)
      modifies this
      ensures Rows() == Or(old(Rows()), ReleaseAffinity(old(Rows()), matches))
      ensures error.None? <==> ReleaseAffinity(old(Rows()), matches).Ok?
    {
      if affinity.Some? {
        if !matches {
          return Some(AffinityConflict);
        }
        affinity := None;
      }
      error := None;
    }
  }
}
