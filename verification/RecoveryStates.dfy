/** The local lifecycle of a journal record and the moves it may make (lib/worker/recovery-states.mjs). */
module RecoveryStates {

  datatype LocalState =
    | Created
    | Running
    | Submitting
    | Submitted
    | Downloading
    | Imported
    | NeedsManualAction
    | Succeeded
    | Failed
    | Canceled

  datatype SubmissionState = NotSubmitted | InFlight | Accepted

  datatype Confidence = NoConfidence | Unknown | Presumed | Confirmed

  predicate IsTerminal(s: LocalState) {
    s in {Succeeded, Failed, Canceled}
  }

  predicate IsPreSubmit(s: LocalState) {
    s in {Created, Running}
  }

  predicate IsPostSubmit(s: LocalState) {
    s in {Submitting, Submitted, Downloading, Imported}
  }

  function Transitions(from: LocalState): set<LocalState> {
    match from
    case Created => {Running, Submitting, Submitted, NeedsManualAction, Succeeded, Failed, Canceled}
    case Running => {Submitting, Submitted, NeedsManualAction, Succeeded, Failed, Canceled}
    case Submitting => {Submitted, NeedsManualAction, Failed, Canceled}
    case Submitted => {Downloading, Imported, NeedsManualAction, Succeeded, Failed, Canceled}
    case Downloading => {Imported, NeedsManualAction, Succeeded, Failed, Canceled}
    case Imported => {NeedsManualAction, Succeeded, Failed, Canceled}
    case NeedsManualAction =>
      {Running, Submitting, Submitted, Downloading, Imported, Succeeded, Failed, Canceled}
    case Succeeded => {}
    case Failed => {}
    case Canceled => {}
  }

  predicate CanTransition(from: LocalState, to: LocalState) {
    if from == Submitting && to == Submitting then false
    else if from == to then !IsTerminal(from)
    else to in Transitions(from)
  }

  /** Position in the forward pipeline CREATED .. IMPORTED, then terminal; parking has no position. */
  function Rank(s: LocalState): nat {
    match s
    case Created => 0
    case Running => 1
    case Submitting => 2
    case Submitted => 3
    case Downloading => 4
    case Imported => 5
    case NeedsManualAction => 6
    case Succeeded => 7
    case Failed => 7
    case Canceled => 7
  }

  /** A history of local states in which every step is a legal move. */
  ghost predicate LegalPath(path: seq<LocalState>) {
    forall i :: 0 < i < |path| ==> CanTransition(path[i - 1], path[i])
  }

  /** Once past submission and never parked, a record only moves up the pipeline and never submits again. */
  lemma {:induction false} NoRegressionWithoutParking(path: seq<LocalState>, i: nat, j: nat)
    requires LegalPath(path) && i < j < |path|
    requires IsPostSubmit(path[i])
    requires forall k :: i <= k <= j ==> path[k] != NeedsManualAction
    ensures !IsPreSubmit(path[j]) && path[j] != Submitting
    ensures Rank(path[i]) <= Rank(path[j])
    decreases j - i
  {
    if i + 1 < j {
      NoRegressionWithoutParking(path, i, j - 1);
    }
    assert CanTransition(path[j - 1], path[j]);
  }

  /** CREATED has no incoming move and a terminal state has no outgoing one, whatever happens in between. */
  lemma {:induction false} EndsAreClosed(path: seq<LocalState>, i: nat, j: nat)
    requires LegalPath(path) && i < j < |path|
    ensures path[j] == Created ==> path[i] == Created
    ensures !IsTerminal(path[i])
    decreases j - i
  {
    assert CanTransition(path[j - 1], path[j]);
    if i + 1 < j {
      EndsAreClosed(path, i, j - 1);
    }
  }

  ghost predicate Reaches(from: LocalState, to: LocalState) {
    exists path :: |path| > 1 && LegalPath(path) && path[0] == from && path[|path| - 1] == to
  }

  /**
   * The documented "never regresses from post-submit to pre-submit" fails for the table as written: parking
   * leads back to RUNNING. It fails for RUNNING and for nothing else, and only through parking.
   */
  lemma RegressionExactly(from: LocalState, to: LocalState)
    requires IsPostSubmit(from) && IsPreSubmit(to)
    ensures Reaches(from, to) <==> to == Running
  {
    if to == Running {
      var path := [from, NeedsManualAction, Running];
      assert LegalPath(path) && path[|path| - 1] == Running;
    } else {
      forall path: seq<LocalState> | |path| > 1 && LegalPath(path) && path[0] == from
        ensures path[|path| - 1] != to
      {
        EndsAreClosed(path, 0, |path| - 1);
      }
    }
  }
}
