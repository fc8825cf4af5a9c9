/** Small datatypes shared by every component of the model. */
module Common {

  datatype Option<+T> = None | Some(value: T)

  datatype Result<+T, +E> = Ok(value: T) | Err(error: E)

  /** Identifiers (ULIDs in the program) are only ever compared for equality. */
  type JobId = nat
  type AttemptId = nat
  type MessageId = nat
  type WorkerId = nat

  /** A caller-supplied optional argument: left out, accepted by its validator, or refused by it. */
  datatype Arg<+T> = Omitted | Given(value: T) | Invalid {
    function Value(): Option<T> {
      if Given? then Some(value) else None
    }

    /** The value given, or else the value already on file. */
    function OrElse(filed: Option<T>): Option<T> {
      if Given? then Some(value) else filed
    }
  }

  /** Listing a directory in name order starts with the smallest name. */
  method Smallest(s: set<nat>) returns (least: nat)
    requires s != {}
    ensures least in s && forall j :: j in s ==> least <= j
  {
    least :| least in s;
    var rest := s - {least};
    while rest != {}
      invariant least in s && rest <= s
      invariant forall j :: j in s ==> j in rest || least <= j
      decreases rest
    {
      var j :| j in rest;
      if j < least {
        least := j;
      }
      rest := rest - {j};
    }
  }

  lemma {:induction false} SubsetSize<T>(s: set<T>, t: set<T>)
    requires s <= t
    ensures |s| <= |t|
  {
    if s != {} {
      var x :| x in s;
      SubsetSize(s - {x}, t - {x});
    }
  }
}
