/**
 * Reconcile batches: everything a Worker still owes the cloud, in byte-bounded pieces
 * (lib/worker/reconcile-builder.mjs).
 */
module Reconcile {
  import opened Common
  import opened JournalRecords
  import opened RecoveryClassifier
  import opened RecoveryJournal

  datatype Batch = Batch(
    reconcileId: nat,
    index: nat,
    total: nat,
    isLast: bool,
    terminalPending: nat,
    activeJobs: nat,
    items: seq<Entry>)

  // ---- what goes in, in which order ----

  predicate OwesTerminal(e: Entry) {
    Classify(e.found) == CoarseTerminalPendingAck
  }

  predicate StillActive(e: Entry) {
    Classify(e.found) != CoarseTerminalPendingAck && Classify(e.found) != CoarseSettled
  }

  function Owing(records: seq<Entry>): seq<Entry> {
    if records == [] then []
    else (if OwesTerminal(records[0]) then [records[0]] else []) + Owing(records[1..])
  }

  function Active(records: seq<Entry>): seq<Entry> {
    if records == [] then []
    else (if StillActive(records[0]) then [records[0]] else []) + Active(records[1..])
  }

  function Inserted(e: Entry, sorted: seq<Entry>): seq<Entry> {
    if sorted == [] then [e]
    else if sorted[0].job <= e.job then [sorted[0]] + Inserted(e, sorted[1..])
    else [e] + sorted
  }

  function ByJob(records: seq<Entry>): seq<Entry> {
    if records == [] then [] else Inserted(records[|records| - 1], ByJob(records[..|records| - 1]))
  }

  function Ordered(records: seq<Entry>): seq<Entry> {
    ByJob(Owing(records)) + ByJob(Active(records))
  }

  ghost predicate SortedByJob(es: seq<Entry>) {
    forall i, j :: 0 <= i < j < |es| ==> es[i].job <= es[j].job
  }

  lemma {:induction false} InsertedIsSorted(e: Entry, sorted: seq<Entry>)
    requires SortedByJob(sorted)
    ensures SortedByJob(Inserted(e, sorted))
  {
    if sorted != [] && sorted[0].job <= e.job {
      InsertedIsSorted(e, sorted[1..]);
      InsertedFirst(e, sorted[1..]);
      var rest := Inserted(e, sorted[1..]);
      forall j | 0 <= j < |rest| ensures sorted[0].job <= rest[j].job {
        assert rest[j] in rest;
      }
    }
  }

  lemma {:induction false} InsertedKeeps(e: Entry, sorted: seq<Entry>)
    ensures multiset(Inserted(e, sorted)) == multiset(sorted) + multiset{e}
  {
    if sorted != [] {
      assert sorted == [sorted[0]] + sorted[1..];
      InsertedKeeps(e, sorted[1..]);
    }
  }

  lemma InsertedFirst(e: Entry, sorted: seq<Entry>)
    ensures Inserted(e, sorted) != []
    ensures forall x :: x in Inserted(e, sorted) ==> x == e || x in sorted
  {
  }

  lemma {:induction false} ByJobSorts(records: seq<Entry>)
    ensures SortedByJob(ByJob(records)) && multiset(ByJob(records)) == multiset(records)
  {
    if records != [] {
      ByJobSorts(records[..|records| - 1]);
      InsertedIsSorted(records[|records| - 1], ByJob(records[..|records| - 1]));
      InsertedKeeps(records[|records| - 1], ByJob(records[..|records| - 1]));
      assert records == records[..|records| - 1] + [records[|records| - 1]];
    }
  }

  function Recoverable(records: seq<Entry>): seq<Entry> {
    if records == [] then []
    else (if IsRecoverable(records[0].found) then [records[0]] else []) + Recoverable(records[1..])
  }

  lemma {:induction false} OwingAndActive(records: seq<Entry>)
    ensures multiset(Owing(records)) + multiset(Active(records)) == multiset(Recoverable(records))
    ensures forall e :: e in Owing(records) ==> OwesTerminal(e)
    ensures forall e :: e in Active(records) ==> StillActive(e)
  {
    if records != [] {
      OwingAndActive(records[1..]);
    }
  }

  /** Each unsettled record exactly once, terminals still owed first, each group in job order. */
  lemma OrderedConserves(records: seq<Entry>)
    ensures multiset(Ordered(records)) == multiset(Recoverable(records))
    ensures forall i, j :: 0 <= i < j < |Ordered(records)| && OwesTerminal(Ordered(records)[j]) ==>
      OwesTerminal(Ordered(records)[i])
    ensures forall i, j ::
      (0 <= i < j < |Ordered(records)| && (OwesTerminal(Ordered(records)[i]) <==> OwesTerminal(Ordered(records)[j]))) ==>
        Ordered(records)[i].job <= Ordered(records)[j].job
  {
    hide ByJob, Owing, Active, Recoverable, OwesTerminal, StillActive;
    OwingAndActive(records);
    ByJobSorts(Owing(records));
    ByJobSorts(Active(records));
    var first, second := ByJob(Owing(records)), ByJob(Active(records));
    SameMembers(first, Owing(records));
    SameMembers(second, Active(records));
    forall e | e in first ensures OwesTerminal(e) {
    }
    forall e | e in second ensures !OwesTerminal(e) {
      ActiveOwesNothing(e);
    }
  }

  lemma ActiveOwesNothing(e: Entry)
    ensures StillActive(e) ==> !OwesTerminal(e)
  {
  }

  lemma SameMembers(a: seq<Entry>, b: seq<Entry>)
    requires multiset(a) == multiset(b)
    ensures forall e :: e in a ==> e in b
  {
    forall e | e in a ensures e in b {
      assert e in multiset(a);
    }
  }

  // ---- how large a batch is ----

  function Digits(n: nat): (d: nat)
    ensures d >= 1 && (n < 10 ==> d == 1) && (10 <= n < 100 ==> d == 2) && (100 <= n < 1000 ==> d == 3)
    ensures n >= 100 ==> d >= 3
  {
    if n < 10 then 1 else 1 + Digits(n / 10)
  }

  function ItemBytes(items: seq<Entry>, size: Entry -> nat): nat {
    if items == [] then 0 else ItemBytes(items[..|items| - 1], size) + size(items[|items| - 1])
  }

  /** `fixed` is everything in the payload but the index, the total, the flag and the items. */
  function PayloadBytes(fixed: nat, index: nat, total: nat, isLast: bool, items: seq<Entry>, size: Entry -> nat): nat {
    fixed + Digits(index) + Digits(total) + (if isLast then 4 else 5) + ItemBytes(items, size)
      + if items == [] then 0 else |items| - 1
  }

  /** The size taken while packing, with index 0 and total 9999 as placeholders. */
  function Measured(fixed: nat, items: seq<Entry>, size: Entry -> nat): nat {
    PayloadBytes(fixed, 0, 9999, false, items, size)
  }

  function Flat(groups: seq<seq<Entry>>): seq<Entry> {
    if groups == [] then [] else Flat(groups[..|groups| - 1]) + groups[|groups| - 1]
  }

  ghost predicate Fits(items: seq<Entry>, fixed: nat, size: Entry -> nat, maxBytes: int) {
    |items| <= 1 || Measured(fixed, items, size) <= maxBytes
  }

  /** The next group could not have started one item earlier. */
  ghost predicate Overflows(group: seq<Entry>, next: Entry, fixed: nat, size: Entry -> nat, maxBytes: int) {
    group != [] && Measured(fixed, group + [next], size) > maxBytes
  }

  /** Every group fits, and none could have taken the first item of the next. */
  ghost predicate Packed(groups: seq<seq<Entry>>, fixed: nat, size: Entry -> nat, maxBytes: int) {
    && (forall i :: 0 <= i < |groups| ==> Fits(groups[i], fixed, size, maxBytes))
    && (forall i :: 0 < i < |groups| ==>
          groups[i] != [] && Overflows(groups[i - 1], groups[i][0], fixed, size, maxBytes))
  }

  ghost predicate Follows(groups: seq<seq<Entry>>, current: seq<Entry>, fixed: nat, size: Entry -> nat, maxBytes: int) {
    groups != [] ==> current != [] && Overflows(groups[|groups| - 1], current[0], fixed, size, maxBytes)
  }

  lemma PackedOneMore(groups: seq<seq<Entry>>, current: seq<Entry>, fixed: nat, size: Entry -> nat, maxBytes: int)
    requires Packed(groups, fixed, size, maxBytes) && Follows(groups, current, fixed, size, maxBytes)
    requires Fits(current, fixed, size, maxBytes)
    ensures Packed(groups + [current], fixed, size, maxBytes)
  {
  }

  method PackGroups(ordered: seq<Entry>, fixed: nat, size: Entry -> nat, maxBytes: int) returns (groups: seq<seq<Entry>>)
    ensures Flat(groups) == ordered && |groups| >= 1
    ensures Packed(groups, fixed, size, maxBytes)
  {
    hide Flat, Packed;
    groups := [];
    var current: seq<Entry> := [];
    NothingPacked(fixed, size, maxBytes);
    for k := 0 to |ordered|
      invariant Flat(groups) + current == ordered[..k]
      invariant Fits(current, fixed, size, maxBytes) && Follows(groups, current, fixed, size, maxBytes)
      invariant Packed(groups, fixed, size, maxBytes)
    {
      hide Measured;
      var tentative := current + [ordered[k]];
      assert ordered[..k + 1] == ordered[..k] + [ordered[k]];
      if Measured(fixed, tentative, size) > maxBytes && current != [] {
        FlatOneMore(groups, current);
        PackedOneMore(groups, current, fixed, size, maxBytes);
        groups := groups + [current];
        current := [ordered[k]];
      } else {
        assert Flat(groups) + tentative == Flat(groups) + current + [ordered[k]];
        current := tentative;
      }
    }
    FlatOneMore(groups, current);
    PackedOneMore(groups, current, fixed, size, maxBytes);
    groups := groups + [current];
    assert ordered[..|ordered|] == ordered;
  }

  lemma NothingPacked(fixed: nat, size: Entry -> nat, maxBytes: int)
    ensures Flat([]) == [] && Packed([], fixed, size, maxBytes)
  {
  }

  lemma FlatOneMore(groups: seq<seq<Entry>>, group: seq<Entry>)
    ensures Flat(groups + [group]) == Flat(groups) + group
  {
  }

  function ItemsOf(batches: seq<Batch>): (groups: seq<seq<Entry>>)
    ensures |groups| == |batches| && forall i :: 0 <= i < |groups| ==> groups[i] == batches[i].items
  {
    seq(|batches|, i requires 0 <= i < |batches| => batches[i].items)
  }

  method BuildReconcileBatches(records: seq<Entry>, reconcileId: nat, fixed: nat, size: Entry -> nat, maxBytes: int)
    returns (batches: seq<Batch>)
    ensures Flat(ItemsOf(batches)) == Ordered(records) && |batches| >= 1
    ensures forall i :: 0 <= i < |batches| ==>
      && batches[i].reconcileId == reconcileId && batches[i].index == i && batches[i].total == |batches|
      && (batches[i].isLast <==> i == |batches| - 1)
      && batches[i].terminalPending + batches[i].activeJobs == |Ordered(records)|
    ensures Packed(ItemsOf(batches), fixed, size, maxBytes)
  {
    var terminalPending := ByJob(Owing(records));
    var active := ByJob(Active(records));
    var ordered := terminalPending + active;
    var groups := PackGroups(ordered, fixed, size, maxBytes);
    var total := |groups|;
    batches := [];
    for index := 0 to total
      invariant |batches| == index
      invariant forall i :: 0 <= i < index ==>
        batches[i] == Batch(reconcileId, i, total, i == total - 1, |terminalPending|, |active|, groups[i])
    {
      batches := batches + [
        Batch(reconcileId, index, total, index == total - 1, |terminalPending|, |active|, groups[index])];
    }
    assert ItemsOf(batches) == groups;
  }

  // ---- the cap ----

  /**
   * The comment in the source says the sizes are measured again with the real index and total; they are not. A
   * batch is as large as measured, up to the width of those two numbers and the flag.
   */
  lemma ActualSize(b: Batch, fixed: nat, size: Entry -> nat)
    ensures PayloadBytes(fixed, b.index, b.total, b.isLast, b.items, size) ==
      Measured(fixed, b.items, size) + Digits(b.index) + Digits(b.total) - 5 - (if b.isLast then 1 else 0)
  {
  }

  /** With at most 101 batches every one is within the cap, if every single item is. */
  lemma WithinCap(b: Batch, fixed: nat, size: Entry -> nat, maxBytes: int)
    requires b.index < b.total <= 101 && (b.isLast <==> b.index == b.total - 1)
    requires Fits(b.items, fixed, size, maxBytes)
    requires Measured(fixed, [], size) <= maxBytes && forall e :: e in b.items ==> Measured(fixed, [e], size) <= maxBytes
    ensures PayloadBytes(fixed, b.index, b.total, b.isLast, b.items, size) <= maxBytes
  {
    hide Measured;
    ActualSize(b, fixed, size);
    if |b.items| == 1 {
      assert b.items == [b.items[0]];
    } else if |b.items| == 0 {
      assert b.items == [];
    }
  }

  /** From the 101st of more batches on it can be over: one that measured exactly the cap ends up larger. */
  lemma OverCap(b: Batch, fixed: nat, size: Entry -> nat, maxBytes: int)
    requires 100 <= b.index < b.total - 1 && !b.isLast
    requires Measured(fixed, b.items, size) == maxBytes
    ensures PayloadBytes(fixed, b.index, b.total, b.isLast, b.items, size) > maxBytes
  {
  }

  /** And such batches are built: items that measure exactly the cap by themselves are sent one to a batch. */
  lemma {:induction false} OnePerBatch(groups: seq<seq<Entry>>, fixed: nat, size: Entry -> nat, maxBytes: int)
    requires forall e :: e in Flat(groups) ==> Measured(fixed, [e], size) == maxBytes
    requires Packed(groups, fixed, size, maxBytes)
    ensures forall i :: 0 <= i < |groups| ==> |groups[i]| <= 1
  {
    forall i | 0 <= i < |groups| ensures |groups[i]| <= 1 {
      if |groups[i]| > 1 {
        GroupInFlat(groups, i, groups[i][0]);
        TwoAreLarger(groups[i], fixed, size);
      }
    }
  }

  lemma {:induction false} GroupInFlat(groups: seq<seq<Entry>>, i: nat, e: Entry)
    requires i < |groups| && e in groups[i]
    ensures e in Flat(groups)
    decreases |groups|
  {
    if i < |groups| - 1 {
      assert groups[..|groups| - 1][i] == groups[i];
      GroupInFlat(groups[..|groups| - 1], i, e);
    }
  }

  lemma {:induction false} TwoAreLarger(items: seq<Entry>, fixed: nat, size: Entry -> nat)
    requires |items| > 1
    ensures Measured(fixed, items, size) > Measured(fixed, [items[0]], size)
  {
    AtLeastFirst(items, size);
    assert ItemBytes([items[0]], size) == size(items[0]) by {
      assert [items[0]][..0] == [];
    }
  }

  lemma {:induction false} AtLeastFirst(items: seq<Entry>, size: Entry -> nat)
    requires items != []
    ensures ItemBytes(items, size) >= size(items[0])
  {
    if |items| > 1 {
      AtLeastFirst(items[..|items| - 1], size);
    }
  }
}
