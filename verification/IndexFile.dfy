/** The pipeline's join table index.csv: load, upsert by normalised path, save (lib/story-files.mjs). */
module IndexFile {
  import opened Whitespace
  import opened Csv

  datatype Entry = Entry(
    file: string,
    seed: string,
    variant: string,
    language: string,
    words: string,
    provider: string,
    model: string,
    slug: string,
    title: string,
    excerpt: string)

  const INDEX_COLUMNS: Row :=
    ["file", "seed", "variant", "language", "words", "provider", "model", "slug", "title", "excerpt"]

  // ---- upsert ----

  /** Backslashes become slashes; `lower` is the platform's lower-casing. */
  function Slashed(path: string): string {
    seq(|path|, i requires 0 <= i < |path| => if path[i] == '\\' then '/' else path[i])
  }

  function Key(e: Entry, lower: string -> string): string {
    lower(Slashed(e.file))
  }

  function Upserted(entries: seq<Entry>, e: Entry, lower: string -> string): seq<Entry> {
    if entries == [] then [e]
    else if Key(entries[0], lower) == Key(e, lower) then [e] + entries[1..]
    else [entries[0]] + Upserted(entries[1..], e, lower)
  }

  class Index {
    var entries: seq<Entry>
    const lower: string -> string

    constructor (loaded: seq<Entry>, lower: string -> string)
      ensures entries == loaded && this.lower == lower
    {
      this.entries, this.lower := loaded, lower;
    }

    method FindIndex(key: string) returns (index: int)
      ensures -1 <= index < |entries|
      ensures index == -1 ==> forall k :: 0 <= k < |entries| ==> Key(entries[k], lower) != key
      ensures index >= 0 ==>
        Key(entries[index], lower) == key && forall k :: 0 <= k < index ==> Key(entries[k], lower) != key
    {
      for i := 0 to |entries|
        invariant forall k :: 0 <= k < i ==> Key(entries[k], lower) != key
      {
        if Key(entries[i], lower) == key {
          return i;
        }
      }
      return -1;
    }

    method Upsert(e: Entry)
      modifies this
      ensures entries == Upserted(old(entries), e, lower)
    {
      var index := FindIndex(Key(e, lower));
      UpsertedAt(entries, e, lower, if index == -1 then |entries| else index);
      if index == -1 {
        entries := entries + [e];
      } else {
        entries := entries[index := e];
      }
    }
  }

  lemma {:induction false} UpsertedAt(entries: seq<Entry>, e: Entry, lower: string -> string, i: nat)
    requires i <= |entries|
    requires forall k :: 0 <= k < i ==> Key(entries[k], lower) != Key(e, lower)
    requires i < |entries| ==> Key(entries[i], lower) == Key(e, lower)
    ensures Upserted(entries, e, lower) == if i == |entries| then entries + [e] else entries[i := e]
  {
    if entries != [] && i > 0 {
      UpsertedAt(entries[1..], e, lower, i - 1);
    }
  }

  /** A run of upserts from the empty table. */
  function Run(es: seq<Entry>, lower: string -> string): seq<Entry> {
    if es == [] then [] else Upserted(Run(es[..|es| - 1], lower), es[|es| - 1], lower)
  }

  function Keys(entries: seq<Entry>, lower: string -> string): (keys: seq<string>)
    ensures |keys| == |entries|
  {
    seq(|entries|, i requires 0 <= i < |entries| => Key(entries[i], lower))
  }

  /** Reference: each key once, in the order of its first write. */
  function FirstWrites(keys: seq<string>): seq<string> {
    if keys == [] then []
    else
      var prior := FirstWrites(keys[..|keys| - 1]);
      if keys[|keys| - 1] in prior then prior else prior + [keys[|keys| - 1]]
  }

  /** Reference: the last entry written under a key. */
  function LastWrite(es: seq<Entry>, key: string, lower: string -> string): (e: Entry)
    requires exists i :: 0 <= i < |es| && Key(es[i], lower) == key
    ensures Key(e, lower) == key
    decreases |es|
  {
    if Key(es[|es| - 1], lower) == key then es[|es| - 1] else LastWrite(es[..|es| - 1], key, lower)
  }

  ghost predicate Distinct(keys: seq<string>) {
    forall i, j :: 0 <= i < j < |keys| ==> keys[i] != keys[j]
  }

  ghost predicate WrittenAt(es: seq<Entry>, key: string, lower: string -> string) {
    exists i :: 0 <= i < |es| && Key(es[i], lower) == key
  }

  ghost predicate HoldsLastWrites(entries: seq<Entry>, es: seq<Entry>, lower: string -> string) {
    forall i :: 0 <= i < |entries| ==>
      WrittenAt(es, Key(entries[i], lower), lower) && entries[i] == LastWrite(es, Key(entries[i], lower), lower)
  }

  lemma UpsertSplits(entries: seq<Entry>, e: Entry, lower: string -> string) returns (i: nat)
    ensures i <= |entries|
    ensures forall k :: 0 <= k < i ==> Key(entries[k], lower) != Key(e, lower)
    ensures i < |entries| ==> Key(entries[i], lower) == Key(e, lower)
    ensures Upserted(entries, e, lower) == if i == |entries| then entries + [e] else entries[i := e]
  {
    i := 0;
    while i < |entries| && Key(entries[i], lower) != Key(e, lower)
      invariant i <= |entries|
      invariant forall k :: 0 <= k < i ==> Key(entries[k], lower) != Key(e, lower)
    {
      i := i + 1;
    }
    UpsertedAt(entries, e, lower, i);
  }

  lemma WriteCarries(es: seq<Entry>, e: Entry, key: string, lower: string -> string)
    requires WrittenAt(es, key, lower) && Key(e, lower) != key
    ensures WrittenAt(es + [e], key, lower)
    ensures LastWrite(es + [e], key, lower) == LastWrite(es, key, lower)
  {
    var i :| 0 <= i < |es| && Key(es[i], lower) == key;
    assert (es + [e])[i] == es[i];
    assert (es + [e])[..|es|] == es;
  }

  /** The shape of an upsert: a new last entry, or one entry replaced under the same key. */
  lemma UpsertKeys(entries: seq<Entry>, e: Entry, lower: string -> string)
    requires Distinct(Keys(entries, lower))
    ensures Distinct(Keys(Upserted(entries, e, lower), lower))
    ensures Keys(Upserted(entries, e, lower), lower) ==
      if Key(e, lower) in Keys(entries, lower) then Keys(entries, lower) else Keys(entries, lower) + [Key(e, lower)]
  {
    var at := UpsertSplits(entries, e, lower);
    var keys := Keys(entries, lower);
    if at < |entries| {
      assert keys[at] == Key(e, lower);
      assert Keys(Upserted(entries, e, lower), lower) == keys;
    } else {
      assert Key(e, lower) !in keys;
      assert Keys(Upserted(entries, e, lower), lower) == keys + [Key(e, lower)];
    }
  }

  lemma UpsertKeepsLastWrites(entries: seq<Entry>, es: seq<Entry>, e: Entry, lower: string -> string)
    requires Distinct(Keys(entries, lower)) && HoldsLastWrites(entries, es, lower)
    ensures HoldsLastWrites(Upserted(entries, e, lower), es + [e], lower)
  {
    var at := UpsertSplits(entries, e, lower);
    var n := Upserted(entries, e, lower);
    assert (es + [e])[|es|] == e && n[at] == e;
    forall i | 0 <= i < |n|
      ensures WrittenAt(es + [e], Key(n[i], lower), lower) && n[i] == LastWrite(es + [e], Key(n[i], lower), lower)
    {
      if i != at {
        assert n[i] == entries[i];
        assert at < |entries| ==> Keys(entries, lower)[i] != Keys(entries, lower)[at];
        WriteCarries(es, e, Key(entries[i], lower), lower);
      }
    }
  }

  /** MAIN: any run of upserts is the last-write-wins table by normalised path, in first-write order. */
  lemma {:induction false} RunIsLastWriteWins(es: seq<Entry>, lower: string -> string)
    ensures Distinct(Keys(Run(es, lower), lower))
    ensures Keys(Run(es, lower), lower) == FirstWrites(Keys(es, lower))
    ensures HoldsLastWrites(Run(es, lower), es, lower)
  {
    if es != [] {
      var prior, e := es[..|es| - 1], es[|es| - 1];
      assert prior + [e] == es;
      RunIsLastWriteWins(prior, lower);
      WriteExtendsRun(prior, e, lower);
    }
  }

  lemma WriteExtendsRun(prior: seq<Entry>, e: Entry, lower: string -> string)
    requires Distinct(Keys(Run(prior, lower), lower))
    requires Keys(Run(prior, lower), lower) == FirstWrites(Keys(prior, lower))
    requires HoldsLastWrites(Run(prior, lower), prior, lower)
    ensures Distinct(Keys(Run(prior + [e], lower), lower))
    ensures Keys(Run(prior + [e], lower), lower) == FirstWrites(Keys(prior + [e], lower))
    ensures HoldsLastWrites(Run(prior + [e], lower), prior + [e], lower)
  {
    assert (prior + [e])[..|prior|] == prior;
    assert Run(prior + [e], lower) == Upserted(Run(prior, lower), e, lower);
    UpsertKeys(Run(prior, lower), e, lower);
    UpsertKeepsLastWrites(Run(prior, lower), prior, e, lower);
    FirstWritesGrow(prior, e, lower);
  }

  lemma FirstWritesGrow(prior: seq<Entry>, e: Entry, lower: string -> string)
    ensures FirstWrites(Keys(prior + [e], lower)) ==
      if Key(e, lower) in FirstWrites(Keys(prior, lower)) then FirstWrites(Keys(prior, lower))
      else FirstWrites(Keys(prior, lower)) + [Key(e, lower)]
  {
    var keys := Keys(prior + [e], lower);
    assert keys[..|prior|] == Keys(prior, lower) && keys[|prior|] == Key(e, lower);
  }

  /** Loading a table with distinct keys and carrying on is the same as one longer run. */
  lemma {:induction false} DistinctTableIsItsOwnRun(entries: seq<Entry>, lower: string -> string)
    requires Distinct(Keys(entries, lower))
    ensures Run(entries, lower) == entries
  {
    if entries != [] {
      var prior, e := entries[..|entries| - 1], entries[|entries| - 1];
      forall i, j | 0 <= i < j < |prior| ensures Keys(prior, lower)[i] != Keys(prior, lower)[j] {
        assert Keys(entries, lower)[i] != Keys(entries, lower)[j];
      }
      DistinctTableIsItsOwnRun(prior, lower);
      forall k | 0 <= k < |prior| ensures Key(prior[k], lower) != Key(e, lower) {
        assert Keys(entries, lower)[k] != Keys(entries, lower)[|entries| - 1];
      }
      UpsertedAt(prior, e, lower, |prior|);
      assert prior + [e] == entries;
    }
  }

  /** A run of upserts on a table that was loaded, which may hold a key more than once. */
  function RunFrom(table: seq<Entry>, es: seq<Entry>, lower: string -> string): seq<Entry>
    decreases |es|
  {
    if es == [] then table else Upserted(RunFrom(table, es[..|es| - 1], lower), es[|es| - 1], lower)
  }

  ghost predicate FirstAt(entries: seq<Entry>, i: nat, lower: string -> string)
    requires i < |entries|
  {
    forall k :: 0 <= k < i ==> Key(entries[k], lower) != Key(entries[i], lower)
  }

  ghost predicate MergedAt(entries: seq<Entry>, table: seq<Entry>, es: seq<Entry>, i: nat, lower: string -> string)
    requires i < |entries|
  {
    if FirstAt(entries, i, lower) && WrittenAt(es, Key(entries[i], lower), lower)
    then entries[i] == LastWrite(es, Key(entries[i], lower), lower)
    else i < |table| && entries[i] == table[i]
  }

  /** Position by position: the first entry under a written key is the last write, every other is as loaded. */
  ghost predicate Merges(entries: seq<Entry>, table: seq<Entry>, es: seq<Entry>, lower: string -> string) {
    && |table| <= |entries|
    && (forall i :: 0 <= i < |table| ==> Key(entries[i], lower) == Key(table[i], lower))
    && (forall i :: |table| <= i < |entries| ==> FirstAt(entries, i, lower) && WrittenAt(es, Key(entries[i], lower), lower))
    && (forall i :: 0 <= i < |entries| ==> MergedAt(entries, table, es, i, lower))
  }

  lemma NotWrittenBefore(es: seq<Entry>, e: Entry, key: string, lower: string -> string)
    requires Key(e, lower) != key
    ensures WrittenAt(es + [e], key, lower) <==> WrittenAt(es, key, lower)
    ensures WrittenAt(es, key, lower) ==> LastWrite(es + [e], key, lower) == LastWrite(es, key, lower)
  {
    if WrittenAt(es, key, lower) {
      WriteCarries(es, e, key, lower);
    }
  }

  lemma StaysMerged(entries: seq<Entry>, n: seq<Entry>, table: seq<Entry>, es: seq<Entry>, e: Entry, i: nat,
                    lower: string -> string)
    requires i < |entries| <= |n| && n[i] == entries[i] && FirstAt(n, i, lower) == FirstAt(entries, i, lower)
    requires MergedAt(entries, table, es, i, lower)
    requires FirstAt(entries, i, lower) ==> Key(entries[i], lower) != Key(e, lower)
    ensures MergedAt(n, table, es + [e], i, lower)
  {
    if FirstAt(entries, i, lower) {
      NotWrittenBefore(es, e, Key(entries[i], lower), lower);
    }
  }

  lemma UpsertMerges(entries: seq<Entry>, table: seq<Entry>, es: seq<Entry>, e: Entry, lower: string -> string)
    requires Merges(entries, table, es, lower)
    ensures Merges(Upserted(entries, e, lower), table, es + [e], lower)
  {
    hide LastWrite, Upserted, Key;
    var at := UpsertSplits(entries, e, lower);
    var n := Upserted(entries, e, lower);
    assert forall i :: 0 <= i < |entries| ==> Key(n[i], lower) == Key(entries[i], lower);
    assert forall i :: 0 <= i < |entries| ==> FirstAt(n, i, lower) == FirstAt(entries, i, lower);
    LastIsLast(es, e, lower);
    assert n[at] == e && FirstAt(n, at, lower);
    forall i | 0 <= i < |n| ensures MergedAt(n, table, es + [e], i, lower) {
      if i != at {
        StaysMerged(entries, n, table, es, e, i, lower);
      }
    }
    forall i | |table| <= i < |n| ensures WrittenAt(es + [e], Key(n[i], lower), lower) {
      if Key(n[i], lower) != Key(e, lower) {
        NotWrittenBefore(es, e, Key(n[i], lower), lower);
      }
    }
  }

  lemma LastIsLast(es: seq<Entry>, e: Entry, lower: string -> string)
    ensures WrittenAt(es + [e], Key(e, lower), lower) && LastWrite(es + [e], Key(e, lower), lower) == e
  {
    assert (es + [e])[|es|] == e;
  }

  /** Upserts on any loaded table, duplicates included: the first entry of a key is replaced, the others stay. */
  lemma {:induction false} RunFromMerges(table: seq<Entry>, es: seq<Entry>, lower: string -> string)
    ensures Merges(RunFrom(table, es, lower), table, es, lower)
    decreases |es|
  {
    if es != [] {
      var prior, e := es[..|es| - 1], es[|es| - 1];
      assert prior + [e] == es;
      RunFromMerges(table, prior, lower);
      UpsertMerges(RunFrom(table, prior, lower), table, prior, e, lower);
    }
  }

  // ---- load and save ----

  function Cell(row: Row, i: nat): string {
    if i < |row| then row[i] else ""
  }

  function ToEntry(row: Row): Entry {
    if |row| >= 7 then
      Entry(Cell(row, 0), Cell(row, 1), Cell(row, 2), Cell(row, 3), Cell(row, 4), Cell(row, 5), Cell(row, 6), Cell(row, 7),
            Cell(row, 8), Cell(row, 9))
    else Entry(Cell(row, 0), Cell(row, 1), Cell(row, 2), Cell(row, 3), Cell(row, 4), "", Cell(row, 5), "", "", "")
  }

  predicate Loadable(file: string) {
    file != "" && file != "file"
  }

  function Entries(rows: seq<Row>): seq<Entry> {
    if rows == [] then []
    else if Loadable(Cell(rows[0], 0)) then [ToEntry(rows[0])] + Entries(rows[1..])
    else Entries(rows[1..])
  }

  function Loaded(text: string): seq<Entry> {
    var rows := Parse(text);
    if |rows| <= 1 then [] else Entries(rows[1..])
  }

  method LoadIndex(text: string) returns (entries: seq<Entry>)
    ensures entries == Loaded(text)
  {
    var rows := ParseCsv(text);
    entries := [];
    if |rows| <= 1 {
      return;
    }
    var i := 1;
    while i < |rows|
      invariant 1 <= i <= |rows|
      invariant entries + Entries(rows[i..]) == Entries(rows[1..])
    {
      var row := rows[i];
      if Cell(row, 0) != "" && row[0] != "file" {
        var entry := Entry(
          Cell(row, 0), Cell(row, 1), Cell(row, 2), Cell(row, 3), Cell(row, 4), "", "", "", "", "");
        if |row| >= 7 {
          entry := entry.(
            provider := Cell(row, 5), model := Cell(row, 6), slug := Cell(row, 7), title := Cell(row, 8),
            excerpt := Cell(row, 9));
        } else {
          entry := entry.(model := Cell(row, 5));
        }
        entries := entries + [entry];
      }
      assert rows[i..][1..] == rows[i + 1..];
      i := i + 1;
    }
  }

  function Columns(e: Entry): (row: Row)
    ensures |row| == 10 && row[0] == e.file
  {
    [e.file, e.seed, e.variant, e.language, e.words, e.provider, e.model, e.slug, e.title, e.excerpt]
  }

  function CleanRow(row: Row): (clean: Row)
    ensures |clean| == |row|
  {
    seq(|row|, i requires 0 <= i < |row| => SingleLineCell(row[i]))
  }

  /** The entry with every field on one line. */
  function Clean(e: Entry): Entry {
    ToEntry(CleanRow(Columns(e)))
  }

  function SavedRows(entries: seq<Entry>): (rows: seq<Row>)
    ensures |rows| == |entries|
    ensures forall i :: 0 <= i < |rows| ==> rows[i] == CleanRow(Columns(entries[i]))
  {
    seq(|entries|, i requires 0 <= i < |entries| => CleanRow(Columns(entries[i])))
  }

  function Saved(entries: seq<Entry>): string {
    ToCsv([INDEX_COLUMNS] + SavedRows(entries), false)
  }

  method SaveIndex(entries: seq<Entry>) returns (text: string)
    ensures text == Saved(entries)
  {
    var rows := [INDEX_COLUMNS];
    for i := 0 to |entries|
      invariant rows == [INDEX_COLUMNS] + SavedRows(entries)[..i]
    {
      rows := rows + [CleanRow(Columns(entries[i]))];
    }
    assert SavedRows(entries)[..|entries|] == SavedRows(entries);
    text := ToCsv(rows, false);
  }

  function Cleaned(entries: seq<Entry>): (clean: seq<Entry>)
    ensures |clean| == |entries|
    ensures forall i :: 0 <= i < |entries| ==> clean[i] == Clean(entries[i])
  {
    seq(|entries|, i requires 0 <= i < |entries| => Clean(entries[i]))
  }

  function Named(entries: seq<Entry>): seq<Entry> {
    if entries == [] then []
    else (if Loadable(entries[0].file) then [entries[0]] else []) + Named(entries[1..])
  }

  /** What survives a save and a load: one-line cells, and only rows that name a file. */
  function Surviving(entries: seq<Entry>): seq<Entry> {
    Named(Cleaned(entries))
  }

  /** Rows the reader drops would not have been loaded anyway. */
  lemma {:induction false} EntriesOfContent(rows: seq<Row>)
    ensures Entries(WithContent(rows)) == Entries(rows)
  {
    if rows != [] {
      EntriesOfContent(rows[1..]);
      var rest := WithContent(rows[1..]);
      if HasContent(rows[0]) {
        assert ([rows[0]] + rest)[0] == rows[0] && ([rows[0]] + rest)[1..] == rest;
      } else {
        assert Cell(rows[0], 0) == "" && WithContent(rows) == rest;
      }
    }
  }

  lemma {:induction false} EntriesOfNamed(rows: seq<Row>, entries: seq<Entry>)
    requires |rows| == |entries|
    requires forall i :: 0 <= i < |rows| ==> ToEntry(rows[i]) == entries[i]
    ensures Entries(rows) == Named(entries)
  {
    if rows != [] {
      assert Cell(rows[0], 0) == ToEntry(rows[0]).file;
      EntriesOfNamed(rows[1..], entries[1..]);
    }
  }

  lemma RowsLoad(rows: seq<Row>, entries: seq<Entry>)
    requires |rows| == |entries|
    requires forall i :: 0 <= i < |rows| ==> ToEntry(rows[i]) == entries[i]
    ensures Entries(WithContent(rows)) == Named(entries)
  {
    EntriesOfContent(rows);
    EntriesOfNamed(rows, entries);
  }

  /** MAIN: loading what was saved gives every entry that names a file, each field on one line, in order. */
  lemma SaveLoad(entries: seq<Entry>)
    ensures Loaded(Saved(entries)) == Surviving(entries)
  {
    HeaderHasContent();
    HeadedRowsLoad(INDEX_COLUMNS, SavedRows(entries), Cleaned(entries));
  }

  lemma HeaderHasContent()
    ensures HasContent(INDEX_COLUMNS)
  {
    assert INDEX_COLUMNS[0] == "file";
  }

  lemma HeadedRowsLoad(header: Row, rows: seq<Row>, entries: seq<Entry>)
    requires HasContent(header) && |rows| == |entries|
    requires forall i :: 0 <= i < |rows| ==> ToEntry(rows[i]) == entries[i]
    ensures Loaded(ToCsv([header] + rows, false)) == Named(entries)
  {
    PlainRoundTrip([header] + rows);
    assert ([header] + rows)[1..] == rows;
    assert WithContent([header] + rows) == [header] + WithContent(rows);
    assert WithContent([header] + rows)[1..] == WithContent(rows);
    RowsLoad(rows, entries);
  }

  ghost predicate CleanNames(entries: seq<Entry>) {
    forall i :: 0 <= i < |entries| ==> Clean(entries[i]).file == entries[i].file && Loadable(entries[i].file)
  }

  lemma {:induction false} AllNamed(entries: seq<Entry>)
    requires forall i :: 0 <= i < |entries| ==> Loadable(entries[i].file)
    ensures Named(entries) == entries
  {
    if entries != [] {
      AllNamed(entries[1..]);
    }
  }

  lemma AllSurvive(entries: seq<Entry>)
    requires CleanNames(entries)
    ensures Surviving(entries) == Cleaned(entries)
  {
    forall i | 0 <= i < |entries| ensures Loadable(Cleaned(entries)[i].file) {
      assert Cleaned(entries)[i] == Clean(entries[i]);
    }
    AllNamed(Cleaned(entries));
  }

  lemma SurvivingKeys(entries: seq<Entry>, lower: string -> string)
    requires CleanNames(entries)
    ensures Keys(Surviving(entries), lower) == Keys(entries, lower)
  {
    hide Clean, Surviving, Loadable;
    AllSurvive(entries);
    forall i | 0 <= i < |entries| ensures Key(Surviving(entries)[i], lower) == Key(entries[i], lower) {
      assert Surviving(entries)[i].file == entries[i].file;
    }
  }

  lemma NamedAgain(entries: seq<Entry>)
    requires forall i :: 0 <= i < |entries| ==> Clean(entries[i]) == entries[i]
    ensures Named(Cleaned(Named(entries))) == Named(entries)
  {
    hide Clean, Loadable, Named;
    NamedAreSome(entries);
    var named := Named(entries);
    forall i | 0 <= i < |named| ensures Cleaned(named)[i] == named[i] && Loadable(named[i].file) {
      assert named[i] in named;
    }
    assert Cleaned(named) == named;
    AllNamed(named);
  }

  lemma {:induction false} NamedAreSome(entries: seq<Entry>)
    ensures forall e :: e in Named(entries) ==> e in entries && Loadable(e.file)
  {
    if entries != [] {
      NamedAreSome(entries[1..]);
    }
  }

  lemma CleanTwice(e: Entry)
    ensures Clean(Clean(e)) == Clean(e)
  {
    hide SingleLineCell;
    var row := CleanRow(Columns(e));
    forall i | 0 <= i < |row| ensures SingleLineCell(row[i]) == row[i] {
      SingleLineCellIsClean(Columns(e)[i]);
    }
    assert Columns(Clean(e)) == row;
    assert CleanRow(row) == row;
  }

  /**
   * So any upserts, a save and a load give the last-write-wins table with each field on one line, without the rows
   * that then name no file; a second save and load changes nothing more. Where every file cell is already trimmed,
   * on one line, not empty and not the header word, no row is lost, and the loaded table can be carried on as
   * one longer run.
   */
  lemma SavedRunReloads(es: seq<Entry>, lower: string -> string)
    ensures Loaded(Saved(Run(es, lower))) == Surviving(Run(es, lower))
    ensures Loaded(Saved(Surviving(Run(es, lower)))) == Surviving(Run(es, lower))
    ensures CleanNames(Run(es, lower)) ==>
      && Keys(Surviving(Run(es, lower)), lower) == FirstWrites(Keys(es, lower))
      && Surviving(Run(es, lower)) == Cleaned(Run(es, lower))
      && Run(Surviving(Run(es, lower)), lower) == Surviving(Run(es, lower))
  {
    hide Clean, Loaded, Saved, Loadable, FirstWrites, CleanNames, Named;
    RunIsLastWriteWins(es, lower);
    var table := Run(es, lower);
    SaveLoad(table);
    SaveLoad(Surviving(table));
    forall i | 0 <= i < |table| ensures Clean(Cleaned(table)[i]) == Cleaned(table)[i] {
      CleanTwice(table[i]);
    }
    NamedAgain(Cleaned(table));
    if CleanNames(table) {
      AllSurvive(table);
      SurvivingKeys(table, lower);
      DistinctTableIsItsOwnRun(Surviving(table), lower);
    }
  }

  // ---- line-by-line readers ----

  function SplitLines(s: string, line: string): seq<string>
    decreases |s|
  {
    if s == "" then (if line == "" then [] else [line])
    else if s[0] == '\n' then [line] + SplitLines(s[1..], "")
    else SplitLines(s[1..], line + [s[0]])
  }

  lemma {:induction false} LineSplits(s: string, rest: string, line: string)
    requires OneLine(s)
    ensures SplitLines(s + "\n" + rest, line) == [line + s] + SplitLines(rest, "")
  {
    var text := s + "\n" + rest;
    if s == "" {
      assert text[0] == '\n' && text[1..] == rest && line + s == line;
    } else {
      assert s[0] in s && text[1..] == s[1..] + "\n" + rest;
      LineSplits(s[1..], rest, line + [s[0]]);
      assert line + [s[0]] + s[1..] == line + s;
    }
  }

  lemma {:induction false} LinesSplit(lines: seq<string>)
    requires lines != [] && forall l :: l in lines ==> OneLine(l)
    ensures SplitLines(Join(lines, "\n") + "\n", "") == lines
  {
    assert lines[0] in lines && "" + lines[0] == lines[0];
    if |lines| == 1 {
      LineSplits(lines[0], "", "");
      assert lines[0] + "\n" + "" == Join(lines, "\n") + "\n" && [lines[0]] + [] == lines;
    } else {
      var rest := Join(lines[1..], "\n") + "\n";
      LinesSplit(lines[1..]);
      LineSplits(lines[0], rest, "");
      assert Join(lines, "\n") + "\n" == lines[0] + "\n" + rest && [lines[0]] + lines[1..] == lines;
    }
  }

  ghost predicate OneLineRow(row: Row) {
    forall i :: 0 <= i < |row| ==> OneLine(row[i])
  }

  lemma {:induction false} DoubledIsOneLine(s: string)
    requires OneLine(s)
    ensures OneLine(Doubled(s))
  {
    if s != "" {
      assert s[0] in s;
      assert forall c :: c in s[1..] ==> c in s;
      DoubledIsOneLine(s[1..]);
    }
  }

  lemma {:induction false} JoinIsOneLine(parts: seq<string>)
    requires forall i :: 0 <= i < |parts| ==> OneLine(parts[i])
    ensures OneLine(Join(parts, ","))
  {
    if |parts| > 1 {
      JoinIsOneLine(parts[1..]);
    }
  }

  lemma RowTextIsOneLine(row: Row)
    requires OneLineRow(row)
    ensures OneLine(RowText(row))
  {
    forall i | 0 <= i < |row| ensures OneLine(CellText(row[i])) {
      DoubledIsOneLine(row[i]);
    }
    JoinIsOneLine(CellTexts(row));
    assert RowText(row) == Join(CellTexts(row), ",");
  }

  lemma CleanRowIsOneLine(row: Row)
    ensures OneLineRow(CleanRow(row))
  {
    forall i | 0 <= i < |row| ensures OneLine(CleanRow(row)[i]) {
      SingleLineCellIsClean(row[i]);
    }
  }

  lemma HeaderIsOneLine()
    ensures OneLineRow(INDEX_COLUMNS)
  {
  }

  /** Any table of one-line cells is written with one line per row, each readable by itself. */
  lemma OneLineRowsSplit(rows: seq<Row>)
    requires rows != [] && forall i :: 0 <= i < |rows| ==> OneLineRow(rows[i])
    ensures SplitLines(ToCsv(rows, false), "") == RowTexts(rows)
    ensures forall i :: 0 <= i < |rows| ==> Parse(RowTexts(rows)[i]) == WithContent([rows[i]])
  {
    forall i | 0 <= i < |rows| ensures OneLine(RowTexts(rows)[i]) && Parse(RowTexts(rows)[i]) == WithContent([rows[i]]) {
      RowTextIsOneLine(rows[i]);
      LoneLineReads(rows[i]);
    }
    UnguardedRows(rows);
    assert ToCsv(rows, false) == Join(RowTexts(rows), "\n") + "\n";
    LinesSplit(RowTexts(rows));
  }

  lemma RowsUnderHeader(header: Row, rows: seq<Row>)
    requires OneLineRow(header) && forall i :: 0 <= i < |rows| ==> OneLineRow(rows[i])
    ensures |SplitLines(ToCsv([header] + rows, false), "")| == |rows| + 1
    ensures forall i :: 0 <= i < |rows| ==>
      Parse(SplitLines(ToCsv([header] + rows, false), "")[i + 1]) == WithContent([rows[i]])
  {
    var all := [header] + rows;
    assert forall i :: 0 <= i < |all| ==> OneLineRow(all[i]);
    OneLineRowsSplit(all);
    assert forall i :: 0 <= i < |rows| ==> all[i + 1] == rows[i];
  }

  /** The saved text has one line per row, and reading it line by line agrees with reading it as a whole. */
  lemma LineByLineAgrees(entries: seq<Entry>)
    ensures |SplitLines(Saved(entries), "")| == |entries| + 1
    ensures forall i :: 0 <= i < |entries| ==>
      Parse(SplitLines(Saved(entries), "")[i + 1]) == WithContent([CleanRow(Columns(entries[i]))])
  {
    HeaderIsOneLine();
    forall i | 0 <= i < |entries| ensures OneLineRow(SavedRows(entries)[i]) {
      CleanRowIsOneLine(Columns(entries[i]));
    }
    RowsUnderHeader(INDEX_COLUMNS, SavedRows(entries));
  }
}
