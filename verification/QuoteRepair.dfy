/** Repairing JSON whose strings contain unescaped quotes (lib/json-extract.mjs). */
module QuoteRepair {
  import opened Whitespace

  // ---- the scanner ----

  /** What follows a quote lets it close a string: a separator, a closing bracket or the end of the text. */
  predicate Closes(rest: string) {
    var t := TrimStart(rest);
    t == "" || t[0] in {',', ':', '}', ']'}
  }

  function Repaired(s: string, inString: bool): string
    decreases |s|
  {
    if s == "" then ""
    else if !inString then [s[0]] + Repaired(s[1..], s[0] == '"')
    else if s[0] == '\\' then (if |s| == 1 then s else s[..2] + Repaired(s[2..], true))
    else if s[0] == '"' then
      if Closes(s[1..]) then "\"" + Repaired(s[1..], false) else "\\\"" + Repaired(s[1..], true)
    else [s[0]] + Repaired(s[1..], true)
  }

  lemma {:induction false} TrimStartIs(s: string, n: nat)
    requires n <= |s|
    requires forall i :: 0 <= i < n ==> IsSpace(s[i])
    requires n < |s| ==> !IsSpace(s[n])
    ensures TrimStart(s) == s[n..]
  {
  }

  method LookAhead(source: string, start: nat) returns (closes: bool)
    requires start <= |source|
    ensures closes <==> Closes(source[start..])
  {
    var lookahead := start;
    while lookahead < |source| && IsSpace(source[lookahead])
      invariant start <= lookahead <= |source|
      invariant forall k :: start <= k < lookahead ==> IsSpace(source[k])
    {
      lookahead := lookahead + 1;
    }
    TrimStartIs(source[start..], lookahead - start);
    return lookahead == |source| || source[lookahead] in {',', ':', '}', ']'};
  }

  lemma ScanStep(s: string, inString: bool)
    requires s != ""
    ensures !inString ==> Repaired(s, false) == [s[0]] + Repaired(s[1..], s[0] == '"')
    ensures inString && s[0] == '\\' ==> Repaired(s, true) == if |s| == 1 then s else s[..2] + Repaired(s[2..], true)
    ensures inString && s[0] == '"' && Closes(s[1..]) ==> Repaired(s, true) == "\"" + Repaired(s[1..], false)
    ensures inString && s[0] == '"' && !Closes(s[1..]) ==> Repaired(s, true) == "\\\"" + Repaired(s[1..], true)
    ensures inString && s[0] != '"' && s[0] != '\\' ==> Repaired(s, true) == [s[0]] + Repaired(s[1..], true)
  {
  }

  method RepairUnescapedQuotes(source: string) returns (out: string)
    ensures out == Repaired(source, false)
  {
    hide Repaired, Closes;
    out := "";
    var inString := false;
    var index := 0;
    while index < |source|
      invariant index <= |source|
      invariant out + Repaired(source[index..], inString) == Repaired(source, false)
    {
      var c := source[index];
      ghost var rest := source[index..];
      ScanStep(rest, inString);
      ghost var done, was := out, inString;
      assert rest[1..] == source[index + 1..];
      if !inString {
        inString := c == '"';
        out := out + [c];
        index := index + 1;
      } else if c == '\\' {
        out := out + [c];
        index := index + 1;
        if index < |source| {
          assert rest[..2] == [c, source[index]] && rest[2..] == source[index + 1..];
          out := out + [source[index]];
          index := index + 1;
        } else {
          NothingLeft(source, true);
        }
      } else if c == '"' {
        index := index + 1;
        var closes := LookAhead(source, index);
        if closes {
          inString := false;
          out := out + [c];
        } else {
          out := out + "\\\"";
        }
      } else {
        out := out + [c];
        index := index + 1;
      }
      assert done + Repaired(rest, was) == out + Repaired(source[index..], inString);
    }
    NothingLeft(source, inString);
  }

  lemma NothingLeft(source: string, inString: bool)
    ensures Repaired(source[|source|..], inString) == ""
  {
  }

  // ---- what it does to any text ----

  /** `out` is `s` with backslashes put in, each directly before a quote of `s`. */
  ghost predicate OnlyEscapesAdded(s: string, out: string)
    decreases |out|
  {
    if s == "" || out == "" then s == "" && out == ""
    else
      || (out[0] == s[0] && OnlyEscapesAdded(s[1..], out[1..]))
      || (s[0] == '"' && |out| > 1 && out[..2] == "\\\"" && OnlyEscapesAdded(s[1..], out[2..]))
  }

  lemma {:induction false} RepairOnlyAddsEscapes(s: string, inString: bool)
    ensures OnlyEscapesAdded(s, Repaired(s, inString))
    decreases |s|
  {
    var out := Repaired(s, inString);
    if s == "" {
    } else if !inString {
      RepairOnlyAddsEscapes(s[1..], s[0] == '"');
      assert out[1..] == Repaired(s[1..], s[0] == '"');
    } else if s[0] == '\\' {
      if |s| == 1 {
        assert s[1..] == "" && out[1..] == "";
      } else {
        RepairOnlyAddsEscapes(s[2..], true);
        assert out[1..][1..] == Repaired(s[2..], true) && s[1..][1..] == s[2..];
        assert OnlyEscapesAdded(s[1..], out[1..]);
      }
    } else if s[0] == '"' && !Closes(s[1..]) {
      RepairOnlyAddsEscapes(s[1..], true);
      assert out[2..] == Repaired(s[1..], true);
    } else {
      RepairOnlyAddsEscapes(s[1..], s[0] != '"');
      assert out[1..] == Repaired(s[1..], s[0] != '"');
    }
  }

  /** Outside a string the repair copies everything up to the next quote, so the look-ahead sees the same. */
  lemma {:induction false} ClosesUnchanged(s: string)
    ensures Closes(Repaired(s, false)) <==> Closes(s)
    decreases |s|
  {
    if s != "" && IsSpace(s[0]) {
      ClosesUnchanged(s[1..]);
      assert Repaired(s, false)[1..] == Repaired(s[1..], false);
    }
  }

  /** Repairing twice is repairing once, on every text. */
  lemma {:induction false} RepairIsIdempotent(s: string, inString: bool)
    ensures Repaired(Repaired(s, inString), inString) == Repaired(s, inString)
    decreases |s|
  {
    var out := Repaired(s, inString);
    if s == "" {
    } else if !inString {
      RepairIsIdempotent(s[1..], s[0] == '"');
      assert out[1..] == Repaired(s[1..], s[0] == '"');
    } else if s[0] == '\\' {
      if |s| > 1 {
        RepairIsIdempotent(s[2..], true);
        assert out[2..] == Repaired(s[2..], true) && out[..2] == s[..2];
      }
    } else if s[0] == '"' && !Closes(s[1..]) {
      RepairIsIdempotent(s[1..], true);
      assert out[2..] == Repaired(s[1..], true) && out[..2] == "\\\"";
    } else {
      RepairIsIdempotent(s[1..], s[0] != '"');
      assert out[1..] == Repaired(s[1..], s[0] != '"');
      if s[0] == '"' {
        ClosesUnchanged(s[1..]);
      }
    }
  }

  // ---- JSON texts, and texts whose interior quotes lost their backslash ----

  /** A character of a string body: as itself, escaped, or an escaped quote that lost its backslash. */
  datatype Item = Plain(c: char) | Escaped(c: char) | Stray

  datatype Body = NoItem | Item(item: Item, rest: Body)

  datatype Json =
    | Scalar(text: string)
    | Text(body: Body)
    | Array(items: Items)
    | Object(members: Members)

  /** A value with the insignificant whitespace around it. */
  datatype Value = Value(before: string, json: Json, after: string)

  datatype Items = NoItems(space: string) | LastItem(value: Value) | MoreItems(value: Value, rest: Items)

  datatype Member = Member(before: string, name: Body, between: string, value: Value)

  datatype Members = NoMembers(space: string) | LastMember(member: Member) | MoreMembers(member: Member, rest: Members)

  /** Insignificant whitespace: section 2 of RFC 8259. */
  predicate Blank(s: string) {
    forall c :: c in s ==> c in {' ', '\t', '\n', '\r'}
  }

  /** Section 7 of RFC 8259, for one character of a body. */
  predicate WellFormedItem(i: Item) {
    match i
    case Plain(c) => c != '"' && c != '\\' && c >= ' '
    case Escaped(c) => c in {'"', '\\', '/', 'b', 'f', 'n', 'r', 't', 'u'}
    case Stray => true
  }

  predicate WellFormedBody(b: Body) {
    b.NoItem? || (WellFormedItem(b.item) && WellFormedBody(b.rest))
  }

  predicate WellFormed(v: Value) {
    && Blank(v.before) && Blank(v.after)
    && match v.json
       case Scalar(text) => '"' !in text
       case Text(body) => WellFormedBody(body)
       case Array(items) => WellFormedItems(items)
       case Object(members) => WellFormedMembers(members)
  }

  predicate WellFormedItems(items: Items) {
    match items
    case NoItems(space) => Blank(space)
    case LastItem(v) => WellFormed(v)
    case MoreItems(v, rest) => WellFormed(v) && WellFormedItems(rest)
  }

  predicate WellFormedMember(m: Member) {
    Blank(m.before) && WellFormedBody(m.name) && Blank(m.between) && WellFormed(m.value)
  }

  predicate WellFormedMembers(members: Members) {
    match members
    case NoMembers(space) => Blank(space)
    case LastMember(m) => WellFormedMember(m)
    case MoreMembers(m, rest) => WellFormedMember(m) && WellFormedMembers(rest)
  }

  function ItemText(i: Item, damaged: bool): string {
    match i
    case Plain(c) => [c]
    case Escaped(c) => ['\\', c]
    case Stray => if damaged then "\"" else "\\\""
  }

  function BodyText(b: Body, damaged: bool): string {
    if b.NoItem? then "" else ItemText(b.item, damaged) + BodyText(b.rest, damaged)
  }

  function Quoted(b: Body, damaged: bool): string {
    "\"" + BodyText(b, damaged) + "\""
  }

  function JsonText(j: Json, damaged: bool): string {
    match j
    case Scalar(text) => text
    case Text(body) => Quoted(body, damaged)
    case Array(items) => "[" + ItemsText(items, damaged) + "]"
    case Object(members) => "{" + MembersText(members, damaged) + "}"
  }

  function ValueText(v: Value, damaged: bool): string {
    v.before + JsonText(v.json, damaged) + v.after
  }

  function ItemsText(items: Items, damaged: bool): string {
    match items
    case NoItems(space) => space
    case LastItem(v) => ValueText(v, damaged)
    case MoreItems(v, rest) => ValueText(v, damaged) + "," + ItemsText(rest, damaged)
  }

  function MemberText(m: Member, damaged: bool): string {
    m.before + Quoted(m.name, damaged) + m.between + ":" + ValueText(m.value, damaged)
  }

  function MembersText(members: Members, damaged: bool): string {
    match members
    case NoMembers(space) => space
    case LastMember(m) => MemberText(m, damaged)
    case MoreMembers(m, rest) => MemberText(m, damaged) + "," + MembersText(rest, damaged)
  }

  /** No stray quote is followed, inside its own string, by something that would let it close the string. */
  predicate Recognizable(b: Body) {
    b.NoItem? || ((b.item.Stray? ==> !Closes(BodyText(b.rest, true) + "\"")) && Recognizable(b.rest))
  }

  predicate RecognizableValue(v: Value) {
    match v.json
    case Scalar(_) => true
    case Text(body) => Recognizable(body)
    case Array(items) => RecognizableItems(items)
    case Object(members) => RecognizableMembers(members)
  }

  predicate RecognizableItems(items: Items) {
    match items
    case NoItems(_) => true
    case LastItem(v) => RecognizableValue(v)
    case MoreItems(v, rest) => RecognizableValue(v) && RecognizableItems(rest)
  }

  predicate RecognizableMember(m: Member) {
    Recognizable(m.name) && RecognizableValue(m.value)
  }

  predicate RecognizableMembers(members: Members) {
    match members
    case NoMembers(_) => true
    case LastMember(m) => RecognizableMember(m)
    case MoreMembers(m, rest) => RecognizableMember(m) && RecognizableMembers(rest)
  }

  /**
   * What repairing `whole` from `inString` must give when a piece whose undamaged text is `original` comes first:
   * exactly that text, then `after`; or, when the piece is not recognizable, something that departs from it.
   */
  ghost predicate Restores(whole: string, inString: bool, original: string, after: string, good: bool) {
    if good then Repaired(whole, inString) == original + after
    else !(original <= Repaired(whole, inString))
  }

  // ---- strings ----

  lemma ClosesBeyond(s: string, rest: string)
    ensures Closes(s + ("\"" + rest)) <==> Closes(s + "\"")
  {
    FirstVisible(s, "\"" + rest);
    FirstVisible(s, "\"");
  }

  /** The look-ahead from inside a string stops at the closing quote at the latest. */
  lemma {:induction false} FirstVisible(s: string, t: string)
    requires t != "" && !IsSpace(t[0])
    ensures TrimStart(s + t) != ""
    ensures TrimStart(s + t)[0] == if TrimStart(s) == "" then t[0] else TrimStart(s)[0]
  {
    if s == "" {
      assert s + t == t;
    } else {
      assert (s + t)[1..] == s[1..] + t;
      if IsSpace(s[0]) {
        FirstVisible(s[1..], t);
      }
    }
  }

  lemma PrefixStep(a: string, b: string, c: string)
    ensures a + b <= a + c <==> b <= c
  {
    if b <= c {
      assert a + c == a + b + c[|b|..];
    }
    if a + b <= a + c {
      assert forall i :: 0 <= i < |b| ==> b[i] == (a + b)[|a| + i] && c[i] == (a + c)[|a| + i];
    }
  }

  /** One character of a body in front of a tail that is already understood. */
  lemma ItemThen(i: Item, tail: string, original: string, after: string, good: bool)
    requires WellFormedItem(i) && Restores(tail, true, original, after, good)
    ensures Restores(ItemText(i, true) + tail, true, ItemText(i, false) + original, after,
                     good && (i.Stray? ==> !Closes(tail)))
  {
    hide Repaired, Closes;
    ItemRestores(i, tail);
    var kept := ItemText(i, false);
    if i.Stray? && Closes(tail) {
      assert (kept + original)[0] == '\\' && Repaired(ItemText(i, true) + tail, true)[0] == '"';
    } else {
      PrefixStep(kept, original, Repaired(tail, true));
      assert kept + original + after == kept + (original + after);
    }
  }

  lemma {:induction false} BodyRestores(b: Body, rest: string)
    requires WellFormedBody(b) && Closes(rest)
    ensures Restores(BodyText(b, true) + ("\"" + rest), true, BodyText(b, false) + "\"", Repaired(rest, false),
                     Recognizable(b))
    decreases b
  {
    hide Closes;
    if b.NoItem? {
      assert "" + ("\"" + rest) == "\"" + rest && ("\"" + rest)[1..] == rest;
    } else {
      hide Repaired;
      var tail := BodyText(b.rest, true) + ("\"" + rest);
      BodyRestores(b.rest, rest);
      ClosesBeyond(BodyText(b.rest, true), rest);
      ItemThen(b.item, tail, BodyText(b.rest, false) + "\"", Repaired(rest, false), Recognizable(b.rest));
      assert BodyText(b, true) + ("\"" + rest) == ItemText(b.item, true) + tail;
      assert BodyText(b, false) + "\"" == ItemText(b.item, false) + (BodyText(b.rest, false) + "\"");
    }
  }

  lemma ItemRestores(i: Item, tail: string)
    requires WellFormedItem(i)
    ensures !i.Stray? || !Closes(tail) ==>
      Repaired(ItemText(i, true) + tail, true) == ItemText(i, false) + Repaired(tail, true)
    ensures i.Stray? && Closes(tail) ==>
      Repaired(ItemText(i, true) + tail, true) == "\"" + Repaired(tail, false)
  {
  }

  lemma OpenQuote(inner: string, original: string, after: string, good: bool)
    requires Restores(inner, true, original, after, good)
    ensures Restores("\"" + inner, false, "\"" + original, after, good)
  {
    assert ("\"" + inner)[1..] == inner;
    PrefixStep("\"", original, Repaired(inner, true));
    assert "\"" + original + after == "\"" + (original + after);
  }

  lemma QuotedRestores(b: Body, rest: string)
    requires WellFormedBody(b) && Closes(rest)
    ensures Restores(Quoted(b, true) + rest, false, Quoted(b, false), Repaired(rest, false), Recognizable(b))
  {
    hide Repaired, BodyText;
    var inner := BodyText(b, true) + ("\"" + rest);
    BodyRestores(b, rest);
    OpenQuote(inner, BodyText(b, false) + "\"", Repaired(rest, false), Recognizable(b));
    assert Quoted(b, true) + rest == "\"" + inner;
    assert Quoted(b, false) == "\"" + (BodyText(b, false) + "\"");
  }

  // ---- outside strings ----

  lemma {:induction false} QuotelessCopied(s: string, rest: string)
    requires '"' !in s
    ensures Repaired(s + rest, false) == s + Repaired(rest, false)
  {
    if s == "" {
      assert s + rest == rest;
    } else {
      assert s[0] in s && (s + rest)[1..] == s[1..] + rest;
      assert '"' !in s[1..];
      QuotelessCopied(s[1..], rest);
    }
  }

  lemma {:induction false} BlankBeforeCloses(s: string, rest: string)
    requires Blank(s)
    ensures Closes(s + rest) <==> Closes(rest)
    ensures '"' !in s
  {
    assert forall c :: c in s ==> IsSpace(c);
    TrimOfPadded(s, rest);
  }

  /** Two pieces in a row: the second restores whatever follows it, the first hands over to the second. */
  lemma Chain(a: string, aOriginal: string, b: string, bOriginal: string, after: string, goodA: bool, goodB: bool)
    requires Restores(a + b, false, aOriginal, Repaired(b, false), goodA)
    requires Restores(b, false, bOriginal, after, goodB)
    ensures Restores(a + b, false, aOriginal + bOriginal, after, goodA && goodB)
  {
    if goodA {
      PrefixStep(aOriginal, bOriginal, Repaired(b, false));
      assert aOriginal + (bOriginal + after) == aOriginal + bOriginal + after;
    } else {
      LongerIsNoPrefix(aOriginal, bOriginal, Repaired(a + b, false));
    }
  }

  lemma LongerIsNoPrefix(a: string, b: string, s: string)
    requires !(a <= s)
    ensures !(a + b <= s)
  {
  }

  lemma Copied(s: string, rest: string)
    requires '"' !in s
    ensures Restores(s + rest, false, s, Repaired(rest, false), true)
  {
    QuotelessCopied(s, rest);
  }

  lemma {:induction false} ValueRestores(v: Value, rest: string)
    requires WellFormed(v) && Closes(rest)
    ensures Restores(ValueText(v, true) + rest, false, ValueText(v, false), Repaired(rest, false), RecognizableValue(v))
    decreases v, 1
  {
    hide Repaired;
    hide JsonText;
    BlankBeforeCloses(v.after, rest);
    BlankBeforeCloses(v.before, "");
    JsonRestores(v.json, v.after + rest, v);
    Bracketed(v.before, v.after, JsonText(v.json, true), JsonText(v.json, false), rest, RecognizableValue(v));
  }

  lemma {:induction false} JsonRestores(j: Json, rest: string, v: Value)
    requires v.json == j && WellFormed(v) && Closes(rest)
    ensures Restores(JsonText(j, true) + rest, false, JsonText(j, false), Repaired(rest, false), RecognizableValue(v))
    decreases v, 0
  {
    match j
    case Scalar(text) => Copied(text, rest);
    case Text(body) => QuotedRestores(body, rest);
    case Array(items) =>
      ItemsRestore(items, "]" + rest);
      Bracketed("[", "]", ItemsText(items, true), ItemsText(items, false), rest, RecognizableItems(items));
    case Object(members) =>
      MembersRestore(members, "}" + rest);
      Bracketed("{", "}", MembersText(members, true), MembersText(members, false), rest, RecognizableMembers(members));
  }

  lemma Bracketed(open: string, close: string, inner: string, original: string, rest: string, good: bool)
    requires '"' !in open && '"' !in close
    requires Restores(inner + (close + rest), false, original, Repaired(close + rest, false), good)
    ensures Restores(open + inner + close + rest, false, open + original + close, Repaired(rest, false), good)
  {
    Copied(close, rest);
    Chain(inner, original, close + rest, close, Repaired(rest, false), good, true);
    var tail := inner + (close + rest);
    Copied(open, tail);
    Chain(open, open, tail, original + close, Repaired(rest, false), true, good);
    assert open + inner + close + rest == open + tail;
    assert open + original + close == open + (original + close);
  }

  lemma {:induction false} ItemsRestore(items: Items, rest: string)
    requires WellFormedItems(items) && Closes(rest)
    ensures Restores(ItemsText(items, true) + rest, false, ItemsText(items, false), Repaired(rest, false),
                     RecognizableItems(items))
    decreases items
  {
    match items
    case NoItems(space) =>
      BlankBeforeCloses(space, rest);
      Copied(space, rest);
    case LastItem(v) => ValueRestores(v, rest);
    case MoreItems(v, more) =>
      ItemsRestore(more, rest);
      Separated(",", ItemsText(more, true), ItemsText(more, false), rest, RecognizableItems(more));
      ValueRestores(v, "," + (ItemsText(more, true) + rest));
      Joined(ValueText(v, true), ValueText(v, false), ",", ItemsText(more, true), ItemsText(more, false), rest,
             RecognizableValue(v), RecognizableItems(more));
  }

  lemma Separated(sep: string, b: string, bOriginal: string, rest: string, good: bool)
    requires '"' !in sep
    requires Restores(b + rest, false, bOriginal, Repaired(rest, false), good)
    ensures Restores(sep + (b + rest), false, sep + bOriginal, Repaired(rest, false), good)
  {
    Copied(sep, b + rest);
    Chain(sep, sep, b + rest, bOriginal, Repaired(rest, false), true, good);
  }

  lemma Joined(a: string, aOriginal: string, sep: string, b: string, bOriginal: string, rest: string,
               goodA: bool, goodB: bool)
    requires Restores(a + (sep + (b + rest)), false, aOriginal, Repaired(sep + (b + rest), false), goodA)
    requires Restores(sep + (b + rest), false, sep + bOriginal, Repaired(rest, false), goodB)
    ensures Restores(a + sep + b + rest, false, aOriginal + sep + bOriginal, Repaired(rest, false), goodA && goodB)
  {
    Chain(a, aOriginal, sep + (b + rest), sep + bOriginal, Repaired(rest, false), goodA, goodB);
    assert a + sep + b + rest == a + (sep + (b + rest));
    assert aOriginal + sep + bOriginal == aOriginal + (sep + bOriginal);
  }

  lemma {:induction false} MemberRestores(m: Member, rest: string)
    requires WellFormedMember(m) && Closes(rest)
    ensures Restores(MemberText(m, true) + rest, false, MemberText(m, false), Repaired(rest, false), RecognizableMember(m))
    decreases m
  {
    ValueRestores(m.value, rest);
    NamedRestores(m.before, m.name, m.between, ValueText(m.value, true), ValueText(m.value, false), rest,
                  RecognizableValue(m.value));
  }

  lemma ColonCloses(s: string)
    ensures Closes(":" + s)
  {
  }

  lemma NameThenValue(name: Body, between: string, value: string, original: string, rest: string, good: bool)
    requires Blank(between) && WellFormedBody(name)
    requires Restores(value + rest, false, original, Repaired(rest, false), good)
    ensures Restores(Quoted(name, true) + (between + ":") + value + rest, false,
                     Quoted(name, false) + (between + ":") + original, Repaired(rest, false), Recognizable(name) && good)
  {
    hide Repaired, Quoted, Closes;
    var sep := between + ":";
    BlankBeforeCloses(between, ":" + (value + rest));
    ColonCloses(value + rest);
    assert sep + (value + rest) == between + (":" + (value + rest));
    QuotedRestores(name, sep + (value + rest));
    Separated(sep, value, original, rest, good);
    Joined(Quoted(name, true), Quoted(name, false), sep, value, original, rest, Recognizable(name), good);
  }

  lemma NamedRestores(before: string, name: Body, between: string, value: string, original: string, rest: string,
                      good: bool)
    requires Blank(before) && Blank(between) && WellFormedBody(name)
    requires Restores(value + rest, false, original, Repaired(rest, false), good)
    ensures Restores(before + Quoted(name, true) + between + ":" + value + rest, false,
                     before + Quoted(name, false) + between + ":" + original, Repaired(rest, false),
                     Recognizable(name) && good)
  {
    hide Repaired, Quoted, Closes;
    NameThenValue(name, between, value, original, rest, good);
    BlankBeforeCloses(before, "");
    Prepended(before, Quoted(name, true), Quoted(name, false), between, value, original, rest, Recognizable(name) && good);
  }

  lemma Prepended(before: string, name: string, intact: string, between: string, value: string, original: string,
                  rest: string, good: bool)
    requires '"' !in before
    requires Restores(name + (between + ":") + value + rest, false, intact + (between + ":") + original,
                      Repaired(rest, false), good)
    ensures Restores(before + name + between + ":" + value + rest, false, before + intact + between + ":" + original,
                     Repaired(rest, false), good)
  {
    hide Repaired;
    Regroup(before, name, between, value, rest);
    Regroup(before, intact, between, original, "");
    var tail, whole := name + (between + ":") + value, intact + (between + ":") + original;
    assert whole + "" == whole;
    Separated(before, tail, whole, rest, good);
  }

  lemma Regroup(a: string, b: string, c: string, d: string, e: string)
    ensures a + b + c + ":" + d + e == a + ((b + (c + ":") + d) + e)
  {
  }

  lemma {:induction false} MembersRestore(members: Members, rest: string)
    requires WellFormedMembers(members) && Closes(rest)
    ensures Restores(MembersText(members, true) + rest, false, MembersText(members, false), Repaired(rest, false),
                     RecognizableMembers(members))
    decreases members
  {
    match members
    case NoMembers(space) =>
      BlankBeforeCloses(space, rest);
      Copied(space, rest);
    case LastMember(m) => MemberRestores(m, rest);
    case MoreMembers(m, more) =>
      MembersRestore(more, rest);
      Separated(",", MembersText(more, true), MembersText(more, false), rest, RecognizableMembers(more));
      MemberRestores(m, "," + (MembersText(more, true) + rest));
      Joined(MemberText(m, true), MemberText(m, false), ",", MembersText(more, true), MembersText(more, false), rest,
             RecognizableMember(m), RecognizableMembers(more));
  }

  /**
   * MAIN: take any JSON text and un-escape any of its interior quotes. The repair gives back the original text
   * exactly iff no such quote is followed, in its own string, by a separator or closing bracket.
   */
  lemma RepairInvertsDamage(v: Value)
    requires WellFormed(v)
    ensures Repaired(ValueText(v, true), false) == ValueText(v, false) <==> RecognizableValue(v)
  {
    hide Repaired, ValueText, Closes;
    EndCloses();
    ValueRestores(v, "");
    WholeText(ValueText(v, true), ValueText(v, false), RecognizableValue(v));
  }

  lemma EndCloses()
    ensures Closes("")
  {
  }

  lemma WholeText(damaged: string, original: string, good: bool)
    requires Restores(damaged + "", false, original, Repaired("", false), good)
    ensures Repaired(damaged, false) == original <==> good
  {
    assert damaged + "" == damaged && original + "" == original;
    assert Repaired("", false) == "";
  }

  // ---- undamaged texts ----

  predicate IntactBody(b: Body) {
    b.NoItem? || (!b.item.Stray? && IntactBody(b.rest))
  }

  predicate Intact(v: Value) {
    match v.json
    case Scalar(_) => true
    case Text(body) => IntactBody(body)
    case Array(items) => IntactItems(items)
    case Object(members) => IntactMembers(members)
  }

  predicate IntactItems(items: Items) {
    match items
    case NoItems(_) => true
    case LastItem(v) => Intact(v)
    case MoreItems(v, rest) => Intact(v) && IntactItems(rest)
  }

  predicate IntactMembers(members: Members) {
    match members
    case NoMembers(_) => true
    case LastMember(m) => IntactBody(m.name) && Intact(m.value)
    case MoreMembers(m, rest) => IntactBody(m.name) && Intact(m.value) && IntactMembers(rest)
  }

  lemma {:induction false} IntactBodySame(b: Body)
    requires IntactBody(b)
    ensures BodyText(b, true) == BodyText(b, false) && Recognizable(b)
  {
    if !b.NoItem? {
      IntactBodySame(b.rest);
    }
  }

  lemma {:induction false} IntactSame(v: Value)
    requires Intact(v)
    ensures ValueText(v, true) == ValueText(v, false) && RecognizableValue(v)
    decreases v
  {
    match v.json
    case Scalar(_) =>
    case Text(body) => IntactBodySame(body);
    case Array(items) => IntactItemsSame(items);
    case Object(members) => IntactMembersSame(members);
  }

  lemma {:induction false} IntactItemsSame(items: Items)
    requires IntactItems(items)
    ensures ItemsText(items, true) == ItemsText(items, false) && RecognizableItems(items)
    decreases items
  {
    match items
    case NoItems(_) =>
    case LastItem(v) => IntactSame(v);
    case MoreItems(v, rest) =>
      IntactSame(v);
      IntactItemsSame(rest);
  }

  lemma {:induction false} IntactMembersSame(members: Members)
    requires IntactMembers(members)
    ensures MembersText(members, true) == MembersText(members, false) && RecognizableMembers(members)
    decreases members
  {
    match members
    case NoMembers(_) =>
    case LastMember(m) =>
      IntactBodySame(m.name);
      IntactSame(m.value);
    case MoreMembers(m, rest) =>
      IntactBodySame(m.name);
      IntactSame(m.value);
      IntactMembersSame(rest);
  }

  /** On every text of the grammar of RFC 8259 the repair is the identity. */
  lemma RepairKeepsJson(v: Value)
    requires WellFormed(v) && Intact(v)
    ensures Repaired(ValueText(v, false), false) == ValueText(v, false)
  {
    IntactSame(v);
    RepairInvertsDamage(v);
  }
}
