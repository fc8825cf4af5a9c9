/**
 * The HTML-comment metadata block at the top of a story file: writer (lib/story-files.mjs) and reader
 * (lib/text.mjs).
 */
module Metadata {
  import opened Common
  import opened Whitespace
  import opened Csv

  datatype Field = Field(key: string, value: string)

  // ---- writing ----

  /** Puts a space between any two adjacent hyphens. */
  function Loosened(s: string): string {
    if s == "" then ""
    else if |s| > 1 && s[0] == '-' && s[1] == '-' then "- " + Loosened(s[1..])
    else [s[0]] + Loosened(s[1..])
  }

  function Sanitized(value: string): string {
    Trim(Flattened(Loosened(value)))
  }

  function LineOf(f: Field): string {
    f.key + ": " + Sanitized(f.value)
  }

  function LinesText(fields: seq<Field>): string {
    if fields == [] then "" else LineOf(fields[0]) + "\n" + LinesText(fields[1..])
  }

  function Block(fields: seq<Field>): string {
    "<!--\n" + LinesText(fields) + "-->\n\n"
  }

  function JoinLines(lines: seq<string>): string {
    if lines == [] then "" else if |lines| == 1 then lines[0] else lines[0] + "\n" + JoinLines(lines[1..])
  }

  function LineSeq(fields: seq<Field>): seq<string> {
    seq(|fields|, i requires 0 <= i < |fields| => LineOf(fields[i]))
  }

  method BuildMetadataBlock(fields: seq<Field>) returns (text: string)
    ensures text == Block(fields)
  {
    hide LineOf, LinesText, JoinLines;
    var lines := ["<!--"];
    for i := 0 to |fields|
      invariant lines == ["<!--"] + LineSeq(fields)[..i]
    {
      lines := lines + [LineOf(fields[i])];
    }
    assert LineSeq(fields)[..|fields|] == LineSeq(fields);
    lines := lines + ["-->", "", ""];
    text := JoinLines(lines);
    var tail := LineSeq(fields) + ["-->", "", ""];
    assert lines == ["<!--"] + tail;
    JoinFirst("<!--", tail);
    JoinedBlock(fields);
  }

  lemma JoinFirst(line: string, rest: seq<string>)
    requires rest != []
    ensures JoinLines([line] + rest) == line + "\n" + JoinLines(rest)
  {
  }

  lemma {:induction false} JoinedBlock(fields: seq<Field>)
    ensures JoinLines(LineSeq(fields) + ["-->", "", ""]) == LinesText(fields) + "-->\n\n"
  {
    hide LineOf;
    if fields == [] {
      JoinFirst("-->", ["", ""]);
      JoinFirst("", [""]);
      assert LineSeq(fields) + ["-->", "", ""] == ["-->"] + ["", ""] && ["", ""] == [""] + [""];
    } else {
      var tail := LineSeq(fields[1..]) + ["-->", "", ""];
      JoinedBlock(fields[1..]);
      JoinFirst(LineOf(fields[0]), tail);
      assert LineSeq(fields) + ["-->", "", ""] == [LineOf(fields[0])] + tail;
    }
  }

  // ---- reading ----

  function StripBom(s: string): string {
    if s != "" && s[0] == '\U{FEFF}' then s[1..] else s
  }

  predicate StartsWith(s: string, prefix: string) {
    prefix <= s
  }

  datatype Comment = Comment(inside: string, after: string)

  /** Up to the first "-->". */
  function UpToClose(s: string): Option<Comment> {
    if StartsWith(s, "-->") then Some(Comment("", s[3..]))
    else if s == "" then None
    else
      match UpToClose(s[1..])
      case None => None
      case Some(c) => Some(Comment([s[0]] + c.inside, c.after))
  }

  /** A comment at the very start of the text, after an optional byte order mark and whitespace. */
  function Opening(markdown: string): Option<Comment> {
    var s := TrimStart(StripBom(markdown));
    if StartsWith(s, "<!--") then UpToClose(s[4..]) else None
  }

  function StripMetadata(markdown: string): string {
    match Opening(markdown)
    case None => StripBom(markdown)
    case Some(c) => TrimStart(c.after)
  }

  /** Lines end at LF, with an optional CR before it. */
  function Lines(s: string, line: string): seq<string>
    decreases |s|
  {
    if s == "" then [line]
    else if s[0] == '\n' then [line] + Lines(s[1..], "")
    else if s[0] == '\r' && |s| > 1 && s[1] == '\n' then [line] + Lines(s[2..], "")
    else Lines(s[1..], line + [s[0]])
  }

  predicate IsLetter(c: char) {
    'A' <= c <= 'Z' || 'a' <= c <= 'z'
  }

  predicate IsKeyChar(c: char) {
    IsLetter(c) || IsDigit(c) || c == '_' || c == '-'
  }

  predicate IsKey(s: string) {
    s != "" && IsLetter(s[0]) && forall i :: 0 <= i < |s| ==> IsKeyChar(s[i])
  }

  function KeyLength(s: string): (n: nat)
    ensures n <= |s|
  {
    if s == "" || !IsKeyChar(s[0]) then 0 else 1 + KeyLength(s[1..])
  }

  /** What the reader's dot does not match: it stops at any line terminator, two of which are not CR or LF. */
  predicate HasTerminator(s: string) {
    exists c :: c in s && c in {'\n', '\r', '\U{2028}', '\U{2029}'}
  }

  function ReadLine(line: string): Option<Field> {
    var s := TrimStart(line);
    var n := KeyLength(s);
    if n == 0 || !IsLetter(s[0]) || n == |s| || s[n] != ':' then None
    else
      var value := TrimStart(s[n + 1..]);
      if HasTerminator(value) then None else Some(Field(s[..n], Trim(value)))
  }

  function Collected(lines: seq<string>, found: map<string, string>): map<string, string> {
    if lines == [] then found
    else
      match ReadLine(lines[0])
      case None => Collected(lines[1..], found)
      case Some(f) => Collected(lines[1..], found[f.key := f.value])
  }

  function Parsed(markdown: string): map<string, string> {
    match Opening(markdown)
    case None => map[]
    case Some(c) => Collected(Lines(c.inside, ""), map[])
  }

  method ParseMetadata(markdown: string) returns (metadata: map<string, string>)
    ensures metadata == Parsed(markdown)
  {
    metadata := map[];
    var opening := Opening(markdown);
    if opening.None? {
      return;
    }
    var lines := Lines(opening.value.inside, "");
    for i := 0 to |lines|
      invariant Collected(lines[i..], metadata) == Collected(lines, map[])
    {
      assert lines[i..][1..] == lines[i + 1..];
      var pair := ReadLine(lines[i]);
      if pair.Some? {
        metadata := metadata[pair.value.key := pair.value.value];
      }
    }
  }

  // ---- sanitized values cannot leave the comment ----

  ghost predicate NoDigraph(s: string) {
    forall i :: 0 < i < |s| ==> !(s[i - 1] == '-' && s[i] == '-')
  }

  lemma {:induction false} LoosenedHasNoDigraph(s: string)
    ensures NoDigraph(Loosened(s))
    ensures s != "" ==> Loosened(s) != "" && Loosened(s)[0] == s[0]
  {
    if s != "" {
      LoosenedHasNoDigraph(s[1..]);
    }
  }

  lemma {:induction false} FlattenedKeepsNoDigraph(s: string)
    requires NoDigraph(s)
    ensures NoDigraph(Flattened(s))
    ensures Flattened(s) != "" ==> Flattened(s)[0] == ' ' || (s != "" && Flattened(s)[0] == s[0])
    decreases |s|
  {
    if s != "" {
      var rest := if IsLineBreak(s[0]) then SkipBreaks(s[1..]) else s[1..];
      SkipBreaksIsSuffix(s[1..]);
      NoDigraphSuffix(s, |s| - |rest|);
      FlattenedKeepsNoDigraph(rest);
    }
  }

  lemma {:induction false} SkipBreaksIsSuffix(s: string)
    ensures SkipBreaks(s) == s[|s| - |SkipBreaks(s)|..]
  {
    if s != "" && IsLineBreak(s[0]) {
      SkipBreaksIsSuffix(s[1..]);
    }
  }

  lemma NoDigraphSuffix(s: string, i: nat)
    requires NoDigraph(s) && i <= |s|
    ensures NoDigraph(s[i..])
  {
  }

  lemma TrimKeepsNoDigraph(s: string)
    requires NoDigraph(s)
    ensures NoDigraph(Trim(s))
  {
  }

  /** A sanitized value is on one line, trimmed, and holds no two adjacent hyphens, so it cannot end the comment. */
  lemma SanitizedIsSafe(value: string)
    ensures OneLine(Sanitized(value)) && Trimmed(Sanitized(value)) && NoDigraph(Sanitized(value))
  {
    LoosenedHasNoDigraph(value);
    FlattenedKeepsNoDigraph(Loosened(value));
    FlattenedIsOneLine(Loosened(value));
    TrimTrims(Flattened(Loosened(value)));
    TrimKeepsNoDigraph(Flattened(Loosened(value)));
  }

  lemma {:induction false} LoosenedIdentity(s: string)
    requires NoDigraph(s)
    ensures Loosened(s) == s
  {
    if s != "" {
      NoDigraphSuffix(s, 1);
      LoosenedIdentity(s[1..]);
      assert |s| > 1 ==> !(s[1 - 1] == '-' && s[1] == '-');
    }
  }

  /** Values that are already safe are written unchanged; sanitizing is idempotent. */
  lemma SanitizedIdentity(value: string)
    ensures OneLine(value) && Trimmed(value) && NoDigraph(value) ==> Sanitized(value) == value
    ensures Sanitized(Sanitized(value)) == Sanitized(value)
  {
    SanitizedIsSafe(value);
    forall v | v in {value, Sanitized(value)} && OneLine(v) && Trimmed(v) && NoDigraph(v) ensures Sanitized(v) == v {
      LoosenedIdentity(v);
      FlattenedIsOneLine(v);
      TrimTrims(v);
    }
  }

  // ---- reading back what was written ----

  ghost predicate NoClose(s: string) {
    forall i :: 0 <= i < |s| - 2 ==> !(s[i] == '-' && s[i + 1] == '-' && s[i + 2] == '>')
  }

  lemma NotClosedYet(s: string, rest: string)
    requires NoClose(s) && s != "" && s[|s| - 1] == '\n'
    ensures !StartsWith(s + rest, "-->")
  {
    var text := s + rest;
    assert text[0] == s[0] && text[|s| - 1] == s[|s| - 1];
    if |s| > 2 {
      assert text[1] == s[1] && text[2] == s[2];
    }
  }

  lemma NoCloseTail(s: string)
    requires NoClose(s) && s != ""
    ensures NoClose(s[1..])
  {
    assert forall i :: 0 <= i < |s[1..]| ==> s[1..][i] == s[i + 1];
  }

  lemma {:induction false} ClosesAtEnd(s: string, rest: string)
    requires NoClose(s) && (s != "" ==> s[|s| - 1] == '\n')
    ensures UpToClose(s + ("-->" + rest)) == Some(Comment(s, rest))
  {
    hide NoClose;
    if s == "" {
      assert s + ("-->" + rest) == "-->" + rest && ("-->" + rest)[3..] == rest;
    } else {
      NotClosedYet(s, "-->" + rest);
      assert (s + ("-->" + rest))[1..] == s[1..] + ("-->" + rest);
      NoCloseTail(s);
      ClosesAtEnd(s[1..], rest);
      assert [s[0]] + s[1..] == s;
    }
  }

  lemma LineHasNoClose(key: string, value: string)
    requires IsKey(key) && NoDigraph(value)
    ensures NoClose(key + ": " + value + "\n")
  {
  }

  lemma NoCloseJoins(a: string, b: string)
    requires NoClose(a) && NoClose(b) && a != "" && a[|a| - 1] == '\n'
    ensures NoClose(a + b)
  {
  }

  ghost predicate GoodKeys(fields: seq<Field>) {
    forall i :: 0 <= i < |fields| ==> IsKey(fields[i].key)
  }

  lemma {:induction false} LinesHaveNoClose(fields: seq<Field>)
    requires GoodKeys(fields)
    ensures NoClose(LinesText(fields))
    ensures fields != [] ==> LinesText(fields) != "" && LinesText(fields)[|LinesText(fields)| - 1] == '\n'
  {
    hide NoClose, Sanitized, IsKey;
    if fields == [] {
      EmptyHasNoClose();
    } else {
      var line := LineOf(fields[0]) + "\n";
      SanitizedIsSafe(fields[0].value);
      LineHasNoClose(fields[0].key, Sanitized(fields[0].value));
      LinesHaveNoClose(fields[1..]);
      NoCloseJoins(line, LinesText(fields[1..]));
      assert LinesText(fields) == line + LinesText(fields[1..]);
    }
  }

  lemma EmptyHasNoClose()
    ensures NoClose("") && NoClose("\n")
  {
  }

  lemma CommentOpens(inside: string, after: string)
    requires NoClose(inside) && inside != "" && inside[|inside| - 1] == '\n'
    ensures Opening("<!--" + (inside + ("-->" + after))) == Some(Comment(inside, after))
  {
    var text := "<!--" + (inside + ("-->" + after));
    ClosesAtEnd(inside, after);
    assert text[0] == '<' && TrimStart(StripBom(text)) == text;
    assert text[4..] == inside + ("-->" + after);
  }

  lemma BlockOpens(fields: seq<Field>, body: string)
    requires GoodKeys(fields)
    ensures Opening(Block(fields) + body) == Some(Comment("\n" + LinesText(fields), "\n\n" + body))
  {
    hide NoClose, Opening, LinesText, GoodKeys;
    var inside := "\n" + LinesText(fields);
    LinesHaveNoClose(fields);
    EmptyHasNoClose();
    NoCloseJoins("\n", LinesText(fields));
    EndsInBreak(fields);
    CommentOpens(inside, "\n\n" + body);
    assert Block(fields) + body == "<!--" + (inside + ("-->" + ("\n\n" + body)));
  }

  lemma EndsInBreak(fields: seq<Field>)
    requires GoodKeys(fields)
    ensures var inside := "\n" + LinesText(fields); inside[|inside| - 1] == '\n'
  {
    LinesHaveNoClose(fields);
  }

  lemma {:induction false} LineEnds(s: string, rest: string, line: string)
    requires OneLine(s)
    ensures Lines(s + "\n" + rest, line) == [line + s] + Lines(rest, "")
  {
    var text := s + "\n" + rest;
    if s == "" {
      assert text == "\n" + rest && text[1..] == rest && line + s == line;
    } else {
      assert s[0] in s && text[1..] == s[1..] + "\n" + rest;
      LineEnds(s[1..], rest, line + [s[0]]);
      assert line + [s[0]] + s[1..] == line + s;
    }
  }

  /** The reader's dot stops at U+2028 and U+2029, so a value that still holds one is not read back. */
  predicate Shown(f: Field) {
    !HasTerminator(Sanitized(f.value))
  }

  function Folded(fields: seq<Field>, found: map<string, string>): map<string, string>
    decreases |fields|
  {
    if fields == [] then found else Folded(fields[1..], Noted(fields[0], found))
  }

  lemma {:induction false} KeyLengthOf(key: string, rest: string)
    requires forall i :: 0 <= i < |key| ==> IsKeyChar(key[i])
    requires rest != "" && !IsKeyChar(rest[0])
    ensures KeyLength(key + rest) == |key|
  {
    if key == "" {
      assert key + rest == rest;
    } else {
      assert (key + rest)[1..] == key[1..] + rest;
      KeyLengthOf(key[1..], rest);
    }
  }

  lemma PairReads(key: string, value: string)
    requires IsKey(key) && Trimmed(value)
    ensures ReadLine(key + (": " + value)) == if HasTerminator(value) then None else Some(Field(key, value))
  {
    hide HasTerminator;
    var line := key + (": " + value);
    KeyLengthOf(key, ": " + value);
    assert line[0] == key[0] && !IsSpace(line[0]);
    assert line[|key|] == ':' && line[..|key|] == key && line[|key| + 1..] == " " + value;
    TrimOfPadded(" ", value);
    TrimTrims(value);
  }

  lemma LineReadsBack(f: Field)
    requires IsKey(f.key)
    ensures ReadLine(LineOf(f)) == if Shown(f) then Some(Field(f.key, Sanitized(f.value))) else None
    ensures OneLine(LineOf(f))
  {
    hide Sanitized, HasTerminator, ReadLine, Trimmed;
    var value := Sanitized(f.value);
    SanitizedIsSafe(f.value);
    PairReads(f.key, value);
    assert LineOf(f) == f.key + (": " + value);
    forall c | c in LineOf(f) ensures !IsLineBreak(c) {
      assert c in f.key || c in ": " || c in value;
    }
  }

  function Noted(f: Field, found: map<string, string>): map<string, string> {
    if Shown(f) then found[f.key := Sanitized(f.value)] else found
  }

  lemma BlankLineReads()
    ensures ReadLine("") == None && Lines("", "") == [""]
  {
  }

  lemma {:induction false} LinesReadBack(fields: seq<Field>, found: map<string, string>)
    requires GoodKeys(fields)
    ensures Collected(Lines(LinesText(fields), ""), found) == Folded(fields, found)
    decreases |fields|
  {
    hide ReadLine, LineOf, Shown, Sanitized, IsKey;
    BlankLineReads();
    if fields != [] {
      var line, rest := LineOf(fields[0]), LinesText(fields[1..]);
      LineReadsBack(fields[0]);
      LineEnds(line, rest, "");
      assert "" + line == line && LinesText(fields) == line + "\n" + rest;
      var lines := Lines(LinesText(fields), "");
      assert lines[1..] == Lines(rest, "") && lines[0] == line;
      LinesReadBack(fields[1..], Noted(fields[0], found));
    } else {
      assert [""][1..] == [];
    }
  }

  ghost predicate DistinctKeys(fields: seq<Field>) {
    forall i, j :: 0 <= i < j < |fields| ==> fields[i].key != fields[j].key
  }

  /** A key is in the fold iff it was there or one shown field has it; the last such field gives its value. */
  lemma {:induction false} FoldedElsewhere(fields: seq<Field>, found: map<string, string>, key: string)
    requires forall i :: 0 <= i < |fields| ==> fields[i].key != key
    ensures key in Folded(fields, found) <==> key in found
    ensures key in found ==> Folded(fields, found)[key] == found[key]
    decreases |fields|
  {
    hide Shown, Sanitized;
    if fields != [] {
      FoldedElsewhere(fields[1..], Noted(fields[0], found), key);
    }
  }

  lemma {:induction false} FoldedAt(fields: seq<Field>, found: map<string, string>, i: nat)
    requires i < |fields| && DistinctKeys(fields) && fields[i].key !in found
    ensures fields[i].key in Folded(fields, found) <==> Shown(fields[i])
    ensures Shown(fields[i]) ==> Folded(fields, found)[fields[i].key] == Sanitized(fields[i].value)
    decreases |fields|
  {
    hide Shown, Sanitized;
    var next := Noted(fields[0], found);
    if i == 0 {
      FoldedElsewhere(fields[1..], next, fields[0].key);
    } else {
      assert DistinctKeys(fields[1..]) && fields[1..][i - 1] == fields[i] && fields[0].key != fields[i].key;
      FoldedAt(fields[1..], next, i - 1);
    }
  }

  lemma ParsedIsFolded(fields: seq<Field>, body: string)
    requires GoodKeys(fields)
    ensures Parsed(Block(fields) + body) == Folded(fields, map[])
  {
    hide Opening, LinesText, Folded, Block, ReadLine, GoodKeys;
    BlockOpens(fields, body);
    var inside := "\n" + LinesText(fields);
    EmptyLineEnds(LinesText(fields));
    BlankLineReads();
    assert Lines(inside, "")[1..] == Lines(LinesText(fields), "");
    LinesReadBack(fields, map[]);
  }

  lemma EmptyLineEnds(rest: string)
    ensures Lines("\n" + rest, "") == [""] + Lines(rest, "")
  {
  }

  /**
   * MAIN: with distinct keys of the reader's shape, reading a written block gives back exactly the sanitized
   * values that hold no U+2028 or U+2029, and nothing else, whatever body follows; stripping gives the body back
   * without its leading whitespace.
   */
  lemma RoundTrip(fields: seq<Field>, body: string)
    requires GoodKeys(fields) && DistinctKeys(fields)
    ensures forall i :: 0 <= i < |fields| ==> (fields[i].key in Parsed(Block(fields) + body) <==> Shown(fields[i]))
    ensures forall i :: 0 <= i < |fields| && Shown(fields[i]) ==>
      Parsed(Block(fields) + body)[fields[i].key] == Sanitized(fields[i].value)
    ensures forall k :: k in Parsed(Block(fields) + body) ==> exists i :: 0 <= i < |fields| && fields[i].key == k
    ensures StripMetadata(Block(fields) + body) == TrimStart(body)
  {
    hide Parsed, Folded, Block, Opening, Shown, Sanitized, GoodKeys;
    ParsedIsFolded(fields, body);
    forall i | 0 <= i < |fields|
      ensures fields[i].key in Folded(fields, map[]) <==> Shown(fields[i])
      ensures Shown(fields[i]) ==> Folded(fields, map[])[fields[i].key] == Sanitized(fields[i].value)
    {
      FoldedAt(fields, map[], i);
    }
    forall k | k in Folded(fields, map[]) ensures exists i :: 0 <= i < |fields| && fields[i].key == k {
      if forall i :: 0 <= i < |fields| ==> fields[i].key != k {
        FoldedElsewhere(fields, map[], k);
      }
    }
    BlockOpens(fields, body);
    TrimOfPadded("\n\n", body);
  }
}
