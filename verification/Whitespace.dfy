/** Whitespace as JavaScript's `\s` and `trim` see it. */
module Whitespace {

  predicate IsSpace(c: char) {
    || '\t' <= c <= '\r'
    || c in {' ', '\U{A0}', '\U{FEFF}', '\U{1680}', '\U{2028}', '\U{2029}', '\U{202F}', '\U{205F}', '\U{3000}'}
    || '\U{2000}' <= c <= '\U{200A}'
  }

  predicate IsLineBreak(c: char) {
    c == '\n' || c == '\r'
  }

  function TrimStart(s: string): (t: string)
    ensures t == "" || !IsSpace(t[0])
    ensures |t| <= |s| && t == s[|s| - |t|..]
    ensures forall i :: 0 <= i < |s| - |t| ==> IsSpace(s[i])
  {
    if s == "" || !IsSpace(s[0]) then s else TrimStart(s[1..])
  }

  function TrimEnd(s: string): (t: string)
    ensures t == "" || !IsSpace(t[|t| - 1])
    ensures |t| <= |s| && t == s[..|t|]
    ensures forall i :: |t| <= i < |s| ==> IsSpace(s[i])
  {
    if s == "" || !IsSpace(s[|s| - 1]) then s else TrimEnd(s[..|s| - 1])
  }

  function Trim(s: string): string {
    TrimEnd(TrimStart(s))
  }

  predicate Trimmed(s: string) {
    s == "" || (!IsSpace(s[0]) && !IsSpace(s[|s| - 1]))
  }

  lemma TrimTrims(s: string)
    ensures Trimmed(Trim(s)) && (forall c :: c in Trim(s) ==> c in s)
    ensures Trimmed(s) ==> Trim(s) == s
  {
  }

  lemma {:induction false} TrimOfPadded(pad: string, s: string)
    requires forall c :: c in pad ==> IsSpace(c)
    ensures TrimStart(pad + s) == TrimStart(s)
  {
    hide IsSpace;
    if pad == "" {
      assert pad + s == s;
    } else {
      assert pad[0] in pad;
      assert (pad + s)[1..] == pad[1..] + s;
      TrimOfPadded(pad[1..], s);
    }
  }
}
