/** The few Swift string operations the macro uses, on strings as sequences of Unicode scalars. */
module SwiftText {

  /**
   * Membership in Foundation's `CharacterSet.whitespacesAndNewlines`:
   * tab, the general category Z (Zs, Zl, Zp), U+000A through U+000D and U+0085.
   */
  predicate IsWhitespaceOrNewline(c: char) {
    c == '\t' || ('\n' <= c <= '\r') || c == '\U{0085}'
    || c == ' ' || c == '\U{00A0}' || c == '\U{1680}' || ('\U{2000}' <= c <= '\U{200A}')
    || c == '\U{2028}' || c == '\U{2029}' || c == '\U{202F}' || c == '\U{205F}' || c == '\U{3000}'
  }

  /** The length of the whitespace run at the start of `s`. */
  function LeadingSpace(s: string): (n: nat)
    ensures n <= |s|
  {
    if s == [] || !IsWhitespaceOrNewline(s[0]) then 0 else 1 + LeadingSpace(s[1..])
  }

  /** The length of the whitespace run at the end of `s`. */
  function TrailingSpace(s: string): (n: nat)
    ensures n <= |s|
  {
    if s == [] || !IsWhitespaceOrNewline(s[|s| - 1]) then 0 else 1 + TrailingSpace(s[..|s| - 1])
  }

  /** `trimmingCharacters(in: .whitespacesAndNewlines)`. */
  function Trim(s: string): string {
    var rest := s[LeadingSpace(s)..];
    rest[..|rest| - TrailingSpace(rest)]
  }

  lemma {:induction false} LeadingSpaceIsMaximal(s: string)
    ensures forall k :: 0 <= k < LeadingSpace(s) ==> IsWhitespaceOrNewline(s[k])
    ensures LeadingSpace(s) < |s| ==> !IsWhitespaceOrNewline(s[LeadingSpace(s)])
    decreases |s|
  {
    if s != [] && IsWhitespaceOrNewline(s[0]) {
      LeadingSpaceIsMaximal(s[1..]);
    }
  }

  lemma {:induction false} TrailingSpaceIsMaximal(s: string)
    ensures forall k :: |s| - TrailingSpace(s) <= k < |s| ==> IsWhitespaceOrNewline(s[k])
    ensures TrailingSpace(s) < |s| ==> !IsWhitespaceOrNewline(s[|s| - TrailingSpace(s) - 1])
    decreases |s|
  {
    if s != [] && IsWhitespaceOrNewline(s[|s| - 1]) {
      TrailingSpaceIsMaximal(s[..|s| - 1]);
    }
  }

  /** `Trim(s)` is the slice of `s` after its leading whitespace. */
  lemma TrimIsSlice(s: string)
    ensures var i, r := LeadingSpace(s), Trim(s);
      i + |r| <= |s| && r == s[i..i + |r|] && |r| == |s| - i - TrailingSpace(s[i..])
  {
  }

  /** Everything `Trim` cuts away is whitespace. */
  lemma TrimRemovesOnlySpace(s: string)
    ensures var i, r := LeadingSpace(s), Trim(s);
      && (forall k :: 0 <= k < i ==> IsWhitespaceOrNewline(s[k]))
      && (forall k :: i + |r| <= k < |s| ==> IsWhitespaceOrNewline(s[k]))
  {
    var i := LeadingSpace(s);
    var rest := s[i..];
    LeadingSpaceIsMaximal(s);
    TrailingSpaceIsMaximal(rest);
    TrimIsSlice(s);
    forall k | i + |Trim(s)| <= k < |s| ensures IsWhitespaceOrNewline(s[k]) {
      assert s[k] == rest[k - i];
    }
  }

  /** What `Trim` leaves neither starts nor ends with whitespace. */
  lemma TrimLeavesNoOuterSpace(s: string)
    ensures var r := Trim(s);
      r != [] ==> !IsWhitespaceOrNewline(r[0]) && !IsWhitespaceOrNewline(r[|r| - 1])
  {
    var rest := s[LeadingSpace(s)..];
    var j := |rest| - TrailingSpace(rest);
    LeadingSpaceIsMaximal(s);
    TrailingSpaceIsMaximal(rest);
    var r := Trim(s);
    assert r == rest[..j];
    if r != [] {
      assert r[0] == rest[0] && r[|r| - 1] == rest[j - 1];
    }
  }

  lemma TrimUnchanged(s: string)
    requires s != [] ==> !IsWhitespaceOrNewline(s[0]) && !IsWhitespaceOrNewline(s[|s| - 1])
    ensures Trim(s) == s
  {
    assert LeadingSpace(s) == 0;
    assert TrailingSpace(s) == 0;
  }

  predicate HasPrefix(s: string, p: string) {
    |p| <= |s| && s[..|p|] == p
  }

  predicate HasSuffix(s: string, p: string) {
    |p| <= |s| && s[|s| - |p|..] == p
  }

  /** `joined(separator:)`: the elements in order with `sep` between neighbours. */
  function Join(xs: seq<string>, sep: string): string
    decreases |xs|
  {
    if xs == [] then ""
    else if |xs| == 1 then xs[0]
    else Join(xs[..|xs| - 1], sep) + sep + xs[|xs| - 1]
  }
}
