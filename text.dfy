/**
 * String operations of Python's `str` and `re` that the core relies on:
 * whitespace as `str.isspace()` and `\s` define it, `re.sub(r'\s+', ' ', s)`,
 * `str.strip()`, `str.replace`, `str.lower()` as far as ASCII keywords can
 * see it, and case-insensitive literal search as `re.IGNORECASE` performs it.
 */
module Text {
  import opened Wrappers

  /** The characters for which Python's `str.isspace()` holds (also what `\s` matches). */
  predicate IsSpace(c: char) {
    || c == ' '
    || ('\t' <= c <= '\r')
    || ('\U{1C}' <= c <= '\U{1F}')
    || c == '\U{85}' || c == '\U{A0}' || c == '\U{1680}'
    || ('\U{2000}' <= c <= '\U{200A}')
    || c == '\U{2028}' || c == '\U{2029}' || c == '\U{202F}' || c == '\U{205F}' || c == '\U{3000}'
  }

  // ---------------------------------------------------------------------
  // Substrings

  /** `p` occurs in `s` at index `i`. */
  predicate OccursAt(p: string, s: string, i: nat) {
    i + |p| <= |s| && s[i..i + |p|] == p
  }

  /** Python's `p in s` for strings. */
  predicate IsSubstring(p: string, s: string) {
    exists i: nat | i <= |s| :: OccursAt(p, s, i)
  }

  // ---------------------------------------------------------------------
  // Whitespace

  /** The characters of `s` that are not whitespace, in order. */
  function NonSpace(s: string): string {
    if s == [] then []
    else if IsSpace(s[0]) then NonSpace(s[1..])
    else [s[0]] + NonSpace(s[1..])
  }

  lemma {:induction false} NonSpaceAppend(a: string, b: string)
    ensures NonSpace(a + b) == NonSpace(a) + NonSpace(b)
  {
    if a != [] {
      assert (a + b)[1..] == a[1..] + b;
      NonSpaceAppend(a[1..], b);
    } else {
      assert a + b == b;
    }
  }

  /** Every whitespace character is a plain space and is not followed by whitespace. */
  predicate SingleSpaced(s: string) {
    forall i :: 0 <= i < |s| && IsSpace(s[i]) ==> s[i] == ' ' && (i + 1 < |s| ==> !IsSpace(s[i + 1]))
  }

  /** Neither the first nor the last character is whitespace. */
  predicate Trimmed(s: string) {
    s == [] || (!IsSpace(s[0]) && !IsSpace(s[|s| - 1]))
  }

  /** The shape `re.sub(r'\s+', ' ', s).strip()` leaves behind. */
  predicate WhitespaceNormal(s: string) {
    SingleSpaced(s) && Trimmed(s)
  }

  /** Drops the leading run of whitespace. */
  function DropSpaces(s: string): (r: string)
    ensures |r| <= |s| && r == s[|s| - |r|..]
    ensures r == [] || !IsSpace(r[0])
    ensures forall i :: 0 <= i < |s| - |r| ==> IsSpace(s[i])
  {
    if s != [] && IsSpace(s[0]) then DropSpaces(s[1..]) else s
  }

  lemma {:induction false} NonSpaceDropSpaces(s: string)
    ensures NonSpace(DropSpaces(s)) == NonSpace(s)
  {
    if s != [] && IsSpace(s[0]) {
      NonSpaceDropSpaces(s[1..]);
    }
  }

  /** `re.sub(r'\s+', ' ', s)`: every maximal whitespace run becomes one space. */
  function Squeeze(s: string): (r: string)
    ensures SingleSpaced(r)
    ensures r != [] <==> s != []
    ensures r != [] ==> (IsSpace(r[0]) <==> IsSpace(s[0]))
    decreases |s|
  {
    if s == [] then []
    else if IsSpace(s[0]) then
      var t := DropSpaces(s[1..]);
      var rest := Squeeze(t);
      assert rest != [] ==> !IsSpace(rest[0]);
      " " + rest
    else
      [s[0]] + Squeeze(s[1..])
  }

  lemma {:induction false} SqueezeKeepsNonSpace(s: string)
    ensures NonSpace(Squeeze(s)) == NonSpace(s)
    decreases |s|
  {
    if s == [] {
    } else if IsSpace(s[0]) {
      var t := DropSpaces(s[1..]);
      SqueezeKeepsNonSpace(t);
      NonSpaceDropSpaces(s[1..]);
      NonSpaceAppend(" ", Squeeze(t));
    } else {
      SqueezeKeepsNonSpace(s[1..]);
      NonSpaceAppend([s[0]], Squeeze(s[1..]));
    }
  }

  lemma {:induction false} SqueezeSingleSpacedIsIdentity(s: string)
    requires SingleSpaced(s)
    ensures Squeeze(s) == s
    decreases |s|
  {
    if s != [] {
      SliceKeepsSingleSpaced(s, 1, |s|);
      assert s[1..|s|] == s[1..];
      if IsSpace(s[0]) {
        assert s[1..] == [] || !IsSpace(s[1]);
        assert DropSpaces(s[1..]) == s[1..];
      }
      SqueezeSingleSpacedIsIdentity(s[1..]);
    }
  }

  /** The first index at or after `i` that is not whitespace (`|s|` when there is none). */
  function LeadEnd(s: string, i: nat): (a: nat)
    requires i <= |s|
    ensures i <= a <= |s|
    ensures forall k :: i <= k < a ==> IsSpace(s[k])
    ensures a < |s| ==> !IsSpace(s[a])
    decreases |s| - i
  {
    if i < |s| && IsSpace(s[i]) then LeadEnd(s, i + 1) else i
  }

  /** The end of `s[a..j]` once its trailing whitespace is dropped. */
  function TrailEnd(s: string, a: nat, j: nat): (b: nat)
    requires a <= j <= |s|
    ensures a <= b <= j
    ensures forall k :: b <= k < j ==> IsSpace(s[k])
    ensures b > a ==> !IsSpace(s[b - 1])
    decreases j
  {
    if j > a && IsSpace(s[j - 1]) then TrailEnd(s, a, j - 1) else j
  }

  /** Where `s.strip()` starts: after the leading whitespace. */
  function StripStart(s: string): nat {
    LeadEnd(s, 0)
  }

  /** Where `s.strip()` ends: before the trailing whitespace. */
  function StripEnd(s: string): nat {
    TrailEnd(s, StripStart(s), |s|)
  }

  /** Python's `s.strip()`: drops leading and trailing whitespace. */
  function Strip(s: string): (r: string)
    ensures StripStart(s) <= StripEnd(s) <= |s| && r == s[StripStart(s)..StripEnd(s)]
    ensures Trimmed(r)
    ensures forall i :: 0 <= i < StripStart(s) ==> IsSpace(s[i])
    ensures forall i :: StripEnd(s) <= i < |s| ==> IsSpace(s[i])
  {
    s[StripStart(s)..StripEnd(s)]
  }

  lemma SliceKeepsSingleSpaced(s: string, a: nat, b: nat)
    requires a <= b <= |s| && SingleSpaced(s)
    ensures SingleSpaced(s[a..b])
  {
    var t := s[a..b];
    forall i | 0 <= i < |t| && IsSpace(t[i])
      ensures t[i] == ' ' && (i + 1 < |t| ==> !IsSpace(t[i + 1]))
    {
      assert t[i] == s[a + i];
      if i + 1 < |t| { assert t[i + 1] == s[a + i + 1]; }
    }
  }

  /** A string of whitespace only has no other characters. */
  lemma {:induction false} NonSpaceOfSpaces(t: string)
    requires forall i :: 0 <= i < |t| ==> IsSpace(t[i])
    ensures NonSpace(t) == []
    decreases |t|
  {
    if t != [] {
      assert IsSpace(t[0]);
      NonSpaceOfSpaces(t[1..]);
    }
  }

  lemma StripKeepsNonSpace(s: string)
    ensures NonSpace(Strip(s)) == NonSpace(s)
  {
    var a, b := StripStart(s), StripEnd(s);
    var lead, mid, trail := s[..a], s[a..b], s[b..];
    assert s == lead + mid + trail;
    NonSpaceOfSpaces(lead);
    NonSpaceOfSpaces(trail);
    NonSpaceAppend(lead, mid);
    NonSpaceAppend(lead + mid, trail);
  }

  lemma StripTrimmedIsIdentity(s: string)
    requires Trimmed(s)
    ensures Strip(s) == s
  {
    if s != [] {
      assert StripStart(s) == 0;
      assert StripEnd(s) == |s|;
    }
  }

  /**
   * `re.sub(r'\s+', ' ', s).strip()`, the whitespace step shared by several
   * operations of the core.
   */
  function Standardize(s: string): (r: string)
    ensures WhitespaceNormal(r)
    ensures NonSpace(r) == NonSpace(s)
  {
    var q := Squeeze(s);
    var r := Strip(q);
    SliceKeepsSingleSpaced(q, StripStart(q), StripEnd(q));
    SqueezeKeepsNonSpace(s);
    StripKeepsNonSpace(q);
    r
  }

  /** A string already in normal form is left as it is. */
  lemma StandardizeFixesNormal(s: string)
    requires WhitespaceNormal(s)
    ensures Standardize(s) == s
  {
    SqueezeSingleSpacedIsIdentity(s);
    StripTrimmedIsIdentity(s);
  }

  /** Standardizing twice is the same as standardizing once. */
  lemma StandardizeIdempotent(s: string)
    ensures Standardize(Standardize(s)) == Standardize(s)
  {
    StandardizeFixesNormal(Standardize(s));
  }

  // ---------------------------------------------------------------------
  // Replacement

  /** Python's `s.replace(pat, rep)`: left to right, non-overlapping. */
  function ReplaceAll(s: string, pat: string, rep: string): (r: string)
    requires |pat| > 0
    decreases |s|
  {
    if |s| < |pat| then s
    else if s[..|pat|] == pat then rep + ReplaceAll(s[|pat|..], pat, rep)
    else [s[0]] + ReplaceAll(s[1..], pat, rep)
  }

  /** A pattern holding a character the text lacks does not occur in it. */
  lemma MissingCharAbsent(pat: string, s: string, c: char)
    requires c in pat && c !in s
    ensures !IsSubstring(pat, s)
  {
  }

  /** Replacing a pattern that does not occur changes nothing. */
  lemma {:induction false} ReplaceAbsent(s: string, pat: string, rep: string)
    requires |pat| > 0 && !IsSubstring(pat, s)
    ensures ReplaceAll(s, pat, rep) == s
    decreases |s|
  {
    if |s| >= |pat| {
      assert !OccursAt(pat, s, 0);
      assert s[..|pat|] != pat;
      assert !IsSubstring(pat, s[1..]) by {
        forall i: nat | OccursAt(pat, s[1..], i) ensures false {
          assert s[1..][i..i + |pat|] == s[i + 1..i + 1 + |pat|];
          assert OccursAt(pat, s, i + 1);
        }
      }
      ReplaceAbsent(s[1..], pat, rep);
    }
  }

  // ---------------------------------------------------------------------
  // Case

  /** `c.lower()` as far as an ASCII keyword search can tell. */
  function LowerChar(c: char): (r: string)
    ensures |r| >= 1
  {
    if 'A' <= c <= 'Z' then [(c as int + 32) as char]
    else if c == '\U{212A}' then "k"                  // KELVIN SIGN
    else if c == '\U{130}' then "i\U{307}"            // LATIN CAPITAL LETTER I WITH DOT ABOVE
    else [c]
  }

  /**
   * Python's `s.lower()` restricted to what decides whether an ASCII keyword
   * occurs: ASCII capitals, the Kelvin sign and the dotted capital I are
   * lowered as Python lowers them; every other character is kept, which never
   * creates or destroys an ASCII letter.
   */
  function Lower(s: string): string {
    if s == [] then [] else LowerChar(s[0]) + Lower(s[1..])
  }

  /**
   * Under `re.IGNORECASE` the lower-case pattern character `p` matches the
   * text character `c`: equal, its ASCII capital, or one of the non-ASCII
   * characters Python folds onto `s` (long s), `i` (dotless i, dotted I) and
   * `k` (Kelvin sign).
   */
  predicate FoldEq(p: char, c: char) {
    || c == p
    || ('a' <= p <= 'z' && c as int == p as int - 32)
    || (p == 's' && c == '\U{17F}')
    || (p == 'i' && (c == '\U{130}' || c == '\U{131}'))
    || (p == 'k' && c == '\U{212A}')
  }

  /** The lower-case literal `p` matches `s` at index `i`, ignoring case. */
  predicate MatchesAtCI(p: string, s: string, i: nat) {
    i + |p| <= |s| && forall k :: 0 <= k < |p| ==> FoldEq(p[k], s[i + k])
  }

  /** `re.search(p, s[from..], re.IGNORECASE).start()` for a literal pattern. */
  function FindCIFrom(p: string, s: string, from: nat): (r: Option<nat>)
    requires from <= |s|
    ensures r.Some? ==> from <= r.value && MatchesAtCI(p, s, r.value)
    ensures r.Some? ==> forall j :: from <= j < r.value ==> !MatchesAtCI(p, s, j)
    ensures r.None? ==> forall j :: from <= j <= |s| ==> !MatchesAtCI(p, s, j)
    decreases |s| - from
  {
    if MatchesAtCI(p, s, from) then Some(from)
    else if from == |s| then None
    else FindCIFrom(p, s, from + 1)
  }

  /** The leftmost case-insensitive match of the literal `p` in `s`. */
  function FindCI(p: string, s: string): (r: Option<nat>)
    ensures r.Some? ==> MatchesAtCI(p, s, r.value) && forall j :: 0 <= j < r.value ==> !MatchesAtCI(p, s, j)
    ensures r.None? ==> forall j :: 0 <= j <= |s| ==> !MatchesAtCI(p, s, j)
  {
    FindCIFrom(p, s, 0)
  }

  // ---------------------------------------------------------------------
  // Joining

  /** Python's `sep.join(xs)`. */
  function Join(xs: seq<string>, sep: string): string {
    if xs == [] then ""
    else if |xs| == 1 then xs[0]
    else xs[0] + sep + Join(xs[1..], sep)
  }
}
