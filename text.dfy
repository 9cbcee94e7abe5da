/**
 * The Python `str` operations the radar scripts rely on: substring tests,
 * lower-casing, slicing, `replace`, `strip`, `join` and `str(int)`.
 */
module Text {

  // ---------------------------------------------------------------------------
  // Substrings (`p in s`, `s.startswith(p)`)
  // ---------------------------------------------------------------------------

  /** `s.startswith(p)`. */
  predicate StartsWith(s: string, p: string) {
    |p| <= |s| && s[..|p|] == p
  }

  /** `p` occurs in `s` starting at index `i`. */
  predicate OccursAt(s: string, p: string, i: int) {
    0 <= i && i + |p| <= |s| && s[i..i + |p|] == p
  }

  /** Python's `p in s` for strings: a left-to-right search for `p`. */
  predicate Contains(s: string, p: string)
    decreases |s|
  {
    StartsWith(s, p) || (|s| > 0 && Contains(s[1..], p))
  }

  /** The search finds `p` exactly when `p` occurs at some index of `s`. */
  lemma {:induction false} ContainsIffOccurs(s: string, p: string)
    ensures Contains(s, p) <==> exists i :: OccursAt(s, p, i)
    decreases |s|
  {
    if StartsWith(s, p) {
      assert OccursAt(s, p, 0);
    } else if |s| == 0 {
    } else {
      ContainsIffOccurs(s[1..], p);
      if exists i :: OccursAt(s, p, i) {
        var i :| OccursAt(s, p, i);
        if i > 0 {
          assert s[1..][i - 1..i - 1 + |p|] == s[i..i + |p|];
          assert OccursAt(s[1..], p, i - 1);
        }
      }
      if Contains(s[1..], p) {
        var j :| OccursAt(s[1..], p, j);
        assert s[1..][j..j + |p|] == s[j + 1..j + 1 + |p|];
        assert OccursAt(s, p, j + 1);
      }
    }
  }

  /** Whatever occurs inside a slice of `s` occurs in `s`. */
  lemma ContainsInSlice(s: string, p: string, a: int, b: int)
    requires 0 <= a <= b <= |s|
    requires Contains(s[a..b], p)
    ensures Contains(s, p)
  {
    ContainsIffOccurs(s[a..b], p);
    var i :| OccursAt(s[a..b], p, i);
    forall k | 0 <= k < |p| ensures s[a + i + k] == p[k] {
      assert s[a..b][i..i + |p|][k] == p[k];
    }
    assert OccursAt(s, p, a + i);
    ContainsIffOccurs(s, p);
  }

  /** The middle part of a concatenation occurs in it. */
  lemma ContainsMiddle(a: string, b: string, c: string)
    ensures Contains(a + b + c, b)
  {
    var s := a + b + c;
    assert s[|a|..|a| + |b|] == b;
    assert OccursAt(s, b, |a|);
    ContainsIffOccurs(s, b);
  }

  // ---------------------------------------------------------------------------
  // Lower-casing (`s.lower()`), ASCII letters only
  // ---------------------------------------------------------------------------

  function LowerChar(c: char): char {
    if 'A' <= c <= 'Z' then (c as int + 32) as char else c
  }

  /** `s.lower()` restricted to ASCII: every `A`..`Z` becomes `a`..`z`. */
  function Lower(s: string): (r: string)
    ensures |r| == |s|
    ensures forall i :: 0 <= i < |s| ==> r[i] == LowerChar(s[i])
    ensures forall i :: 0 <= i < |s| ==> !('A' <= r[i] <= 'Z')
  {
    seq(|s|, i requires 0 <= i < |s| => LowerChar(s[i]))
  }

  // ---------------------------------------------------------------------------
  // Slicing (`s[:n]`)
  // ---------------------------------------------------------------------------

  /** `s[:n]`: the first `n` characters, or all of `s` when it is shorter. */
  function Take(s: string, n: nat): (r: string)
    ensures |r| == if |s| <= n then |s| else n
    ensures StartsWith(s, r)
  {
    if |s| <= n then s else s[..n]
  }

  // ---------------------------------------------------------------------------
  // `s.replace(pat, sub)`
  // ---------------------------------------------------------------------------

  /** `s.replace(pat, sub)`: every non-overlapping occurrence of `pat`, scanning from the left, replaced by `sub`. */
  function ReplaceAll(s: string, pat: string, sub: string): string
    requires |pat| > 0
    decreases |s|
  {
    if |s| < |pat| then s
    else if s[..|pat|] == pat then sub + ReplaceAll(s[|pat|..], pat, sub)
    else [s[0]] + ReplaceAll(s[1..], pat, sub)
  }

  /** Replacing a pattern that does not occur changes nothing. */
  lemma {:induction false} ReplaceAbsent(s: string, pat: string, sub: string)
    requires |pat| > 0 && !Contains(s, pat)
    ensures ReplaceAll(s, pat, sub) == s
    decreases |s|
  {
    if |s| >= |pat| {
      ReplaceAbsent(s[1..], pat, sub);
      assert s == [s[0]] + s[1..];
    }
  }

  /** Wherever `p + q` is found, `p` is found. */
  lemma {:induction false} ContainsPrefix(s: string, p: string, q: string)
    requires Contains(s, p + q)
    ensures Contains(s, p)
    decreases |s|
  {
    if StartsWith(s, p + q) {
      assert s[..|p|] == (p + q)[..|p|] == p;
    } else {
      ContainsPrefix(s[1..], p, q);
    }
  }

  /** `s.replace(a, b)` for single characters. */
  function ReplaceChar(s: string, a: char, b: char): (r: string)
    ensures |r| == |s|
    ensures forall i :: 0 <= i < |s| ==> r[i] == (if s[i] == a then b else s[i])
  {
    seq(|s|, i requires 0 <= i < |s| => if s[i] == a then b else s[i])
  }

  const Fence: string := "```"
  const JsonFence: string := "```json"

  /** `s.replace('```json', '').replace('```', '')`: the Markdown code-fence markers removed. */
  function RemoveFences(s: string): string {
    ReplaceAll(ReplaceAll(s, JsonFence, ""), Fence, "")
  }

  /** If removing fences leaves a result that starts with a backtick, the input did too. */
  lemma {:induction false} DropFenceFirst(t: string)
    requires |ReplaceAll(t, Fence, "")| > 0 && ReplaceAll(t, Fence, "")[0] == '`'
    ensures |t| > 0 && t[0] == '`'
    decreases |t|
  {
    if |t| < 3 {
    } else if t[..3] == Fence {
      assert t[0] == t[..3][0];
    } else {
      assert ReplaceAll(t, Fence, "") == [t[0]] + ReplaceAll(t[1..], Fence, "");
    }
  }

  /** If removing fences leaves a result that starts with two backticks, the input did too. */
  lemma {:induction false} DropFenceFirstTwo(t: string)
    requires |ReplaceAll(t, Fence, "")| > 1
    requires ReplaceAll(t, Fence, "")[0] == '`' && ReplaceAll(t, Fence, "")[1] == '`'
    ensures |t| > 1 && t[0] == '`' && t[1] == '`'
    decreases |t|
  {
    if |t| < 3 {
    } else if t[..3] == Fence {
      assert t[0] == t[..3][0] && t[1] == t[..3][1];
    } else {
      var rest := ReplaceAll(t[1..], Fence, "");
      assert ReplaceAll(t, Fence, "") == [t[0]] + rest;
      assert rest[0] == '`';
      DropFenceFirst(t[1..]);
    }
  }

  /** `s.replace('```', '')` leaves no fence marker: removal can never join two pieces into a new one. */
  lemma {:induction false} NoFenceAfterReplace(s: string)
    ensures !Contains(ReplaceAll(s, Fence, ""), Fence)
    decreases |s|
  {
    var r := ReplaceAll(s, Fence, "");
    if |s| < 3 {
      assert r == s;
      ContainsIffOccurs(r, Fence);
    } else if s[..3] == Fence {
      NoFenceAfterReplace(s[3..]);
      assert r == ReplaceAll(s[3..], Fence, "");
    } else {
      var rest := ReplaceAll(s[1..], Fence, "");
      NoFenceAfterReplace(s[1..]);
      assert r == [s[0]] + rest;
      if |rest| > 1 && rest[0] == '`' && rest[1] == '`' {
        DropFenceFirstTwo(s[1..]);
        assert s[..3] == [s[0], s[1], s[2]];
      }
      if StartsWith(r, Fence) {
        assert false;
      }
      assert r[1..] == rest;
    }
  }

  /** Removing fence markers leaves no "```" and hence no "```json" either. */
  lemma NoFenceAfterRemoval(s: string)
    ensures !Contains(RemoveFences(s), Fence)
    ensures !Contains(RemoveFences(s), JsonFence)
  {
    var r := RemoveFences(s);
    NoFenceAfterReplace(ReplaceAll(s, JsonFence, ""));
    if Contains(r, JsonFence) {
      ContainsIffOccurs(r, JsonFence);
      var i :| OccursAt(r, JsonFence, i);
      assert r[i..i + 3] == r[i..i + 7][..3];
      assert OccursAt(r, Fence, i);
      ContainsIffOccurs(r, Fence);
    }
  }

  /** `s` holds no backtick, so no fence marker can start inside it. */
  predicate NoBacktick(s: string) {
    forall i :: 0 <= i < |s| ==> s[i] != '`'
  }

  /** Removing "```" from a backtick-free text followed by one closing marker gives the text back. */
  lemma {:induction false} ReplaceClosingFence(t: string)
    requires NoBacktick(t)
    ensures ReplaceAll(t + Fence, Fence, "") == t
    decreases |t|
  {
    if t == [] {
      assert t + Fence == Fence;
    } else {
      assert (t + Fence)[..3][0] == t[0];
      assert (t + Fence)[1..] == t[1..] + Fence;
      ReplaceClosingFence(t[1..]);
      assert t == [t[0]] + t[1..];
    }
  }

  /**
   * The clean-up keeps what lies between the markers: for a backtick-free
   * body wrapped as "```json" + body + "```", fence removal gives the body.
   */
  lemma FencedBodyKept(body: string)
    requires NoBacktick(body)
    ensures RemoveFences(JsonFence + body + Fence) == body
  {
    var s := JsonFence + body + Fence;
    assert s[..|JsonFence|] == JsonFence;
    assert s[|JsonFence|..] == body + Fence;
    assert ReplaceAll(s, JsonFence, "") == ReplaceAll(body + Fence, JsonFence, "");
    forall i | 0 <= i && i + |JsonFence| <= |body + Fence|
      ensures !OccursAt(body + Fence, JsonFence, i)
    {
      assert (body + Fence)[i..i + |JsonFence|][0] == body[i] != '`';
    }
    ContainsIffOccurs(body + Fence, JsonFence);
    ReplaceAbsent(body + Fence, JsonFence, "");
    ReplaceClosingFence(body);
  }

  // ---------------------------------------------------------------------------
  // `s.strip()`
  // ---------------------------------------------------------------------------

  /** Python's `str.isspace()` for one character. */
  predicate IsSpace(c: char) {
    || c == ' '
    || ('\t' <= c <= '\r')
    || ('\U{1c}' <= c <= '\U{1f}')
    || c == '\U{85}' || c == '\U{a0}' || c == '\U{1680}'
    || ('\U{2000}' <= c <= '\U{200a}')
    || c == '\U{2028}' || c == '\U{2029}' || c == '\U{202f}' || c == '\U{205f}' || c == '\U{3000}'
  }

  predicate AllSpace(s: string) {
    forall i :: 0 <= i < |s| ==> IsSpace(s[i])
  }

  /** `s.lstrip()`: a suffix of `s` whose removed prefix is whitespace. */
  function StripLeft(s: string): (r: string)
    ensures |r| <= |s| && r == s[|s| - |r|..]
    ensures AllSpace(s[..|s| - |r|])
    ensures r == [] || !IsSpace(r[0])
    decreases |s|
  {
    if |s| > 0 && IsSpace(s[0]) then StripLeft(s[1..]) else s
  }

  /** `s.rstrip()`: a prefix of `s` whose removed suffix is whitespace. */
  function StripRight(s: string): (r: string)
    ensures |r| <= |s| && r == s[..|r|]
    ensures AllSpace(s[|r|..])
    ensures r == [] || !IsSpace(r[|r| - 1])
    decreases |s|
  {
    if |s| > 0 && IsSpace(s[|s| - 1]) then StripRight(s[..|s| - 1]) else s
  }

  /** `r` is `s` with the whitespace run `s[..a]` cut off in front and only whitespace cut off behind. */
  predicate TrimmedAt(s: string, r: string, a: int) {
    0 <= a && a + |r| <= |s| && r == s[a..a + |r|] && AllSpace(s[..a]) && AllSpace(s[a + |r|..])
  }

  /** Cutting whitespace off the front and then off the back leaves a trimmed middle part. */
  lemma TrimBothEnds(s: string, t: string, r: string)
    requires |t| <= |s| && t == s[|s| - |t|..] && AllSpace(s[..|s| - |t|])
    requires |r| <= |t| && r == t[..|r|] && AllSpace(t[|r|..])
    requires t == [] || !IsSpace(t[0])
    ensures TrimmedAt(s, r, |s| - |t|)
    ensures r == [] || !IsSpace(r[0])
  {
    var a := |s| - |t|;
    assert r == s[a..a + |r|];
    assert t[|r|..] == s[a + |r|..];
    if r != [] {
      assert r[0] == t[0];
    }
  }

  /** `s.strip()`: `s` without leading and trailing whitespace. */
  function Strip(s: string): (r: string)
    ensures r == [] || (!IsSpace(r[0]) && !IsSpace(r[|r| - 1]))
    ensures TrimmedAt(s, r, |s| - |StripLeft(s)|)
  {
    var t := StripLeft(s);
    var r := StripRight(t);
    TrimBothEnds(s, t, r);
    r
  }

  /** A string that neither starts nor ends with whitespace is its own strip. */
  lemma StripUntrimmed(s: string)
    requires s != [] && !IsSpace(s[0]) && !IsSpace(s[|s| - 1])
    ensures Strip(s) == s
  {
    assert StripLeft(s) == s;
    assert StripRight(s) == s;
  }

  /** Whatever is absent from a string is absent from its stripped form. */
  lemma StripKeepsAbsence(s: string, p: string)
    requires !Contains(s, p)
    ensures !Contains(Strip(s), p)
  {
    var a := |s| - |StripLeft(s)|;
    if Contains(Strip(s), p) {
      ContainsInSlice(s, p, a, a + |Strip(s)|);
    }
  }

  // ---------------------------------------------------------------------------
  // `sep.join(xs)` and `str(n)`
  // ---------------------------------------------------------------------------

  /** `sep.join(xs)`. */
  function Join(xs: seq<string>, sep: string): string
    decreases |xs|
  {
    if xs == [] then ""
    else if |xs| == 1 then xs[0]
    else Join(xs[..|xs| - 1], sep) + sep + xs[|xs| - 1]
  }

  function DigitChar(d: nat): char
    requires d < 10
  {
    "0123456789"[d]
  }

  /** `str(n)` for a natural number: its decimal digits, most significant first. */
  function Decimal(n: nat): (r: string)
    ensures |r| > 0
    ensures forall i :: 0 <= i < |r| ==> '0' <= r[i] <= '9'
    ensures r[|r| - 1] == DigitChar(n % 10)
    decreases n
  {
    if n < 10 then [DigitChar(n)] else Decimal(n / 10) + [DigitChar(n % 10)]
  }
}
