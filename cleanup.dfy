/**
 * The clean-up applied to the generative model's reply before it is parsed:
 * every "```json" is removed, then every remaining "```", then the whitespace
 * at both ends is stripped.
 */
module Cleanup {

  /** The markdown code-fence markers the clean-up removes. */
  const Fence: string := "```"
  const JsonFence: string := "```json"

  /** `pat` occurs in `s` starting at offset `k`. */
  predicate OccursAt(s: string, pat: string, k: nat)
  {
    k + |pat| <= |s| && forall m :: 0 <= m < |pat| ==> s[k + m] == pat[m]
  }

  ghost predicate Contains(s: string, pat: string)
  {
    exists k: nat :: OccursAt(s, pat, k)
  }

  /**
   * Python `s.replace(pat, "")` for a non-empty `pat`: occurrences are found
   * scanning left to right and do not overlap.
   */
  function RemoveAll(s: string, pat: string): (r: string)
    requires pat != []
    ensures |r| <= |s|
    decreases |s|
  {
    if |s| < |pat| then s
    else if s[..|pat|] == pat then RemoveAll(s[|pat|..], pat)
    else [s[0]] + RemoveAll(s[1..], pat)
  }

  /** Python's `str.isspace` for one character (the characters `str.strip()` removes). */
  predicate IsSpace(c: char)
  {
    ('\t' <= c <= '\r') || ('\U{1C}' <= c <= '\U{1F}') || c == ' ' || c == '\U{85}' ||
    c == '\U{A0}' || c == '\U{1680}' || ('\U{2000}' <= c <= '\U{200A}') ||
    c == '\U{2028}' || c == '\U{2029}' || c == '\U{202F}' || c == '\U{205F}' || c == '\U{3000}'
  }

  /** Python `s.lstrip()`: drops the leading whitespace. */
  function TrimStart(s: string): string
    decreases |s|
  {
    if |s| > 0 && IsSpace(s[0]) then TrimStart(s[1..]) else s
  }

  /** Python `s.rstrip()`: drops the trailing whitespace. */
  function TrimEnd(s: string): string
    decreases |s|
  {
    if |s| > 0 && IsSpace(s[|s| - 1]) then TrimEnd(s[..|s| - 1]) else s
  }

  /** Python `s.strip()`. */
  function Strip(s: string): string
  {
    TrimEnd(TrimStart(s))
  }

  /** The clean-up expression of the insight step. */
  function Clean(s: string): string
  {
    Strip(RemoveAll(RemoveAll(s, JsonFence), Fence))
  }

  // ---------------------------------------------------------------------
  // Removal

  /** Removing a pattern that does not occur leaves the string unchanged. */
  lemma {:induction false} RemoveAllAbsent(s: string, pat: string)
    requires pat != [] && !Contains(s, pat)
    ensures RemoveAll(s, pat) == s
    decreases |s|
  {
    if |s| >= |pat| {
      assert s[..|pat|] != pat by {
        if s[..|pat|] == pat {
          assert forall m :: 0 <= m < |pat| ==> s[m] == s[..|pat|][m];
          assert OccursAt(s, pat, 0);
        }
      }
      AbsentInSuffix(s, pat, 1);
      RemoveAllAbsent(s[1..], pat);
    }
  }

  /** If the fence-free remainder starts with one or two backticks, so did the input. */
  lemma {:induction false} RemoveFenceLeadingTicks(s: string)
    ensures |RemoveAll(s, Fence)| >= 1 && RemoveAll(s, Fence)[0] == '`' ==> |s| >= 1 && s[0] == '`'
    ensures |RemoveAll(s, Fence)| >= 2 && RemoveAll(s, Fence)[0] == '`' && RemoveAll(s, Fence)[1] == '`'
      ==> |s| >= 2 && s[0] == '`' && s[1] == '`'
    decreases |s|
  {
    if |s| >= 3 && s[..3] != Fence {
      RemoveFenceLeadingTicks(s[1..]);
    } else if |s| >= 3 {
      assert s[0] == s[..3][0] == '`' && s[1] == s[..3][1] == '`';
    }
  }

  /**
   * Removing every fence leaves no fence behind.  This relies on the shape of
   * the fence (all one character); for a pattern such as "ab", removal can
   * create a new occurrence ("aabb" becomes "ab").
   */
  lemma {:induction false} RemoveFenceLeavesNone(s: string)
    ensures !Contains(RemoveAll(s, Fence), Fence)
    decreases |s|
  {
    var r := RemoveAll(s, Fence);
    if |s| < 3 {
      assert |r| < 3;
    } else if s[..3] == Fence {
      RemoveFenceLeavesNone(s[3..]);
    } else {
      var t := RemoveAll(s[1..], Fence);
      assert r == [s[0]] + t;
      RemoveFenceLeavesNone(s[1..]);
      RemoveFenceLeadingTicks(s[1..]);
      assert !OccursAt(r, Fence, 0);
      forall k: nat | 1 <= k && OccursAt(r, Fence, k) ensures OccursAt(t, Fence, k - 1) {
      }
    }
  }

  /** A pattern that is absent stays absent in every slice. */
  lemma AbsentInSlice(s: string, pat: string, i: nat, j: nat)
    requires i <= j <= |s| && !Contains(s, pat)
    ensures !Contains(s[i..j], pat)
  {
    forall k: nat | OccursAt(s[i..j], pat, k) ensures OccursAt(s, pat, i + k) {
    }
  }

  /** A pattern that is absent stays absent in every suffix. */
  lemma AbsentInSuffix(s: string, pat: string, i: nat)
    requires i <= |s| && !Contains(s, pat)
    ensures !Contains(s[i..], pat)
  {
    forall k: nat | OccursAt(s[i..], pat, k) ensures OccursAt(s, pat, i + k) {
    }
  }

  /** A string without a fence has no "```json" either. */
  lemma NoFenceNoJsonFence(s: string)
    requires !Contains(s, Fence)
    ensures !Contains(s, JsonFence)
  {
    forall k: nat | OccursAt(s, JsonFence, k) ensures OccursAt(s, Fence, k) {
      assert forall m :: 0 <= m < 3 ==> JsonFence[m] == Fence[m];
    }
  }

  // ---------------------------------------------------------------------
  // Stripping

  /** `TrimStart` removes exactly the leading whitespace: it returns a suffix of `s`
      that is empty or starts with a non-space, and everything before it is whitespace. */
  lemma {:induction false} TrimStartSpec(s: string)
    ensures var r := TrimStart(s);
      |r| <= |s| && r == s[|s| - |r|..] && (r == [] || !IsSpace(r[0])) &&
      forall k :: 0 <= k < |s| - |r| ==> IsSpace(s[k])
    decreases |s|
  {
    if |s| > 0 && IsSpace(s[0]) {
      TrimStartSpec(s[1..]);
      var r := TrimStart(s[1..]);
      assert s[1..][|s| - 1 - |r|..] == s[|s| - |r|..];
    }
  }

  /** `TrimEnd` removes exactly the trailing whitespace: it returns a prefix of `s`
      that is empty or ends with a non-space, and everything after it is whitespace. */
  lemma {:induction false} TrimEndSpec(s: string)
    ensures var r := TrimEnd(s);
      |r| <= |s| && r == s[..|r|] && (r == [] || !IsSpace(r[|r| - 1])) &&
      forall k :: |r| <= k < |s| ==> IsSpace(s[k])
    decreases |s|
  {
    if |s| > 0 && IsSpace(s[|s| - 1]) {
      TrimEndSpec(s[..|s| - 1]);
      var r := TrimEnd(s[..|s| - 1]);
      assert s[..|s| - 1][..|r|] == s[..|r|];
    }
  }

  /** The stripped text has no whitespace at either end, and is the slice of `s`
      between its leading and its trailing whitespace. */
  lemma StripSpec(s: string)
    ensures |Strip(s)| <= |TrimStart(s)| <= |s|
    ensures var r := Strip(s); var i := |s| - |TrimStart(s)|;
      i + |r| <= |s| && r == s[i..i + |r|] &&
      (r == [] || (!IsSpace(r[0]) && !IsSpace(r[|r| - 1]))) &&
      (forall k :: 0 <= k < i ==> IsSpace(s[k])) &&
      (forall k :: i + |r| <= k < |s| ==> IsSpace(s[k]))
  {
    var t := TrimStart(s);
    TrimStartSpec(s);
    TrimEndSpec(t);
    var r := TrimEnd(t);
    var i := |s| - |t|;
    assert r == s[i..i + |r|];
    forall k | i + |r| <= k < |s| ensures IsSpace(s[k]) {
      assert s[k] == t[k - i];
    }
  }

  /** Stripping a string with no whitespace at either end leaves it unchanged. */
  lemma StripTrimmed(s: string)
    requires s == [] || (!IsSpace(s[0]) && !IsSpace(s[|s| - 1]))
    ensures Strip(s) == s
  {
  }

  /** Stripping keeps a fence-free string fence-free. */
  lemma StripKeepsNoFence(s: string)
    requires !Contains(s, Fence)
    ensures !Contains(Strip(s), Fence)
  {
    StripSpec(s);
    var i := |s| - |TrimStart(s)|;
    AbsentInSlice(s, Fence, i, i + |Strip(s)|);
  }

  // ---------------------------------------------------------------------
  // The clean-up as a whole

  /** The cleaned text holds no fence and no whitespace at either end. */
  lemma CleanShape(s: string)
    ensures !Contains(Clean(s), Fence)
    ensures Clean(s) == [] || (!IsSpace(Clean(s)[0]) && !IsSpace(Clean(s)[|Clean(s)| - 1]))
  {
    var u := RemoveAll(RemoveAll(s, JsonFence), Fence);
    RemoveFenceLeavesNone(RemoveAll(s, JsonFence));
    StripKeepsNoFence(u);
    StripSpec(u);
  }

  /** Cleaning twice is cleaning once. */
  lemma CleanIdempotent(s: string)
    ensures Clean(Clean(s)) == Clean(s)
  {
    var c := Clean(s);
    CleanShape(s);
    NoFenceNoJsonFence(c);
    RemoveAllAbsent(c, JsonFence);
    RemoveAllAbsent(c, Fence);
    StripTrimmed(c);
  }

  /** A fence-free reply is only stripped. */
  lemma CleanUnfenced(s: string)
    requires !Contains(s, Fence)
    ensures Clean(s) == Strip(s)
  {
    NoFenceNoJsonFence(s);
    RemoveAllAbsent(s, JsonFence);
    RemoveAllAbsent(s, Fence);
  }

  /** Appending a closing fence to a fence-free string and removing fences gives it back. */
  lemma {:induction false} RemoveClosingFence(body: string)
    requires !Contains(body, Fence)
    ensures RemoveAll(body + Fence, Fence) == body
    decreases |body|
  {
    var s := body + Fence;
    if s[..3] == Fence {
      assert forall m :: 0 <= m < 3 ==> s[m] == s[..3][m] == '`';
      if |body| >= 3 {
        assert OccursAt(body, Fence, 0);
      }
      assert |s[3..]| < 3;
      assert s[3..] == body by {
        forall k | 0 <= k < |body| ensures s[3 + k] == body[k] {
          assert body[k] == s[k] == '`';
          assert s[3 + k] == Fence[3 + k - |body|];
        }
      }
    } else {
      assert body != [];
      assert s[1..] == body[1..] + Fence;
      AbsentInSuffix(body, Fence, 1);
      RemoveClosingFence(body[1..]);
    }
  }

  /** A reply wrapped as "```json" + body + "```", with a fence-free body, cleans to the stripped body. */
  lemma CleanFenced(body: string)
    requires !Contains(body, Fence)
    ensures Clean(JsonFence + body + Fence) == Strip(body)
  {
    var s := JsonFence + body + Fence;
    assert s[..7] == JsonFence;
    assert s[7..] == body + Fence;
    assert RemoveAll(s, JsonFence) == RemoveAll(body + Fence, JsonFence);
    assert !Contains(body + Fence, JsonFence) by {
      forall k: nat | OccursAt(body + Fence, JsonFence, k) ensures OccursAt(body, Fence, k) {
        assert (body + Fence)[k + 3] == JsonFence[3];
        assert k + 3 < |body|;
        assert forall m :: 0 <= m < 3 ==> body[k + m] == (body + Fence)[k + m] == JsonFence[m] == Fence[m];
      }
    }
    RemoveAllAbsent(body + Fence, JsonFence);
    RemoveClosingFence(body);
  }
}
