/** The pieces of Go's `strings` package that the handlers use, on `seq<char>`. */
module Strings {

  /** `strings.Split(s, string(sep))`: the pieces between separators, so n
      separators give n + 1 pieces and the empty string gives one empty piece. */
  function Split(s: string, sep: char): (parts: seq<string>)
    ensures |parts| >= 1
    ensures forall i :: 0 <= i < |parts| ==> sep !in parts[i]
    decreases |s|
  {
    if |s| == 0 then [""]
    else
      var rest := Split(s[1..], sep);
      if s[0] == sep then [""] + rest
      else [[s[0]] + rest[0]] + rest[1..]
  }

  /** The total length of the pieces. */
  function TotalLength(parts: seq<string>): nat
    decreases |parts|
  {
    if |parts| == 0 then 0 else |parts[0]| + TotalLength(parts[1..])
  }

  /** `strings.Join(parts, string(sep))`: the pieces in order with one
      separator between neighbours; joining nothing gives "". */
  function Join(parts: seq<string>, sep: char): (r: string)
    ensures |parts| == 0 ==> r == ""
    ensures |parts| > 0 ==> |r| == TotalLength(parts) + |parts| - 1
    ensures |parts| > 0 ==> parts[0] <= r
    decreases |parts|
  {
    if |parts| == 0 then ""
    else if |parts| == 1 then parts[0]
    else parts[0] + [sep] + Join(parts[1..], sep)
  }

  /** `strings.ReplaceAll(s, pat, "")`: every leftmost, non-overlapping
      occurrence of `pat` is deleted, scanning left to right. */
  function RemoveAll(s: string, pat: string): (r: string)
    requires |pat| > 0
    ensures |r| <= |s|
    decreases |s|
  {
    if |s| < |pat| then s
    else if s[..|pat|] == pat then RemoveAll(s[|pat|..], pat)
    else [s[0]] + RemoveAll(s[1..], pat)
  }

  /** Joining the pieces of a split gives back the string. */
  lemma {:induction false} JoinSplit(s: string, sep: char)
    ensures Join(Split(s, sep), sep) == s
    decreases |s|
  {
    if |s| > 0 {
      JoinSplit(s[1..], sep);
      var rest := Split(s[1..], sep);
      assert s == [s[0]] + s[1..];
      if s[0] == sep {
        assert ([""] + rest)[1..] == rest;
      } else if |rest| > 1 {
        var parts := [[s[0]] + rest[0]] + rest[1..];
        assert parts[1..] == rest[1..];
        assert Join(rest, sep) == rest[0] + [sep] + Join(rest[1..], sep);
      }
    }
  }

  /** A string without the separator is one piece. */
  lemma {:induction false} SplitNoSeparator(a: string, sep: char)
    requires sep !in a
    ensures Split(a, sep) == [a]
    decreases |a|
  {
    if |a| > 0 {
      SplitNoSeparator(a[1..], sep);
      assert [a[0]] + a[1..] == a;
    }
  }

  /** A separator after a separator-free prefix ends the first piece there. */
  lemma {:induction false} SplitAtSeparator(a: string, t: string, sep: char)
    requires sep !in a
    ensures Split(a + [sep] + t, sep) == [a] + Split(t, sep)
    decreases |a|
  {
    var s := a + [sep] + t;
    if |a| == 0 {
      assert s[1..] == t;
    } else {
      SplitAtSeparator(a[1..], t, sep);
      assert s[1..] == a[1..] + [sep] + t;
      assert [a[0]] + a[1..] == a;
    }
  }

  /** Splitting a join of separator-free pieces gives back the pieces. */
  lemma {:induction false} SplitJoin(parts: seq<string>, sep: char)
    requires |parts| >= 1
    requires forall i :: 0 <= i < |parts| ==> sep !in parts[i]
    ensures Split(Join(parts, sep), sep) == parts
    decreases |parts|
  {
    if |parts| == 1 {
      SplitNoSeparator(parts[0], sep);
    } else {
      SplitJoin(parts[1..], sep);
      SplitAtSeparator(parts[0], Join(parts[1..], sep), sep);
      assert [parts[0]] + parts[1..] == parts;
    }
  }

  /** No occurrence of `pat` can start inside a prefix that lacks `pat`'s
      first character, so the prefix survives untouched. */
  lemma {:induction false} RemoveAllKeepsPrefix(h: string, t: string, pat: string)
    requires |pat| > 0
    requires pat[0] !in h
    ensures RemoveAll(h + t, pat) == h + RemoveAll(t, pat)
    decreases |h|
  {
    if |h| == 0 {
      assert h + t == t;
    } else {
      var s := h + t;
      if |s| < |pat| {
        assert RemoveAll(t, pat) == t;
      } else {
        assert s[..|pat|][0] == h[0];
        assert s[1..] == h[1..] + t;
        RemoveAllKeepsPrefix(h[1..], t, pat);
        assert [h[0]] + h[1..] == h;
      }
    }
  }

  /** A leading occurrence of `pat` is deleted. */
  lemma RemoveAllDropsLeading(t: string, pat: string)
    requires |pat| > 0
    ensures RemoveAll(pat + t, pat) == RemoveAll(t, pat)
  {
    var s := pat + t;
    assert s[..|pat|] == pat;
    assert s[|pat|..] == t;
  }

  /** `pat` occurs in `s` starting at index `i`. */
  predicate OccursAt(s: string, pat: string, i: nat)
  {
    i + |pat| <= |s| && s[i..i + |pat|] == pat
  }

  /** A string in which `pat` occurs nowhere comes out unchanged. */
  lemma {:induction false} RemoveAllWithoutOccurrence(s: string, pat: string)
    requires |pat| > 0
    requires forall i: nat :: !OccursAt(s, pat, i)
    ensures RemoveAll(s, pat) == s
    decreases |s|
  {
    if |s| >= |pat| {
      assert !OccursAt(s, pat, 0);
      assert s[0..|pat|] == s[..|pat|];
      var t := s[1..];
      forall i: nat ensures !OccursAt(t, pat, i) {
        assert !OccursAt(s, pat, i + 1);
        if i + |pat| <= |t| {
          assert t[i..i + |pat|] == s[i + 1..i + 1 + |pat|];
        }
      }
      RemoveAllWithoutOccurrence(t, pat);
      assert [s[0]] + t == s;
    }
  }

  /** Deletion does not rescan what it has already passed: removing the
      inner `:21` of `:21:218181` leaves a new `:2181` in the result. */
  lemma RemoveAllDoesNotRescan()
    ensures RemoveAll(":21:218181", ":2181") == ":2181"
  {
    var pat := ":2181";
    var s := ":21:218181";
    var s1, s2, s3 := s[1..], s[2..], s[3..];
    assert s[..5] != pat by { assert s[..5][3] == ':' != pat[3]; }
    assert s1[..5] != pat by { assert s1[..5][0] == '2' != pat[0]; }
    assert s2[..5] != pat by { assert s2[..5][0] == '1' != pat[0]; }
    assert s3[..5] == pat;
    assert s3[5..] == "81";
    assert RemoveAll("81", pat) == "81";
    assert RemoveAll(s3, pat) == "81";
    assert s2[1..] == s3 && s2[0] == '1';
    assert RemoveAll(s2, pat) == "181";
    assert s1[1..] == s2 && s1[0] == '2';
    assert RemoveAll(s1, pat) == "2181";
    assert s[1..] == s1 && s[0] == ':';
  }
}
