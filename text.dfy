/**
 * String helpers the tagger relies on: Python truthiness of an optional
 * string, `str.lower`, `str.endswith`, `str.strip`, `', '.join` and the
 * `[|,]` splitter used on Wikipedia infobox cells.
 * Case mapping and white space follow the ASCII subset of Python's rules.
 */
module Text {
  import opened Wrappers
  import opened Seqs

  /** `if s:` on a value that is either None or a string. */
  predicate Truthy(o: Option<string>)
  {
    o.Some? && o.value != ""
  }

  // ---------------------------------------------------------------------
  // lower()
  // ---------------------------------------------------------------------

  function LowerChar(c: char): char
  {
    if 'A' <= c <= 'Z' then (c as int + 32) as char else c
  }

  /** ASCII `str.lower()`: every upper-case letter mapped, nothing else touched. */
  function Lower(s: string): (r: string)
    ensures |r| == |s|
    ensures forall k :: 0 <= k < |s| ==> r[k] == LowerChar(s[k])
    ensures forall k :: 0 <= k < |r| ==> !('A' <= r[k] <= 'Z')
  {
    seq(|s|, k requires 0 <= k < |s| => LowerChar(s[k]))
  }

  lemma LowerIdempotent(s: string)
    ensures Lower(Lower(s)) == Lower(s)
  {
  }

  /** `s.endswith(suffix)` */
  predicate EndsWith(s: string, suffix: string)
  {
    |suffix| <= |s| && s[|s| - |suffix|..] == suffix
  }

  // ---------------------------------------------------------------------
  // strip()
  // ---------------------------------------------------------------------

  /** ASCII characters for which Python's `str.isspace()` holds. */
  predicate IsSpace(c: char)
  {
    c == ' ' || c == '\t' || c == '\n' || c == '\r' ||
    c == '\U{0B}' || c == '\U{0C}' || ('\U{1C}' <= c <= '\U{1F}')
  }

  predicate AllSpace(s: string)
  {
    forall k :: 0 <= k < |s| ==> IsSpace(s[k])
  }

  /** `s.lstrip()`: drops the leading white space and nothing else. */
  function StripLeft(s: string): (r: string)
    ensures |r| <= |s| && r == s[|s| - |r|..]
    ensures forall k :: 0 <= k < |s| - |r| ==> IsSpace(s[k])
    ensures r == [] || !IsSpace(r[0])
  {
    if s != [] && IsSpace(s[0]) then StripLeft(s[1..]) else s
  }

  /** `s.rstrip()`: drops the trailing white space and nothing else. */
  function StripRight(s: string): (r: string)
    ensures |r| <= |s| && r == s[..|r|]
    ensures forall k :: |r| <= k < |s| ==> IsSpace(s[k])
    ensures r == [] || !IsSpace(r[|r| - 1])
  {
    if s != [] && IsSpace(s[|s| - 1]) then StripRight(s[..|s| - 1]) else s
  }

  /** `s.strip()` */
  function Strip(s: string): (r: string)
    ensures |r| <= |s|
    ensures r == [] || (!IsSpace(r[0]) && !IsSpace(r[|r| - 1]))
    ensures r == [] <==> AllSpace(s)
  {
    var t := StripLeft(s);
    var r := StripRight(t);
    assert t != [] ==> r != [] && r[0] == t[0];
    r
  }

  /**
   * The strip is the stretch of s between its leading and its trailing
   * white space: it starts where the leading white space ends, and
   * everything before it and everything after it is space.
   */
  lemma {:induction false} StripInfix(s: string)
    ensures var r, i := Strip(s), |s| - |StripLeft(s)|;
            && i + |r| <= |s| && r == s[i..][..|r|]
            && (forall k :: 0 <= k < i ==> IsSpace(s[k]))
            && (forall k :: i + |r| <= k < |s| ==> IsSpace(s[k]))
  {
    var t := StripLeft(s);
    var i := |s| - |t|;
    forall k | i + |Strip(s)| <= k < |s|
      ensures IsSpace(s[k])
    {
      assert s[k] == t[k - i];
    }
  }

  /** Leading white space never survives a strip. */
  lemma StripAfterSpace(c: char, s: string)
    requires IsSpace(c)
    ensures Strip([c] + s) == Strip(s)
  {
    assert ([c] + s)[1..] == s;
  }

  // ---------------------------------------------------------------------
  // ', '.join(...)
  // ---------------------------------------------------------------------

  /** The number of characters in all the items together. */
  function TotalLength(xs: seq<string>): nat
  {
    if xs == [] then 0 else |xs[0]| + TotalLength(xs[1..])
  }

  /**
   * `sep.join(xs)`: the items with one separator between each two, so
   * it starts with the first item and ends with the last.
   */
  function JoinWith(xs: seq<string>, sep: string): (r: string)
    ensures xs != [] ==> |xs[0]| <= |r| && r[..|xs[0]|] == xs[0]
    ensures xs != [] ==> EndsWith(r, xs[|xs| - 1])
  {
    if |xs| == 0 then ""
    else if |xs| == 1 then xs[0]
    else
      var rest, last := JoinWith(xs[1..], sep), xs[|xs| - 1];
      var r := xs[0] + sep + rest;
      assert r[..|xs[0]|] == xs[0];
      assert xs[1..][|xs| - 2] == last;
      assert r[|r| - |last|..] == rest[|rest| - |last|..];
      r
  }

  /** Every character of the items, and one separator fewer than there are items. */
  lemma {:induction false} JoinLength(xs: seq<string>, sep: string)
    requires xs != []
    ensures |JoinWith(xs, sep)| + |sep| == TotalLength(xs) + |xs| * |sep|
  {
    if |xs| > 1 {
      JoinLength(xs[1..], sep);
      assert |xs| * |sep| == |sep| + (|xs| - 1) * |sep|;
    }
  }

  /** The joined string is empty only when nothing, or one empty item, was joined. */
  lemma JoinEmpty(xs: seq<string>, sep: string)
    requires sep != ""
    ensures JoinWith(xs, sep) == "" <==> xs == [] || xs == [""]
  {
    if |xs| > 1 {
      assert |JoinWith(xs, sep)| >= |sep|;
    }
  }

  // ---------------------------------------------------------------------
  // re.split(r'[\|,]', text)
  // ---------------------------------------------------------------------

  predicate IsSep(c: char)
  {
    c == '|' || c == ','
  }

  predicate NoSep(s: string)
  {
    forall k :: 0 <= k < |s| ==> !IsSep(s[k])
  }

  function SepCount(s: string): nat
  {
    if s == [] then 0 else (if IsSep(s[0]) then 1 else 0) + SepCount(s[1..])
  }

  /** Where the first separator is, or the length when there is none. */
  function FirstSep(s: string): (i: nat)
    ensures i <= |s| && NoSep(s[..i])
    ensures i < |s| ==> IsSep(s[i])
  {
    if s == [] || IsSep(s[0]) then 0 else 1 + FirstSep(s[1..])
  }

  /**
   * Splits at every `|` and `,`, keeping empty pieces, as `re.split` does:
   * one more piece than there are separators, none containing a separator.
   */
  function Split(s: string): (r: seq<string>)
    ensures |r| == SepCount(s) + 1
    ensures forall k :: 0 <= k < |r| ==> NoSep(r[k])
  {
    if s == [] then [""]
    else if IsSep(s[0]) then [""] + Split(s[1..])
    else
      var rest := Split(s[1..]);
      [[s[0]] + rest[0]] + rest[1..]
  }

  /**
   * The pieces, one cut at a time: the first piece is everything before the
   * first separator, and the others are the pieces of what follows it.
   */
  lemma {:induction false} SplitFirst(s: string)
    ensures Split(s)[0] == s[..FirstSep(s)]
    ensures FirstSep(s) == |s| ==> Split(s) == [s]
    ensures FirstSep(s) < |s| ==> Split(s)[1..] == Split(s[FirstSep(s) + 1..])
  {
    if s != [] && !IsSep(s[0]) {
      var i := FirstSep(s[1..]);
      SplitFirst(s[1..]);
      assert [s[0]] + s[1..][..i] == s[..i + 1];
      if i < |s[1..]| {
        assert s[1..][i + 1..] == s[i + 2..];
      } else {
        assert s[..i + 1] == s;
      }
    }
  }

  /** A separator-free prefix becomes the start of the first piece. */
  lemma {:induction false} SplitFreePrefix(x: string, t: string)
    requires NoSep(x)
    ensures Split(x + t) == [x + Split(t)[0]] + Split(t)[1..]
  {
    if x != [] {
      assert (x + t)[0] == x[0];
      assert (x + t)[1..] == x[1..] + t;
      SplitFreePrefix(x[1..], t);
      assert [x[0]] + (x[1..] + Split(t)[0]) == x + Split(t)[0];
    } else {
      assert x + t == t;
      assert x + Split(t)[0] == Split(t)[0];
      assert [Split(t)[0]] + Split(t)[1..] == Split(t);
    }
  }

  /** A separator-free string is a single piece. */
  lemma SplitWhole(x: string)
    requires NoSep(x)
    ensures Split(x) == [x]
  {
    SplitFreePrefix(x, "");
    assert x + "" == x;
  }

  /** A separator in front starts with an empty piece. */
  lemma SplitSepCons(c: char, t: string)
    requires IsSep(c)
    ensures Split([c] + t) == [""] + Split(t)
  {
    assert ([c] + t)[1..] == t;
  }

  /** A piece with no separator in front of a separator and more text. */
  lemma SplitPieceCons(x: string, c: char, t: string)
    requires NoSep(x) && IsSep(c)
    ensures Split(x + [c] + t) == [x] + Split(t)
  {
    assert x + [c] + t == x + ([c] + t);
    SplitFreePrefix(x, [c] + t);
    SplitSepCons(c, t);
    assert x + "" == x;
  }

  /** Splitting undoes a join whose separator is a split character. */
  lemma {:induction false} SplitJoin(xs: seq<string>, c: char)
    requires IsSep(c) && |xs| > 0
    requires forall k :: 0 <= k < |xs| ==> NoSep(xs[k])
    ensures Split(JoinWith(xs, [c])) == xs
  {
    if |xs| == 1 {
      SplitWhole(xs[0]);
    } else {
      var rest := JoinWith(xs[1..], [c]);
      SplitPieceCons(xs[0], c, rest);
      SplitJoin(xs[1..], c);
      assert [xs[0]] + xs[1..] == xs;
    }
  }

}
