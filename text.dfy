/**
 * The Python string operations the client and the bridge use: `sep.join`,
 * repeated `+=`, `str.split(sep)` and `str.strip()`.
 */
module Text {

  /** `sep.join(parts)`. */
  function Join(parts: seq<string>, sep: string): string {
    if |parts| == 0 then ""
    else if |parts| == 1 then parts[0]
    else parts[0] + sep + Join(parts[1..], sep)
  }

  /** The result of starting from `""` and appending each part with `+=`. */
  function Concat(parts: seq<string>): string {
    if parts == [] then "" else Concat(parts[..|parts| - 1]) + parts[|parts| - 1]
  }

  /** `s.split(sep)` for a one-character separator: the pieces between separators. */
  function Split(s: string, sep: char): (parts: seq<string>)
    ensures |parts| >= 1
    ensures forall i :: 0 <= i < |parts| ==> sep !in parts[i]
    decreases |s|
  {
    if s == [] then [""]
    else
      var rest := Split(s[1..], sep);
      if s[0] == sep then [""] + rest
      else [[s[0]] + rest[0]] + rest[1..]
  }

  /** Joining the pieces with the separator gives back the split string. */
  lemma {:induction false} JoinSplit(s: string, sep: char)
    ensures Join(Split(s, sep), [sep]) == s
    decreases |s|
  {
    if s != [] {
      var rest := Split(s[1..], sep);
      JoinSplit(s[1..], sep);
      if s[0] == sep {
        assert Split(s, sep) == [""] + rest;
      } else {
        var parts := Split(s, sep);
        assert parts == [[s[0]] + rest[0]] + rest[1..];
        if |rest| == 1 {
          assert s == [s[0]] + s[1..];
        } else {
          assert parts[1..] == rest[1..];
          assert Join(rest, [sep]) == rest[0] + [sep] + Join(rest[1..], [sep]);
          assert s == [s[0]] + s[1..];
        }
      }
    }
  }

  /** A string without the separator splits into itself alone. */
  lemma {:induction false} SplitWithoutSeparator(s: string, sep: char)
    requires sep !in s
    ensures Split(s, sep) == [s]
    decreases |s|
  {
    if s != [] {
      SplitWithoutSeparator(s[1..], sep);
      assert [s[0]] + s[1..] == s;
    }
  }

  /** Splitting `a + sep + b` yields `a` followed by the pieces of `b`. */
  lemma {:induction false} SplitAtSeparator(a: string, b: string, sep: char)
    requires sep !in a
    ensures Split(a + [sep] + b, sep) == [a] + Split(b, sep)
    decreases |a|
  {
    if a == [] {
      assert a + [sep] + b == [sep] + b;
      assert ([sep] + b)[1..] == b;
    } else {
      SplitAtSeparator(a[1..], b, sep);
      assert (a + [sep] + b)[1..] == a[1..] + [sep] + b;
      assert [a[0]] + a[1..] == a;
    }
  }

  /** Splitting a joined list of separator-free pieces gives the pieces back. */
  lemma {:induction false} SplitJoin(parts: seq<string>, sep: char)
    requires |parts| >= 1
    requires forall i :: 0 <= i < |parts| ==> sep !in parts[i]
    ensures Split(Join(parts, [sep]), sep) == parts
    decreases |parts|
  {
    if |parts| == 1 {
      SplitWithoutSeparator(parts[0], sep);
    } else {
      SplitJoin(parts[1..], sep);
      SplitAtSeparator(parts[0], Join(parts[1..], [sep]), sep);
      assert [parts[0]] + parts[1..] == parts;
    }
  }

  /** The characters Python's `str.isspace` accepts. */
  predicate IsSpace(c: char) {
    ('\t' <= c <= '\r') || ('\U{1C}' <= c <= ' ') || c == '\U{85}' || c == '\U{A0}'
    || c == '\U{1680}' || ('\U{2000}' <= c <= '\U{200A}') || c == '\U{2028}'
    || c == '\U{2029}' || c == '\U{202F}' || c == '\U{205F}' || c == '\U{3000}'
  }

  /** Neither end of `s` is whitespace. */
  predicate Trimmed(s: string) {
    s == [] || (!IsSpace(s[0]) && !IsSpace(s[|s| - 1]))
  }

  /** `s.lstrip()`: the suffix left after dropping leading whitespace. */
  function TrimStart(s: string): (r: string)
    ensures |r| <= |s| && r == s[|s| - |r|..]
    ensures r == [] || !IsSpace(r[0])
    ensures forall i :: 0 <= i < |s| - |r| ==> IsSpace(s[i])
    decreases |s|
  {
    if s != [] && IsSpace(s[0]) then TrimStart(s[1..]) else s
  }

  /** `s.rstrip()`: the prefix left after dropping trailing whitespace. */
  function TrimEnd(s: string): (r: string)
    ensures |r| <= |s| && r == s[..|r|]
    ensures r == [] || !IsSpace(r[|r| - 1])
    ensures forall i :: |r| <= i < |s| ==> IsSpace(s[i])
    decreases |s|
  {
    if s != [] && IsSpace(s[|s| - 1]) then TrimEnd(s[..|s| - 1]) else s
  }

  /** `s.strip()`: a slice of `s` with no whitespace at either end. */
  function Strip(s: string): (r: string)
    ensures Trimmed(r)
    ensures |r| <= |s|
    ensures forall c :: c in r ==> c in s
  {
    var t := TrimStart(s);
    var r := TrimEnd(t);
    TrimCut(s);
    SliceChars(s, |s| - |t|, r);
    assert r != [] ==> r[0] == t[0];
    r
  }

  /** `r` is `s` with the first `i` characters and some trailing ones cut, all of them whitespace. */
  predicate CutFrom(s: string, r: string, i: nat) {
    && i + |r| <= |s| && r == s[i..i + |r|]
    && (forall j :: 0 <= j < i ==> IsSpace(s[j]))
    && (forall j :: i + |r| <= j < |s| ==> IsSpace(s[j]))
  }

  /**
   * `s.strip()` is a contiguous slice of `s` from which only whitespace was
   * cut at either end; with `Trimmed`, that fixes it.
   */
  lemma StripSlice(s: string)
    ensures exists i :: CutFrom(s, Strip(s), i)
  {
    TrimCut(s);
    assert Strip(s) == TrimEnd(TrimStart(s));
  }

  /** Trimming the start, then the end, cuts only whitespace from a slice. */
  lemma TrimCut(s: string)
    ensures CutFrom(s, TrimEnd(TrimStart(s)), |s| - |TrimStart(s)|)
  {
    var t := TrimStart(s);
    CutOfTrims(s, t, TrimEnd(t));
  }

  /**
   * Dropping leading whitespace to get `t`, then trailing whitespace to get
   * `r`, cuts only whitespace from a slice of `s`.
   */
  lemma CutOfTrims(s: string, t: string, r: string)
    requires |t| <= |s| && t == s[|s| - |t|..] && forall j :: 0 <= j < |s| - |t| ==> IsSpace(s[j])
    requires |r| <= |t| && r == t[..|r|] && forall j :: |r| <= j < |t| ==> IsSpace(t[j])
    ensures CutFrom(s, r, |s| - |t|)
  {
    var i := |s| - |t|;
    assert s[i..][..|r|] == s[i..i + |r|];
    forall j | i + |r| <= j < |s| ensures IsSpace(s[j]) {
      assert s[j] == t[j - i];
    }
  }

  /** A slice holds only characters of the whole. */
  lemma SliceChars(s: string, i: nat, r: string)
    requires i + |r| <= |s| && r == s[i..i + |r|]
    ensures forall c :: c in r ==> c in s
  {
    forall c | c in r ensures c in s {
      var k :| 0 <= k < |r| && r[k] == c;
      assert s[i + k] == c;
    }
  }

  /** Stripping a string that is already trimmed leaves it as it is. */
  lemma StripTrimmed(s: string)
    requires Trimmed(s)
    ensures Strip(s) == s
  {
  }

  /** Stripping twice is stripping once. */
  lemma StripIdempotent(s: string)
    ensures Strip(Strip(s)) == Strip(s)
  {
    StripTrimmed(Strip(s));
  }
}
