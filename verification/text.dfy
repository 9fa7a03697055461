/** The handful of Python `str` operations the reshaping engine relies on:
    `startswith`, `strip(chars)`, `split(sep)` and the substring test `x in s`. */
module PyText {

  /** `s.startswith(p)` */
  predicate StartsWith(s: string, p: string) {
    |p| <= |s| && s[..|p|] == p
  }

  /** `f in s` for two strings: `f` occurs somewhere in `s` (the empty string occurs everywhere). */
  predicate Contains(s: string, f: string)
    decreases |s|
  {
    StartsWith(s, f) || (|s| > 0 && Contains(s[1..], f))
  }

  /** `s.lstrip(cs)`: drops every leading character that occurs in `cs`. */
  function LStrip(s: string, cs: string): (r: string)
    ensures |r| <= |s|
    decreases |s|
  {
    if |s| > 0 && s[0] in cs then LStrip(s[1..], cs) else s
  }

  /** `lstrip` keeps a suffix of `s`: what it drops is made of characters of `cs`, and
      what it keeps does not start with one. */
  lemma {:induction false} LStripShape(s: string, cs: string)
    ensures var r := LStrip(s, cs);
      && |r| <= |s| && r == s[|s| - |r|..]
      && (forall j :: 0 <= j < |s| - |r| ==> s[j] in cs)
      && (r != [] ==> r[0] !in cs)
    decreases |s|
  {
    if |s| > 0 && s[0] in cs {
      LStripShape(s[1..], cs);
    }
  }

  /** `s.rstrip(cs)`: drops every trailing character that occurs in `cs`. */
  function RStrip(s: string, cs: string): (r: string)
    ensures |r| <= |s|
    decreases |s|
  {
    if |s| > 0 && s[|s| - 1] in cs then RStrip(s[..|s| - 1], cs) else s
  }

  /** `rstrip` keeps a prefix of `s`: what it drops is made of characters of `cs`, and
      what it keeps does not end with one. */
  lemma {:induction false} RStripShape(s: string, cs: string)
    ensures var r := RStrip(s, cs);
      && |r| <= |s| && r == s[..|r|]
      && (forall j :: |r| <= j < |s| ==> s[j] in cs)
      && (r != [] ==> r[|r| - 1] !in cs)
    decreases |s|
  {
    if |s| > 0 && s[|s| - 1] in cs {
      RStripShape(s[..|s| - 1], cs);
    }
  }

  /** `s.strip(cs)`: both ends trimmed of the characters in `cs`. */
  function Strip(s: string, cs: string): string {
    RStrip(LStrip(s, cs), cs)
  }

  /** A stripped string neither starts nor ends with a character of `cs`; it is the
      slice of the input that starts where `lstrip` stopped, and everything cut off
      on either side consists of characters of `cs`. */
  lemma StripShape(s: string, cs: string)
    ensures var r := Strip(s, cs);
      var a := |s| - |LStrip(s, cs)|;
      && (r != [] ==> r[0] !in cs && r[|r| - 1] !in cs)
      && a + |r| <= |s| && r == s[a..a + |r|]
      && (forall j :: 0 <= j < a ==> s[j] in cs)
      && (forall j :: a + |r| <= j < |s| ==> s[j] in cs)
  {
    var l := LStrip(s, cs);
    var r := RStrip(l, cs);
    var a := |s| - |l|;
    LStripShape(s, cs);
    RStripShape(l, cs);
    assert r == s[a..a + |r|] by {
      assert l == s[a..] && r == l[..|r|];
    }
    assert r != [] ==> r[0] !in cs by {
      assert r != [] ==> r[0] == l[0];
    }
    forall j | a + |r| <= j < |s|
      ensures s[j] in cs
    {
      assert s[j] == l[j - a];
    }
  }

  /** A string whose ends are already clear of `cs` is left alone by `strip`. */
  lemma StripFixed(s: string, cs: string)
    requires s != [] ==> s[0] !in cs && s[|s| - 1] !in cs
    ensures Strip(s, cs) == s
  {
  }

  /** `strip` is idempotent. */
  lemma StripIdempotent(s: string, cs: string)
    ensures Strip(Strip(s, cs), cs) == Strip(s, cs)
  {
    StripShape(s, cs);
    StripFixed(Strip(s, cs), cs);
  }

  /** Stripping with a subset `ds` of the characters `cs` after stripping with `cs` changes nothing. */
  lemma StripAfterWider(s: string, cs: string, ds: string)
    requires forall c :: c in ds ==> c in cs
    ensures Strip(Strip(s, cs), ds) == Strip(s, cs)
  {
    StripShape(s, cs);
    StripFixed(Strip(s, cs), ds);
  }

  /** A leading character of `cs` makes no difference to `strip(cs)`. */
  lemma StripLeading(c: char, s: string, cs: string)
    requires c in cs
    ensures Strip([c] + s, cs) == Strip(s, cs)
  {
    assert ([c] + s)[1..] == s;
  }

  /** A trailing character of `cs` makes no difference to `rstrip(cs)`. */
  lemma RStripTrailing(s: string, c: char, cs: string)
    requires c in cs
    ensures RStrip(s + [c], cs) == RStrip(s, cs)
  {
    assert (s + [c])[..|s|] == s;
  }

  /** `s.split(sep)`: the pieces between occurrences of `sep`, empty pieces included. */
  function Split(s: string, sep: char): (r: seq<string>)
    ensures |r| >= 1
    decreases |s|
  {
    if s == [] then [""]
    else
      var rest := Split(s[1..], sep);
      if s[0] == sep then [""] + rest
      else [[s[0]] + rest[0]] + rest[1..]
  }

  /** `sep.join(parts)` */
  function Join(parts: seq<string>, sep: char): string
    decreases |parts|
  {
    if parts == [] then ""
    else if |parts| == 1 then parts[0]
    else parts[0] + [sep] + Join(parts[1..], sep)
  }

  /** `split` loses nothing: joining the pieces with the separator gives back the string. */
  lemma {:induction false} SplitJoin(s: string, sep: char)
    ensures Join(Split(s, sep), sep) == s
    decreases |s|
  {
    if s != [] {
      var rest := Split(s[1..], sep);
      SplitJoin(s[1..], sep);
      if s[0] == sep {
        assert Split(s, sep) == [""] + rest;
        assert ([""] + rest)[1..] == rest;
      } else {
        var r := Split(s, sep);
        assert r == [[s[0]] + rest[0]] + rest[1..];
        if |rest| == 1 {
          assert r == [[s[0]] + rest[0]];
        } else {
          assert r[1..] == rest[1..];
          assert Join(rest, sep) == rest[0] + [sep] + Join(rest[1..], sep);
        }
      }
    }
  }

  /** A string without the separator is split into itself alone. */
  lemma {:induction false} SplitNoSeparator(s: string, sep: char)
    requires sep !in s
    ensures Split(s, sep) == [s]
    decreases |s|
  {
    if s != [] {
      assert sep !in s[1..];
      SplitNoSeparator(s[1..], sep);
      assert [s[0]] + s[1..] == s;
    }
  }

  /** Splitting `a + [sep] + b` splits `a` and `b` apart and concatenates the pieces. */
  lemma {:induction false} SplitConcat(a: string, sep: char, b: string)
    ensures Split(a + [sep] + b, sep) == Split(a, sep) + Split(b, sep)
    decreases |a|
  {
    if a == [] {
      assert a + [sep] + b == [sep] + b;
      assert ([sep] + b)[1..] == b;
    } else {
      assert (a + [sep] + b)[1..] == a[1..] + [sep] + b;
      SplitConcat(a[1..], sep, b);
    }
  }
}
