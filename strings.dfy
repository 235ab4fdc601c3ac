/** The few functions of Go's `strings` and `path/filepath` packages that the
    handlers and middleware rely on, on strings as sequences of characters. */
module Strings {

  predicate HasPrefix(s: string, p: string) {
    |p| <= |s| && s[..|p|] == p
  }

  /** `strings.TrimPrefix`: removes ONE leading copy of `p`, if there is one. */
  function TrimPrefix(s: string, p: string): (r: string)
    ensures HasPrefix(s, p) ==> p + r == s
    ensures !HasPrefix(s, p) ==> r == s
  {
    if HasPrefix(s, p) then s[|p|..] else s
  }

  lemma TrimPrefixOfConcat(p: string, t: string)
    ensures TrimPrefix(p + t, p) == t
  {
    assert (p + t)[..|p|] == p;
  }

  /** Number of occurrences of `c` in `s`. */
  function Occurrences(s: string, c: char): nat {
    if s == [] then 0 else (if s[0] == c then 1 else 0) + Occurrences(s[1..], c)
  }

  /** `strings.Join` with a one-character separator. */
  function Join(parts: seq<string>, sep: char): string
    decreases |parts|
  {
    if |parts| == 0 then ""
    else if |parts| == 1 then parts[0]
    else parts[0] + [sep] + Join(parts[1..], sep)
  }

  /** `strings.Split` with a one-character separator: the pieces between the
      separators, never fewer than one (the empty string splits into [""]). */
  function Split(s: string, sep: char): (parts: seq<string>)
    ensures |parts| == Occurrences(s, sep) + 1
    ensures forall i :: 0 <= i < |parts| ==> sep !in parts[i]
    ensures Join(parts, sep) == s
    decreases |s|
  {
    if s == [] then [""]
    else
      var rest := Split(s[1..], sep);
      if s[0] == sep then
        assert s == [sep] + s[1..];
        [""] + rest
      else
        var parts := [[s[0]] + rest[0]] + rest[1..];
        assert parts[1..] == rest[1..];
        assert s == [s[0]] + s[1..];
        assert Join(parts, sep) == [s[0]] + Join(rest, sep);
        parts
  }

  lemma {:induction false} SplitWithoutSeparator(s: string, sep: char)
    requires sep !in s
    ensures Split(s, sep) == [s]
    decreases |s|
  {
    if s != [] {
      SplitWithoutSeparator(s[1..], sep);
      assert [s[0]] + s[1..] == s;
    }
  }

  lemma {:induction false} SplitAtFirstSeparator(p: string, sep: char, t: string)
    requires sep !in p
    ensures Split(p + [sep] + t, sep) == [p] + Split(t, sep)
    decreases |p|
  {
    var s := p + [sep] + t;
    if p == [] {
      assert s[1..] == t;
    } else {
      assert s[1..] == p[1..] + [sep] + t;
      SplitAtFirstSeparator(p[1..], sep, t);
      assert [p[0]] + p[1..] == p;
    }
  }

  /** Splitting undoes joining, for pieces that hold no separator. */
  lemma {:induction false} SplitJoin(parts: seq<string>, sep: char)
    requires |parts| >= 1
    requires forall i :: 0 <= i < |parts| ==> sep !in parts[i]
    ensures Split(Join(parts, sep), sep) == parts
    decreases |parts|
  {
    if |parts| == 1 {
      SplitWithoutSeparator(parts[0], sep);
    } else {
      SplitJoin(parts[1..], sep);
      SplitAtFirstSeparator(parts[0], sep, Join(parts[1..], sep));
      assert [parts[0]] + parts[1..] == parts;
    }
  }

  /** ASCII case mapping of `strings.ToLower`. */
  function ToLowerChar(c: char): char {
    if 'A' <= c <= 'Z' then (c as int + 32) as char else c
  }

  function ToLower(s: string): (r: string)
    ensures |r| == |s|
    ensures forall i :: 0 <= i < |s| ==> r[i] == ToLowerChar(s[i])
  {
    seq(|s|, i requires 0 <= i < |s| => ToLowerChar(s[i]))
  }

  /** `filepath.Ext` with '/' as the separator: the suffix of the last path
      element that starts at its final '.', or "" when that element has none. */
  function Ext(path: string): (e: string)
    ensures |e| <= |path|
    decreases |path|
  {
    if |path| == 0 then ""
    else
      var last := path[|path| - 1];
      if last == '/' then ""
      else if last == '.' then "."
      else
        var e := Ext(path[..|path| - 1]);
        if e == "" then "" else e + [last]
  }

  /** The extension is a suffix of the name; when there is one, it starts with
      its only '.' and holds no '/'. */
  lemma {:induction false} ExtIsDottedSuffix(path: string)
    ensures |Ext(path)| <= |path| && Ext(path) == path[|path| - |Ext(path)|..]
    ensures Ext(path) != "" ==> Ext(path)[0] == '.' && '.' !in Ext(path)[1..] && '/' !in Ext(path)
    decreases |path|
  {
    if |path| > 0 {
      var last := path[|path| - 1];
      if last != '/' && last != '.' {
        var front := path[..|path| - 1];
        ExtIsDottedSuffix(front);
        var e := Ext(front);
        if e != "" {
          assert Ext(path) == e + [last];
          assert (e + [last])[1..] == e[1..] + [last];
          assert path[|path| - |e| - 1..] == front[|front| - |e|..] + [last];
        }
      }
    }
  }

  /** No extension means no '.' in the last path element: every character
      that is not followed by a '/' is not a '.'. */
  lemma {:induction false} ExtEmptyMeansNoDot(path: string)
    requires Ext(path) == ""
    ensures forall i :: 0 <= i < |path| && '/' !in path[i..] ==> path[i] != '.'
    decreases |path|
  {
    if |path| > 0 {
      var last := path[|path| - 1];
      if last == '/' {
        assert forall i :: 0 <= i < |path| ==> last in path[i..];
      } else {
        var front := path[..|path| - 1];
        ExtEmptyMeansNoDot(front);
        assert forall i :: 0 <= i < |front| ==> path[i..] == front[i..] + [last];
      }
    }
  }

  /** A dotted suffix with no other '.' and no '/' is exactly the extension,
      whatever precedes it. */
  lemma {:induction false} ExtOfDottedSuffix(stem: string, x: string)
    requires x != "" && x[0] == '.' && '.' !in x[1..] && '/' !in x
    ensures Ext(stem + x) == x
    decreases |x|
  {
    var path := stem + x;
    if |x| == 1 {
      assert path[|path| - 1] == '.';
    } else {
      var x' := x[..|x| - 1];
      var last := x[|x| - 1];
      assert '.' !in x'[1..] by {
        assert x'[1..] == x[1..|x| - 1];
      }
      assert last != '.' by {
        assert last in x[1..];
      }
      ExtOfDottedSuffix(stem, x');
      assert path[..|path| - 1] == stem + x';
      ExtExtends(path);
      assert x' + [last] == x;
    }
  }

  /** One more character that is neither '/' nor '.' extends a non-empty
      extension. */
  lemma ExtExtends(path: string)
    requires |path| > 0 && path[|path| - 1] != '/' && path[|path| - 1] != '.'
    requires Ext(path[..|path| - 1]) != ""
    ensures Ext(path) == Ext(path[..|path| - 1]) + [path[|path| - 1]]
  {
  }

  /** A name with no '.' has no extension. */
  lemma ExtWithoutDot(path: string)
    requires '.' !in path
    ensures Ext(path) == ""
  {
  }
}
