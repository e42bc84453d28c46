/** The JavaScript string operations the worker relies on, for a one-character separator. */
module Strings {

  /** `s.split(sep)`: the pieces between occurrences of `sep`, in order; `"".split(sep)` is `[""]`. */
  function Split(s: string, sep: char): (parts: seq<string>)
    ensures |parts| >= 1
    ensures forall i :: 0 <= i < |parts| ==> sep !in parts[i]
    decreases |s|
  {
    if s == [] then [""]
    else
      var rest := Split(s[1..], sep);
      assert s == [s[0]] + s[1..];
      if s[0] == sep then [""] + rest
      else [[s[0]] + rest[0]] + rest[1..]
  }

  /** `parts.join(sep)`. */
  function Join(parts: seq<string>, sep: char): string
  {
    if parts == [] then ""
    else if |parts| == 1 then parts[0]
    else parts[0] + [sep] + Join(parts[1..], sep)
  }

  /** `s.endsWith(c)` for a single character. */
  predicate EndsWith(s: string, c: char)
  {
    |s| > 0 && s[|s| - 1] == c
  }

  /** Joining the pieces of a split gives back the string. */
  lemma {:induction false} JoinSplit(s: string, sep: char)
    ensures Join(Split(s, sep), sep) == s
    decreases |s|
  {
    if s != [] {
      var rest := Split(s[1..], sep);
      JoinSplit(s[1..], sep);
      assert s == [s[0]] + s[1..];
      if s[0] == sep {
        var parts := [""] + rest;
        assert parts[0] == "" && parts[1..] == rest && |parts| >= 2;
        calc {
          Join(Split(s, sep), sep);
          Join(parts, sep);
          parts[0] + [sep] + Join(parts[1..], sep);
          [sep] + s[1..];
        }
      } else if |rest| == 1 {
        calc {
          Join(Split(s, sep), sep);
          Join([[s[0]] + rest[0]], sep);
          [s[0]] + rest[0];
          { assert Join(rest, sep) == rest[0]; }
          [s[0]] + s[1..];
        }
      } else {
        var parts := [[s[0]] + rest[0]] + rest[1..];
        assert parts[0] == [s[0]] + rest[0] && parts[1..] == rest[1..] && |parts| >= 2;
        calc {
          Join(Split(s, sep), sep);
          Join(parts, sep);
          parts[0] + [sep] + Join(parts[1..], sep);
          [s[0]] + (rest[0] + [sep] + Join(rest[1..], sep));
          { assert Join(rest, sep) == rest[0] + [sep] + Join(rest[1..], sep); }
          [s[0]] + s[1..];
        }
      }
    }
  }

  /** A string splits into a single piece exactly when it holds no separator, and that piece is the string. */
  lemma {:induction false} SplitSingle(s: string, sep: char)
    ensures |Split(s, sep)| == 1 <==> sep !in s
    ensures sep !in s ==> Split(s, sep) == [s]
    decreases |s|
  {
    if s != [] {
      assert s == [s[0]] + s[1..];
      SplitSingle(s[1..], sep);
    }
  }

  /** A separator-free prefix followed by the separator becomes the first piece. */
  lemma {:induction false} SplitAfterPiece(p: string, sep: char, rest: string)
    requires sep !in p
    ensures Split(p + [sep] + rest, sep) == [p] + Split(rest, sep)
    decreases |p|
  {
    var s := p + [sep] + rest;
    if p == [] {
      assert s[0] == sep && s[1..] == rest;
    } else {
      assert s[0] == p[0] && p[0] != sep;
      assert s[1..] == p[1..] + [sep] + rest;
      SplitAfterPiece(p[1..], sep, rest);
      var r := Split(s[1..], sep);
      assert r[0] == p[1..] && r[1..] == Split(rest, sep);
      assert [p[0]] + p[1..] == p;
      calc {
        Split(s, sep);
        [[s[0]] + r[0]] + r[1..];
        [p] + Split(rest, sep);
      }
    }
  }

  /** Splitting a join of separator-free pieces gives back the pieces. */
  lemma {:induction false} SplitJoin(parts: seq<string>, sep: char)
    requires |parts| >= 1
    requires forall i :: 0 <= i < |parts| ==> sep !in parts[i]
    ensures Split(Join(parts, sep), sep) == parts
    decreases |parts|
  {
    if |parts| == 1 {
      SplitSingle(parts[0], sep);
    } else {
      SplitJoin(parts[1..], sep);
      SplitAfterPiece(parts[0], sep, Join(parts[1..], sep));
      assert [parts[0]] + parts[1..] == parts;
    }
  }
}
