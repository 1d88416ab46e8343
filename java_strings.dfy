/** The few java.lang.String operations the bot relies on: split on a single
    separator character, joining with a separator, startsWith and contains. */
module JavaStrings {

  /** Every field between separators, empty ones included ("a__b" has three). */
  function SplitAll(s: string, sep: char): (fields: seq<string>)
    ensures |fields| >= 1
  {
    if s == [] then [""]
    else if s[0] == sep then [""] + SplitAll(s[1..], sep)
    else
      var rest := SplitAll(s[1..], sep);
      [[s[0]] + rest[0]] + rest[1..]
  }

  /** Drops empty fields from the end, as String.split with limit 0 does. */
  function DropTrailingEmpty(fields: seq<string>): (r: seq<string>)
    ensures |r| <= |fields| && r == fields[..|r|]
    ensures r != [] ==> r[|r| - 1] != ""
    ensures forall i :: |r| <= i < |fields| ==> fields[i] == ""
  {
    if fields != [] && fields[|fields| - 1] == "" then DropTrailingEmpty(fields[..|fields| - 1])
    else fields
  }

  /** Java's s.split(sep) for a separator that is not a regular-expression
      metacharacter: a string without the separator comes back whole (so ""
      gives [""]); otherwise the fields, trailing empty ones removed. */
  function JavaSplit(s: string, sep: char): seq<string>
  {
    if sep !in s then [s] else DropTrailingEmpty(SplitAll(s, sep))
  }

  /** parts[0] + sep + parts[1] + ... with no separator at either end. */
  function Join(parts: seq<string>, sep: char): string
  {
    if |parts| == 0 then ""
    else if |parts| == 1 then parts[0]
    else parts[0] + [sep] + Join(parts[1..], sep)
  }

  lemma JoinThree(a: string, b: string, c: string, sep: char)
    ensures Join([a, b, c], sep) == a + [sep] + b + [sep] + c
  {
    assert [b, c][1..] == [c];
    assert Join([b, c], sep) == b + [sep] + c;
    assert [a, b, c][1..] == [b, c];
    assert Join([a, b, c], sep) == a + [sep] + Join([b, c], sep);
  }

  predicate StartsWith(s: string, prefix: string)
  {
    |prefix| <= |s| && s[..|prefix|] == prefix
  }

  /** part occurs somewhere in s, as String.contains. */
  predicate Contains(s: string, part: string)
  {
    StartsWith(s, part) || (s != [] && Contains(s[1..], part))
  }

  lemma {:induction false} SplitAllNoSeparator(s: string, sep: char)
    requires sep !in s
    ensures SplitAll(s, sep) == [s]
  {
    if s != [] {
      SplitAllNoSeparator(s[1..], sep);
      assert [s[0]] + s[1..] == s;
    }
  }

  /** A separator ends the field that precedes it and starts a new one. */
  lemma {:induction false} SplitAllConcat(a: string, b: string, sep: char)
    ensures SplitAll(a + [sep] + b, sep) == SplitAll(a, sep) + SplitAll(b, sep)
  {
    var s := a + [sep] + b;
    if a == [] {
      assert s[0] == sep && s[1..] == b;
    } else {
      assert s[0] == a[0] && s[1..] == a[1..] + [sep] + b;
      SplitAllConcat(a[1..], b, sep);
    }
  }

  /** Joining the fields of a string gives the string back. */
  lemma {:induction false} JoinSplitAll(s: string, sep: char)
    ensures Join(SplitAll(s, sep), sep) == s
  {
    if s == [] {
    } else if s[0] == sep {
      JoinSplitAll(s[1..], sep);
      assert s == [sep] + s[1..];
    } else {
      var rest := SplitAll(s[1..], sep);
      JoinSplitAll(s[1..], sep);
      var fields := [[s[0]] + rest[0]] + rest[1..];
      assert fields[1..] == rest[1..];
      if |rest| == 1 {
        assert s == [s[0]] + rest[0];
      } else {
        assert rest == [rest[0]] + rest[1..];
        assert Join(rest, sep) == rest[0] + [sep] + Join(rest[1..], sep);
        assert s == [s[0]] + s[1..];
      }
    }
  }

  /** Splitting a join gives the parts back when no part holds the separator. */
  lemma {:induction false} SplitAllJoin(parts: seq<string>, sep: char)
    requires |parts| >= 1
    requires forall i :: 0 <= i < |parts| ==> sep !in parts[i]
    ensures SplitAll(Join(parts, sep), sep) == parts
  {
    if |parts| == 1 {
      SplitAllNoSeparator(parts[0], sep);
    } else {
      SplitAllJoin(parts[1..], sep);
      SplitAllConcat(parts[0], Join(parts[1..], sep), sep);
      SplitAllNoSeparator(parts[0], sep);
      assert parts == [parts[0]] + parts[1..];
    }
  }

  /** The first field of a split, when the text before the first separator is
      not empty, is that text. */
  lemma JavaSplitHead(a: string, b: string, sep: char)
    requires sep !in a && a != ""
    ensures |JavaSplit(a + [sep] + b, sep)| >= 1
    ensures JavaSplit(a + [sep] + b, sep)[0] == a
  {
    var s := a + [sep] + b;
    assert s[|a|] == sep;
    SplitAllConcat(a, b, sep);
    SplitAllNoSeparator(a, sep);
    var fields := SplitAll(s, sep);
    assert fields[0] == a;
    assert fields[0] != "";
  }
}
