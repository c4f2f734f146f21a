/**
 * The two JavaScript string operations the core relies on:
 * `String.prototype.split` with a one-character separator and
 * `Array.prototype.join`.
 */
module Strings {

  /** `s.split(sep)`: the pieces between occurrences of `sep`; always at least one piece. */
  function Split(s: string, sep: char): (parts: seq<string>)
    ensures |parts| >= 1
    ensures forall i :: 0 <= i < |parts| ==> sep !in parts[i]
    decreases |s|
  {
    if s == [] then [""]
    else
      var rest := Split(s[1..], sep);
      if s[0] == sep then [""] + rest
      else [[s[0]] + rest[0]] + rest[1..]
  }

  /** `parts.join(sep)`: the pieces in order with `sep` between neighbours; it starts with the first piece and ends with the last. */
  function Join(parts: seq<string>, sep: string): (r: string)
    ensures |parts| == 0 ==> r == ""
    ensures |parts| >= 1 ==> parts[0] <= r
    ensures |parts| >= 1 ==> (|parts[|parts| - 1]| <= |r| && r[|r| - |parts[|parts| - 1]|..] == parts[|parts| - 1])
    ensures |parts| >= 2 ==> parts[0] + sep <= r
    decreases |parts|
  {
    if |parts| == 0 then ""
    else if |parts| == 1 then parts[0]
    else parts[0] + sep + Join(parts[1..], sep)
  }

  /** A string without the separator is one piece. */
  lemma {:induction false} SplitWithoutSeparator(s: string, sep: char)
    requires sep !in s
    ensures Split(s, sep) == [s]
    decreases |s|
  {
    if s != [] {
      SplitWithoutSeparator(s[1..], sep);
      assert [s[0]] + s[1..] == s;
    }
  }

  /** The first separator ends the first piece. */
  lemma {:induction false} SplitAtFirst(a: string, sep: char, b: string)
    requires sep !in a
    ensures Split(a + [sep] + b, sep) == [a] + Split(b, sep)
    decreases |a|
  {
    if a == [] {
      assert a + [sep] + b == [sep] + b;
      assert ([sep] + b)[1..] == b;
    } else {
      var s := a + [sep] + b;
      assert s[0] == a[0];
      assert s[1..] == a[1..] + [sep] + b;
      SplitAtFirst(a[1..], sep, b);
      assert [a[0]] + a[1..] == a;
    }
  }

  /** The first piece is the longest prefix without the separator. */
  lemma {:induction false} SplitFirstPiece(s: string, sep: char)
    ensures Split(s, sep)[0] <= s
    ensures |Split(s, sep)[0]| < |s| ==> s[|Split(s, sep)[0]|] == sep
    ensures |Split(s, sep)| > 1 ==> |Split(s, sep)[0]| < |s|
    decreases |s|
  {
    if s != [] && s[0] != sep {
      SplitFirstPiece(s[1..], sep);
    }
  }

  /** Joining a first piece in front of at least one more. */
  lemma JoinCons(first: string, rest: seq<string>, sep: string)
    requires |rest| >= 1
    ensures Join([first] + rest, sep) == first + sep + Join(rest, sep)
  {
    assert ([first] + rest)[1..] == rest;
  }

  /** Splitting and joining again with the same separator gives the string back: no character is lost or added. */
  lemma {:induction false} JoinSplit(s: string, sep: char)
    ensures Join(Split(s, sep), [sep]) == s
    decreases |s|
  {
    if s != [] {
      JoinSplit(s[1..], sep);
      JoinSplitStep(s, sep);
    }
  }

  /** One step of `JoinSplit`: the first character goes back in front of the rejoined rest. */
  lemma JoinSplitStep(s: string, sep: char)
    requires s != []
    requires Join(Split(s[1..], sep), [sep]) == s[1..]
    ensures Join(Split(s, sep), [sep]) == s
  {
    assert s == [s[0]] + s[1..];
    if s[0] == sep {
      JoinSplitSeparator(s[1..], sep);
    } else {
      JoinSplitOther(s[0], s[1..], sep);
    }
  }

  /** A leading separator opens an empty first piece. */
  lemma JoinSplitSeparator(t: string, sep: char)
    requires Join(Split(t, sep), [sep]) == t
    ensures Join(Split([sep] + t, sep), [sep]) == [sep] + t
  {
    assert ([sep] + t)[1..] == t;
    JoinCons("", Split(t, sep), [sep]);
  }

  /** Any other leading character extends the first piece. */
  lemma JoinSplitOther(c: char, t: string, sep: char)
    requires c != sep
    requires Join(Split(t, sep), [sep]) == t
    ensures Join(Split([c] + t, sep), [sep]) == [c] + t
  {
    var rest := Split(t, sep);
    assert ([c] + t)[1..] == t;
    assert Split([c] + t, sep) == [[c] + rest[0]] + rest[1..];
    if |rest| > 1 {
      assert rest == [rest[0]] + rest[1..];
      JoinExtendFirst(c, rest[0], rest[1..], [sep]);
    }
  }

  /** A character put in front of the first piece ends up in front of the joined text. */
  lemma JoinExtendFirst(c: char, first: string, more: seq<string>, sep: string)
    requires |more| >= 1
    ensures Join([[c] + first] + more, sep) == [c] + Join([first] + more, sep)
  {
    var tail := Join(more, sep);
    assert ([[c] + first] + more)[1..] == more;
    assert ([first] + more)[1..] == more;
    assert ([c] + first) + sep + tail == [c] + (first + sep + tail);
  }

  /** Joining pieces that do not contain the separator and splitting again gives the pieces back. */
  lemma {:induction false} SplitJoin(parts: seq<string>, sep: char)
    requires |parts| >= 1
    requires forall i :: 0 <= i < |parts| ==> sep !in parts[i]
    ensures Split(Join(parts, [sep]), sep) == parts
    decreases |parts|
  {
    if |parts| == 1 {
      SplitWithoutSeparator(parts[0], sep);
    } else {
      SplitJoin(parts[1..], sep);
      assert parts == [parts[0]] + parts[1..];
      SplitJoinStep(parts[0], parts[1..], sep);
    }
  }

  /** One step of `SplitJoin`: a separator-free first piece comes back in front of the split rest. */
  lemma SplitJoinStep(first: string, rest: seq<string>, sep: char)
    requires |rest| >= 1
    requires sep !in first
    requires Split(Join(rest, [sep]), sep) == rest
    ensures Split(Join([first] + rest, [sep]), sep) == [first] + rest
  {
    JoinCons(first, rest, [sep]);
    SplitAtFirst(first, sep, Join(rest, [sep]));
  }
}
