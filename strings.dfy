/**
 * Go's `strings.Split` for a one-character separator, and `strings.Join` as its
 * inverse. `Split` never returns an empty slice: the text with no separator in it is
 * one segment, and the empty text is the one empty segment.
 */
module Strings {

  function Split(s: string, sep: char): (parts: seq<string>)
    ensures |parts| >= 1
    ensures forall i | 0 <= i < |parts| :: sep !in parts[i]
    ensures sep !in s ==> parts == [s]
    // the first segment is the text up to the first separator
    ensures parts[0] <= s
    ensures |parts[0]| < |s| ==> s[|parts[0]|] == sep
    decreases |s|
  {
    if s == [] then
      [""]
    else
      var rest := Split(s[1..], sep);
      assert s == [s[0]] + s[1..];
      if s[0] == sep then [""] + rest else [[s[0]] + rest[0]] + rest[1..]
  }

  function Join(parts: seq<string>, sep: char): (s: string)
    decreases |parts|
  {
    if parts == [] then ""
    else if |parts| == 1 then parts[0]
    else parts[0] + [sep] + Join(parts[1..], sep)
  }

  /** Splitting text whose head holds no separator extends the first segment by that head. */
  lemma {:induction false} SplitAfterPrefix(p: string, t: string, sep: char)
    requires sep !in p
    ensures Split(p + t, sep) == [p + Split(t, sep)[0]] + Split(t, sep)[1..]
    decreases |p|
  {
    var rest := Split(t, sep);
    if p == [] {
      assert p + t == t && p + rest[0] == rest[0];
      assert rest == [rest[0]] + rest[1..];
    } else {
      var q := p + t;
      assert q[0] == p[0] && q[1..] == p[1..] + t;
      SplitAfterPrefix(p[1..], t, sep);
      var r := Split(q[1..], sep);
      assert r == [p[1..] + rest[0]] + rest[1..];
      assert Split(q, sep) == [[p[0]] + r[0]] + r[1..];
      assert [p[0]] + (p[1..] + rest[0]) == p + rest[0];
    }
  }

  /** A separator after a separator-free segment closes exactly that segment. */
  lemma SplitAtSeparator(p: string, t: string, sep: char)
    requires sep !in p
    ensures Split(p + [sep] + t, sep) == [p] + Split(t, sep)
  {
    SplitAfterPrefix(p, [sep] + t, sep);
    assert p + [sep] + t == p + ([sep] + t);
    assert ([sep] + t)[1..] == t;
    assert Split([sep] + t, sep) == [""] + Split(t, sep);
    assert p + "" == p;
  }

  /** Joining the segments of a split with the separator restores the text. */
  lemma {:induction false} JoinSplit(s: string, sep: char)
    ensures Join(Split(s, sep), sep) == s
    decreases |s|
  {
    if sep in s {
      var parts := Split(s, sep);
      var k := |parts[0]|;
      assert s == parts[0] + [sep] + s[k + 1..];
      SplitAtSeparator(parts[0], s[k + 1..], sep);
      JoinSplit(s[k + 1..], sep);
    }
  }

  /** Splitting the join of separator-free segments gives back those segments. */
  lemma {:induction false} SplitJoin(parts: seq<string>, sep: char)
    requires |parts| >= 1
    requires forall i | 0 <= i < |parts| :: sep !in parts[i]
    ensures Split(Join(parts, sep), sep) == parts
    decreases |parts|
  {
    if |parts| > 1 {
      SplitJoin(parts[1..], sep);
      SplitAtSeparator(parts[0], Join(parts[1..], sep), sep);
    }
  }
}
