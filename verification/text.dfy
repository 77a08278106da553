/**
 * Line-oriented string helpers: joining lines with a separator (Python's
 * `sep.join(parts)`), splitting on a separator (Python's `s.split(sep)`),
 * and concatenating lines that each end in the separator (a loop of
 * `result += line + sep`). The round trip Split(Join(parts)) == parts is what
 * lets the rendered texts of both revisions be read back line by line.
 */
module Text {

  /** `[sep].join(parts)`: the parts with one separator between neighbours. */
  function Join(sep: char, parts: seq<string>): string
  {
    if |parts| == 0 then ""
    else if |parts| == 1 then parts[0]
    else parts[0] + [sep] + Join(sep, parts[1..])
  }

  /** Each part followed by the separator, all concatenated. */
  function Terminated(sep: char, parts: seq<string>): string
  {
    if |parts| == 0 then "" else Terminated(sep, parts[..|parts| - 1]) + parts[|parts| - 1] + [sep]
  }

  /** `s.split(sep)`: the maximal separator-free pieces, empty ones included. */
  function Split(sep: char, s: string): (r: seq<string>)
    ensures |r| > 0
  {
    if |s| == 0 then [""]
    else
      var rest := Split(sep, s[1..]);
      if s[0] == sep then [""] + rest
      else [[s[0]] + rest[0]] + rest[1..]
  }

  /** No part contains the separator. */
  predicate SeparatorFree(sep: char, parts: seq<string>)
  {
    forall i :: 0 <= i < |parts| ==> sep !in parts[i]
  }

  /** Splitting text that starts with a separator-free piece peels that piece off. */
  lemma {:induction false} SplitPrefix(sep: char, p: string, t: string)
    requires sep !in p
    ensures Split(sep, p + t) == [p + Split(sep, t)[0]] + Split(sep, t)[1..]
  {
    if |p| > 0 {
      assert (p + t)[1..] == p[1..] + t;
      SplitPrefix(sep, p[1..], t);
      var r, rr := Split(sep, t), Split(sep, p[1..] + t);
      assert (p + t)[0] == p[0] != sep;
      assert rr[0] == p[1..] + r[0] && rr[1..] == r[1..];
      assert [p[0]] + (p[1..] + r[0]) == p + r[0];
    } else {
      var r := Split(sep, t);
      assert p + t == t && p + r[0] == r[0];
      assert [r[0]] + r[1..] == r;
    }
  }

  /** Splitting a join gives the parts back when no part contains the separator. */
  lemma {:induction false} SplitJoin(sep: char, parts: seq<string>)
    requires |parts| > 0 && SeparatorFree(sep, parts)
    ensures Split(sep, Join(sep, parts)) == parts
  {
    if |parts| == 1 {
      SplitPrefix(sep, parts[0], "");
      assert parts[0] + "" == parts[0];
    } else {
      var rest := Join(sep, parts[1..]);
      assert Join(sep, parts) == parts[0] + ([sep] + rest);
      SplitPrefix(sep, parts[0], [sep] + rest);
      assert ([sep] + rest)[0] == sep && ([sep] + rest)[1..] == rest;
      assert Split(sep, [sep] + rest) == [""] + Split(sep, rest);
      SplitJoin(sep, parts[1..]);
      assert parts[0] + "" == parts[0];
      assert [parts[0]] + parts[1..] == parts;
    }
  }

  /** Joining a part in front of a non-empty run puts one separator after it. */
  lemma JoinCons(sep: char, x: string, rest: seq<string>)
    requires |rest| > 0
    ensures Join(sep, [x] + rest) == x + [sep] + Join(sep, rest)
  {
    assert ([x] + rest)[1..] == rest;
  }

  /** A title and an empty part in front of a non-empty join: the title and two separators. */
  lemma {:induction false} TitleThenJoin(sep: char, title: string, rest: seq<string>)
    requires |rest| > 0
    ensures title + [sep, sep] + Join(sep, rest) == Join(sep, [title, ""] + rest)
  {
    JoinCons(sep, "", rest);
    JoinCons(sep, title, [""] + rest);
    assert [title] + ([""] + rest) == [title, ""] + rest;
  }

  /** An empty part and a title in front of a non-empty join. */
  lemma {:induction false} BlankThenJoin(sep: char, title: string, rest: seq<string>)
    requires |rest| > 0
    ensures [sep] + title + [sep] + Join(sep, rest) == Join(sep, ["", title] + rest)
  {
    JoinCons(sep, title, rest);
    JoinCons(sep, "", [title] + rest);
    assert [""] + ([title] + rest) == ["", title] + rest;
  }

  /** Separator-terminated lines followed by a join are one longer join. */
  lemma {:induction false} TerminatedJoin(sep: char, lines: seq<string>, rest: seq<string>)
    requires |rest| > 0
    ensures Terminated(sep, lines) + Join(sep, rest) == Join(sep, lines + rest)
  {
    if |lines| > 0 {
      var init, last := lines[..|lines| - 1], lines[|lines| - 1];
      assert lines + rest == init + ([last] + rest);
      TerminatedJoin(sep, init, [last] + rest);
      assert Join(sep, [last] + rest) == last + [sep] + Join(sep, rest);
    } else {
      assert lines + rest == rest;
    }
  }
}
