/** A small Option/Result pair for the optional fields of the spec model and for
    outcomes that the Swift code expresses with `?` and `throws`. */
module Wrappers {
  datatype Option<+T> = None | Some(value: T) {
    function GetOr(default: T): T {
      match this
      case Some(v) => v
      case None => default
    }
  }

  datatype Result<+T, +E> = Ok(value: T) | Err(error: E)
}

/** Sequence-of-strings helpers shared by the renderers: Swift's
    `joined(separator:)` and a line view of generated text. */
module Text {

  /** `parts.joined(separator: sep)`: the parts with `sep` between each adjacent pair. */
  function Join(parts: seq<string>, sep: string): string
    decreases |parts|
  {
    if |parts| == 0 then ""
    else if |parts| == 1 then parts[0]
    else parts[0] + sep + Join(parts[1..], sep)
  }

  lemma {:induction false} JoinCons(x: string, rest: seq<string>, sep: string)
    ensures Join([x] + rest, sep) == if rest == [] then x else x + sep + Join(rest, sep)
  {
    assert ([x] + rest)[1..] == rest;
  }

  /** Appending one part extends the joined text by the separator and that part. */
  lemma {:induction false} JoinAppend(parts: seq<string>, x: string, sep: string)
    requires parts != []
    ensures Join(parts + [x], sep) == Join(parts, sep) + sep + x
    decreases |parts|
  {
    if |parts| == 1 {
      assert parts + [x] == [parts[0]] + [x];
      JoinCons(parts[0], [x], sep);
    } else {
      assert parts + [x] == [parts[0]] + (parts[1..] + [x]);
      JoinCons(parts[0], parts[1..] + [x], sep);
      JoinAppend(parts[1..], x, sep);
      JoinCons(parts[0], parts[1..], sep);
      assert [parts[0]] + parts[1..] == parts;
    }
  }

  /** Text with no line break. */
  predicate SingleLine(s: string) {
    '\n' !in s
  }

  /** The text split at every line break (an empty text is one empty line). */
  function Lines(s: string): (r: seq<string>)
    ensures |r| >= 1
    ensures forall i :: 0 <= i < |r| ==> SingleLine(r[i])
    decreases |s|
  {
    if s == [] then [""]
    else
      var rest := Lines(s[1..]);
      if s[0] == '\n' then [""] + rest
      else [[s[0]] + rest[0]] + rest[1..]
  }

  lemma {:induction false} LinesOfSingleLine(s: string)
    requires SingleLine(s)
    ensures Lines(s) == [s]
    decreases |s|
  {
    if s != [] {
      assert SingleLine(s[1..]) by { assert forall i :: 0 <= i < |s[1..]| ==> s[1..][i] == s[i + 1]; }
      LinesOfSingleLine(s[1..]);
      assert [s[0]] + s[1..] == s;
    }
  }

  /** A line break splits the lines of the text around it. */
  lemma {:induction false} LinesAroundBreak(a: string, b: string)
    ensures Lines(a + "\n" + b) == Lines(a) + Lines(b)
    decreases |a|
  {
    if a == [] {
      assert a + "\n" + b == "\n" + b;
      assert ("\n" + b)[1..] == b;
    } else {
      var s := a + "\n" + b;
      assert s[0] == a[0];
      assert s[1..] == a[1..] + "\n" + b;
      LinesAroundBreak(a[1..], b);
      var la := Lines(a[1..]);
      if a[0] == '\n' {
        assert Lines(a) == [""] + la;
      } else {
        assert Lines(a) == [[a[0]] + la[0]] + la[1..];
        assert Lines(s) == [[a[0]] + (la + Lines(b))[0]] + (la + Lines(b))[1..];
        assert (la + Lines(b))[1..] == la[1..] + Lines(b);
      }
    }
  }

  /** A blank line between two texts is an empty line between their lines. */
  lemma LinesAroundBlankLine(a: string, b: string)
    ensures Lines(a + "\n\n" + b) == Lines(a) + [""] + Lines(b)
  {
    assert a + "\n\n" + b == a + "\n" + ("" + "\n" + b);
    LinesAroundBreak(a, "" + "\n" + b);
    LinesAroundBreak("", b);
    assert "" + "\n" + b == "\n" + b;
  }

  /** Joining single-line texts with line breaks and splitting again gives them back. */
  lemma {:induction false} LinesOfJoin(ls: seq<string>)
    requires ls != []
    requires forall i :: 0 <= i < |ls| ==> SingleLine(ls[i])
    ensures Lines(Join(ls, "\n")) == ls
    decreases |ls|
  {
    if |ls| == 1 {
      LinesOfSingleLine(ls[0]);
    } else {
      JoinCons(ls[0], ls[1..], "\n");
      assert [ls[0]] + ls[1..] == ls;
      LinesAroundBreak(ls[0], Join(ls[1..], "\n"));
      LinesOfSingleLine(ls[0]);
      LinesOfJoin(ls[1..]);
    }
  }

  /** `replacingOccurrences(of: [c], with: rep)` for a one-character pattern. */
  function ReplaceChar(s: string, c: char, rep: string): string
    decreases |s|
  {
    if s == [] then ""
    else (if s[0] == c then rep else [s[0]]) + ReplaceChar(s[1..], c, rep)
  }

  lemma {:induction false} ReplaceCharConcat(a: string, b: string, c: char, rep: string)
    ensures ReplaceChar(a + b, c, rep) == ReplaceChar(a, c, rep) + ReplaceChar(b, c, rep)
    decreases |a|
  {
    if a == [] {
      assert a + b == b;
    } else {
      assert (a + b)[0] == a[0];
      assert (a + b)[1..] == a[1..] + b;
      ReplaceCharConcat(a[1..], b, c, rep);
    }
  }

  /** Replacing `c` by a text without `c` leaves no `c`, and changes the length
      by the difference for each occurrence. */
  lemma {:induction false} ReplaceCharRemoves(s: string, c: char, rep: string)
    requires c !in rep
    ensures c !in ReplaceChar(s, c, rep)
    ensures |ReplaceChar(s, c, rep)| == |s| + Count(c, s) * (|rep| - 1)
    decreases |s|
  {
    if s != [] {
      ReplaceCharRemoves(s[1..], c, rep);
    }
  }

  /** Characters other than `c` and those of `rep` pass through unchanged. */
  lemma {:induction false} ReplaceCharKeeps(s: string, c: char, rep: string, d: char)
    requires d != c && d !in rep
    ensures d in ReplaceChar(s, c, rep) <==> d in s
    decreases |s|
  {
    if s != [] {
      ReplaceCharKeeps(s[1..], c, rep, d);
      assert s == [s[0]] + s[1..];
    }
  }

  function Count(c: char, s: string): nat
    decreases |s|
  {
    if s == [] then 0 else (if s[0] == c then 1 else 0) + Count(c, s[1..])
  }

}
