/** The identifier formatter: the `String` extensions `lowercasingFirst`,
    `uppercasingFirst`, `camelCased` and `pascalCased`, over ASCII text. */
module Casing {
  import opened Text

  predicate IsLowerLetter(c: char) { 'a' <= c <= 'z' }
  predicate IsUpperLetter(c: char) { 'A' <= c <= 'Z' }
  predicate IsDigit(c: char) { '0' <= c <= '9' }

  /** Membership in `CharacterSet.alphanumerics`, restricted to ASCII. */
  predicate IsAlnum(c: char) { IsLowerLetter(c) || IsUpperLetter(c) || IsDigit(c) }

  predicate AllAlnum(s: string) { forall i :: 0 <= i < |s| ==> IsAlnum(s[i]) }

  function ToUpper(c: char): (u: char)
    ensures !IsLowerLetter(u)
    ensures IsAlnum(u) <==> IsAlnum(c)
    ensures IsLowerLetter(c) ==> IsUpperLetter(u)
    ensures !IsLowerLetter(c) ==> u == c
  {
    if IsLowerLetter(c) then (c as int - 32) as char else c
  }

  function ToLower(c: char): (l: char)
    ensures !IsUpperLetter(l)
    ensures IsAlnum(l) <==> IsAlnum(c)
    ensures IsUpperLetter(c) ==> IsLowerLetter(l)
    ensures !IsUpperLetter(c) ==> l == c
  {
    if IsUpperLetter(c) then (c as int + 32) as char else c
  }

  /** Case-folded text: two texts that differ only in letter case fold alike. */
  function Folded(s: string): (r: string)
    ensures |r| == |s|
    decreases |s|
  {
    if s == [] then [] else [ToLower(s[0])] + Folded(s[1..])
  }

  lemma {:induction false} FoldedConcat(a: string, b: string)
    ensures Folded(a + b) == Folded(a) + Folded(b)
    decreases |a|
  {
    if a != [] {
      assert (a + b)[0] == a[0];
      assert (a + b)[1..] == a[1..] + b;
      FoldedConcat(a[1..], b);
    } else {
      assert a + b == b;
    }
  }

  /** `prefix(1).uppercased() + dropFirst()`. */
  function UppercasingFirst(s: string): (r: string)
    ensures |r| == |s|
    ensures s != [] ==> r[0] == ToUpper(s[0]) && !IsLowerLetter(r[0])
    ensures forall i :: 1 <= i < |s| ==> r[i] == s[i]
  {
    if s == [] then [] else [ToUpper(s[0])] + s[1..]
  }

  /** `prefix(1).lowercased() + dropFirst()`. */
  function LowercasingFirst(s: string): (r: string)
    ensures |r| == |s|
    ensures s != [] ==> r[0] == ToLower(s[0]) && !IsUpperLetter(r[0])
    ensures forall i :: 1 <= i < |s| ==> r[i] == s[i]
  {
    if s == [] then [] else [ToLower(s[0])] + s[1..]
  }

  /** Flipping the case of the first letter keeps a text's folded form and its
      alphanumeric-ness. */
  lemma FirstCaseFlipKeepsText(s: string)
    ensures Folded(UppercasingFirst(s)) == Folded(s) && Folded(LowercasingFirst(s)) == Folded(s)
    ensures AllAlnum(s) ==> AllAlnum(UppercasingFirst(s)) && AllAlnum(LowercasingFirst(s))
  {
    if s != [] {
      assert UppercasingFirst(s)[1..] == s[1..];
      assert LowercasingFirst(s)[1..] == s[1..];
    }
  }

  /** The characters of `s` that are alphanumeric, in order. */
  function Alnums(s: string): (r: string)
    ensures AllAlnum(r)
    decreases |s|
  {
    if s == [] then []
    else if IsAlnum(s[0]) then [s[0]] + Alnums(s[1..])
    else Alnums(s[1..])
  }

  /** The characters of `s` that are not alphanumeric (the separators), in order. */
  function Separators(s: string): string
    decreases |s|
  {
    if s == [] then []
    else if IsAlnum(s[0]) then Separators(s[1..])
    else [s[0]] + Separators(s[1..])
  }

  /** `components(separatedBy: .alphanumerics.inverted)`: every separator
      character ends a segment, so adjacent separators leave empty segments;
      the segments hold exactly the alphanumeric characters of `s`, in order. */
  function Segments(s: string): (r: seq<string>)
    ensures |r| == |Separators(s)| + 1
    ensures forall i :: 0 <= i < |r| ==> AllAlnum(r[i])
    ensures s != [] && IsAlnum(s[0]) ==> r[0] != [] && r[0][0] == s[0]
    ensures s != [] && !IsAlnum(s[0]) ==> r[0] == []
    decreases |s|
  {
    if s == [] then [""]
    else
      var rest := Segments(s[1..]);
      if IsAlnum(s[0]) then [[s[0]] + rest[0]] + rest[1..]
      else [""] + rest
  }

  /** The segments together hold exactly the alphanumeric characters of `s`,
      in order. */
  lemma {:induction false} SegmentsJoin(s: string)
    ensures Join(Segments(s), "") == Alnums(s)
    decreases |s|
  {
    if s != [] {
      SegmentsJoin(s[1..]);
      var rest := Segments(s[1..]);
      JoinCons(rest[0], rest[1..], "");
      assert [rest[0]] + rest[1..] == rest;
      if IsAlnum(s[0]) {
        JoinCons([s[0]] + rest[0], rest[1..], "");
      } else {
        JoinCons("", rest, "");
      }
    }
  }

  /** Segments interleaved with the separators, one between each pair. */
  function Interleave(segs: seq<string>, seps: string): string
    requires |segs| == |seps| + 1
    decreases |seps|
  {
    if seps == [] then segs[0]
    else segs[0] + [seps[0]] + Interleave(segs[1..], seps[1..])
  }

  /** Splitting loses nothing: putting each separator back between its two
      segments rebuilds the input. */
  lemma {:induction false} SegmentsRebuild(s: string)
    ensures Interleave(Segments(s), Separators(s)) == s
    decreases |s|
  {
    if s != [] {
      SegmentsRebuild(s[1..]);
      var rest := Segments(s[1..]);
      if IsAlnum(s[0]) {
        InterleaveExtendFirst(s[0], rest, Separators(s[1..]));
        assert [s[0]] + s[1..] == s;
      } else {
        assert Interleave(Segments(s), Separators(s)) == "" + [s[0]] + Interleave(rest, Separators(s[1..]));
        assert [s[0]] + s[1..] == s;
      }
    }
  }

  lemma {:induction false} InterleaveExtendFirst(c: char, segs: seq<string>, seps: string)
    requires |segs| == |seps| + 1
    ensures Interleave([[c] + segs[0]] + segs[1..], seps) == [c] + Interleave(segs, seps)
  {
    var t := [[c] + segs[0]] + segs[1..];
    if seps != [] {
      assert t[1..] == segs[1..];
    }
  }

  /** The segments after the first, each with its first letter uppercased. */
  function UppercasedEach(parts: seq<string>): (r: seq<string>)
    ensures |r| == |parts|
    ensures forall i :: 0 <= i < |parts| ==> r[i] == UppercasingFirst(parts[i])
  {
    seq(|parts|, i requires 0 <= i < |parts| => UppercasingFirst(parts[i]))
  }

  /** `camelCased`: empty stays empty; otherwise the first segment has its
      first letter lowercased, the others uppercased, all concatenated. */
  function CamelCased(s: string): string {
    if s == [] then ""
    else
      var parts := Segments(s);
      Join([LowercasingFirst(parts[0])] + UppercasedEach(parts[1..]), "")
  }

  /** `pascalCased`: empty stays empty; otherwise every segment has its first
      letter uppercased, all concatenated. */
  function PascalCased(s: string): string {
    if s == [] then ""
    else
      var parts := Segments(s);
      Join([UppercasingFirst(parts[0])] + UppercasedEach(parts[1..]), "")
  }

  /** Concatenating parts that are alphanumeric gives alphanumeric text. */
  lemma {:induction false} JoinAllAlnum(parts: seq<string>)
    requires forall i :: 0 <= i < |parts| ==> AllAlnum(parts[i])
    ensures AllAlnum(Join(parts, ""))
    decreases |parts|
  {
    if parts != [] {
      JoinCons(parts[0], parts[1..], "");
      assert [parts[0]] + parts[1..] == parts;
      JoinAllAlnum(parts[1..]);
    }
  }

  /** Parts that fold alike, pairwise, concatenate to texts that fold alike. */
  lemma {:induction false} JoinFoldedAlike(ps: seq<string>, qs: seq<string>)
    requires |ps| == |qs|
    requires forall i :: 0 <= i < |ps| ==> Folded(ps[i]) == Folded(qs[i])
    ensures Folded(Join(ps, "")) == Folded(Join(qs, ""))
    decreases |ps|
  {
    if ps != [] {
      JoinCons(ps[0], ps[1..], "");
      JoinCons(qs[0], qs[1..], "");
      assert [ps[0]] + ps[1..] == ps;
      assert [qs[0]] + qs[1..] == qs;
      if |ps| > 1 {
        JoinFoldedAlike(ps[1..], qs[1..]);
        assert ps[0] + "" + Join(ps[1..], "") == ps[0] + Join(ps[1..], "");
        assert qs[0] + "" + Join(qs[1..], "") == qs[0] + Join(qs[1..], "");
        FoldedConcat(ps[0], Join(ps[1..], ""));
        FoldedConcat(qs[0], Join(qs[1..], ""));
      }
    }
  }

  /** The cased segments fold like the plain segments and stay alphanumeric. */
  lemma CasedPartsLikeSegments(first: string, parts: seq<string>)
    requires parts != []
    requires first == UppercasingFirst(parts[0]) || first == LowercasingFirst(parts[0])
    requires forall i :: 0 <= i < |parts| ==> AllAlnum(parts[i])
    ensures var cased := [first] + UppercasedEach(parts[1..]);
      |cased| == |parts| &&
      (forall i :: 0 <= i < |parts| ==> Folded(cased[i]) == Folded(parts[i]) && AllAlnum(cased[i]))
  {
    var cased := [first] + UppercasedEach(parts[1..]);
    forall i | 0 <= i < |parts|
      ensures Folded(cased[i]) == Folded(parts[i]) && AllAlnum(cased[i])
    {
      FirstCaseFlipKeepsText(parts[i]);
    }
  }

  /** Casing only drops the separators and changes letter case: the result is
      alphanumeric, as long as the alphanumeric characters of the input, and
      folds like them. */
  lemma CasedIsAlnumsRecased(s: string)
    ensures AllAlnum(PascalCased(s)) && AllAlnum(CamelCased(s))
    ensures Folded(PascalCased(s)) == Folded(Alnums(s))
    ensures Folded(CamelCased(s)) == Folded(Alnums(s))
    ensures |PascalCased(s)| == |Alnums(s)| && |CamelCased(s)| == |Alnums(s)|
  {
    if s != [] {
      var parts := Segments(s);
      var up := [UppercasingFirst(parts[0])] + UppercasedEach(parts[1..]);
      var low := [LowercasingFirst(parts[0])] + UppercasedEach(parts[1..]);
      CasedPartsLikeSegments(UppercasingFirst(parts[0]), parts);
      CasedPartsLikeSegments(LowercasingFirst(parts[0]), parts);
      JoinAllAlnum(up);
      JoinAllAlnum(low);
      JoinFoldedAlike(up, parts);
      JoinFoldedAlike(low, parts);
      SegmentsJoin(s);
    }
  }

  lemma {:induction false} NoAlnumsWithoutAlnum(s: string)
    requires forall i :: 0 <= i < |s| ==> !IsAlnum(s[i])
    ensures Alnums(s) == []
    decreases |s|
  {
    if s != [] {
      NoAlnumsWithoutAlnum(s[1..]);
    }
  }

  /** An input made only of separators, such as "---", cases to "". */
  lemma SeparatorsOnlyCaseToEmpty(s: string)
    requires forall i :: 0 <= i < |s| ==> !IsAlnum(s[i])
    ensures PascalCased(s) == "" && CamelCased(s) == ""
  {
    NoAlnumsWithoutAlnum(s);
    CasedIsAlnumsRecased(s);
  }

  /** The two casings differ at most in their first character; when the input
      does not start with an alphanumeric character (an empty first segment)
      they are equal. */
  lemma PascalAndCamelAgreeAfterFirst(s: string)
    ensures |PascalCased(s)| == |CamelCased(s)|
    ensures PascalCased(s) != [] ==> PascalCased(s)[1..] == CamelCased(s)[1..]
    ensures s != [] && !IsAlnum(s[0]) ==> PascalCased(s) == CamelCased(s)
  {
    if s != [] {
      var parts := Segments(s);
      var rest := UppercasedEach(parts[1..]);
      var tail := Join(rest, "");
      JoinAfterFirst(UppercasingFirst(parts[0]), rest);
      JoinAfterFirst(LowercasingFirst(parts[0]), rest);
      FirstFlipsAgreeAfterFirst(parts[0], tail);
    }
  }

  lemma JoinAfterFirst(x: string, rest: seq<string>)
    ensures Join([x] + rest, "") == x + Join(rest, "")
  {
    JoinCons(x, rest, "");
  }

  lemma FirstFlipsAgreeAfterFirst(p: string, tail: string)
    ensures |UppercasingFirst(p) + tail| == |LowercasingFirst(p) + tail|
    ensures UppercasingFirst(p) + tail != [] ==> (UppercasingFirst(p) + tail)[1..] == (LowercasingFirst(p) + tail)[1..]
    ensures p == [] ==> UppercasingFirst(p) + tail == LowercasingFirst(p) + tail
  {
    if p != [] {
      assert (UppercasingFirst(p) + tail)[1..] == p[1..] + tail;
      assert (LowercasingFirst(p) + tail)[1..] == p[1..] + tail;
    }
  }

  /** When the input starts with an alphanumeric character, `pascalCased`
      starts with it uppercased and `camelCased` with it lowercased. */
  lemma CasedFirstCharacter(s: string)
    requires s != [] && IsAlnum(s[0])
    ensures PascalCased(s) != [] && PascalCased(s)[0] == ToUpper(s[0]) && !IsLowerLetter(PascalCased(s)[0])
    ensures CamelCased(s) != [] && CamelCased(s)[0] == ToLower(s[0]) && !IsUpperLetter(CamelCased(s)[0])
  {
    var parts := Segments(s);
    var rest := UppercasedEach(parts[1..]);
    JoinCons(UppercasingFirst(parts[0]), rest, "");
    JoinCons(LowercasingFirst(parts[0]), rest, "");
  }

  /** An alphanumeric text is a single segment. */
  lemma {:induction false} SegmentsOfAlnum(n: string)
    requires AllAlnum(n)
    ensures Segments(n) == [n]
    decreases |n|
  {
    if n != [] {
      SegmentsOfAlnum(n[1..]);
      assert [n[0]] + n[1..] == n;
    }
  }

  /** `camelCased` of a name behind a leading separator, such as "-pet",
      uppercases the name ("Pet"): the empty first segment absorbs the
      lowercasing. */
  lemma CamelCasedLeadingSeparator(c: char, n: string)
    requires !IsAlnum(c) && AllAlnum(n)
    ensures CamelCased([c] + n) == UppercasingFirst(n)
  {
    var s := [c] + n;
    assert s[1..] == n;
    SegmentsOfAlnum(n);
    assert Segments(s) == ["", n];
    assert UppercasedEach(Segments(s)[1..]) == [UppercasingFirst(n)];
    JoinCons("", [UppercasingFirst(n)], "");
  }

  /** A leading separator contributes nothing to `pascalCased`: it only adds an
      empty first segment. */
  lemma PascalSkipsSeparator(s: string)
    requires s != [] && !IsAlnum(s[0])
    ensures PascalCased(s) == PascalCased(s[1..])
  {
    PascalAsJoin(s);
    PascalAsJoin(s[1..]);
    var rest := Segments(s[1..]);
    assert UppercasedEach(Segments(s)) == [""] + UppercasedEach(rest);
    JoinCons("", UppercasedEach(rest), "");
  }

  /** Whenever the input has an alphanumeric character, `pascalCased` starts
      with the first of them uppercased (so never with a lower-case letter);
      `camelCased` starts with the input's first character lowercased when that
      is alphanumeric, and otherwise like `pascalCased`. */
  lemma {:induction false} CasedFirst(s: string)
    requires Alnums(s) != []
    ensures PascalCased(s) != [] && PascalCased(s)[0] == ToUpper(Alnums(s)[0]) && !IsLowerLetter(PascalCased(s)[0])
    ensures CamelCased(s) != [] &&
            CamelCased(s)[0] == (if IsAlnum(s[0]) then ToLower(s[0]) else ToUpper(Alnums(s)[0]))
    decreases |s|
  {
    if IsAlnum(s[0]) {
      CasedFirstCharacter(s);
    } else {
      assert Alnums(s) == Alnums(s[1..]);
      CasedFirst(s[1..]);
      PascalSkipsSeparator(s);
      PascalAndCamelAgreeAfterFirst(s);
    }
  }

  /** `pascalCased` is every segment with its first letter uppercased, joined;
      the empty input, a single empty segment, fits this too. */
  lemma PascalAsJoin(s: string)
    ensures PascalCased(s) == Join(UppercasedEach(Segments(s)), "")
  {
    var parts := Segments(s);
    if s == [] {
      assert parts == [""];
      assert UppercasedEach(parts) == [""];
    } else {
      UppercasedEachCons(parts);
    }
  }

  lemma UppercasedEachCons(parts: seq<string>)
    requires parts != []
    ensures UppercasedEach(parts) == [UppercasingFirst(parts[0])] + UppercasedEach(parts[1..])
  {
  }

  /** `camelCased` is the first segment with its first letter lowercased, then
      the others with theirs uppercased, joined; the empty input fits too. */
  lemma CamelAsJoin(s: string)
    ensures CamelCased(s) == Join([LowercasingFirst(Segments(s)[0])] + UppercasedEach(Segments(s)[1..]), "")
  {
  }

  /** A separator ends the segment before it: the segments of `a + [c] + b` are
      those of `a` followed by those of `b`. */
  lemma {:induction false} SegmentsAcross(a: string, c: char, b: string)
    requires !IsAlnum(c)
    ensures Segments(a + [c] + b) == Segments(a) + Segments(b)
    decreases |a|
  {
    var s := a + [c] + b;
    if a == [] {
      assert s == [c] + b && s[1..] == b;
    } else {
      assert s[0] == a[0] && s[1..] == a[1..] + [c] + b;
      SegmentsAcross(a[1..], c, b);
      SegmentsStep(s);
      SegmentsStep(a);
      var tail, after := Segments(a[1..]), Segments(b);
      if IsAlnum(a[0]) {
        ExtendFirstOfConcat([a[0]], tail, after);
      } else {
        assert [""] + (tail + after) == ([""] + tail) + after;
      }
    }
  }

  /** One step of the split: the first character joins the first segment of
      the rest, or starts a new, empty, one. */
  lemma SegmentsStep(s: string)
    requires s != []
    ensures IsAlnum(s[0]) ==> Segments(s) == [[s[0]] + Segments(s[1..])[0]] + Segments(s[1..])[1..]
    ensures !IsAlnum(s[0]) ==> Segments(s) == [""] + Segments(s[1..])
  {
  }

  lemma ExtendFirstOfConcat(x: string, tail: seq<string>, after: seq<string>)
    requires tail != []
    ensures [x + (tail + after)[0]] + (tail + after)[1..] == ([x + tail[0]] + tail[1..]) + after
  {
    assert (tail + after)[0] == tail[0] && (tail + after)[1..] == tail[1..] + after;
  }

  lemma {:induction false} JoinFlat(p: seq<string>, q: seq<string>)
    ensures Join(p + q, "") == Join(p, "") + Join(q, "")
    decreases |p|
  {
    if p == [] {
      assert p + q == q;
    } else {
      assert p + q == [p[0]] + (p[1..] + q);
      assert p == [p[0]] + p[1..];
      JoinCons(p[0], p[1..] + q, "");
      JoinCons(p[0], p[1..], "");
      JoinFlat(p[1..], q);
    }
  }

  /** The camel-cased parts of `A + B` join to those of `A` followed by the
      pascal-cased parts of `B`. */
  lemma CamelParts(A: seq<string>, B: seq<string>)
    requires A != []
    ensures Join([LowercasingFirst((A + B)[0])] + UppercasedEach((A + B)[1..]), "") ==
            Join([LowercasingFirst(A[0])] + UppercasedEach(A[1..]), "") + Join(UppercasedEach(B), "")
  {
    var first := [LowercasingFirst(A[0])] + UppercasedEach(A[1..]);
    DropFirstOfConcat(A, B);
    UppercasedEachConcat(A[1..], B);
    assert [LowercasingFirst(A[0])] + (UppercasedEach(A[1..]) + UppercasedEach(B)) == first + UppercasedEach(B);
    JoinFlat(first, UppercasedEach(B));
  }

  lemma UppercasedEachConcat(p: seq<string>, q: seq<string>)
    ensures UppercasedEach(p + q) == UppercasedEach(p) + UppercasedEach(q)
  {
  }

  lemma DropFirstOfConcat<T>(x: seq<T>, y: seq<T>)
    requires x != []
    ensures (x + y)[0] == x[0] && (x + y)[1..] == x[1..] + y
  {
  }

  /** A single alphanumeric word only has its first letter re-cased. */
  lemma CasedOfWord(w: string)
    requires AllAlnum(w)
    ensures PascalCased(w) == UppercasingFirst(w) && CamelCased(w) == LowercasingFirst(w)
  {
    if w != [] {
      SegmentsOfAlnum(w);
      assert Segments(w)[1..] == [];
    }
  }

  /** `pascalCased` works segment by segment: across a separator it is the
      casing of the part before followed by the casing of the part after. */
  lemma PascalAcrossSeparator(a: string, c: char, b: string)
    requires !IsAlnum(c)
    ensures PascalCased(a + [c] + b) == PascalCased(a) + PascalCased(b)
  {
    var A, B := Segments(a), Segments(b);
    SegmentsAcross(a, c, b);
    PascalAsJoin(a + [c] + b);
    PascalAsJoin(a);
    PascalAsJoin(b);
    UppercasedEachConcat(A, B);
    JoinFlat(UppercasedEach(A), UppercasedEach(B));
  }

  /** `camelCased` lowercases only the very first segment: across a separator it
      is the camel casing of the part before, then the pascal casing of the
      part after. */
  lemma CamelAcrossSeparator(a: string, c: char, b: string)
    requires !IsAlnum(c)
    ensures CamelCased(a + [c] + b) == CamelCased(a) + PascalCased(b)
  {
    SegmentsAcross(a, c, b);
    CamelAsJoin(a + [c] + b);
    CamelAsJoin(a);
    PascalAsJoin(b);
    CamelParts(Segments(a), Segments(b));
  }
}
