/** The path template rewriter: an OpenAPI path such as `/pets/{id}` becomes
    the body of a Swift string literal with interpolation, `/pets/\(id)`. */
module PathTemplate {
  import opened Text

  /** The rewrite as the generator writes it: first every `{` becomes `\(`,
      then every `}` becomes `)`. */
  function RewritePath(path: string): string {
    ReplaceChar(ReplaceChar(path, '{', "\\("), '}', ")")
  }

  /** What one template character turns into. */
  function Token(c: char): string {
    if c == '{' then "\\(" else if c == '}' then ")" else [c]
  }

  /** The intended rewrite, one character at a time. */
  function Interpolated(path: string): string
    decreases |path|
  {
    if path == [] then "" else Token(path[0]) + Interpolated(path[1..])
  }

  /** The two passes do the same as the one-character-at-a-time rewrite: the
      text the first pass inserts holds no `}` for the second to touch. */
  lemma {:induction false} RewriteIsTokenwise(path: string)
    ensures RewritePath(path) == Interpolated(path)
    decreases |path|
  {
    if path != [] {
      var first := if path[0] == '{' then "\\(" else [path[0]];
      assert ReplaceChar(path, '{', "\\(") == first + ReplaceChar(path[1..], '{', "\\(");
      ReplaceCharConcat(first, ReplaceChar(path[1..], '{', "\\("), '}', ")");
      RewriteIsTokenwise(path[1..]);
      if path[0] == '{' {
        assert ReplaceChar(first, '}', ")") == "\\(" by {
          assert first[1..] == "(";
          assert first[1..][1..] == "";
        }
      } else {
        assert first[1..] == "";
      }
    }
  }

  /** The rewritten path has no braces left, and it is longer than the
      template by one character per `{`. */
  lemma {:induction false} RewriteRemovesBraces(path: string)
    ensures '{' !in RewritePath(path) && '}' !in RewritePath(path)
    ensures |RewritePath(path)| == |path| + Count('{', path)
    decreases |path|
  {
    RewriteIsTokenwise(path);
    if path != [] {
      RewriteRemovesBraces(path[1..]);
      RewriteIsTokenwise(path[1..]);
    }
  }

  /** Characters the rewrite neither consumes nor produces. */
  predicate IsPlain(c: char) { c !in "{}\\()" }

  /** The plain characters of a text, in order (the placeholder names and the
      literal path text). */
  function Plain(s: string): string
    decreases |s|
  {
    if s == [] then "" else (if IsPlain(s[0]) then [s[0]] else "") + Plain(s[1..])
  }

  lemma {:induction false} PlainConcat(a: string, b: string)
    ensures Plain(a + b) == Plain(a) + Plain(b)
    decreases |a|
  {
    if a == [] {
      assert a + b == b;
    } else {
      assert (a + b)[0] == a[0];
      assert (a + b)[1..] == a[1..] + b;
      PlainConcat(a[1..], b);
    }
  }

  /** Every other character of the template survives, in its order. */
  lemma {:induction false} RewriteKeepsPlainText(path: string)
    ensures Plain(RewritePath(path)) == Plain(path)
    decreases |path|
  {
    RewriteIsTokenwise(path);
    if path != [] {
      RewriteKeepsPlainText(path[1..]);
      RewriteIsTokenwise(path[1..]);
      PlainConcat(Token(path[0]), Interpolated(path[1..]));
      var t := Token(path[0]);
      if path[0] == '{' {
        assert t[1..] == "(" && t[1..][1..] == "";
      } else {
        assert t[1..] == "";
      }
    }
  }

  /** The inverse rewrite: `\(` back to `{` and `)` back to `}`. */
  function Uninterpolated(s: string): string
    decreases |s|
  {
    if s == [] then ""
    else if s[0] == '\\' && |s| > 1 && s[1] == '(' then "{" + Uninterpolated(s[2..])
    else if s[0] == ')' then "}" + Uninterpolated(s[1..])
    else [s[0]] + Uninterpolated(s[1..])
  }

  /** A template that does not itself use `\`, `(` or `)` can be read back
      from its rewrite. */
  lemma {:induction false} RewriteRoundTrip(path: string)
    requires '\\' !in path && '(' !in path && ')' !in path
    ensures Uninterpolated(RewritePath(path)) == path
    decreases |path|
  {
    RewriteIsTokenwise(path);
    if path != [] {
      assert '\\' !in path[1..] && '(' !in path[1..] && ')' !in path[1..];
      RewriteRoundTrip(path[1..]);
      RewriteIsTokenwise(path[1..]);
      var r := Interpolated(path);
      var rest := Interpolated(path[1..]);
      if path[0] == '{' {
        assert r == "\\(" + rest;
        assert r[2..] == rest;
      } else if path[0] == '}' {
        assert r == ")" + rest;
        assert r[1..] == rest;
      } else {
        assert r == [path[0]] + rest;
        assert r[1..] == rest;
      }
      assert [path[0]] + path[1..] == path;
    }
  }

  /** The rewrite adds no line break: a one-line template stays one line. */
  lemma RewriteKeepsSingleLine(path: string)
    requires SingleLine(path)
    ensures SingleLine(RewritePath(path))
  {
    ReplaceCharKeeps(path, '{', "\\(", '\n');
    ReplaceCharKeeps(ReplaceChar(path, '{', "\\("), '}', ")", '\n');
  }
}
