/** The operation renderer: the text of one generated client method per API
    operation, and the block of all of them. */
module Render {
  import opened Wrappers
  import opened Text
  import opened Casing
  import opened PathTemplate
  import opened Model

  /** The Swift type of a parameter: its schema type pascal-cased, or `Any`
      when the schema declares none. */
  function TypeName(p: Parameter): string {
    match p.schemaType
    case None => "Any"
    case Some(x) => PascalCased(x)
  }

  /** The type is `Any` without a schema type and otherwise the schema type's
      alphanumerics, up to case; either way it is alphanumeric. */
  lemma TypeNameShape(p: Parameter)
    ensures p.schemaType.None? ==> TypeName(p) == "Any"
    ensures p.schemaType.Some? ==> Folded(TypeName(p)) == Folded(Alnums(p.schemaType.value))
    ensures AllAlnum(TypeName(p))
  {
    if p.schemaType.Some? {
      CasedIsAlnumsRecased(p.schemaType.value);
    }
  }

  /** `name: Type`, with `?` appended when the parameter is not required. */
  function ParameterText(p: Parameter): string {
    p.name + ": " + TypeName(p) + (if p.required then "" else "?")
  }

  /** The text is the name, `: `, the type, and a trailing `?` exactly when
      the parameter is optional. */
  lemma ParameterTextShape(p: Parameter)
    ensures var r, t := ParameterText(p), TypeName(p);
      |r| == |p.name| + 2 + |t| + (if p.required then 0 else 1) &&
      r[..|p.name| + 2] == p.name + ": " &&
      r[|p.name| + 2..|p.name| + 2 + |t|] == t &&
      ((|r| > |p.name| + 2 && r[|r| - 1] == '?') <==> !p.required)
  {
    var r, t := ParameterText(p), TypeName(p);
    TypeNameShape(p);
    assert r[..|p.name| + 2] == p.name + ": ";
    assert r[|p.name| + 2..|p.name| + 2 + |t|] == t;
    assert p.required && |r| > |p.name| + 2 ==> r[|r| - 1] == t[|t| - 1];
  }

  function ParameterTexts(ps: seq<Parameter>): (r: seq<string>)
    ensures |r| == |ps|
    ensures forall i :: 0 <= i < |ps| ==> r[i] == ParameterText(ps[i])
  {
    seq(|ps|, i requires 0 <= i < |ps| => ParameterText(ps[i]))
  }

  /** The parameter list between the method's parentheses. */
  function ParameterList(ps: seq<Parameter>): string {
    Join(ParameterTexts(ps), ", ")
  }

  /** No parameters give an empty list; each further parameter adds `, ` and
      its own text at the end, so the list holds the parameters in order. */
  lemma ParameterListGrows(ps: seq<Parameter>, p: Parameter)
    ensures ParameterList([]) == ""
    ensures ParameterList([p]) == ParameterText(p)
    ensures ps != [] ==> ParameterList(ps + [p]) == ParameterList(ps) + ", " + ParameterText(p)
  {
    if ps != [] {
      assert ParameterTexts(ps + [p]) == ParameterTexts(ps) + [ParameterText(p)];
      JoinAppend(ParameterTexts(ps), ParameterText(p), ", ");
    }
  }

  /** The nested `parameters()` loop: one text per parameter, then joined. */
  method RenderParameters(ps: seq<Parameter>) returns (list: string)
    ensures list == ParameterList(ps)
  {
    var parameters: seq<string> := [];
    for i := 0 to |ps|
      invariant |parameters| == i
      invariant forall j :: 0 <= j < i ==> parameters[j] == ParameterText(ps[j])
    {
      parameters := parameters + [ParameterText(ps[i])];
    }
    assert parameters == ParameterTexts(ps);
    list := Join(parameters, ", ");
  }

  /** The name of the default response, when there is a default response and
      it has a name (the optional chain `defaultResponse?.name`). */
  function ResponseName(op: Operation): Option<string> {
    match op.defaultResponse
    case None => None
    case Some(r) => r.name
  }

  /** The return clause: nothing without a named default response, otherwise
      `-> Name`. */
  function ReturnClause(op: Operation): (r: string)
    ensures r == "" <==> ResponseName(op).None?
    ensures ResponseName(op).Some? ==> r == "-> " + ResponseName(op).value
  {
    if ResponseName(op) == None then "" else "-> " + ResponseName(op).GetOr("Void")
  }

  /** The first line of a generated method, from its name, parameter list and
      return clause. */
  function SignatureLine(identifier: string, parameters: string, clause: string): string {
    "    public func " + identifier + "(" + parameters + ") async throws " + clause + "{"
  }

  /** The first line of the generated method for `op`. */
  function Signature(op: Operation): string {
    SignatureLine(op.identifier, ParameterList(op.parameters), ReturnClause(op))
  }

  /** The request body's schema title, spliced after the `headers:` comment. */
  function BodyComment(op: Operation): string {
    match op.requestBody
    case None => ""
    case Some(b) => b.schemaTitle.GetOr("")
  }

  /** The method template: a signature, then one call of the runtime's request
      primitive with the given path and the `headers:` comment tail. */
  function MethodLines(signature: string, primitive: string, path: string, comment: string): (ls: seq<string>)
    ensures |ls| == 9 && ls[0] == signature
  {
    [ signature,
      "        try await " + primitive + "(",
      "            path: \"" + path + "\",",
      "            query: nil, // [URLQueryItem]?",
      "            headers: nil, // [String : String]?" + comment,
      "            cachePolicy: cachePolicy,",
      "            timeout: timeout",
      "        )",
      "    }" ]
  }

  /** The lines of the generated method for `op`. */
  function FunctionLines(op: Operation): (ls: seq<string>)
    ensures |ls| == 9 && ls[0] == Signature(op)
  {
    MethodLines(Signature(op), op.httpMethod, RewritePath(op.path), BodyComment(op))
  }

  function FunctionText(op: Operation): string {
    Join(FunctionLines(op), "\n")
  }

  /** The text of one operation's method, as the loop body of `functions()`
      builds it. */
  method RenderOperation(op: Operation) returns (text: string)
    ensures text == FunctionText(op)
  {
    var parameters := RenderParameters(op.parameters);
    var signature := SignatureLine(op.identifier, parameters, ReturnClause(op));
    text := Join(MethodLines(signature, op.httpMethod, RewritePath(op.path), BodyComment(op)), "\n");
  }

  function FunctionTexts(ops: seq<Operation>): (r: seq<string>)
    ensures |r| == |ops|
    ensures forall i :: 0 <= i < |ops| ==> r[i] == FunctionText(ops[i])
  {
    seq(|ops|, i requires 0 <= i < |ops| => FunctionText(ops[i]))
  }

  /** All methods, in operation order, separated by a blank line. */
  function FunctionsBlock(ops: seq<Operation>): string {
    Join(FunctionTexts(ops), "\n\n")
  }

  /** `functions()`: render every operation in order and join the results. */
  method RenderFunctions(ops: seq<Operation>) returns (block: string)
    ensures block == FunctionsBlock(ops)
  {
    var functions: seq<string> := [];
    for i := 0 to |ops|
      invariant |functions| == i
      invariant forall j :: 0 <= j < i ==> functions[j] == FunctionText(ops[j])
    {
      var text := RenderOperation(ops[i]);
      functions := functions + [text];
    }
    assert functions == FunctionTexts(ops);
    block := Join(functions, "\n\n");
  }

  // A line view of the generated text, to count the method declarations.

  const DeclarationStart := "    public func "

  predicate IsDeclaration(line: string) {
    |line| >= |DeclarationStart| && line[..|DeclarationStart|] == DeclarationStart
  }

  /** The declaration lines among `lines`, in order. */
  function Declarations(lines: seq<string>): seq<string>
    decreases |lines|
  {
    if lines == [] then []
    else (if IsDeclaration(lines[0]) then [lines[0]] else []) + Declarations(lines[1..])
  }

  lemma {:induction false} DeclarationsConcat(a: seq<string>, b: seq<string>)
    ensures Declarations(a + b) == Declarations(a) + Declarations(b)
    decreases |a|
  {
    if a == [] {
      assert a + b == b;
    } else {
      assert (a + b)[0] == a[0];
      assert (a + b)[1..] == a[1..] + b;
      DeclarationsConcat(a[1..], b);
    }
  }

  /** An operation none of whose texts holds a line break. */
  predicate SingleLineOperation(op: Operation) {
    SingleLine(op.identifier) && SingleLine(op.httpMethod) && SingleLine(op.path) &&
    (forall i :: 0 <= i < |op.parameters| ==> SingleLine(op.parameters[i].name)) &&
    (op.requestBody.Some? ==> SingleLine(op.requestBody.value.schemaTitle.GetOr(""))) &&
    (ResponseName(op).Some? ==> SingleLine(ResponseName(op).value))
  }

  lemma AlnumIsSingleLine(s: string)
    requires AllAlnum(s)
    ensures SingleLine(s)
  {
    forall i | 0 <= i < |s| ensures s[i] != '\n' {
      assert IsAlnum(s[i]);
    }
  }

  lemma {:induction false} JoinSingleLine(parts: seq<string>, sep: string)
    requires SingleLine(sep)
    requires forall i :: 0 <= i < |parts| ==> SingleLine(parts[i])
    ensures SingleLine(Join(parts, sep))
    decreases |parts|
  {
    if |parts| > 1 {
      JoinSingleLine(parts[1..], sep);
    }
  }

  lemma ParameterTextIsSingleLine(p: Parameter)
    requires SingleLine(p.name)
    ensures SingleLine(ParameterText(p))
  {
    TypeNameShape(p);
    AlnumIsSingleLine(TypeName(p));
    var head := p.name + ": " + TypeName(p);
    assert SingleLine(head);
    assert ParameterText(p) == head + (if p.required then "" else "?");
  }

  lemma ParameterListIsSingleLine(ps: seq<Parameter>)
    requires forall i :: 0 <= i < |ps| ==> SingleLine(ps[i].name)
    ensures SingleLine(ParameterList(ps))
  {
    var ts := ParameterTexts(ps);
    forall i | 0 <= i < |ts| ensures SingleLine(ts[i]) {
      ParameterTextIsSingleLine(ps[i]);
    }
    JoinSingleLine(ts, ", ");
  }

  lemma SignatureShapeIsSingleLine(identifier: string, parameters: string, clause: string)
    requires SingleLine(identifier) && SingleLine(parameters) && SingleLine(clause)
    ensures SingleLine(SignatureLine(identifier, parameters, clause))
  {
  }

  lemma ReturnClauseIsSingleLine(op: Operation)
    requires SingleLineOperation(op)
    ensures SingleLine(ReturnClause(op))
  {
  }

  lemma SignatureIsSingleLine(op: Operation)
    requires SingleLineOperation(op)
    ensures SingleLine(Signature(op))
  {
    ParameterListIsSingleLine(op.parameters);
    ReturnClauseIsSingleLine(op);
    SignatureShapeIsSingleLine(op.identifier, ParameterList(op.parameters), ReturnClause(op));
  }

  lemma MethodLinesAreSingleLines(signature: string, primitive: string, path: string, comment: string)
    requires SingleLine(signature) && SingleLine(primitive) && SingleLine(path) && SingleLine(comment)
    ensures forall i :: 0 <= i < 9 ==> SingleLine(MethodLines(signature, primitive, path, comment)[i])
  {
    var ls := MethodLines(signature, primitive, path, comment);
    CallLinesAreSingleLines(signature, primitive, path, comment);
    QueryLinesAreSingleLines(signature, primitive, path, comment);
    OptionLinesAreSingleLines(signature, primitive, path, comment);
    assert SingleLine(ls[7]) && SingleLine(ls[8]);
  }

  lemma CallLinesAreSingleLines(signature: string, primitive: string, path: string, comment: string)
    requires SingleLine(primitive) && SingleLine(path)
    ensures var ls := MethodLines(signature, primitive, path, comment);
      SingleLine(ls[1]) && SingleLine(ls[2])
  {
  }

  lemma QueryLinesAreSingleLines(signature: string, primitive: string, path: string, comment: string)
    requires SingleLine(comment)
    ensures var ls := MethodLines(signature, primitive, path, comment);
      SingleLine(ls[3]) && SingleLine(ls[4])
  {
  }

  lemma OptionLinesAreSingleLines(signature: string, primitive: string, path: string, comment: string)
    ensures var ls := MethodLines(signature, primitive, path, comment);
      SingleLine(ls[5]) && SingleLine(ls[6])
  {
  }

  /** After the signature, no line of the method template is a declaration:
      each has a fifth character other than the `p` of `public`. */
  lemma MethodBodyDeclaresNothing(signature: string, primitive: string, path: string, comment: string)
    ensures Declarations(MethodLines(signature, primitive, path, comment)[1..]) == []
  {
    var tail := MethodLines(signature, primitive, path, comment)[1..];
    assert |tail| == 8;
    assert DeclarationStart[4] == 'p';
    assert |tail[0]| > 4 && tail[0][4] == ' ';
    assert |tail[1]| > 4 && tail[1][4] == ' ';
    assert |tail[2]| > 4 && tail[2][4] == ' ';
    assert |tail[3]| > 4 && tail[3][4] == ' ';
    assert |tail[4]| > 4 && tail[4][4] == ' ';
    assert |tail[5]| > 4 && tail[5][4] == ' ';
    assert |tail[6]| > 4 && tail[6][4] == ' ';
    assert |tail[7]| > 4 && tail[7][4] == '}';
    forall i | 0 <= i < 8 ensures !IsDeclaration(tail[i]) {
      NotDeclarationAt(tail[i], 4);
    }
    NoDeclarations(tail);
  }

  /** The method template, filled with one-line texts, splits back into its
      nine lines. */
  lemma MethodLinesSplit(signature: string, primitive: string, path: string, comment: string)
    requires SingleLine(signature) && SingleLine(primitive) && SingleLine(path) && SingleLine(comment)
    ensures Lines(Join(MethodLines(signature, primitive, path, comment), "\n")) == MethodLines(signature, primitive, path, comment)
  {
    MethodLinesAreSingleLines(signature, primitive, path, comment);
    LinesOfJoin(MethodLines(signature, primitive, path, comment));
  }

  lemma SignatureShapeIsDeclaration(identifier: string, parameters: string, clause: string)
    ensures IsDeclaration(SignatureLine(identifier, parameters, clause))
  {
    var line := SignatureLine(identifier, parameters, clause);
    assert line[..|DeclarationStart|] == DeclarationStart;
  }

  /** The method template with a declaration as its signature declares exactly
      that signature. */
  lemma MethodDeclaresSignature(signature: string, primitive: string, path: string, comment: string)
    requires IsDeclaration(signature)
    ensures Declarations(MethodLines(signature, primitive, path, comment)) == [signature]
  {
    var ls := MethodLines(signature, primitive, path, comment);
    MethodBodyDeclaresNothing(signature, primitive, path, comment);
    assert ls == [ls[0]] + ls[1..];
    DeclarationsConcat([ls[0]], ls[1..]);
  }

  /** A method's text splits back into its nine lines, and only the first of
      them is a declaration. */
  lemma FunctionTextLines(op: Operation)
    requires SingleLineOperation(op)
    ensures Lines(FunctionText(op)) == FunctionLines(op)
    ensures Declarations(Lines(FunctionText(op))) == [Signature(op)]
  {
    SignatureIsSingleLine(op);
    RewriteKeepsSingleLine(op.path);
    assert SingleLine(BodyComment(op));
    SignatureShapeIsDeclaration(op.identifier, ParameterList(op.parameters), ReturnClause(op));
    MethodLinesSplit(Signature(op), op.httpMethod, RewritePath(op.path), BodyComment(op));
    MethodDeclaresSignature(Signature(op), op.httpMethod, RewritePath(op.path), BodyComment(op));
  }

  /** A line that differs from a declaration's start at position `k`, or is
      too short to reach it, is not a declaration. */
  lemma NotDeclarationAt(line: string, k: nat)
    requires k < |DeclarationStart|
    requires |line| <= k || line[k] != DeclarationStart[k]
    ensures !IsDeclaration(line)
  {
    if |line| >= |DeclarationStart| {
      assert line[..|DeclarationStart|][k] == line[k];
    }
  }

  lemma {:induction false} NoDeclarations(lines: seq<string>)
    requires forall i :: 0 <= i < |lines| ==> !IsDeclaration(lines[i])
    ensures Declarations(lines) == []
    decreases |lines|
  {
    if lines != [] {
      NoDeclarations(lines[1..]);
    }
  }

  function Signatures(ops: seq<Operation>): (r: seq<string>)
    ensures |r| == |ops|
    ensures forall i :: 0 <= i < |ops| ==> r[i] == Signature(ops[i])
  {
    seq(|ops|, i requires 0 <= i < |ops| => Signature(ops[i]))
  }

  /** Texts that each declare one line, separated by blank lines, declare
      those lines in order. */
  lemma {:induction false} BlankSeparatedDeclarations(texts: seq<string>, decls: seq<string>)
    requires |texts| == |decls|
    requires forall i :: 0 <= i < |texts| ==> Declarations(Lines(texts[i])) == [decls[i]]
    ensures Declarations(Lines(Join(texts, "\n\n"))) == decls
    decreases |texts|
  {
    if |texts| == 0 {
      assert Lines("") == [""];
    } else if |texts| > 1 {
      JoinCons(texts[0], texts[1..], "\n\n");
      assert [texts[0]] + texts[1..] == texts;
      forall i | 0 <= i < |texts[1..]| ensures Declarations(Lines(texts[1..][i])) == [decls[1..][i]] {
        assert texts[1..][i] == texts[i + 1];
      }
      BlankSeparatedDeclarations(texts[1..], decls[1..]);
      DeclarationsAroundBlankLine(texts[0], Join(texts[1..], "\n\n"));
      assert decls == [decls[0]] + decls[1..];
    }
  }

  /** A blank line between two texts adds no declaration. */
  lemma DeclarationsAroundBlankLine(first: string, rest: string)
    ensures Declarations(Lines(first + "\n\n" + rest)) == Declarations(Lines(first)) + Declarations(Lines(rest))
  {
    LinesAroundBlankLine(first, rest);
    DeclarationsConcat(Lines(first) + [""], Lines(rest));
    DeclarationsConcat(Lines(first), [""]);
    assert Declarations([""]) == [];
  }

  /** The block of all methods declares exactly one method per operation, in
      operation order; with no operations it declares none. */
  lemma BlockDeclarations(ops: seq<Operation>)
    requires forall i :: 0 <= i < |ops| ==> SingleLineOperation(ops[i])
    ensures Declarations(Lines(FunctionsBlock(ops))) == Signatures(ops)
    ensures |Declarations(Lines(FunctionsBlock(ops)))| == |ops|
  {
    var texts := FunctionTexts(ops);
    forall i | 0 <= i < |ops| ensures Declarations(Lines(texts[i])) == [Signatures(ops)[i]] {
      FunctionTextLines(ops[i]);
    }
    BlankSeparatedDeclarations(texts, Signatures(ops));
  }
}
