/** The client renderer: the name, file name, output path and full source
    text of the client generated for one server. */
module Client {
  import opened Wrappers
  import opened Text
  import opened Model
  import opened Render

  /** `info.title.replacingOccurrences(of: " ", with: "")`. */
  function TitleWithoutSpaces(title: string): (r: string)
    ensures ' ' !in r
    ensures |r| == |title| - Count(' ', title)
  {
    ReplaceCharRemoves(title, ' ', "");
    ReplaceChar(title, ' ', "")
  }

  /** Removing the spaces acts one character at a time: a space disappears,
      every other character stays, and texts are handled piece by piece, so
      the other characters keep their order and number. */
  lemma TitleKeepsOtherCharacters(a: string, b: string, c: char)
    ensures TitleWithoutSpaces([c]) == if c == ' ' then "" else [c]
    ensures TitleWithoutSpaces(a + b) == TitleWithoutSpaces(a) + TitleWithoutSpaces(b)
    ensures c != ' ' ==> (c in TitleWithoutSpaces(a) <==> c in a)
  {
    ReplaceCharConcat(a, b, ' ', "");
    if c != ' ' {
      ReplaceCharKeeps(a, ' ', "", c);
    }
  }

  /** `server.name ?? title`: the server's own name, or else the title with
      its spaces removed. */
  function ServerName(spec: Spec, server: Server): (name: string)
    ensures server.name.Some? ==> name == server.name.value
    ensures server.name.None? ==> name == TitleWithoutSpaces(spec.title) && ' ' !in name
  {
    server.name.GetOr(TitleWithoutSpaces(spec.title))
  }

  function FileName(name: string): string {
    name + ".swift"
  }

  /** `Sources/<name>/<name>.swift`. */
  function OutputPath(name: string): string {
    "Sources/" + name + "/" + FileName(name)
  }

  /** The output path is `Sources/`, the name, a slash and the file name, so
      the name can be read back from it. */
  lemma OutputPathShape(name: string)
    ensures |OutputPath(name)| == 2 * |name| + 15
    ensures OutputPath(name)[..8] == "Sources/" && OutputPath(name)[8..8 + |name|] == name
    ensures OutputPath(name)[8 + |name|] == '/' && OutputPath(name)[9 + |name|..] == FileName(name)
  {
    var path := OutputPath(name);
    assert path[..8] == "Sources/";
    assert path[8..8 + |name|] == name;
    assert path[9 + |name|..] == FileName(name);
  }

  /** Different client names never share an output file. */
  lemma OutputPathInjective(a: string, b: string)
    requires OutputPath(a) == OutputPath(b)
    ensures a == b
  {
    OutputPathShape(a);
    OutputPathShape(b);
    assert |a| == |b|;
    assert a == OutputPath(a)[8..8 + |a|];
  }

  /** The contact name for the file header, `A Robot` when the document has none. */
  function Author(spec: Spec): string {
    spec.contactName.GetOr("A Robot")
  }

  /** The header comment: file name, module name, author and date. */
  function Banner(name: string, author: string, date: string): seq<string> {
    [ "//",
      "//  " + name + ".swift",
      "//  " + name,
      "//",
      "//  Created by " + author + " on " + date + ".",
      "//",
      "" ]
  }

  const Imports: seq<string> := ["import Foundation", "import Rest", ""]

  /** The actor declaration and its base URL and session properties. */
  function ActorOpening(name: string): seq<string> {
    [ "public actor " + name + ": RestClient {",
      "    public let baseUrl: URL",
      "    public let session: URLSessionProtocol",
      "" ]
  }

  /** The coders, the fixed timeout and the fixed cache policy. */
  const Constants: seq<string> := [
      "    public let encoder = JSONEncoder()",
      "    public let decoder = JSONDecoder()",
      "",
      "    let timeout: TimeInterval = 60.0",
      "    let cachePolicy: " + "URLRequest.CachePolicy" + " = .useProtocolCachePolicy",
      "" ]

  /** The initializer, whose default base URL is the server's URL. */
  function Initializer(url: string): seq<string> {
    [ "    public init(baseUrl: URL = " + "URL(string: \"" + url + "\")!, session: " + "URLSessionProtocol = URLSession.shared) {",
      "        self.baseUrl = baseUrl",
      "        self.session = session",
      "    }",
      "" ]
  }

  /** The client source up to the generated methods. */
  function HeaderLines(name: string, author: string, date: string, url: string): seq<string> {
    Banner(name, author, date) + Imports + ActorOpening(name) + Constants + Initializer(url)
  }

  /** The client template: header, the methods block, the closing brace. */
  function ClientTemplate(name: string, author: string, date: string, url: string, block: string): string {
    Join(HeaderLines(name, author, date, url) + [block, "}"], "\n")
  }

  /** The text of the client generated for `server`, dated `date` (the
      abbreviated current date in the Swift code). */
  function ClientText(spec: Spec, server: Server, date: string): string {
    ClientTemplate(ServerName(spec, server), Author(spec), date, server.url, FunctionsBlock(spec.operations))
  }

  /** `restClient`: the methods block is rendered once more for every server. */
  method RenderClient(spec: Spec, server: Server, date: string) returns (text: string)
    ensures text == ClientText(spec, server, date)
  {
    var name := ServerName(spec, server);
    var block := RenderFunctions(spec.operations);
    text := ClientTemplate(name, Author(spec), date, server.url, block);
  }

  /** The template is the header, a line break, the block and a closing line. */
  lemma ClientTemplateParts(name: string, author: string, date: string, url: string, block: string)
    ensures ClientTemplate(name, author, date, url, block) ==
      Join(HeaderLines(name, author, date, url), "\n") + "\n" + block + "\n}"
  {
    var h := HeaderLines(name, author, date, url);
    assert h + [block, "}"] == h + [block] + ["}"];
    JoinAppend(h + [block], "}", "\n");
    JoinAppend(h, block, "\n");
  }

  /** Every server's client carries the same methods block, that of the whole
      operation list; only the header depends on the server. */
  lemma ClientsShareOperations(spec: Spec, server: Server, date: string)
    ensures ClientText(spec, server, date) ==
      Join(HeaderLines(ServerName(spec, server), Author(spec), date, server.url), "\n") + "\n" +
      FunctionsBlock(spec.operations) + "\n}"
  {
    ClientTemplateParts(ServerName(spec, server), Author(spec), date, server.url, FunctionsBlock(spec.operations));
  }

  predicate AllSingleLines(ls: seq<string>) {
    forall i :: 0 <= i < |ls| ==> SingleLine(ls[i])
  }

  lemma AllSingleLinesConcat(a: seq<string>, b: seq<string>)
    requires AllSingleLines(a) && AllSingleLines(b)
    ensures AllSingleLines(a + b)
  {
    forall i | 0 <= i < |a + b| ensures SingleLine((a + b)[i]) {
      if i >= |a| {
        assert (a + b)[i] == b[i - |a|];
      }
    }
  }

  lemma BannerFacts(name: string, author: string, date: string)
    ensures SingleLine(name) && SingleLine(author) && SingleLine(date) ==> AllSingleLines(Banner(name, author, date))
    ensures Declarations(Banner(name, author, date)) == []
  {
    var h := Banner(name, author, date);
    assert DeclarationStart[0] == ' ';
    assert h[0][0] == '/' && h[1][0] == '/' && h[2][0] == '/' && h[3][0] == '/';
    assert h[4][0] == '/' && h[5][0] == '/' && |h[6]| == 0;
    forall i | 0 <= i < |h| ensures !IsDeclaration(h[i]) {
      NotDeclarationAt(h[i], 0);
    }
    NoDeclarations(h);
  }

  lemma ImportsFacts()
    ensures AllSingleLines(Imports)
    ensures Declarations(Imports) == []
  {
    var h := Imports;
    assert DeclarationStart[0] == ' ';
    assert h[0][0] == 'i' && h[1][0] == 'i' && |h[2]| == 0;
    forall i | 0 <= i < |h| ensures !IsDeclaration(h[i]) {
      NotDeclarationAt(h[i], 0);
    }
    NoDeclarations(h);
  }

  lemma ActorOpeningFacts(name: string)
    ensures SingleLine(name) ==> AllSingleLines(ActorOpening(name))
    ensures Declarations(ActorOpening(name)) == []
  {
    if SingleLine(name) {
      ActorOpeningIsSingleLines(name);
    }
    ActorOpeningDeclaresNothing(name);
  }

  lemma ActorOpeningIsSingleLines(name: string)
    requires SingleLine(name)
    ensures AllSingleLines(ActorOpening(name))
  {
    var h := ActorOpening(name);
    assert SingleLine(h[0]);
  }

  lemma ActorOpeningDeclaresNothing(name: string)
    ensures Declarations(ActorOpening(name)) == []
  {
    var h := ActorOpening(name);
    assert DeclarationStart[0] == ' ' && DeclarationStart[11] == 'f';
    assert h[0][0] == 'p' && h[1][11] == 'l' && h[2][11] == 'l' && |h[3]| == 0;
    NotDeclarationAt(h[0], 0);
    NotDeclarationAt(h[1], 11);
    NotDeclarationAt(h[2], 11);
    NotDeclarationAt(h[3], 0);
    NoDeclarations(h);
  }

  lemma ConstantsFacts()
    ensures AllSingleLines(Constants)
    ensures Declarations(Constants) == []
  {
    ConstantsAreSingleLines();
    ConstantsDeclareNothing();
  }

  lemma ConstantsAreSingleLines()
    ensures AllSingleLines(Constants)
  {
    EncoderLineIsSingleLine();
    DecoderLineIsSingleLine();
    TimeoutLineIsSingleLine();
    PolicyLineIsSingleLine();
  }

  lemma EncoderLineIsSingleLine()
    ensures SingleLine(Constants[0])
  {
  }

  lemma DecoderLineIsSingleLine()
    ensures SingleLine(Constants[1])
  {
  }

  lemma TimeoutLineIsSingleLine()
    ensures SingleLine(Constants[3])
  {
  }

  lemma PolicyLineIsSingleLine()
    ensures SingleLine(Constants[4])
  {
  }

  lemma ConstantsDeclareNothing()
    ensures Declarations(Constants) == []
  {
    var h := Constants;
    assert DeclarationStart[0] == ' ' && DeclarationStart[4] == 'p' && DeclarationStart[11] == 'f';
    assert h[0][11] == 'l' && h[1][11] == 'l' && |h[2]| == 0;
    assert h[3][4] == 'l' && h[4][4] == 'l' && |h[5]| == 0;
    NotDeclarationAt(h[0], 11);
    NotDeclarationAt(h[1], 11);
    NotDeclarationAt(h[2], 0);
    NotDeclarationAt(h[3], 4);
    NotDeclarationAt(h[4], 4);
    NotDeclarationAt(h[5], 0);
    NoDeclarations(h);
  }

  lemma InitializerFacts(url: string)
    ensures SingleLine(url) ==> AllSingleLines(Initializer(url))
    ensures Declarations(Initializer(url)) == []
  {
    if SingleLine(url) {
      InitializerIsSingleLines(url);
    }
    InitializerDeclaresNothing(url);
  }

  lemma InitializerIsSingleLines(url: string)
    requires SingleLine(url)
    ensures AllSingleLines(Initializer(url))
  {
    InitializerFirstLine(url);
  }

  lemma InitializerFirstLine(url: string)
    requires SingleLine(url)
    ensures SingleLine(Initializer(url)[0])
  {
  }

  lemma InitializerDeclaresNothing(url: string)
    ensures Declarations(Initializer(url)) == []
  {
    var h := Initializer(url);
    assert DeclarationStart[4] == 'p' && DeclarationStart[11] == 'f';
    assert h[0][11] == 'i' && h[1][4] == ' ' && h[2][4] == ' ' && |h[3]| == 5 && |h[4]| == 0;
    NotDeclarationAt(h[0], 11);
    NotDeclarationAt(h[1], 4);
    NotDeclarationAt(h[2], 4);
    NotDeclarationAt(h[3], 5);
    NotDeclarationAt(h[4], 0);
    NoDeclarations(h);
  }

  /** The header lines hold no line break and no method declaration. */
  lemma HeaderFacts(name: string, author: string, date: string, url: string)
    requires SingleLine(name) && SingleLine(author) && SingleLine(date) && SingleLine(url)
    ensures AllSingleLines(HeaderLines(name, author, date, url))
    ensures Declarations(HeaderLines(name, author, date, url)) == []
  {
    var b, i, a, c, n := Banner(name, author, date), Imports, ActorOpening(name), Constants, Initializer(url);
    BannerFacts(name, author, date);
    ImportsFacts();
    ActorOpeningFacts(name);
    ConstantsFacts();
    InitializerFacts(url);
    AllSingleLinesConcat(b, i);
    AllSingleLinesConcat(b + i, a);
    AllSingleLinesConcat(b + i + a, c);
    AllSingleLinesConcat(b + i + a + c, n);
    DeclarationsConcat(b, i);
    DeclarationsConcat(b + i, a);
    DeclarationsConcat(b + i + a, c);
    DeclarationsConcat(b + i + a + c, n);
  }

  /** A client whose header fields are one-line texts declares exactly the
      methods of its block. */
  lemma TemplateDeclarations(name: string, author: string, date: string, url: string, block: string)
    requires SingleLine(name) && SingleLine(author) && SingleLine(date) && SingleLine(url)
    ensures Declarations(Lines(ClientTemplate(name, author, date, url, block))) == Declarations(Lines(block))
  {
    var h := HeaderLines(name, author, date, url);
    ClientTemplateParts(name, author, date, url, block);
    HeaderFacts(name, author, date, url);
    LinesOfJoin(h);
    var text := Join(h, "\n") + "\n" + block + "\n}";
    LinesAroundBreak(Join(h, "\n"), block + "\n}");
    assert Join(h, "\n") + "\n" + (block + "\n}") == text;
    LinesAroundBreak(block, "}");
    assert block + "\n" + "}" == block + "\n}";
    LinesOfSingleLine("}");
    DeclarationsConcat(h, Lines(block) + ["}"]);
    DeclarationsConcat(Lines(block), ["}"]);
    NotDeclarationAt("}", 1);
    NoDeclarations(["}"]);
  }

  /** Fields from the document that hold no line break. */
  predicate SingleLineSpec(spec: Spec) {
    SingleLine(spec.title) && SingleLine(Author(spec)) &&
    (forall i :: 0 <= i < |spec.servers| ==> SingleLine(spec.servers[i].name.GetOr("")) && SingleLine(spec.servers[i].url)) &&
    (forall i :: 0 <= i < |spec.operations| ==> SingleLineOperation(spec.operations[i]))
  }

  lemma ServerNameIsSingleLine(spec: Spec, server: Server)
    requires SingleLine(spec.title) && SingleLine(server.name.GetOr(""))
    ensures SingleLine(ServerName(spec, server))
  {
    ReplaceCharKeeps(spec.title, ' ', "", '\n');
  }

  /** The generated client declares exactly one method per operation, in
      operation order, with that operation's signature. */
  lemma ClientDeclaresEveryOperation(spec: Spec, k: nat, date: string)
    requires SingleLineSpec(spec) && SingleLine(date) && k < |spec.servers|
    ensures Declarations(Lines(ClientText(spec, spec.servers[k], date))) == Signatures(spec.operations)
    ensures |Declarations(Lines(ClientText(spec, spec.servers[k], date)))| == |spec.operations|
  {
    var server := spec.servers[k];
    ServerNameIsSingleLine(spec, server);
    TemplateDeclarations(ServerName(spec, server), Author(spec), date, server.url, FunctionsBlock(spec.operations));
    BlockDeclarations(spec.operations);
  }
}
