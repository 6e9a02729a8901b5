# RestGenerator core, modelled in Dafny

RestGenerator reads an OpenAPI (Swagger) document and writes one Swift REST
client per server the document lists. Each client is an `actor` named after
the server. Its header holds the base URL and the session. It has one
`public func` per operation, whose body calls the runtime's request
primitive with the operation's path.

Every step of a run is appended to an in-memory log. After each append the
whole log is written out again as `timestamp: message` lines.

This project models the generator in `Sources/RestGeneration/RestGeneration.swift`:

- the ASCII identifier casings `lowercasingFirst`, `uppercasingFirst`,
  `camelCased` and `pascalCased`;
- the rewrite of path templates (`/pets/{id}` becomes `/pets/\(id)`);
- the rendering of parameters, signatures, return clauses and method bodies;
- the client template, the server's name, the file name and the output path;
- the run log and its serialization;
- the `run()` orchestrator, including its missing-spec guard and its
  per-server write handling.

Modules, one file each, except that `Wrappers` and `Text` share `text.dfy`:

- `Wrappers` and `Text` (`text.dfy`): `Option` and `Result`, joining,
  splitting into lines, and character replacement.
- `Casing` (`casing.dfy`): the string extensions.
- `PathTemplate` (`path_template.dfy`): the path rewrite, its one-character
  reading and its inverse.
- `Model` (`model.dfy`): the parsed document as the generator reads it. That
  is a title, a contact name, servers (an optional name and a URL) and
  operations. Each operation has an identifier, a method, a path, parameters,
  a request body and a default response.
- `Render` (`render.dfy`): one operation's method, and the block of all methods.
- `Client` (`client.dfy`): the naming and the client source.
- `Logging` (`run_log.dfy`): the log as a class with an appending method.
- `Generation` (`generation.dfy`): `run()` as a method.

What `run()` needs from outside is a parameter:

- whether the spec file exists;
- the parser's result, a `Result`;
- the abbreviated date for the header;
- the log's clock, which gives the timestamp of the k-th entry;
- each server's write result, the error if the write failed.

The run's log, its outcome and the writes it attempts are then specified by
functions of those inputs.

## Behaviour of the code worth knowing

- With a leading separator, `camelCased` upper-cases the first letter: `camelCased("-pet")` is `"Pet"`,
  and likewise for `"_id"` or `"--pet-id"`. The lower-casing is applied to the empty first segment
  (`Casing.CasedFirst`).
- Empty segments (a run of separators, a leading or trailing separator) are kept by the split and
  contribute nothing to either casing.
- A server's name can be empty: an empty `name`, or a title made only of spaces.
- The return clause is left out whenever the default response has no name, so the `"Void"` fallback
  in the code can never be reached.
- A parser failure is not logged. The log ends with "Instantiating spec file...", and the run fails
  with the parser's error (`Generation.RunMessages`).
- The request body's schema title is spliced verbatim after the `headers:` comment, so it lands inside
  that comment (`Render.BodyComment`).

## Model

| member | source | states |
|---|---|---|
| Casing.UppercasingFirst | Sources/RestGeneration/RestGeneration.swift:201 | length kept; an empty string stays empty; index 0 is upper-cased (never a lower-case letter after), the rest unchanged |
| Casing.LowercasingFirst | Sources/RestGeneration/RestGeneration.swift:200 | length kept; an empty string stays empty; index 0 is lower-cased (never an upper-case letter after), the rest unchanged |
| Casing.FirstCaseFlipKeepsText | Sources/RestGeneration/RestGeneration.swift:200-201 | flipping the first letter changes nothing up to case, and keeps an alphanumeric string alphanumeric |
| Casing.Segments | Sources/RestGeneration/RestGeneration.swift:205 | `components(separatedBy: .alphanumerics.inverted)`: one more segment than separators, every segment alphanumeric; the first segment is empty exactly when the input starts with a separator, and otherwise starts with the input's first character |
| Casing.SegmentsJoin | Sources/RestGeneration/RestGeneration.swift:205 | the segments concatenated are exactly the input's alphanumeric characters, in order |
| Casing.SegmentsRebuild | Sources/RestGeneration/RestGeneration.swift:205 | the segments put back between the separators give the input again (nothing is lost or reordered by the split) |
| Casing.CasedIsAlnumsRecased | Sources/RestGeneration/RestGeneration.swift:203-218 | both casings contain only alphanumerics and are the input's alphanumerics, in order, up to case |
| Casing.SeparatorsOnlyCaseToEmpty | Sources/RestGeneration/RestGeneration.swift:203-218 | an input with no alphanumeric character (the empty string, `"---"`) gives `""` in both casings |
| Casing.PascalAndCamelAgreeAfterFirst | Sources/RestGeneration/RestGeneration.swift:203-218 | the two casings have the same length and agree from position 1 on; they are equal when the input starts with a separator |
| Casing.CasedFirstCharacter | Sources/RestGeneration/RestGeneration.swift:203-218 | when the first segment is non-empty, `pascalCased` starts with the upper-cased first character and `camelCased` with the lower-cased one |
| Casing.CamelCasedLeadingSeparator | Sources/RestGeneration/RestGeneration.swift:203-210 | one separator followed by one alphanumeric word (`"-pet"`): `camelCased` is the word with its first letter upper-cased |
| Casing.PascalSkipsSeparator | Sources/RestGeneration/RestGeneration.swift:203-218 | a leading separator adds only an empty segment, so `pascalCased` is that of the rest |
| Casing.CasedFirst | Sources/RestGeneration/RestGeneration.swift:203-218 | whenever the input has an alphanumeric character, `pascalCased` starts with the first of them upper-cased (never a lower-case letter); `camelCased` starts with the lower-cased first character when that is alphanumeric, and otherwise with the first alphanumeric upper-cased |
| Casing.SegmentsAcross | Sources/RestGeneration/RestGeneration.swift:205 | splitting at one separator character gives the segments of the text before it followed by those of the text after it |
| Casing.CasedOfWord | Sources/RestGeneration/RestGeneration.swift:203-218 | a single alphanumeric word is one segment: `pascalCased` is `uppercasingFirst` of it and `camelCased` is `lowercasingFirst` of it |
| Casing.PascalAcrossSeparator | Sources/RestGeneration/RestGeneration.swift:212-218 | `pascalCased` of two texts joined by a separator is the `pascalCased` of each, concatenated (so `"pet-store"` gives `"PetStore"`) |
| Casing.CamelAcrossSeparator | Sources/RestGeneration/RestGeneration.swift:203-210 | `camelCased` of two texts joined by a separator is `camelCased` of the first followed by `pascalCased` of the second (so `"pet-store"` gives `"petStore"`) |
| PathTemplate.RewriteIsTokenwise | Sources/RestGeneration/RestGeneration.swift:89 | the two chained replacements act one character at a time: `{` to `\(`, `}` to `)`, every other character kept |
| PathTemplate.RewriteRemovesBraces | Sources/RestGeneration/RestGeneration.swift:89 | no brace is left, and the output is longer by the number of `{` |
| PathTemplate.RewriteKeepsPlainText | Sources/RestGeneration/RestGeneration.swift:89 | every character other than braces, backslash and parentheses survives, in order |
| PathTemplate.RewriteRoundTrip | Sources/RestGeneration/RestGeneration.swift:89 | a template without backslash or parentheses is recovered from its rewrite |
| PathTemplate.RewriteKeepsSingleLine | Sources/RestGeneration/RestGeneration.swift:89 | the rewrite adds no line break |
| Render.TypeNameShape | Sources/RestGeneration/RestGeneration.swift:73-76 | `Any` without a schema type, otherwise the schema type's alphanumerics (its `pascalCased` form) |
| Render.ParameterTextShape | Sources/RestGeneration/RestGeneration.swift:76 | the text is the name, then `: `, then the type, then a `?` exactly when the parameter is not required; its length is exactly the sum of those parts |
| Render.ParameterListGrows | Sources/RestGeneration/RestGeneration.swift:69-80 | no parameters give `""`, one gives its text, and each further one is appended after `", "` |
| Render.RenderParameters | Sources/RestGeneration/RestGeneration.swift:69-80 | the loop that appends each parameter's text and joins them with `", "` computes the parameter list |
| Render.ReturnClause | Sources/RestGeneration/RestGeneration.swift:83-87 | `""` exactly when the default response's name is absent, `-> name` otherwise |
| Render.FunctionLines | Sources/RestGeneration/RestGeneration.swift:82-96 | nine lines, the first being the signature |
| Render.RenderOperation | Sources/RestGeneration/RestGeneration.swift:82-98 | the loop body computes the method text of the operation |
| Render.FunctionTextLines | Sources/RestGeneration/RestGeneration.swift:82-96 | for a one-line operation the method text reads back as its nine lines, and its only declaration line is the signature |
| Render.RenderFunctions | Sources/RestGeneration/RestGeneration.swift:65-100 | the loop over operations computes the methods, joined by blank lines |
| Render.BlockDeclarations | Sources/RestGeneration/RestGeneration.swift:65-100 | the methods block declares exactly one `public func` per operation, in operation order |
| Client.TitleWithoutSpaces | Sources/RestGeneration/RestGeneration.swift:51 | no space left, and shorter by the number of spaces in the title |
| Client.TitleKeepsOtherCharacters | Sources/RestGeneration/RestGeneration.swift:51 | a single space is removed and any other single character kept; the removal distributes over concatenation, so the other characters keep their order and count; a non-space character occurs after exactly when it did before |
| Client.ServerName | Sources/RestGeneration/RestGeneration.swift:60 | the server's own name when present, otherwise the title without spaces (so then no space) |
| Client.OutputPathShape | Sources/RestGeneration/RestGeneration.swift:133-140 | the path is `Sources/`, the name, `/`, then the file name `<name>.swift`, so the name can be read back from it |
| Client.OutputPathInjective | Sources/RestGeneration/RestGeneration.swift:140 | different names give different output paths |
| Client.RenderClient | Sources/RestGeneration/RestGeneration.swift:103-131 | computes the client text of the server |
| Client.ClientsShareOperations | Sources/RestGeneration/RestGeneration.swift:103-131 | every client is its server's header, the methods block of the whole operation list, and a closing brace |
| Client.TemplateDeclarations | Sources/RestGeneration/RestGeneration.swift:103-131 | the client template declares no method outside its methods block |
| Client.ClientDeclaresEveryOperation | Sources/RestGeneration/RestGeneration.swift:103-131 | each server's client declares exactly one method per operation, in operation order |
| Logging.SerializedAppend | Sources/RestGeneration/RestGeneration.swift:170-179 | appending an entry appends its `timestamp: message` line after a line break; the earlier text is a prefix |
| Logging.SerializedLines | Sources/RestGeneration/RestGeneration.swift:170-179 | with one-line entries the serialized log reads back as one `timestamp: message` line per entry |
| Logging.RunLog.constructor | Sources/RestGeneration/RestGeneration.swift:15 | the log starts empty |
| Logging.RunLog.Log | Sources/RestGeneration/RestGeneration.swift:165-168 | exactly one entry is appended, the earlier ones are unchanged, and the returned text is the serialization of the whole log, which extends the previous one |
| Generation.Run | Sources/RestGeneration/RestGeneration.swift:37-44 | the entries appended are the run's messages stamped in order; the outcome and the writes attempted are those the inputs determine; a missing spec file stops the run after two messages |
| Generation.Instantiate | Sources/RestGeneration/RestGeneration.swift:45-162 | once the spec file is found: "Instantiating spec file...", then, when parsing succeeds, everything from the parsed spec on, with `Completed` and one write per server; a parser failure ends the run with that failure and no write |
| Generation.GenerateAll | Sources/RestGeneration/RestGeneration.swift:49-162 | after parsing: the "No servers found" message for no servers, then every server's messages and one write per server, in order |
| Generation.GenerateServers | Sources/RestGeneration/RestGeneration.swift:59-162 | the loop over servers logs every server's five messages and attempts every server's write, in server order |
| Generation.GenerateNext | Sources/RestGeneration/RestGeneration.swift:59-161 | one pass of that loop extends the log of the earlier servers by server `i`'s messages and adds its write as the next one |
| Generation.GenerateClient | Sources/RestGeneration/RestGeneration.swift:59-161 | one server: its five messages, and a write of its client text to its output path with that write's result |
| Generation.ServerStep | Sources/RestGeneration/RestGeneration.swift:59-161 | logging server `i`'s messages after those of the servers before it gives the log of the first `i + 1` servers |
| Generation.NextServer | Sources/RestGeneration/RestGeneration.swift:59-161 | the messages of one more server come after those of the earlier servers |
| Generation.ServerMessagesAt | Sources/RestGeneration/RestGeneration.swift:59-162 | five messages per server, and the messages of server `i` are at positions `5i` to `5i + 4` |
| Generation.WriteReportAt | Sources/RestGeneration/RestGeneration.swift:152-161 | the fifth message of server `i` reports that server's write result |
| Generation.CompletedRunMessages | Sources/RestGeneration/RestGeneration.swift:38-59 | a parsed spec with servers logs "Running Rest Generation", "Instantiating spec file...", "Instantiated spec file!", then the servers' messages |
| Generation.MissingSpecStopsEarly | Sources/RestGeneration/RestGeneration.swift:40-43 | a missing spec file logs the start and the missing path, fails with `SpecFileNotFound`, and writes nothing, whatever the parser would have returned |
| Generation.ParseFailureStopsBeforeWriting | Sources/RestGeneration/RestGeneration.swift:45-47 | a parser failure ends the run with that failure after the two opening messages, and nothing is written |
| Generation.EveryServerWritten | Sources/RestGeneration/RestGeneration.swift:59-161 | after a parsed spec, server `i` gets the `i`-th write: its own client text, to its own output path, with that write's result |
| Generation.FailedWriteIsLoggedAndRunContinues | Sources/RestGeneration/RestGeneration.swift:152-161 | a failed write still completes the run, with the messages of every server; its failure message sits in that server's place in the log |
| Generation.DistinctNamesDistinctFiles | Sources/RestGeneration/RestGeneration.swift:140 | servers with different names are written to different files |

## Left out

- Argument parsing (`@Argument`, `AsyncParsableCommand`) is library glue. The spec path is a parameter, and the output directory argument is unused by the code.
- The Swagger parser is a foreign library. Its result is an input `Result` holding the document model.
- File-system effects are inputs, not modelled behaviour:
  - whether the spec file exists;
  - creating the output directory and the empty file;
  - the write of each client, whose outcome is the `writeError` parameter.
- A throwing `createDirectory` is not modelled.
- Writing `logs.txt`, and a failure of that write, are not modelled. `Logging.RunLog.Log` returns the text that would be written.
- `Date()` and the ISO-8601 and abbreviated date formats are not modelled. Timestamps and the header date are opaque strings from the `clock` and `date` parameters.
- The header date is read once per run (the `date` parameter). The code formats `Date()` again for each server's client, so clients written across midnight could carry different dates.
- `appendLineToURL`, `appendToURL`, `Data.append(fileURL:)` and the `OutputStream` extension are file-handle I/O that the core does not call.
- Unicode: the model's alphanumerics and case mapping are ASCII. Non-ASCII letters, which Swift's `.alphanumerics` accepts, are treated as separators.
- The message text of `RestGenerationError` is not modelled. The model only has the `SpecFileNotFound(path)` outcome.
- `Package.swift` and the two build plugins are manifest and process wiring.
- The Swift string-interpolation text of `operation.method` is not modelled. The method is taken as the already-rendered name of the request primitive.
- Concurrency (`async`) is not modelled: the run is sequential.
