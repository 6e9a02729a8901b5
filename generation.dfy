/** The orchestrator, `run()`: the spec-file guard, then per server the
    client text, its output path, the write, and the log messages. */
module Generation {
  import opened Wrappers
  import opened Model
  import opened Client
  import opened Logging

  /** How a run ends: normally, or with one of the errors `run()` throws. */
  datatype Outcome = Completed | SpecFileNotFound(path: string) | ParseFailed(reason: string)

  /** One write of a generated client: the path, the contents, and the error
      the write reported, if any. */
  datatype WriteAttempt = WriteAttempt(path: string, contents: string, error: Option<string>)

  /** The client texts of the first `k` servers, in server order. */
  function ClientTexts(spec: Spec, date: string, k: nat): (cs: seq<string>)
    requires k <= |spec.servers|
    ensures |cs| == k
  {
    if k == 0 then [] else ClientTexts(spec, date, k - 1) + [ClientText(spec, spec.servers[k - 1], date)]
  }

  /** The client text of every server. */
  function Clients(spec: Spec, date: string): (cs: seq<string>)
    ensures |cs| == |spec.servers|
  {
    ClientTexts(spec, date, |spec.servers|)
  }

  lemma {:induction false} ClientTextsAt(spec: Spec, date: string, k: nat, i: nat)
    requires i < k <= |spec.servers|
    ensures ClientTexts(spec, date, k)[i] == ClientText(spec, spec.servers[i], date)
    decreases k
  {
    var prev := ClientTexts(spec, date, k - 1);
    var last := ClientText(spec, spec.servers[k - 1], date);
    assert ClientTexts(spec, date, k) == prev + [last];
    if i < k - 1 {
      ClientTextsAt(spec, date, k - 1, i);
      assert (prev + [last])[i] == prev[i];
    } else {
      assert (prev + [last])[i] == last;
    }
  }

  /** The five messages logged for a client named `name` with text `client`. */
  function ServerMessages(name: string, client: string, error: Option<string>): (ms: seq<string>)
    ensures |ms| == 5
  {
    var fileName := FileName(name);
    [ "Creating " + name + " Interface",
      "Generated " + fileName + "!",
      client,
      "Saving " + fileName + " to /Sources/" + name + "/",
      WriteReport(fileName, error) ]
  }

  /** The message that reports a write's result. */
  function WriteReport(fileName: string, error: Option<string>): string {
    match error
    case None => "Wrote contents to " + fileName + " successfully!"
    case Some(e) => "Failed to write contents to " + fileName + " with error: " + e
  }

  /** The messages of each of the first `k` servers, whose client texts are
      `clients`; the write for server `i` reports `writeError(i)`. */
  function ServerBlocks(spec: Spec, clients: seq<string>, writeError: nat -> Option<string>, k: nat): (bs: seq<seq<string>>)
    requires |clients| == |spec.servers| && k <= |spec.servers|
    ensures |bs| == k
  {
    if k == 0 then []
    else ServerBlocks(spec, clients, writeError, k - 1) +
         [ServerMessages(ServerName(spec, spec.servers[k - 1]), clients[k - 1], writeError(k - 1))]
  }

  lemma {:induction false} ServerBlocksAt(spec: Spec, clients: seq<string>, writeError: nat -> Option<string>, k: nat)
    requires |clients| == |spec.servers| && k <= |spec.servers|
    ensures forall i :: 0 <= i < k ==>
      ServerBlocks(spec, clients, writeError, k)[i] == ServerMessages(ServerName(spec, spec.servers[i]), clients[i], writeError(i))
    ensures forall i :: 0 <= i < k ==> |ServerBlocks(spec, clients, writeError, k)[i]| == 5
    decreases k
  {
    if k > 0 {
      ServerBlocksAt(spec, clients, writeError, k - 1);
    }
  }

  /** The blocks one after another. */
  function Flattened(blocks: seq<seq<string>>): seq<string>
    decreases |blocks|
  {
    if blocks == [] then [] else Flattened(blocks[..|blocks| - 1]) + blocks[|blocks| - 1]
  }

  lemma FlattenedAppend(blocks: seq<seq<string>>, b: seq<string>)
    ensures Flattened(blocks + [b]) == Flattened(blocks) + b
  {
    assert (blocks + [b])[..|blocks|] == blocks;
  }

  /** With blocks of five, block `i` starts at `5 * i`. */
  lemma {:induction false} FlattenedAt(blocks: seq<seq<string>>, i: nat)
    requires forall j :: 0 <= j < |blocks| ==> |blocks[j]| == 5
    requires i < |blocks|
    ensures |Flattened(blocks)| == 5 * |blocks|
    ensures Flattened(blocks)[5 * i..5 * i + 5] == blocks[i]
    decreases |blocks|
  {
    var init := blocks[..|blocks| - 1];
    var last := blocks[|blocks| - 1];
    if i < |blocks| - 1 {
      FlattenedAt(init, i);
      assert (Flattened(init) + last)[5 * i..5 * i + 5] == Flattened(init)[5 * i..5 * i + 5];
    } else {
      FlattenedLength(init);
      assert (Flattened(init) + last)[5 * i..5 * i + 5] == last;
    }
  }

  lemma {:induction false} FlattenedLength(blocks: seq<seq<string>>)
    requires forall j :: 0 <= j < |blocks| ==> |blocks[j]| == 5
    ensures |Flattened(blocks)| == 5 * |blocks|
    decreases |blocks|
  {
    if blocks != [] {
      FlattenedLength(blocks[..|blocks| - 1]);
    }
  }

  /** The messages of the first `k` servers, in server order. */
  function ServersMessages(spec: Spec, clients: seq<string>, writeError: nat -> Option<string>, k: nat): seq<string>
    requires |clients| == |spec.servers| && k <= |spec.servers|
  {
    Flattened(ServerBlocks(spec, clients, writeError, k))
  }

  /** The messages from the parsed spec on. */
  function SpecMessages(spec: Spec, clients: seq<string>, writeError: nat -> Option<string>): seq<string>
    requires |clients| == |spec.servers|
  {
    ParsedOpening(spec) + ServersMessages(spec, clients, writeError, |spec.servers|)
  }

  /** What is logged once the spec is parsed, before the first server. */
  function ParsedOpening(spec: Spec): seq<string> {
    if spec.servers == [] then ["Instantiated spec file!", "No servers found"] else ["Instantiated spec file!"]
  }

  /** Every message a run logs, in order. */
  function RunMessages(specPath: string, specExists: bool, parsed: Result<Spec, string>, date: string,
                       writeError: nat -> Option<string>): seq<string>
  {
    if !specExists then ["Running Rest Generation", "Path for spec not found: " + specPath]
    else ["Running Rest Generation"] + ParsedMessages(parsed, date, writeError)
  }

  /** What is logged once the spec file is found: the parse, then, if it
      succeeds, everything from the parsed spec on. */
  function ParsedMessages(parsed: Result<Spec, string>, date: string, writeError: nat -> Option<string>): seq<string> {
    if parsed.Err? then ["Instantiating spec file..."]
    else ["Instantiating spec file..."] + SpecMessages(parsed.value, Clients(parsed.value, date), writeError)
  }

  function RunOutcome(specPath: string, specExists: bool, parsed: Result<Spec, string>): Outcome {
    if !specExists then SpecFileNotFound(specPath)
    else match parsed
      case Err(e) => ParseFailed(e)
      case Ok(_) => Completed
  }

  /** The writes for the first `k` servers. */
  function Writes(spec: Spec, clients: seq<string>, writeError: nat -> Option<string>, k: nat): (ws: seq<WriteAttempt>)
    requires |clients| == |spec.servers| && k <= |spec.servers|
    ensures |ws| == k
  {
    if k == 0 then []
    else Writes(spec, clients, writeError, k - 1) +
         [WriteAttempt(OutputPath(ServerName(spec, spec.servers[k - 1])), clients[k - 1], writeError(k - 1))]
  }

  lemma {:induction false} WritesAt(spec: Spec, clients: seq<string>, writeError: nat -> Option<string>, k: nat, i: nat)
    requires |clients| == |spec.servers| && i < k <= |spec.servers|
    ensures Writes(spec, clients, writeError, k)[i] ==
            WriteAttempt(OutputPath(ServerName(spec, spec.servers[i])), clients[i], writeError(i))
    decreases k
  {
    if i < k - 1 {
      WritesAt(spec, clients, writeError, k - 1, i);
    }
  }

  /** Every write a run attempts, in order. */
  function RunWrites(specExists: bool, parsed: Result<Spec, string>, date: string,
                     writeError: nat -> Option<string>): seq<WriteAttempt>
  {
    if !specExists then []
    else match parsed
      case Err(_) => []
      case Ok(spec) => Writes(spec, Clients(spec, date), writeError, |spec.servers|)
  }

  /** The log entries for `messages`, the `i`-th stamped `clock(start + i)`. */
  function Stamped(messages: seq<string>, start: nat, clock: nat -> string): (es: seq<LogEntry>)
    ensures |es| == |messages|
  {
    seq(|messages|, i requires 0 <= i < |messages| => LogEntry(clock(start + i), messages[i]))
  }

  lemma StampedConcat(messages: seq<string>, more: seq<string>, start: nat, clock: nat -> string)
    ensures Stamped(messages + more, start, clock) == Stamped(messages, start, clock) + Stamped(more, start + |messages|, clock)
  {
  }

  /** Stamping `more` at the end of a log stamped `said` stamps `said + more`. */
  lemma LogStep(first: seq<LogEntry>, said: seq<string>, more: seq<string>, start: nat, clock: nat -> string,
                mid: seq<LogEntry>, last: seq<LogEntry>)
    requires |first| == start
    requires mid == first + Stamped(said, start, clock)
    requires last == mid + Stamped(more, |mid|, clock)
    ensures last == first + Stamped(said + more, start, clock)
  {
    StampedConcat(said, more, start, clock);
  }

  /** `log` with the clock read for the entry's position in the log. */
  method LogNow(log: RunLog, clock: nat -> string, message: string)
    modifies log
    ensures log.entries == old(log.entries) + [LogEntry(clock(|old(log.entries)|), message)]
  {
    var _ := log.Log(clock(|log.entries|), message);
  }

  /** `log` each of `messages`, in order. */
  method LogEach(log: RunLog, clock: nat -> string, messages: seq<string>)
    modifies log
    ensures log.entries == old(log.entries) + Stamped(messages, |old(log.entries)|, clock)
  {
    for j := 0 to |messages|
      invariant log.entries == old(log.entries) + Stamped(messages[..j], |old(log.entries)|, clock)
    {
      ghost var mid := log.entries;
      LogNow(log, clock, messages[j]);
      LogStep(old(log.entries), messages[..j], [messages[j]], |old(log.entries)|, clock, mid, log.entries);
      assert messages[..j] + [messages[j]] == messages[..j + 1];
    }
    assert messages[..|messages|] == messages;
  }

  /** `run()`. The spec file's existence, the parser's result, the current
      date, the clock and each server's write result are inputs. */
  method Run(log: RunLog, specPath: string, specExists: bool, parsed: Result<Spec, string>, date: string,
             clock: nat -> string, writeError: nat -> Option<string>)
    returns (outcome: Outcome, attempts: seq<WriteAttempt>)
    modifies log
    ensures log.entries == old(log.entries) + Stamped(RunMessages(specPath, specExists, parsed, date, writeError), |old(log.entries)|, clock)
    ensures outcome == RunOutcome(specPath, specExists, parsed)
    ensures attempts == RunWrites(specExists, parsed, date, writeError)
  {
    attempts := [];
    LogNow(log, clock, "Running Rest Generation");
    ghost var mid := log.entries;
    if !specExists {
      LogNow(log, clock, "Path for spec not found: " + specPath);
      outcome := SpecFileNotFound(specPath);
      assert RunMessages(specPath, specExists, parsed, date, writeError) ==
             ["Running Rest Generation", "Path for spec not found: " + specPath];
      assert Stamped(["Running Rest Generation", "Path for spec not found: " + specPath], |old(log.entries)|, clock) ==
             [LogEntry(clock(|old(log.entries)|), "Running Rest Generation"),
              LogEntry(clock(|old(log.entries)| + 1), "Path for spec not found: " + specPath)];
    } else {
      assert mid == old(log.entries) + Stamped(["Running Rest Generation"], |old(log.entries)|, clock);
      outcome, attempts := Instantiate(log, specPath, parsed, date, clock, writeError);
      assert RunMessages(specPath, specExists, parsed, date, writeError) ==
             ["Running Rest Generation"] + ParsedMessages(parsed, date, writeError);
      LogStep(old(log.entries), ["Running Rest Generation"], ParsedMessages(parsed, date, writeError), |old(log.entries)|,
              clock, mid, log.entries);
    }
  }

  /** `run()` once the spec file is found: parse it, then generate. */
  method Instantiate(log: RunLog, specPath: string, parsed: Result<Spec, string>, date: string,
                     clock: nat -> string, writeError: nat -> Option<string>)
    returns (outcome: Outcome, attempts: seq<WriteAttempt>)
    modifies log
    ensures log.entries == old(log.entries) + Stamped(ParsedMessages(parsed, date, writeError), |old(log.entries)|, clock)
    ensures outcome == RunOutcome(specPath, true, parsed)
    ensures attempts == RunWrites(true, parsed, date, writeError)
  {
    LogNow(log, clock, "Instantiating spec file...");
    if parsed.Err? {
      outcome, attempts := ParseFailed(parsed.error), [];
      assert ParsedMessages(parsed, date, writeError) == ["Instantiating spec file..."];
      assert Stamped(["Instantiating spec file..."], |old(log.entries)|, clock) ==
             [LogEntry(clock(|old(log.entries)|), "Instantiating spec file...")];
      return;
    }
    ghost var mid := log.entries;
    assert mid == old(log.entries) + Stamped(["Instantiating spec file..."], |old(log.entries)|, clock);
    attempts := GenerateAll(log, parsed.value, date, clock, writeError);
    LogStep(old(log.entries), ["Instantiating spec file..."], SpecMessages(parsed.value, Clients(parsed.value, date), writeError),
            |old(log.entries)|, clock, mid, log.entries);
    assert ParsedMessages(parsed, date, writeError) ==
           ["Instantiating spec file..."] + SpecMessages(parsed.value, Clients(parsed.value, date), writeError);
    outcome := Completed;
  }

  /** `run()` once the spec is parsed: one client per server. */
  method GenerateAll(log: RunLog, spec: Spec, date: string, clock: nat -> string, writeError: nat -> Option<string>)
    returns (attempts: seq<WriteAttempt>)
    modifies log
    ensures log.entries == old(log.entries) + Stamped(SpecMessages(spec, Clients(spec, date), writeError), |old(log.entries)|, clock)
    ensures attempts == Writes(spec, Clients(spec, date), writeError, |spec.servers|)
  {
    ghost var start := |log.entries|;
    LogNow(log, clock, "Instantiated spec file!");
    if spec.servers == [] {
      LogNow(log, clock, "No servers found");
      assert Stamped(ParsedOpening(spec), start, clock) ==
             [LogEntry(clock(start), "Instantiated spec file!"), LogEntry(clock(start + 1), "No servers found")];
    } else {
      assert Stamped(ParsedOpening(spec), start, clock) == [LogEntry(clock(start), "Instantiated spec file!")];
    }
    ghost var mid := log.entries;
    attempts := GenerateServers(log, spec, date, clock, writeError);
    LogStep(old(log.entries), ParsedOpening(spec), ServersMessages(spec, Clients(spec, date), writeError, |spec.servers|),
            start, clock, mid, log.entries);
  }

  /** The loop over servers. */
  method GenerateServers(log: RunLog, spec: Spec, date: string, clock: nat -> string, writeError: nat -> Option<string>)
    returns (attempts: seq<WriteAttempt>)
    modifies log
    ensures log.entries == old(log.entries) +
      Stamped(ServersMessages(spec, Clients(spec, date), writeError, |spec.servers|), |old(log.entries)|, clock)
    ensures attempts == Writes(spec, Clients(spec, date), writeError, |spec.servers|)
  {
    attempts := [];
    assert Stamped(ServersMessages(spec, Clients(spec, date), writeError, 0), |log.entries|, clock) == [];
    for i := 0 to |spec.servers|
      invariant log.entries == old(log.entries) + Stamped(ServersMessages(spec, Clients(spec, date), writeError, i), |old(log.entries)|, clock)
      invariant attempts == Writes(spec, Clients(spec, date), writeError, i)
    {
      var attempt := GenerateNext(log, spec, i, date, clock, writeError, old(log.entries));
      attempts := attempts + [attempt];
    }
  }

  /** The body of the loop over servers: after the messages of the servers
      before `i`, log those of server `i`; its write is the next one. */
  method GenerateNext(log: RunLog, spec: Spec, i: nat, date: string, clock: nat -> string,
                      writeError: nat -> Option<string>, ghost first: seq<LogEntry>)
    returns (attempt: WriteAttempt)
    requires i < |spec.servers|
    requires log.entries == first + Stamped(ServersMessages(spec, Clients(spec, date), writeError, i), |first|, clock)
    modifies log
    ensures log.entries == first + Stamped(ServersMessages(spec, Clients(spec, date), writeError, i + 1), |first|, clock)
    ensures Writes(spec, Clients(spec, date), writeError, i) + [attempt] == Writes(spec, Clients(spec, date), writeError, i + 1)
  {
    ghost var mid := log.entries;
    attempt := GenerateClient(log, spec, i, date, clock, writeError(i));
    ServerStep(first, spec, Clients(spec, date), writeError, i, |first|, clock, mid, log.entries);
    WritesStep(spec, Clients(spec, date), writeError, i);
  }

  /** One pass of the loop over servers: render the client of server `i`,
      pick its path, write it, and log the five messages. */
  method GenerateClient(log: RunLog, spec: Spec, i: nat, date: string, clock: nat -> string, error: Option<string>)
    returns (attempt: WriteAttempt)
    requires i < |spec.servers|
    modifies log
    ensures log.entries == old(log.entries) +
      Stamped(ServerMessages(ServerName(spec, spec.servers[i]), Clients(spec, date)[i], error), |old(log.entries)|, clock)
    ensures attempt == WriteAttempt(OutputPath(ServerName(spec, spec.servers[i])), Clients(spec, date)[i], error)
  {
    var server := spec.servers[i];
    var name := ServerName(spec, server);
    var restClient := RenderClient(spec, server, date);
    ClientTextsAt(spec, date, |spec.servers|, i);
    var outputPath := OutputPath(name);
    LogEach(log, clock, ServerMessages(name, restClient, error));
    attempt := WriteAttempt(outputPath, restClient, error);
  }

  /** Logging the messages of server `i` after those of the servers before it
      gives the log of the first `i + 1` servers. */
  lemma ServerStep(first: seq<LogEntry>, spec: Spec, clients: seq<string>, writeError: nat -> Option<string>, i: nat,
                   start: nat, clock: nat -> string, mid: seq<LogEntry>, last: seq<LogEntry>)
    requires |clients| == |spec.servers| && i < |spec.servers| && |first| == start
    requires mid == first + Stamped(ServersMessages(spec, clients, writeError, i), start, clock)
    requires last == mid + Stamped(ServerMessages(ServerName(spec, spec.servers[i]), clients[i], writeError(i)), |mid|, clock)
    ensures last == first + Stamped(ServersMessages(spec, clients, writeError, i + 1), start, clock)
  {
    NextServer(spec, clients, writeError, i);
    LogStep(first, ServersMessages(spec, clients, writeError, i),
            ServerMessages(ServerName(spec, spec.servers[i]), clients[i], writeError(i)), start, clock, mid, last);
  }

  /** One more server: its write comes after the others'. */
  lemma WritesStep(spec: Spec, clients: seq<string>, writeError: nat -> Option<string>, i: nat)
    requires |clients| == |spec.servers| && i < |spec.servers|
    ensures Writes(spec, clients, writeError, i + 1) == Writes(spec, clients, writeError, i) +
            [WriteAttempt(OutputPath(ServerName(spec, spec.servers[i])), clients[i], writeError(i))]
  {
  }

  /** One more server: its messages come after the others'. */
  lemma NextServer(spec: Spec, clients: seq<string>, writeError: nat -> Option<string>, i: nat)
    requires |clients| == |spec.servers| && i < |spec.servers|
    ensures ServersMessages(spec, clients, writeError, i + 1) ==
            ServersMessages(spec, clients, writeError, i) + ServerMessages(ServerName(spec, spec.servers[i]), clients[i], writeError(i))
  {
    FlattenedAppend(ServerBlocks(spec, clients, writeError, i),
                    ServerMessages(ServerName(spec, spec.servers[i]), clients[i], writeError(i)));
  }

  /** Where the messages of server `i` sit among those of the first `k`. */
  lemma ServerMessagesAt(spec: Spec, clients: seq<string>, writeError: nat -> Option<string>, k: nat, i: nat)
    requires |clients| == |spec.servers| && i < k <= |spec.servers|
    ensures |ServersMessages(spec, clients, writeError, k)| == 5 * k
    ensures ServersMessages(spec, clients, writeError, k)[5 * i..5 * i + 5] ==
            ServerMessages(ServerName(spec, spec.servers[i]), clients[i], writeError(i))
  {
    ServerBlocksAt(spec, clients, writeError, k);
    FlattenedAt(ServerBlocks(spec, clients, writeError, k), i);
  }

  /** A spec file that does not exist ends the run with `SpecFileNotFound`,
      after logging the start and the missing path and before any parse or
      write: whatever the parser would have returned plays no part. */
  lemma MissingSpecStopsEarly(specPath: string, parsed: Result<Spec, string>, date: string,
                              writeError: nat -> Option<string>)
    ensures RunOutcome(specPath, false, parsed) == SpecFileNotFound(specPath)
    ensures RunMessages(specPath, false, parsed, date, writeError) ==
            ["Running Rest Generation", "Path for spec not found: " + specPath]
    ensures RunWrites(false, parsed, date, writeError) == []
  {
  }

  /** A parser failure ends the run with that failure, after the two opening
      messages and before any write. */
  lemma ParseFailureStopsBeforeWriting(specPath: string, reason: string, date: string,
                                       writeError: nat -> Option<string>)
    ensures RunOutcome(specPath, true, Err(reason)) == ParseFailed(reason)
    ensures RunMessages(specPath, true, Err(reason), date, writeError) ==
            ["Running Rest Generation", "Instantiating spec file..."]
    ensures RunWrites(true, Err(reason), date, writeError) == []
  {
  }

  /** After a parsed spec every server gets one write, in server order: its
      own client text to its own output path, with that write's result. */
  lemma EveryServerWritten(spec: Spec, date: string, writeError: nat -> Option<string>, i: nat)
    requires i < |spec.servers|
    ensures |RunWrites(true, Ok(spec), date, writeError)| == |spec.servers|
    ensures RunWrites(true, Ok(spec), date, writeError)[i] ==
            WriteAttempt(OutputPath(ServerName(spec, spec.servers[i])), ClientText(spec, spec.servers[i], date), writeError(i))
  {
    WritesAt(spec, Clients(spec, date), writeError, |spec.servers|, i);
    ClientTextsAt(spec, date, |spec.servers|, i);
  }

  /** A failed write of one server's client is logged in that server's place
      and does not stop the run: it completes, and the messages of every
      server, before and after, are logged. */
  lemma FailedWriteIsLoggedAndRunContinues(specPath: string, spec: Spec, date: string,
                                           writeError: nat -> Option<string>, i: nat)
    requires i < |spec.servers| && writeError(i).Some?
    ensures RunOutcome(specPath, true, Ok(spec)) == Completed
    ensures var ms := RunMessages(specPath, true, Ok(spec), date, writeError);
            |ms| == 3 + 5 * |spec.servers| &&
            ms[3 + 5 * i + 4] == "Failed to write contents to " + FileName(ServerName(spec, spec.servers[i])) +
                                 " with error: " + writeError(i).value
  {
    var ms := RunMessages(specPath, true, Ok(spec), date, writeError);
    CompletedRunMessages(specPath, spec, date, writeError);
    WriteReportAt(spec, Clients(spec, date), writeError, i);
    assert ms[3 + 5 * i + 4] == ms[3..][5 * i + 4];
  }

  /** The fifth message of server `i` reports its write. */
  lemma WriteReportAt(spec: Spec, clients: seq<string>, writeError: nat -> Option<string>, i: nat)
    requires |clients| == |spec.servers| && i < |spec.servers|
    ensures |ServersMessages(spec, clients, writeError, |spec.servers|)| == 5 * |spec.servers|
    ensures ServersMessages(spec, clients, writeError, |spec.servers|)[5 * i + 4] ==
            WriteReport(FileName(ServerName(spec, spec.servers[i])), writeError(i))
  {
    var servers := ServersMessages(spec, clients, writeError, |spec.servers|);
    ServerMessagesAt(spec, clients, writeError, |spec.servers|, i);
    assert servers[5 * i + 4] == servers[5 * i..5 * i + 5][4];
  }

  /** A run over a parsed spec with servers logs three opening messages, then
      the servers' messages. */
  lemma CompletedRunMessages(specPath: string, spec: Spec, date: string, writeError: nat -> Option<string>)
    requires spec.servers != []
    ensures var ms := RunMessages(specPath, true, Ok(spec), date, writeError);
      ms[..3] == ["Running Rest Generation", "Instantiating spec file...", "Instantiated spec file!"] &&
      ms[3..] == ServersMessages(spec, Clients(spec, date), writeError, |spec.servers|)
  {
    var servers := ServersMessages(spec, Clients(spec, date), writeError, |spec.servers|);
    assert SpecMessages(spec, Clients(spec, date), writeError) == ["Instantiated spec file!"] + servers;
    assert ParsedMessages(Ok(spec), date, writeError) == ["Instantiating spec file..."] + (["Instantiated spec file!"] + servers);
    assert RunMessages(specPath, true, Ok(spec), date, writeError) ==
           ["Running Rest Generation"] + ParsedMessages(Ok(spec), date, writeError);
    ThreeThenRest("Running Rest Generation", "Instantiating spec file...", "Instantiated spec file!", servers);
  }

  lemma ThreeThenRest<T>(a: T, b: T, c: T, rest: seq<T>)
    ensures ([a] + ([b] + ([c] + rest)))[..3] == [a, b, c]
    ensures ([a] + ([b] + ([c] + rest)))[3..] == rest
  {
    assert ([a] + ([b] + ([c] + rest))) == [a, b, c] + rest;
  }

  /** Servers with different names are written to different files. */
  lemma DistinctNamesDistinctFiles(spec: Spec, date: string, writeError: nat -> Option<string>, i: nat, j: nat)
    requires i < |spec.servers| && j < |spec.servers|
    requires ServerName(spec, spec.servers[i]) != ServerName(spec, spec.servers[j])
    ensures RunWrites(true, Ok(spec), date, writeError)[i].path != RunWrites(true, Ok(spec), date, writeError)[j].path
  {
    var ws := RunWrites(true, Ok(spec), date, writeError);
    WritesAt(spec, Clients(spec, date), writeError, |spec.servers|, i);
    WritesAt(spec, Clients(spec, date), writeError, |spec.servers|, j);
    if ws[i].path == ws[j].path {
      OutputPathInjective(ServerName(spec, spec.servers[i]), ServerName(spec, spec.servers[j]));
    }
  }
}
