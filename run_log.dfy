/** The run log: timestamped messages kept in order, re-serialized in full
    after every append so that a partial run still leaves a readable trail. */
module Logging {
  import opened Text

  /** One log entry; the timestamp is the already-formatted date text. */
  datatype LogEntry = LogEntry(timestamp: string, message: string)

  function EntryLine(e: LogEntry): string {
    e.timestamp + ": " + e.message
  }

  function EntryLines(entries: seq<LogEntry>): (r: seq<string>)
    ensures |r| == |entries|
    ensures forall i :: 0 <= i < |entries| ==> r[i] == EntryLine(entries[i])
  {
    seq(|entries|, i requires 0 <= i < |entries| => EntryLine(entries[i]))
  }

  /** `printLogs`: each entry as `timestamp: message`, one per line. */
  function Serialized(entries: seq<LogEntry>): string {
    Join(EntryLines(entries), "\n")
  }

  /** Appending an entry appends its line to the serialized log: the text
      written before is a prefix of the text written after. */
  lemma SerializedAppend(entries: seq<LogEntry>, e: LogEntry)
    ensures entries == [] ==> Serialized(entries + [e]) == EntryLine(e)
    ensures entries != [] ==> Serialized(entries + [e]) == Serialized(entries) + "\n" + EntryLine(e)
    ensures Serialized(entries) <= Serialized(entries + [e])
  {
    assert EntryLines(entries + [e]) == EntryLines(entries) + [EntryLine(e)];
    if entries != [] {
      JoinAppend(EntryLines(entries), EntryLine(e), "\n");
    }
  }

  /** With one-line messages, the log file reads back as one line per entry. */
  lemma SerializedLines(entries: seq<LogEntry>)
    requires entries != []
    requires forall i :: 0 <= i < |entries| ==> SingleLine(entries[i].timestamp) && SingleLine(entries[i].message)
    ensures Lines(Serialized(entries)) == EntryLines(entries)
  {
    LinesOfJoin(EntryLines(entries));
  }

  /** The in-memory log of one run. */
  class RunLog {
    var entries: seq<LogEntry>

    constructor ()
      ensures entries == []
    {
      entries := [];
    }

    /** The text `printLogs` writes to the log file. */
    function Printed(): string
      reads this
    {
      Serialized(entries)
    }

    /** `log`: append the entry, then serialize the whole log again; the
        serialized text, the content of the log file, is returned. */
    method Log(timestamp: string, message: string) returns (printed: string)
      modifies this
      ensures entries == old(entries) + [LogEntry(timestamp, message)]
      ensures printed == Printed()
      ensures old(Printed()) <= printed
    {
      SerializedAppend(entries, LogEntry(timestamp, message));
      entries := entries + [LogEntry(timestamp, message)];
      printed := Serialized(entries);
    }
  }
}
