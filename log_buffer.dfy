/**
 * Log entries, the bounded history `addLog` keeps, and how a chunk of the
 * child's output becomes an entry.
 */
module LogBuffer {
  import opened JsStrings

  datatype LogKind = Info | Warn | Error | Success | Input

  /** `{ type, text, time }`; `time` is the opaque text of `toLocaleTimeString`. */
  datatype LogEntry = LogEntry(kind: LogKind, text: string, time: string)

  /** `addLog` drops the oldest entry only when the history holds MORE than this. */
  const ShiftThreshold := 50

  /** Shift-then-push therefore settles at one entry more than the threshold. */
  const Capacity := ShiftThreshold + 1

  /** The most recent `Capacity` entries of `s`, in order. */
  function Window(s: seq<LogEntry>): (w: seq<LogEntry>)
    ensures |w| == if |s| <= Capacity then |s| else Capacity
    ensures w == s[|s| - |w|..]
  {
    if |s| <= Capacity then s else s[|s| - Capacity..]
  }

  /** `addLog`'s update of the history: the oldest entry is shifted out when more
      than `ShiftThreshold` are held, then the new one is pushed. */
  function AddEntry(history: seq<LogEntry>, entry: LogEntry): (h: seq<LogEntry>)
    ensures |h| == if |history| > ShiftThreshold then |history| else |history| + 1
    ensures h[|h| - 1] == entry
    ensures h[..|h| - 1] == history[|history| + 1 - |h|..]
  {
    (if |history| > ShiftThreshold then history[1..] else history) + [entry]
  }

  /** `entries` logged one after another. */
  function AddAll(history: seq<LogEntry>, entries: seq<LogEntry>): seq<LogEntry>
    decreases |entries|
  {
    if entries == [] then history else AddAll(AddEntry(history, entries[0]), entries[1..])
  }

  /** From any reachable history, one `addLog` keeps at most `Capacity` entries,
      puts the new entry last, keeps the earlier entries in order and drops at
      most the single oldest one; the result is the window of the extended history. */
  lemma AddEntryProperties(history: seq<LogEntry>, entry: LogEntry)
    requires |history| <= Capacity
    ensures var h := AddEntry(history, entry);
      && h == Window(history + [entry])
      && 1 <= |h| <= Capacity
      && h[|h| - 1] == entry
      && (h[..|h| - 1] == history || (|history| == Capacity && h[..|h| - 1] == history[1..]))
  {
    var h := AddEntry(history, entry);
    assert h[..|h| - 1] == if |history| > ShiftThreshold then history[1..] else history;
    if |history| > ShiftThreshold {
      assert (history + [entry])[|history| + 1 - Capacity..] == history[1..] + [entry];
    }
  }

  /** Taking the window early does not change the window later. */
  lemma WindowAppend(x: seq<LogEntry>, y: seq<LogEntry>)
    ensures Window(Window(x) + y) == Window(x + y)
  {
    if |x| > Capacity {
      var w := x[|x| - Capacity..];
      assert (x + y)[|x| - Capacity..] == w + y;
      var s := w + y;
      if |s| > Capacity {
        assert (x + y)[|x + y| - Capacity..] == s[|s| - Capacity..];
      }
    }
  }

  /** Logging entries one by one keeps exactly the most recent `Capacity` of
      everything logged, in the order they were logged. */
  lemma {:induction false} AddAllWindow(history: seq<LogEntry>, entries: seq<LogEntry>)
    requires |history| <= Capacity
    ensures AddAll(history, entries) == Window(history + entries)
    decreases |entries|
  {
    if entries == [] {
      assert history + entries == history;
    } else {
      var next := AddEntry(history, entries[0]);
      AddEntryProperties(history, entries[0]);
      AddAllWindow(next, entries[1..]);
      WindowThrough(history, entries, next);
    }
  }

  lemma WindowThrough(history: seq<LogEntry>, entries: seq<LogEntry>, next: seq<LogEntry>)
    requires entries != [] && next == Window(history + [entries[0]])
    ensures Window(next + entries[1..]) == Window(history + entries)
  {
    WindowAppend(history + [entries[0]], entries[1..]);
    assert history + [entries[0]] + entries[1..] == history + entries;
  }

  /** Logging more than `Capacity` entries from an empty (just cleared) history
      leaves exactly the last `Capacity` of them, in order. */
  lemma OverflowKeepsMostRecent(entries: seq<LogEntry>)
    requires |entries| > Capacity
    ensures AddAll([], entries) == entries[|entries| - Capacity..]
    ensures |AddAll([], entries)| == Capacity
  {
    AddAllWindow([], entries);
    assert [] + entries == entries;
  }

  // ---------------------------------------------------------------------------
  // Output of the child process

  datatype Stream = Stdout | Stderr

  /** Install and clone chatter that the panel does not treat as an error. */
  ghost predicate IsNoise(msg: string) {
    Mentions(msg, "npm WARN") || Mentions(msg, "npm notice") || Mentions(msg, "Cloning into")
  }

  /** The kind of a trimmed stderr chunk. */
  function StderrKind(msg: string): (kind: LogKind)
    ensures kind == Input <==> IsNoise(msg)
    ensures kind == Error <==> !IsNoise(msg)
  {
    if !Includes(msg, "npm WARN") && !Includes(msg, "npm notice") && !Includes(msg, "Cloning into") then
      Error
    else
      Input
  }

  /** The entry a `data` event produces: the chunk trimmed, stdout as `info`,
      stderr as `input` when it mentions a noise marker and `error` otherwise. */
  function ChunkEntry(stream: Stream, data: string, time: string): (e: LogEntry)
    ensures e.text == Trim(data) && e.time == time
    ensures stream == Stdout ==> e.kind == Info
    ensures stream == Stderr ==> (e.kind == Input <==> IsNoise(Trim(data)))
    ensures stream == Stderr ==> (e.kind == Error <==> !IsNoise(Trim(data)))
  {
    var msg := Trim(data);
    match stream
    case Stdout => LogEntry(Info, msg, time)
    case Stderr => LogEntry(StderrKind(msg), msg, time)
  }
}
