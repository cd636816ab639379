/**
 * The panel's server state and its handlers: the bounded log history and its
 * broadcast, the single slot for the bot process (`killBot`, `startBot`, the
 * child's event handlers, terminal input), `deployFlow` and the two deploy
 * routes, and the three file-manager routes. Actions on processes and on the
 * filesystem are appended to `performed`; whether each of them throws, the
 * clock's reading and the pid the OS hands out are parameters.
 */
module Panel {
  import opened Results
  import opened JsStrings
  import opened PosixPath
  import opened Sandbox
  import opened LogBuffer
  import opened DeployPlan
  import opened FileListing

  /** A field of a request body: missing, a string, or a value of another
      JSON or multipart type (a number, a boolean, null, an array, an object),
      given by the text `String()` writes for it and by its truthiness. */
  datatype Field = Absent | Given(s: string) | Other(shown: string, truthy: bool)

  /** JavaScript truthiness of a field. */
  predicate Truthy(f: Field) {
    match f
    case Absent => false
    case Given(s) => s != ""
    case Other(_, truthy) => truthy
  }

  /** `String(field)`: a string is its own text, a missing field reads
      "undefined", and any other value reads as `String()` writes it. */
  function FieldText(f: Field): (text: string)
    ensures f.Given? ==> text == f.s
    ensures f.Absent? ==> text == "undefined"
    ensures f.Other? ==> text == f.shown
  {
    match f
    case Absent => "undefined"
    case Given(s) => s
    case Other(shown, _) => shown
  }

  /** A missing start command is not replaced by the default: it is started
      as the command "undefined". */
  lemma MissingStartCommand()
    ensures StartCommand(FieldText(Absent)) == "undefined"
  {
    assert !IsJsSpace('u') && !IsJsSpace('d');
    TrimFixed("undefined");
  }

  /** What `getSafeAbsolutePath` receives for a body field: a string as it
      is, any other value as a non-string. */
  function AsClientPath(f: Field): (c: ClientPath)
    ensures c.Text? <==> f.Given?
    ensures f.Given? ==> ClientText(c) == f.s
  {
    if f.Given? then Text(f.s) else NotAString
  }

  /** A file multer stored under `UPLOAD_DIR` with the client's own name. */
  datatype UploadedFile = UploadedFile(originalName: string)

  /** The HTTP answer of a route. */
  datatype Reply =
    | Done                                // { success: true }
    | Started(message: string)            // { success: true, message }
    | Listing(entries: seq<FileEntry>)
    | Failure(status: nat, error: string)

  /** What the filesystem holds at the directory asked to be listed. */
  datatype DirView =
    | Missing
    | NotDirectory
    | Directory(names: seq<string>, stats: map<string, Stat>)
    | Unreadable(message: string)         // `readdir` or `stat` of the directory throws

  const ClearedNote := "Histórico de log do servidor foi limpo por comando do painel."
  const OfflineNote := "O Bot está OFFLINE. Inicie o deploy."
  const UnresponsiveNote := "Erro ao enviar comando: Processo não responde."
  const ClosedPrefix := "Bot desligado. Código de saída: "
  const SpawnErrorPrefix := "Erro ao iniciar o processo: "
  const RootRefusal := "Não é possível deletar a raiz do diretório do bot."
  const ZipMissing := "ZIP não enviado."
  const GitMissing := "URL Git vazia."
  const ZipStarted := "Deploy iniciado."
  const GitStarted := "Deploy Git iniciado."
  const NotFound := "Diretório não encontrado."
  const NotADirectory := "Caminho não é um diretório."
  const BadDelete := "Caminho ou nome inválido"
  const BadUpload := "Nenhum arquivo enviado ou caminho faltante."
  const ListPrefix := "Erro ao listar: "
  const InternalPrefix := "Erro interno: "
  const DeletePrefix := "Erro ao deletar: "
  const UploadPrefix := "Erro no upload: "

  /** The error text a route's catch reports: a message about path traversal
      as it is, any other after the route's prefix. */
  function RouteMessage(prefix: string, message: string): (r: string)
    ensures Mentions(message, "Path Traversal") ==> r == message
    ensures !Mentions(message, "Path Traversal") ==> r == prefix + message
  {
    if Includes(message, "Path Traversal") then message else prefix + message
  }

  /** The sandbox's refusal reaches the client word for word. */
  lemma TraversalReported(prefix: string)
    ensures RouteMessage(prefix, TraversalMessage) == TraversalMessage
  {
    assert TraversalMessage[28..28 + |"Path Traversal"|] == "Path Traversal";
    assert OccursAt(TraversalMessage, "Path Traversal", 28);
  }

  // ---------------------------------------------------------------------------
  // The paths the file routes touch

  /** `path.resolve(BOT_DIR)` is `BOT_DIR` itself. */
  lemma RootResolvesToItself(install: seq<string>)
    requires AllNames(install)
    ensures BotDir(install) != "" && BotDir(install)[0] == '/'
    ensures ResolveAbsolute(BotDir(install)) == BotDir(install)
  {
    var root := BotRoot(install);
    BotRootNames(install);
    NormalizeRendered(root);
    ResolveNormalized(BotDir(install));
    SplitRender(root);
    CollapseRendered(root, []);
    assert [""] + root + [] == [""] + root;
  }

  /** The path `DELETE /files/delete` removes: `currentPath` joined with
      `name`, confined by the sandbox, and never the bot directory itself. */
  function DeleteTarget(install: seq<string>, currentPath: string, name: string): (r: Result<string>)
    requires AllNames(install)
    ensures var safe := GetSafeAbsolutePath(install, Text(Join(currentPath, name)));
      && (r.Ok? <==> safe.Ok? && safe.value != BotDir(install))
      && (r.Ok? ==> r.value == safe.value && StartsWith(r.value, BotDir(install)))
      && (r.Err? ==> r.error == if safe.Err? then TraversalMessage else RootRefusal)
  {
    var safe := GetSafeAbsolutePath(install, Text(Join(currentPath, name)));
    RootResolvesToItself(install);
    if safe.Err? then safe
    else if safe.value == ResolveAbsolute(BotDir(install)) then Err(RootRefusal)
    else safe
  }

  /** Every spelling of the root that the sandbox accepts is refused for deletion. */
  lemma DeleteRefusesRoot(install: seq<string>, currentPath: string, name: string)
    requires AllNames(install)
    requires Join(currentPath, name) in {"", "/", ".", "./"}
    ensures DeleteTarget(install, currentPath, name) == Err(RootRefusal)
  {
    var root := Text("/");
    assert ListPath(None) == root && ListPath(Some(Text(""))) == root;
    RootSpellings(install);
  }

  /** The literal request `{ currentPath: "/", name: "." }` names the root. */
  lemma DeleteRootLiteral(install: seq<string>)
    requires AllNames(install)
    ensures DeleteTarget(install, "/", ".") == Err(RootRefusal)
  {
    SplitConcat("/", ".");
    SplitConcat("", "");
    SplitName(".");
    assert "/" + "/" + "." == "//.";
    assert Split("//.") == ["", "", "."];
    assert Collapse([], ["", "", "."], false) == [];
    assert Join("/", ".") == "/";
    DeleteRefusesRoot(install, "/", ".");
  }

  /** Where `GET /files/list` looks: `req.query.path || '/'`. */
  function ListPath(query: Option<ClientPath>): (c: ClientPath)
    ensures c != Text("")
    ensures query.Some? && query.value != Text("") ==> c == query.value
    ensures query.None? || query.value == Text("") ==> c == Text("/")
  {
    if query.None? || query.value == Text("") then Text("/") else query.value
  }

  /** A truthy upload `currentPath` that is not a string (a repeated or
      bracketed multipart field) is sandboxed as the empty path: the upload
      goes into the bot directory itself. */
  lemma NonStringUploadAtRoot(install: seq<string>, shown: string, truthy: bool)
    requires AllNames(install)
    ensures GetSafeAbsolutePath(install, AsClientPath(Other(shown, truthy))) == Ok(BotDir(install))
  {
    RootSpellings(install);
  }

  /** Without a path the listing shows the bot directory itself. */
  lemma ListDefaultsToRoot(install: seq<string>)
    requires AllNames(install)
    ensures GetSafeAbsolutePath(install, ListPath(None)) == Ok(BotDir(install))
    ensures GetSafeAbsolutePath(install, ListPath(Some(Text("")))) == Ok(BotDir(install))
  {
    var root := Text("/");
    assert ListPath(None) == root && ListPath(Some(Text(""))) == root;
    RootSpellings(install);
  }

  /** Where multer stored an upload: `path.join(UPLOAD_DIR, originalname)`,
      an absolute path. */
  function TempPath(install: seq<string>, file: UploadedFile): (p: string)
    ensures p != "" && p[0] == '/'
  {
    Join(UploadDir(install), file.originalName)
  }

  /** The text `close` logs: the exit code, or "null" when a signal ended the child. */
  function ExitText(code: Option<int>): string {
    if code.Some? then IntString(code.value) else "null"
  }

  /** Logging `notes` on top of a window of `h0 + logs`, and recording them after `e0 + logs`. */
  lemma LogMore(h0: seq<LogEntry>, e0: seq<LogEntry>, logs: seq<LogEntry>, notes: seq<LogEntry>)
    ensures Window(Window(h0 + logs) + notes) == Window(h0 + (logs + notes))
    ensures e0 + logs + notes == e0 + (logs + notes)
  {
    WindowAppend(h0 + logs, notes);
    assert h0 + logs + notes == h0 + (logs + notes);
  }

  /** The history `lh`, the emitted entries `em` and the performed effects
      `pf` are those left by the outcome `o` of a `try` block begun from `h0`,
      `e0` and `p0`. */
  ghost predicate Tracks(lh: seq<LogEntry>, em: seq<LogEntry>, pf: seq<Effect>,
                         h0: seq<LogEntry>, e0: seq<LogEntry>, p0: seq<Effect>, o: Outcome)
  {
    lh == Window(h0 + o.logs) && em == e0 + o.logs && pf == p0 + o.effects
  }

  /** Logging a stage's notes and performing its action, while nothing has
      been thrown, keeps the state in step with the outcome. */
  lemma Advance(lh: seq<LogEntry>, em: seq<LogEntry>, pf: seq<Effect>,
                h0: seq<LogEntry>, e0: seq<LogEntry>, p0: seq<Effect>, o: Outcome, s: Stage,
                lh': seq<LogEntry>, em': seq<LogEntry>, pf': seq<Effect>)
    requires Tracks(lh, em, pf, h0, e0, p0, o) && o.thrown.None?
    requires lh' == Window(lh + s.notes) && em' == em + s.notes && pf' == pf + [s.action]
    ensures Tracks(lh', em', pf', h0, e0, p0, Then(o, s))
  {
    LogMore(h0, e0, o.logs, s.notes);
    assert p0 + o.effects + [s.action] == p0 + (o.effects + [s.action]);
  }

  // ---------------------------------------------------------------------------
  // The server

  class BotPanel {
    /** The names of `__dirname`, under which `user_bot` and `temp_uploads` sit. */
    const install: seq<string>
    /** `logHistory`. */
    var logHistory: seq<LogEntry>
    /** Every entry broadcast with `io.emit('log-message', …)`, in order. */
    var emitted: seq<LogEntry>
    /** `currentBotProcess`. */
    var currentBotProcess: Option<BotProcess>
    /** The actions attempted on processes and on the filesystem, in order. */
    var performed: seq<Effect>

    /** The history never exceeds its capacity, and the slot never holds a
        handle that was killed: `killBot` empties it as it kills. */
    predicate Valid()
      reads this
    {
      AllNames(install) && |logHistory| <= Capacity
      && (currentBotProcess.Some? ==> !currentBotProcess.value.killed)
    }

    /** Since the state `history0`/`emitted0`, exactly `entries` were logged. */
    ghost predicate Logged(history0: seq<LogEntry>, emitted0: seq<LogEntry>, entries: seq<LogEntry>)
      reads this
    {
      logHistory == Window(history0 + entries) && emitted == emitted0 + entries
    }

    constructor(install: seq<string>)
      requires AllNames(install)
      ensures Valid() && this.install == install
      ensures logHistory == [] && emitted == [] && currentBotProcess == None && performed == []
    {
      this.install := install;
      logHistory := [];
      emitted := [];
      currentBotProcess := None;
      performed := [];
    }

    /** `addLog`: shift when more than 50 entries are held, push, broadcast. */
    method AddLog(kind: LogKind, text: string, now: string)
      requires Valid()
      modifies this
      ensures Valid() && Logged(old(logHistory), old(emitted), [LogEntry(kind, text, now)])
      ensures logHistory == AddEntry(old(logHistory), LogEntry(kind, text, now))
      ensures currentBotProcess == old(currentBotProcess) && performed == old(performed)
    {
      var entry := LogEntry(kind, text, now);
      AddEntryProperties(logHistory, entry);
      if |logHistory| > ShiftThreshold {
        logHistory := logHistory[1..];
      }
      logHistory := logHistory + [entry];
      emitted := emitted + [entry];
    }

    /** `killBot`: with a process held, log, kill its group and empty the slot;
        without one, do nothing. */
    method KillBot(now: string)
      requires Valid()
      modifies this
      ensures Valid() && currentBotProcess == None
      ensures old(currentBotProcess).Some? ==>
        && Logged(old(logHistory), old(emitted), [LogEntry(Warn, KillNote, now)])
        && performed == old(performed) + [KillGroup(old(currentBotProcess).value.pid)]
      ensures old(currentBotProcess).None? ==>
        logHistory == old(logHistory) && emitted == old(emitted) && performed == old(performed)
    {
      if currentBotProcess.Some? {
        var pid := currentBotProcess.value.pid;
        AddLog(Warn, KillNote, now);
        performed := performed + [KillGroup(pid)];
        currentBotProcess := None;
      }
    }

    /** `startBot`: log, spawn `command` in the bot directory and hold the new
        child; a spawn that throws leaves the slot as it was. */
    method StartBot(command: string, pid: int, spawnFault: Option<string>, now: string) returns (thrown: Option<string>)
      requires Valid()
      modifies this
      ensures Valid() && thrown == spawnFault
      ensures Logged(old(logHistory), old(emitted), [LogEntry(Success, StartPrefix + command, now)])
      ensures performed == old(performed) + [Spawn(command, BotDir(install))]
      ensures currentBotProcess == if spawnFault.None? then Some(BotProcess(pid, command, false)) else old(currentBotProcess)
    {
      AddLog(Success, StartPrefix + command, now);
      performed := performed + [Spawn(command, BotDir(install))];
      thrown := spawnFault;
      if spawnFault.None? {
        currentBotProcess := Some(BotProcess(pid, command, false));
      }
    }

    /** A `data` event on the child's stdout or stderr: one entry, trimmed and classified. */
    method OnOutput(stream: Stream, data: string, now: string)
      requires Valid()
      modifies this
      ensures Valid() && Logged(old(logHistory), old(emitted), [ChunkEntry(stream, data, now)])
      ensures currentBotProcess == old(currentBotProcess) && performed == old(performed)
    {
      var e := ChunkEntry(stream, data, now);
      AddLog(e.kind, e.text, now);
    }

    /** The child's `close` event: a warning with the exit code. The slot is
        not emptied. */
    method OnClose(code: Option<int>, now: string)
      requires Valid()
      modifies this
      ensures Valid() && Logged(old(logHistory), old(emitted), [LogEntry(Warn, ClosedPrefix + ExitText(code), now)])
      ensures currentBotProcess == old(currentBotProcess) && performed == old(performed)
    {
      AddLog(Warn, ClosedPrefix + ExitText(code), now);
    }

    /** The child's `error` event. */
    method OnSpawnError(message: string, now: string)
      requires Valid()
      modifies this
      ensures Valid() && Logged(old(logHistory), old(emitted), [LogEntry(Error, SpawnErrorPrefix + message, now)])
      ensures currentBotProcess == old(currentBotProcess) && performed == old(performed)
    {
      AddLog(Error, SpawnErrorPrefix + message, now);
    }

    /** `terminal-input`: with a live process held, write the line to its
        stdin and echo it (or report that the write threw); otherwise report
        the bot offline. Nothing reaches a process when the slot is empty. */
    method TerminalInput(cmd: string, writeThrows: bool, now: string)
      requires Valid()
      modifies this
      ensures Valid() && currentBotProcess == old(currentBotProcess)
      ensures old(currentBotProcess).Some? ==>
        && performed == old(performed) + [WriteStdin(old(currentBotProcess).value.pid, cmd + "\n")]
        && Logged(old(logHistory), old(emitted),
             [if writeThrows then LogEntry(Error, UnresponsiveNote, now) else LogEntry(Input, "$ " + cmd, now)])
      ensures old(currentBotProcess).None? ==>
        performed == old(performed) && Logged(old(logHistory), old(emitted), [LogEntry(Error, OfflineNote, now)])
    {
      if currentBotProcess.Some? && !currentBotProcess.value.killed {
        performed := performed + [WriteStdin(currentBotProcess.value.pid, cmd + "\n")];
        if writeThrows {
          AddLog(Error, UnresponsiveNote, now);
        } else {
          AddLog(Input, "$ " + cmd, now);
        }
      } else {
        AddLog(Error, OfflineNote, now);
      }
    }

    /** `request-log-history`: empty the history, log that it was cleared,
        and send the history back, which then holds that one entry. */
    method ClearHistory(now: string) returns (snapshot: seq<LogEntry>)
      requires Valid()
      modifies this
      ensures Valid() && snapshot == logHistory == [LogEntry(Info, ClearedNote, now)]
      ensures emitted == old(emitted) + snapshot
      ensures currentBotProcess == old(currentBotProcess) && performed == old(performed)
    {
      logHistory := [];
      AddLog(Info, ClearedNote, now);
      snapshot := logHistory;
    }

    /** A new connection receives the history as it stands. */
    method Connect() returns (snapshot: seq<LogEntry>)
      requires Valid()
      ensures snapshot == logHistory && |snapshot| <= Capacity
    {
      snapshot := logHistory;
    }

    /** The state `deployFlow` leaves, from `h0`, `e0`, `p0` with `slot0` held:
        its pipeline's run is logged and performed, and the slot holds the new
        child exactly when every step up to the start went through. */
    ghost predicate Deployed(h0: seq<LogEntry>, e0: seq<LogEntry>, p0: seq<Effect>, slot0: Option<BotProcess>,
                             raw: string, shouldInstall: bool, source: Source, faults: Faults, pid: int, now: string)
      reads this
    {
      var run := RunStages(DeployStages(install, slot0, raw, shouldInstall, source, faults, now), now);
      && Logged(h0, e0, run.logs) && performed == p0 + run.effects
      && currentBotProcess ==
           if Spawned(faults) then Some(BotProcess(pid, FinalCommand(raw, shouldInstall, BotDir(install)), false))
           else None
    }

    /** Since the state `h0`/`e0`/`p0`, exactly the stage `st` ran: its notes
        were logged and its action performed. */
    ghost predicate Ran(h0: seq<LogEntry>, e0: seq<LogEntry>, p0: seq<Effect>, st: Stage)
      reads this
    {
      Logged(h0, e0, st.notes) && performed == p0 + [st.action]
    }

    /** The cleaning note and `await fs.ensureDir(BOT_DIR)`. */
    method EnsureBotDir(fault: Option<string>, now: string) returns (thrown: Option<string>)
      requires Valid()
      modifies this
      ensures Valid() && thrown == fault && currentBotProcess == old(currentBotProcess)
      ensures Ran(old(logHistory), old(emitted), old(performed), EnsureStage(install, fault, now))
    {
      AddLog(Warn, CleaningNote, now);
      performed := performed + [EnsureDir(BotDir(install))];
      thrown := fault;
    }

    /** `await fs.emptyDir(BOT_DIR)`. */
    method EmptyBotDir(fault: Option<string>) returns (thrown: Option<string>)
      requires Valid()
      modifies this
      ensures Valid() && thrown == fault && currentBotProcess == old(currentBotProcess)
      ensures Ran(old(logHistory), old(emitted), old(performed), EmptyStage(install, fault))
    {
      performed := performed + [EmptyDir(BotDir(install))];
      thrown := fault;
    }

    /** The route's `fileHandler`: log, then extract the uploaded archive into
        `BOT_DIR` or clone the repository into it. */
    method FetchSource(source: Source, fault: Option<string>, now: string) returns (thrown: Option<string>)
      requires Valid()
      modifies this
      ensures Valid() && thrown == fault && currentBotProcess == old(currentBotProcess)
      ensures Ran(old(logHistory), old(emitted), old(performed), FetchStage(install, source, fault, now))
    {
      var note := FetchNote(source, now);
      AddLog(note.kind, note.text, now);
      performed := performed + [FetchAction(source, BotDir(install))];
      thrown := fault;
    }

    /** The install note when asked for, the final command, and `startBot`. */
    method Launch(startCmd: string, shouldInstall: bool, pid: int, fault: Option<string>, now: string)
      returns (thrown: Option<string>)
      requires Valid()
      modifies this
      ensures Valid() && thrown == fault
      ensures var cmd := if shouldInstall then InstallPrefix(BotDir(install)) + startCmd else startCmd;
        && Ran(old(logHistory), old(emitted), old(performed), StartStage(install, cmd, shouldInstall, fault, now))
        && currentBotProcess == if fault.None? then Some(BotProcess(pid, cmd, false)) else old(currentBotProcess)
    {
      ghost var h0, e0 := logHistory, emitted;
      var finalCmd := Announce(startCmd, shouldInstall, now);
      ghost var success := LogEntry(Success, StartPrefix + finalCmd, now);
      LogMore(h0, e0, InstallNotes(shouldInstall, now), [success]);
      thrown := StartBot(finalCmd, pid, fault, now);
    }

    /** The install note when installation was asked for, and the command
        `startBot` is then given. */
    method Announce(startCmd: string, shouldInstall: bool, now: string) returns (finalCmd: string)
      requires Valid()
      modifies this
      ensures Valid() && Logged(old(logHistory), old(emitted), InstallNotes(shouldInstall, now))
      ensures finalCmd == if shouldInstall then InstallPrefix(BotDir(install)) + startCmd else startCmd
      ensures currentBotProcess == old(currentBotProcess) && performed == old(performed)
    {
      finalCmd := startCmd;
      if shouldInstall {
        AddLog(Info, InstallNote, now);
        finalCmd := InstallPrefix(BotDir(install)) + startCmd;
      } else {
        assert logHistory + [] == logHistory && emitted + [] == emitted;
      }
    }

    /** `await fs.emptyDir(UPLOAD_DIR)`. */
    method EmptyUploads(fault: Option<string>) returns (thrown: Option<string>)
      requires Valid()
      modifies this
      ensures Valid() && thrown == fault && currentBotProcess == old(currentBotProcess)
      ensures Ran(old(logHistory), old(emitted), old(performed), CleanupStage(install, fault))
    {
      performed := performed + [EmptyDir(UploadDir(install))];
      thrown := fault;
    }

    /** The `catch` of `deployFlow`: one error entry naming the failure. */
    method Catch(message: string, now: string)
      requires Valid()
      modifies this
      ensures Valid() && Logged(old(logHistory), old(emitted), [FailureEntry(message, now)])
      ensures currentBotProcess == old(currentBotProcess) && performed == old(performed)
    {
      AddLog(Error, FailurePrefix + message, now);
    }

    /** `await killBot()` at the head of `deployFlow`'s `try` block. */
    method StopHeld(now: string)
      requires Valid()
      modifies this
      ensures Valid() && currentBotProcess == None
      ensures Tracks(logHistory, emitted, performed, old(logHistory), old(emitted), old(performed),
                     Attempt(Untried, KillStages(old(currentBotProcess), now)))
    {
      ghost var h0, e0, p0 := logHistory, emitted, performed;
      assert Tracks(h0, e0, p0, h0, e0, p0, Untried) by {
        assert h0 + [] == h0 && e0 + [] == e0 && p0 + [] == p0;
      }
      if currentBotProcess.Some? {
        ghost var kill := KillStages(currentBotProcess, now)[0];
        assert Attempt(Untried, KillStages(currentBotProcess, now)) == Attempt(Then(Untried, kill), []);
        KillBot(now);
        Advance(h0, e0, p0, h0, e0, p0, Untried, kill, logHistory, emitted, performed);
      } else {
        KillBot(now);
      }
    }

    /** The part of `deployFlow`'s `try` block after `killBot` that cleans the
        bot directory and fetches the code, from the outcome `o`. */
    method CleanAndFetch(source: Source, faults: Faults, now: string,
                         ghost h0: seq<LogEntry>, ghost e0: seq<LogEntry>, ghost p0: seq<Effect>, ghost o: Outcome)
      returns (thrown: Option<string>)
      requires Valid() && Tracks(logHistory, emitted, performed, h0, e0, p0, o) && o.thrown.None?
      modifies this
      ensures Valid() && currentBotProcess == old(currentBotProcess)
      ensures var o' := Then(Then(Then(o, EnsureStage(install, faults.ensureDir, now)),
                                  EmptyStage(install, faults.emptyDir)),
                             FetchStage(install, source, faults.fetch, now));
        Tracks(logHistory, emitted, performed, h0, e0, p0, o') && thrown == o'.thrown
    {
      ghost var lh, em, pf := logHistory, emitted, performed;
      thrown := EnsureBotDir(faults.ensureDir, now);
      Advance(lh, em, pf, h0, e0, p0, o, EnsureStage(install, faults.ensureDir, now), logHistory, emitted, performed);
      ghost var o1 := Then(o, EnsureStage(install, faults.ensureDir, now));
      if thrown.None? {
        lh, em, pf := logHistory, emitted, performed;
        thrown := EmptyBotDir(faults.emptyDir);
        Advance(lh, em, pf, h0, e0, p0, o1, EmptyStage(install, faults.emptyDir), logHistory, emitted, performed);
        ghost var o2 := Then(o1, EmptyStage(install, faults.emptyDir));
        if thrown.None? {
          lh, em, pf := logHistory, emitted, performed;
          thrown := FetchSource(source, faults.fetch, now);
          Advance(lh, em, pf, h0, e0, p0, o2, FetchStage(install, source, faults.fetch, now), logHistory, emitted, performed);
        }
      }
    }

    /** The rest of `deployFlow`'s `try` block: the final command is started and
        the upload directory emptied, from the outcome `o`. */
    method StartAndTidy(startCmd: string, shouldInstall: bool, faults: Faults, pid: int, now: string,
                        ghost h0: seq<LogEntry>, ghost e0: seq<LogEntry>, ghost p0: seq<Effect>, ghost o: Outcome)
      returns (thrown: Option<string>)
      requires Valid() && Tracks(logHistory, emitted, performed, h0, e0, p0, o) && o.thrown.None?
      modifies this
      ensures Valid()
      ensures var cmd := if shouldInstall then InstallPrefix(BotDir(install)) + startCmd else startCmd;
        var o' := Then(Then(o, StartStage(install, cmd, shouldInstall, faults.spawn, now)),
                       CleanupStage(install, faults.cleanup));
        && Tracks(logHistory, emitted, performed, h0, e0, p0, o') && thrown == o'.thrown
        && currentBotProcess == if faults.spawn.None? then Some(BotProcess(pid, cmd, false)) else old(currentBotProcess)
    {
      ghost var cmd := if shouldInstall then InstallPrefix(BotDir(install)) + startCmd else startCmd;
      ghost var lh, em, pf := logHistory, emitted, performed;
      thrown := Launch(startCmd, shouldInstall, pid, faults.spawn, now);
      Advance(lh, em, pf, h0, e0, p0, o, StartStage(install, cmd, shouldInstall, faults.spawn, now),
              logHistory, emitted, performed);
      ghost var o1 := Then(o, StartStage(install, cmd, shouldInstall, faults.spawn, now));
      if thrown.None? {
        lh, em, pf := logHistory, emitted, performed;
        thrown := EmptyUploads(faults.cleanup);
        Advance(lh, em, pf, h0, e0, p0, o1, CleanupStage(install, faults.cleanup), logHistory, emitted, performed);
      }
    }

    /** `deployFlow`: trim the start command, stop the held process, ensure and
        empty the bot directory, fetch, start the final command, empty the
        upload directory; the first step that throws is logged as a deploy
        failure and ends the flow. */
    method DeployFlow(raw: string, shouldInstall: bool, source: Source, faults: Faults, pid: int, now: string)
      requires Valid()
      modifies this
      ensures Valid()
      ensures Deployed(old(logHistory), old(emitted), old(performed), old(currentBotProcess),
                       raw, shouldInstall, source, faults, pid, now)
    {
      ghost var h0, e0, p0 := logHistory, emitted, performed;
      var startCmd := StartCommand(raw);
      DeployAttempt(install, currentBotProcess, raw, shouldInstall, source, faults, now);
      ghost var o := Attempt(Untried, KillStages(currentBotProcess, now));
      StopHeld(now);

      var thrown := CleanAndFetch(source, faults, now, h0, e0, p0, o);
      o := Then(Then(Then(o, EnsureStage(install, faults.ensureDir, now)),
                     EmptyStage(install, faults.emptyDir)),
                FetchStage(install, source, faults.fetch, now));
      assert currentBotProcess == None && (thrown.None? <==> Fetched(faults)) && thrown == o.thrown;
      ghost var cmd := FinalCommand(raw, shouldInstall, BotDir(install));
      assert cmd == if shouldInstall then InstallPrefix(BotDir(install)) + startCmd else startCmd;
      if thrown.None? {
        thrown := StartAndTidy(startCmd, shouldInstall, faults, pid, now, h0, e0, p0, o);
      }
      assert currentBotProcess == if Spawned(faults) then Some(BotProcess(pid, cmd, false)) else None;
      o := Then(Then(o, StartStage(install, cmd, shouldInstall, faults.spawn, now)),
                CleanupStage(install, faults.cleanup));
      assert Tracks(logHistory, emitted, performed, h0, e0, p0, o) && thrown == o.thrown;
      if thrown.Some? {
        Catch(thrown.value, now);
        LogMore(h0, e0, o.logs, [FailureEntry(thrown.value, now)]);
      }
      ghost var run := RunStages(DeployStages(install, old(currentBotProcess), raw, shouldInstall, source, faults, now), now);
      assert run == Caught(o, now);
      assert Logged(h0, e0, run.logs) && performed == p0 + run.effects;
    }

    // -------------------------------------------------------------------------
    // The deploy routes

    /** `POST /deploy/zip`: without an uploaded archive the route answers 400
        and changes nothing; with one it awaits `deployFlow` on the archive
        multer stored, then acknowledges. */
    method DeployZip(file: Option<UploadedFile>, startCommand: Field, installDeps: Field,
                     faults: Faults, pid: int, now: string) returns (reply: Reply)
      requires Valid()
      modifies this
      ensures Valid()
      ensures file.None? ==> reply == Failure(400, ZipMissing) && unchanged(this)
      ensures file.Some? ==>
        && reply == Started(ZipStarted)
        && Deployed(old(logHistory), old(emitted), old(performed), old(currentBotProcess),
                    FieldText(startCommand), installDeps == Given("true"), Zip(TempPath(install, file.value)),
                    faults, pid, now)
    {
      if file.None? {
        return Failure(400, ZipMissing);
      }
      DeployFlow(FieldText(startCommand), installDeps == Given("true"), Zip(TempPath(install, file.value)), faults, pid, now);
      reply := Started(ZipStarted);
    }

    /** `POST /deploy/git`: an empty or missing `repoUrl` is answered with 400
        and changes nothing; otherwise the route awaits `deployFlow` on a clone
        of that repository, then acknowledges. */
    method DeployGit(repoUrl: Field, startCommand: Field, installDeps: Field,
                     faults: Faults, pid: int, now: string) returns (reply: Reply)
      requires Valid()
      modifies this
      ensures Valid()
      ensures !Truthy(repoUrl) ==> reply == Failure(400, GitMissing) && unchanged(this)
      ensures Truthy(repoUrl) ==>
        && reply == Started(GitStarted)
        && Deployed(old(logHistory), old(emitted), old(performed), old(currentBotProcess),
                    FieldText(startCommand), installDeps == Given("true"), Git(FieldText(repoUrl)), faults, pid, now)
    {
      if !Truthy(repoUrl) {
        return Failure(400, GitMissing);
      }
      DeployFlow(FieldText(startCommand), installDeps == Given("true"), Git(FieldText(repoUrl)), faults, pid, now);
      reply := Started(GitStarted);
    }

    // -------------------------------------------------------------------------
    // The file-manager routes

    /** A route's `catch`: log the reported message (after `logPrefix`) and
        answer 500 with it. */
    method Fail(routePrefix: string, logPrefix: string, message: string, now: string) returns (reply: Reply)
      requires Valid()
      modifies this
      ensures Valid() && reply == Failure(500, RouteMessage(routePrefix, message))
      ensures Logged(old(logHistory), old(emitted), [LogEntry(Error, logPrefix + reply.error, now)])
      ensures currentBotProcess == old(currentBotProcess) && performed == old(performed)
    {
      var reported := RouteMessage(routePrefix, message);
      AddLog(Error, logPrefix + reported, now);
      reply := Failure(500, reported);
    }

    /** The `catch` of the delete and upload routes: log the reported message
        as it is and answer 500 with it. */
    method Report(routePrefix: string, message: string, now: string) returns (reply: Reply)
      requires Valid()
      modifies this
      ensures Valid() && reply == Failure(500, RouteMessage(routePrefix, message))
      ensures Logged(old(logHistory), old(emitted), [LogEntry(Error, reply.error, now)])
      ensures currentBotProcess == old(currentBotProcess) && performed == old(performed)
    {
      reply := Fail(routePrefix, "", message, now);
      assert "" + reply.error == reply.error;
    }

    /** `GET /files/list`. A path the sandbox refuses is reported with its own
        message; otherwise `BOT_DIR` is ensured, a missing path is answered
        404, a path that is not a directory 400, and a directory with its
        entries whose `stat` succeeds, directories first. Only the 500
        answers are logged. */
    method ListFiles(query: Option<ClientPath>, ensureFault: Option<string>, view: DirView, now: string)
      returns (reply: Reply)
      requires Valid()
      modifies this
      ensures Valid() && currentBotProcess == old(currentBotProcess)
      ensures reply.Failure? && reply.status == 500 ==>
        Logged(old(logHistory), old(emitted), [LogEntry(Error, ListPrefix + reply.error, now)])
      ensures !(reply.Failure? && reply.status == 500) ==>
        logHistory == old(logHistory) && emitted == old(emitted)
      ensures var safe := GetSafeAbsolutePath(install, ListPath(query));
        && (safe.Err? ==> reply == Failure(500, TraversalMessage) && performed == old(performed))
        && (safe.Ok? ==> performed == old(performed) + [EnsureDir(BotDir(install))])
        && (safe.Ok? && ensureFault.Some? ==> reply == Failure(500, RouteMessage(InternalPrefix, ensureFault.value)))
        && (safe.Ok? && ensureFault.None? ==> reply == match view
              case Missing => Failure(404, NotFound)
              case NotDirectory => Failure(400, NotADirectory)
              case Unreadable(m) => Failure(500, RouteMessage(InternalPrefix, m))
              case Directory(names, stats) => Listing(DirsFirst(Collected(names, stats))))
    {
      var targetDir := GetSafeAbsolutePath(install, ListPath(query));
      if targetDir.Err? {
        TraversalReported(InternalPrefix);
        reply := Fail(InternalPrefix, ListPrefix, targetDir.error, now);
        return;
      }
      reply := ListAccepted(ensureFault, view, now);
    }

    /** The listing route once the sandbox accepted the path: `ensureDir(BOT_DIR)`,
        then the target is shown, or the failure of `ensureDir` reported. */
    method ListAccepted(ensureFault: Option<string>, view: DirView, now: string) returns (reply: Reply)
      requires Valid()
      modifies this
      ensures Valid() && currentBotProcess == old(currentBotProcess)
      ensures performed == old(performed) + [EnsureDir(BotDir(install))]
      ensures ensureFault.Some? ==> reply == Failure(500, RouteMessage(InternalPrefix, ensureFault.value))
      ensures ensureFault.None? ==> reply == match view
        case Missing => Failure(404, NotFound)
        case NotDirectory => Failure(400, NotADirectory)
        case Unreadable(m) => Failure(500, RouteMessage(InternalPrefix, m))
        case Directory(names, stats) => Listing(DirsFirst(Collected(names, stats)))
      ensures reply.Failure? && reply.status == 500 ==>
        Logged(old(logHistory), old(emitted), [LogEntry(Error, ListPrefix + reply.error, now)])
      ensures !(reply.Failure? && reply.status == 500) ==>
        logHistory == old(logHistory) && emitted == old(emitted)
    {
      performed := performed + [EnsureDir(BotDir(install))];
      if ensureFault.Some? {
        reply := Fail(InternalPrefix, ListPrefix, ensureFault.value, now);
        return;
      }
      reply := ShowDirectory(view, now);
    }

    /** The listing route once `BOT_DIR` exists: check the target, read it,
        collect its entries and sort them directories first. */
    method ShowDirectory(view: DirView, now: string) returns (reply: Reply)
      requires Valid()
      modifies this
      ensures Valid() && currentBotProcess == old(currentBotProcess) && performed == old(performed)
      ensures reply == match view
        case Missing => Failure(404, NotFound)
        case NotDirectory => Failure(400, NotADirectory)
        case Unreadable(m) => Failure(500, RouteMessage(InternalPrefix, m))
        case Directory(names, stats) => Listing(DirsFirst(Collected(names, stats)))
      ensures view.Unreadable? ==>
        Logged(old(logHistory), old(emitted), [LogEntry(Error, ListPrefix + reply.error, now)])
      ensures !view.Unreadable? ==> logHistory == old(logHistory) && emitted == old(emitted)
    {
      match view
      case Missing =>
        reply := Failure(404, NotFound);
      case NotDirectory =>
        reply := Failure(400, NotADirectory);
      case Unreadable(m) =>
        reply := Fail(InternalPrefix, ListPrefix, m, now);
      case Directory(names, stats) =>
        var fileData := CollectEntries(names, stats);
        reply := Listing(DirsFirst(fileData));
    }

    /** `DELETE /files/delete`: both `name` and `currentPath` must be truthy;
        a value that is not a string makes `path.join` throw the TypeError
        `joinError`; the joined path must pass the sandbox and must not be
        the bot directory itself. Whatever is removed lies under `BOT_DIR`
        and is never `BOT_DIR`. */
    method DeleteFile(name: Field, currentPath: Field, joinError: string, removeFault: Option<string>, now: string)
      returns (reply: Reply)
      requires Valid()
      modifies this
      ensures Valid() && currentBotProcess == old(currentBotProcess)
      ensures !Truthy(name) || !Truthy(currentPath) ==> reply == Failure(400, BadDelete) && unchanged(this)
      ensures Truthy(name) && Truthy(currentPath) && !(name.Given? && currentPath.Given?) ==>
        && performed == old(performed)
        && reply == Failure(500, RouteMessage(DeletePrefix, joinError))
        && Logged(old(logHistory), old(emitted), [LogEntry(Error, reply.error, now)])
      ensures name.Given? && currentPath.Given? && Truthy(name) && Truthy(currentPath) ==>
        Deleted(old(logHistory), old(emitted), old(performed), currentPath.s, name.s, removeFault, now, reply)
      ensures performed == old(performed) ||
        exists p :: performed == old(performed) + [Remove(p)] && p != BotDir(install) && StartsWith(p, BotDir(install))
    {
      if !Truthy(name) || !Truthy(currentPath) {
        return Failure(400, BadDelete);
      }
      if !name.Given? || !currentPath.Given? {
        reply := Report(DeletePrefix, joinError, now);
        return;
      }
      reply := DeleteJoined(currentPath.s, name.s, removeFault, now);
    }

    /** What the delete route leaves, from `h0`, `e0`, `p0`, once both fields
        are non-empty strings: a refused target performs nothing and is
        reported; an accepted one is removed, and the removal logged or its
        failure reported. */
    ghost predicate Deleted(h0: seq<LogEntry>, e0: seq<LogEntry>, p0: seq<Effect>,
                            currentPath: string, name: string, removeFault: Option<string>, now: string, reply: Reply)
      requires AllNames(install)
      reads this
    {
      var target := DeleteTarget(install, currentPath, name);
      && (target.Err? ==>
            && performed == p0
            && reply == Failure(500, RouteMessage(DeletePrefix, target.error)))
      && (target.Ok? ==>
            && performed == p0 + [Remove(target.value)]
            && reply == if removeFault.Some? then Failure(500, RouteMessage(DeletePrefix, removeFault.value)) else Done)
      && Logged(h0, e0,
           [if reply.Done? then LogEntry(Warn, "Deletado: " + Join(currentPath, name), now)
            else LogEntry(Error, reply.error, now)])
    }

    /** The `try` block of the delete route, once both fields are strings. */
    method DeleteJoined(currentPath: string, name: string, removeFault: Option<string>, now: string)
      returns (reply: Reply)
      requires Valid()
      modifies this
      ensures Valid() && currentBotProcess == old(currentBotProcess)
      ensures Deleted(old(logHistory), old(emitted), old(performed), currentPath, name, removeFault, now, reply)
      ensures performed == old(performed) ||
        exists p :: performed == old(performed) + [Remove(p)] && p != BotDir(install) && StartsWith(p, BotDir(install))
    {
      var target := DeleteTarget(install, currentPath, name);
      if target.Err? {
        reply := Report(DeletePrefix, target.error, now);
        return;
      }
      ghost var p0 := performed;
      reply := RemoveTarget(target.value, Join(currentPath, name), removeFault, now);
      assert performed == p0 + [Remove(target.value)];
    }

    /** `fs.remove(target)`, then the warning naming `shown`, or the failure
        when the removal throws. */
    method RemoveTarget(target: string, shown: string, removeFault: Option<string>, now: string) returns (reply: Reply)
      requires Valid()
      modifies this
      ensures Valid() && currentBotProcess == old(currentBotProcess)
      ensures performed == old(performed) + [Remove(target)]
      ensures reply == if removeFault.Some? then Failure(500, RouteMessage(DeletePrefix, removeFault.value)) else Done
      ensures Logged(old(logHistory), old(emitted),
        [if reply.Done? then LogEntry(Warn, "Deletado: " + shown, now) else LogEntry(Error, reply.error, now)])
    {
      performed := performed + [Remove(target)];
      if removeFault.Some? {
        reply := Report(DeletePrefix, removeFault.value, now);
        return;
      }
      AddLog(Warn, "Deletado: " + shown, now);
      reply := Done;
    }

    /** `POST /files/upload`: without a file or a truthy `currentPath` the
        stored upload is removed and the route answers 400. Otherwise the
        upload is moved into the directory the sandbox resolves `currentPath`
        to (a value that is not a string resolves as the empty path); when
        the sandbox refuses or the move throws, the stored upload is removed
        and the failure reported. */
    method UploadFile(file: Option<UploadedFile>, currentPath: Field, moveFault: Option<string>, now: string)
      returns (reply: Reply)
      requires Valid()
      modifies this
      ensures Valid() && currentBotProcess == old(currentBotProcess)
      ensures file.None? || !Truthy(currentPath) ==>
        && reply == Failure(400, BadUpload)
        && logHistory == old(logHistory) && emitted == old(emitted)
        && performed == old(performed) + (if file.Some? then [Remove(TempPath(install, file.value))] else [])
      ensures file.Some? && Truthy(currentPath) ==>
        Placed(old(logHistory), old(emitted), old(performed), file.value,
               AsClientPath(currentPath), FieldText(currentPath), moveFault, now, reply)
    {
      if file.None? || !Truthy(currentPath) {
        if file.Some? {
          performed := performed + [Remove(TempPath(install, file.value))];
        }
        return Failure(400, BadUpload);
      }
      reply := PlaceUpload(file.value, AsClientPath(currentPath), FieldText(currentPath), moveFault, now);
    }

    /** What the upload route leaves, from `h0`, `e0`, `p0`, once a file and a
        path were given: a path the sandbox refuses removes the stored upload
        and is reported with its own message; otherwise the upload is moved
        into the accepted directory, and removed again when the move throws. */
    ghost predicate Placed(h0: seq<LogEntry>, e0: seq<LogEntry>, p0: seq<Effect>, file: UploadedFile,
                           clientPath: ClientPath, shown: string, moveFault: Option<string>, now: string, reply: Reply)
      requires AllNames(install)
      reads this
    {
      var temp := TempPath(install, file);
      var targetDir := GetSafeAbsolutePath(install, clientPath);
      && (targetDir.Err? ==>
            && performed == p0 + [Remove(temp)]
            && reply == Failure(500, TraversalMessage))
      && (targetDir.Ok? ==>
            && StartsWith(targetDir.value, BotDir(install))
            && performed == p0 + [Move(temp, Join(targetDir.value, file.originalName))]
                 + (if moveFault.Some? then [Remove(temp)] else [])
            && reply == if moveFault.Some? then Failure(500, RouteMessage(UploadPrefix, moveFault.value)) else Done)
      && Logged(h0, e0,
           [if reply.Done? then LogEntry(Info, "Upload para: " + shown + file.originalName, now)
            else LogEntry(Error, reply.error, now)])
    }

    /** The `try` block of the upload route. */
    method PlaceUpload(file: UploadedFile, clientPath: ClientPath, shown: string, moveFault: Option<string>, now: string)
      returns (reply: Reply)
      requires Valid()
      modifies this
      ensures Valid() && currentBotProcess == old(currentBotProcess)
      ensures Placed(old(logHistory), old(emitted), old(performed), file, clientPath, shown, moveFault, now, reply)
    {
      var temp := TempPath(install, file);
      var targetDir := GetSafeAbsolutePath(install, clientPath);
      if targetDir.Err? {
        TraversalReported(UploadPrefix);
        reply := RefuseUpload(temp, targetDir.error, now);
        return;
      }
      var named := shown + file.originalName;
      assert "Upload para: " + named == "Upload para: " + shown + file.originalName;
      reply := MoveUpload(temp, Join(targetDir.value, file.originalName), named, moveFault, now);
    }

    /** A refused target directory: the stored upload is removed and the
        refusal reported. */
    method RefuseUpload(temp: string, message: string, now: string) returns (reply: Reply)
      requires Valid()
      modifies this
      ensures Valid() && currentBotProcess == old(currentBotProcess)
      ensures performed == old(performed) + [Remove(temp)]
      ensures reply == Failure(500, RouteMessage(UploadPrefix, message))
      ensures Logged(old(logHistory), old(emitted), [LogEntry(Error, reply.error, now)])
    {
      performed := performed + [Remove(temp)];
      reply := Report(UploadPrefix, message, now);
    }

    /** `fs.move(temp, dest, { overwrite: true })`, then the note naming
        `shown`; when the move throws, the stored upload is removed and the
        failure reported. */
    method MoveUpload(temp: string, dest: string, shown: string, moveFault: Option<string>, now: string)
      returns (reply: Reply)
      requires Valid()
      modifies this
      ensures Valid() && currentBotProcess == old(currentBotProcess)
      ensures performed == old(performed) + [Move(temp, dest)] + (if moveFault.Some? then [Remove(temp)] else [])
      ensures reply == if moveFault.Some? then Failure(500, RouteMessage(UploadPrefix, moveFault.value)) else Done
      ensures Logged(old(logHistory), old(emitted),
        [if reply.Done? then LogEntry(Info, "Upload para: " + shown, now) else LogEntry(Error, reply.error, now)])
    {
      performed := performed + [Move(temp, dest)];
      if moveFault.Some? {
        performed := performed + [Remove(temp)];
        reply := Report(UploadPrefix, moveFault.value, now);
        return;
      }
      AddLog(Info, "Upload para: " + shown, now);
      assert performed == old(performed) + [Move(temp, dest)] + [];
      reply := Done;
    }
  }
}
