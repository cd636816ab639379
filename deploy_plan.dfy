/**
 * `deployFlow`: how the start command is built, and the fixed order of its
 * steps — stop the old process, ensure and empty the bot directory, fetch the
 * code, start the new process, empty the upload directory — where the first
 * step that throws is followed by one "FALHA NO DEPLOY" entry and nothing else.
 * The filesystem, the archive extractor and the git clone are actions that
 * either happen or throw a message.
 */
module DeployPlan {
  import opened Results
  import opened JsStrings
  import opened LogBuffer
  import opened Sandbox

  /** An action on the world outside the panel's memory. */
  datatype Effect =
    | KillGroup(pid: int)          // process.kill(-pid), falling back to child.kill()
    | EnsureDir(path: string)
    | EmptyDir(path: string)
    | ExtractZip(archive: string, dest: string)
    | CloneRepo(url: string, dest: string)
    | Spawn(command: string, cwd: string)
    | WriteStdin(pid: int, data: string)
    | Remove(path: string)
    | Move(source: string, dest: string)

  /** The child held in `currentBotProcess`: its pid, the command it runs and
      the `killed` flag of its handle. */
  datatype BotProcess = BotProcess(pid: int, command: string, killed: bool)

  /** The deploy's `fileHandler`: extract an uploaded archive, or clone a repository. */
  datatype Source = Zip(archive: string) | Git(url: string)

  /** Which awaited steps of one deploy throw, and with which message. */
  datatype Faults = Faults(
    ensureDir: Option<string>,
    emptyDir: Option<string>,
    fetch: Option<string>,
    spawn: Option<string>,
    cleanup: Option<string>)

  /** A step of a sequential pipeline: what it logs first, the action it
      performs, and the message of the exception that action throws, if any. */
  datatype Stage = Stage(notes: seq<LogEntry>, action: Effect, fault: Option<string>)

  /** What running a pipeline produced: entries logged, actions performed, and
      whether it stopped at a failure. */
  datatype Run = Run(logs: seq<LogEntry>, effects: seq<Effect>, failed: bool)

  const DefaultStartCommand := "node index.js"
  const FailurePrefix := "FALHA NO DEPLOY: "
  const KillNote := "Encerrando processo anterior..."
  const CleaningNote := "Limpando diretório do bot..."
  const InstallNote := "Executando npm install (aguarde)..."
  const ExtractNote := "Extraindo ZIP..."
  const StartPrefix := "Iniciando Processo: "

  // ---------------------------------------------------------------------------
  // The command

  /** `startCmd.trim()`, replaced by `node index.js` when nothing is left. */
  function StartCommand(raw: string): (cmd: string)
    ensures cmd == if AllSpace(raw) then DefaultStartCommand else Trim(raw)
  {
    var trimmed := Trim(raw);
    if trimmed == "" then DefaultStartCommand else trimmed
  }

  function InstallPrefix(botDir: string): string {
    "npm install --prefix " + botDir + " && "
  }

  /** The command handed to `startBot`: never shorter than the start command,
      and longer than it exactly when installation was asked for. */
  function FinalCommand(raw: string, shouldInstall: bool, botDir: string): (c: string)
    ensures |c| >= |StartCommand(raw)|
    ensures shouldInstall <==> |c| > |StartCommand(raw)|
  {
    var cmd := StartCommand(raw);
    if shouldInstall then InstallPrefix(botDir) + cmd else cmd
  }

  /** The start command is never empty and has no white space at either end. */
  lemma StartCommandShape(raw: string)
    ensures var cmd := StartCommand(raw);
      cmd != "" && !IsJsSpace(cmd[0]) && !IsJsSpace(cmd[|cmd| - 1])
  {
    if AllSpace(raw) {
      assert StartCommand(raw) == "node index.js";
    }
  }

  /** With installation requested the command is the install prefix followed
      by the start command, which can be read back off it; without, it is the
      start command itself. Either way it is non-empty and already trimmed. */
  lemma FinalCommandShape(raw: string, shouldInstall: bool, botDir: string)
    ensures var c := FinalCommand(raw, shouldInstall, botDir);
      && (shouldInstall ==> StartsWith(c, InstallPrefix(botDir)) && c[|InstallPrefix(botDir)|..] == StartCommand(raw))
      && (!shouldInstall ==> c == StartCommand(raw))
      && c != "" && Trim(c) == c
  {
    var cmd := StartCommand(raw);
    StartCommandShape(raw);
    if shouldInstall {
      var prefix := InstallPrefix(botDir);
      assert prefix[0] == 'n';
      PrefixedTrimmed(prefix, cmd);
    } else {
      TrimFixed(cmd);
    }
  }

  /** A non-space character in front of a trimmed string keeps it trimmed, and
      the string can be read back off the concatenation. */
  lemma PrefixedTrimmed(prefix: string, cmd: string)
    requires prefix != [] && !IsJsSpace(prefix[0])
    requires cmd != [] && !IsJsSpace(cmd[|cmd| - 1])
    ensures var c := prefix + cmd;
      StartsWith(c, prefix) && c[|prefix|..] == cmd && Trim(c) == c
  {
    var c := prefix + cmd;
    assert c[..|prefix|] == prefix;
    assert c[|prefix|..] == cmd;
    assert c[0] == prefix[0];
    assert c[|c| - 1] == cmd[|cmd| - 1];
    TrimFixed(c);
  }

  // ---------------------------------------------------------------------------
  // A pipeline of fallible stages

  function FailureEntry(message: string, time: string): LogEntry {
    LogEntry(Error, FailurePrefix + message, time)
  }

  predicate IsFailureEntry(e: LogEntry) {
    e.kind == Error && StartsWith(e.text, FailurePrefix)
  }

  function CountFailures(logs: seq<LogEntry>): nat
    decreases |logs|
  {
    if logs == [] then 0 else (if IsFailureEntry(logs[0]) then 1 else 0) + CountFailures(logs[1..])
  }

  /** Runs the stages in order; the first that throws logs the failure and ends the run. */
  function RunStages(stages: seq<Stage>, time: string): (run: Run)
    ensures |run.effects| <= |stages|
    ensures stages != [] ==> |run.effects| >= 1
    ensures !run.failed ==> |run.effects| == |stages|
    decreases |stages|
  {
    if stages == [] then Run([], [], false)
    else
      var s := stages[0];
      if s.fault.Some? then
        Run(s.notes + [FailureEntry(s.fault.value, time)], [s.action], true)
      else
        var rest := RunStages(stages[1..], time);
        Run(s.notes + rest.logs, [s.action] + rest.effects, rest.failed)
  }

  function Actions(stages: seq<Stage>): seq<Effect> {
    seq(|stages|, i requires 0 <= i < |stages| => stages[i].action)
  }

  function AllNotes(stages: seq<Stage>): seq<LogEntry>
    decreases |stages|
  {
    if stages == [] then [] else stages[0].notes + AllNotes(stages[1..])
  }

  /** The index of the first stage that throws, or the number of stages. */
  function FirstFault(stages: seq<Stage>): (k: nat)
    ensures k <= |stages|
    ensures forall i :: 0 <= i < k ==> stages[i].fault.None?
    ensures k < |stages| ==> stages[k].fault.Some?
    decreases |stages|
  {
    if stages == [] then 0
    else if stages[0].fault.Some? then 0
    else 1 + FirstFault(stages[1..])
  }

  lemma {:induction false} AllNotesAppend(a: seq<Stage>, b: seq<Stage>)
    ensures AllNotes(a + b) == AllNotes(a) + AllNotes(b)
    decreases |a|
  {
    if a == [] {
      assert a + b == b;
    } else {
      assert (a + b)[1..] == a[1..] + b;
      AllNotesAppend(a[1..], b);
    }
  }

  lemma {:induction false} CountFailuresAppend(a: seq<LogEntry>, b: seq<LogEntry>)
    ensures CountFailures(a + b) == CountFailures(a) + CountFailures(b)
    decreases |a|
  {
    if a == [] {
      assert a + b == b;
    } else {
      assert (a + b)[1..] == a[1..] + b;
      CountFailuresAppend(a[1..], b);
    }
  }

  /** How far a run gets: up to and including the first stage that throws. */
  function Reached(stages: seq<Stage>): (done: nat)
    ensures done <= |stages|
  {
    var k := FirstFault(stages);
    if k < |stages| then k + 1 else |stages|
  }

  /** A run fails exactly when some stage throws, and performs the actions of
      the stages it reaches, in order. */
  lemma {:induction false} RunStagesEffects(stages: seq<Stage>, time: string)
    ensures RunStages(stages, time).failed == (FirstFault(stages) < |stages|)
    ensures RunStages(stages, time).effects == Actions(stages)[..Reached(stages)]
    decreases |stages|
  {
    if stages != [] && stages[0].fault.None? {
      RunStagesEffects(stages[1..], time);
      var done := Reached(stages);
      assert done - 1 == Reached(stages[1..]);
      assert Actions(stages)[..done] == [stages[0].action] + Actions(stages[1..])[..done - 1];
    }
  }

  /** A run logs the notes of the stages it reaches, then one failure entry
      with the thrown message when a stage threw. */
  lemma {:induction false} RunStagesLogs(stages: seq<Stage>, time: string)
    ensures var k := FirstFault(stages);
      RunStages(stages, time).logs == AllNotes(stages[..Reached(stages)])
        + (if k < |stages| then [FailureEntry(stages[k].fault.value, time)] else [])
    decreases |stages|
  {
    if stages != [] && stages[0].fault.None? {
      RunStagesLogs(stages[1..], time);
      var done := Reached(stages);
      assert done - 1 == Reached(stages[1..]);
      assert stages[..done][1..] == stages[1..][..done - 1];
    } else if stages != [] {
      assert stages[..1] == [stages[0]];
    }
  }

  /** The run performs exactly the stages up to and including the first that
      throws (all of them when none does), in order; it logs their notes, and
      one failure entry carrying the thrown message when a stage threw. */
  lemma {:induction false} RunStagesSpec(stages: seq<Stage>, time: string)
    ensures var run := RunStages(stages, time);
      var k := FirstFault(stages);
      var done := if k < |stages| then k + 1 else |stages|;
      && run.failed == (k < |stages|)
      && run.effects == Actions(stages)[..done]
      && run.logs == AllNotes(stages[..done])
           + (if k < |stages| then [FailureEntry(stages[k].fault.value, time)] else [])
  {
    RunStagesEffects(stages, time);
    RunStagesLogs(stages, time);
  }

  /** When no note is itself a failure entry, a run logs exactly one failure
      entry if it failed and none otherwise; the failure entry comes last. */
  lemma ExactlyOneFailureEntry(stages: seq<Stage>, time: string)
    requires CountFailures(AllNotes(stages)) == 0
    ensures var run := RunStages(stages, time);
      && CountFailures(run.logs) == (if run.failed then 1 else 0)
      && (run.failed ==> run.logs != [] && IsFailureEntry(run.logs[|run.logs| - 1]))
  {
    RunStagesSpec(stages, time);
    var k := FirstFault(stages);
    var done := if k < |stages| then k + 1 else |stages|;
    AllNotesAppend(stages[..done], stages[done..]);
    assert stages[..done] + stages[done..] == stages;
    CountFailuresAppend(AllNotes(stages[..done]), AllNotes(stages[done..]));
    if k < |stages| {
      var e := FailureEntry(stages[k].fault.value, time);
      CountFailuresAppend(AllNotes(stages[..done]), [e]);
      assert e.text[..|FailurePrefix|] == FailurePrefix;
      assert CountFailures([e]) == 1;
    }
  }

  /** A run with `logs` and `effects` recorded before it. */
  function After(logs: seq<LogEntry>, effects: seq<Effect>, run: Run): Run {
    Run(logs + run.logs, effects + run.effects, run.failed)
  }

  /** Where a `try` block stands before its `catch`: what it logged and
      performed so far, and what it threw, if anything. */
  datatype Outcome = Outcome(logs: seq<LogEntry>, effects: seq<Effect>, thrown: Option<string>)

  const Untried := Outcome([], [], None)

  /** Awaiting one more stage: skipped once something was thrown. */
  function Then(o: Outcome, s: Stage): (r: Outcome)
    ensures o.thrown.Some? ==> r == o
    ensures o.thrown.None? ==> r.thrown == s.fault && |r.effects| == |o.effects| + 1
  {
    if o.thrown.Some? then o else Outcome(o.logs + s.notes, o.effects + [s.action], s.fault)
  }

  /** Awaiting the stages in order. */
  function Attempt(o: Outcome, stages: seq<Stage>): (r: Outcome)
    ensures o.thrown.Some? ==> r == o
    ensures |o.effects| <= |r.effects| <= |o.effects| + |stages|
    decreases |stages|
  {
    if stages == [] then o else Attempt(Then(o, stages[0]), stages[1..])
  }

  /** The `catch`: a thrown message is logged as the deploy failure. */
  function Caught(o: Outcome, time: string): (run: Run)
    ensures run.effects == o.effects && (run.failed <==> o.thrown.Some?)
  {
    if o.thrown.Some? then Run(o.logs + [FailureEntry(o.thrown.value, time)], o.effects, true)
    else Run(o.logs, o.effects, false)
  }

  /** Awaiting the stages inside `try` and catching is running the pipeline. */
  lemma {:induction false} AttemptRuns(o: Outcome, stages: seq<Stage>, time: string)
    ensures o.thrown.Some? ==> Attempt(o, stages) == o
    ensures o.thrown.None? ==> Caught(Attempt(o, stages), time) == After(o.logs, o.effects, RunStages(stages, time))
    decreases |stages|
  {
    if stages != [] {
      var s := stages[0];
      AttemptRuns(Then(o, s), stages[1..], time);
      if o.thrown.None? {
        var rest := RunStages(stages[1..], time);
        if s.fault.None? {
          assert o.logs + s.notes + rest.logs == o.logs + (s.notes + rest.logs);
          assert o.effects + [s.action] + rest.effects == o.effects + ([s.action] + rest.effects);
        } else {
          assert o.logs + s.notes + [FailureEntry(s.fault.value, time)]
              == o.logs + (s.notes + [FailureEntry(s.fault.value, time)]);
        }
      }
    } else if o.thrown.None? {
      assert o.logs + [] == o.logs && o.effects + [] == o.effects;
    }
  }

  /** A run stops at its first failing stage: it fails exactly when some stage
      throws, and what it performs is a non-empty prefix of the stages' actions. */
  lemma RunStagesPrefix(stages: seq<Stage>, time: string)
    ensures var run := RunStages(stages, time);
      && (run.failed <==> exists i :: 0 <= i < |stages| && stages[i].fault.Some?)
      && |run.effects| <= |stages| && run.effects == Actions(stages)[..|run.effects|]
      && (stages != [] ==> run.effects != [])
      && (!run.failed ==> run.effects == Actions(stages))
  {
    RunStagesSpec(stages, time);
    var k := FirstFault(stages);
    var done := if k < |stages| then k + 1 else |stages|;
  }

  /** A pipeline whose notes hold no error entry. */
  predicate QuietNotes(stages: seq<Stage>) {
    forall i, j :: 0 <= i < |stages| && 0 <= j < |stages[i].notes| ==> stages[i].notes[j].kind != Error
  }

  lemma {:induction false} QuietNotesCount(stages: seq<Stage>)
    requires QuietNotes(stages)
    ensures CountFailures(AllNotes(stages)) == 0
    decreases |stages|
  {
    if stages != [] {
      assert QuietNotes(stages[1..]) by {
        forall i, j | 0 <= i < |stages[1..]| && 0 <= j < |stages[1..][i].notes|
          ensures stages[1..][i].notes[j].kind != Error
        {
          assert stages[1..][i] == stages[i + 1];
        }
      }
      QuietNotesCount(stages[1..]);
      NoErrorNoFailures(stages[0].notes);
      CountFailuresAppend(stages[0].notes, AllNotes(stages[1..]));
    }
  }

  lemma {:induction false} NoErrorNoFailures(logs: seq<LogEntry>)
    requires forall j :: 0 <= j < |logs| ==> logs[j].kind != Error
    ensures CountFailures(logs) == 0
    decreases |logs|
  {
    if logs != [] {
      assert forall j :: 0 <= j < |logs[1..]| ==> logs[1..][j].kind == logs[j + 1].kind;
      NoErrorNoFailures(logs[1..]);
    }
  }

  // ---------------------------------------------------------------------------
  // The deploy pipeline

  function KillStages(slot: Option<BotProcess>, time: string): seq<Stage> {
    if slot.Some? then [Stage([LogEntry(Warn, KillNote, time)], KillGroup(slot.value.pid), None)] else []
  }

  function FetchNote(source: Source, time: string): LogEntry {
    match source
    case Zip(_) => LogEntry(Info, ExtractNote, time)
    case Git(url) => LogEntry(Info, "Clonando " + url + "...", time)
  }

  function FetchAction(source: Source, dest: string): Effect {
    match source
    case Zip(archive) => ExtractZip(archive, dest)
    case Git(url) => CloneRepo(url, dest)
  }

  function InstallNotes(shouldInstall: bool, time: string): seq<LogEntry> {
    if shouldInstall then [LogEntry(Info, InstallNote, time)] else []
  }

  /** The cleaning note, then `fs.ensureDir(BOT_DIR)`. */
  function EnsureStage(install: seq<string>, fault: Option<string>, time: string): Stage {
    Stage([LogEntry(Warn, CleaningNote, time)], EnsureDir(BotDir(install)), fault)
  }

  /** `fs.emptyDir(BOT_DIR)`. */
  function EmptyStage(install: seq<string>, fault: Option<string>): Stage {
    Stage([], EmptyDir(BotDir(install)), fault)
  }

  /** The file handler: its note, then the extraction or the clone into `BOT_DIR`. */
  function FetchStage(install: seq<string>, source: Source, fault: Option<string>, time: string): Stage {
    Stage([FetchNote(source, time)], FetchAction(source, BotDir(install)), fault)
  }

  /** The install note when asked for, then `startBot(cmd)`. */
  function StartStage(install: seq<string>, cmd: string, shouldInstall: bool, fault: Option<string>, time: string): Stage {
    Stage(InstallNotes(shouldInstall, time) + [LogEntry(Success, StartPrefix + cmd, time)], Spawn(cmd, BotDir(install)), fault)
  }

  /** `fs.emptyDir(UPLOAD_DIR)`. */
  function CleanupStage(install: seq<string>, fault: Option<string>): Stage {
    Stage([], EmptyDir(UploadDir(install)), fault)
  }

  /** The five steps after `killBot`. */
  function AfterKill(install: seq<string>, cmd: string, shouldInstall: bool, source: Source,
                     faults: Faults, time: string): seq<Stage>
  {
    [EnsureStage(install, faults.ensureDir, time),
     EmptyStage(install, faults.emptyDir),
     FetchStage(install, source, faults.fetch, time),
     StartStage(install, cmd, shouldInstall, faults.spawn, time),
     CleanupStage(install, faults.cleanup)]
  }

  /** The steps of `deployFlow`, in the order it awaits them: the kill first
      when a process is held, the five steps after it, the upload cleanup last. */
  function DeployStages(install: seq<string>, slot: Option<BotProcess>, raw: string,
                        shouldInstall: bool, source: Source, faults: Faults, time: string): (stages: seq<Stage>)
    ensures |stages| == if slot.Some? then 6 else 5
    ensures stages[0].action == if slot.Some? then KillGroup(slot.value.pid) else EnsureDir(BotDir(install))
    ensures stages[|stages| - 1].action == EmptyDir(UploadDir(install))
  {
    KillStages(slot, time) + AfterKill(install, FinalCommand(raw, shouldInstall, BotDir(install)), shouldInstall, source, faults, time)
  }

  /** Awaiting `a` then `b` is awaiting `a + b`. */
  lemma {:induction false} AttemptAppend(o: Outcome, a: seq<Stage>, b: seq<Stage>)
    ensures Attempt(o, a + b) == Attempt(Attempt(o, a), b)
    decreases |a|
  {
    if a == [] {
      assert a + b == b;
    } else {
      assert (a + b)[0] == a[0] && (a + b)[1..] == a[1..] + b;
      AttemptAppend(Then(o, a[0]), a[1..], b);
    }
  }

  /** The five awaited steps after `killBot`, one after the other. */
  lemma AttemptFive(o: Outcome, s1: Stage, s2: Stage, s3: Stage, s4: Stage, s5: Stage)
    ensures Attempt(o, [s1, s2, s3, s4, s5]) == Then(Then(Then(Then(Then(o, s1), s2), s3), s4), s5)
  {
    var o1 := Then(o, s1);
    var o2 := Then(o1, s2);
    var o3 := Then(o2, s3);
    var o4 := Then(o3, s4);
    assert [s1, s2, s3, s4, s5][1..] == [s2, s3, s4, s5];
    assert [s2, s3, s4, s5][1..] == [s3, s4, s5];
    assert [s3, s4, s5][1..] == [s4, s5];
    assert [s4, s5][1..] == [s5];
    assert Attempt(o4, [s5]) == Attempt(Then(o4, s5), []);
    assert Attempt(o3, [s4, s5]) == Attempt(o4, [s5]);
    assert Attempt(o2, [s3, s4, s5]) == Attempt(o3, [s4, s5]);
    assert Attempt(o1, [s2, s3, s4, s5]) == Attempt(o2, [s3, s4, s5]);
  }

  /** `deployFlow` as its `try` block awaits it: `killBot`, then the five steps,
      then the `catch`. */
  lemma DeployAttempt(install: seq<string>, slot: Option<BotProcess>, raw: string,
                      shouldInstall: bool, source: Source, faults: Faults, time: string)
    ensures var cmd := FinalCommand(raw, shouldInstall, BotDir(install));
      var o := Attempt(Untried, KillStages(slot, time));
      && (o.thrown.None? && (slot.None? ==> o == Untried))
      && RunStages(DeployStages(install, slot, raw, shouldInstall, source, faults, time), time)
         == Caught(Then(Then(Then(Then(Then(o, EnsureStage(install, faults.ensureDir, time)),
                                             EmptyStage(install, faults.emptyDir)),
                                        FetchStage(install, source, faults.fetch, time)),
                                   StartStage(install, cmd, shouldInstall, faults.spawn, time)),
                              CleanupStage(install, faults.cleanup)), time)
  {
    var cmd := FinalCommand(raw, shouldInstall, BotDir(install));
    var kills := KillStages(slot, time);
    var rest := AfterKill(install, cmd, shouldInstall, source, faults, time);
    AttemptRuns(Untried, kills + rest, time);
    var run := RunStages(kills + rest, time);
    assert After([], [], run) == run by {
      assert [] + run.logs == run.logs && [] + run.effects == run.effects;
    }
    AttemptAppend(Untried, kills, rest);
    var o := Attempt(Untried, kills);
    if slot.Some? {
      assert kills[1..] == [];
    }
    AttemptFive(o, rest[0], rest[1], rest[2], rest[3], rest[4]);
  }

  /** Every step before the start went through. */
  predicate Fetched(faults: Faults) {
    faults.ensureDir.None? && faults.emptyDir.None? && faults.fetch.None?
  }

  /** Every step up to and including the start went through. */
  predicate Spawned(faults: Faults) {
    Fetched(faults) && faults.spawn.None?
  }

  /** Where each step sits in the deploy pipeline. */
  lemma DeployStagesShape(install: seq<string>, slot: Option<BotProcess>, raw: string,
                          shouldInstall: bool, source: Source, faults: Faults, time: string)
    ensures var stages := DeployStages(install, slot, raw, shouldInstall, source, faults, time);
      var n := if slot.Some? then 1 else 0;
      var botDir := BotDir(install);
      && |stages| == n + 5
      && (slot.Some? ==> stages[0] == Stage([LogEntry(Warn, KillNote, time)], KillGroup(slot.value.pid), None))
      && stages[n] == Stage([LogEntry(Warn, CleaningNote, time)], EnsureDir(botDir), faults.ensureDir)
      && stages[n + 1] == Stage([], EmptyDir(botDir), faults.emptyDir)
      && stages[n + 2] == Stage([FetchNote(source, time)], FetchAction(source, botDir), faults.fetch)
      && stages[n + 3] == Stage(InstallNotes(shouldInstall, time)
                                  + [LogEntry(Success, StartPrefix + FinalCommand(raw, shouldInstall, botDir), time)],
                                Spawn(FinalCommand(raw, shouldInstall, botDir), botDir), faults.spawn)
      && stages[n + 4] == Stage([], EmptyDir(UploadDir(install)), faults.cleanup)
  {
  }

  /** The actions of a deploy, in order: stop the held process when there is
      one, ensure and empty the bot directory, fetch the code into it, start the
      final command there, empty the upload directory. */
  lemma DeployActions(install: seq<string>, slot: Option<BotProcess>, raw: string,
                      shouldInstall: bool, source: Source, faults: Faults, time: string)
    ensures var botDir := BotDir(install);
      Actions(DeployStages(install, slot, raw, shouldInstall, source, faults, time)) ==
        (if slot.Some? then [KillGroup(slot.value.pid)] else [])
        + [EnsureDir(botDir), EmptyDir(botDir), FetchAction(source, botDir),
           Spawn(FinalCommand(raw, shouldInstall, botDir), botDir), EmptyDir(UploadDir(install))]
  {
    var botDir := BotDir(install);
    var kills := KillStages(slot, time);
    var rest := AfterKill(install, FinalCommand(raw, shouldInstall, botDir), shouldInstall, source, faults, time);
    ActionsAppend(kills, rest);
    assert Actions(kills) == if slot.Some? then [KillGroup(slot.value.pid)] else [];
    AfterKillActions(install, FinalCommand(raw, shouldInstall, botDir), shouldInstall, source, faults, time);
  }

  lemma AfterKillActions(install: seq<string>, cmd: string, shouldInstall: bool, source: Source,
                         faults: Faults, time: string)
    ensures var botDir := BotDir(install);
      Actions(AfterKill(install, cmd, shouldInstall, source, faults, time))
        == [EnsureDir(botDir), EmptyDir(botDir), FetchAction(source, botDir), Spawn(cmd, botDir), EmptyDir(UploadDir(install))]
  {
  }

  lemma ActionsAppend(a: seq<Stage>, b: seq<Stage>)
    ensures Actions(a + b) == Actions(a) + Actions(b)
  {
  }

  /** A stage is attempted exactly when every stage before it went through
      (its action is told apart from the others). */
  lemma {:induction false} AttemptedIff(stages: seq<Stage>, j: nat, time: string)
    requires j < |stages|
    requires forall i :: 0 <= i < |stages| && i != j ==> stages[i].action != stages[j].action
    ensures stages[j].action in RunStages(stages, time).effects <==>
      (forall i :: 0 <= i < j ==> stages[i].fault.None?)
  {
    var run := RunStages(stages, time);
    RunStagesSpec(stages, time);
    var k := FirstFault(stages);
    var done := if k < |stages| then k + 1 else |stages|;
    assert run.effects == Actions(stages)[..done];
    if forall i :: 0 <= i < j ==> stages[i].fault.None? {
      assert k >= j;
      assert run.effects[j] == stages[j].action;
    } else {
      assert k < j;
      forall i | 0 <= i < |run.effects| ensures run.effects[i] != stages[j].action {
        assert run.effects[i] == stages[i].action;
      }
    }
  }

  /** A deploy fails exactly when one of its steps throws. */
  lemma DeployFailsIff(install: seq<string>, slot: Option<BotProcess>, raw: string,
                       shouldInstall: bool, source: Source, faults: Faults, time: string)
    ensures var stages := DeployStages(install, slot, raw, shouldInstall, source, faults, time);
      RunStages(stages, time).failed <==> !Spawned(faults) || faults.cleanup.Some?
  {
    var stages := DeployStages(install, slot, raw, shouldInstall, source, faults, time);
    DeployStagesShape(install, slot, raw, shouldInstall, source, faults, time);
    RunStagesPrefix(stages, time);
    FaultsOfFive(stages, if slot.Some? then 1 else 0, faults);
  }

  /** The faults of a pipeline made of stages that cannot fail followed by the
      five deploy steps. */
  lemma FaultsOfFive(stages: seq<Stage>, n: nat, faults: Faults)
    requires |stages| == n + 5
    requires forall i :: 0 <= i < n ==> stages[i].fault.None?
    requires stages[n].fault == faults.ensureDir && stages[n + 1].fault == faults.emptyDir
    requires stages[n + 2].fault == faults.fetch && stages[n + 3].fault == faults.spawn
    requires stages[n + 4].fault == faults.cleanup
    ensures (exists i :: 0 <= i < |stages| && stages[i].fault.Some?) <==> !Spawned(faults) || faults.cleanup.Some?
    ensures (forall i :: 0 <= i < n + 3 ==> stages[i].fault.None?) <==> Fetched(faults)
  {
    if !Spawned(faults) || faults.cleanup.Some? {
      var i := if faults.ensureDir.Some? then n else if faults.emptyDir.Some? then n + 1
        else if faults.fetch.Some? then n + 2 else if faults.spawn.Some? then n + 3 else n + 4;
      assert stages[i].fault.Some?;
    } else {
      forall i | 0 <= i < |stages| ensures stages[i].fault.None? {
        if i >= n {
          assert i - n in {0, 1, 2, 3, 4};
        }
      }
    }
    if !Fetched(faults) {
      var i := if faults.ensureDir.Some? then n else if faults.emptyDir.Some? then n + 1 else n + 2;
      assert stages[i].fault.Some?;
    }
  }

  /** A deploy's notes hold no error entry. */
  lemma DeployNotesQuiet(install: seq<string>, slot: Option<BotProcess>, raw: string,
                         shouldInstall: bool, source: Source, faults: Faults, time: string)
    ensures CountFailures(AllNotes(DeployStages(install, slot, raw, shouldInstall, source, faults, time))) == 0
  {
    var kills := KillStages(slot, time);
    var rest := AfterKill(install, FinalCommand(raw, shouldInstall, BotDir(install)), shouldInstall, source, faults, time);
    AfterKillQuiet(install, FinalCommand(raw, shouldInstall, BotDir(install)), shouldInstall, source, faults, time);
    QuietAppend(kills, rest);
    QuietNotesCount(kills + rest);
  }

  lemma AfterKillQuiet(install: seq<string>, cmd: string, shouldInstall: bool, source: Source,
                       faults: Faults, time: string)
    ensures QuietNotes(AfterKill(install, cmd, shouldInstall, source, faults, time))
  {
    var rest := AfterKill(install, cmd, shouldInstall, source, faults, time);
    forall i, j | 0 <= i < |rest| && 0 <= j < |rest[i].notes| ensures rest[i].notes[j].kind != Error {
      if i == 3 && shouldInstall && j == 0 {
      } else if i == 3 {
      }
    }
  }

  lemma QuietAppend(a: seq<Stage>, b: seq<Stage>)
    requires QuietNotes(a) && QuietNotes(b)
    ensures QuietNotes(a + b)
  {
    var stages := a + b;
    forall i, j | 0 <= i < |stages| && 0 <= j < |stages[i].notes| ensures stages[i].notes[j].kind != Error {
      if i >= |a| {
        assert stages[i] == b[i - |a|];
      }
    }
  }

  /** The new process is started exactly when every step before it went through. */
  lemma SpawnReached(install: seq<string>, slot: Option<BotProcess>, raw: string,
                     shouldInstall: bool, source: Source, faults: Faults, time: string)
    ensures var stages := DeployStages(install, slot, raw, shouldInstall, source, faults, time);
      var botDir := BotDir(install);
      Spawn(FinalCommand(raw, shouldInstall, botDir), botDir) in RunStages(stages, time).effects <==> Fetched(faults)
  {
    var stages := DeployStages(install, slot, raw, shouldInstall, source, faults, time);
    var botDir := BotDir(install);
    var n := if slot.Some? then 1 else 0;
    DeployStagesShape(install, slot, raw, shouldInstall, source, faults, time);
    FaultsOfFive(stages, n, faults);
    ReachedIff(stages, n + 3);
    RunStagesEffects(stages, time);
    DeployActions(install, slot, raw, shouldInstall, source, faults, time);
    SpawnOnce(if slot.Some? then [KillGroup(slot.value.pid)] else [],
              EnsureDir(botDir), EmptyDir(botDir), FetchAction(source, botDir),
              Spawn(FinalCommand(raw, shouldInstall, botDir), botDir), EmptyDir(UploadDir(install)),
              Reached(stages));
  }

  /** A run reaches stage `j` exactly when every stage before it went through. */
  lemma ReachedIff(stages: seq<Stage>, j: nat)
    requires j < |stages|
    ensures Reached(stages) > j <==> forall i :: 0 <= i < j ==> stages[i].fault.None?
  {
    var k := FirstFault(stages);
    if k < j {
      assert stages[k].fault.Some?;
    }
  }

  /** In a list of actions with a single start, the start lies in a prefix
      exactly when the prefix reaches past its position. */
  lemma SpawnOnce(pre: seq<Effect>, a: Effect, b: Effect, c: Effect, sp: Effect, e: Effect, d: nat)
    requires forall i :: 0 <= i < |pre| ==> !pre[i].Spawn?
    requires !a.Spawn? && !b.Spawn? && !c.Spawn? && sp.Spawn? && !e.Spawn?
    requires d <= |pre| + 5
    ensures sp in (pre + [a, b, c, sp, e])[..d] <==> d > |pre| + 3
  {
    var all := pre + [a, b, c, sp, e];
    if d > |pre| + 3 {
      assert all[..d][|pre| + 3] == sp;
    } else {
      forall i | 0 <= i < d ensures !all[..d][i].Spawn? {
        assert all[..d][i] == all[i];
      }
    }
  }

  /** A deploy performs a prefix of its fixed action order and stops right after
      the first step that throws; the held process, when there is one, is
      stopped first, and the new process is started exactly when every step
      before it went through (a start that throws still counts as attempted). It logs exactly one failure entry, last, when some
      step threw, and none otherwise. */
  lemma DeployOrder(install: seq<string>, slot: Option<BotProcess>, raw: string,
                    shouldInstall: bool, source: Source, faults: Faults, time: string)
    ensures var stages := DeployStages(install, slot, raw, shouldInstall, source, faults, time);
      var run := RunStages(stages, time);
      var botDir := BotDir(install);
      && run.effects != [] && |run.effects| <= |stages| && run.effects == Actions(stages)[..|run.effects|]
      && (run.failed <==> !Spawned(faults) || faults.cleanup.Some?)
      && (Spawn(FinalCommand(raw, shouldInstall, botDir), botDir) in run.effects <==> Fetched(faults))
      && (slot.Some? ==> run.effects[0] == KillGroup(slot.value.pid))
      && CountFailures(run.logs) == (if run.failed then 1 else 0)
      && (run.failed ==> IsFailureEntry(run.logs[|run.logs| - 1]))
  {
    var stages := DeployStages(install, slot, raw, shouldInstall, source, faults, time);
    DeployStagesShape(install, slot, raw, shouldInstall, source, faults, time);
    RunStagesPrefix(stages, time);
    DeployFailsIff(install, slot, raw, shouldInstall, source, faults, time);
    DeployNotesQuiet(install, slot, raw, shouldInstall, source, faults, time);
    ExactlyOneFailureEntry(stages, time);
    SpawnReached(install, slot, raw, shouldInstall, source, faults, time);
  }
}
