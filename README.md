# Hosted bot panel: a Dafny model of `server.js`

The panel is a small Node.js server. It hosts one user bot under `BOT_DIR`
(`<__dirname>/user_bot`) and offers these operations:

- deploy the bot from an uploaded ZIP archive or from a git repository;
- keep a bounded history of log entries and broadcast each new entry to the
  connected browsers;
- forward terminal input to the running bot;
- manage the bot's files through three routes: list, delete and upload. Each
  route confines its client path to `BOT_DIR` with `getSafeAbsolutePath`.

The model splits into modules:

- `JsStrings`: the ECMAScript string operations the server uses
  (`startsWith`, `includes`, `trim`, integer-to-string).
- `PosixPath`: Node's POSIX `path.join`, `path.normalize` and `path.resolve`
  (for absolute paths), on segment lists.
- `Sandbox`: `getSafeAbsolutePath` and what its string-prefix check accepts.
- `LogBuffer`: log entries, the 51-entry window `addLog` keeps, and how a chunk
  of the child's stdout or stderr becomes an entry.
- `DeployPlan`: the start command and the stage order of `deployFlow`, as a
  pipeline of fallible stages.
- `FileListing`: the collect loop of the listing route and its directories-first
  stable sort.
- `Panel`: class `BotPanel`, holding the server's mutable state. That state is
  `logHistory`, the broadcast stream `emitted`, the single process slot
  `currentBotProcess`, and `performed`, the sequence of actions on processes and
  files. The class also holds every handler and route.

The outside world is reduced to parameters:

- Whether a filesystem, archive, git or spawn action throws, and with which
  message, is a parameter: an `Option<string>`, or a `Faults` record for a
  whole deploy.
- The clock's reading is an opaque `now` string.
- The pid the OS assigns is a parameter.
- What the filesystem holds at a listed directory is a `DirView` value.
- `__dirname` is a parameter given as its list of path names.

Actions the server takes on the world are appended to `performed` as `Effect`
values, in the order the code awaits them.

A panel of this kind is commonly expected to refuse a second start, to
acknowledge a deploy at once, and to admit only descendants of the bot
directory. The code does none of these, and the model follows the code:

- `startBot` has no "already running" check. Exclusivity comes only from
  `deployFlow` calling `killBot` first.
- The child's `close` event logs the exit code but does not empty the slot.
- Both deploy routes await `deployFlow` before they answer. They do not
  acknowledge immediately.
- The sandbox is a string-prefix test, not a descendant test. A sibling
  directory such as `<__dirname>/user_bot_x` is accepted (`Sandbox.SiblingAccepted`).
- The history keeps 51 entries: it shifts only when more than 50 are held.
- The delete and upload log entries echo the client's own path text, not the
  resolved path.
- Output chunks are classified per `data` event, not per line.
- A missing `startCommand` field becomes the text "undefined"
  (`Panel.FieldText`), which is then started as the command
  (`Panel.MissingStartCommand`).
- Body fields need not be strings (`Panel.Field.Other`). A JSON `true` for
  `installDeps` does not equal the string "true", so nothing is installed. A
  `startCommand` of `null` is started as "null". A number or other truthy value
  passes the `repoUrl` guard. A truthy `currentPath` of the upload route that is
  not a string reaches `getSafeAbsolutePath` as a non-string, which resolves it
  as the root (`Panel.NonStringUploadAtRoot`). The delete route hands
  `currentPath` and `name` to `path.join`, which throws a `TypeError` for a
  value that is not a string.

## Model

| member | source | states |
|---|---|---|
| JsStrings.Includes | server.js:118 | `includes` is true exactly when the needle occurs at some index of the string |
| JsStrings.Trim | server.js:142 | the trimmed string is an infix with only white space before and after it. Its ends are not white space. It is empty exactly when the input is all white space |
| JsStrings.TrimUnique | server.js:142 | any infix with white-space margins and non-space ends is the trimmed string, so `Trim`'s contract determines it |
| JsStrings.TrimFixed | server.js:142 | a string with no white space at either end is its own trim |
| JsStrings.TrimIdempotent | server.js:142 | trimming twice is trimming once |
| JsStrings.Decimal | server.js:236 | the numeral is non-empty and all digits. It has no leading zero unless the number is 0 |
| JsStrings.DecimalRoundTrip | server.js:236 | reading back the digits of the numeral gives the number |
| JsStrings.IntString | server.js:127 | an integer's text starts with '-' exactly when it is negative, followed by the numeral of its magnitude |
| PosixPath.Split | server.js:50 | splitting at '/' gives at least one segment, none holds a '/', and joining them with '/' gives back the path |
| PosixPath.Push | server.js:51 | one step of `normalizeString` changes the stack by at most one segment, and on an absolute path a stack of names stays a stack of names |
| PosixPath.Collapse | server.js:51 | collapsing leaves at most one stack element per segment on top of the stack it started from |
| PosixPath.Normalize | server.js:52 | `path.normalize` keeps an absolute path absolute |
| PosixPath.Join | server.js:50 | `path.join` onto an absolute directory gives an absolute path |
| PosixPath.ResolveAbsolute | server.js:51 | `path.resolve` of an absolute path is absolute and carries no trailing '/' unless it is the root |
| PosixPath.JoinSlashSnoc | server.js:16-17 | joining one more segment adds a '/' and the segment |
| PosixPath.RenderSnoc | server.js:16-17 | an absolute path ends with a '/' and its last name |
| PosixPath.SplitConcat | server.js:50 | splitting distributes over a '/' between two strings |
| PosixPath.SplitJoinSlash | server.js:50 | splitting undoes joining with '/' when no segment holds a '/' |
| PosixPath.SplitRender | server.js:51 | the segments of a rendered absolute path are "" followed by its names |
| PosixPath.CollapseAppend | server.js:51 | collapsing `.`, `..` and empty segments is a fold: two runs in a row equal one run over the concatenation |
| PosixPath.CollapseNames | server.js:51 | plain names are pushed unchanged |
| PosixPath.CollapseKeepsNames | server.js:51 | collapsing from a stack of names never leaves `.`, `..` or "" on the stack |
| PosixPath.CollapseEmpties | server.js:51 | empty segments from doubled or trailing separators change nothing |
| PosixPath.CollapseRendered | server.js:52 | a rendered canonical path, with any number of trailing separators, collapses back to its names |
| PosixPath.NormalizeRendered | server.js:52 | `path.normalize` leaves a canonical absolute path unchanged, so the normalized `BOT_DIR` is `BOT_DIR` |
| PosixPath.ResolveNormalized | server.js:51 | `path.resolve` after `path.normalize` of an absolute path is one collapse of its segments |
| Sandbox.ClientText | server.js:48 | a string client path is used as it is, and any other value as the empty path |
| Sandbox.BotDir | server.js:16 | `BOT_DIR` is an absolute path |
| Sandbox.UploadDir | server.js:17 | `UPLOAD_DIR` is an absolute path |
| Sandbox.FoldersUnderInstall | server.js:16-17 | `BOT_DIR` ends in "/user_bot" and `UPLOAD_DIR` in "/temp_uploads", directly under `__dirname` |
| Sandbox.GetSafeAbsolutePath | server.js:47-60 | an accepted result starts with `BOT_DIR` and is the rendered landing of the client path. A refusal carries the "Path Traversal" message. It refuses exactly when the resolved path does not start with `BOT_DIR` |
| Sandbox.ResolvedIsLanding | server.js:50-51 | `path.resolve(path.join(BOT_DIR, c))` is absolute and equals the client's segments collapsed onto `BOT_DIR`'s names |
| Sandbox.PrefixBeforeSlash | server.js:54 | a '/'-free prefix cannot reach past a separator |
| Sandbox.PrefixAtSlash | server.js:54 | for two '/'-separated strings the first components must agree exactly and the rests must be prefixes |
| Sandbox.JoinSlashPrefix | server.js:54 | the joined names `n` start with the joined `d + [u]` exactly when `n` runs through `d` and the next name starts with `u` |
| Sandbox.PrefixCheckMeaning | server.js:54 | the string-prefix test passes exactly when the path runs through `__dirname` and its next name begins with "user_bot" |
| Sandbox.AcceptedExactly | server.js:47-60 | the sandbox accepts a client path exactly when its landing runs through `__dirname` to a name beginning with "user_bot" |
| Sandbox.RootSpellings | server.js:48-51 | a non-string path, "", "/", "." and "./" all resolve to `BOT_DIR` itself |
| Sandbox.LeadingSlashJoinsUnderRoot | server.js:50 | a leading '/' is joined under the root and does not override it |
| Sandbox.CollapseWithoutParent | server.js:51 | without ".." nothing is popped: the segments' names are appended |
| Sandbox.DescendantAccepted | server.js:47-60 | a client path without ".." is accepted and lands at `BOT_DIR` followed by its names |
| Sandbox.DescendantPasses | server.js:54-57 | a client path without ".." passes the check |
| Sandbox.LandingWithoutParent | server.js:50-51 | without "..", the landing is `BOT_DIR`'s names followed by the client's names |
| Sandbox.LandingClimb | server.js:50-51 | "../name" lands at `__dirname/name` |
| Sandbox.ClimbOutRejected | server.js:54-57 | climbing out to a name that does not begin with "user_bot" is refused with the traversal error |
| Sandbox.SiblingAccepted | server.js:54-59 | climbing out to a sibling whose name begins with "user_bot" is accepted, as the string test is written |
| LogBuffer.AddEntryProperties | server.js:68-72 | one `addLog` from a history of at most 51 entries has these properties. The new entry is last. The length is between 1 and 51. The earlier entries keep their order, and at most the single oldest is dropped, only when 51 were held. The result is the last 51 entries of the extended history |
| LogBuffer.Window | server.js:71-72 | the window holds the last 51 entries, or all of them when there are fewer |
| LogBuffer.AddEntry | server.js:71-72 | the new entry is last, the older entries are the most recent of the old history, and the length grows by one until more than 50 are held, then stays |
| LogBuffer.WindowAppend | server.js:71-72 | truncating early does not change the window later |
| LogBuffer.AddAllWindow | server.js:68-72 | logging entries one by one keeps exactly the most recent 51 of all entries ever logged |
| LogBuffer.OverflowKeepsMostRecent | server.js:329-331 | from a cleared history, more than 51 entries leave exactly the last 51 |
| LogBuffer.StderrKind | server.js:118-122 | a stderr message is `input` exactly when it mentions "npm WARN", "npm notice" or "Cloning into", and `error` exactly when it mentions none of them |
| LogBuffer.ChunkEntry | server.js:110-122 | a chunk's entry text is the trimmed chunk. stdout is `info`. stderr is `input` or `error`, by the noise markers |
| DeployPlan.StartCommand | server.js:142-143 | the start command is "node index.js" exactly when the raw command is all white space, and the trimmed command otherwise |
| DeployPlan.StartCommandShape | server.js:142-143 | the start command is never empty and has no white space at either end |
| DeployPlan.FinalCommand | server.js:154-159 | the final command is never shorter than the start command, and is longer exactly when installation was asked for |
| DeployPlan.FinalCommandShape | server.js:154-160 | with installation requested, the command is the `npm install --prefix <BOT_DIR> && ` prefix followed by the start command, which reads back off it. Without installation it is the start command. Either way it is non-empty and already trimmed |
| DeployPlan.PrefixedTrimmed | server.js:159 | a prefix with a non-space head keeps a trimmed command trimmed, and the command reads back off the concatenation |
| DeployPlan.FirstFault | server.js:141-169 | the index of the first throwing stage: every stage before it goes through, and the stage there throws |
| DeployPlan.RunStages | server.js:141-169 | a run performs at most one action per stage, at least one when there are stages, and one for every stage when it does not fail |
| DeployPlan.Then | server.js:141-165 | once something was thrown the next stage is skipped. Otherwise exactly one more action is performed, and the stage's fault becomes what was thrown |
| DeployPlan.Attempt | server.js:141-165 | awaiting stages after a throw changes nothing, and awaiting them performs at most one action each |
| DeployPlan.RunStagesEffects | server.js:141-169 | a run fails exactly when some stage throws. It performs the actions of the stages up to and including the first that throws, in order |
| DeployPlan.RunStagesLogs | server.js:141-169 | a run logs the notes of the stages it reaches, then one failure entry with the thrown message when a stage threw |
| DeployPlan.RunStagesSpec | server.js:141-169 | the stages performed and the entries logged by a run, together |
| DeployPlan.ExactlyOneFailureEntry | server.js:167-169 | when no note is a failure entry, a run logs exactly one "FALHA NO DEPLOY" entry, last, if it failed, and none otherwise |
| DeployPlan.Caught | server.js:167-169 | the `catch` keeps the performed actions and marks the run failed exactly when something was thrown |
| DeployPlan.AttemptRuns | server.js:141-169 | awaiting the stages one by one inside `try` and catching equals running the pipeline. Once something was thrown, later stages are skipped |
| DeployPlan.RunStagesPrefix | server.js:141-169 | a run fails exactly when some stage throws. What it performs is a non-empty prefix of the stages' actions, and all of them when it does not fail |
| DeployPlan.QuietNotesCount | server.js:147-162 | notes with no error entry hold no failure entry |
| DeployPlan.AttemptAppend | server.js:141-165 | awaiting `a` then `b` is awaiting `a + b` |
| DeployPlan.AttemptFive | server.js:147-165 | awaiting the five steps after `killBot` is five steps in a row |
| DeployPlan.DeployAttempt | server.js:140-170 | `deployFlow`'s run is `killBot`, then ensure, empty, fetch, start and cleanup awaited in turn, then the `catch`. `killBot` never throws, and does nothing with an empty slot |
| DeployPlan.DeployStagesShape | server.js:145-165 | the stage sequence: the kill stage when a process is held, then the five steps, each with its note, its action and its fault |
| DeployPlan.DeployStages | server.js:140-165 | six stages with a process held and five without. The kill comes first when there is one, `ensureDir(BOT_DIR)` otherwise, and the cleanup of `UPLOAD_DIR` last |
| DeployPlan.DeployActions | server.js:145-165 | the full action order: kill the held process if there is one, ensure `BOT_DIR`, empty `BOT_DIR`, fetch into it, spawn the final command in it, empty `UPLOAD_DIR` |
| DeployPlan.AttemptedIff | server.js:141-169 | a stage whose action differs from every other is attempted exactly when every stage before it went through |
| DeployPlan.DeployFailsIff | server.js:141-169 | a deploy fails exactly when one of its five steps throws |
| DeployPlan.FaultsOfFive | server.js:147-165 | some step throws exactly when one of the five faults is set. Every step up to the fetch goes through exactly when the first three are clear |
| DeployPlan.DeployNotesQuiet | server.js:145-162 | no note a deploy logs before the `catch` is a failure entry |
| DeployPlan.AfterKillQuiet | server.js:147-162 | no note of the five steps after `killBot` is an error entry |
| DeployPlan.QuietAppend | server.js:145-162 | stages without error notes can be concatenated without adding one |
| DeployPlan.SpawnReached | server.js:152-162 | the new process is started exactly when ensure, empty and fetch all went through |
| DeployPlan.ReachedIff | server.js:141-169 | a run reaches stage `j` exactly when every earlier stage went through |
| DeployPlan.DeployOrder | server.js:140-170 | a deploy does the following together. It performs a non-empty prefix of its fixed action order. It fails exactly when a step throws. It kills the held process first. It spawns exactly when every earlier step went through. It logs exactly one failure entry, last, when it failed, and none otherwise |
| FileListing.TenthsNearest | server.js:236 | the size in tenths of a kilobyte is the nearest tenth, the larger one on a tie |
| FileListing.SizeLabel | server.js:236 | the label ends with a point, one digit and " KB", after a whole part of at least one character |
| FileListing.SizeLabelMeaning | server.js:236 | the size label is a numeral, a point, one digit and " KB". Its digits read back as the rounded number of tenths |
| FileListing.CollectEntries | server.js:225-239 | the loop collects, in `readdir` order, one entry for each name whose `stat` succeeds |
| FileListing.Collected | server.js:228-239 | at most one entry per listed name, and only for names whose `stat` succeeded |
| FileListing.CollectedSpec | server.js:228-239 | every collected entry describes a listed name with its stat's kind and size label. Every listed name whose stat succeeds is collected. There are no more entries than names |
| FileListing.Compare | server.js:241 | the comparator is -1, 0 or 1. It is negative exactly for a directory before a file and positive exactly for a file before a directory |
| FileListing.CompareConsistent | server.js:241 | the comparator is antisymmetric and transitive, and treats two entries as equal exactly when they are of the same kind |
| FileListing.FiltersKinds | server.js:241 | the directory part holds only directories and the file part only files |
| FileListing.FiltersMultiset | server.js:241 | the two parts together are a permutation of the entries |
| FileListing.DirsFirst | server.js:241 | the sorted listing is a permutation of the collected entries |
| FileListing.DirsFirstSorted | server.js:241 | the sorted listing has every directory before every file |
| FileListing.DirsFirstStable | server.js:241 | sorting is a permutation and keeps the original order within directories and within files |
| FileListing.SortedSplits | server.js:241 | a sequence in comparator order is its directories followed by its files |
| FileListing.StableSortUnique | server.js:241 | any ordering sorted by the comparator that keeps each kind's order is the listing, so the stable `sort` is determined |
| Panel.RouteMessage | server.js:245 | a message mentioning "Path Traversal" is reported as it is. Any other is reported after the route's prefix |
| Panel.FieldText | server.js:142 | `String(field)`: a string is its own text, a missing field reads "undefined", and any other value reads as `String` writes it |
| Panel.MissingStartCommand | server.js:142-143 | a missing start command is not replaced by "node index.js": it is started as "undefined" |
| Panel.AsClientPath | server.js:48 | a string field reaches the sandbox as that string, and any other value as a non-string |
| Panel.NonStringUploadAtRoot | server.js:284-285 | a truthy upload `currentPath` that is not a string is sandboxed as the empty path and lands at `BOT_DIR` |
| Panel.TraversalReported | server.js:245 | the sandbox's refusal reaches the client word for word |
| Panel.RootResolvesToItself | server.js:260 | `path.resolve(BOT_DIR)` is `BOT_DIR`, an absolute path |
| Panel.DeleteTarget | server.js:257-262 | the delete target is accepted exactly when the sandbox accepts the joined path and it is not `BOT_DIR`. It then starts with `BOT_DIR`. Otherwise the error is the traversal message or the root refusal |
| Panel.DeleteRefusesRoot | server.js:257-262 | every joined spelling of the root ("", "/", ".", "./") is refused with the root message |
| Panel.DeleteRootLiteral | server.js:257-262 | `{ currentPath: "/", name: "." }` is refused as the root |
| Panel.ListPath | server.js:215 | the listed path is never empty: a given non-empty path is kept, and a missing or empty one becomes "/" |
| Panel.ListDefaultsToRoot | server.js:215-216 | without a path, or with an empty one, the listing shows `BOT_DIR` |
| Panel.TempPath | server.js:25-32 | the file multer stored, `path.join(UPLOAD_DIR, originalname)`, is an absolute path |
| Panel.LogMore | server.js:71-72 | logging more entries on top of a window equals logging them all at once |
| Panel.Advance | server.js:141-165 | running a stage's note and action while nothing was thrown keeps the state in step with the `try` block's outcome |
| Panel.BotPanel.constructor | server.js:20-21 | the server starts with an empty history and an empty slot |
| Panel.BotPanel.AddLog | server.js:68-80 | the history becomes `AddEntry` of the old one and keeps at most 51 entries. The entry is broadcast. The slot and the actions are unchanged |
| Panel.BotPanel.KillBot | server.js:82-95 | the slot ends empty. With a process held, one warning is logged and its group is killed. With none, nothing is logged or performed |
| Panel.BotPanel.StartBot | server.js:97-107 | logs the start entry, spawns the command in `BOT_DIR`, and holds the new child unless the spawn throws. There is no check for a running process |
| Panel.BotPanel.OnOutput | server.js:110-123 | a `data` event logs exactly its chunk's entry |
| Panel.BotPanel.OnClose | server.js:126-128 | `close` logs a warning with the exit code ("null" for a signal) and leaves the slot as it is |
| Panel.BotPanel.OnSpawnError | server.js:131-133 | the `error` event logs the spawn failure |
| Panel.BotPanel.TerminalInput | server.js:314-326 | with a live process held, the line is written to its stdin and echoed as `$ cmd`, or the write failure is reported. With an empty slot, nothing is written and the offline error is logged |
| Panel.BotPanel.ClearHistory | server.js:329-334 | after a clear, the history is exactly the one "cleared" entry, and that is what is sent back |
| Panel.BotPanel.Connect | server.js:311 | a new connection receives the history, at most 51 entries |
| Panel.BotPanel.EnsureBotDir | server.js:147-149 | runs exactly the ensure stage |
| Panel.BotPanel.EmptyBotDir | server.js:150 | runs exactly the empty stage |
| Panel.BotPanel.FetchSource | server.js:152 | runs exactly the fetch stage: extract the archive or clone the repository into `BOT_DIR` |
| Panel.BotPanel.Launch | server.js:154-162 | runs exactly the start stage with the final command, and holds the new child unless the spawn throws |
| Panel.BotPanel.Announce | server.js:156-159 | logs the install note exactly when installation was asked for, and gives the install prefix followed by the start command, or the start command alone |
| Panel.BotPanel.EmptyUploads | server.js:165 | runs exactly the cleanup stage |
| Panel.BotPanel.Catch | server.js:167-169 | logs one "FALHA NO DEPLOY" entry with the message |
| Panel.BotPanel.StopHeld | server.js:145 | `killBot` at the head of the flow leaves the state the kill stages describe, with the slot empty |
| Panel.BotPanel.CleanAndFetch | server.js:147-152 | the state follows the outcome of ensure, empty and fetch awaited in turn |
| Panel.BotPanel.StartAndTidy | server.js:154-165 | the state follows the outcome of start and cleanup. The slot holds the new child exactly when the spawn did not throw |
| Panel.BotPanel.DeployFlow | server.js:140-170 | the flow logs and performs exactly its pipeline's run. The slot holds the new child exactly when every step up to the start went through, and is empty otherwise |
| Panel.BotPanel.DeployZip | server.js:177-192 | without an archive the route answers 400 and changes nothing. Otherwise it deploys the stored archive and acknowledges |
| Panel.BotPanel.DeployGit | server.js:195-206 | a falsy or missing URL is answered with 400 and changes nothing. Otherwise the route deploys a clone of the URL's text and acknowledges |
| Panel.BotPanel.Fail | server.js:244-247 | a route's `catch` logs the reported message and answers 500 with it |
| Panel.BotPanel.Report | server.js:267-270 | the delete and upload `catch` logs the reported message as it is and answers 500 with it |
| Panel.BotPanel.ListFiles | server.js:213-249 | a refused path is answered 500 with the traversal message and performs nothing. Otherwise `BOT_DIR` is ensured. Missing, not-a-directory and unreadable paths get 404, 400 and 500. A directory gets its collected entries, directories first. Exactly the 500 answers are logged |
| Panel.BotPanel.ListAccepted | server.js:219-243 | `ensureDir(BOT_DIR)`, then a 500 when it throws, and otherwise the answer for the target |
| Panel.BotPanel.ShowDirectory | server.js:221-243 | the answer for each kind of target, with the listing sorted directories first |
| Panel.BotPanel.DeleteFile | server.js:252-272 | without both fields truthy the route answers 400 and changes nothing. A field that is not a string makes `path.join` throw, which is reported and performs nothing. A refused target performs nothing. What is removed is never `BOT_DIR` and always starts with it. A success is logged as a warning, a failure as an error |
| Panel.BotPanel.DeleteJoined | server.js:257-271 | a refused target performs nothing and is reported. An accepted one is removed, and what is removed starts with `BOT_DIR` and is never `BOT_DIR` |
| Panel.BotPanel.RemoveTarget | server.js:264-271 | removes the target, then logs the deletion or reports the failure |
| Panel.BotPanel.UploadFile | server.js:276-302 | without a file or a truthy path the stored upload is removed and the route answers 400 with no log. Otherwise it places the upload, a path that is not a string being sandboxed as the empty path and logged as `String` writes it |
| Panel.BotPanel.PlaceUpload | server.js:283-301 | a refused directory removes the stored upload and reports the traversal. Otherwise the upload is moved into the accepted directory, which starts with `BOT_DIR`, and removed again when the move throws |
| Panel.BotPanel.RefuseUpload | server.js:295-299 | a refused directory removes the stored upload and reports the refusal |
| Panel.BotPanel.MoveUpload | server.js:291-301 | moves the upload, then logs it, or removes it and reports the failure |

## Left out

- Express, multer and Socket.io are not modelled. Route bodies and files reach the handlers as parameters. Every `io.emit` is an append to `emitted`. The console mirror of `addLog` is not modelled.
- Static file serving (`express.static`), the JSON body parser and the server's `listen` are not modelled.
- Timing is not modelled: the 1500 ms wait in `killBot` and the `getTime` clock, whose reading is an opaque string.
- Panel.BotPanel.DeployFlow: every handler runs to completion with nothing in between, and one `now` stamps every entry of a deploy. In the source, other requests and the child's events run at each `await`: the 1500 ms wait in `killBot` and each awaited step, where the clock is also read again. Overlapping requests are not captured. Two overlapping deploys both call `startBot`, and the child started first is overwritten in the slot and never killed. The later deploy's `emptyDir(BOT_DIR)` wipes files under the other's running child. A delete or upload can act on `BOT_DIR` partway through a deploy. What `Deployed` promises about the slot holds only when no other request overlaps the deploy.
- Process control is represented by `Effect` values in `performed`. This covers `spawn`, the group kill, the fallback `kill()` whose failure is swallowed, and stdin writes.
- The filesystem, AdmZip and simple-git are represented by `Effect` values in `performed`, with the message they throw as a parameter.
- The listing's `existsSync`, `statSync`, `readdir` and per-name `stat` are not modelled as actions. Their answers are the `DirView` parameter.
- A body field that is not a string is given by the text `String` writes for it and by its truthiness (`Field.Other`). For the delete route, the message of the `TypeError` that `path.join` throws is the `joinError` parameter. A `repoUrl` that is not a string is handed to the clone as its text; whether simple-git accepts it is the fetch step's fault parameter.
- FileListing.SizeLabel: sizes are exact integers. Below 2^53 bytes the label is exactly the source's, because `size / 1024` is exact in binary floating point and `toFixed(1)` takes the larger tenth on a tie (section 21.1.3.3 of ECMA-262). Sizes of 2^53 bytes and more, which a JavaScript number cannot hold exactly, are not modelled.
- Array.prototype.sort is modelled by its result `DirsFirst`. `StableSortUnique` shows that any stable sort with the comparator gives that result.
- Panel.BotPanel.UploadFile: the removal of the stored upload before the 400 answer and in the `catch` is assumed not to throw. A throw there would leave the request unanswered.
- Panel.BotPanel.PlaceUpload: only the directory is checked by the sandbox. The destination joins the client's own file name unchecked, and this model proves nothing about where that name leads.
- `__dirname` is taken as a list of plain names. `path.resolve` is modelled for absolute paths only, which is all the sandbox produces, so the working directory never matters.
- Symbolic links are not modelled.
