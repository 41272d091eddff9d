# ksp-proboj-runner game core in Dafny

This project models the part of the proboj runner that plays one game:

- A generic child-process wrapper with a framed line protocol (`proboj/process.py`).
- A player process with a background reader and a read timeout (`proboj/player.py`).
- The game itself (`proboj/game.py`): it starts the server and the players and sends the server its `CONFIG` block. It then carries out the server's commands until the server ends or says `END`, and finally tears everything down. The commands are `END`, `TO OBSERVER`, `SCORES`, `TO PLAYER`, `READ PLAYER` and `KILL PLAYER`.

Modules:

| file | module | contents |
|---|---|---|
| `text.dfy` | `Text` | The Python string operations the runner depends on: `strip`, `splitlines`, `split()` and `split(maxsplit=1)`, `join`, `int()` and `os.path.join`. It also has the decimal form of an integer, which describes the score lines a server writes. Slicing past the end follows Python. |
| `framing.dfy` | `Framing` | The message framing every child uses: lines up to the first line that reads `.` once stripped. |
| `process.dfy` | `Proc` | `class Process`. The operating-system child is abstract state: no handle, running, or ended but not yet polled. Its stdin is the lines written to it, its stdout the lines it wrote that nobody has read, and its log a `Sink`. |
| `player.dfy` | `Players` | `class Player`, with the background reader's queue, and `class Clock` for the time budget. |
| `command.dfy` | `Commands` | The command datatype, the verb tests, the `SCORES` parser, and the lemmas that a command written by a server is read back unchanged. |
| `game.dfy` | `Games` | Construction from the configuration, and `class Game` with `start`, `_read_cmd` and its handlers, `mainloop`, `teardown` and `run`. |

Exceptions are values:

- `ReadResult` (`ProcessEnded` and `TimedOut`) for process reads.
- `Step.Raised(Failure)` for a command whose handler raises.
- `Ending.Crashed` for a main loop that an exception leaves.

Points where the model follows the code as written rather than the behaviour one might expect:

- `mainloop` is not wrapped in `try`/`finally`. An exception from a command leaves the loop before `teardown`, so the files stay open. `Games.Game.Mainloop` states exactly this.
- The score file is opened once and every `SCORES` appends a JSON object to it. It is not rewritten, so the model keeps one score map per `SCORES`.
- `proboj/game.py:57` passes the server working directory as a third argument. The `Server` of `proboj/server.py:7-9` takes two, so the model builds the server as in `server.py`: a process whose log is `<gamefolder>/logs/__server.gz`. `server_workdir` is not part of this model.
- The process log is tested for truth (`if self._log`), and a closed gzip file object is still true. So `open_log` after `close_log` does not reopen the log, and `write_log` to a closed log raises `ValueError`. `Proc.Reopened` and `Proc.Process.WriteLog` model both.

## Model

| member | source | states |
|---|---|---|
| Text.FirstSpace | proboj/game.py:153 | the index returned is the first whitespace character, or the length when there is none |
| Text.FirstBreak | proboj/game.py:123 | the index returned is the first line-break character, or the length when there is none |
| Text.LStrip | proboj/process.py:70 | the result is empty or starts with a non-whitespace character; with `Text.LStripDropsSpace`, it is the suffix left after the leading whitespace |
| Text.LStripDropsSpace | proboj/process.py:70 | `lstrip()` keeps a suffix of the string, and everything it drops is whitespace |
| Text.RStrip | proboj/process.py:70 | the result is empty or ends with a non-whitespace character; with `Text.RStripDropsSpace`, it is the prefix left before the trailing whitespace |
| Text.RStripDropsSpace | proboj/process.py:70 | `rstrip()` keeps a prefix of the string, and everything it drops is whitespace |
| Text.StripSlice | proboj/game.py:153 | `strip()` is the slice of the string from its first non-whitespace character to its last; everything before and after that slice is whitespace |
| Text.StripTrimmed | proboj/process.py:70 | `strip()` leaves a string unchanged when it has no whitespace at either end |
| Text.Drop | proboj/game.py:153 | `s[n:]` is what `s[:n]` leaves: the two put together give `s` back |
| Text.Take | proboj/game.py:152 | `s[:n]` is a prefix of `s` of length `n`, or all of `s` when `n` is past the end |
| Text.Lined | proboj/process.py:60 | every line written gets its own trailing newline, and no line is added or lost |
| Text.ConcatSnoc | proboj/process.py:72 | appending one more line to the read data extends the concatenation by that line |
| Text.SplitLines | proboj/game.py:123 | `splitlines()` gives no lines exactly for the empty string, and no line it gives contains a line break |
| Text.SplitLinesOfLined | proboj/game.py:123 | `splitlines()` of newline-terminated lines without breaks gives those lines back |
| Text.JoinLined | proboj/game.py:161-164 | sending `"\n".join(data)` as one line writes exactly the lines of `data`, each with its own newline |
| Text.Words | proboj/game.py:147 | `split()` gives no words exactly when the text is blank, and each word is non-empty and has no whitespace |
| Text.ScanWordsIsWords | proboj/game.py:147 | `Words` gives exactly the words of a scan that reads one character at a time and ends a word at each whitespace character |
| Text.WordsAfterWord | proboj/game.py:147 | a word followed by whitespace or by nothing is the first word of the split, and the rest is split on its own |
| Text.WordsSkipSpace | proboj/game.py:147 | leading whitespace does not change the split |
| Commands.WordsOfPair | proboj/game.py:147 | two words joined by a space split back into those two words |
| Text.SplitOnce | proboj/game.py:153 | `split(maxsplit=1)` yields at most two parts: the first a word, the second non-empty and starting with a non-blank; nothing at all exactly when the text is blank |
| Text.SplitOnceOfPair | proboj/game.py:153 | a name and a tag joined by a space split back into `[name, tag]` |
| Text.SplitOnceOfWord | proboj/game.py:153 | a single word splits into itself |
| Text.ParseInt | proboj/game.py:148 | `int()` accepts nothing for blank text |
| Text.ParseIntLiteral | proboj/game.py:148 | `int()` gives `v` exactly when the stripped text is a run of digits with an optional `+` or `-` sign and value `v`. Any other text raises `ValueError` |
| Text.ParsePlus | proboj/game.py:148 | a plus sign before a run of digits parses to the value of the digits |
| Text.NatDigits | proboj/game.py:148 | the decimal form of a natural number is a non-empty run of digits without a leading zero |
| Text.DigitsValueOfNatDigits | proboj/game.py:148 | the digits of a natural number evaluate back to it |
| Text.ParseShowInt | proboj/game.py:148 | `int(str(n)) == n` for every integer |
| Text.ParseUnsigned | proboj/game.py:148 | a run of digits parses to its decimal value |
| Text.ParseSigned | proboj/game.py:148 | a minus sign before a run of digits parses to the negated value |
| Text.PathJoin | proboj/player.py:14 | `os.path.join`: an absolute second part replaces the first; otherwise the result starts with the first part and ends with the second |
| Framing.SentinelIndex | proboj/process.py:68-71 | the position of the first line that strips to ".", with no such line before it |
| Framing.Cut | proboj/process.py:63-74 | a read takes the lines before the first sentinel, and none of those is a sentinel. It is complete exactly when a sentinel exists, and the payload, the sentinel and the rest make up the input. Without a sentinel everything is payload |
| Framing.CutFramed | proboj/process.py:63-74 | a message followed by a sentinel is read back exactly, and what follows stays unread |
| Framing.SentinelLine | proboj/game.py:88 | the "." a process is sent, and the ".\n" it arrives as, are both sentinels |
| Proc.Polled | proboj/process.py:45-54 | `poll` forgets an ended child, keeps the rest, and reports running exactly for a running child |
| Proc.Killed | proboj/process.py:76-79 | after `kill` nothing runs, and a child has ended exactly when it was running |
| Proc.Shut | proboj/process.py:105-110 | closing leaves nothing open, keeps the contents, and leaves a never-opened sink as it was |
| Proc.Reopened | proboj/process.py:91-99 | `open_log` opens an empty log exactly when a log file is configured and no log object exists |
| Proc.ReopenedIdempotent | proboj/process.py:95-96 | opening a log twice is opening it once |
| Proc.StderrFor | proboj/process.py:19-30 | stderr is a pipe exactly when a log file is configured |
| Proc.Process.constructor | proboj/process.py:13-17 | a new process has its command, no child, and no log |
| Proc.Process.Poll | proboj/process.py:45-54 | reports running exactly for a running child, and leaves the handle as `Polled` says |
| Proc.Process.OpenLog | proboj/process.py:91-99 | the log becomes `Reopened(log, logfile)` |
| Proc.Process.WriteLog | proboj/process.py:101-103 | an open log gains the data, a missing log ignores it, and a closed log fails and is left as it was |
| Proc.Process.CloseLog | proboj/process.py:105-110 | the log becomes `Shut(log)` |
| Proc.Process.GetPopenKwargs | proboj/process.py:19-30 | stderr is `StderrFor(logfile)`, and the log is opened when a log file is configured |
| Proc.Process.Start | proboj/process.py:32-43 | afterwards a child runs. A running child is kept with its pipes and log; otherwise a new child starts with empty pipes and the log is opened |
| Proc.Process.Send | proboj/process.py:56-61 | a running child receives the data plus a newline; otherwise the send fails and stdin is unchanged |
| Proc.Process.ReadLine | proboj/process.py:69 | returns the next unread line, or "" at end of file, and then the child has ended |
| Proc.Process.Read | proboj/process.py:63-74 | a child that is not running gives `ProcessEndException`. Otherwise the result is the lines before the first sentinel, concatenated with their newlines, and the rest stays unread. When no sentinel comes, the result is everything written and the ended child is forgotten |
| Proc.Process.Kill | proboj/process.py:76-79 | the handle becomes `Killed(child)` |
| Proc.Process.Teardown | proboj/process.py:81-82 | the log becomes `Shut(log)` |
| Players.Clock.Wait | proboj/player.py:41-45 | a `get` whose budget runs out returns one tick past the budget |
| Players.LogPathEnds | proboj/player.py:14 | whatever the game folder, a player's log path ends with `<name>.gz` |
| Players.LogPathPlain | proboj/player.py:14 | a player's log is `<gamedir>/logs/<name>.gz` |
| Players.StripAll | proboj/player.py:45 | every queued line is stripped, and none is added or lost |
| Players.ReadOutcome | proboj/player.py:33-53 | a player read ends the process exactly when the child is not running. It receives data exactly when the child runs, the budget is not negative and a sentinel is queued; otherwise it times out |
| Players.ReadFramed | proboj/player.py:33-53 | a queued message followed by a sentinel is read as its stripped lines joined by newlines; what follows the sentinel stays queued and no time passes |
| Players.Player.constructor | proboj/player.py:10-16 | a new player has its name and timeout, an empty queue, and a fresh idle process logging to `LogPath(gamedir, name)` |
| Players.Player.Start | proboj/player.py:18-26 | a running player is left alone; otherwise the process starts and the queue is new and empty |
| Players.Player.Pump | proboj/player.py:28-31 | the reader moves every unread line of a running child to the back of the queue, in order, and does nothing for a child that is not running |
| Players.Player.Read | proboj/player.py:33-53 | the result is `ReadOutcome` of the queue. The queue left is `Leftover`: what followed the sentinel after a successful read, nothing after a timeout with a non-negative budget, and the queue unchanged when the read cannot start. The clock advances by `Waited`: timeout+1 ticks for a timeout and nothing otherwise. The process is only polled |
| Commands.VerbTestsExclusive | proboj/game.py:131-192 | no verb passes two of the six verb tests, so the independent `if`s act as one chain |
| Commands.Classify | proboj/game.py:131-192 | a verb is unrecognised exactly when it passes none of the tests. The payload goes to `TO OBSERVER`, `SCORES` and `TO PLAYER` unchanged, and `TO PLAYER` has at most two non-empty arguments |
| Commands.ParseCommand | proboj/game.py:121-129 | a block yields no command exactly when `splitlines()` gives no lines (the `ValueError` of the unpacking) |
| Commands.ToPlayerName | proboj/game.py:152-154 | `TO PLAYER <name>` passes the `TO PLAYER` test and its argument split is `[name]` |
| Commands.ToPlayerNameTag | proboj/game.py:152-156 | `TO PLAYER <name> <tag>` passes the test and its argument split is `[name, tag]` |
| Commands.ParseRender | proboj/game.py:121-192 | every well-formed command, written as newline-terminated lines, is parsed back to itself |
| Commands.RenderNoBreaks | proboj/game.py:123 | the lines of a well-formed command contain no line breaks |
| Commands.ClassifyRender | proboj/game.py:131-192 | the first line of a written command, with the remaining lines as data, classifies back to the command |
| Commands.ClassifyToPlayer | proboj/game.py:152-154 | a written `TO PLAYER` command classifies back to its arguments and payload |
| Commands.ClassifyReadPlayer | proboj/game.py:171-172 | `READ PLAYER <which>` classifies to a read of `which` |
| Commands.ClassifyKillPlayer | proboj/game.py:188-189 | `KILL PLAYER <which>` classifies to a kill of `which` |
| Commands.Separator | proboj/game.py:156-159 | the log separator frames the tag with four dashes when there are two arguments, and is twenty dashes and a newline otherwise |
| Commands.FoldScores | proboj/game.py:145-148 | the loop stops at the first line that is not a score, with all earlier lines parsed; on success every line parsed |
| Commands.FoldSnoc | proboj/game.py:147-148 | one more parsed line assigns its score to its name |
| Commands.FoldFailsAt | proboj/game.py:147 | the loop raises at the first line that does not parse |
| Commands.FoldScoresLastWins | proboj/game.py:145-148 | the dictionary holds exactly the names that appear, and each name holds the score of its last line |
| Commands.FoldKeys | proboj/game.py:145-148 | the dictionary's keys are exactly the names that appear |
| Commands.FoldLastAt | proboj/game.py:148 | a line that no later line overrides gives its name's final score |
| Commands.ParseScores | proboj/game.py:143-150 | `SCORES` fails exactly when some line is not "name integer", and then names the first such line |
| Commands.ParseScoresFailsAt | proboj/game.py:146-148 | parsing reports the first bad line after good ones |
| Commands.ParseScoresLastWins | proboj/game.py:145-148 | on success every line parsed, the keys are the names given, and the last line for a name wins |
| Commands.ScoreEntry | proboj/game.py:147-148 | a line gives an entry only when `split()` yields exactly two words, and the entry's name is the first word |
| Commands.ScoreEntryExact | proboj/game.py:147-148 | a line gives an entry exactly when it has two words and the second is an optionally signed run of digits. The score is that literal's value. A line with more or fewer words, or with any other second word, makes the unpacking or `int()` raise |
| Commands.ScoreEntryOfLine | proboj/game.py:147-148 | a line `name score` written by a server reads back as that name and score |
| Commands.ParseTwoScores | proboj/game.py:145-148 | two score lines give the dictionary with both assignments, in order |
| Commands.ScoresExample | proboj/game.py:145-148 | the lines "a 3" and "b 7" give `{"a": 3, "b": 7}` |
| Games.Dedup | proboj/game.py:58-63 | the players dictionary's key order holds each name of the description once, and only those names |
| Games.FirstIndex | proboj/game.py:60 | the position of the first occurrence of a name in the description |
| Games.DedupOrder | proboj/game.py:58-63 | the dictionary's key order (sent in `CONFIG` at proboj/game.py:86) lists the names in the order of their first appearance in the description |
| Games.DedupDistinct | proboj/game.py:58-63 | a description without repeats keeps its order |
| Games.FirstUnknown | proboj/game.py:60-62 | no name is reported exactly when every name is configured. Otherwise the report is the first unconfigured name, and every name before it is configured |
| Games.FirstUnknownAt | proboj/game.py:60-62 | the scan stops at the first unconfigured name |
| Games.NotFound | proboj/game.py:62 | the error message holds the player's name right after the seven characters of "player ", and the fixed text around it adds 33 characters in all |
| Games.NewPlayers | proboj/game.py:58-68 | reports the first unconfigured name. Otherwise it builds a distinct, fresh, idle player for exactly the names of the description, each with its configured command, the timeout, and its own log path |
| Games.NewGame | proboj/game.py:54-71 | fails with "player X not found in config file." exactly when a name is unconfigured. Otherwise it builds a valid game of idle processes, with the server's log in the game folder, unopened game files, and names in first-appearance order |
| Games.Game.constructor | proboj/game.py:54-71 | a new game holds its server, players, order, folder and arguments, and has not opened the game files |
| Games.Game.Reply | proboj/game.py:177-179 | a running server receives each line, newline-terminated, in order; a dead one raises `ProcessEndException` and receives nothing |
| Games.Game.Start | proboj/game.py:73-92 | the server runs and its stdin ends with the CONFIG block (player names in key order, the arguments and "."). The game files are open and empty, and every player is `Started`: left alone if it ran, otherwise running with an empty queue, empty pipes and its log opened |
| Games.Game.StartPlayers | proboj/game.py:90-92 | every player is `Started`. The order in which they start is not visible in the modelled state |
| Games.Game.StartPlayer | proboj/game.py:92 | the named player is `Started` and no other player changes |
| Games.Game.DoToObserver | proboj/game.py:137-141 | the observer file gains the payload joined by newlines plus a newline, the score file and every player are unchanged, and a running server is answered "OK" (a dead one raises) |
| Games.Game.DoScores | proboj/game.py:143-150 | a bad line raises before anything is written or sent; otherwise the score file gains the parsed map, the observer file and every player are unchanged, and the server is answered "OK" |
| Games.Game.DoToPlayer | proboj/game.py:152-169 | a missing or unknown name raises, and a closed player log raises, with nothing written. Otherwise the player is `Delivered`: the separator goes to its log, and a running player is sent the payload and "." and the server gets "OK", while a dead player gets nothing and the server gets "DIED". No other player and no game file changes |
| Games.Game.Deliver | proboj/game.py:156-169 | once the player is found: a closed log raises and nothing changes; otherwise the player is `Delivered` and the server hears `DeliveryAnswer` |
| Games.Game.DoReadPlayer | proboj/game.py:171-186 | an unknown name raises with nothing changed. Otherwise the player is `Relayed`: the reader runs, then the read; data gives "OK", data and "."; a dead player gives "DIED"; a timeout kills the player and gives "DIED" (`RelayAnswer`). The clock advances only by the read's wait, and no other player and no game file changes |
| Games.Game.Relay | proboj/game.py:173-186 | once the player is found: the reader and the read act as `Relayed` says, and the server hears `RelayAnswer` |
| Games.Game.DoKillPlayer | proboj/game.py:188-192 | an unknown name raises with nothing changed; otherwise only the named player changes, it is killed, and the server gets "OK" |
| Games.Game.KillPlayer | proboj/game.py:134 | the named player is killed and no other player changes |
| Games.Game.KillAll | proboj/game.py:133-134 | every player is killed and nothing else about any player changes |
| Games.Game.ReadCmd | proboj/game.py:121-129 | a dead server raises `ProcessEndException`: the server is only polled, and its pipes and log, the game files, every player and the clock are unchanged. Otherwise the server's output shrinks to what followed the first sentinel. The server is still running after a complete block; at end of file it has exited and is no longer tracked (`Absent`). The block before the sentinel is parsed and carried out as `Executed` says (the reply to the server, the effect on the named player, every other player unchanged, the game files, the clock), the loop stops exactly on `END`, and the game files and player logs stay open |
| Games.Game.Execute | proboj/game.py:131-194 | each verb runs its handler, and the result is `Executed`: an empty block and an unknown verb change no player, file or reply and continue; `END` kills every player, sends nothing and stops; each other verb has the effect of its handler above; only `READ PLAYER` moves the clock. The loop stops exactly on `END`, and the game files and player logs stay open |
| Games.Game.ExecutedStops | proboj/game.py:131-135 | `_read_cmd` returns False exactly for `END`: every other command continues or raises |
| Games.Game.ExecutedKeepsFiles | proboj/game.py:131-192 | no command closes a game file or a player's log |
| Games.Game.Mainloop | proboj/game.py:94-100 | the loop ends, because each command consumes output the server has already written. After the server ends or says `END` everything is torn down; after an exception the files stay open |
| Games.Game.Run | proboj/game.py:196-198 | start and then the main loop: a normal end leaves nothing running and every file closed |
| Games.Game.Teardown | proboj/game.py:102-119 | the server and every player are killed and their logs closed. The observer and score files are closed, and no pipe changes |
| Games.Game.ShutPlayers | proboj/game.py:105-107 | every player is killed and its log closed, and no pipe changes |
| Games.Game.ShutPlayer | proboj/game.py:106-107 | the named player is killed and its log closed, and no other player changes |
| Games.CollectScores | proboj/game.py:145-148 | the `SCORES` loop computes `ParseScores` of its lines |
| Games.ServerBlock | proboj/game.py:121-123 | a command the server writes, followed by a sentinel, is read as that command, and later output stays unread |

## Left out

- The stderr thread of `Process.start` (`_stderr_thread`) and all concurrency. The background reader is the explicit step `Player.Pump`, which runs just before a `READ PLAYER` read.
- What a child writes in reaction to its input. Its output is the state `stdout`: lines present when it is read. A process that starts empty-handed has nothing to read until its environment gives it lines, which the model does not describe.
- A running child with nothing left to write is treated as at end of file, so a read of it returns at once. The Python code would block until the child writes or exits.
- Players.Player.Pump: the reader's end-of-file loop, which keeps queuing "" while a child is exiting, is not modelled. A player read therefore never receives those empty lines.
- `Popen` failures, `shlex.split` of the commands, loading the JSON configuration and game description, `os.makedirs`, gzip and UTF-8 encoding, and the coloured console log (`Game.log`).
- Floating-point timeouts and wall-clock time. Time is a `Clock` of whole ticks, and an expired `get` costs budget+1 ticks.
- Text.ParseInt: covers ASCII digits with an optional sign and surrounding whitespace only. Underscores, other Unicode digits and other bases are not modelled.
- The JSON text of the score file and the observer file's bytes. The files are modelled as sequences of score maps and strings.
- `server_workdir` (`proboj/game.py:22-25`, `57`) is not part of this model (see above).
- The `IOError` swallowed when closing a file cannot occur in this model.
- Games.Game.Mainloop: its contract states only the state at exit (torn down, or files still open after an exception). What each pass of the loop does is stated by `Games.Game.ReadCmd`, but no contract relates a whole game to the sequence of commands the server wrote.
- Proc.Process.Read, Players.Player.Pump, Games.Game.Mainloop, Games.ServerBlock: a child's output is the list of lines it has written, and a child ends only when a read runs past its last line or it is killed. In the Python code, `read` (proboj/process.py:68) and the watchdog (proboj/player.py:29) poll before each `readline` and stop at the first poll that sees the child gone, so lines still in the pipe at exit are lost; a server that writes `END`, then "." and exits at once can lose the command. `Games.ServerBlock` and the termination of `Games.Game.Mainloop` hold only under the model's view. Python's `mainloop` does not terminate while the server keeps writing, which the model cannot express because output is finite.
- Games.Game.Run: states only what holds at exit, like `Games.Game.Mainloop`. A player log closed before the run is excluded by its precondition, because no public entry point can produce one.
