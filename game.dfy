/** One game (proboj/game.py): the server, the players the game description
    names, the observer and score files, and the loop that carries out the
    server's commands until the server ends or says `END`. */
module Games {
  import opened Text
  import opened Framing
  import opened Proc
  import opened Players
  import opened Commands

  /** The runner's configuration: the server's command, a command for every
      known player, and the read timeout (in clock ticks). */
  datatype Config = Config(server: string, players: map<string, string>, timeout: int)

  /** One game: its folder, the players taking part, the server's argument line. */
  datatype Description = Description(gamefolder: string, players: seq<string>, arguments: string)

  /** Why a command failed: the exception that leaves `_read_cmd`. */
  datatype Failure =
    | ServerEnded                // `ProcessEndException` from a read of or a send to the server
    | MissingPlayerName          // `IndexError`: `TO PLAYER` with no name
    | UnknownPlayer(name: string) // `KeyError`: a name that is not a player of this game
    | BadScoreLine(line: string)  // `ValueError`: a `SCORES` line that is not "name integer"
    | ClosedLog(name: string)     // `ValueError`: writing to a player log closed by a teardown

  /** `_read_cmd`'s answer: go on (`True`), stop (`False`) or an exception. */
  datatype Step = Continue | Stop | Raised(error: Failure)

  /** How `mainloop` ends: the server exited, it said `END`, or a command raised. */
  datatype Ending = ServerExited | GameOver | Crashed(error: Failure)

  /** The outcome of constructing a game. */
  datatype Setup = Created(game: Game) | ConfigError(message: string)

  predicate Distinct(s: seq<string>) {
    forall i, j :: 0 <= i < j < |s| ==> s[i] != s[j]
  }

  /** The names in order of first appearance, each once: the key order of a
      dictionary filled in the order of `s`. */
  function Dedup(s: seq<string>): (r: seq<string>)
    ensures Distinct(r)
    ensures forall x :: x in r <==> x in s
  {
    if s == [] then []
    else
      var n := |s| - 1;
      var init := Dedup(s[..n]);
      assert s == s[..n] + [s[n]];
      if s[n] in init then init else init + [s[n]]
  }

  /** Where `x` first occurs in `s`. */
  function FirstIndex(s: seq<string>, x: string): (k: nat)
    requires x in s
    ensures k < |s| && s[k] == x && forall j :: 0 <= j < k ==> s[j] != x
  {
    if s[0] == x then 0 else 1 + FirstIndex(s[1..], x)
  }

  lemma FirstIndexPrefix(s: seq<string>, n: nat, x: string)
    requires n <= |s| && x in s[..n]
    ensures FirstIndex(s, x) == FirstIndex(s[..n], x)
  {
    var k1 := FirstIndex(s[..n], x);
    assert s[k1] == x;
  }

  /** `Dedup` lists the names in the order they first appear in `s`. */
  lemma {:induction false} DedupOrder(s: seq<string>)
    ensures forall i, j :: 0 <= i < j < |Dedup(s)| ==> FirstIndex(s, Dedup(s)[i]) < FirstIndex(s, Dedup(s)[j])
  {
    if s != [] {
      var n := |s| - 1;
      var init := Dedup(s[..n]);
      var r := Dedup(s);
      assert s == s[..n] + [s[n]];
      DedupOrder(s[..n]);
      forall x | x in init
        ensures FirstIndex(s, x) == FirstIndex(s[..n], x) < n
      {
        FirstIndexPrefix(s, n, x);
      }
      if s[n] !in init {
        assert r == init + [s[n]];
        assert FirstIndex(s, s[n]) == n;
      }
    }
  }

  /** Names that are already distinct keep their order. */
  lemma {:induction false} DedupDistinct(s: seq<string>)
    requires Distinct(s)
    ensures Dedup(s) == s
  {
    if s != [] {
      var n := |s| - 1;
      DedupDistinct(s[..n]);
      assert s[n] !in s[..n];
      assert s == s[..n] + [s[n]];
    }
  }

  /** The first name that is not in `known`, if any. */
  function FirstUnknown(names: seq<string>, known: set<string>): (r: Option<string>)
    ensures r.None? <==> forall i :: 0 <= i < |names| ==> names[i] in known
    ensures r.Some? ==> exists i :: (0 <= i < |names| && names[i] == r.value && r.value !in known
      && forall j :: 0 <= j < i ==> names[j] in known)
  {
    if names == [] then None
    else if names[0] !in known then Some(names[0])
    else
      var r := FirstUnknown(names[1..], known);
      if r.Some? then
        var i :| 0 <= i < |names| - 1 && names[1..][i] == r.value && r.value !in known
          && forall j :: 0 <= j < i ==> names[1..][j] in known;
        assert names[i + 1] == r.value;
        r
      else r
  }

  /** The first unknown name is the one a left-to-right scan stops at. */
  lemma FirstUnknownAt(names: seq<string>, known: set<string>, i: nat)
    requires i < |names| && names[i] !in known
    requires forall j :: 0 <= j < i ==> names[j] in known
    ensures FirstUnknown(names, known) == Some(names[i])
  {
    var r := FirstUnknown(names, known);
    var k :| 0 <= k < |names| && names[k] == r.value && r.value !in known
      && forall j :: 0 <= j < k ==> names[j] in known;
    assert !(k < i) && !(i < k);
  }

  /** The error message names the player: the name can be read back from it. */
  function NotFound(name: string): (m: string)
    ensures |m| == |name| + 33 && m[7..7 + |name|] == name
  {
    "player " + name + " not found in config file."
  }

  /** A process as constructed: no child, nothing written or read, no log. */
  predicate Idle(p: Process)
    reads p
  {
    p.child == Absent && p.stdin == [] && p.stdout == [] && p.log == Unopened
  }

  lemma PrefixSnoc(s: seq<string>, i: nat, n: string)
    requires i < |s|
    ensures n in s[..i + 1] <==> n in s[..i] || n == s[i]
  {
    assert s[..i + 1] == s[..i] + [s[i]];
  }

  /** `p` is the freshly made player `name` of the configuration: its command,
      timeout and log file come from there, and nothing has run yet. */
  ghost predicate Made(p: Player, name: string, config: Config, gamefolder: string)
    reads p, p.proc
  {
    p.name == name && p.timeout == config.timeout
    && name in config.players && p.proc.command == config.players[name]
    && p.proc.logfile == LogPath(gamefolder, name)
    && p.queue == [] && Idle(p.proc)
  }

  /** The loop of `Game.__init__`: a player for every name of the game
      description, built from the configuration, in order; a name the
      configuration does not know stops it with a `ValueError`. A repeated
      name gets a new player in place of the earlier one. */
  method NewPlayers(config: Config, desc: Description) returns (players: map<string, Player>, unknown: Option<string>)
    ensures unknown == FirstUnknown(desc.players, config.players.Keys)
    ensures unknown.None? ==> forall n :: n in players <==> n in desc.players
    ensures forall a, b :: a in players && b in players && a != b ==>
      players[a] != players[b] && players[a].proc != players[b].proc
    ensures forall n :: n in players ==> fresh(players[n]) && fresh(players[n].proc)
    ensures forall n :: n in players ==> Made(players[n], n, config, desc.gamefolder)
  {
    players := map[];
    for i := 0 to |desc.players|
      invariant forall n :: n in players <==> n in desc.players[..i]
      invariant forall a, b :: a in players && b in players && a != b ==>
        players[a] != players[b] && players[a].proc != players[b].proc
      invariant forall n :: n in players ==> fresh(players[n]) && fresh(players[n].proc)
      invariant forall n :: n in players ==> Made(players[n], n, config, desc.gamefolder)
    {
      var name := desc.players[i];
      if name !in config.players {
        forall j | 0 <= j < i
          ensures desc.players[j] in config.players
        {
          assert desc.players[j] in desc.players[..i];
        }
        FirstUnknownAt(desc.players, config.players.Keys, i);
        return players, Some(name);
      }
      var p := new Player(name, config.players[name], config.timeout, desc.gamefolder);
      assert forall n :: n in players ==> players[n] != p && players[n].proc != p.proc;
      ghost var before := players;
      players := players[name := p];
      forall n
        ensures n in players <==> n in desc.players[..i + 1]
      {
        PrefixSnoc(desc.players, i, n);
        assert n in players <==> n in before || n == name;
      }
    }
    assert desc.players[..|desc.players|] == desc.players;
    forall j | 0 <= j < |desc.players|
      ensures desc.players[j] in config.players
    {
      assert desc.players[j] in desc.players;
    }
    return players, None;
  }

  /** `Game.__init__`: the server process, then the players; on an unknown
      name the game is not created. */
  method NewGame(config: Config, desc: Description) returns (s: Setup)
    ensures s.ConfigError? <==> FirstUnknown(desc.players, config.players.Keys).Some?
    ensures s.ConfigError? ==> s.message == NotFound(FirstUnknown(desc.players, config.players.Keys).value)
    ensures s.Created? ==>
      var g := s.game;
      fresh(g) && fresh(g.server) && g.Valid()
      && g.order == Dedup(desc.players)
      && g.gamefolder == desc.gamefolder && g.arguments == desc.arguments
      && g.observer == Unopened && g.scoreFile == Unopened
      && g.server.command == config.server && g.server.logfile == LogPath(desc.gamefolder, "__server")
      && Idle(g.server)
    ensures s.Created? ==> forall n :: n in s.game.players ==>
      fresh(s.game.players[n]) && fresh(s.game.players[n].proc)
    ensures s.Created? ==> forall n :: n in s.game.players ==>
      Made(s.game.players[n], n, config, desc.gamefolder)
  {
    var server := new Process(config.server, LogPath(desc.gamefolder, "__server"));
    var players, unknown := NewPlayers(config, desc);
    if unknown.Some? {
      return ConfigError(NotFound(unknown.value));
    }
    // The dictionary's key order: each name where it was first inserted.
    var order := Dedup(desc.players);
    var g := new Game(server, players, order, desc.gamefolder, desc.arguments);
    return Created(g);
  }

  /** What a command can change about one player: the lines its reader has
      queued, and its process. */
  datatype PlayerState = PlayerState(queue: seq<string>, child: ChildState, stdin: seq<string>,
                                     stdout: seq<string>, log: Sink<string>)

  /** What a command finds: the game files, what the server has been sent,
      and each player by name. */
  datatype Before = Before(observer: Sink<string>, scoreFile: Sink<map<string, int>>, stdin: seq<string>,
                           players: map<string, PlayerState>)

  ghost function StateOf(pl: Player): PlayerState
    reads pl, pl.proc
  {
    PlayerState(pl.queue, pl.proc.child, pl.proc.stdin, pl.proc.stdout, pl.proc.log)
  }

  /** A player that was `was` after `start`: it runs, and unless it already
      ran it has a fresh queue, fresh pipes and its log reopened. */
  predicate Started(now: PlayerState, was: PlayerState, logfile: string)
  {
    if was.child == Alive then now == was
    else now == PlayerState([], Alive, [], [], Reopened(was.log, logfile))
  }

  /** `TO PLAYER` on a player that was `was`: the separator is logged, and
      the payload and "." are sent if the player runs. */
  predicate Delivered(now: PlayerState, was: PlayerState, args: seq<string>, payload: seq<string>)
  {
    now == was.(child := Polled(was.child),
                 log := if was.log.Open? then Open(was.log.items + [Separator(args)]) else was.log,
                 stdin := was.stdin + if was.child == Alive then Lined([Join("\n", payload), "."]) else [])
  }

  /** What the server hears after `TO PLAYER`. */
  function DeliveryAnswer(was: PlayerState): seq<string>
  {
    if was.child == Alive then ["OK"] else ["DIED"]
  }

  /** The lines a `READ PLAYER` has to work with: those queued, then, if the
      player runs, everything still in its pipe. */
  function Gathered(was: PlayerState): seq<string>
  {
    was.queue + if was.child == Alive then was.stdout else []
  }

  /** `READ PLAYER` on a player that was `was`, with the clock going from
      `start` to `end`: the reader runs, then the read; a late player is
      killed. */
  predicate Relayed(now: PlayerState, was: PlayerState, timeout: int, start: int, end: int)
  {
    var alive, lines := was.child == Alive, Gathered(was);
    var r := ReadOutcome(alive, lines, timeout);
    now == was.(queue := Leftover(alive, lines, timeout),
                 child := if r.Received? then Alive else if r.TimedOut? then Exited else Polled(was.child),
                 stdout := if alive then [] else was.stdout)
    && end == start + Waited(alive, lines, timeout)
  }

  /** What the server hears after `READ PLAYER`: the data and ".", or
      "DIED" for a stopped or late player. */
  function RelayAnswer(was: PlayerState, timeout: int): seq<string>
  {
    var r := ReadOutcome(was.child == Alive, Gathered(was), timeout);
    if r.Received? then ["OK", r.data, "."] else ["DIED"]
  }

  /** The player is killed, and nothing else about it changes. */
  predicate KilledPlayer(now: PlayerState, was: PlayerState)
  {
    now == was.(child := Killed(was.child))
  }

  class Game {
    const server: Process
    const players: map<string, Player>
    /** The player names in the order the dictionary holds them. */
    const order: seq<string>
    const gamefolder: string
    const arguments: string
    /** The gzip'd observer log: one entry per `TO OBSERVER`. */
    var observer: Sink<string>
    /** The score file: one JSON object per `SCORES`, appended in turn. */
    var scoreFile: Sink<map<string, int>>

    constructor (server: Process, players: map<string, Player>, order: seq<string>,
                 gamefolder: string, arguments: string)
      ensures this.server == server && this.players == players && this.order == order
      ensures this.gamefolder == gamefolder && this.arguments == arguments
      ensures observer == Unopened && scoreFile == Unopened
    {
      this.server := server;
      this.players := players;
      this.order := order;
      this.gamefolder := gamefolder;
      this.arguments := arguments;
      observer := Unopened;
      scoreFile := Unopened;
    }

    /** Every player has its own process, apart from the server's, and
        `order` lists each player once. */
    ghost predicate Valid() {
      Distinct(order) && (forall n :: n in players <==> n in order)
      && (forall n :: n in players ==> players[n].proc != server)
      && (forall a, b :: a in players && b in players && a != b ==>
            players[a] != players[b] && players[a].proc != players[b].proc)
    }

    ghost function Members(): set<Player> {
      set n | n in players :: players[n]
    }

    ghost function Procs(): set<Process> {
      set n | n in players :: players[n].proc
    }

    /** While the loop runs: both game files are open and no player log has
        been closed. */
    ghost predicate Looping()
      reads this, Procs()
    {
      observer.Open? && scoreFile.Open? && forall n :: n in players ==> !players[n].proc.log.Closed?
    }

    /** The state after `teardown`: no child runs and every file is closed. */
    ghost predicate Finished()
      reads this, server, Procs()
    {
      server.child != Alive && !server.log.Open? && !observer.Open? && !scoreFile.Open?
      && forall n :: n in players ==> players[n].proc.child != Alive && !players[n].proc.log.Open?
    }

    /** What a command finds: the game files, what the server has been sent,
        and each player. */
    ghost function Snapshot(): Before
      reads this, server, Members(), Procs()
    {
      Before(observer, scoreFile, server.stdin, States())
    }

    /** Each player's state, by name. */
    ghost function States(): map<string, PlayerState>
      reads Members(), Procs()
    {
      map n | n in players :: StateOf(players[n])
    }

    /** The server's answer to a command: `lines` sent one `send` at a time
        after `sent`, to a server that is still running, and
        `ProcessEndException` if it is not. */
    ghost predicate Replied(lines: seq<string>, running: bool, step: Step, sent: seq<string>)
      reads server
    {
      (running ==> step == Continue && server.stdin == sent + Lined(lines))
      && (!running ==> step == Raised(ServerEnded) && server.stdin == sent)
    }

    /** The server's handle is polled, and nothing is read from it or logged. */
    twostate predicate Polls()
      reads server
    {
      server.child == Polled(old(server.child))
      && server.stdout == old(server.stdout) && server.log == old(server.log)
    }

    /** An answer sent by polling the server. */
    twostate predicate Answered(lines: seq<string>, step: Step)
      reads server
    {
      Polls() && Replied(lines, old(server.child) == Alive, step, old(server.stdin))
    }

    /** Every player but `target` is as it was in `was`. */
    ghost predicate Untouched(target: Option<string>, was: map<string, PlayerState>)
      reads Members(), Procs()
    {
      forall n :: n in players && target != Some(n) ==> n in was && StateOf(players[n]) == was[n]
    }

    /** Every player is killed, and nothing else about it changes. */
    ghost predicate AllKilled(was: map<string, PlayerState>)
      reads Members(), Procs()
    {
      forall n :: n in players ==> n in was && KilledPlayer(StateOf(players[n]), was[n])
    }

    /** The game files are as they were in `was`. */
    ghost predicate FilesKept(was: Before)
      reads this
    {
      observer == was.observer && scoreFile == was.scoreFile
    }

    /** A command that fails before doing anything: it raises `error`, and
        nothing is written anywhere. */
    ghost predicate Refused(error: Failure, step: Step, was: Before)
      reads this, server, Members(), Procs()
    {
      step == Raised(error) && FilesKept(was) && server.stdin == was.stdin && Untouched(None, was.players)
    }

    /** An empty block or an unknown verb: nothing changes, and the loop goes on. */
    ghost predicate Ignored(step: Step, was: Before)
      reads this, server, Members(), Procs()
    {
      step == Continue && FilesKept(was) && server.stdin == was.stdin && Untouched(None, was.players)
    }

    /** `END`: every player is killed, the server hears nothing, and the loop stops. */
    ghost predicate Ended(step: Step, was: Before)
      reads this, server, Members(), Procs()
    {
      step == Stop && FilesKept(was) && server.stdin == was.stdin && AllKilled(was.players)
    }

    /** `TO OBSERVER`: the payload, joined by newlines and ended by one, is
        appended to the observer file, and the server gets "OK". */
    ghost predicate ToObserverDone(payload: seq<string>, running: bool, step: Step, was: Before)
      reads this, server, Members(), Procs()
    {
      scoreFile == was.scoreFile && was.observer.Open?
      && observer == Open(was.observer.items + [Join("\n", payload) + "\n"])
      && Replied(["OK"], running, step, was.stdin) && Untouched(None, was.players)
    }

    /** `SCORES`: the scores are appended to the score file as one JSON
        object and the server gets "OK"; a bad line raises before anything is
        written. */
    ghost predicate ScoresDone(payload: seq<string>, running: bool, step: Step, was: Before)
      reads this, server, Members(), Procs()
    {
      match ParseScores(payload)
      case BadLine(line) => Refused(BadScoreLine(line), step, was)
      case Parsed(m) =>
        observer == was.observer && was.scoreFile.Open? && scoreFile == Open(was.scoreFile.items + [m])
        && Replied(["OK"], running, step, was.stdin) && Untouched(None, was.players)
    }

    /** `TO PLAYER <name> [<tag>]`: only the named player changes, as
        `Delivered` says, and the server hears "OK" or "DIED"; a missing or
        unknown name, or a closed log, raises. */
    ghost predicate ToPlayerDone(args: seq<string>, payload: seq<string>, running: bool, step: Step, was: Before)
      reads this, server, Members(), Procs()
    {
      if |args| == 0 then Refused(MissingPlayerName, step, was)
      else if args[0] !in players then Refused(UnknownPlayer(args[0]), step, was)
      else
        args[0] in was.players && var w := was.players[args[0]];
        if w.log.Closed? then Refused(ClosedLog(args[0]), step, was)
        else
          FilesKept(was) && Delivered(StateOf(players[args[0]]), w, args, payload)
          && Replied(DeliveryAnswer(w), running, step, was.stdin) && Untouched(Some(args[0]), was.players)
    }

    /** `READ PLAYER <name>`, with the clock going from `start` to `end`: only
        the named player changes, as `Relayed` says, and the server hears its
        data or "DIED"; an unknown name raises. */
    ghost predicate ReadPlayerDone(which: string, running: bool, step: Step, was: Before, start: int, end: int)
      reads this, server, Members(), Procs()
    {
      if which !in players then Refused(UnknownPlayer(which), step, was) && end == start
      else
        which in was.players && var pl, w := players[which], was.players[which];
        FilesKept(was) && Relayed(StateOf(pl), w, pl.timeout, start, end)
        && Replied(RelayAnswer(w, pl.timeout), running, step, was.stdin) && Untouched(Some(which), was.players)
    }

    /** `KILL PLAYER <name>`: only the named player changes: it is killed,
        and the server gets "OK"; an unknown name raises. */
    ghost predicate KillPlayerDone(which: string, running: bool, step: Step, was: Before)
      reads this, server, Members(), Procs()
    {
      if which !in players then Refused(UnknownPlayer(which), step, was)
      else
        which in was.players && FilesKept(was) && KilledPlayer(StateOf(players[which]), was.players[which])
        && Replied(["OK"], running, step, was.stdin) && Untouched(Some(which), was.players)
    }

    method Reply(lines: seq<string>) returns (step: Step)
      requires lines != []
      modifies server`child, server`stdin
      ensures Polls()
      ensures Replied(lines, old(server.child) == Alive, step, old(server.stdin))
    {
      for i := 0 to |lines|
        invariant server.child == if i == 0 then old(server.child) else Polled(old(server.child))
        invariant old(server.child) == Alive ==> server.stdin == old(server.stdin) + Lined(lines[..i])
        invariant old(server.child) != Alive ==> server.stdin == old(server.stdin) && i == 0
      {
        var ok := server.Send(lines[i]);
        if !ok {
          return Raised(ServerEnded);
        }
        assert Lined(lines[..i + 1]) == Lined(lines[..i]) + [lines[i] + "\n"];
      }
      assert lines[..|lines|] == lines;
      return Continue;
    }

    /** Starts the player named `which` unless it runs (`Player.Start`); no
        other player changes. */
    method StartPlayer(which: string)
      requires Valid() && which in players
      modifies players[which], players[which].proc
      ensures Started(StateOf(players[which]), old(StateOf(players[which])), players[which].proc.logfile)
      ensures forall n :: n in players && n != which ==> StateOf(players[n]) == old(StateOf(players[n]))
    {
      var pl := players[which];
      pl.Start();
      forall n | n in players && n != which
        ensures StateOf(players[n]) == old(StateOf(players[n]))
      {
        assert players[n] != pl && players[n].proc != pl.proc;
      }
    }

    /** `start`: the server runs and has been sent the configuration block, the
        game files are created empty, and every player runs. */
    method Start()
      requires Valid()
      modifies this, server, Members(), Procs()
      ensures server.child == Alive
      ensures server.stdin == (if old(server.child) == Alive then old(server.stdin) else [])
        + Lined(["CONFIG", Join(" ", order), arguments, "."])
      ensures server.stdout == (if old(server.child) == Alive then old(server.stdout) else [])
      ensures server.log == if old(server.child) == Alive then old(server.log) else Reopened(old(server.log), server.logfile)
      ensures observer == Open([]) && scoreFile == Open([])
      ensures forall n :: n in players ==>
        Started(StateOf(players[n]), old(StateOf(players[n])), players[n].proc.logfile)
    {
      server.Start();
      observer := Open([]);
      scoreFile := Open([]);
      var step := Reply(["CONFIG", Join(" ", order), arguments, "."]);
      forall n | n in players
        ensures StateOf(players[n]) == old(StateOf(players[n]))
      {
        assert players[n].proc != server;
      }
      StartPlayers();
    }

    /** Starts every player in game order (the loop of `start`). */
    method StartPlayers()
      requires Valid()
      modifies Members(), Procs()
      ensures forall n :: n in players ==>
        Started(StateOf(players[n]), old(StateOf(players[n])), players[n].proc.logfile)
    {
      for i := 0 to |order|
        invariant forall k :: 0 <= k < i ==>
          Started(StateOf(players[order[k]]), old(StateOf(players[order[k]])), players[order[k]].proc.logfile)
        invariant forall k :: i <= k < |order| ==> StateOf(players[order[k]]) == old(StateOf(players[order[k]]))
      {
        assert order[i] in players;
        StartPlayer(order[i]);
      }
      forall n | n in players
        ensures Started(StateOf(players[n]), old(StateOf(players[n])), players[n].proc.logfile)
      {
        assert n in order;
      }
    }

    /** `TO OBSERVER`: the payload, joined by newlines and ended by one, is
        appended to the observer file, and the server gets "OK". */
    method DoToObserver(payload: seq<string>) returns (step: Step)
      requires Valid()
      requires observer.Open?
      modifies this`observer, server`child, server`stdin
      ensures ToObserverDone(payload, old(server.child) == Alive, step, old(Snapshot()))
      ensures Polls()
    {
      observer := Open(observer.items + [Join("\n", payload) + "\n"]);
      step := Reply(["OK"]);
    }

    /** `SCORES`: the scores are appended to the score file as one JSON
        object and the server gets "OK"; a bad line raises before anything is
        written. */
    method DoScores(payload: seq<string>) returns (step: Step)
      requires Valid()
      requires scoreFile.Open?
      modifies this`scoreFile, server`child, server`stdin
      ensures ScoresDone(payload, old(server.child) == Alive, step, old(Snapshot()))
      ensures Polls() || unchanged(server)
    {
      var parsed := CollectScores(payload);
      match parsed
      case BadLine(line) =>
        return Raised(BadScoreLine(line));
      case Parsed(scores) =>
        scoreFile := Open(scoreFile.items + [scores]);
        step := Reply(["OK"]);
    }

    /** `TO PLAYER <name> [<tag>]`: a separator goes to the player's log, then
        the payload and "." go to the player and the server gets "OK", or
        "DIED" when the player is not running. */
    method DoToPlayer(args: seq<string>, payload: seq<string>) returns (step: Step)
      requires Valid()
      modifies server`child, server`stdin
      modifies if |args| > 0 && args[0] in players then {players[args[0]].proc} else {}
      ensures ToPlayerDone(args, payload, old(server.child) == Alive, step, old(Snapshot()))
      ensures Polls() || unchanged(server)
    {
      if |args| == 0 {
        return Raised(MissingPlayerName);
      }
      var which := args[0];
      if which !in players {
        return Raised(UnknownPlayer(which));
      }
      var pl := players[which];
      step := Deliver(which, pl, args, payload);
      // Only the named player's process has changed.
      forall n | n in players && n != which
        ensures StateOf(players[n]) == old(StateOf(players[n]))
      {
        assert players[n].proc != pl.proc && players[n].proc != server;
      }
    }

    /** `TO PLAYER` once the player `pl` named `which` is found: the separator
        goes to its log, then the payload and "." to the player; a closed log
        raises before anything is sent. */
    method Deliver(which: string, pl: Player, args: seq<string>, payload: seq<string>) returns (step: Step)
      requires pl.proc != server
      modifies pl.proc, server`child, server`stdin
      ensures old(pl.proc.log).Closed? ==>
        step == Raised(ClosedLog(which)) && unchanged(server) && unchanged(pl.proc)
      ensures !old(pl.proc.log).Closed? ==>
        Delivered(StateOf(pl), old(StateOf(pl)), args, payload) && Answered(DeliveryAnswer(old(StateOf(pl))), step)
    {
      var p := pl.proc;
      var logged := p.WriteLog(Separator(args));
      if !logged {
        return Raised(ClosedLog(which));
      }
      var ok := p.Send(Join("\n", payload));
      if ok {
        ok := p.Send(".");
        step := Reply(["OK"]);
      } else {
        step := Reply(["DIED"]);
      }
    }

    /** `READ PLAYER` once the player `pl` is found: the reader runs, then the
        read, and the answer goes to the server; a late player is killed. */
    method Relay(pl: Player, clock: Clock) returns (step: Step)
      requires pl.proc != server
      modifies pl, pl.proc, server`child, server`stdin, clock
      ensures Relayed(StateOf(pl), old(StateOf(pl)), pl.timeout, old(clock.now), clock.now)
      ensures Answered(RelayAnswer(old(StateOf(pl)), pl.timeout), step)
    {
      pl.Pump();
      var r := pl.Read(clock);
      match r {
        case Received(data) =>
          step := Reply(["OK", data, "."]);
        case ProcessEnded =>
          step := Reply(["DIED"]);
        case TimedOut =>
          pl.proc.Kill();
          step := Reply(["DIED"]);
      }
    }

    /** `READ PLAYER <name>`: the player's framed answer is relayed to the
        server as "OK", the data and "."; a player that is not running gives
        "DIED", and one that runs out of time is killed and gives "DIED". */
    method DoReadPlayer(which: string, clock: Clock) returns (step: Step)
      requires Valid()
      modifies server`child, server`stdin, clock
      modifies if which in players then {players[which]} else {}
      modifies if which in players then {players[which].proc} else {}
      ensures ReadPlayerDone(which, old(server.child) == Alive, step, old(Snapshot()), old(clock.now), clock.now)
      ensures Polls() || unchanged(server)
    {
      if which !in players {
        return Raised(UnknownPlayer(which));
      }
      var pl := players[which];
      step := Relay(pl, clock);
      // Only the named player and its process have changed.
      forall n | n in players && n != which
        ensures StateOf(players[n]) == old(StateOf(players[n]))
      {
        assert players[n] != pl && players[n].proc != pl.proc && players[n].proc != server;
      }
    }

    /** `KILL PLAYER <name>`: the player is killed and the server gets "OK". */
    method DoKillPlayer(which: string) returns (step: Step)
      requires Valid()
      modifies server`child, server`stdin
      modifies if which in players then {players[which].proc} else {}
      ensures KillPlayerDone(which, old(server.child) == Alive, step, old(Snapshot()))
      ensures Polls() || unchanged(server)
    {
      if which !in players {
        return Raised(UnknownPlayer(which));
      }
      players[which].proc.Kill();
      step := Reply(["OK"]);
    }

    /** Kills the player named `which`; no other player changes. */
    method KillPlayer(which: string)
      requires Valid() && which in players
      modifies players[which].proc
      ensures KilledPlayer(StateOf(players[which]), old(StateOf(players[which])))
      ensures forall n :: n in players && n != which ==> StateOf(players[n]) == old(StateOf(players[n]))
    {
      var p := players[which].proc;
      p.Kill();
      forall n | n in players && n != which
        ensures StateOf(players[n]) == old(StateOf(players[n]))
      {
        assert players[n].proc != p;
      }
    }

    /** `END`: every player is killed, in order. */
    method KillAll()
      requires Valid()
      modifies Procs()
      ensures AllKilled(old(States()))
    {
      for i := 0 to |order|
        invariant forall k :: 0 <= k < i ==>
          KilledPlayer(StateOf(players[order[k]]), old(StateOf(players[order[k]])))
        invariant forall k :: i <= k < |order| ==> StateOf(players[order[k]]) == old(StateOf(players[order[k]]))
      {
        assert order[i] in players;
        KillPlayer(order[i]);
      }
      forall n | n in players
        ensures n in old(States()) && KilledPlayer(StateOf(players[n]), old(States())[n])
      {
        assert n in order;
      }
    }

    /** `_read_cmd`: reads one block from the server and carries out the
        command it holds. */
    method ReadCmd(clock: Clock) returns (step: Step)
      requires Valid() && Looping()
      modifies this, server, Members(), Procs(), clock
      ensures Looping()
      ensures old(server.child) == Alive ==> server.Pending() < old(server.Pending())
      ensures old(server.child) != Alive ==>
        step == Raised(ServerEnded) && server.child == Polled(old(server.child))
        && server.stdin == old(server.stdin) && server.stdout == old(server.stdout)
        && server.log == old(server.log) && observer == old(observer) && scoreFile == old(scoreFile)
        && clock.now == old(clock.now) && States() == old(States())
      ensures old(server.child) == Alive ==>
        var f := Cut(old(server.stdout));
        server.stdout == f.rest && server.log == old(server.log)
        && server.child == (if f.complete then Alive else Absent)
        && Executed(ParseCommand(Concat(f.payload)), f.complete, step, old(Snapshot()), old(clock.now), clock.now)
        && (step == Stop <==> ParseCommand(Concat(f.payload)).End?)
    {
      ghost var was := Snapshot();
      var r := server.Read();
      // Reading touches only the server's output, not what `Executed` compares.
      forall n | n in players
        ensures StateOf(players[n]) == was.players[n]
      {
        assert players[n].proc != server;
      }
      if !r.Received? {
        assert States() == was.players;
        return Raised(ServerEnded);
      }
      assert Snapshot() == was;
      var c := ParseCommand(r.data);
      step := Execute(c, clock);
    }

    /** What carrying out `c` on the game as it was in `was` does, for a
        server that is still running (`running`) or has just ended, with the
        clock going from `start` to `end`: each verb as its own predicate
        says. Only `READ PLAYER` lets time pass. */
    ghost predicate Executed(c: Command, running: bool, step: Step, was: Before, start: int, end: int)
      reads this, server, Members(), Procs()
    {
      match c
      case NoCommand => Ignored(step, was) && end == start
      case Unrecognised(_) => Ignored(step, was) && end == start
      case End => Ended(step, was) && end == start
      case ToObserver(payload) => ToObserverDone(payload, running, step, was) && end == start
      case Scores(payload) => ScoresDone(payload, running, step, was) && end == start
      case ToPlayer(args, payload) => ToPlayerDone(args, payload, running, step, was) && end == start
      case ReadPlayer(which) => ReadPlayerDone(which, running, step, was, start, end)
      case KillPlayer(which) => KillPlayerDone(which, running, step, was) && end == start
    }

    /** Only `END` stops the loop: every other command continues or raises. */
    lemma ExecutedStops(c: Command, running: bool, step: Step, was: Before, start: int, end: int)
      requires Executed(c, running, step, was, start, end)
      ensures step == Stop <==> c.End?
    {
      match c
      case ToPlayer(args, payload) =>
        if |args| > 0 && args[0] in players && !was.players[args[0]].log.Closed? {
          assert Replied(DeliveryAnswer(was.players[args[0]]), running, step, was.stdin);
        }
      case ReadPlayer(which) =>
        if which in players {
          assert Replied(RelayAnswer(was.players[which], players[which].timeout), running, step, was.stdin);
        }
      case _ =>
    }

    /** No command closes a file the loop needs: the game files and every
        player's log stay as open as they were. */
    lemma ExecutedKeepsFiles(c: Command, running: bool, step: Step, was: Before, start: int, end: int)
      requires Executed(c, running, step, was, start, end)
      requires was.observer.Open? && was.scoreFile.Open?
      requires forall n :: n in was.players ==> !was.players[n].log.Closed?
      ensures Looping()
    {
      forall n | n in players
        ensures !players[n].proc.log.Closed?
      {
        assert n in was.players && !was.players[n].log.Closed?;
      }
    }

    /** The verb tests of `_read_cmd` and the handler each selects. A block
        with no lines (`ValueError` on unpacking) and an unrecognised verb are
        ignored; `END` kills every player and stops the loop. */
    method Execute(c: Command, clock: Clock) returns (step: Step)
      requires Valid() && Looping()
      requires server.child != Exited
      modifies this, server`child, server`stdin, Members(), Procs(), clock
      ensures Looping()
      ensures server.child == old(server.child)
      ensures Executed(c, old(server.child) == Alive, step, old(Snapshot()), old(clock.now), clock.now)
      ensures step == Stop <==> c.End?
    {
      ghost var was := Snapshot();
      match c {
        case NoCommand =>
          step := Continue;
        case End =>
          KillAll();
          step := Stop;
        case ToObserver(payload) =>
          step := DoToObserver(payload);
        case Scores(payload) =>
          step := DoScores(payload);
        case ToPlayer(args, payload) =>
          step := DoToPlayer(args, payload);
        case ReadPlayer(which) =>
          step := DoReadPlayer(which, clock);
        case KillPlayer(which) =>
          step := DoKillPlayer(which);
        case Unrecognised(_) =>
          step := Continue;
      }
      ExecutedStops(c, old(server.child) == Alive, step, was, old(clock.now), clock.now);
      ExecutedKeepsFiles(c, old(server.child) == Alive, step, was, old(clock.now), clock.now);
    }

    /** `mainloop`: commands are carried out while the server runs, until it
        says `END`; then everything is torn down. An exception from a command
        leaves the loop and skips the teardown, so the files stay open. */
    method Mainloop(clock: Clock) returns (e: Ending)
      requires Valid() && Looping()
      modifies this, server, Members(), Procs(), clock
      ensures e.Crashed? ==> Looping()
      ensures !e.Crashed? ==> Finished()
    {
      var alive := server.Poll();
      while alive
        invariant Looping()
        invariant alive <==> server.child == Alive
        decreases server.Pending()
      {
        var step := ReadCmd(clock);
        if step.Raised? {
          return Crashed(step.error);
        }
        if step == Stop {
          Teardown();
          return GameOver;
        }
        alive := server.Poll();
      }
      Teardown();
      return ServerExited;
    }

    /** `run`: start, then the main loop. */
    method Run(clock: Clock) returns (e: Ending)
      requires Valid()
      requires forall n :: n in players ==> !players[n].proc.log.Closed?
      modifies this, server, Members(), Procs(), clock
      ensures e.Crashed? ==> observer.Open? && scoreFile.Open?
      ensures !e.Crashed? ==> Finished()
    {
      Start();
      e := Mainloop(clock);
    }

    /** `teardown`: the server and every player are killed and their logs
        closed, then the observer and score files are closed. */
    method Teardown()
      requires Valid()
      modifies this`observer, this`scoreFile, server, Procs()
      ensures server.child == Killed(old(server.child)) && server.log == Shut(old(server.log))
      ensures server.stdin == old(server.stdin) && server.stdout == old(server.stdout)
      ensures forall n :: n in players ==>
        players[n].proc.child == Killed(old(players[n].proc.child)) && players[n].proc.log == Shut(old(players[n].proc.log))
      ensures forall n :: n in players ==>
        players[n].proc.stdin == old(players[n].proc.stdin) && players[n].proc.stdout == old(players[n].proc.stdout)
      ensures observer == Shut(old(observer)) && scoreFile == Shut(old(scoreFile))
      ensures Finished()
    {
      server.Kill();
      server.Teardown();
      ShutPlayers();
      observer := Shut(observer);
      scoreFile := Shut(scoreFile);
    }

    /** Kills the player named `which` and closes its log; no other player
        changes. */
    method ShutPlayer(which: string)
      requires Valid() && which in players
      modifies players[which].proc
      ensures var p := players[which].proc;
        p.child == Killed(old(p.child)) && p.log == Shut(old(p.log))
        && p.stdin == old(p.stdin) && p.stdout == old(p.stdout)
      ensures forall n :: n in players && n != which ==> StateOf(players[n]) == old(StateOf(players[n]))
    {
      var p := players[which].proc;
      p.Kill();
      p.Teardown();
      forall n | n in players && n != which
        ensures StateOf(players[n]) == old(StateOf(players[n]))
      {
        assert players[n].proc != p;
      }
    }

    /** The player half of `teardown`: every player is killed and its log
        closed, in order. */
    method ShutPlayers()
      requires Valid()
      modifies Procs()
      ensures forall n :: n in players ==>
        players[n].proc.child == Killed(old(players[n].proc.child)) && players[n].proc.log == Shut(old(players[n].proc.log))
      ensures forall n :: n in players ==>
        players[n].proc.stdin == old(players[n].proc.stdin) && players[n].proc.stdout == old(players[n].proc.stdout)
    {
      for i := 0 to |order|
        invariant forall k :: 0 <= k < i ==>
          var p := players[order[k]].proc;
          p.child == Killed(old(p.child)) && p.log == Shut(old(p.log))
          && p.stdin == old(p.stdin) && p.stdout == old(p.stdout)
        invariant forall k :: i <= k < |order| ==> StateOf(players[order[k]]) == old(StateOf(players[order[k]]))
      {
        assert order[i] in players;
        ShutPlayer(order[i]);
      }
      forall n | n in players
        ensures var p := players[n].proc;
          p.child == Killed(old(p.child)) && p.log == Shut(old(p.log))
          && p.stdin == old(p.stdin) && p.stdout == old(p.stdout)
      {
        assert n in order;
      }
    }
  }

  /** The `SCORES` loop: each line gives a name and a score, a later line for
      the same name overwrites the earlier one, and the first bad line raises. */
  method CollectScores(lines: seq<string>) returns (r: ScoreParse)
    ensures r == ParseScores(lines)
  {
    var scores: map<string, int> := map[];
    for i := 0 to |lines|
      invariant FoldScores(Entries(lines[..i])) == Folded(scores)
    {
      var entry := ScoreEntry(lines[i]);
      if entry.None? {
        ParseScoresFailsAt(lines, i);
        return BadLine(lines[i]);
      }
      EntriesSnoc(lines, i);
      FoldSnoc(Entries(lines[..i]), entry.value);
      scores := scores[entry.value.0 := entry.value.1];
    }
    assert lines[..|lines|] == lines;
    return Parsed(scores);
  }

  /** A command the server writes as newline-terminated lines followed by a
      sentinel line is read as that command, and what the server wrote after
      it stays unread. */
  lemma ServerBlock(c: Command, end: string, more: seq<string>)
    requires WellFormed(c)
    requires forall j :: 0 <= j < |Render(c)| ==> !IsSentinel(Render(c)[j] + "\n")
    requires IsSentinel(end)
    ensures var f := Cut(Lined(Render(c)) + [end] + more);
      f.complete && f.rest == more && ParseCommand(Concat(f.payload)) == c
  {
    var msg := Lined(Render(c));
    CutFramed(msg, end, more);
    ParseRender(c);
  }
}
