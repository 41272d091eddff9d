/** A player (proboj/player.py): a process whose stdout a background reader
    moves into a queue, and whose reads are bounded by a time budget. */
module Players {
  import opened Text
  import opened Framing
  import opened Proc

  /** The wall clock, in whole ticks; it never goes back. */
  class Clock {
    var now: int

    constructor (start: int)
      ensures now == start
    {
      now := start;
    }

    /** Blocking on a queue that stays empty for `budget` ticks: the wait
        returns once the budget has run out, one tick past it. */
    method Wait(budget: nat)
      modifies this
      ensures now == old(now) + budget + 1
    {
      now := now + budget + 1;
    }
  }

  /** `os.path.join(gamedir, "logs", f"{name}.gz")`. */
  function LogPath(gamedir: string, name: string): string
  {
    PathJoin(PathJoin(gamedir, "logs"), name + ".gz")
  }

  /** Whatever the folder, the log file is named after the player, with the
      `.gz` extension. */
  lemma LogPathEnds(gamedir: string, name: string)
    ensures var p := LogPath(gamedir, name);
      |p| >= |name| + 3 && p[|p| - |name| - 3..] == name + ".gz"
  {
  }

  /** For an ordinary game folder and player name the log lives at
      `<gamedir>/logs/<name>.gz`. */
  lemma LogPathPlain(gamedir: string, name: string)
    requires gamedir != [] && gamedir[|gamedir| - 1] != '/'
    requires name == [] || name[0] != '/'
    ensures LogPath(gamedir, name) == gamedir + "/logs/" + name + ".gz"
  {
    var dir := gamedir + "/logs";
    assert PathJoin(gamedir, "logs") == dir;
    assert dir[|dir| - 1] == 's';
    var file := name + ".gz";
    assert file[0] != '/' by {
      if name == [] { assert file == ".gz"; } else { assert file[0] == name[0]; }
    }
    assert PathJoin(dir, file) == dir + "/" + file;
    assert dir + "/" + file == gamedir + "/logs/" + name + ".gz";
  }

  /** Every line with `strip()` applied. */
  function StripAll(lines: seq<string>): (r: seq<string>)
    ensures |r| == |lines|
    ensures forall i :: 0 <= i < |lines| ==> r[i] == Strip(lines[i])
  {
    if lines == [] then [] else [Strip(lines[0])] + StripAll(lines[1..])
  }

  /** What a read yields for a child that is (or is not) running, has queued
      `lines`, and has `timeout` ticks: the stripped lines before the first
      "." joined by newlines, or a timeout when no "." is queued. */
  function ReadOutcome(alive: bool, lines: seq<string>, timeout: int): (r: ReadResult)
    ensures r == ProcessEnded <==> !alive
    ensures r.Received? <==> alive && timeout >= 0 && Cut(lines).complete
  {
    if !alive then ProcessEnded
    else if timeout < 0 then TimedOut
    else
      var f := Cut(lines);
      if f.complete then Received(Join("\n", StripAll(f.payload))) else TimedOut
  }

  /** The queue a read leaves: what followed the ".", nothing once the wait
      ran out, and the queue as it was when the read could not start. */
  function Leftover(alive: bool, lines: seq<string>, timeout: int): seq<string>
  {
    if alive && timeout >= 0 then Cut(lines).rest else lines
  }

  /** How long a read waits: only a read that runs out of time waits, and it
      waits one tick past its budget. */
  function Waited(alive: bool, lines: seq<string>, timeout: int): nat
  {
    if alive && timeout >= 0 && !Cut(lines).complete then timeout + 1 else 0
  }

  /** A player that wrote a message and its "." is read back as the message
      (its lines stripped), however much it wrote after it. */
  lemma ReadFramed(msg: seq<string>, end: string, more: seq<string>, timeout: nat)
    requires forall j :: 0 <= j < |msg| ==> !IsSentinel(msg[j])
    requires IsSentinel(end)
    ensures ReadOutcome(true, msg + [end] + more, timeout) == Received(Join("\n", StripAll(msg)))
    ensures Leftover(true, msg + [end] + more, timeout) == more
    ensures Waited(true, msg + [end] + more, timeout) == 0
  {
    CutFramed(msg, end, more);
  }

  class Player {
    const name: string
    const timeout: int
    const proc: Process
    /** Lines the background reader has taken from stdout, oldest first. */
    var queue: seq<string>

    constructor (name: string, command: string, timeout: int, gamedir: string)
      ensures this.name == name && this.timeout == timeout && fresh(proc)
      ensures proc.command == command && proc.logfile == LogPath(gamedir, name)
      ensures proc.child == Absent && proc.stdin == [] && proc.stdout == [] && proc.log == Unopened
      ensures queue == []
    {
      this.name := name;
      this.timeout := timeout;
      proc := new Process(command, LogPath(gamedir, name));
      queue := [];
    }

    /** Starts the process unless it runs, and then gives it a fresh, empty queue. */
    method Start()
      modifies this, proc
      ensures proc.child == Alive
      ensures old(proc.child) == Alive ==>
        queue == old(queue) && proc.stdin == old(proc.stdin)
        && proc.stdout == old(proc.stdout) && proc.log == old(proc.log)
      ensures old(proc.child) != Alive ==>
        queue == [] && proc.stdin == [] && proc.stdout == []
        && proc.log == Reopened(old(proc.log), proc.logfile)
    {
      var alive := proc.Poll();
      if alive {
        return;
      }
      proc.Start();
      queue := [];
    }

    /** The background reader (`_watchdog_loop`), run while the child is alive
        and has written lines nobody has read: it appends them to the back of
        the queue in the order they were written. */
    method Pump()
      modifies this, proc
      ensures proc.stdin == old(proc.stdin) && proc.log == old(proc.log)
      ensures old(proc.child) == Alive ==>
        queue == old(queue) + old(proc.stdout) && proc.stdout == [] && proc.child == Alive
      ensures old(proc.child) != Alive ==>
        queue == old(queue) && proc.stdout == old(proc.stdout) && proc.child == Polled(old(proc.child))
    {
      var alive := proc.Poll();
      while alive && proc.stdout != []
        invariant alive ==> proc.child == Alive
        invariant old(proc.child) == Alive ==> alive && queue + proc.stdout == old(queue) + old(proc.stdout)
        invariant old(proc.child) != Alive ==>
          !alive && queue == old(queue) && proc.stdout == old(proc.stdout) && proc.child == Polled(old(proc.child))
        invariant proc.stdin == old(proc.stdin) && proc.log == old(proc.log)
        decreases |proc.stdout|
      {
        ghost var before := proc.stdout;
        var line := proc.ReadLine();
        assert before == [line] + proc.stdout;
        queue := queue + [line];
        alive := proc.Poll();
      }
    }

    /** Dequeues stripped lines up to the first "." and returns them joined by
        newlines. The budget is recomputed from one start time; once it is
        negative the read fails with `TimedOut` (the process is left running). */
    method Read(clock: Clock) returns (r: ReadResult)
      modifies this, proc, clock
      ensures proc.stdin == old(proc.stdin) && proc.stdout == old(proc.stdout) && proc.log == old(proc.log)
      ensures proc.child == Polled(old(proc.child))
      ensures r == ReadOutcome(old(proc.child) == Alive, old(queue), timeout)
      ensures queue == Leftover(old(proc.child) == Alive, old(queue), timeout)
      ensures clock.now == old(clock.now) + Waited(old(proc.child) == Alive, old(queue), timeout)
    {
      var alive := proc.Poll();
      if !alive {
        return ProcessEnded;
      }
      var start := clock.now;
      var data: seq<string> := [];
      ghost var lines := queue;
      ghost var i := 0;
      while true
        invariant i <= |lines| && queue == lines[i..]
        invariant data == StripAll(lines[..i])
        invariant i <= SentinelIndex(lines)
        invariant timeout < 0 ==> i == 0 && clock.now == start
        invariant clock.now == start || (timeout >= 0 && clock.now == start + timeout + 1 && i == |lines|)
        invariant proc.stdin == old(proc.stdin) && proc.stdout == old(proc.stdout) && proc.log == old(proc.log)
        invariant proc.child == Polled(old(proc.child))
        decreases |queue| + (if clock.now - start <= timeout then 1 else 0)
      {
        var budget := timeout - (clock.now - start);
        if budget < 0 {
          assert timeout >= 0 ==> !Cut(lines).complete && queue == [];
          return TimedOut;
        }
        if queue != [] {
          var line := Strip(queue[0]);
          queue := queue[1..];
          if line == "." {
            assert IsSentinel(lines[i]) && i == SentinelIndex(lines);
            assert Cut(lines) == Frame(lines[..i], queue, true);
            assert clock.now == start;
            break;
          }
          assert lines[..i + 1] == lines[..i] + [lines[i]];
          i := i + 1;
          data := data + [line];
        } else {
          clock.Wait(budget);
        }
      }
      return Received(Join("\n", data));
    }
  }
}
