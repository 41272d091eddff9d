/** The generic child-process wrapper (proboj/process.py). The operating-system
    child is abstract state: whether there is a handle and whether the child has
    ended, the lines written to its stdin, and the lines it has written to its
    stdout that nobody has read yet. */
module Proc {
  import opened Text
  import opened Framing

  /** The `_process` handle: none, a running child, or a child that has ended
      but whose exit status `poll` has not collected yet. */
  datatype ChildState = Absent | Alive | Exited

  /** An output file or log: never opened, open with what was written to it so
      far, or closed with what it holds. */
  datatype Sink<T> = Unopened | Open(items: seq<T>) | Closed(items: seq<T>)

  /** Where the child's stderr goes. */
  datatype Stderr = DevNull | Pipe

  /** The outcome of a framed read; `ProcessEnded` and `TimedOut` stand for the
      `ProcessEndException` and `TimeoutError` the Python code raises. */
  datatype ReadResult = Received(data: string) | ProcessEnded | TimedOut

  /** The handle after `poll`: an ended child is forgotten, the rest stays. */
  function Polled(c: ChildState): (r: ChildState)
    ensures r != Exited
    ensures r == Alive <==> c == Alive
    ensures c != Exited ==> r == c
  {
    if c == Exited then Absent else c
  }

  /** The handle after `kill`: a running child ends; otherwise `kill` only polls. */
  function Killed(c: ChildState): (r: ChildState)
    ensures r != Alive
    ensures c == Alive <==> r == Exited
  {
    if c == Alive then Exited else Polled(c)
  }

  /** A sink after `close`: an open one is closed with its contents; closing a
      closed or never-opened one changes nothing. */
  function Shut<T>(s: Sink<T>): (r: Sink<T>)
    ensures !r.Open?
    ensures r.Unopened? <==> s.Unopened?
    ensures !s.Unopened? ==> r.items == s.items
  {
    match s
    case Open(items) => Closed(items)
    case _ => s
  }

  /** The log after `open_log`: opened only when a log file is configured and
      no log object exists yet (a closed log object still counts as existing). */
  function Reopened(log: Sink<string>, logfile: string): (r: Sink<string>)
    ensures r != log <==> logfile != "" && log.Unopened?
    ensures r != log ==> r == Open([])
  {
    if logfile != "" && log.Unopened? then Open([]) else log
  }

  /** Opening a log twice is opening it once. */
  lemma ReopenedIdempotent(log: Sink<string>, logfile: string)
    ensures Reopened(Reopened(log, logfile), logfile) == Reopened(log, logfile)
  {
  }

  /** The stderr choice of `get_popen_kwargs`. */
  function StderrFor(logfile: string): (e: Stderr)
    ensures e == Pipe <==> logfile != ""
  {
    if logfile != "" then Pipe else DevNull
  }

  class Process {
    const command: string
    /** Empty when no log file is configured (Python's `None` and `""` are both false). */
    const logfile: string
    var child: ChildState
    var stdin: seq<string>
    var stdout: seq<string>
    var log: Sink<string>

    constructor (command: string, logfile: string)
      ensures this.command == command && this.logfile == logfile
      ensures child == Absent && stdin == [] && stdout == [] && log == Unopened
    {
      this.command := command;
      this.logfile := logfile;
      child, stdin, stdout, log := Absent, [], [], Unopened;
    }

    /** Reading steps this child can still give: one per unread line, plus the
        end of file of a running child. */
    function Pending(): nat
      reads this
    {
      |stdout| + (if child == Alive then 1 else 0)
    }

    method Poll() returns (alive: bool)
      modifies this`child
      ensures alive <==> old(child) == Alive
      ensures child == Polled(old(child))
    {
      if child == Absent {
        return false;
      }
      if child == Exited {
        child := Absent;
        return false;
      }
      return true;
    }

    method OpenLog()
      modifies this`log
      ensures log == Reopened(old(log), logfile)
    {
      if logfile == "" {
        return;
      }
      if !log.Unopened? {
        return;
      }
      log := Open([]);
    }

    /** Appends to an open log and does nothing without one; a log object
        that has been closed raises `ValueError` (`ok` is false). */
    method WriteLog(data: string) returns (ok: bool)
      modifies this`log
      ensures ok <==> !old(log).Closed?
      ensures log.Open? <==> old(log).Open?
      ensures log.Open? ==> log.items == old(log).items + [data]
      ensures !log.Open? ==> log == old(log)
    {
      if log.Closed? {
        return false;
      }
      if log.Open? {
        log := Open(log.items + [data]);
      }
      return true;
    }

    /** Closing cannot fail in this model, so the swallowed `IOError` never arises. */
    method CloseLog()
      modifies this`log
      ensures log == Shut(old(log))
    {
      if log.Open? {
        log := Closed(log.items);
      }
    }

    method GetPopenKwargs() returns (stderr: Stderr)
      modifies this`log
      ensures stderr == StderrFor(logfile)
      ensures log == Reopened(old(log), logfile)
    {
      stderr := DevNull;
      if logfile != "" {
        OpenLog();
        stderr := Pipe;
      }
    }

    /** Spawns a child unless one is running; a new child starts with empty pipes. */
    method Start()
      modifies this
      ensures child == Alive
      ensures old(child) == Alive ==>
        stdin == old(stdin) && stdout == old(stdout) && log == old(log)
      ensures old(child) != Alive ==>
        stdin == [] && stdout == [] && log == Reopened(old(log), logfile)
    {
      var alive := Poll();
      if alive {
        return;
      }
      var _ := GetPopenKwargs();
      child, stdin, stdout := Alive, [], [];
    }

    /** Writes one line to the child; `false` is the `ProcessEndException`. */
    method Send(data: string) returns (ok: bool)
      modifies this`child, this`stdin
      ensures ok <==> old(child) == Alive
      ensures child == Polled(old(child))
      ensures stdin == if ok then old(stdin) + [data + "\n"] else old(stdin)
    {
      ok := Poll();
      if !ok {
        return;
      }
      stdin := stdin + [data + "\n"];
    }

    /** `stdout.readline()`: the next line the child wrote; with nothing left it
        returns `""`, end of file, and the child has ended. */
    method ReadLine() returns (line: string)
      requires child == Alive
      modifies this`child, this`stdout
      ensures old(stdout) != [] ==> line == old(stdout)[0] && stdout == old(stdout)[1..] && child == Alive
      ensures old(stdout) == [] ==> line == "" && stdout == [] && child == Exited
    {
      if stdout != [] {
        line := stdout[0];
        stdout := stdout[1..];
      } else {
        line := "";
        child := Exited;
      }
    }

    /** Reads raw lines up to the first sentinel and returns them concatenated,
        newlines included and the sentinel left out; when the child ends first,
        returns what it had written. */
    method Read() returns (r: ReadResult)
      modifies this`child, this`stdout
      ensures old(child) != Alive ==>
        r == ProcessEnded && child == Polled(old(child)) && stdout == old(stdout)
      ensures old(child) == Alive ==>
        var f := Cut(old(stdout));
        r == Received(Concat(f.payload)) && stdout == f.rest
        && child == (if f.complete then Alive else Absent)
    {
      var alive := Poll();
      if !alive {
        return ProcessEnded;
      }
      ghost var lines := stdout;
      ghost var i := 0;
      var data := "";
      alive := Poll();
      while alive
        invariant i <= |lines| && stdout == lines[i..]
        invariant data == Concat(lines[..i])
        invariant forall j :: 0 <= j < i ==> !IsSentinel(lines[j])
        invariant alive ==> child == Alive
        invariant !alive ==> child == Absent && i == |lines|
        decreases |stdout| + (if child == Alive then 1 else 0)
      {
        var line := ReadLine();
        if Strip(line) == "." {
          assert lines == lines[..i] + [line] + stdout;
          CutFramed(lines[..i], line, stdout);
          return Received(data);
        }
        if i < |lines| {
          assert lines[..i + 1] == lines[..i] + [lines[i]];
          ConcatSnoc(lines[..i], lines[i]);
          i := i + 1;
        } else {
          assert line == "";
        }
        data := data + line;
        alive := Poll();
      }
      assert lines[..|lines|] == lines;
      assert Cut(lines).payload == lines;
      return Received(data);
    }

    /** Kills a running child and waits for it; the handle stays until the next poll. */
    method Kill()
      modifies this`child
      ensures child == Killed(old(child))
    {
      var alive := Poll();
      if alive {
        child := Exited;
      }
    }

    method Teardown()
      modifies this`log
      ensures log == Shut(old(log))
    {
      CloseLog();
    }
  }
}
