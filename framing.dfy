/** Line framing shared by every child: a message is a run of lines ended by
    a line that reads "." once stripped (the sentinel). */
module Framing {
  import opened Text

  predicate IsSentinel(line: string) {
    Strip(line) == "."
  }

  /** Position of the first sentinel, or the number of lines when there is none. */
  function SentinelIndex(lines: seq<string>): (k: nat)
    ensures k <= |lines|
    ensures forall j :: 0 <= j < k ==> !IsSentinel(lines[j])
    ensures k < |lines| ==> IsSentinel(lines[k])
  {
    if lines == [] then 0
    else if IsSentinel(lines[0]) then 0
    else 1 + SentinelIndex(lines[1..])
  }

  /** What a reader takes from a stream of lines: the payload before the first
      sentinel, whether a sentinel was found, and what it leaves unread. */
  datatype Frame = Frame(payload: seq<string>, rest: seq<string>, complete: bool)

  function Cut(lines: seq<string>): (f: Frame)
    ensures forall j :: 0 <= j < |f.payload| ==> !IsSentinel(f.payload[j])
    ensures f.complete <==> exists j :: 0 <= j < |lines| && IsSentinel(lines[j])
    ensures f.complete ==>
      |f.payload| < |lines| && IsSentinel(lines[|f.payload|])
      && lines == f.payload + [lines[|f.payload|]] + f.rest
    ensures !f.complete ==> f.payload == lines && f.rest == []
  {
    var k := SentinelIndex(lines);
    if k < |lines| then
      assert lines == lines[..k] + [lines[k]] + lines[k + 1..];
      Frame(lines[..k], lines[k + 1..], true)
    else
      Frame(lines, [], false)
  }

  /** A reader recovers a message that ends in a sentinel exactly, and leaves
      whatever was written after the sentinel for the next read. */
  lemma CutFramed(msg: seq<string>, end: string, more: seq<string>)
    requires forall j :: 0 <= j < |msg| ==> !IsSentinel(msg[j])
    requires IsSentinel(end)
    ensures Cut(msg + [end] + more) == Frame(msg, more, true)
  {
    var lines := msg + [end] + more;
    assert lines[|msg|] == end;
    var k := SentinelIndex(lines);
    assert forall j :: 0 <= j < |msg| ==> lines[j] == msg[j];
    assert k == |msg|;
    assert lines[..k] == msg;
    assert lines[k + 1..] == more;
  }

  /** The sentinel as a child writes it, with its newline. */
  lemma SentinelLine()
    ensures IsSentinel(".\n") && IsSentinel(".")
  {
    assert LStrip(".\n") == ".\n";
    assert RStrip(".\n") == RStrip(".");
    StripTrimmed(".");
  }
}
