/** The server's command language (the parsing half of `Game._read_cmd` in
    proboj/game.py): a command block is split into lines, the first line is the
    verb and the rest is the payload. */
module Commands {
  import opened Text

  datatype Command =
    | NoCommand                                        // the block had no lines
    | End
    | ToObserver(payload: seq<string>)
    | Scores(payload: seq<string>)
    | ToPlayer(args: seq<string>, payload: seq<string>) // `args`: the player name and an optional tag
    | ReadPlayer(which: string)
    | KillPlayer(which: string)
    | Unrecognised(verb: string)

  /** The six verb tests of `_read_cmd`, in the order the code makes them. */
  predicate IsEnd(verb: string) { verb == "END" }
  predicate IsToObserver(verb: string) { verb == "TO OBSERVER" }
  predicate IsScores(verb: string) { verb == "SCORES" }
  predicate IsToPlayer(verb: string) { Take(verb, 9) == "TO PLAYER" }
  predicate IsReadPlayer(verb: string) { Take(verb, 11) == "READ PLAYER" }
  predicate IsKillPlayer(verb: string) { Take(verb, 11) == "KILL PLAYER" }

  /** The tests are written as independent `if`s, not an `elif` chain; they
      can be read as one because no verb passes two of them. */
  lemma VerbTestsExclusive(verb: string)
    ensures IsEnd(verb) ==> !IsToObserver(verb) && !IsScores(verb) && !IsToPlayer(verb) && !IsReadPlayer(verb) && !IsKillPlayer(verb)
    ensures IsToObserver(verb) ==> !IsScores(verb) && !IsToPlayer(verb) && !IsReadPlayer(verb) && !IsKillPlayer(verb)
    ensures IsScores(verb) ==> !IsToPlayer(verb) && !IsReadPlayer(verb) && !IsKillPlayer(verb)
    ensures IsToPlayer(verb) ==> !IsReadPlayer(verb) && !IsKillPlayer(verb)
    ensures IsReadPlayer(verb) ==> !IsKillPlayer(verb)
  {
    if IsToObserver(verb) { assert Take(verb, 9)[3] == 'O'; }
    if IsToPlayer(verb) { assert verb[0] == 'T'; }
    if IsReadPlayer(verb) { assert verb[0] == 'R'; }
  }

  /** Classifies one verb line with its payload. */
  function Classify(verb: string, data: seq<string>): (c: Command)
    ensures c != NoCommand
    ensures c.Unrecognised? <==>
      !IsEnd(verb) && !IsToObserver(verb) && !IsScores(verb)
      && !IsToPlayer(verb) && !IsReadPlayer(verb) && !IsKillPlayer(verb)
    ensures c.ToObserver? || c.Scores? || c.ToPlayer? ==> c.payload == data
    ensures c.ToPlayer? ==> |c.args| <= 2 && forall a :: a in c.args ==> a != []
  {
    if IsEnd(verb) then End
    else if IsToObserver(verb) then ToObserver(data)
    else if IsScores(verb) then Scores(data)
    else if IsToPlayer(verb) then ToPlayer(SplitOnce(Strip(Drop(verb, 10))), data)
    else if IsReadPlayer(verb) then ReadPlayer(Strip(Drop(verb, 12)))
    else if IsKillPlayer(verb) then KillPlayer(Strip(Drop(verb, 12)))
    else Unrecognised(verb)
  }

  /** `command, *data = block.splitlines()` followed by the verb tests. */
  function ParseCommand(block: string): (c: Command)
    ensures c.NoCommand? <==> SplitLines(block) == []
  {
    var lines := SplitLines(block);
    if lines == [] then NoCommand else Classify(lines[0], lines[1..])
  }

  /** The lines a server writes to issue a command (before the closing "."). */
  function Render(c: Command): seq<string> {
    match c
    case NoCommand => []
    case End => ["END"]
    case ToObserver(payload) => ["TO OBSERVER"] + payload
    case Scores(payload) => ["SCORES"] + payload
    case ToPlayer(args, payload) =>
      var head := if |args| == 0 then "" else args[0];
      ["TO PLAYER " + head + (if |args| == 2 then " " + args[1] else "")] + payload
    case ReadPlayer(which) => ["READ PLAYER " + which]
    case KillPlayer(which) => ["KILL PLAYER " + which]
    case Unrecognised(verb) => [verb]
  }

  /** Text with no line break and no whitespace at either end. */
  predicate Trimmed(s: string) {
    NoBreaks(s) && (s == [] || (!IsSpace(s[0]) && !IsSpace(s[|s| - 1])))
  }

  predicate AllNoBreaks(lines: seq<string>) {
    forall i :: 0 <= i < |lines| ==> NoBreaks(lines[i])
  }

  /** Commands a server can write so that they are read back as written. */
  predicate WellFormed(c: Command) {
    match c
    case NoCommand => true
    case End => true
    case ToObserver(payload) => AllNoBreaks(payload)
    case Scores(payload) => AllNoBreaks(payload)
    case ToPlayer(args, payload) =>
      AllNoBreaks(payload) && 1 <= |args| <= 2 && IsWord(args[0])
      && (|args| == 2 ==> args[1] != [] && Trimmed(args[1]))
    case ReadPlayer(which) => Trimmed(which)
    case KillPlayer(which) => Trimmed(which)
    case Unrecognised(verb) =>
      NoBreaks(verb) && verb != [] && !IsEnd(verb) && !IsToObserver(verb) && !IsScores(verb)
      && !IsToPlayer(verb) && !IsReadPlayer(verb) && !IsKillPlayer(verb)
  }

  lemma BreakIsSpace(c: char)
    ensures IsLineBreak(c) ==> IsSpace(c)
  {
  }

  lemma WordHasNoBreaks(w: string)
    requires IsWord(w)
    ensures NoBreaks(w)
  {
    forall i | 0 <= i < |w| ensures !IsLineBreak(w[i]) {
      BreakIsSpace(w[i]);
    }
  }

  lemma NoBreaksConcat(a: string, b: string)
    requires NoBreaks(a) && NoBreaks(b)
    ensures NoBreaks(a + b)
  {
    assert forall i :: 0 <= i < |a + b| ==> (a + b)[i] == if i < |a| then a[i] else b[i - |a|];
  }

  /** A `TO PLAYER` verb line naming only a player parses back to that name. */
  lemma ToPlayerName(name: string)
    requires IsWord(name)
    ensures var verb := "TO PLAYER " + name;
      NoBreaks(verb) && IsToPlayer(verb) && SplitOnce(Strip(Drop(verb, 10))) == [name]
  {
    var verb := "TO PLAYER " + name;
    assert Take(verb, 9) == "TO PLAYER";
    assert Drop(verb, 10) == name;
    WordHasNoBreaks(name);
    NoBreaksConcat("TO PLAYER ", name);
    StripTrimmed(name);
    SplitOnceOfWord(name);
  }

  /** A `TO PLAYER` verb line with a tag parses back to the name and the tag. */
  lemma ToPlayerNameTag(name: string, tag: string)
    requires IsWord(name)
    requires tag != [] && Trimmed(tag)
    ensures var verb := "TO PLAYER " + name + " " + tag;
      NoBreaks(verb) && IsToPlayer(verb) && SplitOnce(Strip(Drop(verb, 10))) == [name, tag]
  {
    var rest := name + " " + tag;
    var verb := "TO PLAYER " + name + " " + tag;
    assert verb == "TO PLAYER " + rest;
    assert Take(verb, 9) == "TO PLAYER";
    assert Drop(verb, 10) == rest;
    WordHasNoBreaks(name);
    NoBreaksConcat(name, " ");
    NoBreaksConcat(name + " ", tag);
    NoBreaksConcat("TO PLAYER ", rest);
    assert rest[0] == name[0];
    assert rest[|rest| - 1] == tag[|tag| - 1];
    StripTrimmed(rest);
    SplitOnceOfPair(name, tag);
  }

  /** What a server writes is what the runner reads: for every well-formed
      command, splitting the newline-terminated lines of its rendering and
      classifying them gives the command back. */
  lemma ParseRender(c: Command)
    requires WellFormed(c)
    ensures ParseCommand(Concat(Lined(Render(c)))) == c
  {
    var lines := Render(c);
    RenderNoBreaks(c);
    SplitLinesOfLined(lines);
    if c != NoCommand {
      ClassifyRender(c);
    }
  }

  /** Every rendered line of a well-formed command is free of line breaks. */
  lemma RenderNoBreaks(c: Command)
    requires WellFormed(c)
    ensures AllNoBreaks(Render(c))
  {
    VerbsNoBreaks();
    if c.ToObserver? || c.Scores? {
      PayloadNoBreaks(Render(c)[0], c.payload);
    } else if c.ToPlayer? {
      ToPlayerNoBreaks(c.args, c.payload);
    } else if c.ReadPlayer? {
      NoBreaksConcat("READ PLAYER ", c.which);
    } else if c.KillPlayer? {
      NoBreaksConcat("KILL PLAYER ", c.which);
    }
  }

  lemma VerbsNoBreaks()
    ensures NoBreaks("END") && NoBreaks("TO OBSERVER") && NoBreaks("SCORES")
    ensures NoBreaks("READ PLAYER ") && NoBreaks("KILL PLAYER ")
  {
  }

  lemma ToPlayerNoBreaks(args: seq<string>, payload: seq<string>)
    requires WellFormed(ToPlayer(args, payload))
    ensures AllNoBreaks(Render(ToPlayer(args, payload)))
  {
    var lines := Render(ToPlayer(args, payload));
    ToPlayerVerbNoBreaks(args);
    PayloadNoBreaks(lines[0], payload);
    assert lines == [lines[0]] + payload;
  }

  lemma ToPlayerVerbNoBreaks(args: seq<string>)
    requires 1 <= |args| <= 2 && IsWord(args[0])
    requires |args| == 2 ==> args[1] != [] && Trimmed(args[1])
    ensures NoBreaks("TO PLAYER " + args[0] + (if |args| == 2 then " " + args[1] else ""))
  {
    var head := "TO PLAYER " + args[0];
    ToPlayerName(args[0]);
    if |args| == 2 {
      NoBreaksConcat(" ", args[1]);
      NoBreaksConcat(head, " " + args[1]);
    } else {
      assert head + "" == head;
    }
  }

  lemma PayloadNoBreaks(verb: string, payload: seq<string>)
    requires NoBreaks(verb) && AllNoBreaks(payload)
    ensures AllNoBreaks([verb] + payload)
  {
    var lines := [verb] + payload;
    assert forall i :: 1 <= i < |lines| ==> lines[i] == payload[i - 1];
  }

  /** The verb line of a rendered command classifies back to the command. */
  lemma ClassifyRender(c: Command)
    requires WellFormed(c) && c != NoCommand
    ensures Render(c) != [] && Classify(Render(c)[0], Render(c)[1..]) == c
  {
    var lines := Render(c);
    match c {
      case End =>
      case ToObserver(payload) =>
        assert lines[1..] == payload;
      case Scores(payload) =>
        assert lines[1..] == payload;
      case ToPlayer(args, payload) =>
        ClassifyToPlayer(args, payload);
      case ReadPlayer(which) =>
        ClassifyReadPlayer(which);
      case KillPlayer(which) =>
        ClassifyKillPlayer(which);
      case Unrecognised(verb) =>
    }
  }

  /** The `TO PLAYER` branch of `Classify`. */
  lemma ClassifyToPlayerBranch(verb: string, data: seq<string>)
    requires IsToPlayer(verb)
    ensures Classify(verb, data) == ToPlayer(SplitOnce(Strip(Drop(verb, 10))), data)
  {
    assert verb[0] == Take(verb, 9)[0] && verb[3] == Take(verb, 9)[3];
    assert !IsEnd(verb) && !IsToObserver(verb) && !IsScores(verb);
  }

  /** The `READ PLAYER` and `KILL PLAYER` branches of `Classify`. */
  lemma ClassifyTargetBranch(verb: string, data: seq<string>)
    requires verb != [] && (verb[0] == 'R' || verb[0] == 'K')
    ensures IsReadPlayer(verb) ==> Classify(verb, data) == ReadPlayer(Strip(Drop(verb, 12)))
    ensures IsKillPlayer(verb) ==> Classify(verb, data) == KillPlayer(Strip(Drop(verb, 12)))
  {
    assert !IsEnd(verb) && !IsToObserver(verb) && !IsScores(verb);
    assert !IsToPlayer(verb) by { assert Take(verb, 9)[0] == verb[0]; }
    assert IsKillPlayer(verb) ==> !IsReadPlayer(verb) by { assert Take(verb, 11)[0] == verb[0]; }
  }

  lemma ClassifyToPlayer(args: seq<string>, payload: seq<string>)
    requires WellFormed(ToPlayer(args, payload))
    ensures var lines := Render(ToPlayer(args, payload));
      lines != [] && Classify(lines[0], lines[1..]) == ToPlayer(args, payload)
  {
    var lines := Render(ToPlayer(args, payload));
    assert lines[1..] == payload;
    if |args| == 2 {
      ClassifyNameTag(args[0], args[1], payload);
      assert lines[0] == "TO PLAYER " + args[0] + " " + args[1];
      assert args == [args[0], args[1]];
    } else {
      ClassifyName(args[0], payload);
      assert lines[0] == "TO PLAYER " + args[0];
      assert args == [args[0]];
    }
  }

  lemma ClassifyName(name: string, payload: seq<string>)
    requires IsWord(name)
    ensures Classify("TO PLAYER " + name, payload) == ToPlayer([name], payload)
  {
    var verb := "TO PLAYER " + name;
    ToPlayerName(name);
    ClassifyToPlayerBranch(verb, payload);
  }

  lemma ClassifyNameTag(name: string, tag: string, payload: seq<string>)
    requires IsWord(name)
    requires tag != [] && Trimmed(tag)
    ensures Classify("TO PLAYER " + name + " " + tag, payload) == ToPlayer([name, tag], payload)
  {
    var verb := "TO PLAYER " + name + " " + tag;
    ToPlayerNameTag(name, tag);
    ClassifyToPlayerBranch(verb, payload);
  }

  lemma ClassifyReadPlayer(which: string)
    requires Trimmed(which)
    ensures Classify("READ PLAYER " + which, []) == ReadPlayer(which)
  {
    var verb := "READ PLAYER " + which;
    assert Take(verb, 11) == "READ PLAYER";
    assert Drop(verb, 12) == which;
    ClassifyTargetBranch(verb, []);
    StripTrimmed(which);
  }

  lemma ClassifyKillPlayer(which: string)
    requires Trimmed(which)
    ensures Classify("KILL PLAYER " + which, []) == KillPlayer(which)
  {
    var verb := "KILL PLAYER " + which;
    assert Take(verb, 11) == "KILL PLAYER";
    assert Drop(verb, 12) == which;
    ClassifyTargetBranch(verb, []);
    StripTrimmed(which);
  }

  /** The separator `TO PLAYER` writes to the player's log: the tag framed by
      four dashes when there is one, twenty dashes otherwise. */
  function Separator(args: seq<string>): (s: string)
    ensures |args| == 2 ==> s == "---- " + args[1] + " ----\n"
    ensures |args| != 2 ==> |s| == 21 && s[20] == '\n' && forall i :: 0 <= i < 20 ==> s[i] == '-'
  {
    if |args| == 2 then "---- " + args[1] + " ----\n" else "--------------------\n"
  }

  /** One `"name score"` line: `line.split()` must give exactly two words and
      the second must be an integer. */
  function ScoreEntry(line: string): (r: Option<(string, int)>)
    ensures r.Some? ==> IsWord(r.value.0) && |Words(line)| == 2 && r.value.0 == Words(line)[0]
  {
    var ws := Words(line);
    if |ws| != 2 then None
    else match ParseInt(ws[1])
      case None => None
      case Some(v) => Some((ws[0], v))
  }

  /** A score line is an entry exactly when it has two words and the second is
      an optionally signed run of digits; the score is that literal's value.
      Any other line makes the unpacking or `int()` raise. */
  lemma ScoreEntryExact(line: string)
    ensures ScoreEntry(line).Some? <==>
      |Words(line)| == 2 && exists v :: IsLiteral(Words(line)[1], v)
    ensures ScoreEntry(line).Some? ==> IsLiteral(Words(line)[1], ScoreEntry(line).value.1)
  {
    var ws := Words(line);
    if |ws| == 2 {
      assert ws[1] in ws;
      StripTrimmed(ws[1]);
      ParseIntLiteral(ws[1]);
    }
  }

  function Entries(lines: seq<string>): (es: seq<Option<(string, int)>>)
    ensures |es| == |lines|
    ensures forall i :: 0 <= i < |lines| ==> es[i] == ScoreEntry(lines[i])
  {
    if lines == [] then [] else [ScoreEntry(lines[0])] + Entries(lines[1..])
  }

  lemma EntriesSnoc(lines: seq<string>, i: nat)
    requires i < |lines|
    ensures Entries(lines[..i + 1]) == Entries(lines[..i]) + [ScoreEntry(lines[i])]
  {
    assert lines[..i + 1] == lines[..i] + [lines[i]];
  }

  /** The `scores` dictionary built entry by entry, or the index of the first
      entry that did not parse (where the loop raises). */
  datatype Fold = Folded(scores: map<string, int>) | FailedAt(index: nat)

  function FoldScores(es: seq<Option<(string, int)>>): (r: Fold)
    ensures r.FailedAt? ==>
      r.index < |es| && es[r.index].None? && forall j :: 0 <= j < r.index ==> es[j].Some?
    ensures r.Folded? ==> forall j :: 0 <= j < |es| ==> es[j].Some?
    decreases |es|
  {
    if es == [] then Folded(map[])
    else
      var n := |es| - 1;
      match FoldScores(es[..n])
      case FailedAt(i) => FailedAt(i)
      case Folded(m) =>
        match es[n]
        case None => FailedAt(n)
        case Some(e) => Folded(m[e.0 := e.1])
  }

  /** One more parsed entry extends a successful fold by one assignment. */
  lemma FoldSnoc(es: seq<Option<(string, int)>>, e: (string, int))
    requires FoldScores(es).Folded?
    ensures FoldScores(es + [Some(e)]) == Folded(FoldScores(es).scores[e.0 := e.1])
  {
    assert (es + [Some(e)])[..|es|] == es;
  }

  /** On success the dictionary holds exactly the names that appear, and a
      name's score is the one from the last entry that names it. */
  lemma FoldScoresLastWins(es: seq<Option<(string, int)>>, m: map<string, int>)
    requires FoldScores(es) == Folded(m)
    ensures forall name :: name in m <==> exists i :: 0 <= i < |es| && es[i].value.0 == name
    ensures forall i :: 0 <= i < |es| && (forall j :: i < j < |es| ==> es[j].value.0 != es[i].value.0) ==>
      es[i].value.0 in m && m[es[i].value.0] == es[i].value.1
  {
    FoldKeys(es, m);
    FoldLast(es, m);
  }

  lemma {:induction false} FoldKeys(es: seq<Option<(string, int)>>, m: map<string, int>)
    requires FoldScores(es) == Folded(m)
    ensures forall name :: name in m <==> exists i :: 0 <= i < |es| && es[i].value.0 == name
    decreases |es|
  {
    if es != [] {
      var n := |es| - 1;
      var init := es[..n];
      assert es == init + [es[n]];
      var m0 := FoldScores(init).scores;
      FoldKeys(init, m0);
      var e := es[n].value;
      FoldSnoc(init, e);
      forall name
        ensures name in m <==> exists i :: 0 <= i < |es| && es[i].value.0 == name
      {
        if name in m0 {
          var i :| 0 <= i < n && init[i].value.0 == name;
          assert es[i].value.0 == name;
        }
        if exists i :: 0 <= i < |es| && es[i].value.0 == name {
          var i :| 0 <= i < |es| && es[i].value.0 == name;
          if i < n {
            assert init[i].value.0 == name;
          }
        }
      }
    }
  }

  lemma FoldLast(es: seq<Option<(string, int)>>, m: map<string, int>)
    requires FoldScores(es) == Folded(m)
    ensures forall i :: 0 <= i < |es| && (forall j :: i < j < |es| ==> es[j].value.0 != es[i].value.0) ==>
      es[i].value.0 in m && m[es[i].value.0] == es[i].value.1
  {
    forall i | 0 <= i < |es| && (forall j :: i < j < |es| ==> es[j].value.0 != es[i].value.0)
      ensures es[i].value.0 in m && m[es[i].value.0] == es[i].value.1
    {
      FoldLastAt(es, m, i);
    }
  }

  lemma {:induction false} FoldLastAt(es: seq<Option<(string, int)>>, m: map<string, int>, i: nat)
    requires FoldScores(es) == Folded(m)
    requires i < |es| && forall j :: i < j < |es| ==> es[j].value.0 != es[i].value.0
    ensures es[i].value.0 in m && m[es[i].value.0] == es[i].value.1
    decreases |es|
  {
    var n := |es| - 1;
    var init := es[..n];
    assert es == init + [es[n]];
    FoldSnoc(init, es[n].value);
    if i < n {
      assert init[i] == es[i];
      assert forall j :: i < j < n ==> init[j] == es[j];
      FoldLastAt(init, FoldScores(init).scores, i);
    }
  }

  /** `ParseScores` as the handler sees it: the dictionary, or the first line
      that does not parse. */
  datatype ScoreParse = Parsed(scores: map<string, int>) | BadLine(line: string)

  function ParseScores(lines: seq<string>): (r: ScoreParse)
    ensures r.BadLine? <==> exists i :: 0 <= i < |lines| && ScoreEntry(lines[i]).None?
    ensures r.BadLine? ==> exists i :: (0 <= i < |lines| && r.line == lines[i]
      && ScoreEntry(lines[i]).None? && forall j :: 0 <= j < i ==> ScoreEntry(lines[j]).Some?)
  {
    var es := Entries(lines);
    match FoldScores(es)
    case Folded(m) => Parsed(m)
    case FailedAt(i) => BadLine(lines[i])
  }

  /** The fold fails at the first entry that is missing. */
  lemma FoldFailsAt(es: seq<Option<(string, int)>>, i: nat)
    requires i < |es| && es[i].None?
    requires FoldScores(es[..i]).Folded?
    ensures FoldScores(es) == FailedAt(i)
  {
    var pre := es[..i];
    assert forall j :: 0 <= j < i ==> pre[j] == es[j];
    var k := FoldScores(es).index;
    assert !(k < i) && !(i < k);
  }

  /** Parsing stops at the first line that is not a score. */
  lemma ParseScoresFailsAt(lines: seq<string>, i: nat)
    requires i < |lines| && ScoreEntry(lines[i]).None?
    requires FoldScores(Entries(lines[..i])).Folded?
    ensures ParseScores(lines) == BadLine(lines[i])
  {
    var es := Entries(lines);
    assert es[..i] == Entries(lines[..i]);
    FoldFailsAt(es, i);
  }

  /** Last-wins in terms of the payload lines. */
  lemma ParseScoresLastWins(lines: seq<string>, m: map<string, int>)
    requires ParseScores(lines) == Parsed(m)
    ensures forall i :: 0 <= i < |lines| ==> ScoreEntry(lines[i]).Some?
    ensures forall name :: name in m <==>
      exists i :: 0 <= i < |lines| && ScoreEntry(lines[i]).value.0 == name
    ensures forall i :: (0 <= i < |lines|
      && (forall j :: i < j < |lines| ==> ScoreEntry(lines[j]).value.0 != ScoreEntry(lines[i]).value.0)) ==>
      m[ScoreEntry(lines[i]).value.0] == ScoreEntry(lines[i]).value.1
  {
    var es := Entries(lines);
    FoldScoresLastWins(es, m);
  }

  /** The line a server writes for one score. */
  function ScoreLine(name: string, score: int): string {
    name + " " + ShowInt(score)
  }

  lemma WordsOfPair(a: string, b: string)
    requires IsWord(a) && IsWord(b)
    ensures Words(a + " " + b) == [a, b]
  {
    var s := a + " " + b;
    var rest := s[|a|..];
    assert s == a + rest;
    assert s[0] == a[0];
    assert LStrip(s) == s;
    FirstSpaceAfterWord(a, rest);
    assert s[..|a|] == a;
    assert rest[1..] == b;
    assert LStrip(b) == b;
    assert LStrip(rest) == b;
    assert FirstSpace(b) == |b|;
    assert b[..|b|] == b;
    assert b[|b|..] == [];
    assert Words(rest) == [b] + Words([]);
  }

  lemma ShowIntIsWord(n: int)
    ensures IsWord(ShowInt(n))
  {
    var s := ShowInt(n);
    var d := NatDigits(if n < 0 then -n else n);
    assert forall i :: 0 <= i < |d| ==> !IsSpace(d[i]);
    if n < 0 {
      assert forall i :: 1 <= i < |s| ==> s[i] == d[i - 1];
    }
  }

  /** A score line reads back as the name and score it was written from. */
  lemma ScoreEntryOfLine(name: string, score: int)
    requires IsWord(name)
    ensures ScoreEntry(ScoreLine(name, score)) == Some((name, score))
  {
    ShowIntIsWord(score);
    WordsOfPair(name, ShowInt(score));
    ParseShowInt(score);
  }

  /** Two score lines in a row fold into a two-entry dictionary. */
  lemma ParseTwoScores(a: string, x: int, b: string, y: int)
    requires IsWord(a) && IsWord(b)
    ensures ParseScores([ScoreLine(a, x), ScoreLine(b, y)]) == Parsed(map[a := x][b := y])
  {
    ScoreEntryOfLine(a, x);
    ScoreEntryOfLine(b, y);
    var es := Entries([ScoreLine(a, x), ScoreLine(b, y)]);
    assert es == [Some((a, x))] + [Some((b, y))];
    FoldSnoc([], (a, x));
    assert [] + [Some((a, x))] == [Some((a, x))];
    FoldSnoc([Some((a, x))], (b, y));
  }

  /** The body `"a 3\nb 7"` gives the dictionary `{"a": 3, "b": 7}`. */
  lemma ScoresExample()
    ensures ParseScores(["a 3", "b 7"]) == Parsed(map["a" := 3, "b" := 7])
  {
    assert ShowInt(3) == "3" && ShowInt(7) == "7";
    assert ScoreLine("a", 3) == "a" + " " + "3" == "a 3";
    assert ScoreLine("b", 7) == "b" + " " + "7" == "b 7";
    ParseTwoScores("a", 3, "b", 7);
  }
}
