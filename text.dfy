/** The few Python string operations the runner relies on: `str.strip`,
    `str.splitlines`, `str.split` (with and without `maxsplit=1`),
    `"sep".join`, `int(...)` on a decimal literal and `os.path.join`. */
module Text {

  /** Characters for which Python's `str.isspace` holds. */
  predicate IsSpace(c: char) {
    c == ' ' || c == '\t' || c == '\n' || c == '\r' || c == '\U{B}' || c == '\U{C}'
    || ('\U{1C}' <= c <= '\U{1F}') || c == '\U{85}' || c == '\U{A0}' || c == '\U{1680}'
    || ('\U{2000}' <= c <= '\U{200A}') || c == '\U{2028}' || c == '\U{2029}'
    || c == '\U{202F}' || c == '\U{205F}' || c == '\U{3000}'
  }

  /** Characters at which Python's `str.splitlines` ends a line. */
  predicate IsLineBreak(c: char) {
    c == '\n' || c == '\r' || c == '\U{B}' || c == '\U{C}' || c == '\U{1C}' || c == '\U{1D}'
    || c == '\U{1E}' || c == '\U{85}' || c == '\U{2028}' || c == '\U{2029}'
  }

  predicate NoBreaks(s: string) {
    forall i :: 0 <= i < |s| ==> !IsLineBreak(s[i])
  }

  /** Index of the first whitespace character, or `|s|` when there is none. */
  function FirstSpace(s: string): (i: nat)
    ensures i <= |s|
    ensures forall j :: 0 <= j < i ==> !IsSpace(s[j])
    ensures i < |s| ==> IsSpace(s[i])
  {
    if s == [] then 0
    else if IsSpace(s[0]) then 0
    else 1 + FirstSpace(s[1..])
  }

  /** Index of the first line-break character, or `|s|` when there is none. */
  function FirstBreak(s: string): (i: nat)
    ensures i <= |s|
    ensures forall j :: 0 <= j < i ==> !IsLineBreak(s[j])
    ensures i < |s| ==> IsLineBreak(s[i])
  {
    if s == [] then 0
    else if IsLineBreak(s[0]) then 0
    else 1 + FirstBreak(s[1..])
  }

  /** `s.lstrip()`: the suffix left after dropping leading whitespace. */
  function LStrip(s: string): (r: string)
    ensures |r| <= |s|
    ensures r == [] || !IsSpace(r[0])
  {
    if s != [] && IsSpace(s[0]) then LStrip(s[1..]) else s
  }

  /** `lstrip()` keeps a suffix and drops only whitespace before it. */
  lemma {:induction false} LStripDropsSpace(s: string)
    ensures LStrip(s) == s[|s| - |LStrip(s)|..]
    ensures forall j :: 0 <= j < |s| - |LStrip(s)| ==> IsSpace(s[j])
  {
    if s != [] && IsSpace(s[0]) {
      LStripDropsSpace(s[1..]);
      assert forall j :: 1 <= j < |s| ==> s[j] == s[1..][j - 1];
    }
  }

  /** `s.rstrip()`: the prefix left after dropping trailing whitespace. */
  function RStrip(s: string): (r: string)
    ensures |r| <= |s|
    ensures r == [] || !IsSpace(r[|r| - 1])
  {
    if s != [] && IsSpace(s[|s| - 1]) then RStrip(s[..|s| - 1]) else s
  }

  /** `rstrip()` keeps a prefix and drops only whitespace after it. */
  lemma {:induction false} RStripDropsSpace(s: string)
    ensures RStrip(s) == s[..|RStrip(s)|]
    ensures forall j :: |RStrip(s)| <= j < |s| ==> IsSpace(s[j])
  {
    if s != [] && IsSpace(s[|s| - 1]) {
      RStripDropsSpace(s[..|s| - 1]);
    }
  }

  /** `s.strip()`. */
  function Strip(s: string): string {
    RStrip(LStrip(s))
  }

  /** `strip()` keeps the middle of `s`, from the first non-whitespace
      character to the last, and drops only whitespace around it. */
  lemma StripSlice(s: string)
    ensures var r, k := Strip(s), |s| - |LStrip(s)|;
      k + |r| <= |s| && r == s[k..k + |r|]
      && (r == [] || (!IsSpace(r[0]) && !IsSpace(r[|r| - 1])))
      && (forall j :: 0 <= j < k ==> IsSpace(s[j]))
      && (forall j :: k + |r| <= j < |s| ==> IsSpace(s[j]))
  {
    var t := LStrip(s);
    var r := RStrip(t);
    var k := |s| - |t|;
    LStripDropsSpace(s);
    RStripDropsSpace(t);
    assert forall j :: 0 <= j < k ==> IsSpace(s[j]);
    assert |r| <= |t| && t == s[k..];
    assert r == t[..|r|];
    assert r != [] ==> r[0] == t[0] && !IsSpace(r[0]);
    SliceOfSuffix(s, k, |r|);
    forall j | k + |r| <= j < |s|
      ensures IsSpace(s[j])
    {
      assert s[j] == t[j - k];
    }
  }

  lemma SliceOfSuffix(s: string, k: nat, n: nat)
    requires k + n <= |s|
    ensures s[k..][..n] == s[k..k + n]
  {
  }

  /** A string with no whitespace at either end is its own `strip()`. */
  lemma StripTrimmed(s: string)
    requires s == [] || (!IsSpace(s[0]) && !IsSpace(s[|s| - 1]))
    ensures Strip(s) == s
  {
  }

  /** `s[n:]` in Python: whatever `s[:n]` leaves. */
  function Drop(s: string, n: nat): (r: string)
    ensures Take(s, n) + r == s
  {
    if n <= |s| then s[n..] else []
  }

  /** `s[:n]` in Python: the prefix of length `n`, or all of `s` when `n` is
      past the end. */
  function Take(s: string, n: nat): (r: string)
    ensures r <= s
    ensures |r| == if n <= |s| then n else |s|
  {
    if n <= |s| then s[..n] else s
  }

  /** `s.splitlines()`: lines without their terminators; `"\r\n"` ends one line,
      and a final terminator does not start an empty last line. */
  function SplitLines(s: string): (r: seq<string>)
    ensures r == [] <==> s == []
    ensures forall i :: 0 <= i < |r| ==> NoBreaks(r[i])
    decreases |s|
  {
    if s == [] then []
    else
      var i := FirstBreak(s);
      if i == |s| then [s]
      else
        var width := if s[i] == '\r' && i + 1 < |s| && s[i + 1] == '\n' then 2 else 1;
        [s[..i]] + SplitLines(s[i + width..])
  }

  /** `"".join(lines)`: plain concatenation. */
  function Concat(lines: seq<string>): string {
    if lines == [] then "" else lines[0] + Concat(lines[1..])
  }

  lemma {:induction false} ConcatSnoc(lines: seq<string>, last: string)
    ensures Concat(lines + [last]) == Concat(lines) + last
  {
    if lines != [] {
      assert (lines + [last])[1..] == lines[1..] + [last];
      ConcatSnoc(lines[1..], last);
    }
  }

  /** Each line with its newline, as a child writes lines to a pipe. */
  function Lined(lines: seq<string>): (r: seq<string>)
    ensures |r| == |lines|
    ensures forall i :: 0 <= i < |lines| ==> r[i] == lines[i] + "\n"
  {
    if lines == [] then [] else [lines[0] + "\n"] + Lined(lines[1..])
  }

  /** Sending `"\n".join(lines)` as one line writes exactly the lines, each
      with its newline. */
  lemma {:induction false} JoinLined(lines: seq<string>)
    requires lines != []
    ensures Join("\n", lines) + "\n" == Concat(Lined(lines))
  {
    if |lines| > 1 {
      JoinLined(lines[1..]);
      assert Lined(lines)[1..] == Lined(lines[1..]);
      assert Join("\n", lines) + "\n" == lines[0] + "\n" + (Join("\n", lines[1..]) + "\n");
    }
  }

  /** `sep.join(lines)`. */
  function Join(sep: string, lines: seq<string>): string {
    if lines == [] then ""
    else if |lines| == 1 then lines[0]
    else lines[0] + sep + Join(sep, lines[1..])
  }

  lemma FirstBreakAfterPrefix(a: string, b: string)
    requires NoBreaks(a)
    requires b != [] && IsLineBreak(b[0])
    ensures FirstBreak(a + b) == |a|
  {
    var s := a + b;
    assert s[|a|] == b[0];
    assert forall j :: 0 <= j < |a| ==> s[j] == a[j];
  }

  lemma FirstSpaceAfterWord(a: string, b: string)
    requires IsWord(a)
    requires b != [] && IsSpace(b[0])
    ensures FirstSpace(a + b) == |a|
  {
    var s := a + b;
    assert s[|a|] == b[0];
    assert forall j :: 0 <= j < |a| ==> s[j] == a[j];
  }

  /** Splitting newline-terminated lines gives the lines back: what a child
      wrote line by line is what the runner sees after `splitlines()`. */
  lemma {:induction false} SplitLinesOfLined(lines: seq<string>)
    requires forall i :: 0 <= i < |lines| ==> NoBreaks(lines[i])
    ensures SplitLines(Concat(Lined(lines))) == lines
  {
    if lines != [] {
      var head, tail := lines[0], Concat(Lined(lines[1..]));
      var s := Concat(Lined(lines));
      assert Lined(lines)[1..] == Lined(lines[1..]);
      assert s == head + ("\n" + tail);
      FirstBreakAfterPrefix(head, "\n" + tail);
      assert s[..|head|] == head;
      assert s[|head| + 1..] == tail;
      SplitLinesOfLined(lines[1..]);
    }
  }

  /** A non-empty run of non-whitespace characters. */
  predicate IsWord(w: string) {
    w != [] && forall i :: 0 <= i < |w| ==> !IsSpace(w[i])
  }

  /** `s.split()`: the maximal runs of non-whitespace, in order. */
  function Words(s: string): (r: seq<string>)
    ensures r == [] <==> LStrip(s) == []
    ensures forall w :: w in r ==> IsWord(w)
    decreases |s|
  {
    var t := LStrip(s);
    if t == [] then []
    else
      var i := FirstSpace(t);
      assert i >= 1;
      var w, rest := t[..i], Words(t[i..]);
      assert IsWord(w);
      [w] + rest
  }

  /** The `split()` scan as CPython writes it: one character at a time, with
      the word being built in `cur`; whitespace ends a word. */
  function ScanWords(s: string, cur: string): seq<string>
    decreases |s|
  {
    if s == [] then (if cur == [] then [] else [cur])
    else if IsSpace(s[0]) then (if cur == [] then [] else [cur]) + ScanWords(s[1..], [])
    else ScanWords(s[1..], cur + [s[0]])
  }

  /** Whitespace in front of the text does not change its words. */
  lemma WordsSkipSpace(s: string)
    requires s != [] && IsSpace(s[0])
    ensures Words(s) == Words(s[1..])
  {
    assert LStrip(s) == LStrip(s[1..]);
  }

  /** A word followed by whitespace (or by nothing) is the first word. */
  lemma WordsAfterWord(w: string, s: string)
    requires IsWord(w)
    requires s == [] || IsSpace(s[0])
    ensures Words(w + s) == [w] + Words(s)
  {
    var t := w + s;
    assert t[0] == w[0];
    assert LStrip(t) == t;
    if s == [] {
      assert t == w;
      assert FirstSpace(w) == |w|;
    } else {
      FirstSpaceAfterWord(w, s);
    }
    assert t[..|w|] == w && t[|w|..] == s;
  }

  /** The words of a finished word, or of nothing. */
  lemma WordsOfCurrent(cur: string)
    requires cur == [] || IsWord(cur)
    ensures Words(cur) == if cur == [] then [] else [cur]
  {
    if cur != [] {
      WordsAfterWord(cur, []);
      assert cur + [] == cur;
    }
  }

  /** A word in progress followed by whitespace is finished there. */
  lemma WordsAtSpace(s: string, cur: string)
    requires s != [] && IsSpace(s[0])
    requires cur == [] || IsWord(cur)
    ensures Words(cur + s) == (if cur == [] then [] else [cur]) + Words(s[1..])
  {
    WordsSkipSpace(s);
    if cur == [] {
      assert cur + s == s;
    } else {
      WordsAfterWord(cur, s);
    }
  }

  /** `Words` computes what the character scan computes. */
  lemma {:induction false} ScanWordsIsWords(s: string, cur: string)
    requires cur == [] || IsWord(cur)
    ensures ScanWords(s, cur) == Words(cur + s)
    decreases |s|
  {
    if s == [] {
      assert cur + s == cur;
      WordsOfCurrent(cur);
    } else if IsSpace(s[0]) {
      ScanWordsIsWords(s[1..], []);
      ScanAtSpace(s, cur);
    } else {
      ScanWordsIsWords(s[1..], cur + [s[0]]);
      ScanAtLetter(s, cur);
    }
  }

  /** The scan's step at whitespace, given the scan of the rest. */
  lemma ScanAtSpace(s: string, cur: string)
    requires s != [] && IsSpace(s[0])
    requires cur == [] || IsWord(cur)
    requires ScanWords(s[1..], []) == Words([] + s[1..])
    ensures ScanWords(s, cur) == Words(cur + s)
  {
    assert [] + s[1..] == s[1..];
    WordsAtSpace(s, cur);
  }

  /** The scan's step at a letter, given the scan of the rest. */
  lemma ScanAtLetter(s: string, cur: string)
    requires s != [] && !IsSpace(s[0])
    requires ScanWords(s[1..], cur + [s[0]]) == Words(cur + [s[0]] + s[1..])
    ensures ScanWords(s, cur) == Words(cur + s)
  {
    ConsTail(cur, s);
  }

  lemma ConsTail(cur: string, s: string)
    requires s != []
    ensures cur + [s[0]] + s[1..] == cur + s
  {
    assert [s[0]] + s[1..] == s;
  }

  /** `s.split(maxsplit=1)`: the first word and, when anything but whitespace
      follows it, the remainder with its leading whitespace removed. */
  function SplitOnce(s: string): (parts: seq<string>)
    ensures |parts| <= 2
    ensures |parts| >= 1 ==> IsWord(parts[0])
    ensures |parts| == 0 <==> LStrip(s) == []
    ensures |parts| == 2 ==> parts[1] != [] && !IsSpace(parts[1][0])
  {
    var t := LStrip(s);
    if t == [] then []
    else
      var i := FirstSpace(t);
      assert i >= 1;
      var word := t[..i];
      assert IsWord(word);
      var rest := LStrip(t[i..]);
      if rest == [] then [word] else [word, rest]
  }

  /** `name + " " + tag` splits back into `[name, tag]` when the name is one
      word and the tag starts with a non-blank. */
  lemma SplitOnceOfPair(name: string, tag: string)
    requires IsWord(name)
    requires tag != [] && !IsSpace(tag[0])
    ensures SplitOnce(name + " " + tag) == [name, tag]
  {
    var s := name + " " + tag;
    var rest := s[|name|..];
    assert s == name + rest;
    assert s[0] == name[0];
    assert LStrip(s) == s;
    FirstSpaceAfterWord(name, rest);
    assert s[..|name|] == name;
    assert rest[1..] == tag;
    assert LStrip(tag) == tag;
    assert LStrip(rest) == tag;
  }

  lemma SplitOnceOfWord(name: string)
    requires IsWord(name)
    ensures SplitOnce(name) == [name]
  {
    assert LStrip(name) == name;
    assert FirstSpace(name) == |name|;
    assert name[..|name|] == name;
    assert name[|name|..] == [];
  }

  predicate IsDigit(c: char) {
    '0' <= c <= '9'
  }

  predicate AllDigits(s: string) {
    forall i :: 0 <= i < |s| ==> IsDigit(s[i])
  }

  /** The value of a string of decimal digits, most significant first. */
  function DigitsValue(s: string): nat
    requires AllDigits(s)
  {
    if s == [] then 0
    else 10 * DigitsValue(s[..|s| - 1]) + (s[|s| - 1] as int - '0' as int)
  }

  /** `int(s)` for base ten: optional surrounding whitespace, an optional sign,
      then one or more ASCII digits. `None` stands for the `ValueError` it raises. */
  function ParseInt(s: string): (r: Option<int>)
    ensures r.Some? ==> Strip(s) != []
  {
    var t := Strip(s);
    if t == [] then None
    else
      var sign := if t[0] == '-' then -1 else 1;
      var digits := if t[0] == '-' || t[0] == '+' then t[1..] else t;
      if digits != [] && AllDigits(digits) then Some(sign * DigitsValue(digits)) else None
  }

  /** `t` is an optionally signed run of ASCII digits whose value is `v`. */
  predicate IsLiteral(t: string, v: int) {
    (t != [] && AllDigits(t) && v == DigitsValue(t))
    || (|t| >= 2 && t[0] == '+' && AllDigits(t[1..]) && v == DigitsValue(t[1..]))
    || (|t| >= 2 && t[0] == '-' && AllDigits(t[1..]) && v == -(DigitsValue(t[1..]) as int))
  }

  /** `int()` gives `v` exactly when the stripped text is a literal for `v`;
      anything else raises. */
  lemma ParseIntLiteral(s: string)
    ensures forall v :: ParseInt(s) == Some(v) <==> IsLiteral(Strip(s), v)
  {
    var t := Strip(s);
    if t != [] && (t[0] == '+' || t[0] == '-') {
      assert !IsDigit(t[0]);
    }
  }

  datatype Option<T> = None | Some(value: T)

  /** Decimal digits of a natural number, without leading zeros. */
  function NatDigits(n: nat): (s: string)
    ensures s != [] && AllDigits(s)
    ensures |s| > 1 ==> s[0] != '0'
  {
    if n < 10 then [('0' as int + n) as char]
    else NatDigits(n / 10) + [('0' as int + n % 10) as char]
  }

  /** `str(n)` for an integer. */
  function ShowInt(n: int): string {
    if n < 0 then "-" + NatDigits(-n) else NatDigits(n)
  }

  lemma {:induction false} DigitsValueOfNatDigits(n: nat)
    ensures DigitsValue(NatDigits(n)) == n
  {
    if n >= 10 {
      var s := NatDigits(n);
      assert s[..|s| - 1] == NatDigits(n / 10);
      DigitsValueOfNatDigits(n / 10);
    }
  }

  /** `int(str(n)) == n`. */
  lemma ParseShowInt(n: int)
    ensures ParseInt(ShowInt(n)) == Some(n)
  {
    var m: nat := if n < 0 then -n else n;
    var d := NatDigits(m);
    DigitsValueOfNatDigits(m);
    if n < 0 {
      ParseSigned(d);
      assert ShowInt(n) == "-" + d;
    } else {
      ParseUnsigned(d);
    }
  }

  /** A string of digits reads as its value. */
  lemma ParseUnsigned(d: string)
    requires d != [] && AllDigits(d)
    ensures ParseInt(d) == Some(DigitsValue(d))
  {
    assert !IsSpace(d[0]) && !IsSpace(d[|d| - 1]);
    StripTrimmed(d);
  }

  /** A minus sign and a string of digits read as the negated value. */
  lemma ParseSigned(d: string)
    requires d != [] && AllDigits(d)
    ensures ParseInt("-" + d) == Some(-(DigitsValue(d) as int))
  {
    var s := "-" + d;
    assert s[|s| - 1] == d[|d| - 1];
    assert !IsSpace(s[0]) && !IsSpace(s[|s| - 1]);
    StripTrimmed(s);
    assert Strip(s) == s && s[0] == '-' && s[1..] == d;
  }

  /** A plus sign and a string of digits read as the value. */
  lemma ParsePlus(d: string)
    requires d != [] && AllDigits(d)
    ensures ParseInt("+" + d) == Some(DigitsValue(d) as int)
  {
    var s := "+" + d;
    assert s[|s| - 1] == d[|d| - 1];
    assert !IsSpace(s[0]) && !IsSpace(s[|s| - 1]);
    StripTrimmed(s);
    assert Strip(s) == s && s[0] == '+' && s[1..] == d;
  }

  /** `os.path.join(a, b)`: an absolute `b` replaces `a`; otherwise one `/`
      separates them unless `a` is empty or already ends in `/`. */
  function PathJoin(a: string, b: string): (r: string)
    ensures |b| > 0 && b[0] == '/' ==> r == b
    ensures (|b| == 0 || b[0] != '/') ==> |r| >= |a| + |b| && r[..|a|] == a && r[|r| - |b|..] == b
  {
    if |b| > 0 && b[0] == '/' then b
    else if a == [] || a[|a| - 1] == '/' then a + b
    else a + "/" + b
  }
}
