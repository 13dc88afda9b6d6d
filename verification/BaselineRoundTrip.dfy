/** Printing the baseline and parsing it back: exactly which keys and reasons survive. */
module BaselineRoundTrip {
  import opened Common
  import opened Baseline

  // ---- what a key and a reason must be like --------------------------------------------------------------------

  predicate HasSeparator(s: string) {
    exists i :: 0 <= i < |s| && SeparatorAt(s, i)
  }

  predicate EndsLikeSeparator(s: string) {
    |s| >= 3 && s[|s| - 3] == ' ' && s[|s| - 2] == ' ' && s[|s| - 1] == '#'
  }

  predicate PlainKey(k: string) {
    k != "" && Trimmed(k) && OneLine(k) && k[0] != '#' && !HasSeparator(k) && !EndsLikeSeparator(k)
  }

  predicate PlainReason(r: string) { Trimmed(r) && OneLine(r) }

  // ---- stripping -------------------------------------------------------------------------------------------------

  lemma {:induction false} LStripPart(s: string) returns (i: nat)
    ensures i <= |s| && LStrip(s) == s[i..] && (LStrip(s) != "" ==> !IsSpace(LStrip(s)[0]))
  {
    if s != "" && IsSpace(s[0]) {
      i := LStripPart(s[1..]);
      i := i + 1;
    } else {
      i := 0;
    }
  }

  lemma {:induction false} RStripPart(s: string) returns (i: nat)
    ensures i <= |s| && RStrip(s) == s[..i] && (RStrip(s) != "" ==> !IsSpace(RStrip(s)[|RStrip(s)| - 1]))
  {
    if s != "" && IsSpace(s[|s| - 1]) {
      i := RStripPart(s[..|s| - 1]);
      assert s[..|s| - 1][..i] == s[..i];
    } else {
      i := |s|;
    }
  }

  lemma StripPart(s: string) returns (i: nat, j: nat)
    ensures i <= j <= |s| && Strip(s) == s[i..j] && Trimmed(Strip(s))
  {
    j := RStripPart(s);
    i := LStripPart(RStrip(s));
    assert s[..j][i..] == s[i..j];
    if Strip(s) != "" {
      assert Strip(s)[|Strip(s)| - 1] == RStrip(s)[|RStrip(s)| - 1];
    }
  }

  lemma TrimmedStays(s: string)
    requires Trimmed(s)
    ensures Strip(s) == s && RStrip(s) == s && LStrip(s) == s
  {
  }

  // ---- what a parsed line is like ---------------------------------------------------------------------------------

  lemma PartOneLine(s: string, i: nat, j: nat)
    requires OneLine(s) && i <= j <= |s|
    ensures OneLine(s[i..j])
  {
  }

  /** A part of a string has a separator only where the string has one. */
  lemma PartSeparator(s: string, i: nat, j: nat)
    requires i <= j <= |s| && HasSeparator(s[i..j])
    ensures exists p :: i <= p && p + 4 <= j && SeparatorAt(s, p)
  {
    var q :| 0 <= q < |s[i..j]| && SeparatorAt(s[i..j], q);
    assert SeparatorAt(s, i + q);
  }

  lemma ParsedOneLine(raw: string)
    requires OneLine(raw) && ParseLine(raw).Some?
    ensures OneLine(ParseLine(raw).value.0) && Trimmed(ParseLine(raw).value.0) && PlainReason(ParseLine(raw).value.1)
  {
    var n := RStripPart(raw);
    var line := RStrip(raw);
    var (key, reason) := Partition(line);
    var a, b := StripPart(key);
    var c, d := StripPart(reason);
    PartOneLine(raw, 0, n);
    var i := FindFrom(line, 0);
    if i < |line| {
      PartOneLine(line, 0, i);
      PartOneLine(line, i + 4, |line|);
      assert line[i + 4..|line|] == line[i + 4..];
    }
    PartOneLine(key, a, b);
    PartOneLine(reason, c, d);
  }

  /** The key of a parsed line does not start like a comment and holds no separator. */
  lemma ParsedKey(raw: string)
    requires ParseLine(raw).Some?
    ensures var k := ParseLine(raw).value.0; k != "" && k[0] != '#' && !HasSeparator(k)
  {
    var line := RStrip(raw);
    var i := FindFrom(line, 0);
    var key := Partition(line).0;
    assert key == line[..i];
    var a, b := StripPart(key);
    var k := Strip(key);
    if HasSeparator(k) {
      PartSeparator(key, a, b);
      var p :| a <= p && p + 4 <= b && SeparatorAt(key, p);
      assert SeparatorAt(line, p);
      assert false;
    }
    FirstCharacter(line, i);
  }

  /** Stripping the front of a line or of the part before its separator finds the same character. */
  lemma FirstCharacter(line: string, i: nat)
    requires i <= |line| && (i < |line| ==> SeparatorAt(line, i)) && !Comment(line)
    ensures Strip(line[..i]) != "" && Strip(line[..i])[0] != '#'
  {
    var a := LStripPart(line);
    SkippedAreSpaces(line);
    var first := LStrip(line);
    assert first != "" by { if first == "" { BlankStrips(line); } }
    assert line[a] == first[0] && first[0] != '#';
    SeparatorAfter(line, i, a);
    StripFrom(line[..i], a);
  }

  /** A separator cannot stand before the first character that is no space, unless that is its `#`. */
  lemma SeparatorAfter(line: string, i: nat, a: nat)
    requires a < |line| && !IsSpace(line[a]) && line[a] != '#' && (forall j :: 0 <= j < a ==> IsSpace(line[j]))
    requires i <= |line| && (i < |line| ==> SeparatorAt(line, i))
    ensures a < i
  {
  }

  lemma {:induction false} SkippedAreSpaces(s: string)
    ensures forall j :: 0 <= j < |s| - |LStrip(s)| ==> IsSpace(s[j])
  {
    if s != "" && IsSpace(s[0]) {
      SkippedAreSpaces(s[1..]);
      forall j | 0 <= j < |s| - |LStrip(s)| ensures IsSpace(s[j]) {
        assert j > 0 ==> s[j] == s[1..][j - 1];
      }
    }
  }

  lemma {:induction false} BlankStrips(s: string)
    requires LStrip(s) == ""
    ensures Strip(s) == ""
  {
    SkippedAreSpaces(s);
    AllSpaces(s);
  }

  lemma {:induction false} AllSpaces(s: string)
    requires forall j :: 0 <= j < |s| ==> IsSpace(s[j])
    ensures RStrip(s) == ""
  {
    if s != "" {
      AllSpaces(s[..|s| - 1]);
    }
  }

  /** Spaces, then a character that is none: stripping starts there. */
  lemma StripFrom(s: string, a: nat)
    requires a < |s| && !IsSpace(s[a]) && forall j :: 0 <= j < a ==> IsSpace(s[j])
    ensures Strip(s) != "" && Strip(s)[0] == s[a]
  {
    var n := RStripPart(s);
    RStripKeeps(s, a);
    LStripTo(RStrip(s), a);
  }

  lemma {:induction false} RStripKeeps(s: string, a: nat)
    requires a < |s| && !IsSpace(s[a])
    ensures a < |RStrip(s)| && RStrip(s)[..a + 1] == s[..a + 1]
  {
    if IsSpace(s[|s| - 1]) {
      RStripKeeps(s[..|s| - 1], a);
      assert s[..|s| - 1][..a + 1] == s[..a + 1];
    }
  }

  lemma {:induction false} LStripTo(s: string, a: nat)
    requires a < |s| && !IsSpace(s[a]) && forall j :: 0 <= j < a ==> IsSpace(s[j])
    ensures LStrip(s) == s[a..]
  {
    if a > 0 {
      assert forall j :: 0 <= j < a - 1 ==> s[1..][j] == s[j + 1];
      LStripTo(s[1..], a - 1);
    }
  }

  // ---- one line ----------------------------------------------------------------------------------------------------

  /** All a key needs except that it must not end like a separator. */
  predicate AlmostPlain(k: string) {
    k != "" && Trimmed(k) && OneLine(k) && k[0] != '#' && !HasSeparator(k)
  }

  /** Where the first separator of a printed line is. */
  lemma FirstSeparator(key: string, reason: string)
    requires !HasSeparator(key)
    ensures var line := LineFor(key, reason);
            FindFrom(line, 0) == if EndsLikeSeparator(key) then |key| - 3 else |key|
  {
    var line := LineFor(key, reason);
    var at := if EndsLikeSeparator(key) then |key| - 3 else |key|;
    assert SeparatorAt(line, at);
    forall j | 0 <= j < at ensures !SeparatorAt(line, j) {
      if SeparatorAt(line, j) {
        NotAcross(key, reason, j);
      }
    }
    var i := FindFrom(line, 0);
    assert i <= at;
  }

  lemma SeparatorInside(key: string, reason: string, j: nat)
    requires j + 4 <= |key| && SeparatorAt(LineFor(key, reason), j)
    ensures HasSeparator(key)
  {
    assert SeparatorAt(key, j);
  }

  /** A separator that begins in the key and ends after it begins with the key's last three characters. */
  lemma NotAcross(key: string, reason: string, j: nat)
    requires !HasSeparator(key) && j < |key| && SeparatorAt(LineFor(key, reason), j)
    ensures EndsLikeSeparator(key) && j == |key| - 3
  {
    var line := LineFor(key, reason);
    if j + 4 <= |key| {
      SeparatorInside(key, reason, j);
    } else {
      assert line[|key|] == ' ' && line[|key| + 1] == ' ' && line[|key| + 2] == '#';
      assert j + 3 == |key|;
    }
  }

  lemma LineTrimmed(key: string, reason: string)
    requires AlmostPlain(key) && reason != "" && Trimmed(reason)
    ensures RStrip(LineFor(key, reason)) == LineFor(key, reason) && !Comment(LineFor(key, reason))
  {
    var line := LineFor(key, reason);
    assert line[0] == key[0] && line[|line| - 1] == reason[|reason| - 1];
  }

  /** What a printed line parses to: itself, unless the key ends like a separator, and then something
      shorter. */
  lemma PrintedLine(key: string, reason: string)
    requires AlmostPlain(key) && reason != "" && PlainReason(reason)
    ensures ParseLine(LineFor(key, reason)).Some?
    ensures var p := ParseLine(LineFor(key, reason)).value;
            if EndsLikeSeparator(key) then |p.0| < |key| else p == (key, reason)
  {
    var line := LineFor(key, reason);
    LineTrimmed(key, reason);
    FirstSeparator(key, reason);
    var i := FindFrom(line, 0);
    var a, b := StripPart(line[..i]);
    if !EndsLikeSeparator(key) {
      assert line[..|key|] == key && line[|key| + 4..] == reason;
      TrimmedStays(key);
      TrimmedStays(reason);
    }
  }

  // ---- the whole file -------------------------------------------------------------------------------------------------

  lemma {:induction false} BreakFound(line: string, rest: string)
    requires OneLine(line)
    ensures BeforeBreak(line + "\n" + rest) == |line|
  {
    var t := line + "\n" + rest;
    if line != "" {
      BreakFound(line[1..], rest);
      assert t[1..] == line[1..] + "\n" + rest;
      assert t[0] == line[0];
    }
  }

  lemma SplitOne(line: string, rest: string)
    requires OneLine(line)
    ensures SplitLines(line + "\n" + rest) == [line] + SplitLines(rest)
  {
    var t := line + "\n" + rest;
    BreakFound(line, rest);
    assert t[|line|] == '\n' && t[..|line|] == line && t[|line| + 1..] == rest;
  }

  lemma {:induction false} SplitJoined(lines: seq<string>, rest: string)
    requires forall i :: 0 <= i < |lines| ==> OneLine(lines[i])
    ensures SplitLines(JoinLines(lines) + rest) == lines + SplitLines(rest)
  {
    hide SplitLines, OneLine;
    if lines == [] {
      assert JoinLines(lines) + rest == rest;
    } else {
      var more := JoinLines(lines[1..]) + rest;
      assert JoinLines(lines) + rest == lines[0] + "\n" + more;
      SplitOne(lines[0], more);
      SplitJoined(lines[1..], rest);
    }
  }

  lemma {:induction false} ParseAppend(a: seq<string>, b: seq<string>)
    requires ParseLines(a) == map[]
    ensures ParseLines(a + b) == ParseLines(b)
  {
    if b == [] {
      assert a + b == a;
    } else {
      ParseAppend(a, b[..|b| - 1]);
      assert (a + b)[..|a + b| - 1] == a + b[..|b| - 1];
    }
  }

  lemma {:induction false} HeaderParsesToNothing(header: seq<CommentLine>)
    ensures ParseLines(header) == map[]
  {
    if header != [] {
      HeaderParsesToNothing(header[..|header| - 1]);
      CommentSkipped(header[|header| - 1]);
    }
  }

  lemma CommentSkipped(c: CommentLine)
    ensures ParseLine(c).None?
  {
    RStripKeeps(c, 0);
    assert RStrip(c)[..1] == c[..1];
    assert RStrip(c)[0] == c[0];
  }

  /** Where an entry of the parsed map came from. */
  lemma {:induction false} ParsedFrom(lines: seq<string>, k: string) returns (i: nat)
    requires k in ParseLines(lines)
    ensures i < |lines| && ParseLine(lines[i]) == Some((k, ParseLines(lines)[k]))
  {
    var entry := ParseLine(lines[|lines| - 1]);
    if entry.Some? && entry.value.0 == k {
      i := |lines| - 1;
    } else {
      i := ParsedFrom(lines[..|lines| - 1], k);
    }
  }

  lemma FormatLines(header: seq<CommentLine>, survivors: seq<string>, reasons: map<string, string>, todo: string)
    requires forall k :: k in survivors ==> OneLine(k) && OneLine(ReasonFor(k, reasons, todo))
    ensures SplitLines(Format(header, survivors, reasons, todo)) == header + Lines(Sort(survivors), reasons, todo)
  {
    hide Sort, ReasonFor, ParseLine;
    var keys := Sort(survivors);
    var lines := Lines(keys, reasons, todo);
    SortMembers(survivors);
    forall i | 0 <= i < |lines| ensures OneLine(lines[i]) {
      assert keys[i] in survivors;
      LineIsOne(keys[i], ReasonFor(keys[i], reasons, todo));
    }
    SplitJoined(lines, "");
    SplitJoined(header, JoinLines(lines));
    assert JoinLines(lines) + "" == JoinLines(lines);
    assert lines + SplitLines("") == lines;
  }

  lemma FormatSplits(header: seq<CommentLine>, survivors: seq<string>, reasons: map<string, string>, todo: string)
    requires forall k :: k in survivors ==> OneLine(k) && OneLine(ReasonFor(k, reasons, todo))
    ensures Parse(Format(header, survivors, reasons, todo)) == ParseLines(Lines(Sort(survivors), reasons, todo))
  {
    hide Sort, ReasonFor, ParseLine, SplitLines, Format;
    FormatLines(header, survivors, reasons, todo);
    HeaderParsesToNothing(header);
    ParseAppend(header, Lines(Sort(survivors), reasons, todo));
  }

  lemma {:induction false} JoinEnds(lines: seq<string>)
    ensures var text := JoinLines(lines); text == "" || text[|text| - 1] == '\n'
  {
    if lines != [] {
      JoinEnds(lines[1..]);
    }
  }

  lemma FormatEnds(header: seq<CommentLine>, survivors: seq<string>, reasons: map<string, string>, todo: string)
    ensures var text := Format(header, survivors, reasons, todo); text == "" || text[|text| - 1] == '\n'
  {
    hide JoinLines, Sort, Lines;
    JoinEnds(header);
    JoinEnds(Lines(Sort(survivors), reasons, todo));
  }

  /** What the printed file is, line by line: the header, then one line a survivor, each with its reason or
      the TODO, in the order of `sorted`; and every line is ended. */
  lemma FileReads(header: seq<CommentLine>, survivors: seq<string>, reasons: map<string, string>, todo: string) returns (keys: seq<string>, lines: seq<string>)
    requires forall k :: k in survivors ==> OneLine(k) && OneLine(ReasonFor(k, reasons, todo))
    ensures Ordered(keys) && multiset(keys) == multiset(survivors) && |lines| == |keys|
    ensures forall i :: 0 <= i < |keys| ==> lines[i] == keys[i] + "  # " + if keys[i] in reasons && reasons[keys[i]] != "" then reasons[keys[i]] else todo
    ensures var text := Format(header, survivors, reasons, todo);
            SplitLines(text) == header + lines && (text != "" ==> text[|text| - 1] == '\n') && Parse(text) == ParseLines(lines)
  {
    hide Sort, ReasonFor, ParseLine, Less, SplitLines, Format, JoinLines, OneLine, Parse, ParseLines;
    keys := Sort(survivors);
    lines := Lines(keys, reasons, todo);
    SortOrdered(survivors);
    FormatLines(header, survivors, reasons, todo);
    FormatSplits(header, survivors, reasons, todo);
    FormatEnds(header, survivors, reasons, todo);
  }

  lemma LineIsOne(key: string, reason: string)
    requires OneLine(key) && OneLine(reason)
    ensures OneLine(LineFor(key, reason))
  {
    var line := LineFor(key, reason);
    forall i | 0 <= i < |line| ensures !IsBreak(line[i]) {
      if |key| <= i < |key| + 4 {
        assert line[i] == SEPARATOR[i - |key|];
      } else if i >= |key| + 4 {
        assert line[i] == reason[i - |key| - 4];
      }
    }
  }

  /** The entry came back: with its own reason, or with the TODO if it had none. */
  predicate ComesBack(text: string, k: string, reason: string) {
    k in Parse(text) && Parse(text)[k] == reason
  }

  /** Whatever the text, nothing comes out of it that is not plain (except how a key may end). */
  lemma OnlyPlainComesBack(text: string, k: string, reason: string)
    requires ComesBack(text, k, reason)
    ensures AlmostPlain(k) && PlainReason(reason)
  {
    var lines := SplitLines(text);
    var i := ParsedFrom(lines, k);
    ParsedOneLine(lines[i]);
    ParsedKey(lines[i]);
  }

  lemma Longest(keys: seq<string>) returns (k: string)
    requires exists x :: x in keys && EndsLikeSeparator(x)
    ensures k in keys && EndsLikeSeparator(k) && forall x :: x in keys && EndsLikeSeparator(x) ==> |x| <= |k|
  {
    var x :| x in keys && EndsLikeSeparator(x);
    k := x;
    var i := 0;
    while i < |keys|
      invariant 0 <= i <= |keys| && k in keys && EndsLikeSeparator(k)
      invariant forall j :: 0 <= j < i && EndsLikeSeparator(keys[j]) ==> |keys[j]| <= |k|
    {
      if EndsLikeSeparator(keys[i]) && |keys[i]| > |k| {
        k := keys[i];
      }
      i := i + 1;
    }
  }

  ghost predicate AllComeBack(header: seq<CommentLine>, survivors: seq<string>, reasons: map<string, string>, todo: string) {
    forall k :: k in survivors ==> ComesBack(Format(header, survivors, reasons, todo), k, ReasonFor(k, reasons, todo))
  }

  ghost predicate AllPlain(survivors: seq<string>, reasons: map<string, string>, todo: string) {
    forall k :: k in survivors ==> PlainKey(k) && PlainReason(ReasonFor(k, reasons, todo))
  }

  lemma ComeBackAlmostPlain(header: seq<CommentLine>, survivors: seq<string>, reasons: map<string, string>, todo: string, k: string)
    requires AllComeBack(header, survivors, reasons, todo) && k in survivors
    ensures AlmostPlain(k) && PlainReason(ReasonFor(k, reasons, todo))
  {
    hide Format, Parse, AlmostPlain, PlainReason;
    OnlyPlainComesBack(Format(header, survivors, reasons, todo), k, ReasonFor(k, reasons, todo));
  }

  /** The longest key that ends like a separator can come from no line: its own parses to something
      shorter, and so does every other such key's. */
  lemma LongestIsLost(keys: seq<string>, reasons: map<string, string>, todo: string, k: string)
    requires todo != "" && forall x :: x in keys ==> AlmostPlain(x) && PlainReason(ReasonFor(x, reasons, todo))
    requires EndsLikeSeparator(k) && forall x :: x in keys && EndsLikeSeparator(x) ==> |x| <= |k|
    ensures k !in ParseLines(Lines(keys, reasons, todo))
  {
    hide ParseLine, AlmostPlain, PlainReason, EndsLikeSeparator, LineFor;
    if k in ParseLines(Lines(keys, reasons, todo)) {
      var i := ParsedFrom(Lines(keys, reasons, todo), k);
      assert keys[i] in keys;
      PrintedLine(keys[i], ReasonFor(keys[i], reasons, todo));
    }
  }

  lemma ComeBackPlain(header: seq<CommentLine>, survivors: seq<string>, reasons: map<string, string>, todo: string)
    requires todo != "" && AllComeBack(header, survivors, reasons, todo)
    ensures AllPlain(survivors, reasons, todo)
  {
    hide Format, Parse, Sort, EndsLikeSeparator, Trimmed, OneLine, HasSeparator, ReasonFor;
    forall k | k in survivors ensures AlmostPlain(k) && PlainReason(ReasonFor(k, reasons, todo)) {
      ComeBackAlmostPlain(header, survivors, reasons, todo, k);
    }
    if exists k :: k in survivors && EndsLikeSeparator(k) {
      FormatSplits(header, survivors, reasons, todo);
      SortMembers(survivors);
      var k := Longest(survivors);
      assert ComesBack(Format(header, survivors, reasons, todo), k, ReasonFor(k, reasons, todo));
      LongestIsLost(Sort(survivors), reasons, todo, k);
    }
  }

  /** Lines that each parse to a key and its reason parse to all of them. */
  lemma {:induction false} ParsePairs(lines: seq<string>, keys: seq<string>, reasons: map<string, string>, todo: string)
    requires |lines| == |keys| && forall i :: 0 <= i < |keys| ==> ParseLine(lines[i]) == Some((keys[i], ReasonFor(keys[i], reasons, todo)))
    ensures var m := ParseLines(lines); (forall k :: k in m <==> k in keys) && forall k :: k in m ==> m[k] == ReasonFor(k, reasons, todo)
  {
    hide ParseLine, ReasonFor;
    if lines != [] {
      var n := |lines| - 1;
      ParsePairs(lines[..n], keys[..n], reasons, todo);
      assert keys == keys[..n] + [keys[n]];
    }
  }

  lemma PlainPrinted(k: string, reason: string)
    requires PlainKey(k) && PlainReason(reason) && reason != ""
    ensures ParseLine(LineFor(k, reason)) == Some((k, reason))
  {
    hide ParseLine, LineFor;
    PrintedLine(k, reason);
  }

  lemma PlainLines(keys: seq<string>, reasons: map<string, string>, todo: string)
    requires todo != "" && AllPlain(keys, reasons, todo)
    ensures forall i :: 0 <= i < |keys| ==> ParseLine(Lines(keys, reasons, todo)[i]) == Some((keys[i], ReasonFor(keys[i], reasons, todo)))
  {
    hide ParseLine, LineFor, ReasonFor, PlainKey, PlainReason;
    forall i | 0 <= i < |keys| ensures ParseLine(Lines(keys, reasons, todo)[i]) == Some((keys[i], ReasonFor(keys[i], reasons, todo))) {
      assert keys[i] in keys;
      PlainPrinted(keys[i], ReasonFor(keys[i], reasons, todo));
    }
  }

  lemma PlainAreOneLine(survivors: seq<string>, reasons: map<string, string>, todo: string)
    requires AllPlain(survivors, reasons, todo)
    ensures forall k :: k in survivors ==> OneLine(k) && OneLine(ReasonFor(k, reasons, todo))
  {
    hide OneLine, ReasonFor, Trimmed, HasSeparator, EndsLikeSeparator;
  }

  lemma PlainComesBack(header: seq<CommentLine>, survivors: seq<string>, reasons: map<string, string>, todo: string)
    requires todo != "" && AllPlain(survivors, reasons, todo)
    ensures var m := Parse(Format(header, survivors, reasons, todo));
            (forall k :: k in m <==> k in survivors) && forall k :: k in m ==> m[k] == ReasonFor(k, reasons, todo)
  {
    hide ParseLine, Lines, Sort, Format, Parse, ReasonFor, PlainKey, PlainReason, OneLine;
    PlainAreOneLine(survivors, reasons, todo);
    FormatSplits(header, survivors, reasons, todo);
    SortMembers(survivors);
    var keys := Sort(survivors);
    PlainLines(keys, reasons, todo);
    ParsePairs(Lines(keys, reasons, todo), keys, reasons, todo);
  }

  /** The baseline round-trips: every survivor comes back with its reason, or with the TODO if it had
      none, exactly if every key is a trimmed line that is not empty, does not start with `#`, holds no
      separator and does not end in one but for its last blank, and every reason is a trimmed line. And
      then nothing else comes back. */
  lemma RoundTrip(header: seq<CommentLine>, survivors: seq<string>, reasons: map<string, string>)
    ensures AllComeBack(header, survivors, reasons, TODO) <==> AllPlain(survivors, reasons, TODO)
    ensures AllPlain(survivors, reasons, TODO) ==> Parse(Format(header, survivors, reasons, TODO)).Keys == Elements(survivors)
  {
    hide Format, Parse, PlainKey, PlainReason;
    if AllComeBack(header, survivors, reasons, TODO) {
      ComeBackPlain(header, survivors, reasons, TODO);
    }
    if AllPlain(survivors, reasons, TODO) {
      PlainComesBack(header, survivors, reasons, TODO);
    }
  }

  /** For reasons that are trimmed lines, or missing, only the keys matter. */
  lemma RoundTripOfKeys(header: seq<CommentLine>, survivors: seq<string>, reasons: map<string, string>)
    requires forall k :: k in reasons ==> PlainReason(reasons[k])
    ensures AllComeBack(header, survivors, reasons, TODO) <==> forall k :: k in survivors ==> PlainKey(k)
  {
    hide AllComeBack, PlainKey, PlainReason;
    RoundTrip(header, survivors, reasons);
    TodoIsPlain();
  }

  /** The TODO the script writes is such a reason. */
  lemma TodoIsPlain()
    ensures TODO != "" && PlainReason(TODO)
  {
  }
}
