/** The mutation baseline (scripts/mutation_sweep.py): its printer and parser, and when printing and
    parsing give back what went in. */
module Baseline {
  import opened Common

  // ---- the string operations the script uses -------------------------------------------------------------------

  /** Where `str.splitlines` breaks. */
  predicate IsBreak(c: char) {
    var n := c as int;
    (10 <= n <= 13) || (28 <= n <= 30) || n == 0x85 || n == 0x2028 || n == 0x2029
  }

  /** What `str.strip` removes. */
  predicate IsSpace(c: char) {
    var n := c as int;
    (9 <= n <= 13) || (28 <= n <= 32) || n == 0x85 || n == 0xA0 || n == 0x1680 || (0x2000 <= n <= 0x200A)
    || n == 0x2028 || n == 0x2029 || n == 0x202F || n == 0x205F || n == 0x3000
  }

  predicate OneLine(s: string) {
    forall i :: 0 <= i < |s| ==> !IsBreak(s[i])
  }

  function BeforeBreak(t: string): (k: nat)
    ensures k <= |t| && OneLine(t[..k]) && (k < |t| ==> IsBreak(t[k]))
  {
    if t == "" || IsBreak(t[0]) then 0
    else
      var k := 1 + BeforeBreak(t[1..]);
      assert t[..k] == [t[0]] + t[1..][..k - 1];
      k
  }

  /** A carriage return and the newline after it are one break. */
  function BreakLength(t: string, k: nat): nat
    requires k < |t|
  {
    if t[k] == '\r' && k + 1 < |t| && t[k + 1] == '\n' then 2 else 1
  }

  function SplitLines(t: string): (r: seq<string>)
    ensures forall i :: 0 <= i < |r| ==> OneLine(r[i])
    decreases |t|
  {
    if t == "" then []
    else
      var k := BeforeBreak(t);
      if k == |t| then [t] else [t[..k]] + SplitLines(t[k + BreakLength(t, k)..])
  }

  function LStrip(s: string): string {
    if s != "" && IsSpace(s[0]) then LStrip(s[1..]) else s
  }

  function RStrip(s: string): string {
    if s != "" && IsSpace(s[|s| - 1]) then RStrip(s[..|s| - 1]) else s
  }

  function Strip(s: string): string { LStrip(RStrip(s)) }

  /** Nothing to strip. */
  predicate Trimmed(s: string) {
    s != "" ==> !IsSpace(s[0]) && !IsSpace(s[|s| - 1])
  }

  const SEPARATOR := "  # "

  /** The separator stands here. */
  predicate SeparatorAt(s: string, i: nat) {
    i + 4 <= |s| && s[i] == ' ' && s[i + 1] == ' ' && s[i + 2] == '#' && s[i + 3] == ' '
  }

  /** The first separator at or after `from`, or the end. */
  function FindFrom(s: string, from: nat): (i: nat)
    requires from <= |s|
    ensures from <= i <= |s| && (i < |s| ==> SeparatorAt(s, i)) && forall j :: from <= j < i ==> !SeparatorAt(s, j)
    decreases |s| - from
  {
    if from == |s| || SeparatorAt(s, from) then from else FindFrom(s, from + 1)
  }

  /** `str.partition`, without the separator itself. */
  function Partition(s: string): (string, string) {
    var i := FindFrom(s, 0);
    if i == |s| then (s, "") else (s[..i], s[i + 4..])
  }

  // ---- parsing ----------------------------------------------------------------------------------------------------

  predicate Comment(line: string) {
    Strip(line) == "" || (LStrip(line) != "" && LStrip(line)[0] == '#')
  }

  function ParseLine(raw: string): Option<(string, string)> {
    var line := RStrip(raw);
    if Comment(line) then None
    else
      var (key, reason) := Partition(line);
      Some((Strip(key), Strip(reason)))
  }

  function ParseLines(lines: seq<string>): map<string, string> {
    if lines == [] then map[]
    else
      var m := ParseLines(lines[..|lines| - 1]);
      var entry := ParseLine(lines[|lines| - 1]);
      if entry.Some? then m[entry.value.0 := entry.value.1] else m
  }

  function Parse(text: string): map<string, string> { ParseLines(SplitLines(text)) }

  /** `parse_baseline`. */
  method ParseBaseline(text: string) returns (entries: map<string, string>)
    ensures entries == Parse(text)
  {
    hide RStrip, LStrip, Strip, Partition, SplitLines;
    entries := map[];
    var lines := SplitLines(text);
    for i := 0 to |lines|
      invariant entries == ParseLines(lines[..i])
    {
      assert lines[..i + 1][..i] == lines[..i];
      var line := RStrip(lines[i]);
      if Strip(line) == "" {
        continue;
      }
      if LStrip(line) != "" && LStrip(line)[0] == '#' {
        continue;
      }
      var (key, reason) := Partition(line);
      entries := entries[Strip(key) := Strip(reason)];
    }
    assert lines[..|lines|] == lines;
  }

  // ---- printing ----------------------------------------------------------------------------------------------------

  /** The file's header: lines of comment, whatever they say. */
  type CommentLine = s: string | OneLine(s) && s != "" && s[0] == '#' witness "#"

  const TODO := "TODO: write why this mutant is equivalent"

  function ReasonFor(key: string, reasons: map<string, string>, todo: string): (r: string)
    ensures r == todo || (key in reasons && r == reasons[key] != "")
    ensures key in reasons && reasons[key] != "" ==> r == reasons[key]
  {
    if key in reasons && reasons[key] != "" then reasons[key] else todo
  }

  function LineFor(key: string, reason: string): string { key + SEPARATOR + reason }

  function JoinLines(lines: seq<string>): string {
    if lines == [] then "" else lines[0] + "\n" + JoinLines(lines[1..])
  }

  function Lines(keys: seq<string>, reasons: map<string, string>, todo: string): (r: seq<string>)
    ensures |r| == |keys| && forall i :: 0 <= i < |r| ==> r[i] == LineFor(keys[i], ReasonFor(keys[i], reasons, todo))
  {
    if keys == [] then [] else [LineFor(keys[0], ReasonFor(keys[0], reasons, todo))] + Lines(keys[1..], reasons, todo)
  }

  /** `format_baseline`: the header, then one line a survivor in the order of `Sort`. */
  function Format(header: seq<CommentLine>, survivors: seq<string>, reasons: map<string, string>, todo: string): string {
    JoinLines(header) + JoinLines(Lines(Sort(survivors), reasons, todo))
  }

  // ---- `sorted` ---------------------------------------------------------------------------------------------------

  /** Python's order on strings: by code point, from the left. */
  predicate Less(a: string, b: string) {
    if b == "" then false
    else if a == "" then true
    else a[0] < b[0] || (a[0] == b[0] && Less(a[1..], b[1..]))
  }

  function InsertKey(keys: seq<string>, k: string): seq<string> {
    if keys == [] || !Less(keys[0], k) then [k] + keys else [keys[0]] + InsertKey(keys[1..], k)
  }

  function Sort(keys: seq<string>): seq<string> {
    if keys == [] then [] else InsertKey(Sort(keys[..|keys| - 1]), keys[|keys| - 1])
  }

  lemma {:induction false} InsertPermutes(keys: seq<string>, k: string)
    ensures multiset(InsertKey(keys, k)) == multiset(keys) + multiset{k}
  {
    if keys != [] && Less(keys[0], k) {
      InsertPermutes(keys[1..], k);
      assert keys == [keys[0]] + keys[1..];
    }
  }

  lemma {:induction false} SortPermutes(keys: seq<string>)
    ensures multiset(Sort(keys)) == multiset(keys) && |Sort(keys)| == |keys|
  {
    if keys != [] {
      SortPermutes(keys[..|keys| - 1]);
      InsertPermutes(Sort(keys[..|keys| - 1]), keys[|keys| - 1]);
      assert keys == keys[..|keys| - 1] + [keys[|keys| - 1]];
    }
    assert |multiset(Sort(keys))| == |Sort(keys)|;
  }

  lemma SortMembers(keys: seq<string>)
    ensures forall k :: k in Sort(keys) <==> k in keys
  {
    SortPermutes(keys);
    forall k ensures k in Sort(keys) <==> k in keys {
      assert k in multiset(Sort(keys)) <==> k in multiset(keys);
    }
  }

  lemma {:induction false} LessConnected(a: string, b: string)
    ensures a == b || Less(a, b) || Less(b, a)
    ensures !(Less(a, b) && Less(b, a))
  {
    if a != "" && b != "" {
      LessConnected(a[1..], b[1..]);
      assert a == [a[0]] + a[1..] && b == [b[0]] + b[1..];
    }
  }

  lemma {:induction false} LessTransitive(a: string, b: string, c: string)
    requires Less(a, b) && Less(b, c)
    ensures Less(a, c)
  {
    if a != "" && a[0] == b[0] && b[0] == c[0] {
      LessTransitive(a[1..], b[1..], c[1..]);
    }
  }

  ghost predicate Ordered(keys: seq<string>) {
    forall i, j :: 0 <= i < j < |keys| ==> !Less(keys[j], keys[i])
  }

  lemma {:induction false} InsertOrdered(keys: seq<string>, k: string)
    requires Ordered(keys)
    ensures Ordered(InsertKey(keys, k))
  {
    if keys == [] {
    } else if !Less(keys[0], k) {
      forall j | 0 <= j < |keys| ensures !Less(keys[j], k) {
        if Less(keys[j], k) {
          LessConnected(keys[0], keys[j]);
          if keys[0] != keys[j] {
            LessTransitive(keys[0], keys[j], k);
          }
        }
      }
    } else {
      InsertOrdered(keys[1..], k);
      var rest := InsertKey(keys[1..], k);
      LessConnected(keys[0], k);
      forall j | 0 <= j < |rest| ensures !Less(rest[j], keys[0]) {
        InsertPermutes(keys[1..], k);
        assert rest[j] in multiset(rest);
        if rest[j] != k {
          assert rest[j] in keys[1..];
          var m :| 0 <= m < |keys| - 1 && keys[1..][m] == rest[j];
          assert keys[m + 1] == rest[j];
        }
      }
    }
  }

  /** Equal up to here, and here a has ended or has the smaller code point. */
  predicate SmallerAt(a: string, b: string, i: nat) {
    i <= |a| && i < |b| && a[..i] == b[..i] && (i < |a| ==> a[i] < b[i])
  }

  lemma {:induction false} LessIsSmaller(a: string, b: string) returns (i: nat)
    requires Less(a, b)
    ensures SmallerAt(a, b, i)
  {
    i := 0;
    if a != "" && a[0] == b[0] {
      i := LessIsSmaller(a[1..], b[1..]);
      assert a[..i + 1] == [a[0]] + a[1..][..i] && b[..i + 1] == [b[0]] + b[1..][..i];
      i := i + 1;
    }
  }

  lemma {:induction false} SmallerIsLess(a: string, b: string, i: nat)
    requires SmallerAt(a, b, i)
    ensures Less(a, b)
  {
    if i > 0 {
      assert a[0] == a[..i][0] == b[..i][0] == b[0];
      assert a[1..][..i - 1] == a[..i][1..] && b[1..][..i - 1] == b[..i][1..];
      SmallerIsLess(a[1..], b[1..], i - 1);
    }
  }

  /** `sorted` is the survivors, each as often as it occurred; of two that differ the one that comes first
      is smaller where they first differ. */
  lemma SortedMeans(keys: seq<string>)
    ensures multiset(Sort(keys)) == multiset(keys)
    ensures forall i, j :: 0 <= i < j < |Sort(keys)| && Sort(keys)[i] != Sort(keys)[j] ==> exists k :: SmallerAt(Sort(keys)[i], Sort(keys)[j], k)
  {
    hide Sort, Less;
    SortOrdered(keys);
    var s := Sort(keys);
    forall i, j | 0 <= i < j < |s| && s[i] != s[j] ensures exists k :: SmallerAt(s[i], s[j], k) {
      LessConnected(s[i], s[j]);
      var k := LessIsSmaller(s[i], s[j]);
    }
  }

  lemma {:induction false} SortOrdered(keys: seq<string>)
    ensures Ordered(Sort(keys)) && multiset(Sort(keys)) == multiset(keys)
  {
    SortPermutes(keys);
    if keys != [] {
      SortOrdered(keys[..|keys| - 1]);
      InsertOrdered(Sort(keys[..|keys| - 1]), keys[|keys| - 1]);
    }
  }
}
