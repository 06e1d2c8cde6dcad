/** The text helpers of the program: taking a line off a text, skipping to
    the first line that starts with a given prefix, repeating a replacement
    until the pattern is gone, and normalising a row of table cells. */
module Helpers {
  import opened Wrappers
  import opened Text

  // ---------------------------------------------------------------------------
  // `get_line`

  /** The stripped text before the first newline and the text after it, or
      "" and the whole text when it has no newline. */
  function GetLine(text: string): (r: (string, string))
    ensures '\n' !in text ==> r == ("", text)
    ensures '\n' in text ==> |r.1| < |text|
    ensures '\n' in text ==> exists raw :: '\n' !in raw && text == raw + "\n" + r.1 && r.0 == Strip(raw)
  {
    var pos := FindChar(text, '\n');
    if pos > -1 then
      assert text == text[..pos] + "\n" + text[pos + 1..];
      (Strip(text[..pos]), text[pos + 1..])
    else ("", text)
  }

  /** The first line of `raw + "\n" + rest`, for a `raw` without newline,
      is `raw` stripped, and the rest is `rest`. */
  lemma GetLineOf(raw: string, rest: string)
    requires '\n' !in raw
    ensures GetLine(raw + "\n" + rest) == (Strip(raw), rest)
  {
    var text := raw + "\n" + rest;
    assert text[|raw|] == '\n' && text[..|raw|] == raw;
    var pos := FindChar(text, '\n');
    assert forall i :: 0 <= i < |raw| ==> text[i] == raw[i];
    assert pos == |raw|;
    assert text[pos + 1..] == rest;
  }

  // ---------------------------------------------------------------------------
  // `find_line`

  /** The line `find_line` starts from, so that its first test fails for
      any prefix it does not itself start with. */
  const Sentinel: string := "xxxxxxxxxxxxxx"

  /** How `find_line` ends: with the text after the line that matched, with
      an empty text, or never, on a non-empty rest without newline (where
      `get_line` hands the same text back each time). */
  datatype FindOutcome = Found(rest: string) | NotFound | Loops

  /** The loop of `find_line` from the current line and text. */
  function FindFrom(line: string, text: string, prefix: string): FindOutcome
    decreases |text|
  {
    if StartsWith(line, prefix) then Found(text)
    else if text == "" then NotFound
    else if '\n' !in text then Loops
    else
      var next := GetLine(text);
      FindFrom(next.0, next.1, prefix)
  }

  function FindLineOutcome(text: string, prefix: string): FindOutcome
  {
    FindFrom(Sentinel, text, prefix)
  }

  /** `find_line`: True and the text after the first line starting with
      `prefix`, or False and the empty text. */
  method FindLine(text: string, prefix: string) returns (found: bool, rest: string)
    requires FindLineOutcome(text, prefix) != Loops
    ensures found ==> FindLineOutcome(text, prefix) == Found(rest)
    ensures !found ==> FindLineOutcome(text, prefix) == NotFound && rest == ""
  {
    var line := Sentinel;
    rest := text;
    while !StartsWith(line, prefix)
      invariant FindFrom(line, rest, prefix) == FindLineOutcome(text, prefix)
      decreases |rest|
    {
      if rest == "" {
        return false, rest;
      }
      var next := GetLine(rest);
      line, rest := next.0, next.1;
    }
    found := true;
  }

  /** A prefix the sentinel itself starts with (the empty one, say) is
      found at once. */
  lemma FindLineSentinel(text: string, prefix: string)
    requires StartsWith(Sentinel, prefix)
    ensures FindLineOutcome(text, prefix) == Found(text)
  {
  }

  /** Two lines that both fail the test lead to the same outcome. */
  lemma FindFromFailing(a: string, b: string, text: string, prefix: string)
    requires !StartsWith(a, prefix) && !StartsWith(b, prefix)
    ensures FindFrom(a, text, prefix) == FindFrom(b, text, prefix)
  {
  }

  /** For a prefix the sentinel does not start with, an empty text is not
      found and a non-empty text without newline loops forever. */
  lemma FindLineEnds(text: string, prefix: string)
    requires !StartsWith(Sentinel, prefix) && '\n' !in text
    ensures text == "" ==> FindLineOutcome(text, prefix) == NotFound
    ensures text != "" ==> FindLineOutcome(text, prefix) == Loops
  {
  }

  /** For a prefix the sentinel does not start with, a first line that
      starts with the prefix is found with the text after it. */
  lemma FindLineFirst(raw: string, rest: string, prefix: string)
    requires !StartsWith(Sentinel, prefix) && '\n' !in raw && StartsWith(Strip(raw), prefix)
    ensures FindLineOutcome(raw + "\n" + rest, prefix) == Found(rest)
  {
    var text := raw + "\n" + rest;
    assert text[|raw|] == '\n';
    GetLineOf(raw, rest);
    var line := Strip(raw);
    assert FindFrom(Sentinel, text, prefix) == FindFrom(line, rest, prefix);
    assert FindFrom(line, rest, prefix) == Found(rest);
  }

  /** For a prefix the sentinel does not start with, a first line that does
      not start with it is skipped. */
  lemma FindLineSkips(raw: string, rest: string, prefix: string)
    requires !StartsWith(Sentinel, prefix) && '\n' !in raw && !StartsWith(Strip(raw), prefix)
    ensures FindLineOutcome(raw + "\n" + rest, prefix) == FindLineOutcome(rest, prefix)
  {
    var text := raw + "\n" + rest;
    assert text[|raw|] == '\n';
    GetLineOf(raw, rest);
    FindFromFailing(Strip(raw), Sentinel, rest, prefix);
  }

  predicate IsSuffix(rest: string, text: string)
  {
    |rest| <= |text| && text[|text| - |rest|..] == rest
  }

  lemma SuffixTransitive(a: string, b: string, c: string)
    requires IsSuffix(a, b) && IsSuffix(b, c)
    ensures IsSuffix(a, c)
  {
    assert c[|c| - |a|..] == c[|c| - |b|..][|b| - |a|..];
  }

  /** What follows a found line is a suffix of the text. */
  lemma {:induction false} FindFromSuffix(line: string, text: string, prefix: string)
    requires FindFrom(line, text, prefix).Found?
    ensures IsSuffix(FindFrom(line, text, prefix).rest, text)
    decreases |text|
  {
    if !StartsWith(line, prefix) {
      var next := GetLine(text);
      assert FindFrom(line, text, prefix) == FindFrom(next.0, next.1, prefix);
      FindFromSuffix(next.0, next.1, prefix);
      var raw :| '\n' !in raw && text == raw + "\n" + next.1 && next.0 == Strip(raw);
      assert IsSuffix(next.1, text) by {
        assert text[|text| - |next.1|..] == next.1;
      }
      SuffixTransitive(FindFrom(next.0, next.1, prefix).rest, next.1, text);
    }
  }

  // ---------------------------------------------------------------------------
  // `replace_all`

  /** `text.replace(search, replace)` repeated while `search` occurs; a
      shorter replacement shortens the text each time, so this ends. */
  function ReplaceAll(text: string, search: string, replace: string): (r: string)
    requires |replace| < |search|
    ensures !Contains(r, search)
    ensures |r| <= |text|
    decreases |text|
  {
    ReplaceLength(text, search, replace);
    if Contains(text, search) then ReplaceAll(Replace(text, search, replace), search, replace) else text
  }

  /** A text without the pattern is left alone, so a second run changes
      nothing. */
  lemma ReplaceAllIdempotent(text: string, search: string, replace: string)
    requires |replace| < |search|
    ensures !Contains(text, search) ==> ReplaceAll(text, search, replace) == text
    ensures ReplaceAll(ReplaceAll(text, search, replace), search, replace) == ReplaceAll(text, search, replace)
  {
  }

  /** One pass of `replace` is not enough: collapsing blank lines in three
      newlines leaves two, which the loop collapses again. */
  lemma OnePassNotEnough()
    ensures Replace("\n\n\n", "\n\n", "\n") == "\n\n"
    ensures ReplaceAll("\n\n\n", "\n\n", "\n") == "\n"
  {
    assert ("\n\n\n")[..2] == "\n\n";
    assert ("\n\n\n")[2..] == "\n";
    assert Replace("\n", "\n\n", "\n") == "\n";
    assert Contains("\n\n\n", "\n\n");
    assert ("\n\n")[..2] == "\n\n";
    assert ("\n\n")[2..] == "";
    assert Replace("\n\n", "\n\n", "\n") == "\n";
    assert Contains("\n\n", "\n\n");
    NotContainsShort("\n", "\n\n");
  }

  /** `replace_all`: the loop. */
  method ReplaceAllLoop(text: string, search: string, replace: string) returns (r: string)
    requires |replace| < |search|
    ensures r == ReplaceAll(text, search, replace)
    ensures !Contains(r, search)
  {
    r := text;
    while Contains(r, search)
      invariant ReplaceAll(r, search, replace) == ReplaceAll(text, search, replace)
      decreases |r|
    {
      ReplaceLength(r, search, replace);
      r := Replace(r, search, replace);
    }
  }

  // ---------------------------------------------------------------------------
  // `process_raw_row`

  /** A table cell: NaN for an empty cell, otherwise its text. */
  datatype Cell = Missing | Text(value: string)

  /** A match of `\d+:\d{2}` with its colon at `j`. */
  predicate TimeAt(s: string, j: int)
  {
    0 < j && j + 2 < |s| && IsDigit(s[j - 1]) && s[j] == ':' && IsDigit(s[j + 1]) && IsDigit(s[j + 2])
  }

  predicate DigitsIn(s: string, i: int, k: int)
    requires 0 <= i <= k <= |s|
  {
    forall t :: i <= t < k ==> IsDigit(s[t])
  }

  /** `re.search(r"(\d+:\d{2})", s)`. */
  predicate HasTime(s: string)
  {
    exists j | 0 <= j < |s| :: TimeAt(s, j)
  }

  /** `re.search(r"(\d+:\d{2}) (\d+:\d{2})", s)`: a time, a space, and a
      time whose digits start right after the space. */
  predicate HasTimePair(s: string)
  {
    exists j, m | 0 <= j < m < |s| :: TimeAt(s, j) && j + 4 < m && s[j + 3] == ' ' && DigitsIn(s, j + 4, m) && TimeAt(s, m)
  }

  lemma PairHasTime(s: string)
    requires HasTimePair(s)
    ensures HasTime(s)
  {
    var j, m :| 0 <= j < m < |s| && TimeAt(s, j) && j + 4 < m && s[j + 3] == ' ' && DigitsIn(s, j + 4, m) && TimeAt(s, m);
  }

  /** `\w` on ASCII text: letters, digits and the underscore. */
  predicate IsWordChar(c: char)
  {
    ('a' <= c <= 'z') || ('A' <= c <= 'Z') || IsDigit(c) || c == '_'
  }

  function DropNonWord(s: string): (r: string)
    ensures |r| <= |s| && r == s[|s| - |r|..]
    ensures |s| > 0 && !IsWordChar(s[0]) ==> |r| < |s|
    ensures |r| > 0 ==> IsWordChar(r[0])
  {
    if |s| > 0 && !IsWordChar(s[0]) then DropNonWord(s[1..]) else s
  }

  /** `re.split(r"\W+", s)`: the pieces between runs of non-word
      characters, an empty piece where the text starts or ends with one. */
  function SplitNonWord(s: string): (r: seq<string>)
    ensures |r| >= 1
    ensures forall p :: p in r ==> forall c :: c in p ==> IsWordChar(c)
    decreases |s|
  {
    if s == [] then [""]
    else if IsWordChar(s[0]) then
      var rest := SplitNonWord(s[1..]);
      assert rest[0] in rest;
      assert forall p :: p in rest[1..] ==> p in rest;
      [[s[0]] + rest[0]] + rest[1..]
    else [""] + SplitNonWord(DropNonWord(s))
  }

  /** A text of word characters only is one piece. */
  lemma {:induction false} SplitWordOnly(s: string)
    requires forall i :: 0 <= i < |s| ==> IsWordChar(s[i])
    ensures SplitNonWord(s) == [s]
    decreases |s|
  {
    if s != [] {
      SplitWordOnly(s[1..]);
      assert [s[0]] + s[1..] == s;
    }
  }

  function Min(a: int, b: int): int
  {
    if a < b then a else b
  }

  /** The groups of `max_zones` the inner loop cuts the pieces into. */
  function Chunks(z: seq<string>, n: int): seq<seq<string>>
    requires n >= 1
    decreases |z|
  {
    if |z| == 0 then [] else [z[..Min(n, |z|)]] + Chunks(z[Min(n, |z|)..], n)
  }

  function Flatten(g: seq<seq<string>>): seq<string>
  {
    if g == [] then [] else g[0] + Flatten(g[1..])
  }

  /** The groups put back together are the pieces; each holds at least one
      and at most `n` of them, exactly `n` unless it is the last. */
  lemma {:induction false} ChunksShape(z: seq<string>, n: int)
    requires n >= 1
    ensures var g := Chunks(z, n);
      && Flatten(g) == z
      && (forall i :: 0 <= i < |g| ==> 1 <= |g[i]| <= n)
      && (forall i :: 0 <= i < |g| - 1 ==> |g[i]| == n)
    decreases |z|
  {
    if |z| > 0 {
      var m := Min(n, |z|);
      ChunksShape(z[m..], n);
      var g := Chunks(z, n);
      assert g[1..] == Chunks(z[m..], n);
      assert z[..m] + z[m..] == z;
    }
  }

  /** `",".join(...)` of each group. */
  function ChunkTexts(z: seq<string>, n: int): (r: seq<string>)
    requires n >= 1
    ensures var g := Chunks(z, n); |r| == |g| && forall i :: 0 <= i < |g| ==> r[i] == Join(",", g[i])
  {
    var g := Chunks(z, n);
    seq(|g|, i requires 0 <= i < |g| => Join(",", g[i]))
  }

  /** One cell: what it appends to the row and the pending lone time. */
  function Step(cell: Cell, first: Option<string>, maxZones: int): (seq<string>, Option<string>)
    requires maxZones >= 1
  {
    match cell
    case Missing => ([], first)
    case Text(v) =>
      if HasTimePair(v) then ([v], first)
      else if HasTime(v) then
        if first.None? then ([], Some(v)) else ([first.value + " " + v], None)
      else (ChunkTexts(SplitNonWord(v), maxZones), first)
  }

  /** The row built so far and the pending lone time after the cells. */
  function RowState(row: seq<Cell>, maxZones: int): (seq<string>, Option<string>)
    requires maxZones >= 1
  {
    if row == [] then ([], None)
    else
      var prev := RowState(row[..|row| - 1], maxZones);
      var next := Step(row[|row| - 1], prev.1, maxZones);
      (prev.0 + next.0, next.1)
  }

  function ProcessedRow(row: seq<Cell>, maxZones: int): seq<string>
    requires maxZones >= 1
  {
    RowState(row, maxZones).0
  }

  lemma RowStateSnoc(row: seq<Cell>, cell: Cell, maxZones: int)
    requires maxZones >= 1
    ensures var prev := RowState(row, maxZones);
      var next := Step(cell, prev.1, maxZones);
      RowState(row + [cell], maxZones) == (prev.0 + next.0, next.1)
  {
    assert (row + [cell])[..|row|] == row;
  }

  /** Empty cells add nothing and a cell with two times is kept whole. */
  lemma RowMissingAndPairs(row: seq<Cell>, v: string, maxZones: int)
    requires maxZones >= 1
    ensures RowState(row + [Missing], maxZones) == RowState(row, maxZones)
    ensures HasTimePair(v) ==>
      RowState(row + [Text(v)], maxZones) == (ProcessedRow(row, maxZones) + [v], RowState(row, maxZones).1)
  {
    RowStateSnoc(row, Missing, maxZones);
    RowStateSnoc(row, Text(v), maxZones);
    assert ProcessedRow(row, maxZones) + [] == ProcessedRow(row, maxZones);
  }

  /** Two cells with one time each, one after the other, become the single
      entry "first second"; the first of them alone adds nothing yet, so a
      lone time still pending at the end of a row is dropped. */
  lemma RowTimes(row: seq<Cell>, v: string, w: string, maxZones: int)
    requires maxZones >= 1
    requires !HasTimePair(v) && HasTime(v) && !HasTimePair(w) && HasTime(w) && RowState(row, maxZones).1 == None
    ensures RowState(row + [Text(v)], maxZones) == (ProcessedRow(row, maxZones), Some(v))
    ensures RowState(row + [Text(v), Text(w)], maxZones) == (ProcessedRow(row, maxZones) + [v + " " + w], None)
  {
    RowStateSnoc(row, Text(v), maxZones);
    assert ProcessedRow(row, maxZones) + [] == ProcessedRow(row, maxZones);
    RowStateSnoc(row + [Text(v)], Text(w), maxZones);
    assert row + [Text(v)] + [Text(w)] == row + [Text(v), Text(w)];
  }

  /** Any other cell is split into zone groups of at most `max_zones`,
      and a pending lone time stays pending. */
  lemma RowZones(row: seq<Cell>, v: string, maxZones: int)
    requires maxZones >= 1 && !HasTime(v)
    ensures RowState(row + [Text(v)], maxZones)
      == (ProcessedRow(row, maxZones) + ChunkTexts(SplitNonWord(v), maxZones), RowState(row, maxZones).1)
  {
    RowStateSnoc(row, Text(v), maxZones);
  }

  /** `process_raw_row`: the loop over the cells with the pending lone time
      in `first`, the zone groups appended by the inner loop. */
  method ProcessRawRow(row: seq<Cell>, maxZones: int) returns (newRow: seq<string>)
    requires maxZones >= 1
    ensures newRow == ProcessedRow(row, maxZones)
  {
    newRow := [];
    var first: Option<string> := None;
    for k := 0 to |row|
      invariant RowState(row[..k], maxZones) == (newRow, first)
    {
      var value := row[k];
      assert row[..k + 1] == row[..k] + [value];
      RowStateSnoc(row[..k], value, maxZones);
      ghost var step := Step(value, first, maxZones);
      ghost var before := newRow;
      match value {
        case Missing =>
        case Text(v) =>
          if HasTimePair(v) {
            newRow := newRow + [v];
          } else if HasTime(v) {
            if first.None? {
              first := Some(v);
            } else {
              newRow := newRow + [first.value + " " + v];
              first := None;
            }
          } else {
            var z := SplitNonWord(v);
            newRow := AppendChunks(newRow, z, maxZones);
          }
      }
      assert newRow == before + step.0 && first == step.1;
    }
    assert row[..|row|] == row;
  }

  /** The inner `while len(z) > 0` loop. */
  method AppendChunks(acc: seq<string>, zones: seq<string>, maxZones: int) returns (newRow: seq<string>)
    requires maxZones >= 1
    ensures newRow == acc + ChunkTexts(zones, maxZones)
  {
    newRow := acc;
    var z := zones;
    while |z| > 0
      invariant newRow + ChunkTexts(z, maxZones) == acc + ChunkTexts(zones, maxZones)
      decreases |z|
    {
      var m := Min(maxZones, |z|);
      var newValue := Join(",", z[..m]);
      assert ChunkTexts(z, maxZones) == [newValue] + ChunkTexts(z[m..], maxZones) by {
        var g := Chunks(z, maxZones);
        assert g == [z[..m]] + Chunks(z[m..], maxZones);
      }
      newRow := newRow + [newValue];
      z := z[m..];
    }
  }
}
