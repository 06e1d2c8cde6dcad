/** The entities of the schedule: a `Stage` (a numbered outage window with
    its sort key), the static rule `ZoneStageByDay`, the day index
    `ZoneStageMap`, and the scan that merges overlapping neighbours. */
module Classes {
  import opened Wrappers
  import opened Text
  import opened Time
  import opened Sorting
  import opened Values
  import opened Extensions

  // ---------------------------------------------------------------------------
  // Stage

  /** A stage is a value: merges and rollovers build updated copies. */
  datatype Stage = Stage(number: int, start: Timestamp, end: Timestamp, key: string)

  /** `_make_key`: `"{:00}-{}".format(number, str(start_time))`. */
  function MakeKey(number: int, start: Timestamp): string
  {
    IntText(number) + ("-" + StampText(start))
  }

  /** `Stage(number, start, end)`: the constructor sets the key. */
  function NewStage(number: int, start: Timestamp, end: Timestamp): Stage
  {
    Stage(number, start, end, MakeKey(number, start))
  }

  /** The key agrees with the number and the start. Assigning `end_time`
      leaves it alone, so it stays consistent. */
  predicate KeyConsistent(s: Stage)
  {
    s.key == MakeKey(s.number, s.start)
  }

  /** `datetime.datetime.min` as far as the day and the clock go. */
  const DatetimeMin: Timestamp := Timestamp(1, 0)

  /** `Stage()`. */
  function DefaultStage(): Stage
  {
    NewStage(0, DatetimeMin, DatetimeMin)
  }

  /** `stage_sort`: the key a list of stages is sorted by. */
  function StageSort(s: Stage): string
  {
    s.key
  }

  predicate KeyLess(a: Stage, b: Stage)
  {
    StrLt(StageSort(a), StageSort(b))
  }

  lemma KeyLessStrict()
    ensures StrictOrder(KeyLess)
  {
    forall a: Stage ensures !KeyLess(a, a) {
      StrLtIrreflexive(a.key);
    }
    forall a: Stage, b: Stage, c: Stage | KeyLess(a, b) && KeyLess(b, c) ensures KeyLess(a, c) {
      StrLtTransitive(a.key, b.key, c.key);
    }
  }

  lemma DigitText(n: int)
    requires 0 <= n <= 9
    ensures IntText(n) == [Digit(n)]
  {
  }

  /** For stage numbers 0..9 the key orders stages by number first and by
      start time second, and two keys agree exactly when number and start do. */
  lemma KeyOrder(a: Stage, b: Stage)
    requires KeyConsistent(a) && KeyConsistent(b)
    requires 0 <= a.number <= 9 && 0 <= b.number <= 9
    requires WellFormed(a.start) && WellFormed(b.start)
    ensures KeyLess(a, b) <==> a.number < b.number || (a.number == b.number && Before(a.start, b.start))
    ensures a.key == b.key <==> a.number == b.number && a.start == b.start
  {
    DigitText(a.number);
    DigitText(b.number);
    var da, db := [Digit(a.number)], [Digit(b.number)];
    assert StrLt(da, db) <==> a.number < b.number by {
      assert da[1..] == [] && db[1..] == [];
    }
    StampTextOrder(a.start, b.start);
    ConcatOrder("-", "-", StampText(a.start), StampText(b.start));
    ConcatOrder(da, db, "-" + StampText(a.start), "-" + StampText(b.start));
  }

  /** Past nine the key order is textual: stage 10 sorts before stage 2. */
  lemma KeyOrderPastNine(t: Timestamp)
    ensures KeyLess(NewStage(10, t, t), NewStage(2, t, t))
  {
    assert IntText(10) == "10";
    assert IntText(2) == "2";
    var k10, k2 := NewStage(10, t, t).key, NewStage(2, t, t).key;
    assert k10[0] == '1' && k2[0] == '2';
  }

  // ---------------------------------------------------------------------------
  // The merge scan shared by `merge_all_stages` and `merge_stages`

  /** `merge_all_stages` joins neighbours of the same number only;
      `merge_stages` joins any overlapping neighbours. */
  datatype MergeRule = AnyOverlap | SameNumber

  /** The next stage starts no later than the current one ends (and, under
      `SameNumber`, has the same number). */
  predicate Joins(a: Stage, b: Stage, rule: MergeRule)
  {
    NotAfter(b.start, a.end) && (rule == AnyOverlap || b.number == a.number)
  }

  /** A deep copy of the first stage given the second one's end: number,
      start and key of the first, end of the second, even when that is
      earlier. */
  function Joined(a: Stage, b: Stage): (r: Stage)
  {
    a.(end := b.end)
  }

  /** The scan from position `i`: a joinable pair at `i`, `i + 1` is replaced
      by its join and looked at again; otherwise the scan moves on. */
  function ScanFrom(s: seq<Stage>, i: nat, rule: MergeRule): seq<Stage>
    requires i <= |s|
    decreases 2 * |s| - i
  {
    if i + 1 >= |s| then s
    else if Joins(s[i], s[i + 1], rule) then
      ScanFrom(s[..i] + [Joined(s[i], s[i + 1])] + s[i + 2..], i, rule)
    else ScanFrom(s, i + 1, rule)
  }

  function Merge(s: seq<Stage>, rule: MergeRule): seq<Stage>
  {
    ScanFrom(s, 0, rule)
  }

  /** No adjacent pair below position `i` is joinable. */
  predicate SettledBelow(s: seq<Stage>, i: int, rule: MergeRule)
  {
    forall k :: 0 <= k < i && k + 1 < |s| ==> !Joins(s[k], s[k + 1], rule)
  }

  predicate Settled(s: seq<Stage>, rule: MergeRule)
  {
    SettledBelow(s, |s|, rule)
  }

  lemma {:induction false} ScanSettles(s: seq<Stage>, i: nat, rule: MergeRule)
    requires i <= |s| && SettledBelow(s, i, rule)
    ensures Settled(ScanFrom(s, i, rule), rule)
    decreases 2 * |s| - i
  {
    if i + 1 >= |s| {
    } else if Joins(s[i], s[i + 1], rule) {
      var t := s[..i] + [Joined(s[i], s[i + 1])] + s[i + 2..];
      assert SettledBelow(t, i, rule) by {
        forall k | 0 <= k < i && k + 1 < |t| ensures !Joins(t[k], t[k + 1], rule) {
          assert t[k] == s[k];
          if k + 1 < i { assert t[k + 1] == s[k + 1]; }
          else { assert t[k + 1].start == s[k + 1].start && t[k + 1].number == s[k + 1].number; }
        }
      }
      ScanSettles(t, i, rule);
    } else {
      ScanSettles(s, i + 1, rule);
    }
  }

  lemma {:induction false} ScanOfSettled(s: seq<Stage>, i: nat, rule: MergeRule)
    requires i <= |s| && Settled(s, rule)
    ensures ScanFrom(s, i, rule) == s
    decreases |s| - i
  {
    if i + 1 < |s| {
      ScanOfSettled(s, i + 1, rule);
    }
  }

  lemma {:induction false} ScanLength(s: seq<Stage>, i: nat, rule: MergeRule)
    requires i <= |s|
    ensures |ScanFrom(s, i, rule)| <= |s|
    ensures |ScanFrom(s, i, rule)| >= 1 <==> |s| >= 1
    decreases 2 * |s| - i
  {
    if i + 1 >= |s| {
    } else if Joins(s[i], s[i + 1], rule) {
      ScanLength(s[..i] + [Joined(s[i], s[i + 1])] + s[i + 2..], i, rule);
    } else {
      ScanLength(s, i + 1, rule);
    }
  }

  /** A list shorter than two comes back as it is; otherwise the merge never
      grows the list, leaves no joinable neighbours, is the identity on a
      list that has none, and a second run changes nothing. */
  lemma MergeShape(s: seq<Stage>, rule: MergeRule)
    ensures |s| < 2 ==> Merge(s, rule) == s
    ensures |Merge(s, rule)| <= |s|
    ensures Settled(Merge(s, rule), rule)
    ensures Settled(s, rule) ==> Merge(s, rule) == s
    ensures Merge(Merge(s, rule), rule) == Merge(s, rule)
  {
    ScanLength(s, 0, rule);
    ScanSettles(s, 0, rule);
    ScanOfSettled(Merge(s, rule), 0, rule);
    if Settled(s, rule) { ScanOfSettled(s, 0, rule); }
  }

  /** `x` is the stage `a` ending where `b` ends; under `SameNumber` the
      two have the same number. */
  predicate JoinOf(x: Stage, a: Stage, b: Stage, rule: MergeRule)
  {
    x == Joined(a, b) && (rule == SameNumber ==> b.number == a.number)
  }

  /** Every element of `r` is an element of `orig` ending where an element
      of `orig` ends (a stage kept as it is joins itself). */
  ghost predicate ComposedFrom(r: seq<Stage>, orig: seq<Stage>, rule: MergeRule)
  {
    forall x :: x in r ==> exists a, b :: a in orig && b in orig && JoinOf(x, a, b, rule)
  }

  lemma ComposedRefl(s: seq<Stage>, rule: MergeRule)
    ensures ComposedFrom(s, s, rule)
  {
    forall x | x in s ensures exists a, b :: a in s && b in s && JoinOf(x, a, b, rule) {
      assert Joined(x, x) == Stage(x.number, x.start, x.end, x.key) == x;
      assert x in s && JoinOf(x, x, x, rule);
    }
  }

  lemma ComposedStep(s: seq<Stage>, i: nat, orig: seq<Stage>, rule: MergeRule)
    requires i + 1 < |s| && Joins(s[i], s[i + 1], rule) && ComposedFrom(s, orig, rule)
    ensures ComposedFrom(s[..i] + [Joined(s[i], s[i + 1])] + s[i + 2..], orig, rule)
  {
    var t := s[..i] + [Joined(s[i], s[i + 1])] + s[i + 2..];
    assert s[i] in s && s[i + 1] in s;
    var a, b :| a in orig && b in orig && JoinOf(s[i], a, b, rule);
    var c, d :| c in orig && d in orig && JoinOf(s[i + 1], c, d, rule);
    assert JoinOf(t[i], a, d, rule);
    forall x | x in t ensures exists p, q :: p in orig && q in orig && JoinOf(x, p, q, rule) {
      var k :| 0 <= k < |t| && t[k] == x;
      if k < i { assert t[k] == s[k]; assert s[k] in s; }
      else if k > i { assert t[k] == s[k + 1]; assert s[k + 1] in s; }
    }
  }

  lemma {:induction false} ScanComposed(s: seq<Stage>, i: nat, orig: seq<Stage>, rule: MergeRule)
    requires i <= |s| && ComposedFrom(s, orig, rule)
    ensures ComposedFrom(ScanFrom(s, i, rule), orig, rule)
    decreases 2 * |s| - i
  {
    if i + 1 >= |s| {
    } else if Joins(s[i], s[i + 1], rule) {
      ComposedStep(s, i, orig, rule);
      ScanComposed(s[..i] + [Joined(s[i], s[i + 1])] + s[i + 2..], i, orig, rule);
    } else {
      ScanComposed(s, i + 1, orig, rule);
    }
  }

  /** Each merged stage is an input stage with the end of an input stage:
      its number, start and key are an input's, its end is an input's, and
      under `SameNumber` both inputs carry that number. */
  lemma MergeProvenance(s: seq<Stage>, rule: MergeRule)
    ensures ComposedFrom(Merge(s, rule), s, rule)
  {
    ComposedRefl(s, rule);
    ScanComposed(s, 0, s, rule);
  }

  lemma KeyOrderStep(s: seq<Stage>, i: nat)
    requires i + 1 < |s| && SortedBy(s, KeyLess)
    ensures SortedBy(s[..i] + [Joined(s[i], s[i + 1])] + s[i + 2..], KeyLess)
  {
    var t := s[..i] + [Joined(s[i], s[i + 1])] + s[i + 2..];
    forall a, b | 0 <= a < b < |t| ensures !KeyLess(t[b], t[a]) {
      var ia := if a <= i then a else a + 1;
      var ib := if b <= i then b else b + 1;
      assert t[a].key == s[ia].key && t[b].key == s[ib].key;
      assert !KeyLess(s[ib], s[ia]);
    }
  }

  lemma {:induction false} ScanKeepsKeyOrder(s: seq<Stage>, i: nat, rule: MergeRule)
    requires i <= |s| && SortedBy(s, KeyLess)
    ensures SortedBy(ScanFrom(s, i, rule), KeyLess)
    decreases 2 * |s| - i
  {
    if i + 1 >= |s| {
    } else if Joins(s[i], s[i + 1], rule) {
      KeyOrderStep(s, i);
      ScanKeepsKeyOrder(s[..i] + [Joined(s[i], s[i + 1])] + s[i + 2..], i, rule);
    } else {
      ScanKeepsKeyOrder(s, i + 1, rule);
    }
  }

  /** A join takes the second stage's end even when it is earlier than the
      first one's: two same-number stages, the second nested in the first,
      merge into a stage that covers less than the first did. */
  lemma MergeCanShrink()
    ensures var a := NewStage(2, Timestamp(1, 0), Timestamp(1, 10 * 3600 * MicrosPerSecond));
      var b := NewStage(2, Timestamp(1, 2 * 3600 * MicrosPerSecond), Timestamp(1, 5 * 3600 * MicrosPerSecond));
      Merge([a, b], SameNumber) == [a.(end := b.end)] && Before(b.end, a.end)
  {
    var a := NewStage(2, Timestamp(1, 0), Timestamp(1, 10 * 3600 * MicrosPerSecond));
    var b := NewStage(2, Timestamp(1, 2 * 3600 * MicrosPerSecond), Timestamp(1, 5 * 3600 * MicrosPerSecond));
    var s := [a, b];
    assert Joins(s[0], s[1], SameNumber);
    assert s[..0] + [Joined(s[0], s[1])] + s[2..] == [a.(end := b.end)];
    assert ScanFrom([a.(end := b.end)], 0, SameNumber) == [a.(end := b.end)];
    assert ScanFrom(s, 0, SameNumber) == ScanFrom([a.(end := b.end)], 0, SameNumber);
  }

  /** Under `AnyOverlap` the merge joins whatever pair is adjacent, whatever
      the order of their starts: a level-2 window 16:00-18:00 followed by a
      level-4 window 08:00-10:00 merges into a level-2 window that ends at
      10:00, before it starts. */
  lemma MergeCanInvert()
    ensures var a := NewStage(2, Timestamp(3, 16 * 3600 * MicrosPerSecond), Timestamp(3, 18 * 3600 * MicrosPerSecond));
      var b := NewStage(4, Timestamp(3, 8 * 3600 * MicrosPerSecond), Timestamp(3, 10 * 3600 * MicrosPerSecond));
      Merge([a, b], AnyOverlap) == [a.(end := b.end)] && Before(b.end, a.start)
  {
    var a := NewStage(2, Timestamp(3, 16 * 3600 * MicrosPerSecond), Timestamp(3, 18 * 3600 * MicrosPerSecond));
    var b := NewStage(4, Timestamp(3, 8 * 3600 * MicrosPerSecond), Timestamp(3, 10 * 3600 * MicrosPerSecond));
    var s := [a, b];
    assert Joins(s[0], s[1], AnyOverlap);
    assert s[..0] + [Joined(s[0], s[1])] + s[2..] == [a.(end := b.end)];
    assert ScanFrom([a.(end := b.end)], 0, AnyOverlap) == [a.(end := b.end)];
    assert ScanFrom(s, 0, AnyOverlap) == ScanFrom([a.(end := b.end)], 0, AnyOverlap);
  }

  /** `merge_all_stages`: the index scan over a copy of the list, replacing
      a joinable pair of the same number by its join. */
  method MergeAllStages(stages: seq<Stage>) returns (cleaned: seq<Stage>)
    ensures cleaned == Merge(stages, SameNumber)
  {
    if |stages| < 2 {
      return stages;
    }
    cleaned := stages;
    var i := 0;
    while i < |cleaned| - 1
      invariant 0 <= i < |cleaned|
      invariant ScanFrom(cleaned, i, SameNumber) == Merge(stages, SameNumber)
      decreases 2 * |cleaned| - i
    {
      var stage1 := cleaned[i];
      var stage2 := cleaned[i + 1];
      if NotAfter(stage2.start, stage1.end) && stage2.number == stage1.number {
        var newStage := stage1.(end := stage2.end);
        cleaned := cleaned[..i] + cleaned[i + 2..];
        cleaned := cleaned[..i] + [newStage] + cleaned[i..];
      } else {
        i := i + 1;
      }
    }
  }

  // ---------------------------------------------------------------------------
  // Static rules and the day index

  /** A static rule: a stage level, a clock window (only the time of day of
      `start`/`end` is used) and the zones it applies to. */
  datatype ZoneStageByDay = ZoneStageByDay(stage: int, start: Timestamp, end: Timestamp, zoneList: seq<int>)

  /** The rules stored for a day, empty for a day never added. */
  function DayRules(index: map<int, seq<ZoneStageByDay>>, day: int): seq<ZoneStageByDay>
  {
    if day in index then index[day] else []
  }

  /** The index after `add_zone_stage(day, rule)`. */
  function WithRule(index: map<int, seq<ZoneStageByDay>>, day: int, rule: ZoneStageByDay): map<int, seq<ZoneStageByDay>>
  {
    index[day := DayRules(index, day) + [rule]]
  }

  /** Adding a rule makes it the last of its day's rules, after the ones
      already there, and leaves every other day as it was. */
  lemma WithRuleEffect(index: map<int, seq<ZoneStageByDay>>, day: int, rule: ZoneStageByDay)
    ensures var r := WithRule(index, day, rule);
      && day in r
      && |DayRules(r, day)| == |DayRules(index, day)| + 1
      && Last(DayRules(r, day)) == Some(rule)
      && DayRules(r, day)[..|DayRules(index, day)|] == DayRules(index, day)
      && (forall d :: d != day ==> (d in r <==> d in index))
      && (forall d :: d != day ==> DayRules(r, d) == DayRules(index, d))
  {
    var r := WithRule(index, day, rule);
    assert DayRules(r, day) == DayRules(index, day) + [rule];
  }

  /** The rule applies to the zone at a level no higher than the ceiling. */
  predicate Admits(q: ZoneStageByDay, zone: int, ceiling: int)
  {
    zone in q.zoneList && q.stage <= ceiling
  }

  /** The rule's window on a given date. */
  function Project(q: ZoneStageByDay, forDate: int): Stage
  {
    NewStage(q.stage, Combine(forDate, q.start), Combine(forDate, q.end))
  }

  /** The list comprehension of `get_for_day_and_zone`. */
  function Candidates(rules: seq<ZoneStageByDay>, zone: int, forDate: int, ceiling: int): seq<Stage>
  {
    if |rules| == 0 then []
    else
      var head := if Admits(rules[0], zone, ceiling) then [Project(rules[0], forDate)] else [];
      head + Candidates(rules[1..], zone, forDate, ceiling)
  }

  /** The candidates are exactly the admitted rules projected on the date. */
  lemma {:induction false} CandidatesExact(rules: seq<ZoneStageByDay>, zone: int, forDate: int, ceiling: int)
    ensures forall c :: c in Candidates(rules, zone, forDate, ceiling) <==>
      exists q :: q in rules && Admits(q, zone, ceiling) && c == Project(q, forDate)
    ensures |Candidates(rules, zone, forDate, ceiling)| <= |rules|
  {
    if |rules| > 0 {
      CandidatesExact(rules[1..], zone, forDate, ceiling);
      assert rules == [rules[0]] + rules[1..];
    }
  }

  /** The stages of one day's rules for a zone, a date and a level ceiling:
      sorted by key and merged per number. */
  function QueryDay(rules: seq<ZoneStageByDay>, zone: int, forDate: int, ceiling: int): seq<Stage>
  {
    Merge(SortBy(Candidates(rules, zone, forDate, ceiling), KeyLess), SameNumber)
  }

  /** `get_for_day_and_zone`: KeyError for a day never added. */
  function Query(index: map<int, seq<ZoneStageByDay>>, day: int, zone: int, forDate: int, ceiling: int): (r: Result<seq<Stage>>)
    ensures r.Ok? <==> day in index
    ensures r.Err? ==> r.error == KeyError
  {
    if day in index then Ok(QueryDay(index[day], zone, forDate, ceiling)) else Err(KeyError)
  }

  /** A stage the query can return: on the date, at the rule's level, its
      start the start of an admitted rule of that level and its end the end
      of an admitted rule of that level. */
  ghost predicate FromRules(s: Stage, rules: seq<ZoneStageByDay>, zone: int, forDate: int, ceiling: int)
  {
    && s.number <= ceiling && s.start.day == forDate && s.end.day == forDate && KeyConsistent(s)
    && (exists q :: q in rules && Admits(q, zone, ceiling) && q.stage == s.number && s.start == Combine(forDate, q.start))
    && (exists q :: q in rules && Admits(q, zone, ceiling) && q.stage == s.number && s.end == Combine(forDate, q.end))
  }

  lemma FromCandidates(s: Stage, a: Stage, b: Stage, cands: seq<Stage>,
                       rules: seq<ZoneStageByDay>, zone: int, forDate: int, ceiling: int)
    requires a in multiset(cands) && b in multiset(cands) && JoinOf(s, a, b, SameNumber)
    requires forall c :: c in cands ==> exists q :: q in rules && Admits(q, zone, ceiling) && c == Project(q, forDate)
    ensures FromRules(s, rules, zone, forDate, ceiling)
  {
    assert a in cands && b in cands;
    var qa :| qa in rules && Admits(qa, zone, ceiling) && a == Project(qa, forDate);
    var qb :| qb in rules && Admits(qb, zone, ceiling) && b == Project(qb, forDate);
    assert s.start == Combine(forDate, qa.start) && s.end == Combine(forDate, qb.end);
  }

  lemma QueryDayFromRules(rules: seq<ZoneStageByDay>, zone: int, forDate: int, ceiling: int)
    ensures forall s :: s in QueryDay(rules, zone, forDate, ceiling) ==> FromRules(s, rules, zone, forDate, ceiling)
  {
    var cands := Candidates(rules, zone, forDate, ceiling);
    var sorted := SortBy(cands, KeyLess);
    CandidatesExact(rules, zone, forDate, ceiling);
    SortByPermutes(cands, KeyLess);
    MergeProvenance(sorted, SameNumber);
    forall s | s in QueryDay(rules, zone, forDate, ceiling) ensures FromRules(s, rules, zone, forDate, ceiling) {
      var a, b :| a in sorted && b in sorted && JoinOf(s, a, b, SameNumber);
      assert a in multiset(sorted) && b in multiset(sorted);
      FromCandidates(s, a, b, cands, rules, zone, forDate, ceiling);
    }
  }

  lemma QueryDayOrdered(rules: seq<ZoneStageByDay>, zone: int, forDate: int, ceiling: int)
    ensures SortedBy(QueryDay(rules, zone, forDate, ceiling), KeyLess)
    ensures Settled(QueryDay(rules, zone, forDate, ceiling), SameNumber)
  {
    var sorted := SortBy(Candidates(rules, zone, forDate, ceiling), KeyLess);
    KeyLessStrict();
    SortBySorted(Candidates(rules, zone, forDate, ceiling), KeyLess);
    MergeShape(sorted, SameNumber);
    ScanKeepsKeyOrder(sorted, 0, SameNumber);
  }

  /** Every stage the query returns comes from admitted rules of the zone,
      respects the ceiling and lies on the date; the result is in key order
      and no adjacent same-number pair still overlaps. */
  lemma QueryDayProperties(rules: seq<ZoneStageByDay>, zone: int, forDate: int, ceiling: int)
    ensures var r := QueryDay(rules, zone, forDate, ceiling);
      && (forall s :: s in r ==> FromRules(s, rules, zone, forDate, ceiling))
      && SortedBy(r, KeyLess)
      && Settled(r, SameNumber)
  {
    QueryDayFromRules(rules, zone, forDate, ceiling);
    QueryDayOrdered(rules, zone, forDate, ceiling);
  }

  /** `ZoneStageMap`: the static rules by day of the month. */
  class ZoneStageMap {
    var stageByDay: map<int, seq<ZoneStageByDay>>

    constructor ()
      ensures stageByDay == map[]
    {
      stageByDay := map[];
    }

    /** `add_zone_stage`: append the rule to the day's list, creating it. */
    method AddZoneStage(day: int, zone: ZoneStageByDay)
      modifies this
      ensures stageByDay == WithRule(old(stageByDay), day, zone)
    {
      var stages: seq<ZoneStageByDay>;
      if day !in stageByDay {
        stages := [];
      } else {
        stages := stageByDay[day];
      }
      stages := stages + [zone];
      stageByDay := stageByDay[day := stages];
    }

    /** `get_for_day_and_zone`. */
    method GetForDayAndZone(day: int, zone: int, forDate: int, stage: int) returns (r: Result<seq<Stage>>)
      ensures r == Query(stageByDay, day, zone, forDate, stage)
      ensures r.Ok? <==> day in stageByDay
      ensures r.Ok? ==> (forall s :: s in r.value ==> FromRules(s, stageByDay[day], zone, forDate, stage))
      ensures r.Ok? ==> SortedBy(r.value, KeyLess) && Settled(r.value, SameNumber)
    {
      if day !in stageByDay {
        return Err(KeyError);
      }
      var daySchedules := stageByDay[day];
      var newList := Candidates(daySchedules, zone, forDate, stage);
      newList := SortBy(newList, KeyLess);
      newList := MergeAllStages(newList);
      QueryDayProperties(daySchedules, zone, forDate, stage);
      r := Ok(newList);
    }
  }

  // ---------------------------------------------------------------------------
  // Attributes and the `load` hook

  /** `Stage.__dict__`, in assignment order. */
  function StageAttrs(s: Stage): seq<Entry>
  {
    [Entry("number", Atom(IntV(s.number))), Entry("start_time", Atom(DateV(s.start))),
     Entry("end_time", Atom(DateV(s.end))), Entry("key", Atom(StrV(s.key)))]
  }

  function StageObj(s: Stage): Value
  {
    ObjV(StageClass, StageAttrs(s))
  }

  function IntList(zones: seq<int>): seq<Value>
  {
    seq(|zones|, i requires 0 <= i < |zones| => Atom(IntV(zones[i])))
  }

  /** `ZoneStageByDay.__dict__`, in assignment order. */
  function RuleAttrs(z: ZoneStageByDay): seq<Entry>
  {
    [Entry("stage", Atom(IntV(z.stage))), Entry("start_time", Atom(DateV(z.start))),
     Entry("end_time", Atom(DateV(z.end))), Entry("zone_list", ListV(IntList(z.zoneList)))]
  }

  /** The `__dict__` of a fresh instance: `Stage()`, `ZoneStageByDay()`,
      `ZoneStageMap()`. */
  function DefaultAttrs(c: ClassName): seq<Entry>
  {
    match c
    case StageClass => StageAttrs(DefaultStage())
    case ZoneStageByDayClass => RuleAttrs(ZoneStageByDay(0, DatetimeMin, DatetimeMin, []))
    case ZoneStageMapClass => [Entry("stage_by_day", DictV([]))]
  }

  /** Only `Stage` defines `load`. */
  predicate HasLoad(c: ClassName)
  {
    c == StageClass
  }

  /** `int(v)` on the values the mapper sees. */
  function ToInt(v: Value, b: Builtins): (r: Result<int>)
    ensures v.Atom? && v.scalar.IntV? ==> r == Ok(v.scalar.i)
    ensures v.Atom? && v.scalar.StrV? ==> (r.Ok? <==> b.parseInt(v.scalar.s).Some?)
    ensures !(v.Atom? && (v.scalar.IntV? || v.scalar.BoolV? || v.scalar.StrV?)) ==> r == Err(TypeError)
  {
    match v
    case Atom(IntV(i)) => Ok(i)
    case Atom(BoolV(x)) => Ok(if x then 1 else 0)
    case Atom(StrV(s)) =>
      (match b.parseInt(s)
       case Some(i) => Ok(i)
       case None => Err(ValueError))
    case _ => Err(TypeError)
  }

  /** `Stage.load(obj)`: number through `int`, the times through `get_date`,
      then the key made anew. */
  function Load(obj: seq<Entry>, b: Builtins): (r: Result<Stage>)
  {
    var numberValue :- Lookup(obj, "number");
    var number :- ToInt(numberValue, b);
    var startValue :- Lookup(obj, "start_time");
    var start :- GetDate(startValue, b);
    var endValue :- Lookup(obj, "end_time");
    var end :- GetDate(endValue, b);
    Ok(NewStage(number, start, end))
  }

  /** `load` reads "number" first, so without it the call fails with
      KeyError; it succeeds only when "start_time" and "end_time" are
      present too; and the stage it returns has its key made from its
      number and start. */
  lemma LoadProperties(obj: seq<Entry>, b: Builtins)
    ensures "number" !in Names(obj) ==> Load(obj, b) == Err(KeyError)
    ensures Load(obj, b).Ok? ==> "start_time" in Names(obj) && "end_time" in Names(obj)
    ensures Load(obj, b).Ok? ==> KeyConsistent(Load(obj, b).value)
  {
  }

  lemma LoadOwnAttrs(s: Stage, b: Builtins)
    requires KeyConsistent(s)
    ensures Load(StageAttrs(s), b) == Ok(s)
  {
    var obj := StageAttrs(s);
    assert IndexOf(obj, "number") == 0;
    assert IndexOf(obj, "start_time") == 1 by { assert obj[0].name != "start_time"; }
    assert IndexOf(obj, "end_time") == 2 by {
      assert obj[1..][1..] == obj[2..];
      assert IndexOf(obj[2..], "end_time") == 0;
      assert IndexOf(obj[1..], "end_time") == 1;
    }
  }
}
