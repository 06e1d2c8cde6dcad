/** The schedule pipeline of the program: live stages are rolled over past
    midnight, split into one piece per day, filtered to the ones still
    active, matched against the static zone index, deduplicated, merged
    and sorted by start. The static index is filled from day groups. */
module LoadShedding {
  import opened Wrappers
  import opened Time
  import opened Sorting
  import opened Classes

  // ---------------------------------------------------------------------------
  // Month arithmetic

  /** A timestamp of a month that has `monthLength` days. */
  predicate InMonth(t: Timestamp, monthLength: int)
  {
    WellFormed(t) && t.day <= monthLength
  }

  /** `t.replace(day=day)`: `datetime` refuses a day past the month's end. */
  function WithDay(t: Timestamp, day: int, monthLength: int): Timestamp
    requires 1 <= day <= monthLength
  {
    Timestamp(day, t.micro)
  }

  // ---------------------------------------------------------------------------
  // Splitting multi-day stages

  /** The pieces after the first of a multi-day stage: one per day from
      `day` to the end's day, each from midnight to the end of its day, the
      last cut at the stage's end. */
  function LaterPieces(number: int, day: int, end: Timestamp): seq<Stage>
    decreases end.day - day + 1
  {
    if day > end.day then []
    else
      var last := if day == end.day then end else EndOfDay(day);
      [NewStage(number, Midnight(day), last)] + LaterPieces(number, day + 1, end)
  }

  /** One unfolding of `LaterPieces` on a day the stage reaches. */
  lemma LaterPiecesStep(number: int, day: int, end: Timestamp)
    requires day <= end.day
    ensures LaterPieces(number, day, end)
      == [NewStage(number, Midnight(day), if day == end.day then end else EndOfDay(day))]
         + LaterPieces(number, day + 1, end)
  {
  }

  /** What `split_current_schedules` makes of one stage. */
  function SplitStage(s: Stage): seq<Stage>
  {
    if s.end.day == s.start.day then [s]
    else [NewStage(s.number, s.start, EndOfDay(s.start.day))] + LaterPieces(s.number, s.start.day + 1, s.end)
  }

  /** The lists `f` gives for the elements of `s`, concatenated in order. */
  function FlatMap<T, U>(s: seq<T>, f: T -> seq<U>): seq<U>
  {
    if s == [] then [] else FlatMap(s[..|s| - 1], f) + f(s[|s| - 1])
  }

  lemma {:induction false} FlatMapAppend<T, U>(a: seq<T>, b: seq<T>, f: T -> seq<U>)
    ensures FlatMap(a + b, f) == FlatMap(a, f) + FlatMap(b, f)
    decreases |b|
  {
    if b == [] {
      assert a + b == a;
    } else {
      var c := b[..|b| - 1];
      assert (a + b)[..|a + b| - 1] == a + c;
      assert (a + b)[|a + b| - 1] == b[|b| - 1];
      FlatMapAppend(a, c, f);
    }
  }

  /** The pieces of every stage, in the order of the stages. */
  function SplitAll(s: seq<Stage>): seq<Stage>
  {
    FlatMap(s, SplitStage)
  }

  /** A stage `split_current_schedules` can split without `replace(day=)`
      running past the month: its own timestamps lie in the month, and a
      multi-day stage leaves room for the day after its last one. */
  predicate Splittable(s: Stage, monthLength: int)
  {
    && InMonth(s.start, monthLength) && InMonth(s.end, monthLength)
    && (s.start.day != s.end.day ==> s.start.day + 1 <= monthLength && s.end.day + 1 <= monthLength)
  }

  /** The closed form of the later pieces: piece `i` covers day `day + i`
      from midnight to the end of the day, the last one to `end`. */
  lemma {:induction false} LaterPiecesShape(number: int, day: int, end: Timestamp)
    requires day <= end.day + 1
    ensures var r := LaterPieces(number, day, end);
      && |r| == end.day - day + 1
      && forall i :: 0 <= i < |r| ==>
           r[i] == NewStage(number, Midnight(day + i), if day + i == end.day then end else EndOfDay(day + i))
    decreases end.day - day + 1
  {
    if day <= end.day {
      LaterPiecesShape(number, day + 1, end);
      var r := LaterPieces(number, day, end);
      var t := LaterPieces(number, day + 1, end);
      assert r == [r[0]] + t;
      forall i | 1 <= i < |r|
        ensures r[i] == NewStage(number, Midnight(day + i), if day + i == end.day then end else EndOfDay(day + i))
      {
        assert r[i] == t[i - 1];
      }
    }
  }

  /** A stage over several days becomes one piece per day, all of its
      number and each with a fresh key: the first starts at the stage's
      start, the others at midnight; each lies within its day; every piece
      but the last ends at 23:59:59.999999; the last ends at the stage's
      end, so an end at midnight leaves a zero-length last piece. */
  lemma MultiDayShape(s: Stage)
    requires WellFormed(s.start) && WellFormed(s.end) && s.start.day < s.end.day
    ensures var r := SplitStage(s);
      && |r| == s.end.day - s.start.day + 1
      && r[0].start == s.start
      && (forall i :: 0 < i < |r| ==> r[i].start == Midnight(s.start.day + i))
      && (forall i :: 0 <= i < |r| ==> r[i].number == s.number && KeyConsistent(r[i]))
      && (forall i :: 0 <= i < |r| ==> r[i].start.day == s.start.day + i && r[i].end.day == s.start.day + i)
      && (forall i :: 0 <= i < |r| ==> NotAfter(r[i].start, r[i].end))
      && (forall i :: 0 <= i < |r| - 1 ==> r[i].end == EndOfDay(s.start.day + i))
      && r[|r| - 1].end == s.end
      && (s.end.micro == 0 ==> r[|r| - 1].start == r[|r| - 1].end)
  {
    var r := SplitStage(s);
    var t := LaterPieces(s.number, s.start.day + 1, s.end);
    LaterPiecesShape(s.number, s.start.day + 1, s.end);
    assert r == [NewStage(s.number, s.start, EndOfDay(s.start.day))] + t;
    assert forall i :: 0 < i < |r| ==> r[i] == t[i - 1];
  }

  /** A stage within one day is kept as it is; one whose end lies on an
      earlier day than its start gives just the rest of its first day. */
  lemma SplitShape(s: Stage)
    ensures s.start.day == s.end.day ==> SplitStage(s) == [s]
    ensures s.end.day < s.start.day ==> SplitStage(s) == [NewStage(s.number, s.start, EndOfDay(s.start.day))]
  {
    if s.end.day < s.start.day {
      assert LaterPieces(s.number, s.start.day + 1, s.end) == [];
    }
  }

  /** Splitting a list splits each stage in place: the pieces keep the
      order of the stages they come from. */
  lemma SplitAllAppend(a: seq<Stage>, b: seq<Stage>)
    ensures SplitAll(a + b) == SplitAll(a) + SplitAll(b)
  {
    FlatMapAppend(a, b, SplitStage);
  }

  /** A list of stages that each lie within one day is not changed. */
  lemma {:induction false} SplitAllSameDay(s: seq<Stage>)
    requires forall x :: x in s ==> x.start.day == x.end.day
    ensures SplitAll(s) == s
  {
    if s != [] {
      SplitAllSameDay(s[..|s| - 1]);
      assert s == s[..|s| - 1] + [s[|s| - 1]];
      assert SplitAll(s) == SplitAll(s[..|s| - 1]) + SplitStage(s[|s| - 1]);
    }
  }

  // ---------------------------------------------------------------------------
  // Rolling over ends past midnight

  /** An end that is not after the start is moved one day on; nothing else
      about the stage changes, not even the key. */
  function RolledOver(s: Stage): (r: Stage)
    ensures r.number == s.number && r.start == s.start && r.key == s.key
    ensures NotAfter(s.end, s.start) ==> r.end == AddDay(s.end)
    ensures Before(s.start, s.end) ==> r == s
    ensures s.start.day == s.end.day ==> Before(r.start, r.end)
  {
    if NotAfter(s.end, s.start) then s.(end := AddDay(s.end)) else s
  }

  function RolledAll(s: seq<Stage>): (r: seq<Stage>)
    ensures |r| == |s| && forall i :: 0 <= i < |s| ==> r[i] == RolledOver(s[i])
  {
    seq(|s|, i requires 0 <= i < |s| => RolledOver(s[i]))
  }

  /** The stage `parse_stage` builds from a number, a date and the two
      clock times of a line: both on the date, the end moved to the next
      day only when it is strictly earlier than the start. */
  function ParsedStage(number: int, date: int, startClock: Timestamp, endClock: Timestamp): (r: Stage)
    ensures r.number == number && r.start == Combine(date, startClock) && KeyConsistent(r)
    ensures startClock.micro <= endClock.micro ==> r.end == Combine(date, endClock)
    ensures endClock.micro < startClock.micro ==> r.end == Combine(date + 1, endClock)
    ensures NotAfter(r.start, r.end)
  {
    var s := NewStage(number, Combine(date, startClock), Combine(date, endClock));
    if Before(s.end, s.start) then s.(end := AddDay(s.end)) else s
  }

  /** The two rollovers differ on a zero-length stage: `parse_stage` keeps
      it, the resolution step moves its end a day on. */
  lemma RollOverDiffers(number: int, date: int, clock: Timestamp)
    ensures var p := ParsedStage(number, date, clock, clock);
      p.end == p.start && RolledOver(p).end == AddDay(p.start) && Before(RolledOver(p).start, RolledOver(p).end)
  {
  }

  // ---------------------------------------------------------------------------
  // Active pieces

  /** `[s for s in schedules if time_now <= s.end_time]`. */
  function ActiveFrom(now: Timestamp, s: seq<Stage>): (r: seq<Stage>)
    ensures |r| <= |s|
    ensures forall x :: x in r <==> x in s && NotAfter(now, x.end)
  {
    if s == [] then []
    else
      var last := s[|s| - 1];
      assert s == s[..|s| - 1] + [last];
      ActiveFrom(now, s[..|s| - 1]) + if NotAfter(now, last.end) then [last] else []
  }

  // ---------------------------------------------------------------------------
  // Matching the static index against the live pieces

  /** The candidate lies fully inside the live window. */
  predicate Inside(window: Stage, c: Stage)
  {
    NotAfter(window.start, c.start) && NotAfter(c.end, window.end)
  }

  predicate SameSpan(x: Stage, c: Stage)
  {
    x.start == c.start && x.end == c.end
  }

  /** No stage gathered so far has the candidate's start and end. */
  predicate Fresh(acc: seq<Stage>, c: Stage)
  {
    forall x :: x in acc ==> !SameSpan(x, c)
  }

  predicate NoDupSpans(s: seq<Stage>)
  {
    forall i, j :: 0 <= i < j < |s| ==> !SameSpan(s[i], s[j])
  }

  /** The inner loop: each candidate inside the window whose span is new
      is appended. */
  function Admit(acc: seq<Stage>, window: Stage, cands: seq<Stage>): seq<Stage>
  {
    if cands == [] then acc
    else
      var before := Admit(acc, window, cands[..|cands| - 1]);
      var c := cands[|cands| - 1];
      if Inside(window, c) && Fresh(before, c) then before + [c] else before
  }

  /** The index lookup the outer loop makes for a piece: the day of its
      end, the date of its start, and its number as the level ceiling. */
  function Lookup(index: map<int, seq<ZoneStageByDay>>, zone: int): Stage -> Result<seq<Stage>>
  {
    (w: Stage) => Query(index, w.end.day, zone, w.start.day, w.number)
  }

  /** The outer loop over the active pieces; a failed lookup (KeyError for
      a day the index does not have) ends it. */
  function Gather(lookup: Stage -> Result<seq<Stage>>, active: seq<Stage>): Result<seq<Stage>>
  {
    if active == [] then Ok([])
    else
      var acc :- Gather(lookup, active[..|active| - 1]);
      var w := active[|active| - 1];
      var cands :- lookup(w);
      Ok(Admit(acc, w, cands))
  }

  predicate StartLess(a: Stage, b: Stage)
  {
    Before(a.start, b.start)
  }

  /** The resolution step of the program for a zone on a day: the final
      list of outage windows, or the KeyError of the index. */
  function Resolution(index: map<int, seq<ZoneStageByDay>>, zone: int, today: int, live: seq<Stage>): Result<seq<Stage>>
  {
    var split := SplitAll(RolledAll(live));
    var active := ActiveFrom(Midnight(today), split);
    var gathered :- Gather(Lookup(index, zone), active);
    Ok(SortBy(Merge(gathered, AnyOverlap), StartLess))
  }

  // ---------------------------------------------------------------------------
  // Properties of the resolution step

  lemma StartLessStrict()
    ensures StrictOrder(StartLess)
  {
  }

  /** The inner loop keeps what was gathered, appends only candidates that
      lie inside the window, never two with one span, and leaves no
      candidate inside the window without a gathered stage of its span. */
  lemma {:induction false} AdmitShape(acc: seq<Stage>, window: Stage, cands: seq<Stage>)
    ensures var r := Admit(acc, window, cands);
      && |acc| <= |r| <= |acc| + |cands| && r[..|acc|] == acc
      && (forall k :: |acc| <= k < |r| ==> r[k] in cands && Inside(window, r[k]))
      && (NoDupSpans(acc) ==> NoDupSpans(r))
      && (forall c :: c in cands && Inside(window, c) ==> exists x :: x in r && SameSpan(x, c))
    decreases |cands|
  {
    if cands != [] {
      var init := cands[..|cands| - 1];
      var c := cands[|cands| - 1];
      var before := Admit(acc, window, init);
      AdmitShape(acc, window, init);
      assert cands == init + [c];
      var r := Admit(acc, window, cands);
      if Inside(window, c) && Fresh(before, c) {
        assert r == before + [c];
        assert r[..|acc|] == before[..|acc|];
        forall d | d in cands && Inside(window, d) ensures exists x :: x in r && SameSpan(x, d) {
          if d != c {
            assert d in init;
            var x :| x in before && SameSpan(x, d);
            assert x in r;
          } else {
            assert r[|r| - 1] == c && SameSpan(r[|r| - 1], d);
            assert r[|r| - 1] in r;
          }
        }
        if NoDupSpans(acc) {
          forall i, j | 0 <= i < j < |r| ensures !SameSpan(r[i], r[j]) {
            if j == |r| - 1 {
              assert r[i] == before[i];
              assert r[i] in before;
            } else {
              assert r[i] == before[i] && r[j] == before[j];
            }
          }
        }
      } else {
        assert r == before;
        forall d | d in cands && Inside(window, d) ensures exists x :: x in r && SameSpan(x, d) {
          if d != c {
            assert d in init;
          } else {
            assert !Fresh(before, c);
          }
        }
      }
    }
  }

  /** Deduplication looks at the span only: of two candidates with one
      start and one end, whatever their levels, only the first is kept. */
  lemma DedupIgnoresLevel(window: Stage, c: Stage, d: Stage)
    requires Inside(window, c) && SameSpan(c, d)
    ensures Admit([], window, [c, d]) == [c]
  {
    assert [c, d][..1] == [c];
    assert [c][..0] == [];
    assert Admit([], window, [c]) == [c];
    assert !Fresh([c], d);
  }

  /** A stage the outer loop gathers: a candidate the lookup returns for
      an active piece, lying inside that piece. */
  ghost predicate GatheredFor(lookup: Stage -> Result<seq<Stage>>, active: seq<Stage>, x: Stage)
  {
    exists w :: w in active && lookup(w).Ok? && Inside(w, x) && x in lookup(w).value
  }

  /** The outer loop fails exactly when the lookup fails for some active
      piece, with the error of the first such piece. */
  lemma {:induction false} GatherErrors(lookup: Stage -> Result<seq<Stage>>, active: seq<Stage>)
    ensures Gather(lookup, active).Err? <==> exists w :: w in active && lookup(w).Err?
    ensures Gather(lookup, active).Err? ==> exists w :: w in active && lookup(w) == Err(Gather(lookup, active).error)
    decreases |active|
  {
    if active != [] {
      var init := active[..|active| - 1];
      GatherErrors(lookup, init);
      assert active == init + [active[|active| - 1]];
    }
  }

  /** When it succeeds, the outer loop gathers only candidates inside
      their pieces, and no two with one span. */
  lemma {:induction false} GatherSound(lookup: Stage -> Result<seq<Stage>>, active: seq<Stage>)
    ensures var r := Gather(lookup, active);
      r.Ok? ==> NoDupSpans(r.value) && forall x :: x in r.value ==> GatheredFor(lookup, active, x)
    decreases |active|
  {
    var r := Gather(lookup, active);
    if active != [] && r.Ok? {
      var init := active[..|active| - 1];
      var w := active[|active| - 1];
      GatherSound(lookup, init);
      var acc := Gather(lookup, init).value;
      var cands := lookup(w).value;
      assert r.value == Admit(acc, w, cands);
      AdmitShape(acc, w, cands);
      forall x | x in r.value ensures GatheredFor(lookup, active, x) {
        var k :| 0 <= k < |r.value| && r.value[k] == x;
        if k < |acc| {
          assert x == acc[k];
          assert x in acc;
          var v :| v in init && lookup(v).Ok? && Inside(v, x) && x in lookup(v).value;
          assert v in active;
        } else {
          assert x in cands && Inside(w, x);
          assert w in active;
        }
      }
    }
  }

  /** When it succeeds, the outer loop has gathered a stage of the span of
      every candidate that lies inside its piece. */
  lemma {:induction false} GatherComplete(lookup: Stage -> Result<seq<Stage>>, active: seq<Stage>)
    ensures var r := Gather(lookup, active);
      r.Ok? ==> forall w, c ::
        w in active && lookup(w).Ok? && c in lookup(w).value && Inside(w, c) ==> exists x :: x in r.value && SameSpan(x, c)
    decreases |active|
  {
    var r := Gather(lookup, active);
    if active != [] && r.Ok? {
      var init := active[..|active| - 1];
      var w := active[|active| - 1];
      GatherComplete(lookup, init);
      var acc := Gather(lookup, init).value;
      var cands := lookup(w).value;
      assert r.value == Admit(acc, w, cands);
      AdmitShape(acc, w, cands);
      forall v, c | v in active && lookup(v).Ok? && c in lookup(v).value && Inside(v, c)
        ensures exists x :: x in r.value && SameSpan(x, c)
      {
        assert active == init + [w];
        if v in init {
          var x :| x in acc && SameSpan(x, c);
          var k :| 0 <= k < |acc| && acc[k] == x;
          assert r.value[k] == x;
        } else {
          assert v == w;
        }
      }
    }
  }

  /** The step fails, with KeyError, exactly when an active piece ends on
      a day the index does not have. */
  lemma ResolutionErrors(index: map<int, seq<ZoneStageByDay>>, zone: int, today: int, live: seq<Stage>)
    ensures var active := ActiveFrom(Midnight(today), SplitAll(RolledAll(live)));
      var r := Resolution(index, zone, today, live);
      && (r.Err? <==> exists w :: w in active && w.end.day !in index)
      && (r.Err? ==> r.error == KeyError)
      && (r.Ok? <==> Gather(Lookup(index, zone), active).Ok?)
  {
    var active := ActiveFrom(Midnight(today), SplitAll(RolledAll(live)));
    var lookup := Lookup(index, zone);
    GatherErrors(lookup, active);
    assert forall w :: lookup(w).Err? <==> w.end.day !in index;
    assert forall w :: lookup(w).Err? ==> lookup(w).error == KeyError;
  }

  /** The final sort and merge: the result is sorted by start, has no more
      stages than were gathered, and each of its stages is a gathered stage
      carrying the end of a gathered stage. */
  lemma FinishProperties(g: seq<Stage>)
    ensures var r := SortBy(Merge(g, AnyOverlap), StartLess);
      && SortedBy(r, StartLess) && |r| <= |g|
      && ComposedFrom(r, g, AnyOverlap)
      && multiset(r) == multiset(Merge(g, AnyOverlap))
  {
    var m := Merge(g, AnyOverlap);
    StartLessStrict();
    SortBySorted(m, StartLess);
    SortByPermutes(m, StartLess);
    MergeShape(g, AnyOverlap);
    MergeProvenance(g, AnyOverlap);
    var r := SortBy(m, StartLess);
    forall x | x in r ensures exists a, b :: a in g && b in g && JoinOf(x, a, b, AnyOverlap) {
      assert x in multiset(m);
      assert x in m;
    }
  }

  /** A successful step returns the sorted merge of what was gathered. */
  lemma ResolutionOk(index: map<int, seq<ZoneStageByDay>>, zone: int, today: int, live: seq<Stage>)
    ensures var active := ActiveFrom(Midnight(today), SplitAll(RolledAll(live)));
      var g := Gather(Lookup(index, zone), active);
      var r := Resolution(index, zone, today, live);
      r.Ok? ==> g.Ok? && SortedBy(r.value, StartLess) && |r.value| <= |g.value| && ComposedFrom(r.value, g.value, AnyOverlap)
  {
    var active := ActiveFrom(Midnight(today), SplitAll(RolledAll(live)));
    var g := Gather(Lookup(index, zone), active);
    if g.Ok? {
      FinishProperties(g.value);
    }
  }

  /** Every stage of a successful result starts as a gathered stage of
      the index does (number, start, key) and ends where a gathered stage
      ends; each gathered stage lies inside an active piece and is one the
      index returns for that piece's end day, start date and level. */
  lemma ResolutionSources(index: map<int, seq<ZoneStageByDay>>, zone: int, today: int, live: seq<Stage>)
    ensures var active := ActiveFrom(Midnight(today), SplitAll(RolledAll(live)));
      var r := Resolution(index, zone, today, live);
      r.Ok? ==> forall x :: x in r.value ==> exists a, b ::
        && GatheredFor(Lookup(index, zone), active, a) && GatheredFor(Lookup(index, zone), active, b)
        && x == Joined(a, b)
  {
    var active := ActiveFrom(Midnight(today), SplitAll(RolledAll(live)));
    var g := Gather(Lookup(index, zone), active);
    ResolutionOk(index, zone, today, live);
    GatherSound(Lookup(index, zone), active);
  }

  /** A gathered stage is one the static rules justify: on the piece's
      start date, at a level no higher than the piece's, with the start
      and the end of rules of the zone at its own level. */
  lemma GatheredFromRules(index: map<int, seq<ZoneStageByDay>>, zone: int, active: seq<Stage>, x: Stage)
    requires GatheredFor(Lookup(index, zone), active, x)
    ensures exists w ::
      w in active && w.end.day in index && Inside(w, x) && FromRules(x, index[w.end.day], zone, w.start.day, w.number)
  {
    var w :| w in active && Lookup(index, zone)(w).Ok? && Inside(w, x) && x in Lookup(index, zone)(w).value;
    QueryDayFromRules(index[w.end.day], zone, w.start.day, w.number);
  }

  /** Once a prefix of the pieces fails, the whole loop fails the same way. */
  lemma {:induction false} GatherStops(lookup: Stage -> Result<seq<Stage>>, active: seq<Stage>, k: nat)
    requires k <= |active| && Gather(lookup, active[..k]).Err?
    ensures Gather(lookup, active) == Gather(lookup, active[..k])
    decreases |active| - k
  {
    if k < |active| {
      var next := active[..k + 1];
      assert next[..k] == active[..k];
      assert Gather(lookup, next) == Gather(lookup, active[..k]);
      GatherStops(lookup, active, k + 1);
    } else {
      assert active[..k] == active;
    }
  }

  // ---------------------------------------------------------------------------
  // The static index from day groups

  /** The days a day group stores rules under directly, `[lo, hi)`; each
      is stored again sixteen days later. An unknown group stores nothing. */
  function DayRange(group: string): (int, int)
  {
    if group == "1-16,17-31" then (1, 17)
    else if group == "1-8,17-24" then (1, 9)
    else if group == "9-16,25-31" then (9, 17)
    else (0, 0)
  }

  /** The rule made for day `d` of the range: the cell `d - lo`. */
  function DayRule(stage: int, start: Timestamp, end: Timestamp, cells: seq<seq<int>>, i: int): ZoneStageByDay
    requires 0 <= i < |cells|
  {
    ZoneStageByDay(stage, start, end, cells[i])
  }

  /** The index after the loop over days `lo` to `hi - 1`. */
  function ZonesAdded(index: map<int, seq<ZoneStageByDay>>, stage: int, start: Timestamp, end: Timestamp,
                      cells: seq<seq<int>>, lo: int, hi: int): map<int, seq<ZoneStageByDay>>
    requires lo <= hi <= lo + |cells|
    decreases hi - lo
  {
    if hi == lo then index
    else
      var prev := ZonesAdded(index, stage, start, end, cells, lo, hi - 1);
      var rule := DayRule(stage, start, end, cells, hi - 1 - lo);
      WithRule(WithRule(prev, hi - 1, rule), hi - 1 + 16, rule)
  }

  /** What the loop adds under day `d`. */
  function AddedOn(stage: int, start: Timestamp, end: Timestamp, cells: seq<seq<int>>, lo: int, hi: int, d: int): seq<ZoneStageByDay>
    requires lo <= hi <= lo + |cells|
  {
    if lo <= d < hi then [DayRule(stage, start, end, cells, d - lo)]
    else if lo + 16 <= d < hi + 16 then [DayRule(stage, start, end, cells, d - 16 - lo)]
    else []
  }

  lemma {:induction false} ZonesAddedDay(index: map<int, seq<ZoneStageByDay>>, stage: int, start: Timestamp, end: Timestamp,
                                         cells: seq<seq<int>>, lo: int, hi: int, d: int)
    requires lo <= hi <= lo + |cells| && hi <= lo + 16
    ensures var r := ZonesAdded(index, stage, start, end, cells, lo, hi);
      && (d in r <==> d in index || lo <= d < hi || lo + 16 <= d < hi + 16)
      && DayRules(r, d) == DayRules(index, d) + AddedOn(stage, start, end, cells, lo, hi, d)
    decreases hi - lo
  {
    if hi > lo {
      var prev := ZonesAdded(index, stage, start, end, cells, lo, hi - 1);
      var rule := DayRule(stage, start, end, cells, hi - 1 - lo);
      ZonesAddedDay(index, stage, start, end, cells, lo, hi - 1, d);
      var mid := WithRule(prev, hi - 1, rule);
      var r := WithRule(mid, hi + 15, rule);
      assert r == ZonesAdded(index, stage, start, end, cells, lo, hi);
      if d == hi - 1 {
        assert AddedOn(stage, start, end, cells, lo, hi - 1, d) == [];
        assert AddedOn(stage, start, end, cells, lo, hi, d) == [rule];
        assert DayRules(mid, d) == DayRules(prev, d) + [rule];
        assert DayRules(r, d) == DayRules(mid, d);
      } else if d == hi + 15 {
        assert AddedOn(stage, start, end, cells, lo, hi - 1, d) == [];
        assert AddedOn(stage, start, end, cells, lo, hi, d) == [rule];
        assert DayRules(mid, d) == DayRules(prev, d);
        assert DayRules(r, d) == DayRules(mid, d) + [rule];
      } else {
        assert AddedOn(stage, start, end, cells, lo, hi - 1, d) == AddedOn(stage, start, end, cells, lo, hi, d);
        assert DayRules(mid, d) == DayRules(prev, d);
        assert DayRules(r, d) == DayRules(mid, d);
      }
    }
  }

  /** A range of at most sixteen days adds to each day of the range, and to
      the day sixteen later, one rule: the one of that day's cell, appended
      after the rules already there. Every other day is untouched. */
  lemma ZonesAddedDays(index: map<int, seq<ZoneStageByDay>>, stage: int, start: Timestamp, end: Timestamp,
                       cells: seq<seq<int>>, lo: int, hi: int)
    requires lo <= hi <= lo + |cells| && hi <= lo + 16
    ensures var r := ZonesAdded(index, stage, start, end, cells, lo, hi);
      && (forall d :: d in r <==> d in index || lo <= d < hi || lo + 16 <= d < hi + 16)
      && (forall d :: DayRules(r, d) == DayRules(index, d) + AddedOn(stage, start, end, cells, lo, hi, d))
  {
    forall d ensures var r := ZonesAdded(index, stage, start, end, cells, lo, hi);
      && (d in r <==> d in index || lo <= d < hi || lo + 16 <= d < hi + 16)
      && DayRules(r, d) == DayRules(index, d) + AddedOn(stage, start, end, cells, lo, hi, d)
    {
      ZonesAddedDay(index, stage, start, end, cells, lo, hi, d);
    }
  }

  /** `process_static_zones` for one rule: the day range of the group,
      one cell per day of it. */
  function StaticZonesAdded(index: map<int, seq<ZoneStageByDay>>, stage: int, group: string, start: Timestamp, end: Timestamp,
                            cells: seq<seq<int>>): map<int, seq<ZoneStageByDay>>
    requires DayRange(group).1 - DayRange(group).0 <= |cells|
  {
    ZonesAdded(index, stage, start, end, cells, DayRange(group).0, DayRange(group).1)
  }

  /** "1-16,17-31", "1-8,17-24" and "9-16,25-31" store rules under days 1
      to 16, 1 to 8 and 9 to 16 and again sixteen days later, day `d`
      taking cell `d - lo`; any other group leaves the index as it was. */
  lemma StaticZonesEffect(index: map<int, seq<ZoneStageByDay>>, stage: int, group: string, start: Timestamp, end: Timestamp,
                          cells: seq<seq<int>>)
    requires DayRange(group).1 - DayRange(group).0 <= |cells|
    ensures group == "1-16,17-31" ==> DayRange(group) == (1, 17)
    ensures group == "1-8,17-24" ==> DayRange(group) == (1, 9)
    ensures group == "9-16,25-31" ==> DayRange(group) == (9, 17)
    ensures group != "1-16,17-31" && group != "1-8,17-24" && group != "9-16,25-31" ==>
      StaticZonesAdded(index, stage, group, start, end, cells) == index
    ensures var (lo, hi) := DayRange(group);
      var r := StaticZonesAdded(index, stage, group, start, end, cells);
      && (forall d :: d in r <==> d in index || lo <= d < hi || lo + 16 <= d < hi + 16)
      && (forall d :: DayRules(r, d) == DayRules(index, d) + AddedOn(stage, start, end, cells, lo, hi, d))
  {
    ZonesAddedDays(index, stage, start, end, cells, DayRange(group).0, DayRange(group).1);
  }

  // ---------------------------------------------------------------------------
  // The program's state and the loops that change it

  /** `merge_stages`: the index scan over a copy of the list, replacing any
      joinable pair by its join. */
  method MergeStages(stages: seq<Stage>) returns (cleaned: seq<Stage>)
    ensures cleaned == Merge(stages, AnyOverlap)
  {
    if |stages| < 2 {
      return stages;
    }
    cleaned := stages;
    var i := 0;
    while i < |cleaned| - 1
      invariant 0 <= i < |cleaned|
      invariant ScanFrom(cleaned, i, AnyOverlap) == Merge(stages, AnyOverlap)
      decreases 2 * |cleaned| - i
    {
      var stage1 := cleaned[i];
      var stage2 := cleaned[i + 1];
      if NotAfter(stage2.start, stage1.end) {
        var newStage := stage1.(end := stage2.end);
        cleaned := cleaned[..i] + cleaned[i + 2..];
        cleaned := cleaned[..i] + [newStage] + cleaned[i..];
      } else {
        i := i + 1;
      }
    }
  }

  /** The `while True` loop of `split_current_schedules` for a stage over
      several days: a piece per day, the start moved to the next midnight
      and the end to the end of the next day, cut at the stage's end. */
  method SplitMultiDay(schedule: Stage, monthLength: int) returns (pieces: seq<Stage>)
    requires Splittable(schedule, monthLength) && schedule.start.day != schedule.end.day
    ensures pieces == SplitStage(schedule)
  {
    ghost var target := SplitStage(schedule);
    pieces := [];
    var day := schedule.start.day;
    var newStart := schedule.start;
    var newEnd := EndOfDay(schedule.start.day);
    while true
      invariant day == schedule.start.day || day <= schedule.end.day
      invariant schedule.start.day <= day
      invariant newEnd == if day == schedule.end.day then schedule.end else EndOfDay(day)
      invariant pieces + [NewStage(schedule.number, newStart, newEnd)] + LaterPieces(schedule.number, day + 1, schedule.end)
        == target
      decreases schedule.end.day - day
    {
      var s := NewStage(schedule.number, newStart, newEnd);
      ghost var before := pieces;
      pieces := pieces + [s];
      day := day + 1;
      newStart := WithDay(Midnight(day), day, monthLength);
      if Before(schedule.end, newStart) {
        SplitStepLast(schedule.number, day, schedule.end, before, s, target);
        break;
      }
      newEnd := WithDay(newEnd, day, monthLength);
      if Before(schedule.end, newEnd) {
        newEnd := schedule.end;
      }
      SplitStepNext(schedule.number, day, schedule.end, before, s, target);
    }
  }

  /** The loop's step on a day the stage still reaches: the piece just
      appended is followed by the piece of that day. */
  lemma SplitStepNext(number: int, day: int, end: Timestamp, pieces: seq<Stage>, s: Stage, target: seq<Stage>)
    requires day <= end.day && pieces + [s] + LaterPieces(number, day, end) == target
    ensures (pieces + [s]) + [NewStage(number, Midnight(day), if day == end.day then end else EndOfDay(day))]
      + LaterPieces(number, day + 1, end) == target
  {
    LaterPiecesStep(number, day, end);
  }

  /** The loop's step past the stage's last day: nothing follows the piece
      just appended. */
  lemma SplitStepLast(number: int, day: int, end: Timestamp, pieces: seq<Stage>, s: Stage, target: seq<Stage>)
    requires end.day < day && pieces + [s] + LaterPieces(number, day, end) == target
    ensures pieces + [s] == target
  {
    assert LaterPieces(number, day, end) == [];
  }


  /** The inner loop of the resolution block: a candidate inside the
      piece is appended unless a stage of its span is already there. */
  method AdmitCandidates(acc: seq<Stage>, schedule: Stage, stagesForToday: seq<Stage>) returns (newStages: seq<Stage>)
    ensures newStages == Admit(acc, schedule, stagesForToday)
  {
    newStages := acc;
    for j := 0 to |stagesForToday|
      invariant newStages == Admit(acc, schedule, stagesForToday[..j])
    {
      var staticStage := stagesForToday[j];
      assert stagesForToday[..j + 1][..j] == stagesForToday[..j];
      if NotAfter(schedule.start, staticStage.start) && NotAfter(staticStage.end, schedule.end) {
        if Fresh(newStages, staticStage) {
          newStages := newStages + [staticStage];
        }
      }
    }
    assert stagesForToday[..|stagesForToday|] == stagesForToday;
  }

  /** The module-level state of the program: the live schedule list and
      the static zone index. */
  class Program {
    var schedules: seq<Stage>
    const staticZones: ZoneStageMap

    constructor (live: seq<Stage>)
      ensures schedules == live && fresh(staticZones) && staticZones.stageByDay == map[]
    {
      schedules := live;
      staticZones := new ZoneStageMap();
    }

    /** `process_static_zones`: the rule of each day of the group, stored
        under that day and sixteen days later. */
    method ProcessStaticZones(stage: int, dayGroup: string, start: Timestamp, end: Timestamp, zoneList: seq<seq<int>>)
      requires DayRange(dayGroup).1 - DayRange(dayGroup).0 <= |zoneList|
      modifies staticZones
      ensures staticZones.stageByDay == StaticZonesAdded(old(staticZones.stageByDay), stage, dayGroup, start, end, zoneList)
    {
      var startDay := 0;
      var maxDay := 0;
      if dayGroup == "1-16,17-31" {
        startDay, maxDay := 1, 17;
      } else if dayGroup == "1-8,17-24" {
        startDay, maxDay := 1, 9;
      } else if dayGroup == "9-16,25-31" {
        startDay, maxDay := 9, 17;
      }
      for day := startDay to maxDay
        invariant staticZones.stageByDay == ZonesAdded(old(staticZones.stageByDay), stage, start, end, zoneList, startDay, day)
      {
        var zonesForDay := zoneList[day - startDay];
        var zoneStage := ZoneStageByDay(stage, start, end, zonesForDay);
        staticZones.AddZoneStage(day, zoneStage);
        staticZones.AddZoneStage(day + 16, zoneStage);
      }
    }

    /** The loop before the split: an end not after its start is moved a
        day on, in place. */
    method RollOverSchedules()
      modifies this
      ensures schedules == RolledAll(old(schedules))
    {
      for k := 0 to |schedules|
        invariant |schedules| == |old(schedules)|
        invariant forall i :: 0 <= i < k ==> schedules[i] == RolledOver(old(schedules)[i])
        invariant forall i :: k <= i < |schedules| ==> schedules[i] == old(schedules)[i]
      {
        var s := schedules[k];
        if NotAfter(s.end, s.start) {
          schedules := schedules[k := s.(end := AddDay(s.end))];
        }
      }
    }

    /** `split_current_schedules`, the pieces of a multi-day stage made by
        `SplitMultiDay`. */
    method SplitCurrentSchedules(monthLength: int)
      requires forall s :: s in schedules ==> Splittable(s, monthLength)
      modifies this
      ensures schedules == SplitAll(old(schedules))
    {
      var newSchedules: seq<Stage> := [];
      for k := 0 to |schedules|
        invariant schedules == old(schedules)
        invariant newSchedules == SplitAll(schedules[..k])
      {
        var schedule := schedules[k];
        assert schedules[..k + 1] == schedules[..k] + [schedule];
        SplitAllAppend(schedules[..k], [schedule]);
        assert SplitAll([schedule]) == SplitStage(schedule) by {
          assert [schedule][..0] == [];
        }
        if schedule.end.day == schedule.start.day {
          newSchedules := newSchedules + [schedule];
        } else {
          assert schedule in schedules;
          var pieces := SplitMultiDay(schedule, monthLength);
          newSchedules := newSchedules + pieces;
        }
      }
      assert schedules[..|schedules|] == schedules;
      schedules := newSchedules;
    }

    /** The loop over the active pieces of the resolution block: the index
        asked for each, the candidates inside the piece with a new span
        appended. */
    method GatherStages(zone: int, active: seq<Stage>) returns (r: Result<seq<Stage>>)
      ensures r == Gather(Lookup(staticZones.stageByDay, zone), active)
    {
      ghost var lookup := Lookup(staticZones.stageByDay, zone);
      var newStages: seq<Stage> := [];
      for k := 0 to |active|
        invariant Gather(lookup, active[..k]) == Ok(newStages)
      {
        var schedule := active[k];
        var found := staticZones.GetForDayAndZone(schedule.end.day, zone, schedule.start.day, schedule.number);
        assert found == lookup(schedule);
        assert active[..k + 1][..k] == active[..k];
        if found.Err? {
          assert Gather(lookup, active[..k + 1]) == Err(found.error);
          GatherStops(lookup, active, k + 1);
          return Err(found.error);
        }
        newStages := AdmitCandidates(newStages, schedule, found.value);
      }
      assert active[..|active|] == active;
      r := Ok(newStages);
    }

    /** The resolution block of `main` for a zone on a day: roll over,
        split, keep the active pieces, match each against the static index,
        merge and sort by start. */
    method Resolve(zone: int, today: int, monthLength: int) returns (r: Result<seq<Stage>>)
      requires forall s :: s in schedules ==> Splittable(RolledOver(s), monthLength)
      modifies this
      ensures schedules == SplitAll(RolledAll(old(schedules)))
      ensures r == Resolution(staticZones.stageByDay, zone, today, old(schedules))
    {
      RollOverSchedules();
      assert forall s :: s in schedules ==> Splittable(s, monthLength) by {
        forall s | s in schedules ensures Splittable(s, monthLength) {
          var i :| 0 <= i < |schedules| && schedules[i] == s;
          assert old(schedules)[i] in old(schedules);
        }
      }
      SplitCurrentSchedules(monthLength);
      var timeNow := Midnight(today);
      var active := ActiveFrom(timeNow, schedules);
      var gathered := GatherStages(zone, active);
      if gathered.Err? {
        return Err(gathered.error);
      }
      var newStages := gathered.value;
      newStages := MergeStages(newStages);
      r := Ok(SortBy(newStages, StartLess));
    }
  }
}
