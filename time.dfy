/** Timestamps of one calendar month: a day of the month and a microsecond of
    that day, ordered as `datetime` orders them, with the clock arithmetic the
    program uses (`time.max`, midnight, `timedelta(days=1)`, `combine`) and
    the text `str(datetime)` gives them. */
module Time {
  import opened Text

  const MicrosPerSecond: int := 1_000_000
  const MicrosPerDay: int := 86_400_000_000
  /** `datetime.time.max`, 23:59:59.999999. */
  const TimeMax: int := MicrosPerDay - 1

  datatype Timestamp = Timestamp(day: int, micro: int)

  /** A timestamp `datetime` can hold: a day 1..31 and a clock time of that day. */
  predicate WellFormed(t: Timestamp)
  {
    1 <= t.day <= 31 && 0 <= t.micro < MicrosPerDay
  }

  /** `a < b` on datetimes of one month. */
  predicate Before(a: Timestamp, b: Timestamp)
  {
    a.day < b.day || (a.day == b.day && a.micro < b.micro)
  }

  /** `a <= b` on datetimes of one month. */
  predicate NotAfter(a: Timestamp, b: Timestamp)
  {
    a.day < b.day || (a.day == b.day && a.micro <= b.micro)
  }

  /** Midnight of a day: `replace(hour=0, minute=0, second=0, microsecond=0)`. */
  function Midnight(day: int): Timestamp
  {
    Timestamp(day, 0)
  }

  /** `combine(date, time.max)`. */
  function EndOfDay(day: int): Timestamp
  {
    Timestamp(day, TimeMax)
  }

  /** `t + timedelta(days=1)` inside the month. */
  function AddDay(t: Timestamp): Timestamp
  {
    Timestamp(t.day + 1, t.micro)
  }

  /** `datetime.combine(date, clock.time())`: the date of one, the clock of the other. */
  function Combine(date: int, clock: Timestamp): Timestamp
  {
    Timestamp(date, clock.micro)
  }

  // ---------------------------------------------------------------------------
  // `str(datetime)` without the "YYYY-MM-" prefix every timestamp of the month
  // shares: "DD HH:MM:SS", followed by ".ffffff" when the microseconds are not 0.

  function Fraction(us: nat): string
  {
    if us == 0 then "" else "." + Pad(us, 6)
  }

  function ClockText(micro: nat): string
  {
    SecondsText(micro / MicrosPerSecond)
  }

  /** "HH:MM:SS" of a second of the day. */
  function SecondsText(sec: nat): string
  {
    var mins := sec / 60;
    Pad(mins / 60, 2) + (":" + (Pad(mins % 60, 2) + (":" + Pad(sec % 60, 2))))
  }

  function StampText(t: Timestamp): string
  {
    Pad(t.day % 100, 2) + (" " + (ClockText(t.micro % MicrosPerDay) + Fraction(t.micro % MicrosPerSecond)))
  }

  lemma {:induction false} FractionOrder(a: nat, b: nat)
    requires a < MicrosPerSecond && b < MicrosPerSecond
    ensures StrLt(Fraction(a), Fraction(b)) <==> a < b
    ensures Fraction(a) == Fraction(b) <==> a == b
  {
    if a != 0 && b != 0 {
      PadOrder(a, b, 6);
      ConcatOrder(".", ".", Pad(a, 6), Pad(b, 6));
    } else if a != 0 {
      assert |Fraction(a)| == 7;
    } else if b != 0 {
      assert |Fraction(b)| == 7;
    }
  }

  /** "HH:MM:SS" order is the order of whole seconds of the day. */
  lemma ClockOrder(a: nat, b: nat)
    requires a < MicrosPerDay && b < MicrosPerDay
    ensures StrLt(ClockText(a), ClockText(b)) <==> a / MicrosPerSecond < b / MicrosPerSecond
    ensures ClockText(a) == ClockText(b) <==> a / MicrosPerSecond == b / MicrosPerSecond
  {
    SecondsOrder(a / MicrosPerSecond, b / MicrosPerSecond);
  }

  lemma SecondsOrder(sa: nat, sb: nat)
    requires sa < 86400 && sb < 86400
    ensures StrLt(SecondsText(sa), SecondsText(sb)) <==> sa < sb
    ensures SecondsText(sa) == SecondsText(sb) <==> sa == sb
  {
    var ma, mb := sa / 60, sb / 60;
    assert ma < 1440 && mb < 1440;
    PadOrder(ma / 60, mb / 60, 2);
    PadOrder(ma % 60, mb % 60, 2);
    PadOrder(sa % 60, sb % 60, 2);
    var ta := ":" + (Pad(ma % 60, 2) + (":" + Pad(sa % 60, 2)));
    var tb := ":" + (Pad(mb % 60, 2) + (":" + Pad(sb % 60, 2)));
    ConcatOrder(Pad(ma / 60, 2), Pad(mb / 60, 2), ta, tb);
    ConcatOrder(":", ":", Pad(ma % 60, 2) + (":" + Pad(sa % 60, 2)), Pad(mb % 60, 2) + (":" + Pad(sb % 60, 2)));
    ConcatOrder(Pad(ma % 60, 2), Pad(mb % 60, 2), ":" + Pad(sa % 60, 2), ":" + Pad(sb % 60, 2));
    ConcatOrder(":", ":", Pad(sa % 60, 2), Pad(sb % 60, 2));
    DivModOrder(ma, mb, 60);
    DivModOrder(sa, sb, 60);
  }

  /** The clock with its fraction orders as the microsecond of the day. */
  lemma ClockFractionOrder(a: nat, b: nat)
    requires a < MicrosPerDay && b < MicrosPerDay
    ensures StrLt(ClockText(a) + Fraction(a % MicrosPerSecond), ClockText(b) + Fraction(b % MicrosPerSecond)) <==> a < b
    ensures ClockText(a) + Fraction(a % MicrosPerSecond) == ClockText(b) + Fraction(b % MicrosPerSecond) <==> a == b
  {
    ClockOrder(a, b);
    ConcatOrder(ClockText(a), ClockText(b), Fraction(a % MicrosPerSecond), Fraction(b % MicrosPerSecond));
    FractionOrder(a % MicrosPerSecond, b % MicrosPerSecond);
    DivModOrder(a, b, MicrosPerSecond);
  }

  lemma StampTextParts(t: Timestamp)
    requires WellFormed(t)
    ensures StampText(t) == Pad(t.day, 2) + (" " + (ClockText(t.micro) + Fraction(t.micro % MicrosPerSecond)))
  {
    assert t.micro % MicrosPerDay == t.micro && t.day % 100 == t.day;
  }

  /** Everything after the day: " HH:MM:SS[.ffffff]". */
  lemma AfterDayOrder(a: nat, b: nat)
    requires a < MicrosPerDay && b < MicrosPerDay
    ensures var ra, rb := " " + (ClockText(a) + Fraction(a % MicrosPerSecond)), " " + (ClockText(b) + Fraction(b % MicrosPerSecond));
      (StrLt(ra, rb) <==> a < b) && (ra == rb <==> a == b)
  {
    ClockFractionOrder(a, b);
    ConcatOrder(" ", " ", ClockText(a) + Fraction(a % MicrosPerSecond), ClockText(b) + Fraction(b % MicrosPerSecond));
  }

  /** The text of a timestamp sorts exactly as the timestamp: sorting by
      `str(start_time)` sorts chronologically within the month. */
  lemma StampTextOrder(a: Timestamp, b: Timestamp)
    requires WellFormed(a) && WellFormed(b)
    ensures StrLt(StampText(a), StampText(b)) <==> Before(a, b)
    ensures StampText(a) == StampText(b) <==> a == b
  {
    var ra := " " + (ClockText(a.micro) + Fraction(a.micro % MicrosPerSecond));
    var rb := " " + (ClockText(b.micro) + Fraction(b.micro % MicrosPerSecond));
    StampTextParts(a);
    StampTextParts(b);
    AfterDayOrder(a.micro, b.micro);
    PadOrder(a.day, b.day, 2);
    ConcatOrder(Pad(a.day, 2), Pad(b.day, 2), ra, rb);
  }
}
