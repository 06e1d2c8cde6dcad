/** `Lst.first`, `Lst.last` and `get_date`. */
module Extensions {
  import opened Wrappers
  import opened Time
  import opened Values

  /** `Lst.first()`: None on an empty list, element 0 otherwise. */
  function First<T>(s: seq<T>): (r: Option<T>)
    ensures |s| == 0 <==> r.None?
    ensures r.Some? ==> r.value == s[0]
  {
    if |s| == 0 then None else Some(s[0])
  }

  /** `Lst.last()`: None on an empty list, element len-1 otherwise. */
  function Last<T>(s: seq<T>): (r: Option<T>)
    ensures |s| == 0 <==> r.None?
    ensures r.Some? ==> r.value == s[|s| - 1]
  {
    if |s| == 0 then None else Some(s[|s| - 1])
  }

  /** `last()` reads what `append` put there; `first()` is not disturbed by
      appending to a non-empty list. */
  lemma AppendEnds<T>(s: seq<T>, x: T)
    ensures Last(s + [x]) == Some(x)
    ensures |s| > 0 ==> First(s + [x]) == First(s)
  {
  }

  /** `get_date(v)`: a datetime is returned as it is; anything else goes to
      `datetime.fromisoformat`, which accepts only strings. */
  function GetDate(v: Value, b: Builtins): (r: Result<Timestamp>)
    ensures v.Atom? && v.scalar.DateV? ==> r == Ok(v.scalar.t)
    ensures !(v.Atom? && (v.scalar.DateV? || v.scalar.StrV?)) ==> r == Err(TypeError)
    ensures v.Atom? && v.scalar.StrV? ==> (r.Ok? <==> b.parseIso(v.scalar.s).Some?)
  {
    match v
    case Atom(DateV(t)) => Ok(t)
    case Atom(StrV(s)) =>
      (match b.parseIso(s)
       case Some(t) => Ok(t)
       case None => Err(ValueError))
    case _ => Err(TypeError)
  }
}
