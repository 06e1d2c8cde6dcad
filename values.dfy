/** The values the structural mapper walks: Python scalars, enum members,
    lists, string-keyed dicts and instances of the three registered classes,
    each instance carrying its `__dict__` as an ordered list of entries. */
module Values {
  import opened Wrappers
  import opened Time

  /** The classes of the core that the mapper can instantiate. */
  datatype ClassName = StageClass | ZoneStageByDayClass | ZoneStageMapClass

  datatype Scalar =
    | NoneV
    | BoolV(b: bool)
    | IntV(i: int)
    | StrV(s: string)
    | DateV(t: Timestamp)

  datatype Value =
    | Atom(scalar: Scalar)
    | EnumV(enumClass: string, member: string)
    | ListV(items: seq<Value>)
    | DictV(entries: seq<Entry>)
    | ObjV(cls: ClassName, attrs: seq<Entry>)

  datatype Entry = Entry(name: string, val: Value)

  /** The foreign conversions the core calls: `int(str)` and
      `datetime.fromisoformat(str)`, `None` where they raise ValueError. */
  datatype Builtins = Builtins(parseInt: string -> Option<int>, parseIso: string -> Option<Timestamp>)

  /** The keys of a dict or the attribute names of an object, in order. */
  function Names(entries: seq<Entry>): (r: seq<string>)
    ensures |r| == |entries|
    ensures forall i :: 0 <= i < |entries| ==> r[i] == entries[i].name
  {
    seq(|entries|, i requires 0 <= i < |entries| => entries[i].name)
  }

  /** Position of the first entry named `name`, or -1. */
  function IndexOf(entries: seq<Entry>, name: string): (r: int)
    ensures r == -1 <==> name !in Names(entries)
    ensures 0 <= r ==> r < |entries| && entries[r].name == name
  {
    if |entries| == 0 then -1
    else if entries[0].name == name then 0
    else
      var k := IndexOf(entries[1..], name);
      assert Names(entries) == [entries[0].name] + Names(entries[1..]);
      if k < 0 then -1 else k + 1
  }

  /** `obj[name]`: KeyError when the key is absent. */
  function Lookup(entries: seq<Entry>, name: string): (r: Result<Value>)
    ensures r.Ok? <==> name in Names(entries)
    ensures r.Err? ==> r.error == KeyError
  {
    var k := IndexOf(entries, name);
    if k < 0 then Err(KeyError) else Ok(entries[k].val)
  }
}
