/** The structural mapper: `unmap` turns objects into plain dicts, `remap`
    turns dicts back into instances of registered classes, recognised by
    their sorted set of keys. */
module Serializer {
  import opened Wrappers
  import opened Text
  import opened Sorting
  import opened Time
  import opened Values
  import opened Classes

  // ---------------------------------------------------------------------------
  // Signatures and the registry

  /** `getClassSignature`: the keys in sorted order, joined by ':'. */
  function GetClassSignature(names: seq<string>): string
  {
    Join(":", SortBy(names, StrLt))
  }

  lemma StrLtTotal()
    ensures StrictOrder(StrLt) && Trichotomous(StrLt)
  {
    forall a: string ensures !StrLt(a, a) { StrLtIrreflexive(a); }
    forall a: string, b: string, c: string | StrLt(a, b) && StrLt(b, c) ensures StrLt(a, c) {
      StrLtTransitive(a, b, c);
    }
    forall a: string, b: string ensures a == b || StrLt(a, b) || StrLt(b, a) { StrLtTrichotomy(a, b); }
  }

  /** The signature is the ':'-join of the one sorted arrangement of the
      keys, so it does not depend on the order the keys come in. */
  lemma SignatureOfSorted(names: seq<string>, sorted: seq<string>)
    requires SortedBy(sorted, StrLt) && multiset(sorted) == multiset(names)
    ensures GetClassSignature(names) == Join(":", sorted)
  {
    StrLtTotal();
    SortByPermutes(names, StrLt);
    SortBySorted(names, StrLt);
    SortedUnique(SortBy(names, StrLt), sorted, StrLt);
  }

  lemma SignatureIgnoresOrder(a: seq<string>, b: seq<string>)
    requires multiset(a) == multiset(b)
    ensures GetClassSignature(a) == GetClassSignature(b)
  {
    StrLtTotal();
    SortByIgnoresOrder(a, b, StrLt);
  }

  /** The signature `register` files a class under: the given one, or the
      instance's attribute names when none is given. */
  function SignatureFor(attrs: seq<Entry>, signature: string): string
  {
    if signature == "" then GetClassSignature(Names(attrs)) else signature
  }

  /** The registry after `register(instance, signature)`. */
  function Registered(classes: map<string, ClassName>, cls: ClassName, attrs: seq<Entry>, signature: string): map<string, ClassName>
  {
    classes[SignatureFor(attrs, signature) := cls]
  }

  /** Registering files the class under its signature and touches no other
      signature; a later registration under the same signature replaces the
      earlier one. */
  lemma RegisteredEffect(classes: map<string, ClassName>, cls: ClassName, attrs: seq<Entry>, signature: string)
    ensures var r := Registered(classes, cls, attrs, signature);
      && SignatureFor(attrs, signature) in r && r[SignatureFor(attrs, signature)] == cls
      && (signature != "" ==> SignatureFor(attrs, signature) == signature)
      && (forall sig :: sig != SignatureFor(attrs, signature) ==> (sig in r <==> sig in classes))
      && (forall sig :: sig != SignatureFor(attrs, signature) && sig in classes ==> r[sig] == classes[sig])
    ensures forall other: ClassName, more: seq<Entry> :: signature != "" ==>
      Registered(Registered(classes, other, more, signature), cls, attrs, signature) == Registered(classes, cls, attrs, signature)
  {
  }

  /** The three registrations made when the classes are defined: `Stage`
      under an explicit signature, the other two under their own. */
  function CoreRegistrations(classes: map<string, ClassName>): map<string, ClassName>
  {
    var withStage := Registered(classes, StageClass, DefaultAttrs(StageClass), "end_time:number:start_time");
    var withRule := Registered(withStage, ZoneStageByDayClass, DefaultAttrs(ZoneStageByDayClass), "");
    Registered(withRule, ZoneStageMapClass, DefaultAttrs(ZoneStageMapClass), "")
  }

  function CoreRegistry(): map<string, ClassName>
  {
    CoreRegistrations(map[])
  }

  /** The signature of keys that, sorted, read `sorted`. */
  lemma SignatureOfChain(names: seq<string>, sorted: seq<string>)
    requires forall k :: 0 <= k < |sorted| - 1 ==> StrLt(sorted[k], sorted[k + 1])
    requires multiset(sorted) == multiset(names)
    ensures GetClassSignature(names) == Join(":", sorted)
  {
    StrLtTotal();
    ChainSorted(sorted, StrLt);
    SignatureOfSorted(names, sorted);
  }

  lemma JoinThree(a: string, b: string, c: string)
    ensures Join(":", [a, b, c]) == a + ":" + (b + ":" + c)
  {
    assert [a, b, c][1..] == [b, c] && [b, c][1..] == [c];
    assert Join(":", [b, c]) == b + ":" + c;
    assert a + ":" + (b + ":" + c) == (a + ":") + (b + ":" + c);
  }

  lemma JoinFour(a: string, b: string, c: string, d: string)
    ensures Join(":", [a, b, c, d]) == a + ":" + (b + ":" + (c + ":" + d))
  {
    assert [a, b, c, d][1..] == [b, c, d];
    JoinThree(b, c, d);
    assert a + ":" + (b + ":" + (c + ":" + d)) == (a + ":") + (b + ":" + (c + ":" + d));
  }

  lemma RuleKeysChain()
    ensures StrLt("end_time", "stage") && StrLt("stage", "start_time") && StrLt("start_time", "zone_list")
  {
    StrLtAt("end_time", "stage", 0);
    StrLtAt("stage", "start_time", 3);
    StrLtAt("start_time", "zone_list", 0);
  }

  lemma RuleSignatureText()
    ensures "end_time" + ":" + ("stage" + ":" + ("start_time" + ":" + "zone_list")) == "end_time:stage:start_time:zone_list"
  {
  }

  /** Four keys that sort as a < b < c < d sign as their ':'-join in that
      order, whatever order they come in. */
  lemma SignatureOfFour(names: seq<string>, a: string, b: string, c: string, d: string)
    requires StrLt(a, b) && StrLt(b, c) && StrLt(c, d)
    requires multiset(names) == multiset([a, b, c, d])
    ensures GetClassSignature(names) == a + ":" + (b + ":" + (c + ":" + d))
  {
    SignatureOfChain(names, [a, b, c, d]);
    JoinFour(a, b, c, d);
  }

  lemma RuleNames(z: ZoneStageByDay)
    ensures multiset(Names(RuleAttrs(z))) == multiset(["end_time", "stage", "start_time", "zone_list"])
  {
    NamesOfFour(RuleAttrs(z));
    Rotate4("end_time", "stage", "start_time", "zone_list");
  }

  lemma NamesOfFour(entries: seq<Entry>)
    requires |entries| == 4
    ensures Names(entries) == [entries[0].name, entries[1].name, entries[2].name, entries[3].name]
  {
  }

  /** Small permutations of four names, built from one rotation of three. */
  lemma Rotate4<T>(a: T, b: T, c: T, d: T)
    ensures multiset([b, c, a, d]) == multiset([a, b, c, d])
  {
    Rotate3(a, b, c);
    assert [b, c, a, d] == [b, c, a] + [d];
    assert [a, b, c, d] == [a, b, c] + [d];
  }

  lemma Rotate4Tail<T>(a: T, b: T, c: T, d: T)
    ensures multiset([a, c, d, b]) == multiset([a, b, c, d])
  {
    Rotate3(b, c, d);
    assert [a, c, d, b] == [a] + [c, d, b];
    assert [a, b, c, d] == [a] + [b, c, d];
  }

  lemma Swap4<T>(a: T, b: T, c: T, d: T)
    ensures multiset([c, d, a, b]) == multiset([a, b, c, d])
  {
    Rotate4(a, c, d, b);
    Rotate4Tail(a, b, c, d);
  }

  lemma Rotate3<T>(a: T, b: T, c: T)
    ensures multiset([b, c, a]) == multiset([a, b, c])
  {
  }

  lemma RuleSignature(z: ZoneStageByDay)
    ensures GetClassSignature(Names(RuleAttrs(z))) == "end_time:stage:start_time:zone_list"
  {
    RuleNames(z);
    RuleKeysChain();
    SignatureOfFour(Names(RuleAttrs(z)), "end_time", "stage", "start_time", "zone_list");
    RuleSignatureText();
  }

  lemma StageKeysChain()
    ensures StrLt("end_time", "key") && StrLt("key", "number") && StrLt("number", "start_time")
  {
    StrLtAt("end_time", "key", 0);
    StrLtAt("key", "number", 0);
    StrLtAt("number", "start_time", 0);
  }

  lemma StageSignatureText()
    ensures "end_time" + ":" + ("key" + ":" + ("number" + ":" + "start_time")) == "end_time:key:number:start_time"
  {
  }

  lemma StageNames(s: Stage)
    ensures multiset(Names(StageAttrs(s))) == multiset(["end_time", "key", "number", "start_time"])
  {
    NamesOfFour(StageAttrs(s));
    Swap4("end_time", "key", "number", "start_time");
  }

  /** `unmap` of a stage emits `key` too, so its keys sign as
      "end_time:key:number:start_time". */
  lemma StageSignature(s: Stage)
    ensures GetClassSignature(Names(StageAttrs(s))) == "end_time:key:number:start_time"
  {
    StageNames(s);
    StageKeysChain();
    SignatureOfFour(Names(StageAttrs(s)), "end_time", "key", "number", "start_time");
    StageSignatureText();
  }

  lemma LoadSignatureText()
    ensures "end_time" + ":" + ("number" + ":" + "start_time") == "end_time:number:start_time"
  {
  }

  lemma LoadSignature(obj: seq<Entry>)
    requires Names(obj) == ["number", "start_time", "end_time"]
    ensures GetClassSignature(Names(obj)) == "end_time:number:start_time"
  {
    var n, st, e := "number", "start_time", "end_time";
    assert multiset(Names(obj)) == multiset([e, n, st]);
    StageKeysChain();
    SignatureOfChain(Names(obj), [e, n, st]);
    JoinThree(e, n, st);
    LoadSignatureText();
  }

  /** The registry the classes leave behind: `Stage` under its explicit
      signature, `ZoneStageByDay` under "end_time:stage:start_time:zone_list",
      `ZoneStageMap` under "stage_by_day"; the signature of an unmapped
      stage is not among them. */
  lemma CoreRegistryContents()
    ensures CoreRegistry() == map["end_time:number:start_time" := StageClass,
                                  "end_time:stage:start_time:zone_list" := ZoneStageByDayClass,
                                  "stage_by_day" := ZoneStageMapClass]
    ensures "end_time:key:number:start_time" !in CoreRegistry()
  {
    RuleDefaultSignature();
    MapDefaultSignature();
    var withStage := Registered(map[], StageClass, DefaultAttrs(StageClass), "end_time:number:start_time");
    assert withStage == map["end_time:number:start_time" := StageClass];
    var withRule := Registered(withStage, ZoneStageByDayClass, DefaultAttrs(ZoneStageByDayClass), "");
    assert withRule == withStage["end_time:stage:start_time:zone_list" := ZoneStageByDayClass];
  }

  /** The signature `ZoneStageByDay` registers under. */
  lemma RuleDefaultSignature()
    ensures SignatureFor(DefaultAttrs(ZoneStageByDayClass), "") == "end_time:stage:start_time:zone_list"
  {
    RuleSignature(ZoneStageByDay(0, Classes.DatetimeMin, Classes.DatetimeMin, []));
  }

  /** The signature `ZoneStageMap` registers under. */
  lemma MapDefaultSignature()
    ensures SignatureFor(DefaultAttrs(ZoneStageMapClass), "") == "stage_by_day"
  {
    assert Names(DefaultAttrs(ZoneStageMapClass)) == ["stage_by_day"];
  }

  // ---------------------------------------------------------------------------
  // unmap

  /** `str(member)` of an enum member. */
  function EnumText(enumClass: string, member: string): string
  {
    enumClass + "." + member
  }

  /** `name.startswith("_")`. */
  predicate Private(name: string)
  {
    |name| > 0 && name[0] == '_'
  }

  /** The attributes an object contributes: those not starting with '_'. */
  function Public(attrs: seq<Entry>): (r: seq<Entry>)
    ensures forall e :: e in r ==> e in attrs && !Private(e.name)
    ensures forall e :: e in attrs && !Private(e.name) ==> e in r
    ensures (forall i :: 0 <= i < |attrs| ==> !Private(attrs[i].name)) ==> r == attrs
  {
    if |attrs| == 0 then []
    else
      var head := if Private(attrs[0].name) then [] else [attrs[0]];
      assert attrs == [attrs[0]] + attrs[1..];
      head + Public(attrs[1..])
  }

  /** `unmap`: lists element by element, an enum as its text, an object as
      the dict of its public attributes, a dict with its values unmapped;
      anything else as it is. */
  function Unmapped(v: Value): Value
    decreases v
  {
    match v
    case ListV(items) => ListV(seq(|items|, i requires 0 <= i < |items| => Unmapped(items[i])))
    case EnumV(c, m) => Atom(StrV(EnumText(c, m)))
    case ObjV(_, attrs) =>
      var d := Public(attrs);
      DictV(seq(|d|, i requires 0 <= i < |d| => assert d[i] in attrs; Entry(d[i].name, Unmapped(d[i].val))))
    case DictV(entries) => DictV(seq(|entries|, i requires 0 <= i < |entries| => Entry(entries[i].name, Unmapped(entries[i].val))))
    case Atom(_) => v
  }

  /** A tree JSON can carry: no objects and no enum members anywhere. */
  predicate Plain(v: Value)
    decreases v
  {
    match v
    case Atom(_) => true
    case EnumV(_, _) => false
    case ListV(items) => forall i :: 0 <= i < |items| ==> Plain(items[i])
    case DictV(entries) => forall i :: 0 <= i < |entries| ==> Plain(entries[i].val)
    case ObjV(_, _) => false
  }

  /** `unmap` leaves a plain tree as it is. */
  lemma {:induction false} PlainFixed(v: Value)
    requires Plain(v)
    ensures Unmapped(v) == v
    decreases v
  {
    match v
    case ListV(items) =>
      forall i | 0 <= i < |items| ensures Unmapped(items[i]) == items[i] { PlainFixed(items[i]); }
    case DictV(entries) =>
      forall i | 0 <= i < |entries| ensures Unmapped(entries[i].val) == entries[i].val { PlainFixed(entries[i].val); }
      assert Unmapped(v).entries == entries;
    case Atom(_) =>
  }

  /** `unmap` leaves no object and no enum behind. */
  lemma {:induction false} UnmappedPlain(v: Value)
    ensures Plain(Unmapped(v))
    decreases v
  {
    match v
    case ListV(items) =>
      forall i | 0 <= i < |items| ensures Plain(Unmapped(items[i])) { UnmappedPlain(items[i]); }
    case EnumV(c, m) =>
    case ObjV(_, attrs) =>
      var d := Public(attrs);
      forall i | 0 <= i < |d| ensures Plain(Unmapped(d[i].val)) {
        assert d[i] in attrs;
        UnmappedPlain(d[i].val);
      }
    case DictV(entries) =>
      forall i | 0 <= i < |entries| ensures Plain(Unmapped(entries[i].val)) { UnmappedPlain(entries[i].val); }
    case Atom(_) =>
  }

  /** Unmapping twice is unmapping once. */
  lemma UnmapIdempotent(v: Value)
    ensures Unmapped(Unmapped(v)) == Unmapped(v)
  {
    UnmappedPlain(v);
    PlainFixed(Unmapped(v));
  }

  // ---------------------------------------------------------------------------
  // remap

  /** The first failure of a run of conversions, or all their values. */
  function Collect(rs: seq<Result<Value>>): (r: Result<seq<Value>>)
    ensures r.Ok? <==> forall i :: 0 <= i < |rs| ==> rs[i].Ok?
    ensures r.Ok? ==> |r.value| == |rs| && forall i :: 0 <= i < |rs| ==> rs[i] == Ok(r.value[i])
    ensures forall k :: 0 <= k < |rs| && rs[k].Err? && (forall j :: 0 <= j < k ==> rs[j].Ok?) ==> r == Err(rs[k].error)
  {
    if |rs| == 0 then Ok([])
    else if rs[0].Err? then Err(rs[0].error)
    else
      var rest := Collect(rs[1..]);
      assert forall k :: 1 <= k < |rs| ==> rs[k] == rs[1..][k - 1];
      if rest.Err? then Err(rest.error) else Ok([rs[0].value] + rest.value)
  }

  /** The entries with their values replaced, keys and order kept. */
  function WithValues(entries: seq<Entry>, vals: seq<Value>): (r: seq<Entry>)
    requires |vals| == |entries|
    ensures Names(r) == Names(entries)
  {
    seq(|entries|, i requires 0 <= i < |entries| => Entry(entries[i].name, vals[i]))
  }

  /** `remap` over the registry `classes`. A list is remapped element by
      element. A dict whose signature is registered becomes an instance:
      through `load` when the class has it, otherwise each attribute of a
      fresh instance takes `obj.get(key, "")`, remapped. Any other dict keeps
      its keys with each value remapped; any other value is kept. */
  function Remapped(classes: map<string, ClassName>, v: Value, b: Builtins): Result<Value>
    decreases v
  {
    match v
    case ListV(items) =>
      var vals :- Collect(seq(|items|, i requires 0 <= i < |items| => Remapped(classes, items[i], b)));
      Ok(ListV(vals))
    case DictV(entries) =>
      var signature := GetClassSignature(Names(entries));
      if signature in classes then
        var cls := classes[signature];
        if HasLoad(cls) then
          var stage :- Load(entries, b);
          Ok(StageObj(stage))
        else
          var defaults := DefaultAttrs(cls);
          var vals :- Collect(seq(|defaults|, i requires 0 <= i < |defaults| =>
            var k := IndexOf(entries, defaults[i].name);
            if k < 0 then Ok(Atom(StrV(""))) else Remapped(classes, entries[k].val, b)));
          Ok(ObjV(cls, WithValues(defaults, vals)))
      else
        var vals :- Collect(seq(|entries|, i requires 0 <= i < |entries| => Remapped(classes, entries[i].val, b)));
        Ok(DictV(WithValues(entries, vals)))
    case _ => Ok(v)
  }

  /** A list is remapped into a list of the same length, element by
      element, and fails at its first element that fails. */
  lemma RemapList(classes: map<string, ClassName>, items: seq<Value>, b: Builtins)
    ensures var r := Remapped(classes, ListV(items), b);
      && (r.Ok? <==> forall i :: 0 <= i < |items| ==> Remapped(classes, items[i], b).Ok?)
      && (r.Ok? ==> r.value.ListV? && |r.value.items| == |items|)
      && (r.Ok? ==> forall i :: 0 <= i < |items| ==> Remapped(classes, items[i], b) == Ok(r.value.items[i]))
  {
    var rs := seq(|items|, i requires 0 <= i < |items| => Remapped(classes, items[i], b));
    assert forall i :: 0 <= i < |items| ==> rs[i] == Remapped(classes, items[i], b);
  }

  /** Values that are neither lists nor dicts come back unchanged. */
  lemma RemapKeepsOthers(classes: map<string, ClassName>, v: Value, b: Builtins)
    requires !v.ListV? && !v.DictV?
    ensures Remapped(classes, v, b) == Ok(v)
  {
  }

  /** A dict whose signature is not registered stays a dict with the same
      keys in the same order, each value remapped. */
  lemma RemapUnregistered(classes: map<string, ClassName>, entries: seq<Entry>, b: Builtins)
    requires GetClassSignature(Names(entries)) !in classes
    ensures var r := Remapped(classes, DictV(entries), b);
      && (r.Ok? <==> forall i :: 0 <= i < |entries| ==> Remapped(classes, entries[i].val, b).Ok?)
      && (r.Ok? ==> r.value.DictV? && Names(r.value.entries) == Names(entries))
      && (r.Ok? ==> forall i :: 0 <= i < |entries| ==> Remapped(classes, entries[i].val, b) == Ok(r.value.entries[i].val))
  {
    var rs := seq(|entries|, i requires 0 <= i < |entries| => Remapped(classes, entries[i].val, b));
    assert forall i :: 0 <= i < |entries| ==> rs[i] == Remapped(classes, entries[i].val, b);
  }

  /** A dict whose signature names a class with `load` is whatever `load`
      makes of it: its values are handed to `load` as they are. */
  lemma RemapWithLoad(classes: map<string, ClassName>, entries: seq<Entry>, b: Builtins)
    requires GetClassSignature(Names(entries)) in classes && HasLoad(classes[GetClassSignature(Names(entries))])
    ensures Remapped(classes, DictV(entries), b).Ok? <==> Load(entries, b).Ok?
    ensures Load(entries, b).Ok? ==> Remapped(classes, DictV(entries), b) == Ok(StageObj(Load(entries, b).value))
    ensures Load(entries, b).Err? ==> Remapped(classes, DictV(entries), b) == Err(Load(entries, b).error)
  {
  }

  /** A dict whose signature names a class without `load` becomes an
      instance with exactly the fresh instance's attributes, in its order:
      each is the remapped value under that key, or "" when the key is
      missing; keys the instance does not have are dropped. */
  lemma RemapWithoutLoad(classes: map<string, ClassName>, entries: seq<Entry>, b: Builtins)
    requires GetClassSignature(Names(entries)) in classes && !HasLoad(classes[GetClassSignature(Names(entries))])
    ensures var cls := classes[GetClassSignature(Names(entries))];
      var defaults := DefaultAttrs(cls);
      var r := Remapped(classes, DictV(entries), b);
      r.Ok? ==> && r.value.ObjV? && r.value.cls == cls
                && Names(r.value.attrs) == Names(defaults)
                && forall i :: 0 <= i < |defaults| ==>
                     if defaults[i].name in Names(entries)
                     then Remapped(classes, entries[IndexOf(entries, defaults[i].name)].val, b) == Ok(r.value.attrs[i].val)
                     else r.value.attrs[i].val == Atom(StrV(""))
  {
    var cls := classes[GetClassSignature(Names(entries))];
    var defaults := DefaultAttrs(cls);
    var rs := seq(|defaults|, i requires 0 <= i < |defaults| =>
      var k := IndexOf(entries, defaults[i].name);
      if k < 0 then Ok(Atom(StrV(""))) else Remapped(classes, entries[k].val, b));
    assert forall i :: 0 <= i < |defaults| ==> rs[i] == (var k := IndexOf(entries, defaults[i].name);
      if k < 0 then Ok(Atom(StrV(""))) else Remapped(classes, entries[k].val, b));
  }

  // The steps of `remap` one at a time: a run of conversions that all
  // succeed, and one that stops at its first failure.

  lemma CollectAll(rs: seq<Result<Value>>, vals: seq<Value>)
    requires |vals| == |rs| && forall i :: 0 <= i < |rs| ==> rs[i] == Ok(vals[i])
    ensures Collect(rs) == Ok(vals)
  {
    var r := Collect(rs);
    assert r.Ok? && |r.value| == |vals|;
    forall i | 0 <= i < |vals| ensures r.value[i] == vals[i] {
      assert rs[i] == Ok(r.value[i]);
    }
  }

  lemma CollectStops(rs: seq<Result<Value>>, k: nat)
    requires k < |rs| && rs[k].Err? && forall j :: 0 <= j < k ==> rs[j].Ok?
    ensures Collect(rs) == Err(rs[k].error)
  {
  }

  /** The conversion of the value `remap` stores under attribute `name` of a
      fresh instance. */
  function FieldRemapped(classes: map<string, ClassName>, entries: seq<Entry>, name: string, b: Builtins): Result<Value>
  {
    var k := IndexOf(entries, name);
    if k < 0 then Ok(Atom(StrV(""))) else Remapped(classes, entries[k].val, b)
  }

  lemma RemapListSteps(classes: map<string, ClassName>, items: seq<Value>, b: Builtins, vals: seq<Value>, k: nat)
    requires k <= |items| && |vals| == k && forall i :: 0 <= i < k ==> Remapped(classes, items[i], b) == Ok(vals[i])
    ensures k == |items| ==> Remapped(classes, ListV(items), b) == Ok(ListV(vals))
    ensures k < |items| && Remapped(classes, items[k], b).Err? ==>
      Remapped(classes, ListV(items), b) == Err(Remapped(classes, items[k], b).error)
  {
    var rs := seq(|items|, i requires 0 <= i < |items| => Remapped(classes, items[i], b));
    if k == |items| { CollectAll(rs, vals); }
    else if rs[k].Err? { CollectStops(rs, k); }
  }

  lemma RemapDictSteps(classes: map<string, ClassName>, entries: seq<Entry>, b: Builtins, vals: seq<Value>, k: nat)
    requires GetClassSignature(Names(entries)) !in classes
    requires k <= |entries| && |vals| == k && forall i :: 0 <= i < k ==> Remapped(classes, entries[i].val, b) == Ok(vals[i])
    ensures k == |entries| ==> Remapped(classes, DictV(entries), b) == Ok(DictV(WithValues(entries, vals)))
    ensures k < |entries| && Remapped(classes, entries[k].val, b).Err? ==>
      Remapped(classes, DictV(entries), b) == Err(Remapped(classes, entries[k].val, b).error)
  {
    var rs := seq(|entries|, i requires 0 <= i < |entries| => Remapped(classes, entries[i].val, b));
    if k == |entries| { CollectAll(rs, vals); }
    else if rs[k].Err? { CollectStops(rs, k); }
  }

  lemma RemapInstanceSteps(classes: map<string, ClassName>, entries: seq<Entry>, b: Builtins, vals: seq<Value>, k: nat)
    requires GetClassSignature(Names(entries)) in classes && !HasLoad(classes[GetClassSignature(Names(entries))])
    requires var defaults := DefaultAttrs(classes[GetClassSignature(Names(entries))]);
      k <= |defaults| && |vals| == k
      && forall i :: 0 <= i < k ==> FieldRemapped(classes, entries, defaults[i].name, b) == Ok(vals[i])
    ensures var cls := classes[GetClassSignature(Names(entries))];
      var defaults := DefaultAttrs(cls);
      && (k == |defaults| ==> Remapped(classes, DictV(entries), b) == Ok(ObjV(cls, WithValues(defaults, vals))))
      && (k < |defaults| && FieldRemapped(classes, entries, defaults[k].name, b).Err? ==>
            Remapped(classes, DictV(entries), b) == Err(FieldRemapped(classes, entries, defaults[k].name, b).error))
  {
    var defaults := DefaultAttrs(classes[GetClassSignature(Names(entries))]);
    var rs := seq(|defaults|, i requires 0 <= i < |defaults| =>
      var j := IndexOf(entries, defaults[i].name);
      if j < 0 then Ok(Atom(StrV(""))) else Remapped(classes, entries[j].val, b));
    assert forall i :: 0 <= i < |defaults| ==> rs[i] == FieldRemapped(classes, entries, defaults[i].name, b);
    if k == |defaults| { CollectAll(rs, vals); }
    else if rs[k].Err? { CollectStops(rs, k); }
  }

  // ---------------------------------------------------------------------------
  // What the core registry does to the core classes

  function RuleObj(z: ZoneStageByDay): Value
  {
    ObjV(ZoneStageByDayClass, RuleAttrs(z))
  }

  /** An object whose attributes are all public and plain is unmapped into
      the dict of exactly those attributes. */
  lemma UnmapPublicPlain(cls: ClassName, attrs: seq<Entry>)
    requires forall i :: 0 <= i < |attrs| ==> !Private(attrs[i].name) && Plain(attrs[i].val)
    ensures Unmapped(ObjV(cls, attrs)) == DictV(attrs)
  {
    assert Public(attrs) == attrs;
    forall i | 0 <= i < |attrs| ensures Unmapped(attrs[i].val) == attrs[i].val {
      PlainFixed(attrs[i].val);
    }
    assert Unmapped(ObjV(cls, attrs)).entries == attrs;
  }

  lemma UnmapRule(z: ZoneStageByDay)
    ensures Unmapped(RuleObj(z)) == DictV(RuleAttrs(z))
  {
    var attrs := RuleAttrs(z);
    assert forall i :: 0 <= i < |attrs| ==> !Private(attrs[i].name) && Plain(attrs[i].val);
    UnmapPublicPlain(ZoneStageByDayClass, attrs);
  }

  /** Keys that are all different are found where they stand. */
  lemma {:induction false} IndexOfDistinct(entries: seq<Entry>, i: nat)
    requires i < |entries|
    requires forall p, q :: 0 <= p < q < |entries| ==> entries[p].name != entries[q].name
    ensures IndexOf(entries, entries[i].name) == i
  {
    if i > 0 {
      IndexOfDistinct(entries[1..], i - 1);
      assert entries[1..][i - 1] == entries[i];
    }
  }

  lemma RemapIntList(classes: map<string, ClassName>, zones: seq<int>, b: Builtins)
    ensures Remapped(classes, ListV(IntList(zones)), b) == Ok(ListV(IntList(zones)))
  {
    var items := IntList(zones);
    forall i | 0 <= i < |items| ensures Remapped(classes, items[i], b) == Ok(items[i]) {
      RemapKeepsOthers(classes, items[i], b);
    }
    RemapListSteps(classes, items, b, items, |items|);
  }

  /** A dict that already has exactly a class's attributes, with values
      `remap` keeps, becomes an instance with those attributes. */
  lemma RemapOwnAttrs(classes: map<string, ClassName>, entries: seq<Entry>, b: Builtins)
    requires GetClassSignature(Names(entries)) in classes
    requires !HasLoad(classes[GetClassSignature(Names(entries))])
    requires Names(entries) == Names(DefaultAttrs(classes[GetClassSignature(Names(entries))]))
    requires forall p, q :: 0 <= p < q < |entries| ==> entries[p].name != entries[q].name
    requires forall i :: 0 <= i < |entries| ==> Remapped(classes, entries[i].val, b) == Ok(entries[i].val)
    ensures Remapped(classes, DictV(entries), b) == Ok(ObjV(classes[GetClassSignature(Names(entries))], entries))
  {
    var cls := classes[GetClassSignature(Names(entries))];
    var defaults := DefaultAttrs(cls);
    var vals := seq(|entries|, i requires 0 <= i < |entries| => entries[i].val);
    forall i | 0 <= i < |defaults| ensures FieldRemapped(classes, entries, defaults[i].name, b) == Ok(vals[i]) {
      assert defaults[i].name == Names(defaults)[i] == entries[i].name;
      IndexOfDistinct(entries, i);
    }
    RemapInstanceSteps(classes, entries, b, vals, |defaults|);
    assert WithValues(defaults, vals) == entries;
  }

  /** Under a registry that files `ZoneStageByDay` by its own signature, the
      dict of a rule's attributes becomes that rule again. */
  lemma RuleRemap(classes: map<string, ClassName>, z: ZoneStageByDay, b: Builtins)
    requires "end_time:stage:start_time:zone_list" in classes
    requires classes["end_time:stage:start_time:zone_list"] == ZoneStageByDayClass
    ensures Remapped(classes, DictV(RuleAttrs(z)), b) == Ok(RuleObj(z))
  {
    RuleSignature(z);
    RuleAttrNames(z);
    RuleValuesFixed(classes, z, b);
    RemapOwnAttrs(classes, RuleAttrs(z), b);
  }

  /** A rule's attributes are the defaults of its class, each named once. */
  lemma RuleAttrNames(z: ZoneStageByDay)
    ensures Names(RuleAttrs(z)) == Names(DefaultAttrs(ZoneStageByDayClass))
    ensures forall p, q :: 0 <= p < q < |RuleAttrs(z)| ==> RuleAttrs(z)[p].name != RuleAttrs(z)[q].name
  {
    assert Names(RuleAttrs(z)) == ["stage", "start_time", "end_time", "zone_list"];
  }

  /** Each value of a rule's attributes remaps to itself. */
  lemma RuleValuesFixed(classes: map<string, ClassName>, z: ZoneStageByDay, b: Builtins)
    ensures forall i :: 0 <= i < |RuleAttrs(z)| ==> Remapped(classes, RuleAttrs(z)[i].val, b) == Ok(RuleAttrs(z)[i].val)
  {
    var entries := RuleAttrs(z);
    forall i | 0 <= i < |entries| ensures Remapped(classes, entries[i].val, b) == Ok(entries[i].val) {
      if i < 3 {
        RemapKeepsOthers(classes, entries[i].val, b);
      } else {
        RemapIntList(classes, z.zoneList, b);
      }
    }
  }


  /** A static rule survives `unmap` followed by `remap`. */
  lemma RuleRoundTrip(z: ZoneStageByDay, b: Builtins)
    ensures Remapped(CoreRegistry(), Unmapped(RuleObj(z)), b) == Ok(RuleObj(z))
  {
    CoreRegistryContents();
    UnmapRule(z);
    RuleRemap(CoreRegistry(), z, b);
  }

  lemma UnmapStage(s: Stage)
    ensures Unmapped(StageObj(s)) == DictV(StageAttrs(s))
  {
    var attrs := StageAttrs(s);
    assert forall i :: 0 <= i < |attrs| ==> !Private(attrs[i].name) && Plain(attrs[i].val);
    UnmapPublicPlain(StageClass, attrs);
  }

  /** Under a registry without the signature of an unmapped stage, the dict
      of a stage's attributes stays that dict. */
  lemma StageDictStays(classes: map<string, ClassName>, s: Stage, b: Builtins)
    requires "end_time:key:number:start_time" !in classes
    ensures Remapped(classes, DictV(StageAttrs(s)), b) == Ok(DictV(StageAttrs(s)))
  {
    var entries := StageAttrs(s);
    StageSignature(s);
    var vals := [entries[0].val, entries[1].val, entries[2].val, entries[3].val];
    forall i | 0 <= i < 4 ensures Remapped(classes, entries[i].val, b) == Ok(vals[i]) {
      RemapKeepsOthers(classes, entries[i].val, b);
    }
    RemapDictSteps(classes, entries, b, vals, 4);
    assert WithValues(entries, vals) == entries;
  }

  /** A stage does not survive `unmap` followed by `remap`: the `key` it
      carries changes its signature, so it comes back as a plain dict. */
  lemma StageComesBackAsDict(s: Stage, b: Builtins)
    ensures Remapped(CoreRegistry(), Unmapped(StageObj(s)), b) == Ok(DictV(StageAttrs(s)))
  {
    CoreRegistryContents();
    UnmapStage(s);
    StageDictStays(CoreRegistry(), s, b);
  }

  /** The mapping `load` expects: exactly "number", "start_time", "end_time". */
  function StageMapping(number: int, start: Timestamp, end: Timestamp): seq<Entry>
  {
    [Entry("number", Atom(IntV(number))), Entry("start_time", Atom(DateV(start))),
     Entry("end_time", Atom(DateV(end)))]
  }

  lemma StageMappingLoad(number: int, start: Timestamp, end: Timestamp, b: Builtins)
    ensures Load(StageMapping(number, start, end), b) == Ok(NewStage(number, start, end))
  {
    var obj := StageMapping(number, start, end);
    IndexOfDistinct(obj, 0);
    IndexOfDistinct(obj, 1);
    IndexOfDistinct(obj, 2);
  }

  lemma StageMappingLoads(classes: map<string, ClassName>, number: int, start: Timestamp, end: Timestamp, b: Builtins)
    requires "end_time:number:start_time" in classes && classes["end_time:number:start_time"] == StageClass
    ensures Remapped(classes, DictV(StageMapping(number, start, end)), b) == Ok(StageObj(NewStage(number, start, end)))
  {
    var obj := StageMapping(number, start, end);
    LoadSignature(obj);
    StageMappingLoad(number, start, end, b);
    RemapWithLoad(classes, obj, b);
  }

  /** A mapping with exactly "number", "start_time" and "end_time" is turned
      into a stage by `load`, with the key made from number and start. */
  lemma StageFromMapping(number: int, start: Timestamp, end: Timestamp, b: Builtins)
    ensures Remapped(CoreRegistry(), DictV(StageMapping(number, start, end)), b) == Ok(StageObj(NewStage(number, start, end)))
  {
    CoreRegistryContents();
    StageMappingLoads(CoreRegistry(), number, start, end, b);
  }

  // ---------------------------------------------------------------------------
  // The serializer object

  /** A `Serializer` and its registry of classes by signature. */
  class Serializer {
    var classes: map<string, ClassName>

    constructor ()
      ensures classes == map[]
    {
      classes := map[];
    }

    /** `register(instance, signature)`, the instance given by its class and
        its attributes. */
    method Register(cls: ClassName, attrs: seq<Entry>, signature: string)
      modifies this
      ensures classes == Registered(old(classes), cls, attrs, signature)
    {
      var sig := signature;
      if sig == "" {
        sig := GetClassSignature(Names(attrs));
      }
      classes := classes[sig := cls];
    }

    /** The registrations made as the classes are defined. */
    method RegisterCoreClasses()
      modifies this
      ensures classes == CoreRegistrations(old(classes))
    {
      Register(StageClass, DefaultAttrs(StageClass), "end_time:number:start_time");
      Register(ZoneStageByDayClass, DefaultAttrs(ZoneStageByDayClass), "");
      Register(ZoneStageMapClass, DefaultAttrs(ZoneStageMapClass), "");
    }

    /** `unmap`. */
    method Unmap(v: Value) returns (r: Value)
      ensures r == Unmapped(v)
      decreases v, 1
    {
      match v {
        case ListV(items) =>
          var newList: seq<Value> := [];
          for k := 0 to |items|
            invariant |newList| == k
            invariant forall i :: 0 <= i < k ==> newList[i] == Unmapped(items[i])
          {
            var newItem := Unmap(items[k]);
            newList := newList + [newItem];
          }
          r := ListV(newList);
        case EnumV(c, m) =>
          r := Atom(StrV(EnumText(c, m)));
        case ObjV(_, attrs) =>
          var d := UnmapEntries(v, Public(attrs));
          r := DictV(d);
        case DictV(entries) =>
          var d := UnmapEntries(v, entries);
          r := DictV(d);
        case Atom(_) =>
          r := v;
      }
    }

    /** The attribute loop of `unmap`: each value unmapped, each name kept. */
    method UnmapEntries(v: Value, entries: seq<Entry>) returns (d: seq<Entry>)
      requires (v.DictV? && entries == v.entries) || (v.ObjV? && entries == Public(v.attrs))
      ensures |d| == |entries|
      ensures forall i :: 0 <= i < |d| ==> d[i] == Entry(entries[i].name, Unmapped(entries[i].val))
      decreases v, 0
    {
      d := [];
      for k := 0 to |entries|
        invariant |d| == k
        invariant forall i :: 0 <= i < k ==> d[i] == Entry(entries[i].name, Unmapped(entries[i].val))
      {
        assert v.ObjV? ==> entries[k] in v.attrs;
        var newValue := Unmap(entries[k].val);
        d := d + [Entry(entries[k].name, newValue)];
      }
    }

    /** `remap`; a failing `int`, `fromisoformat` or missing key in `load`
        ends the whole call. */
    method Remap(v: Value, b: Builtins) returns (r: Result<Value>)
      ensures r == Remapped(classes, v, b)
      decreases v
    {
      match v {
        case ListV(items) =>
          var newList: seq<Value> := [];
          for k := 0 to |items|
            invariant |newList| == k
            invariant forall i :: 0 <= i < k ==> Remapped(classes, items[i], b) == Ok(newList[i])
          {
            var newItem := Remap(items[k], b);
            if newItem.Err? {
              RemapListSteps(classes, items, b, newList, k);
              return Err(newItem.error);
            }
            newList := newList + [newItem.value];
          }
          RemapListSteps(classes, items, b, newList, |items|);
          return Ok(ListV(newList));
        case DictV(entries) =>
          var signature := GetClassSignature(Names(entries));
          if signature in classes {
            var cls := classes[signature];
            if HasLoad(cls) {
              var stage := Load(entries, b);
              if stage.Err? {
                return Err(stage.error);
              }
              return Ok(StageObj(stage.value));
            }
            r := RemapInstance(cls, entries, b);
          } else {
            r := RemapDict(entries, b);
          }
        case _ =>
          return Ok(v);
      }
    }

    /** A registry hit without `load`: each attribute of a fresh instance
        set to `obj.get(key, "")` and remapped. */
    method RemapInstance(cls: ClassName, entries: seq<Entry>, b: Builtins) returns (r: Result<Value>)
      requires GetClassSignature(Names(entries)) in classes && classes[GetClassSignature(Names(entries))] == cls
      requires !HasLoad(cls)
      ensures r == Remapped(classes, DictV(entries), b)
      decreases DictV(entries), 0
    {
      var props := DefaultAttrs(cls);
      ghost var defaults := props;
      ghost var vals: seq<Value> := [];
      for k := 0 to |props|
        invariant |props| == |defaults| && |vals| == k
        invariant forall i :: 0 <= i < |props| ==> props[i].name == defaults[i].name
        invariant forall i :: 0 <= i < k ==> props[i].val == vals[i]
        invariant forall i :: 0 <= i < k ==> FieldRemapped(classes, entries, defaults[i].name, b) == Ok(vals[i])
      {
        var j := IndexOf(entries, props[k].name);
        var newValue: Value;
        if j < 0 {
          newValue := Atom(StrV(""));
        } else {
          var remapped := Remap(entries[j].val, b);
          if remapped.Err? {
            RemapInstanceSteps(classes, entries, b, vals, k);
            return Err(remapped.error);
          }
          newValue := remapped.value;
        }
        props := props[k := Entry(props[k].name, newValue)];
        vals := vals + [newValue];
      }
      RemapInstanceSteps(classes, entries, b, vals, |defaults|);
      assert props == WithValues(defaults, vals);
      return Ok(ObjV(cls, props));
    }

    /** A dict of no registered class: each value remapped in place. */
    method RemapDict(entries: seq<Entry>, b: Builtins) returns (r: Result<Value>)
      requires GetClassSignature(Names(entries)) !in classes
      ensures r == Remapped(classes, DictV(entries), b)
      decreases DictV(entries), 0
    {
      var props := entries;
      ghost var vals: seq<Value> := [];
      for k := 0 to |props|
        invariant |props| == |entries| && |vals| == k
        invariant forall i :: 0 <= i < |props| ==> props[i].name == entries[i].name
        invariant forall i :: 0 <= i < k ==> props[i].val == vals[i]
        invariant forall i :: k <= i < |props| ==> props[i] == entries[i]
        invariant forall i :: 0 <= i < k ==> Remapped(classes, entries[i].val, b) == Ok(vals[i])
      {
        var remapped := Remap(props[k].val, b);
        if remapped.Err? {
          RemapDictSteps(classes, entries, b, vals, k);
          return Err(remapped.error);
        }
        props := props[k := Entry(props[k].name, remapped.value)];
        vals := vals + [remapped.value];
      }
      RemapDictSteps(classes, entries, b, vals, |entries|);
      assert props == WithValues(entries, vals);
      return Ok(DictV(props));
    }
  }
}
