/** `_serialize_for_mongodb` of services/cache.py: turns a result value
    into the plain tree the document store keeps. Each Python value is
    tagged with the first branch of the source's capability chain that
    applies to it. */
module Serializer {
  import opened Wrappers

  /** A value the store keeps verbatim (int, float, str, bool, bytes, ...). */
  datatype Prim = PInt(i: int) | PStr(s: string) | PBool(b: bool) | POpaque(tag: string)

  /** A plain, store-ready tree. */
  datatype Stored =
    | SNone
    | SPrim(p: Prim)
    | SList(items: seq<Stored>)
    | SDict(fields: seq<(string, Stored)>)

  /** A Python value, tagged with the branch of the serialiser it takes. */
  datatype PyValue =
    | PNone
      /** Has `model_dump`: `dump` is its result, or None when it raises;
          `asDict` is `dict(data)`, or None when that raises too; `repr` is `str(data)`. */
    | PModel(dump: Option<Stored>, asDict: Option<Stored>, repr: string)
    | PList(items: seq<PyValue>)
    | PDict(entries: seq<(string, PyValue)>)
      /** Has `isoformat` (date, datetime): `iso` is its ISO-8601 text. */
    | PTemporal(iso: string)
      /** Any other object with a `__dict__`. */
    | PObject(attrs: seq<(string, PyValue)>)
    | PPrim(p: Prim)

  function Serialize(v: PyValue): Stored
    decreases v
  {
    match v
    case PNone => SNone
    case PModel(dump, asDict, repr) =>
      if dump.Some? then dump.value
      else if asDict.Some? then asDict.value
      else SPrim(PStr(repr))
    case PList(xs) => SList(seq(|xs|, i requires 0 <= i < |xs| => Serialize(xs[i])))
    case PDict(es) => SDict(SerializeEntries(v, es))
    case PTemporal(iso) => SPrim(PStr(iso))
    case PObject(attrs) => SDict(SerializeEntries(v, attrs))
    case PPrim(p) => SPrim(p)
  }

  /** `{k: serialize(v) for k, v in entries}`; `owner` is the value the
      entries belong to and only bounds the recursion. */
  function SerializeEntries(owner: PyValue, es: seq<(string, PyValue)>): (r: seq<(string, Stored)>)
    requires forall i :: 0 <= i < |es| ==> es[i].1 < owner
    decreases owner, |es|
  {
    if es == [] then []
    else [(es[0].0, Serialize(es[0].1))] + SerializeEntries(owner, es[1..])
  }

  /** The plain tree read back as a Python value. */
  function Lift(s: Stored): PyValue
    decreases s
  {
    match s
    case SNone => PNone
    case SPrim(p) => PPrim(p)
    case SList(xs) => PList(seq(|xs|, i requires 0 <= i < |xs| => Lift(xs[i])))
    case SDict(fs) => PDict(LiftEntries(s, fs))
  }

  function LiftEntries(owner: Stored, fs: seq<(string, Stored)>): (r: seq<(string, PyValue)>)
    requires forall i :: 0 <= i < |fs| ==> fs[i].1 < owner
    ensures |r| == |fs|
    ensures forall i :: 0 <= i < |fs| ==> r[i].0 == fs[i].0 && r[i].1 == Lift(fs[i].1)
    decreases owner, |fs|
  {
    if fs == [] then []
    else [(fs[0].0, Lift(fs[0].1))] + LiftEntries(owner, fs[1..])
  }

  lemma {:induction false} SerializeEntriesAt(owner: PyValue, es: seq<(string, PyValue)>)
    requires forall i :: 0 <= i < |es| ==> es[i].1 < owner
    ensures |SerializeEntries(owner, es)| == |es|
    ensures forall i :: 0 <= i < |es| ==>
      SerializeEntries(owner, es)[i] == (es[i].0, Serialize(es[i].1))
    decreases |es|
  {
    if es != [] {
      SerializeEntriesAt(owner, es[1..]);
    }
  }

  /** Lists keep their length and order, element by element. */
  lemma ListsElementWise(xs: seq<PyValue>)
    ensures Serialize(PList(xs)) == SList(seq(|xs|, i requires 0 <= i < |xs| => Serialize(xs[i])))
    ensures |Serialize(PList(xs)).items| == |xs|
  {
  }

  /** Dicts and `__dict__` attribute maps keep their keys, in order, and
      serialise each value. */
  lemma DictsKeepKeys(v: PyValue)
    requires v.PDict? || v.PObject?
    ensures var es := if v.PDict? then v.entries else v.attrs;
            var r := Serialize(v);
            r.SDict? && |r.fields| == |es|
            && forall i :: 0 <= i < |es| ==> r.fields[i] == (es[i].0, Serialize(es[i].1))
  {
    var es := if v.PDict? then v.entries else v.attrs;
    assert forall i :: 0 <= i < |es| ==> es[i].1 < es[i] < v;
    SerializeEntriesAt(v, es);
  }

  /** None stays None, a date or datetime becomes its ISO text, and a
      value the store keeps verbatim is kept as it is. */
  lemma LeavesStoredDirectly(iso: string, p: Prim)
    ensures Serialize(PNone) == SNone
    ensures Serialize(PTemporal(iso)) == SPrim(PStr(iso))
    ensures Serialize(PPrim(p)) == SPrim(p)
  {
  }

  /** A model's `model_dump` result is stored as it is; the fallbacks are
      `dict(data)` and then `str(data)`, so serialising never raises. */
  lemma ModelFallbacks(dump: Option<Stored>, asDict: Option<Stored>, repr: string)
    ensures dump.Some? ==> Serialize(PModel(dump, asDict, repr)) == dump.value
    ensures dump.None? && asDict.Some? ==> Serialize(PModel(dump, asDict, repr)) == asDict.value
    ensures dump.None? && asDict.None? ==> Serialize(PModel(dump, asDict, repr)) == SPrim(PStr(repr))
  {
  }

  /** Serialising a tree that is already plain changes nothing: the
      serialiser is the identity on what it produces. */
  lemma {:induction false} SerializeLift(s: Stored)
    ensures Serialize(Lift(s)) == s
    decreases s
  {
    match s
    case SNone =>
    case SPrim(p) =>
    case SList(xs) =>
      var l := Lift(s);
      forall i | 0 <= i < |xs| ensures Serialize(l.items[i]) == xs[i] {
        SerializeLift(xs[i]);
      }
      assert Serialize(l).items == xs;
    case SDict(fs) =>
      assert forall i :: 0 <= i < |fs| ==> fs[i].1 < fs[i] < s;
      var l := Lift(s);
      var es := l.entries;
      assert forall i :: 0 <= i < |es| ==> es[i].1 < es[i] < l;
      SerializeEntriesAt(l, es);
      forall i | 0 <= i < |fs| ensures Serialize(l).fields[i] == fs[i] {
        SerializeLift(fs[i].1);
      }
      assert Serialize(l).fields == fs;
  }
}
