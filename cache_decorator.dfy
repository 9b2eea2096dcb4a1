/** The `@cacheable(ttl)` decorator of utils/cache_decorator.py. A call
    through the wrapper derives a namespace (the receiver's class name), an
    operation (the function's name) and a dict of stringified arguments,
    looks the fingerprint up, and on a miss runs the function and stores its
    result. Python's `str()` of an argument and the wrapped function are
    parameters; `self.cache_service` is an optional store object. */
module CacheDecorator {
  import opened Wrappers
  import opened Text
  import opened CacheKey
  import opened Serializer
  import opened CacheStore

  predicate DistinctNames(s: seq<string>) {
    forall i, j :: 0 <= i < j < |s| ==> s[i] != s[j]
  }

  /** The parameter names of the wrapped function after `self`, as
      `inspect.signature` lists them; Python refuses duplicate names. */
  type Signature = s: seq<string> | DistinctNames(s) witness []

  predicate DistinctKwNames(k: seq<(string, PyValue)>) {
    forall i, j :: 0 <= i < j < |k| ==> k[i].0 != k[j].0
  }

  /** `**kwargs` of a call, in the order they were written. */
  type KwArgs = k: seq<(string, PyValue)> | DistinctKwNames(k) witness []

  /** `kwargs.get(n)` */
  function KwLookup(k: seq<(string, PyValue)>, n: string): (r: Option<PyValue>)
    ensures r.Some? <==> exists i :: 0 <= i < |k| && k[i].0 == n
    ensures r.None? <==> forall i :: 0 <= i < |k| ==> k[i].0 != n
  {
    if k == [] then None
    else if k[0].0 == n then Some(k[0].1)
    else
      var r := KwLookup(k[1..], n);
      assert forall i :: 1 <= i < |k| ==> k[i] == k[1..][i - 1];
      r
  }

  lemma {:induction false} KwLookupAt(k: KwArgs, i: nat)
    requires i < |k|
    ensures KwLookup(k, k[i].0) == Some(k[i].1)
  {
    if i > 0 {
      KwLookupAt(k[1..], i - 1);
    }
  }

  /** The position of a name in a signature. */
  function Position(s: seq<string>, n: string): (p: nat)
    requires n in s
    ensures p < |s| && s[p] == n && n !in s[..p]
  {
    if s[0] == n then 0
    else
      var p := Position(s[1..], n);
      assert s[..p + 1] == [s[0]] + s[1..][..p];
      p + 1
  }

  /** `d[k] = v` on an insertion-ordered dict: an existing name keeps its
      place, a new one goes last. */
  function Assign(d: ArgMap, k: string, v: string): (r: ArgMap)
    ensures Lookup(r, k) == Some(v)
    ensures forall k' :: k' != k ==> Lookup(r, k') == Lookup(d, k')
    ensures Lookup(d, k).None? ==> r == d + [(k, v)]
    ensures Lookup(d, k).Some? ==> |r| == |d| && exists i :: 0 <= i < |d| && d[i].0 == k && r == d[i := (k, v)]
  {
    if Lookup(d, k).None? then
      AppendDistinct(d, k, v);
      AppendLookup(d, k, v);
      d + [(k, v)]
    else
      var i := KeyIndex(d, k);
      ReplaceLookup(d, i, v);
      d[i := (k, v)]
  }

  /** The position of a name the dict holds. */
  function KeyIndex(d: seq<(string, string)>, k: string): (i: nat)
    requires Lookup(d, k).Some?
    ensures i < |d| && d[i].0 == k
  {
    if d[0].0 == k then 0 else KeyIndex(d[1..], k) + 1
  }

  /** Appending a new name keeps the names distinct. */
  lemma AppendDistinct(d: ArgMap, k: string, v: string)
    requires Lookup(d, k).None?
    ensures DistinctKeys(d + [(k, v)])
  {
    var r := d + [(k, v)];
    assert forall j :: 0 <= j < |d| ==> r[j] == d[j] && d[j].0 != k;
  }

  /** Appending a new name changes only that name's entry. */
  lemma {:induction false} AppendLookup(d: seq<(string, string)>, k: string, v: string)
    requires Lookup(d, k).None?
    ensures Lookup(d + [(k, v)], k) == Some(v)
    ensures forall k' :: k' != k ==> Lookup(d + [(k, v)], k') == Lookup(d, k')
  {
    if d != [] {
      var r := d + [(k, v)];
      assert r[0] == d[0] && r[1..] == d[1..] + [(k, v)];
      AppendLookup(d[1..], k, v);
    }
  }

  /** Overwriting the value at position `i` keeps the names and changes
      only that name's entry. */
  lemma {:induction false} ReplaceLookup(d: ArgMap, i: nat, v: string)
    requires i < |d|
    ensures DistinctKeys(d[i := (d[i].0, v)])
    ensures Lookup(d[i := (d[i].0, v)], d[i].0) == Some(v)
    ensures forall k' :: k' != d[i].0 ==> Lookup(d[i := (d[i].0, v)], k') == Lookup(d, k')
  {
    var r := d[i := (d[i].0, v)];
    assert forall j :: 0 <= j < |d| ==> r[j].0 == d[j].0;
    if i > 0 {
      ReplaceLookup(d[1..], i - 1, v);
      assert r[1..] == d[1..][i - 1 := (d[i].0, v)];
    }
  }

  /** `str()` of the value that entered for declared parameter `i`:
      positional when `i < len(args)`, otherwise the keyword, if any. */
  function DeclaredValue(names: seq<string>, args: seq<PyValue>, kwargs: KwArgs, str: PyValue -> string, i: nat): Option<string>
    requires i < |names|
  {
    if i < |args| then Some(str(args[i]))
    else match KwLookup(kwargs, names[i])
      case Some(v) => Some(str(v))
      case None => None
  }

  /** The dict after the first loop has visited `n` declared parameters. */
  function Declared(names: Signature, args: seq<PyValue>, kwargs: KwArgs, str: PyValue -> string, n: nat): ArgMap
    requires n <= |names|
  {
    if n == 0 then []
    else
      var d := Declared(names, args, kwargs, str, n - 1);
      match DeclaredValue(names, args, kwargs, str, n - 1)
      case Some(s) => Assign(d, names[n - 1], s)
      case None => d
  }

  lemma DeclaredNext(names: Signature, args: seq<PyValue>, kwargs: KwArgs, str: PyValue -> string, i: nat)
    requires i < |names|
    ensures var d := Declared(names, args, kwargs, str, i);
            Declared(names, args, kwargs, str, i + 1) ==
              if i < |args| then Assign(d, names[i], str(args[i]))
              else if KwLookup(kwargs, names[i]).Some? then Assign(d, names[i], str(KwLookup(kwargs, names[i]).value))
              else d
  {
  }

  /** The dict after the second loop has visited `m` keyword arguments. */
  function Extras(d: ArgMap, kwargs: KwArgs, str: PyValue -> string, m: nat): ArgMap
    requires m <= |kwargs|
  {
    if m == 0 then d
    else
      var e := Extras(d, kwargs, str, m - 1);
      if Lookup(e, kwargs[m - 1].0).None? then Assign(e, kwargs[m - 1].0, str(kwargs[m - 1].1)) else e
  }

  lemma ExtrasNext(d: ArgMap, kwargs: KwArgs, str: PyValue -> string, j: nat)
    requires j < |kwargs|
    ensures var e := Extras(d, kwargs, str, j);
            Extras(d, kwargs, str, j + 1) ==
              if Lookup(e, kwargs[j].0).None? then Assign(e, kwargs[j].0, str(kwargs[j].1)) else e
  {
  }

  /** The argument dict both wrappers build. */
  function ArgDict(names: Signature, args: seq<PyValue>, kwargs: KwArgs, str: PyValue -> string): ArgMap {
    Extras(Declared(names, args, kwargs, str, |names|), kwargs, str, |kwargs|)
  }

  /** Reference definition, name by name: a declared parameter takes the
      positional value at its index if there is one, otherwise its keyword
      value; any other name takes its keyword value; a name given neither
      way (an omitted defaulted parameter) is absent. */
  function Expected(names: Signature, args: seq<PyValue>, kwargs: KwArgs, str: PyValue -> string, n: string): Option<string> {
    if n in names && Position(names, n) < |args| then Some(str(args[Position(names, n)]))
    else match KwLookup(kwargs, n)
      case Some(v) => Some(str(v))
      case None => None
  }

  lemma {:induction false} DeclaredLookup(names: Signature, args: seq<PyValue>, kwargs: KwArgs, str: PyValue -> string, m: nat, n: string)
    requires m <= |names|
    ensures Lookup(Declared(names, args, kwargs, str, m), n) ==
      if n in names[..m] then DeclaredValue(names, args, kwargs, str, Position(names, n)) else None
  {
    if m > 0 {
      var k := names[m - 1];
      assert names[..m] == names[..m - 1] + [k];
      assert k !in names[..m - 1];
      DeclaredLookup(names, args, kwargs, str, m - 1, k);
      DeclaredOneMore(names, args, kwargs, str, m - 1, n);
      if n == k {
        assert Position(names, n) == m - 1;
      } else {
        DeclaredLookup(names, args, kwargs, str, m - 1, n);
        if n in names[..m - 1] {
          assert Position(names, n) < m - 1;
        }
      }
    }
  }

  /** Visiting declared parameter `m`, not recorded yet, touches only its
      own entry. */
  lemma DeclaredOneMore(names: Signature, args: seq<PyValue>, kwargs: KwArgs, str: PyValue -> string, m: nat, n: string)
    requires m < |names| && Lookup(Declared(names, args, kwargs, str, m), names[m]) == None
    ensures Lookup(Declared(names, args, kwargs, str, m + 1), n) ==
      if n == names[m] then DeclaredValue(names, args, kwargs, str, m)
      else Lookup(Declared(names, args, kwargs, str, m), n)
  {
  }

  /** Some of the first `m` keyword arguments is named `n`. */
  predicate KwNamed(kwargs: KwArgs, m: nat, n: string)
    requires m <= |kwargs|
  {
    exists i :: 0 <= i < m && kwargs[i].0 == n
  }

  lemma {:induction false} ExtrasLookup(d: ArgMap, kwargs: KwArgs, str: PyValue -> string, m: nat, n: string)
    requires m <= |kwargs|
    ensures Lookup(Extras(d, kwargs, str, m), n) ==
      if Lookup(d, n).Some? then Lookup(d, n)
      else if KwNamed(kwargs, m, n) then Some(str(KwLookup(kwargs, n).value))
      else None
  {
    if m > 0 {
      ExtrasLookup(d, kwargs, str, m - 1, n);
      ExtrasOneMore(d, kwargs, str, m - 1, n);
      if kwargs[m - 1].0 == n {
        KwLookupAt(kwargs, m - 1);
        assert KwNamed(kwargs, m, n);
      } else {
        assert KwNamed(kwargs, m, n) == KwNamed(kwargs, m - 1, n) by {
          if KwNamed(kwargs, m, n) {
            var i :| 0 <= i < m && kwargs[i].0 == n;
            assert i < m - 1;
          }
        }
      }
    }
  }

  /** Visiting keyword argument `m` can only add its own name. */
  lemma ExtrasOneMore(d: ArgMap, kwargs: KwArgs, str: PyValue -> string, m: nat, n: string)
    requires m < |kwargs|
    ensures var e := Extras(d, kwargs, str, m);
      Lookup(Extras(d, kwargs, str, m + 1), n) ==
        if n == kwargs[m].0 && Lookup(e, n).None? then Some(str(kwargs[m].1)) else Lookup(e, n)
  {
  }

  /** The argument dict agrees with the reference definition on every name. */
  lemma ArgDictLookup(names: Signature, args: seq<PyValue>, kwargs: KwArgs, str: PyValue -> string, n: string)
    ensures Lookup(ArgDict(names, args, kwargs, str), n) == Expected(names, args, kwargs, str, n)
  {
    DeclaredLookup(names, args, kwargs, str, |names|, n);
    ExtrasLookup(Declared(names, args, kwargs, str, |names|), kwargs, str, |kwargs|, n);
    assert names[..|names|] == names;
  }

  /** The first loop of the wrappers: the declared parameters. */
  method FillDeclared(names: Signature, args: seq<PyValue>, kwargs: KwArgs, str: PyValue -> string) returns (d: ArgMap)
    ensures d == Declared(names, args, kwargs, str, |names|)
  {
    d := [];
    var i := 0;
    while i < |names|
      invariant 0 <= i <= |names|
      invariant d == Declared(names, args, kwargs, str, i)
    {
      DeclaredNext(names, args, kwargs, str, i);
      if i < |args| {
        d := Assign(d, names[i], str(args[i]));
      } else if KwLookup(kwargs, names[i]).Some? {
        d := Assign(d, names[i], str(KwLookup(kwargs, names[i]).value));
      }
      i := i + 1;
    }
  }

  /** The second loop: keyword arguments not captured yet. */
  method FillExtras(declared: ArgMap, kwargs: KwArgs, str: PyValue -> string) returns (d: ArgMap)
    ensures d == Extras(declared, kwargs, str, |kwargs|)
  {
    d := declared;
    var j := 0;
    while j < |kwargs|
      invariant 0 <= j <= |kwargs|
      invariant d == Extras(declared, kwargs, str, j)
    {
      ExtrasNext(declared, kwargs, str, j);
      d := AddIfAbsent(d, kwargs[j].0, str(kwargs[j].1));
      j := j + 1;
    }
  }

  /** `if key not in arg_dict: arg_dict[key] = value`: a name already in
      the dict keeps its value, a new one goes last. */
  method AddIfAbsent(d: ArgMap, k: string, v: string) returns (r: ArgMap)
    ensures Lookup(d, k).Some? ==> r == d
    ensures Lookup(d, k).None? ==> r == d + [(k, v)] && r == Assign(d, k, v)
  {
    r := d;
    if Lookup(d, k).None? {
      r := Assign(d, k, v);
    }
  }

  /** The wrappers' two loops compute the argument dict. */
  method BuildArgDict(names: Signature, args: seq<PyValue>, kwargs: KwArgs, str: PyValue -> string) returns (d: ArgMap)
    ensures d == ArgDict(names, args, kwargs, str)
  {
    var declared := FillDeclared(names, args, kwargs, str);
    d := FillExtras(declared, kwargs, str);
  }

  /** Each argument passed as keyword `name=value` for the declared names. */
  function AsKeywords(names: Signature, args: seq<PyValue>): (k: KwArgs)
    requires |args| <= |names|
    ensures |k| == |args|
    ensures forall i :: 0 <= i < |args| ==> k[i] == (names[i], args[i])
  {
    var k := seq(|args|, i requires 0 <= i < |args| => (names[i], args[i]));
    assert forall i, j :: 0 <= i < j < |k| ==> k[i].0 != k[j].0;
    k
  }

  /** Passing the declared parameters positionally or by keyword gives the
      same dict, hence the same fingerprint. */
  lemma PositionalEqualsKeyword(service: string, operation: string, names: Signature, args: seq<PyValue>, str: PyValue -> string)
    requires |args| <= |names|
    ensures SameDict(ArgDict(names, args, [], str), ArgDict(names, [], AsKeywords(names, args), str))
    ensures GenerateKey(service, operation, ArgDict(names, args, [], str)) ==
            GenerateKey(service, operation, ArgDict(names, [], AsKeywords(names, args), str))
  {
    var kw := AsKeywords(names, args);
    forall n ensures Lookup(ArgDict(names, args, [], str), n) == Lookup(ArgDict(names, [], kw, str), n) {
      ArgDictLookup(names, args, [], str, n);
      ArgDictLookup(names, [], kw, str, n);
      if n in names && Position(names, n) < |args| {
        KwLookupAt(kw, Position(names, n));
      } else {
        assert forall i :: 0 <= i < |args| && names[i] == n ==> Position(names, n) == i;
        assert forall i :: 0 <= i < |kw| ==> kw[i].0 != n;
      }
    }
    KeyIgnoresInsertionOrder(service, operation, ArgDict(names, args, [], str), ArgDict(names, [], kw, str));
  }

  /** An omitted defaulted parameter is absent from the dict, while the same
      parameter passed explicitly is present: `f("Acme")` and
      `f("Acme", year=None)` get different fingerprints. */
  lemma OmittedDefaultIsAbsent(str: PyValue -> string)
    ensures var names: Signature := ["company", "year"];
            var acme := PPrim(PStr("Acme"));
            var omitted := ArgDict(names, [acme], [], str);
            var explicit := ArgDict(names, [acme], [("year", PNone)], str);
            Lookup(omitted, "year") == None && Lookup(explicit, "year") == Some(str(PNone))
            && GenerateKey("Svc", "op", omitted) != GenerateKey("Svc", "op", explicit)
  {
    var names: Signature := ["company", "year"];
    var acme := PPrim(PStr("Acme"));
    var omitted := ArgDict(names, [acme], [], str);
    var explicit := ArgDict(names, [acme], [("year", PNone)], str);
    assert omitted == [("company", str(acme))] by {
      OmittedCall(names, acme, str);
    }
    assert explicit == [("company", str(acme)), ("year", str(PNone))] by {
      ExplicitCall(names, acme, PNone, str);
    }
    OneMoreItem("Svc", "op", ("company", str(acme)), ("year", str(PNone)));
  }

  /** The first declared parameter takes the one positional argument. */
  lemma FirstPositional(names: Signature, a: PyValue, kw: KwArgs, str: PyValue -> string)
    requires |names| >= 1
    ensures Declared(names, [a], kw, str, 1) == [(names[0], str(a))]
  {
    DeclaredNext(names, [a], kw, str, 0);
  }

  /** `f(a)` on `f(p, q=None)`: only `p` is recorded. */
  lemma OmittedCall(names: Signature, a: PyValue, str: PyValue -> string)
    requires |names| == 2
    ensures ArgDict(names, [a], [], str) == [(names[0], str(a))]
  {
    FirstPositional(names, a, [], str);
    DeclaredNext(names, [a], [], str, 1);
  }

  /** `f(a, q=v)` on `f(p, q=None)`: both parameters are recorded. */
  lemma ExplicitCall(names: Signature, a: PyValue, v: PyValue, str: PyValue -> string)
    requires |names| == 2
    ensures ArgDict(names, [a], [(names[1], v)], str) == [(names[0], str(a)), (names[1], str(v))]
  {
    var kw: KwArgs := [(names[1], v)];
    var d2 := Declared(names, [a], kw, str, 2);
    assert d2 == [(names[0], str(a)), (names[1], str(v))] by {
      FirstPositional(names, a, kw, str);
      SecondByKeyword(names, a, v, str);
    }
    assert Extras(d2, kw, str, 1) == d2 by {
      ExtrasNext(d2, kw, str, 0);
      assert Lookup(d2, names[1]).Some?;
    }
  }

  lemma SecondByKeyword(names: Signature, a: PyValue, v: PyValue, str: PyValue -> string)
    requires |names| == 2
    requires Declared(names, [a], [(names[1], v)], str, 1) == [(names[0], str(a))]
    ensures Declared(names, [a], [(names[1], v)], str, 2) == [(names[0], str(a)), (names[1], str(v))]
  {
    var kw: KwArgs := [(names[1], v)];
    DeclaredNext(names, [a], kw, str, 1);
    assert KwLookup(kw, names[1]) == Some(v);
    assert Lookup([(names[0], str(a))], names[1]) == None;
  }

  /** What the wrapped function raises. */
  datatype Failure = FuncError(message: string) | StoreFailure

  /** What a call through the wrapper returns: the stored (serialised) form
      on a hit, the function's own result on a miss, or an exception. */
  datatype Outcome = Cached(data: Stored) | Computed(value: PyValue) | Raised(failure: Failure)

  function Direct(result: Result<PyValue, string>): Outcome {
    match result
    case Ok(v) => Computed(v)
    case Err(e) => Raised(FuncError(e))
  }

  /** One call's effect on a store holding `entries`, the fingerprint being
      `key`: the outcome, the new entries, and whether the function ran.
      `now` is the lookup time and `later` the store time. */
  datatype Step = Step(outcome: Outcome, entries: map<string, Entry>, called: bool)

  function AsyncStep(entries: map<string, Entry>, key: string, result: Result<PyValue, string>, ttl: Option<int>,
                     now: int, later: int, getFault: bool, setFault: bool): Step
  {
    if getFault then Step(Raised(StoreFailure), entries, false)
    else if Fetch(entries, key, now) != SNone then Step(Cached(Fetch(entries, key, now)), entries, false)
    else match result
      case Err(e) => Step(Raised(FuncError(e)), entries, true)
      case Ok(v) =>
        if setFault then Step(Raised(StoreFailure), entries, true)
        else Step(Computed(v), Upsert(entries, key, NewEntry(v, ttl, later)), true)
  }

  function SyncStep(entries: map<string, Entry>, key: string, result: Result<PyValue, string>, ttl: Option<int>,
                    now: int, later: int, getFault: bool, setFault: bool): Step
  {
    if getFault then Step(Raised(StoreFailure), entries, false)
    else if Fetch(entries, key, now) != SNone then Step(Cached(Fetch(entries, key, now)), entries, false)
    else match result
      case Err(e) => Step(Raised(FuncError(e)), entries, true)
      case Ok(v) => Step(Computed(v), if setFault then entries else Refresh(entries, key, NewEntry(v, ttl, later)), true)
  }

  /** A live, non-None entry is returned in its stored form and the
      function does not run, in either wrapper. */
  lemma HitSkipsCall(entries: map<string, Entry>, key: string, result: Result<PyValue, string>, ttl: Option<int>,
                     now: int, later: int, setFault: bool)
    requires Live(entries, key, now) && entries[key].data != SNone
    ensures var s := AsyncStep(entries, key, result, ttl, now, later, false, setFault);
            !s.called && s.outcome == Cached(entries[key].data) && s.entries == entries
    ensures var s := SyncStep(entries, key, result, ttl, now, later, false, setFault);
            !s.called && s.outcome == Cached(entries[key].data) && s.entries == entries
  {
  }

  /** An exception from the function propagates and nothing is stored. */
  lemma FuncErrorStoresNothing(entries: map<string, Entry>, key: string, e: string, ttl: Option<int>,
                               now: int, later: int, setFault: bool, isAsync: bool)
    requires Fetch(entries, key, now) == SNone
    ensures var s := if isAsync then AsyncStep(entries, key, Err(e), ttl, now, later, false, setFault)
                     else SyncStep(entries, key, Err(e), ttl, now, later, false, setFault);
            s.called && s.outcome == Raised(FuncError(e)) && s.entries == entries
  {
  }

  /** Memoisation through the async wrapper: after a miss whose result `v`
      was stored at `later`, a call at any `q` before the entry expires
      does not run the function and returns the serialised `v` — unless
      `v` serialises to None, which is never a hit. */
  lemma AsyncMemoises(entries: map<string, Entry>, key: string, v: PyValue, r2: Result<PyValue, string>, ttl: Option<int>,
                      now: int, later: int, q: int, later2: int, setFault2: bool)
    requires Fetch(entries, key, now) == SNone
    requires q < later + EffectiveTtl(ttl)
    ensures var s1 := AsyncStep(entries, key, Ok(v), ttl, now, later, false, false);
            s1.called && s1.outcome == Computed(v)
            && var s2 := AsyncStep(s1.entries, key, r2, ttl, q, later2, false, setFault2);
            (Serialize(v) != SNone ==> !s2.called && s2.outcome == Cached(Serialize(v)))
            && (Serialize(v) == SNone ==> s2.called)
  {
    TtlExpiry(entries, key, v, ttl, later, q);
  }

  /** The sync wrapper never warms the cache: for a key with no entry, the
      function runs on every call and the store stays without that key. */
  lemma SyncNeverWarms(entries: map<string, Entry>, key: string, r1: Result<PyValue, string>, r2: Result<PyValue, string>,
                       ttl: Option<int>, now: int, later: int, q: int, later2: int, setFault: bool)
    requires key !in entries
    ensures var s1 := SyncStep(entries, key, r1, ttl, now, later, false, setFault);
            s1.called && key !in s1.entries
            && SyncStep(s1.entries, key, r2, ttl, q, later2, false, setFault).called
  {
  }

  /** The receiver `self`: its runtime class name and its `cache_service`
      attribute when that exists and is a `CacheService`. */
  datatype Receiver = Receiver(className: string, cacheService: Option<CacheService>)

  /** The function `cacheable(ttl)` returns for one decorated function. */
  class Memoized {
    /** `func.__name__` */
    const name: string
    /** The parameters after `self`. */
    const params: Signature
    /** `inspect.iscoroutinefunction(func)` */
    const isAsync: bool
    const ttl: Option<int>
    /** How many times the wrapped function has run. */
    var calls: nat

    constructor (name: string, params: Signature, isAsync: bool, ttl: Option<int>)
      ensures this.name == name && this.params == params && this.isAsync == isAsync && this.ttl == ttl
      ensures calls == 0
    {
      this.name := name;
      this.params := params;
      this.isAsync := isAsync;
      this.ttl := ttl;
      calls := 0;
    }

    /** Call the decorated function: the async wrapper for a coroutine
        function, the sync wrapper otherwise. `func` gives what the function
        returns or raises for these arguments. */
    method Call(self: Receiver, args: seq<PyValue>, kwargs: KwArgs, func: (seq<PyValue>, KwArgs) -> Result<PyValue, string>,
                str: PyValue -> string, now: int, later: int, getFault: bool, setFault: bool) returns (r: Outcome)
      modifies this`calls, if self.cacheService.Some? then {self.cacheService.value} else {}
      ensures self.cacheService.None? ==> r == Direct(func(args, kwargs)) && calls == old(calls) + 1
      ensures self.cacheService.Some? ==>
        var svc := self.cacheService.value;
        var key := GenerateKey(self.className, name, ArgDict(params, args, kwargs, str));
        var s := if isAsync then AsyncStep(old(svc.entries), key, func(args, kwargs), ttl, now, later, getFault, setFault)
                 else SyncStep(old(svc.entries), key, func(args, kwargs), ttl, now, later, getFault, setFault);
        r == s.outcome && svc.entries == s.entries && calls == old(calls) + (if s.called then 1 else 0)
      ensures self.cacheService.Some? ==> self.cacheService.value.indexes == old(self.cacheService.value.indexes)
    {
      if isAsync {
        r := AsyncWrapper(self, args, kwargs, func, str, now, later, getFault, setFault);
      } else {
        r := SyncWrapper(self, args, kwargs, func, str, now, later, getFault, setFault);
      }
    }

    method AsyncWrapper(self: Receiver, args: seq<PyValue>, kwargs: KwArgs, func: (seq<PyValue>, KwArgs) -> Result<PyValue, string>,
                        str: PyValue -> string, now: int, later: int, getFault: bool, setFault: bool) returns (r: Outcome)
      modifies this`calls, if self.cacheService.Some? then {self.cacheService.value} else {}
      ensures self.cacheService.None? ==> r == Direct(func(args, kwargs)) && calls == old(calls) + 1
      ensures self.cacheService.Some? ==>
        var svc := self.cacheService.value;
        var s := AsyncStep(old(svc.entries), GenerateKey(self.className, name, ArgDict(params, args, kwargs, str)),
                           func(args, kwargs), ttl, now, later, getFault, setFault);
        r == s.outcome && svc.entries == s.entries && calls == old(calls) + (if s.called then 1 else 0)
      ensures self.cacheService.Some? ==> self.cacheService.value.indexes == old(self.cacheService.value.indexes)
    {
      if self.cacheService.None? {
        calls := calls + 1;
        return Direct(func(args, kwargs));
      }
      var svc := self.cacheService.value;
      var argDict := BuildArgDict(params, args, kwargs, str);
      var cached := svc.AGet(self.className, name, argDict, now, getFault);
      if cached.Err? {
        return Raised(StoreFailure);
      }
      if cached.value != SNone {
        return Cached(cached.value);
      }
      calls := calls + 1;
      var result := func(args, kwargs);
      if result.Err? {
        return Raised(FuncError(result.error));
      }
      var stored := svc.ASet(self.className, name, argDict, result.value, ttl, later, setFault);
      if stored.Err? {
        return Raised(StoreFailure);
      }
      return Computed(result.value);
    }

    method SyncWrapper(self: Receiver, args: seq<PyValue>, kwargs: KwArgs, func: (seq<PyValue>, KwArgs) -> Result<PyValue, string>,
                       str: PyValue -> string, now: int, later: int, getFault: bool, setFault: bool) returns (r: Outcome)
      modifies this`calls, if self.cacheService.Some? then {self.cacheService.value} else {}
      ensures self.cacheService.None? ==> r == Direct(func(args, kwargs)) && calls == old(calls) + 1
      ensures self.cacheService.Some? ==>
        var svc := self.cacheService.value;
        var s := SyncStep(old(svc.entries), GenerateKey(self.className, name, ArgDict(params, args, kwargs, str)),
                          func(args, kwargs), ttl, now, later, getFault, setFault);
        r == s.outcome && svc.entries == s.entries && calls == old(calls) + (if s.called then 1 else 0)
      ensures self.cacheService.Some? ==> self.cacheService.value.indexes == old(self.cacheService.value.indexes)
    {
      if self.cacheService.None? {
        calls := calls + 1;
        return Direct(func(args, kwargs));
      }
      var svc := self.cacheService.value;
      var argDict := BuildArgDict(params, args, kwargs, str);
      var cached := svc.Get(self.className, name, argDict, now, getFault);
      if cached.Err? {
        return Raised(StoreFailure);
      }
      if cached.value != SNone {
        return Cached(cached.value);
      }
      calls := calls + 1;
      var result := func(args, kwargs);
      if result.Err? {
        return Raised(FuncError(result.error));
      }
      svc.Set(self.className, name, argDict, result.value, ttl, later, setFault);
      return Computed(result.value);
    }
  }
}
