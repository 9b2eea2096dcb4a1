/** The cache fingerprint of services/cache.py (`_generate_key`):
    `service:method:` followed by the `k=v` pairs of the argument dict,
    sorted by argument name and joined with `&`. */
module CacheKey {
  import opened Text
  import opened Wrappers

  predicate DistinctKeys(a: seq<(string, string)>) {
    forall i, j :: 0 <= i < j < |a| ==> a[i].0 != a[j].0
  }

  /** A Python `Dict[str, str]`: its items in insertion order, names distinct. */
  type ArgMap = a: seq<(string, string)> | DistinctKeys(a) witness []

  /** The value stored under `k`, if any (what `args.get(k)` returns). */
  function Lookup(a: seq<(string, string)>, k: string): (r: Option<string>)
    ensures r.Some? <==> exists i :: 0 <= i < |a| && a[i].0 == k
  {
    if a == [] then None
    else if a[0].0 == k then Some(a[0].1)
    else
      var r := Lookup(a[1..], k);
      assert forall i :: 1 <= i < |a| ==> a[i] == a[1..][i - 1];
      assert r.Some? ==> exists i :: 0 <= i < |a[1..]| && a[1..][i].0 == k;
      r
  }


  /** Two dicts are equal in Python exactly when they map the same names to
      the same values, whatever their insertion order. */
  ghost predicate SameDict(a: ArgMap, b: ArgMap) {
    forall k :: Lookup(a, k) == Lookup(b, k)
  }

  lemma {:induction false} LookupAt(a: ArgMap, i: nat)
    requires i < |a|
    ensures Lookup(a, a[i].0) == Some(a[i].1)
  {
    if i > 0 {
      LookupAt(a[1..], i - 1);
    }
  }

  predicate SortedByKey(a: seq<(string, string)>) {
    forall i, j :: 0 <= i < j < |a| ==> LexLess(a[i].0, a[j].0)
  }

  /** One step of `sorted`: put `p` in front of the first item whose name is
      larger. */
  function Insert(p: (string, string), a: seq<(string, string)>): (r: seq<(string, string)>)
    ensures multiset(r) == multiset(a) + multiset{p}
    ensures |r| == |a| + 1
  {
    if a == [] || LexLess(p.0, a[0].0) then [p] + a
    else
      assert a == [a[0]] + a[1..];
      [a[0]] + Insert(p, a[1..])
  }

  /** `sorted(args.items())`. The names are distinct, so Python's
      comparison of the `(name, value)` tuples never looks at the values. */
  function SortItems(a: seq<(string, string)>): (r: seq<(string, string)>)
    ensures multiset(r) == multiset(a)
  {
    if a == [] then []
    else
      assert a == [a[0]] + a[1..];
      Insert(a[0], SortItems(a[1..]))
  }

  lemma {:induction false} InsertSorted(p: (string, string), a: seq<(string, string)>)
    requires SortedByKey(a)
    requires forall i :: 0 <= i < |a| ==> a[i].0 != p.0
    ensures SortedByKey(Insert(p, a))
  {
    if a == [] {
    } else if LexLess(p.0, a[0].0) {
      forall j | 0 < j < |a| ensures LexLess(p.0, a[j].0) {
        LexLessTransitive(p.0, a[0].0, a[j].0);
      }
    } else {
      LexLessTotal(p.0, a[0].0);
      InsertSorted(p, a[1..]);
      var r := Insert(p, a[1..]);
      forall j | 0 <= j < |r|
        ensures LexLess(a[0].0, r[j].0)
      {
        assert r[j] in multiset(a[1..]) + multiset{p};
        if r[j] != p {
          assert r[j] in a[1..];
        }
      }
    }
  }

  lemma {:induction false} SortItemsSorted(a: ArgMap)
    ensures SortedByKey(SortItems(a))
  {
    if a != [] {
      SortItemsSorted(a[1..]);
      var s := SortItems(a[1..]);
      forall i | 0 <= i < |s| ensures s[i].0 != a[0].0 {
        assert s[i] in multiset(a[1..]);
        assert s[i] in a[1..];
      }
      InsertSorted(a[0], s);
    }
  }

  /** Two strictly sorted item lists with the same items are identical. */
  lemma {:induction false} SortedUnique(r1: seq<(string, string)>, r2: seq<(string, string)>)
    requires SortedByKey(r1) && SortedByKey(r2)
    requires forall p :: p in r1 <==> p in r2
    ensures r1 == r2
  {
    assert r1 != [] ==> r1[0] in r2;
    assert r2 != [] ==> r2[0] in r1;
    if r1 != [] && r2 != [] {
      var i :| 0 <= i < |r1| && r1[i] == r2[0];
      var j :| 0 <= j < |r2| && r2[j] == r1[0];
      if i != 0 && j != 0 {
        LexLessAsymmetric(r1[0].0, r1[i].0);
      }
      assert r1[0] == r2[0];
      LexLessIrreflexive(r1[0].0);
      forall p ensures p in r1[1..] <==> p in r2[1..] {
        if p in r1[1..] {
          var k :| 1 <= k < |r1| && r1[k] == p;
          assert p in r2 && p != r2[0];
          var m :| 0 <= m < |r2| && r2[m] == p;
          assert r2[1..][m - 1] == p;
        }
        if p in r2[1..] {
          var k :| 1 <= k < |r2| && r2[k] == p;
          assert p in r1 && p != r1[0];
          var m :| 0 <= m < |r1| && r1[m] == p;
          assert r1[1..][m - 1] == p;
        }
      }
      SortedUnique(r1[1..], r2[1..]);
      assert r1 == [r1[0]] + r1[1..] && r2 == [r2[0]] + r2[1..];
    }
  }

  function Pair(p: (string, string)): string {
    p.0 + "=" + p.1
  }

  function Pairs(a: seq<(string, string)>): (r: seq<string>)
    ensures |r| == |a|
  {
    if a == [] then [] else [Pair(a[0])] + Pairs(a[1..])
  }

  /** `_generate_key(service_name, method_name, args)` */
  function GenerateKey(service: string, operation: string, args: ArgMap): string {
    service + ":" + operation + ":" + Join(Pairs(SortItems(args)), "&")
  }

  /** The fingerprint depends on the dict only, not on the order in which
      its items were inserted (nor on whether they came positionally or by
      keyword, see CacheDecorator). */
  lemma KeyIgnoresInsertionOrder(service: string, operation: string, a: ArgMap, b: ArgMap)
    requires SameDict(a, b)
    ensures GenerateKey(service, operation, a) == GenerateKey(service, operation, b)
  {
    SortItemsSorted(a);
    SortItemsSorted(b);
    var sa, sb := SortItems(a), SortItems(b);
    forall p ensures p in sa <==> p in sb {
      assert p in sa <==> p in multiset(a);
      assert p in sb <==> p in multiset(b);
      if p in a {
        var i :| 0 <= i < |a| && a[i] == p;
        LookupAt(a, i);
        var j :| 0 <= j < |b| && b[j].0 == p.0;
        LookupAt(b, j);
        assert b[j] == p;
      }
      if p in b {
        var j :| 0 <= j < |b| && b[j] == p;
        LookupAt(b, j);
        var i :| 0 <= i < |a| && a[i].0 == p.0;
        LookupAt(a, i);
        assert a[i] == p;
      }
    }
    SortedUnique(sa, sb);
  }

  /** The key begins with the namespace and operation, each followed by `:`. */
  lemma KeyPrefix(service: string, operation: string, args: ArgMap)
    ensures StartsWith(GenerateKey(service, operation, args), service + ":" + operation + ":")
  {
    var pre := service + ":" + operation + ":";
    assert GenerateKey(service, operation, args) == pre + Join(Pairs(SortItems(args)), "&");
  }

  /** `&` and `=` inside values are not escaped, so two different
      argument dicts can share a fingerprint and hence a cache slot:
      `{a: "x&b=y"}` and `{a: "x", b: "y"}` whenever `a` sorts before `b`. */
  lemma KeyNotInjective(service: string, operation: string, a: string, b: string, x: string, y: string)
    requires LexLess(a, b)
    ensures a != b
    ensures !SameDict([(a, x + "&" + b + "=" + y)], [(a, x), (b, y)])
    ensures GenerateKey(service, operation, [(a, x + "&" + b + "=" + y)])
         == GenerateKey(service, operation, [(a, x), (b, y)])
  {
    LexLessIrreflexive(a);
    assert a != b;
    var one: ArgMap := [(a, x + "&" + b + "=" + y)];
    var two: ArgMap := [(a, x), (b, y)];
    var pre := service + ":" + operation + ":";
    assert !SameDict(one, two) by {
      assert Lookup(one, b) == None by {
        assert one[1..] == [];
      }
      assert Lookup(two, b) == Some(y) by {
        assert two[1..] == [(b, y)];
      }
    }
    assert GenerateKey(service, operation, one) == pre + Pair(one[0]) by {
      assert SortItems(one) == one;
      assert Pairs(one) == [Pair(one[0])];
    }
    assert GenerateKey(service, operation, two) == pre + (Pair(two[0]) + "&" + Pair(two[1])) by {
      SortTwo(two[0], two[1]);
      PairsTwo(two[0], two[1]);
    }
    Regroup(a, x, b, y);
  }

  /** `a=x&b=y` read as one pair or as two. */
  lemma Regroup(a: string, x: string, b: string, y: string)
    ensures Pair((a, x + "&" + b + "=" + y)) == Pair((a, x)) + "&" + Pair((b, y))
  {
    var eq, amp := "=", "&";
    calc {
      Pair((a, x + amp + b + eq + y));
      a + eq + (x + amp + b + eq + y);
      a + eq + x + amp + b + eq + y;
      (a + eq + x) + amp + (b + eq + y);
    }
  }

  /** A dict with one more item gives a longer fingerprint. */
  lemma OneMoreItem(service: string, operation: string, p: (string, string), q: (string, string))
    requires p.0 != q.0
    ensures GenerateKey(service, operation, [p]) != GenerateKey(service, operation, [p, q])
  {
    var j1 := Join(Pairs(SortItems([p])), "&");
    var j2 := Join(Pairs(SortItems([p, q])), "&");
    assert j1 == Pair(p) by {
      assert SortItems([p]) == [p];
      assert Pairs([p]) == [Pair(p)];
    }
    assert |j2| == |Pair(p)| + 1 + |Pair(q)| by {
      SortTwo(p, q);
      if SortItems([p, q]) == [p, q] {
        PairsTwo(p, q);
      } else {
        PairsTwo(q, p);
      }
    }
    assert |GenerateKey(service, operation, [p, q])| > |GenerateKey(service, operation, [p])|;
  }

  lemma SortTwo(p: (string, string), q: (string, string))
    ensures SortItems([p, q]) == [p, q] || SortItems([p, q]) == [q, p]
    ensures LexLess(p.0, q.0) ==> SortItems([p, q]) == [p, q]
  {
    assert [p, q][1..] == [q];
    assert SortItems([q]) == [q];
  }

  lemma PairsTwo(p: (string, string), q: (string, string))
    ensures Join(Pairs([p, q]), "&") == Pair(p) + "&" + Pair(q)
  {
    assert [p, q][1..] == [q];
    assert Pairs([p, q]) == [Pair(p), Pair(q)];
    assert [Pair(p), Pair(q)][1..] == [Pair(q)];
  }
}
