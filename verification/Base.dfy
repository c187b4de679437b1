/** Vocabulary shared by every module: options, string maps, ids, and the key order of `std::map`. */
module Base {

  datatype Option<+T> = None | Some(value: T)

  type StrMap = map<string, string>

  /** An account id, represented by its canonical (lower-case) text form. */
  type Uuid = string

  const NIL_ID: Uuid := "00000000-0000-0000-0000-000000000000"

  /** The service parameter that refers to an entry in a plugin's private storage. */
  const PLUGIN_ID := "PLUGIN_ID"

  function Get(m: StrMap, key: string): string {
    if key in m then m[key] else ""
  }

  // ---------------------------------------------------------------- key order of std::map

  /** Lexicographic order on strings. */
  predicate Before(a: string, b: string) {
    b != "" && (a == "" || a[0] < b[0] || (a[0] == b[0] && Before(a[1..], b[1..])))
  }

  lemma {:induction false} BeforeTotal(a: string, b: string)
    ensures a == b || Before(a, b) || Before(b, a)
  {
    if a != "" && b != "" && a[0] == b[0] {
      BeforeTotal(a[1..], b[1..]);
      if a[1..] == b[1..] {
        assert a == [a[0]] + a[1..] && b == [b[0]] + b[1..];
      }
    }
  }

  lemma {:induction false} BeforeAsymmetric(a: string, b: string)
    requires Before(a, b)
    ensures !Before(b, a)
  {
    if a != "" && a[0] == b[0] {
      BeforeAsymmetric(a[1..], b[1..]);
    }
  }

  lemma {:induction false} BeforeTransitive(a: string, b: string, c: string)
    requires Before(a, b) && Before(b, c)
    ensures Before(a, c)
  {
    if a != "" && a[0] == b[0] && b[0] == c[0] {
      BeforeTransitive(a[1..], b[1..], c[1..]);
    }
  }

  /** The strings agree up to a position, at which the first one ends or has the smaller character. */
  predicate SplitAt(a: string, b: string, i: nat) {
    i <= |a| && i < |b| && a[..i] == b[..i] && (i == |a| || a[i] < b[i])
  }

  lemma {:induction false} SplitExists(a: string, b: string) returns (i: nat)
    requires Before(a, b)
    ensures SplitAt(a, b, i)
  {
    i := 0;
    if a != "" && !(a[0] < b[0]) {
      var j := SplitExists(a[1..], b[1..]);
      i := j + 1;
      assert a[..i] == [a[0]] + a[1..][..j] && b[..i] == [b[0]] + b[1..][..j];
    }
  }

  lemma {:induction false} SplitDecides(a: string, b: string, i: nat)
    requires SplitAt(a, b, i)
    ensures Before(a, b)
  {
    if i > 0 {
      assert a[0] == a[..i][0] && b[0] == b[..i][0];
      assert a[1..][..i - 1] == a[..i][1..] && b[1..][..i - 1] == b[..i][1..];
      SplitDecides(a[1..], b[1..], i - 1);
    }
  }

  /** One string comes before another iff it is a proper prefix or has the smaller character where they first differ. */
  lemma BeforeIff(a: string, b: string)
    ensures Before(a, b) <==> exists i: nat :: SplitAt(a, b, i)
  {
    if Before(a, b) {
      var i := SplitExists(a, b);
    }
    if i: nat :| SplitAt(a, b, i) {
      SplitDecides(a, b, i);
    }
  }

  predicate IsLeast(x: string, s: set<string>) {
    x in s && forall y | y in s :: x == y || Before(x, y)
  }

  lemma {:induction false} LeastExists(s: set<string>)
    requires s != {}
    ensures exists x :: IsLeast(x, s)
    decreases |s|
  {
    var y :| y in s;
    var rest := s - {y};
    if rest == {} {
      assert s == {y};
      assert IsLeast(y, s);
    } else {
      LeastExists(rest);
      var z :| IsLeast(z, rest);
      BeforeTotal(y, z);
      var x := if Before(y, z) then y else z;
      forall w | w in s ensures x == w || Before(x, w) {
        if w != y && x == y && w != z {
          BeforeTransitive(y, z, w);
        }
      }
      assert IsLeast(x, s);
    }
  }

  ghost predicate Enumerates(keys: seq<string>, s: set<string>) {
    && (forall k :: k in keys <==> k in s)
    && (forall i, j | 0 <= i < j < |keys| :: keys[i] != keys[j])
  }

  ghost predicate Ascending(keys: seq<string>) {
    forall i, j {:trigger Before(keys[i], keys[j])} | 0 <= i < j < |keys| :: Before(keys[i], keys[j])
  }

  /** The keys of a `std::map` in iteration order. */
  ghost function Sorted(s: set<string>): (keys: seq<string>)
    ensures Enumerates(keys, s) && Ascending(keys)
  {
    SortedExists(s);
    var keys :| Enumerates(keys, s) && Ascending(keys);
    keys
  }

  lemma {:induction false} SortedExists(s: set<string>)
    ensures exists keys :: Enumerates(keys, s) && Ascending(keys)
    decreases |s|
  {
    if s == {} {
      assert Enumerates([], s) && Ascending([]);
    } else {
      LeastExists(s);
      var x :| IsLeast(x, s);
      SortedExists(s - {x});
      var rest :| Enumerates(rest, s - {x}) && Ascending(rest);
      SortedCons(s, x, rest);
    }
  }

  lemma SortedCons(s: set<string>, x: string, rest: seq<string>)
    requires IsLeast(x, s)
    requires Enumerates(rest, s - {x}) && Ascending(rest)
    ensures Enumerates([x] + rest, s) && Ascending([x] + rest)
  {
    var keys := [x] + rest;
    forall k ensures k in keys <==> k in s {
      assert k in keys <==> k == x || k in rest;
    }
    forall i, j | 0 <= i < j < |keys| ensures Before(keys[i], keys[j]) && keys[i] != keys[j] {
      assert keys[j] == rest[j - 1] && rest[j - 1] in rest;
      if i > 0 {
        assert keys[i] == rest[i - 1];
      }
    }
  }

  /** Two ascending sequences with the same elements are equal. */
  lemma {:induction false} AscendingUnique(a: seq<string>, b: seq<string>)
    requires Ascending(a) && Ascending(b)
    requires forall k :: k in a <==> k in b
    ensures a == b
  {
    if a != [] { assert a[0] in b; }
    if b != [] { assert b[0] in a; }
    if a != [] && b != [] {
      if a[0] != b[0] {
        assert Before(a[0], b[0]) && Before(b[0], a[0]);
        BeforeAsymmetric(a[0], b[0]);
      }
      TailElements(a, b);
      TailElements(b, a);
      AscendingUnique(a[1..], b[1..]);
      assert a == [a[0]] + a[1..] && b == [b[0]] + b[1..];
    }
  }

  lemma TailElements(a: seq<string>, b: seq<string>)
    requires a != [] && b != [] && a[0] == b[0]
    requires Ascending(a)
    requires forall k | k in a :: k in b
    ensures forall k | k in a[1..] :: k in b[1..]
  {
    forall k | k in a[1..] ensures k in b[1..] {
      var i :| 0 <= i < |a[1..]| && a[1..][i] == k;
      assert a[i + 1] == k && Before(a[0], a[i + 1]);
      if k == a[0] { BeforeAsymmetric(k, k); }
      assert k in a;
      var j :| 0 <= j < |b| && b[j] == k;
      assert b[1..][j - 1] == k;
    }
  }

  /** There is only one ascending enumeration of a set. */
  lemma SortedUnique(s: set<string>, keys: seq<string>)
    requires Enumerates(keys, s) && Ascending(keys)
    ensures keys == Sorted(s)
  {
    AscendingUnique(keys, Sorted(s));
  }

  /** Walks a `std::map`: the keys, smallest first. */
  method KeysOf(s: set<string>) returns (keys: seq<string>)
    ensures keys == Sorted(s)
  {
    keys := [];
    var rest := s;
    while rest != {}
      invariant rest <= s
      invariant Enumerates(keys, s - rest) && Ascending(keys)
      invariant forall k, y | k in keys && y in rest :: Before(k, y)
      decreases |rest|
    {
      LeastExists(rest);
      var x :| x in rest && IsLeast(x, rest);
      KeysTurn(s, keys, rest, x);
      keys, rest := keys + [x], rest - {x};
    }
    assert s - rest == s;
    SortedUnique(s, keys);
  }

  lemma KeysTurn(s: set<string>, keys: seq<string>, rest: set<string>, x: string)
    requires rest <= s && IsLeast(x, rest)
    requires Enumerates(keys, s - rest) && Ascending(keys)
    requires forall k, y | k in keys && y in rest :: Before(k, y)
    ensures Enumerates(keys + [x], s - (rest - {x})) && Ascending(keys + [x])
    ensures forall k, y | k in keys + [x] && y in rest - {x} :: Before(k, y)
  {
    var all := keys + [x];
    forall k ensures k in all <==> k in s - (rest - {x}) {
      assert k in all <==> k in keys || k == x;
    }
    forall i, j | 0 <= i < j < |all| ensures Before(all[i], all[j]) && all[i] != all[j] {
      assert all[i] == keys[i] && keys[i] in keys;
      if j < |keys| { assert all[j] == keys[j]; }
    }
    forall k, y | k in all && y in rest - {x} ensures Before(k, y) {
      assert k in keys || k == x;
    }
  }

  // ---------------------------------------------------------------- association lists

  datatype Pair = Pair(key: string, value: string)

  /** Assign the pairs to a map one after the other; a later pair overwrites an earlier one. */
  function Assign(m: StrMap, pairs: seq<Pair>): StrMap {
    if pairs == [] then m
    else
      var last := pairs[|pairs| - 1];
      Assign(m, pairs[..|pairs| - 1])[last.key := last.value]
  }

  /** A map written out in key order. */
  ghost function Pairs(m: StrMap): seq<Pair> {
    var keys := Sorted(m.Keys);
    seq(|keys|, i requires 0 <= i < |keys| => Pair(keys[i], m[keys[i]]))
  }

  /** Each key of the map once, with its value, in key order. */
  lemma PairsExact(m: StrMap)
    ensures forall p: Pair :: p in Pairs(m) <==> p.key in m && m[p.key] == p.value
    ensures forall i, j | 0 <= i < j < |Pairs(m)| :: Before(Pairs(m)[i].key, Pairs(m)[j].key)
  {
    var keys := Sorted(m.Keys);
    forall p: Pair | p.key in m && m[p.key] == p.value ensures p in Pairs(m) {
      assert p.key in keys;
      var i :| 0 <= i < |keys| && keys[i] == p.key;
      assert Pairs(m)[i] == p;
    }
    forall i, j | 0 <= i < j < |Pairs(m)| ensures Before(Pairs(m)[i].key, Pairs(m)[j].key) {
      assert Before(keys[i], keys[j]);
    }
  }

  method PairsOf(m: StrMap) returns (pairs: seq<Pair>)
    ensures pairs == Pairs(m)
  {
    pairs := [];
    var keys := KeysOf(m.Keys);
    for i := 0 to |keys|
      invariant pairs == Pairs(m)[..i]
    {
      assert keys[i] in keys;
      pairs := pairs + [Pair(keys[i], m[keys[i]])];
    }
  }

  lemma {:induction false} AssignPrefix(m: StrMap, keys: seq<string>, pairs: seq<Pair>)
    requires |keys| == |pairs|
    requires forall i | 0 <= i < |keys| :: keys[i] in m && pairs[i] == Pair(keys[i], m[keys[i]])
    ensures forall k :: k in Assign(map[], pairs) <==> k in keys
    ensures forall k | k in Assign(map[], pairs) :: k in m && Assign(map[], pairs)[k] == m[k]
  {
    if pairs != [] {
      var n := |pairs| - 1;
      AssignPrefix(m, keys[..n], pairs[..n]);
      assert keys == keys[..n] + [keys[n]];
    }
  }

  /** Reading back what was written in key order gives the same map. */
  lemma AssignPairs(m: StrMap)
    ensures Assign(map[], Pairs(m)) == m
  {
    AssignPrefix(m, Sorted(m.Keys), Pairs(m));
    assert Assign(map[], Pairs(m)).Keys == m.Keys;
  }

  /** The value a key ends up with is that of its last pair; keys without a pair keep their value. */
  lemma {:induction false} AssignLastWins(m: StrMap, pairs: seq<Pair>, key: string)
    ensures key in Assign(m, pairs) <==> key in m || exists p :: p in pairs && p.key == key
    ensures (forall p | p in pairs :: p.key != key) && key in m ==> Assign(m, pairs)[key] == m[key]
    ensures forall i | 0 <= i < |pairs| && pairs[i].key == key && (forall j | i < j < |pairs| :: pairs[j].key != key)
              :: Assign(m, pairs)[key] == pairs[i].value
  {
    if pairs != [] {
      var n := |pairs| - 1;
      var front := pairs[..n];
      AssignLastWins(m, front, key);
      assert forall p :: p in pairs <==> p in front || p == pairs[n];
      forall i | 0 <= i < |pairs| && pairs[i].key == key && (forall j | i < j < |pairs| :: pairs[j].key != key)
        ensures Assign(m, pairs)[key] == pairs[i].value
      {
        if i < n {
          assert front[i] == pairs[i];
          assert forall j | i < j < n :: front[j] == pairs[j];
        }
      }
    }
  }

  // ---------------------------------------------------------------- one map over another

  /** The keys of `others` in the given list are assigned one after the other. */
  function Overlaid(m: StrMap, others: StrMap, keys: seq<string>): StrMap {
    if keys == [] then m
    else
      var k := keys[|keys| - 1];
      Overlaid(m, others, keys[..|keys| - 1])[k := Get(others, k)]
  }

  lemma {:induction false} OverlaidKeys(m: StrMap, others: StrMap, keys: seq<string>)
    ensures forall k :: k in Overlaid(m, others, keys) <==> k in m || k in keys
    ensures forall k | k in Overlaid(m, others, keys) ::
              Overlaid(m, others, keys)[k] == if k in keys then Get(others, k) else m[k]
  {
    if keys != [] {
      var n := |keys| - 1;
      OverlaidKeys(m, others, keys[..n]);
      assert keys == keys[..n] + [keys[n]];
    }
  }

  lemma OverlaidAll(m: StrMap, others: StrMap, keys: seq<string>)
    requires forall k :: k in keys <==> k in others
    ensures Overlaid(m, others, keys) == m + others
  {
    OverlaidKeys(m, others, keys);
  }

  lemma UpdateAndForget<V>(m: map<string, V>, k: string, v: V)
    requires k !in m
    ensures m[k := v] - {k} == m
  {
  }

  lemma LastApart<T>(s: seq<T>)
    requires s != []
    ensures s == s[..|s| - 1] + [s[|s| - 1]]
  {
  }

  lemma UpdateTwice<V>(m: map<string, V>, k: string, v: V, w: V)
    ensures m[k := v][k := w] == m[k := w]
  {
  }
}
