/** Python's `sorted()` applied to a set of string keys. */
module PySorted {
  import opened PyText

  /** `k` is the greatest element of `keys` in string order. */
  predicate IsGreatest(keys: set<string>, k: string) {
    k in keys && forall j :: j in keys ==> StrLe(j, k)
  }

  lemma {:induction false} GreatestExists(keys: set<string>)
    requires keys != {}
    ensures exists k :: IsGreatest(keys, k)
    decreases |keys|
  {
    var x :| x in keys;
    if keys != {x} {
      GreatestExists(keys - {x});
      var m :| IsGreatest(keys - {x}, m);
      StrLeTotal(x, m);
      if StrLe(x, m) {
        assert IsGreatest(keys, m);
      } else {
        forall j | j in keys ensures StrLe(j, x) {
          if j != x {
            StrLeTransitive(j, m, x);
          } else {
            StrLeReflexive(x);
          }
        }
        assert IsGreatest(keys, x);
      }
    } else {
      StrLeReflexive(x);
      assert IsGreatest(keys, x);
    }
  }

  lemma GreatestUnique(keys: set<string>)
    ensures forall a, b :: IsGreatest(keys, a) && IsGreatest(keys, b) ==> a == b
  {
    forall a, b | IsGreatest(keys, a) && IsGreatest(keys, b) ensures a == b {
      StrLeAntisymmetric(a, b);
    }
  }

  /** `max(keys)`: the key that sorts last. */
  function MaxKey(keys: set<string>): (k: string)
    requires keys != {}
    ensures IsGreatest(keys, k)
  {
    GreatestExists(keys);
    GreatestUnique(keys);
    var k :| IsGreatest(keys, k);
    k
  }

  /** The elements of `ks` strictly increase in string order. */
  predicate StrictlyIncreasing(ks: seq<string>) {
    forall i, j :: 0 <= i < j < |ks| ==> StrLt(ks[i], ks[j])
  }

  /** `sorted(keys)`: the keys in increasing order, each once. */
  function SortedKeys(keys: set<string>): (ks: seq<string>)
    ensures |ks| == |keys|
    ensures forall k :: k in keys <==> k in ks
    ensures StrictlyIncreasing(ks)
    decreases |keys|
  {
    if keys == {} then []
    else
      var m := MaxKey(keys);
      var rest := SortedKeys(keys - {m});
      assert forall i :: 0 <= i < |rest| ==> StrLt(rest[i], m) by {
        forall i | 0 <= i < |rest| ensures StrLt(rest[i], m) {
          assert rest[i] in keys - {m};
        }
      }
      rest + [m]
  }

  /** The first key of `sorted(keys)` is the least key and the last is the greatest. */
  lemma SortedKeysEnds(keys: set<string>)
    requires keys != {}
    ensures SortedKeys(keys)[|keys| - 1] == MaxKey(keys)
    ensures forall j :: j in keys ==> StrLe(SortedKeys(keys)[0], j)
  {
    var ks := SortedKeys(keys);
    forall j | j in keys ensures StrLe(ks[0], j) {
      var i :| 0 <= i < |ks| && ks[i] == j;
      if i > 0 {
        assert StrLt(ks[0], ks[i]);
      } else {
        StrLeReflexive(j);
      }
    }
  }

  /** `k` is the least element of `keys` in string order. */
  predicate IsLeast(keys: set<string>, k: string) {
    k in keys && forall j :: j in keys ==> StrLe(k, j)
  }

  /** `min(keys)`: the key that sorts first, `sorted(keys)[0]`. */
  function MinKey(keys: set<string>): (k: string)
    requires keys != {}
    ensures IsLeast(keys, k)
  {
    SortedKeysEnds(keys);
    SortedKeys(keys)[0]
  }

  /** Of two keys in order, the first is the least and the second the greatest. */
  lemma TwoKeys(a: string, b: string)
    requires StrLt(a, b)
    ensures MinKey({a, b}) == a && MaxKey({a, b}) == b
  {
    var lo, hi := MinKey({a, b}), MaxKey({a, b});
    if lo == b {
      StrLeAntisymmetric(a, b);
    }
    if hi == a {
      StrLeAntisymmetric(a, b);
    }
  }
}
