/** The smallest element of a finite set of integers, used to list map keys in
    ascending order. */
module Keys {

  /** `k` is the smallest of `keys`. */
  predicate IsMin(k: int, keys: set<int>) {
    k in keys && forall j :: j in keys ==> k <= j
  }

  lemma {:induction false} MinExists(keys: set<int>)
    requires keys != {}
    ensures exists k :: IsMin(k, keys)
  {
    if forall y :: y !in keys {
      assert false;
    }
    var x :| x in keys;
    var rest := keys - {x};
    if rest == {} {
      assert keys == {x};
      assert IsMin(x, keys);
    } else {
      MinExists(rest);
      var m :| IsMin(m, rest);
      var lo := if x < m then x else m;
      forall j | j in keys ensures lo <= j {
        if j != x { assert j in rest; }
      }
      assert IsMin(lo, keys);
    }
  }

  function MinKey(keys: set<int>): (k: int)
    requires keys != {}
    ensures IsMin(k, keys)
  {
    MinExists(keys);
    var k :| IsMin(k, keys);
    k
  }

  /** Removing an element other than the smallest keeps the smallest. */
  lemma MinKeyWithout(keys: set<int>, x: int)
    requires x in keys && x != MinKey(keys)
    ensures MinKey(keys) in keys - {x}
    ensures MinKey(keys - {x}) == MinKey(keys)
  {
    var k := MinKey(keys);
    assert k in keys - {x};
    var k' := MinKey(keys - {x});
    assert k' in keys;
  }
}
