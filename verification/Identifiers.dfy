/** Lists and sets of identifiers. */
module Identifiers {

  predicate NoDuplicates(ids: seq<nat>) {
    forall i, k :: 0 <= i < k < |ids| ==> ids[i] != ids[k]
  }

  function Elements(ids: seq<nat>): set<nat> {
    set x | x in ids
  }

  /** A list is as long as its set exactly when nothing occurs twice. */
  lemma {:induction false} ElementsSize(ids: seq<nat>)
    ensures |Elements(ids)| <= |ids|
    ensures |Elements(ids)| == |ids| <==> NoDuplicates(ids)
    decreases |ids|
  {
    if ids == [] {
      assert Elements(ids) == {};
    } else {
      var prefix, last := ids[..|ids| - 1], ids[|ids| - 1];
      ElementsSize(prefix);
      assert ids == prefix + [last];
      assert Elements(ids) == Elements(prefix) + {last};
      if last in prefix {
        var i :| 0 <= i < |prefix| && prefix[i] == last;
        assert ids[i] == ids[|ids| - 1];
      }
    }
  }

  /** One more entry of a list without duplicates. */
  lemma ElementsSnoc(ids: seq<nat>, i: nat)
    requires i < |ids| && NoDuplicates(ids)
    ensures Elements(ids[..i + 1]) == Elements(ids[..i]) + {ids[i]}
    ensures ids[i] !in Elements(ids[..i]) && ids[i] in Elements(ids) && Elements(ids[..i]) <= Elements(ids)
  {
    assert ids[..i + 1] == ids[..i] + [ids[i]];
  }

  lemma {:induction false} Enumerate(ids: set<nat>) returns (list: seq<nat>)
    ensures NoDuplicates(list) && forall x :: x in list <==> x in ids
    decreases |ids|
  {
    if ids == {} {
      list := [];
    } else {
      var x :| x in ids;
      list := Enumerate(ids - {x});
      list := list + [x];
    }
  }

  lemma SubsetSize(part: set<nat>, whole: set<nat>)
    requires part <= whole
    ensures |part| <= |whole|
    ensures |part| == |whole| <==> part == whole
  {
    var rest := whole - part;
    assert whole == part + rest;
    assert |whole| == |part| + |rest|;
  }

  lemma Disjoint(a: set<nat>, b: set<nat>)
    requires a !! b
    ensures |a + b| == |a| + |b|
  {
  }

  lemma OverlaySnoc<V>(m: map<nat, V>, w: map<nat, V>, k: nat, v: V)
    ensures (m + w)[k := v] == m + w[k := v]
  {
  }
}
