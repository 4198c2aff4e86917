/**
 * PHP arrays with string keys and string values, as the dimension maps of a
 * metric use them: an ordered list of entries in which every key occurs once.
 * `ArrayReplace` is PHP's `array_replace($base, $over)` on such arrays.
 */
module PhpArrays {
  import opened Wrappers

  type Entry = (string, string)

  /** No key occurs twice: what makes a list of entries a PHP array. */
  predicate UniqueKeys(a: seq<Entry>) {
    forall i, j :: 0 <= i < j < |a| ==> a[i].0 != a[j].0
  }

  /** A PHP array with string keys, in its iteration order. */
  type StringMap = a: seq<Entry> | UniqueKeys(a)

  /** The keys, in iteration order. */
  function Keys(a: seq<Entry>): (ks: seq<string>)
    ensures |ks| == |a|
  {
    seq(|a|, i requires 0 <= i < |a| => a[i].0)
  }

  /** The set of keys. */
  function KeySet(a: seq<Entry>): set<string> {
    set i | 0 <= i < |a| :: a[i].0
  }

  lemma KeySetCons(a: seq<Entry>)
    requires a != []
    ensures KeySet(a) == {a[0].0} + KeySet(a[1..])
  {
    forall k | k in KeySet(a) ensures k in {a[0].0} + KeySet(a[1..]) {
      var i :| 0 <= i < |a| && a[i].0 == k;
      if i > 0 { assert a[1..][i - 1].0 == k; }
    }
    forall k | k in KeySet(a[1..]) ensures k in KeySet(a) {
      var i :| 0 <= i < |a[1..]| && a[1..][i].0 == k;
      assert a[i + 1].0 == k;
    }
  }

  /** A PHP array has as many keys as entries. */
  lemma {:induction false} KeySetSize(a: StringMap)
    ensures |KeySet(a)| == |a|
  {
    if a != [] {
      KeySetCons(a);
      KeySetSize(a[1..]);
    }
  }

  /** `$a[$k]` when `isset`, otherwise `None`. */
  function Get(a: StringMap, k: string): (r: Option<string>)
    ensures r.None? <==> k !in KeySet(a)
    ensures forall i :: 0 <= i < |a| && a[i].0 == k ==> r == Some(a[i].1)
  {
    if a == [] then None
    else
      KeySetCons(a);
      if a[0].0 == k then Some(a[0].1)
      else
        var r := Get(a[1..], k);
        assert forall i :: 1 <= i < |a| ==> a[i] == a[1..][i - 1];
        r
  }

  /** `$a[$k] = $v`: a present key keeps its place, a new key goes last. */
  function Put(a: StringMap, k: string, v: string): (r: StringMap)
  {
    if k in KeySet(a) then
      seq(|a|, i requires 0 <= i < |a| => if a[i].0 == k then (k, v) else a[i])
    else
      a + [(k, v)]
  }

  lemma PutKeySet(a: StringMap, k: string, v: string)
    ensures KeySet(Put(a, k, v)) == KeySet(a) + {k}
  {
    var r := Put(a, k, v);
    if k in KeySet(a) {
      assert Keys(r) == Keys(a);
      forall x | x in KeySet(r) ensures x in KeySet(a) {
        var i :| 0 <= i < |r| && r[i].0 == x;
        assert a[i].0 == x;
      }
      forall x | x in KeySet(a) ensures x in KeySet(r) {
        var i :| 0 <= i < |a| && a[i].0 == x;
        assert r[i].0 == x;
      }
    } else {
      forall x | x in KeySet(r) ensures x in KeySet(a) + {k} {
        var i :| 0 <= i < |r| && r[i].0 == x;
        if i < |a| { assert a[i].0 == x; }
      }
      forall x | x in KeySet(a) + {k} ensures x in KeySet(r) {
        if x == k { assert r[|a|].0 == x; }
        else {
          var i :| 0 <= i < |a| && a[i].0 == x;
          assert r[i].0 == x;
        }
      }
    }
  }

  /**
   * PHP's `array_replace($base, $over)`: start from `$base` and assign every
   * entry of `$over` in turn.
   */
  function ArrayReplace(base: StringMap, over: StringMap): (r: StringMap)
    decreases |over|
  {
    if over == [] then base
    else ArrayReplace(Put(base, over[0].0, over[0].1), over[1..])
  }

  // ---------------------------------------------------------------------
  // A declarative description of array_replace, and its agreement with the
  // entry-by-entry one.
  // ---------------------------------------------------------------------

  /** The entries of `base`, each with the value `over` gives its key, if any. */
  function Overlay(base: StringMap, over: StringMap): (r: StringMap)
    ensures Keys(r) == Keys(base)
  {
    var r := seq(|base|, i requires 0 <= i < |base| => (base[i].0, Get(over, base[i].0).GetOr(base[i].1)));
    assert Keys(r) == Keys(base);
    r
  }

  /** The entries of `over` whose key is not in `seen`, in the order of `over`. */
  function Appended(over: StringMap, seen: set<string>): (r: StringMap)
    ensures KeySet(r) == KeySet(over) - seen
    ensures forall j :: 0 <= j < |r| ==> r[j] in over
  {
    if over == [] then []
    else
      KeySetCons(over);
      var rest := Appended(over[1..], seen);
      if over[0].0 in seen then rest
      else
        var r := [over[0]] + rest;
        KeySetCons(r);
        assert r[1..] == rest;
        r
  }

  lemma {:induction false} AppendedSeen(over: StringMap, s1: set<string>, s2: set<string>)
    requires forall k :: k in KeySet(over) ==> (k in s1 <==> k in s2)
    ensures Appended(over, s1) == Appended(over, s2)
  {
    if over != [] {
      KeySetCons(over);
      AppendedSeen(over[1..], s1, s2);
    }
  }

  /** Assigning a key `base` already has: it is replaced in place. */
  lemma PutPresentOverlay(base: StringMap, over: StringMap)
    requires over != [] && over[0].0 in KeySet(base)
    ensures var b' := Put(base, over[0].0, over[0].1);
      Overlay(base, over) + Appended(over, KeySet(base))
        == Overlay(b', over[1..]) + Appended(over[1..], KeySet(b'))
  {
    var p, rest := over[0], over[1..];
    var b' := Put(base, p.0, p.1);
    KeySetCons(over);
    PutKeySet(base, p.0, p.1);
    AppendedSeen(rest, KeySet(base), KeySet(b'));
    PresentOverlay(base, over);
  }

  lemma PresentOverlay(base: StringMap, over: StringMap)
    requires over != [] && over[0].0 in KeySet(base)
    ensures Overlay(base, over) == Overlay(Put(base, over[0].0, over[0].1), over[1..])
  {
    var p, rest := over[0], over[1..];
    var b' := Put(base, p.0, p.1);
    assert |b'| == |base|;
    var l1, l2 := Overlay(base, over), Overlay(b', rest);
    forall i | 0 <= i < |base| ensures l1[i] == l2[i] {
      PresentOverlayAt(base, over, i);
    }
  }

  lemma PresentOverlayAt(base: StringMap, over: StringMap, i: nat)
    requires over != [] && over[0].0 in KeySet(base) && i < |base|
    ensures var b' := Put(base, over[0].0, over[0].1);
      |b'| == |base| && Overlay(base, over)[i] == Overlay(b', over[1..])[i]
  {
    var p, rest := over[0], over[1..];
    var b' := Put(base, p.0, p.1);
    assert b'[i] == if base[i].0 == p.0 then p else base[i];
    if base[i].0 == p.0 {
      KeySetCons(over);
      assert Get(rest, p.0) == None;
    } else {
      assert Get(over, base[i].0) == Get(rest, base[i].0);
    }
  }

  /** Assigning a key `base` lacks: it is appended. */
  lemma PutAbsentOverlay(base: StringMap, over: StringMap)
    requires over != [] && over[0].0 !in KeySet(base)
    ensures var b' := Put(base, over[0].0, over[0].1);
      Overlay(base, over) + Appended(over, KeySet(base))
        == Overlay(b', over[1..]) + Appended(over[1..], KeySet(b'))
  {
    var p, rest := over[0], over[1..];
    var b' := Put(base, p.0, p.1);
    var left, tail := Overlay(base, over), Appended(rest, KeySet(b'));
    assert Appended(over, KeySet(base)) == [p] + tail by { AbsentAppended(base, over); }
    assert Overlay(b', rest) == left + [p] by { AbsentOverlay(base, over); }
    assert (left + [p]) + tail == left + ([p] + tail);
  }

  lemma AbsentAppended(base: StringMap, over: StringMap)
    requires over != [] && over[0].0 !in KeySet(base)
    ensures Appended(over, KeySet(base))
         == [over[0]] + Appended(over[1..], KeySet(Put(base, over[0].0, over[0].1)))
  {
    var p, rest := over[0], over[1..];
    KeySetCons(over);
    PutKeySet(base, p.0, p.1);
    AppendedSeen(rest, KeySet(base), KeySet(Put(base, p.0, p.1)));
  }

  lemma AbsentOverlay(base: StringMap, over: StringMap)
    requires over != [] && over[0].0 !in KeySet(base)
    ensures Overlay(Put(base, over[0].0, over[0].1), over[1..]) == Overlay(base, over) + [over[0]]
  {
    var p, rest := over[0], over[1..];
    var b' := Put(base, p.0, p.1);
    assert b' == base + [p];
    var l1, l2 := Overlay(base, over), Overlay(b', rest);
    forall i | 0 <= i < |base| ensures l2[i] == l1[i] {
      assert b'[i] == base[i];
      assert base[i].0 != p.0;
      assert Get(over, base[i].0) == Get(rest, base[i].0);
    }
    KeySetCons(over);
    assert Get(rest, p.0) == None;
    assert l2[|base|] == p;
    assert l2 == l1 + [p];
  }

  /**
   * array_replace keeps the entries of `base` in place, each with the value
   * `over` gives its key when `over` has it, and then appends the entries of
   * `over` whose key `base` lacks, in their order in `over`.
   */
  lemma {:induction false} ArrayReplaceIsOverlayAppended(base: StringMap, over: StringMap)
    ensures ArrayReplace(base, over) == Overlay(base, over) + Appended(over, KeySet(base))
    decreases |over|
  {
    if over == [] {
      assert Overlay(base, over) == base;
    } else {
      ArrayReplaceIsOverlayAppended(Put(base, over[0].0, over[0].1), over[1..]);
      if over[0].0 in KeySet(base) {
        PutPresentOverlay(base, over);
      } else {
        PutAbsentOverlay(base, over);
      }
    }
  }

  /**
   * The replaced array has exactly the keys of both arrays; a key of `over`
   * gets its value from `over`, a key only in `base` keeps its value there.
   */
  lemma ArrayReplaceGet(base: StringMap, over: StringMap, k: string)
    ensures Get(ArrayReplace(base, over), k)
         == if k in KeySet(over) then Get(over, k) else Get(base, k)
  {
    ArrayReplaceIsOverlayAppended(base, over);
    if k in KeySet(base) {
      ReplaceGetFromBase(base, over, k);
    } else if k in KeySet(over) {
      ReplaceGetFromOver(base, over, k);
    }
  }

  lemma ReplaceGetFromBase(base: StringMap, over: StringMap, k: string)
    requires k in KeySet(base)
    ensures Get(ArrayReplace(base, over), k)
         == if k in KeySet(over) then Get(over, k) else Get(base, k)
  {
    var left := Overlay(base, over);
    var r := ArrayReplace(base, over);
    assert r == left + Appended(over, KeySet(base)) by { ArrayReplaceIsOverlayAppended(base, over); }
    var i :| 0 <= i < |base| && base[i].0 == k;
    assert r[i] == left[i];
    assert Get(r, k) == Some(left[i].1);
  }

  lemma ReplaceGetFromOver(base: StringMap, over: StringMap, k: string)
    requires k !in KeySet(base) && k in KeySet(over)
    ensures Get(ArrayReplace(base, over), k) == Get(over, k)
  {
    var left, right := Overlay(base, over), Appended(over, KeySet(base));
    var r := ArrayReplace(base, over);
    assert r == left + right by { ArrayReplaceIsOverlayAppended(base, over); }
    assert k in KeySet(right);
    var j :| 0 <= j < |right| && right[j].0 == k;
    assert Get(r, k) == Some(right[j].1) by {
      assert r[|left| + j] == right[j];
      GetAt(r, |left| + j);
    }
    assert right[j] in over;
    var i :| 0 <= i < |over| && over[i] == right[j];
    GetAt(over, i);
  }

  /** The value stored at an entry is the value of its key. */
  lemma GetAt(a: StringMap, i: nat)
    requires i < |a|
    ensures Get(a, a[i].0) == Some(a[i].1)
  {
  }

  /** The keys of the replaced array are the keys of both, each once. */
  lemma ArrayReplaceKeys(base: StringMap, over: StringMap)
    ensures KeySet(ArrayReplace(base, over)) == KeySet(base) + KeySet(over)
    ensures |ArrayReplace(base, over)| == |KeySet(base) + KeySet(over)|
  {
    var r := ArrayReplace(base, over);
    forall k ensures k in KeySet(r) <==> k in KeySet(base) + KeySet(over) {
      ArrayReplaceGet(base, over, k);
    }
    KeySetSize(r);
  }

  /**
   * Key order of the replaced array: the keys of `base` in their order, then
   * the keys only `over` has, in their order in `over`.
   */
  lemma ArrayReplaceOrder(base: StringMap, over: StringMap)
    ensures Keys(ArrayReplace(base, over)) == Keys(base) + Keys(Appended(over, KeySet(base)))
  {
    ArrayReplaceIsOverlayAppended(base, over);
    KeysConcat(Overlay(base, over), Appended(over, KeySet(base)));
  }

  lemma KeysConcat(a: seq<Entry>, b: seq<Entry>)
    ensures Keys(a + b) == Keys(a) + Keys(b)
  {
  }

  /** When no key is shared, array_replace is concatenation. */
  lemma {:induction false} ArrayReplaceDisjoint(base: StringMap, over: StringMap)
    requires KeySet(base) !! KeySet(over)
    ensures UniqueKeys(base + over)
    ensures ArrayReplace(base, over) == base + over
  {
    DisjointUnique(base, over);
    ArrayReplaceIsOverlayAppended(base, over);
    AppendedDisjoint(over, KeySet(base));
    var l := Overlay(base, over);
    forall i | 0 <= i < |base| ensures l[i] == base[i] {
      assert base[i].0 in KeySet(base);
      assert Get(over, base[i].0) == None;
    }
    assert l == base;
  }

  /** Two PHP arrays without a common key concatenate to a PHP array. */
  lemma DisjointUnique(a: StringMap, b: StringMap)
    requires KeySet(a) !! KeySet(b)
    ensures UniqueKeys(a + b)
  {
    forall i, j | 0 <= i < j < |a + b| ensures (a + b)[i].0 != (a + b)[j].0 {
      if i < |a| <= j {
        assert (a + b)[i].0 in KeySet(a);
        assert (a + b)[j] == b[j - |a|];
        assert b[j - |a|].0 in KeySet(b);
      }
    }
  }

  lemma {:induction false} AppendedDisjoint(over: StringMap, seen: set<string>)
    requires KeySet(over) !! seen
    ensures Appended(over, seen) == over
  {
    if over != [] {
      KeySetCons(over);
      AppendedDisjoint(over[1..], seen);
    }
  }

  /** `array_merge(...$lists)` over lists: their elements, one list after another. */
  function ArrayMerge<T>(lists: seq<seq<T>>): seq<T>
  {
    if lists == [] then [] else lists[0] + ArrayMerge(lists[1..])
  }

  /**
   * Merging lists of two elements each: elements `2i` and `2i + 1` of the
   * result are the elements of list `i`.
   */
  lemma {:induction false} ArrayMergePairs<T>(lists: seq<seq<T>>)
    requires forall i :: 0 <= i < |lists| ==> |lists[i]| == 2
    ensures |ArrayMerge(lists)| == 2 * |lists|
    ensures forall i :: 0 <= i < |lists| ==>
      ArrayMerge(lists)[2 * i] == lists[i][0] && ArrayMerge(lists)[2 * i + 1] == lists[i][1]
  {
    if lists != [] {
      var r, rest := ArrayMerge(lists), ArrayMerge(lists[1..]);
      ArrayMergePairs(lists[1..]);
      forall i | 1 <= i < |lists|
        ensures r[2 * i] == lists[i][0] && r[2 * i + 1] == lists[i][1]
      {
        assert lists[1..][i - 1] == lists[i];
        assert r[2 * i] == rest[2 * (i - 1)];
        assert r[2 * i + 1] == rest[2 * (i - 1) + 1];
      }
    }
  }
}
