/**
 * Items as the entity layer sees them.
 *
 * A stored or returned item is an attribute map (`Item`).  The caller's own
 * dict additionally has an insertion order, which `patch_item` observes when
 * it walks `item.keys()`; it is kept as a sequence of entries (`Entries`)
 * whose map view is `ToMap`.  Assigning to a key follows Python's dict rule:
 * an existing key keeps its position, a new key goes to the end.
 */
module Dicts {

  /** An attribute value; only string-ness matters to the layer (keys are strings). */
  datatype Value = Str(s: string) | Num(n: int) | Bool(b: bool) | Null

  type Item = map<string, Value>

  type Entries = seq<(string, Value)>

  /** The keys of a dict in insertion order (`dict.keys()`). */
  function Keys(e: Entries): (ks: seq<string>)
    ensures |ks| == |e|
    ensures forall i :: 0 <= i < |e| ==> ks[i] == e[i].0
  {
    seq(|e|, i requires 0 <= i < |e| => e[i].0)
  }

  /** The map view of a dict; a later entry for the same key wins. */
  function ToMap(e: Entries): (m: Item)
    ensures forall k :: k in m <==> k in Keys(e)
  {
    if e == [] then map[] else map[e[0].0 := e[0].1] + ToMap(e[1..])
  }

  /** Every entry whose key is `k` now holds `v`; positions are unchanged. */
  function Overwrite(e: Entries, k: string, v: Value): (r: Entries)
    ensures Keys(r) == Keys(e)
  {
    if e == [] then [] else [if e[0].0 == k then (k, v) else e[0]] + Overwrite(e[1..], k, v)
  }

  /** `d[k] = v` on a Python dict. */
  function Set(e: Entries, k: string, v: Value): (r: Entries)
    ensures ToMap(r) == ToMap(e)[k := v]
    ensures k in Keys(e) ==> Keys(r) == Keys(e)
    ensures k !in Keys(e) ==> Keys(r) == Keys(e) + [k]
  {
    if k in Keys(e) then
      OverwriteToMap(e, k, v);
      Overwrite(e, k, v)
    else
      AppendToMap(e, k, v);
      e + [(k, v)]
  }

  lemma {:induction false} OverwriteToMap(e: Entries, k: string, v: Value)
    requires k in Keys(e)
    ensures ToMap(Overwrite(e, k, v)) == ToMap(e)[k := v]
  {
    var rest := e[1..];
    var head := if e[0].0 == k then (k, v) else e[0];
    assert Overwrite(e, k, v) == [head] + Overwrite(rest, k, v);
    assert ToMap(Overwrite(e, k, v)) == map[head.0 := head.1] + ToMap(Overwrite(rest, k, v));
    assert ToMap(e) == map[e[0].0 := e[0].1] + ToMap(rest);
    if k in Keys(rest) {
      OverwriteToMap(rest, k, v);
      UpdateUnion(e[0], head, ToMap(rest), k, v);
    } else {
      OverwriteMissing(rest, k, v);
      assert e[0].0 == k;
      assert k !in ToMap(rest);
      UpdateUnion(e[0], head, ToMap(rest), k, v);
    }
  }

  /** Map algebra for one step of `OverwriteToMap`. */
  lemma UpdateUnion(old0: (string, Value), new0: (string, Value), m: Item, k: string, v: Value)
    requires new0 == if old0.0 == k then (k, v) else old0
    requires k in m || old0.0 == k
    ensures map[new0.0 := new0.1] + (if k in m then m[k := v] else m) == (map[old0.0 := old0.1] + m)[k := v]
  {
    var lhs := map[new0.0 := new0.1] + (if k in m then m[k := v] else m);
    var rhs := (map[old0.0 := old0.1] + m)[k := v];
    assert lhs.Keys == rhs.Keys;
    forall x | x in lhs ensures lhs[x] == rhs[x] {
    }
  }

  lemma {:induction false} OverwriteMissing(e: Entries, k: string, v: Value)
    requires k !in Keys(e)
    ensures Overwrite(e, k, v) == e
  {
    if e != [] {
      assert Keys(e[1..]) == Keys(e)[1..];
      OverwriteMissing(e[1..], k, v);
    }
  }

  lemma {:induction false} AppendToMap(e: Entries, k: string, v: Value)
    ensures ToMap(e + [(k, v)]) == ToMap(e)[k := v]
  {
    if e != [] {
      assert (e + [(k, v)])[1..] == e[1..] + [(k, v)];
      AppendToMap(e[1..], k, v);
    }
  }

  /** No key occurs twice, as in every Python dict. */
  predicate DistinctKeys(e: Entries)
  {
    forall i, j :: 0 <= i < j < |e| ==> e[i].0 != e[j].0
  }

  /** Assigning a key keeps a dict's keys distinct. */
  lemma SetKeepsKeysDistinct(e: Entries, k: string, v: Value)
    requires DistinctKeys(e)
    ensures DistinctKeys(Set(e, k, v))
  {
    var r := Set(e, k, v);
    forall i, j | 0 <= i < j < |r| ensures r[i].0 != r[j].0 {
      assert Keys(r)[i] == r[i].0 && Keys(r)[j] == r[j].0;
      if j < |e| {
        assert Keys(e)[i] == e[i].0 && Keys(e)[j] == e[j].0;
      }
    }
  }
}
