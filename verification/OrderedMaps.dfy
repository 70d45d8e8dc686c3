/** A JavaScript Map: keys are unique and entries keep insertion order. Setting a
    key that is present keeps its place; deleting it and setting it again moves it
    to the end. */
module OrderedMaps {

  type JsMap<V> = seq<(string, V)>

  function IndexOf<V>(m: JsMap<V>, k: string): (i: nat)
    ensures i <= |m|
    ensures i < |m| ==> m[i].0 == k
  {
    if m == [] || m[0].0 == k then 0 else 1 + IndexOf(m[1..], k)
  }

  lemma {:induction false} IndexOfFirst<V>(m: JsMap<V>, k: string, j: nat)
    requires j < |m| && m[j].0 == k
    ensures IndexOf(m, k) <= j
  {
    if m[0].0 != k {
      IndexOfFirst(m[1..], k, j - 1);
    }
  }

  predicate Has<V>(m: JsMap<V>, k: string)
  {
    IndexOf(m, k) < |m|
  }

  function Lookup<V>(m: JsMap<V>, k: string): V
    requires Has(m, k)
  {
    m[IndexOf(m, k)].1
  }

  function Put<V>(m: JsMap<V>, k: string, v: V): JsMap<V>
  {
    var i := IndexOf(m, k);
    if i < |m| then m[i := (k, v)] else m + [(k, v)]
  }

  function Delete<V>(m: JsMap<V>, k: string): JsMap<V>
  {
    var i := IndexOf(m, k);
    if i < |m| then m[..i] + m[i + 1..] else m
  }

  function Keys<V>(m: JsMap<V>): seq<string>
  {
    seq(|m|, i requires 0 <= i < |m| => m[i].0)
  }

  ghost predicate Unique<V>(m: JsMap<V>)
  {
    forall i, j :: 0 <= i < j < |m| ==> m[i].0 != m[j].0
  }

  lemma IndexOfUnique<V>(m: JsMap<V>, i: nat)
    requires Unique(m) && i < |m|
    ensures IndexOf(m, m[i].0) == i
  {
    IndexOfFirst(m, m[i].0, i);
  }

  lemma Absent<V>(m: JsMap<V>, k: string)
    requires !Has(m, k)
    ensures forall j :: 0 <= j < |m| ==> m[j].0 != k
  {
    forall j | 0 <= j < |m| && m[j].0 == k ensures false {
      IndexOfFirst(m, k, j);
    }
  }

  lemma PutUnique<V>(m: JsMap<V>, k: string, v: V)
    requires Unique(m)
    ensures Unique(Put(m, k, v))
  {
    if !Has(m, k) { Absent(m, k); }
  }

  lemma PutLookup<V>(m: JsMap<V>, k: string, v: V, x: string)
    requires Unique(m)
    ensures Has(Put(m, k, v), x) <==> (x == k || Has(m, x))
    ensures Has(Put(m, k, v), x) ==> Lookup(Put(m, k, v), x) == if x == k then v else Lookup(m, x)
  {
    var p, at := Put(m, k, v), IndexOf(m, k);
    PutUnique(m, k, v);
    IndexOfUnique(p, at);
    if x != k {
      if Has(m, x) {
        IndexOfUnique(p, IndexOf(m, x));
      } else if Has(p, x) {
        IndexOfFirst(m, x, IndexOf(p, x));
      }
    }
  }

  lemma DeleteUnique<V>(m: JsMap<V>, k: string)
    requires Unique(m)
    ensures Unique(Delete(m, k)) && !Has(Delete(m, k), k)
  {
  }

  lemma DeleteLookup<V>(m: JsMap<V>, k: string, x: string)
    requires Unique(m)
    ensures Has(Delete(m, k), x) <==> (x != k && Has(m, x))
    ensures Has(Delete(m, k), x) ==> Lookup(Delete(m, k), x) == Lookup(m, x)
  {
    var d, at := Delete(m, k), IndexOf(m, k);
    DeleteUnique(m, k);
    if at < |m| {
      if x != k && Has(m, x) {
        var i := IndexOf(m, x);
        IndexOfUnique(d, if i < at then i else i - 1);
      } else if Has(d, x) {
        var j := IndexOf(d, x);
        IndexOfFirst(m, x, if j < at then j else j + 1);
      }
    }
  }
}
