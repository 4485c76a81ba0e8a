/**
  Python dictionaries with string keys, which keep their keys in insertion order:
  a sequence of key/value pairs with distinct keys. Assigning to a present key
  replaces its value in place; assigning to a new key appends it.
 */
module OrderedMap {
  import opened Wrappers

  type Dict<V> = seq<(string, V)>

  /** The keys in order, as `list(d.keys())`. */
  function Claves<V>(d: Dict<V>): (ks: seq<string>)
    ensures |ks| == |d|
    ensures forall i :: 0 <= i < |d| ==> ks[i] == d[i].0
  {
    seq(|d|, i requires 0 <= i < |d| => d[i].0)
  }

  predicate ClavesUnicas<V>(d: Dict<V>)
  {
    forall i, j :: 0 <= i < j < |d| ==> d[i].0 != d[j].0
  }

  /** The position of `k`, if present. */
  function Posicion<V>(d: Dict<V>, k: string): (r: Option<nat>)
    ensures r.Some? ==> r.value < |d| && d[r.value].0 == k && forall j :: 0 <= j < r.value ==> d[j].0 != k
    ensures r.None? <==> k !in Claves(d)
  {
    if d == [] then None
    else if d[0].0 == k then Some(0)
    else
      match Posicion(d[1..], k)
      case None => None
      case Some(p) => Some(p + 1)
  }

  /** `d.get(k)`: the value under `k`, if present. */
  function Obtener<V>(d: Dict<V>, k: string): (r: Option<V>)
    ensures r.None? <==> k !in Claves(d)
    ensures r.Some? ==> exists i :: 0 <= i < |d| && d[i] == (k, r.value)
  {
    match Posicion(d, k)
    case None => None
    case Some(p) => Some(d[p].1)
  }

  /** `d[k] = v`. */
  function Asignar<V>(d: Dict<V>, k: string, v: V): (r: Dict<V>)
  {
    match Posicion(d, k)
    case None => d + [(k, v)]
    case Some(p) => d[p := (k, v)]
  }

  /**
    Assignment gives `k` the value `v`, keeps every other key's value, keeps the
    key order, appends `k` when it was new, and keeps keys distinct.
   */
  lemma AsignarEfecto<V>(d: Dict<V>, k: string, v: V)
    requires ClavesUnicas(d)
    ensures var r := Asignar(d, k, v);
      && ClavesUnicas(r)
      && Obtener(r, k) == Some(v)
      && (forall k' :: k' != k ==> Obtener(r, k') == Obtener(d, k'))
      && Claves(r) == (if k in Claves(d) then Claves(d) else Claves(d) + [k])
  {
    var r := Asignar(d, k, v);
    match Posicion(d, k)
    case None =>
      assert r[..|d|] == d;
      UnicasEnPrefijo(r, d, k, v);
      forall k' | k' != k ensures Obtener(r, k') == Obtener(d, k') {
        ObtenerEnPrefijo(d, [(k, v)], k');
      }
      ObtenerUnica(r, |d|);
      assert Claves(r) == Claves(d) + [k];
    case Some(p) =>
      assert ClavesUnicas(r);
      ObtenerUnica(r, p);
      forall k' | k' != k ensures Obtener(r, k') == Obtener(d, k') {
        ObtenerFuera(d, p, k, v, k');
      }
      assert Claves(r) == Claves(d);
  }

  lemma UnicasEnPrefijo<V>(r: Dict<V>, d: Dict<V>, k: string, v: V)
    requires ClavesUnicas(d) && k !in Claves(d) && r == d + [(k, v)]
    ensures ClavesUnicas(r)
  {
    forall i, j | 0 <= i < j < |r| ensures r[i].0 != r[j].0 {
      if j == |d| {
        assert Claves(d)[i] == d[i].0;
      }
    }
  }

  /** In a dictionary with distinct keys, the pair at position `i` is what its key finds. */
  lemma ObtenerUnica<V>(d: Dict<V>, i: nat)
    requires ClavesUnicas(d) && i < |d|
    ensures Posicion(d, d[i].0) == Some(i)
    ensures Obtener(d, d[i].0) == Some(d[i].1)
  {
    var k := d[i].0;
    assert Claves(d)[i] == k;
    var p := Posicion(d, k).value;
    assert d[p].0 == k;
    assert p >= i;
    assert p <= i;
  }

  /** A key found in `a` is found there in `a + b` as well. */
  lemma {:induction false} ObtenerEnPrefijo<V>(a: Dict<V>, b: Dict<V>, k: string)
    requires k !in Claves(b) || k in Claves(a)
    ensures Obtener(a + b, k) == Obtener(a, k)
  {
    PosicionEnPrefijo(a, b, k);
  }

  lemma {:induction false} PosicionEnPrefijo<V>(a: Dict<V>, b: Dict<V>, k: string)
    requires k !in Claves(b) || k in Claves(a)
    ensures Posicion(a + b, k) == Posicion(a, k)
  {
    if a == [] {
      assert a + b == b;
    } else if a[0].0 != k {
      assert (a + b)[1..] == a[1..] + b;
      if k in Claves(a) {
        var i :| 0 <= i < |a| && Claves(a)[i] == k;
        assert Claves(a[1..])[i - 1] == k;
      }
      PosicionEnPrefijo(a[1..], b, k);
    }
  }

  /** Replacing the pair at `p` does not change what other keys find. */
  lemma ObtenerFuera<V>(d: Dict<V>, p: nat, k: string, v: V, k': string)
    requires ClavesUnicas(d) && p < |d| && d[p].0 == k && k' != k
    ensures Obtener(d[p := (k, v)], k') == Obtener(d, k')
  {
    var r := d[p := (k, v)];
    assert Claves(r) == Claves(d);
    if k' in Claves(d) {
      var i :| 0 <= i < |d| && Claves(d)[i] == k';
      assert ClavesUnicas(r);
      ObtenerUnica(d, i);
      ObtenerUnica(r, i);
    }
  }
}
