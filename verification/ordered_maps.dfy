/** `std::map<std::string, std::string>` as an association list kept in
    strictly increasing key order, which is the order its iterators visit. */
module OrderedMaps {
  import opened Wrappers

  /** Lexicographic order on strings, character by character. */
  predicate StringLess(a: string, b: string) {
    if |a| == 0 then |b| > 0
    else if |b| == 0 then false
    else a[0] < b[0] || (a[0] == b[0] && StringLess(a[1..], b[1..]))
  }

  lemma {:induction false} StringLessIrreflexive(a: string)
    ensures !StringLess(a, a)
  {
    if |a| > 0 {
      StringLessIrreflexive(a[1..]);
    }
  }

  /** Two strings that agree up to position `k` and differ there are
      ordered by their characters at `k`. */
  lemma {:induction false} StringLessAt(a: string, b: string, k: nat)
    requires k < |a| && k < |b| && a[..k] == b[..k] && a[k] < b[k]
    ensures StringLess(a, b)
  {
    if k > 0 {
      assert a[0] == a[..k][0] == b[..k][0] == b[0];
      assert a[1..][..k - 1] == a[..k][1..] == b[..k][1..] == b[1..][..k - 1];
      StringLessAt(a[1..], b[1..], k - 1);
    }
  }

  lemma {:induction false} StringLessTransitive(a: string, b: string, c: string)
    requires StringLess(a, b) && StringLess(b, c)
    ensures StringLess(a, c)
  {
    if |a| > 0 && a[0] == b[0] && b[0] == c[0] {
      StringLessTransitive(a[1..], b[1..], c[1..]);
    }
  }

  predicate StrictlySorted(m: seq<(string, string)>) {
    forall i, j :: 0 <= i < j < |m| ==> StringLess(m[i].0, m[j].0)
  }

  type OrderedMap = m: seq<(string, string)> | StrictlySorted(m) witness []

  /** A list whose neighbours are in order is strictly sorted. */
  lemma SortedFromNeighbours(m: seq<(string, string)>)
    requires forall i :: 0 <= i < |m| - 1 ==> StringLess(m[i].0, m[i + 1].0)
    ensures StrictlySorted(m)
  {
    forall i, j | 0 <= i < j < |m| ensures StringLess(m[i].0, m[j].0) {
      NeighboursChain(m, i, j);
    }
  }

  lemma {:induction false} NeighboursChain(m: seq<(string, string)>, i: nat, j: nat)
    requires forall k :: 0 <= k < |m| - 1 ==> StringLess(m[k].0, m[k + 1].0)
    requires i < j < |m|
    ensures StringLess(m[i].0, m[j].0)
    decreases j - i
  {
    if i + 1 < j {
      NeighboursChain(m, i + 1, j);
      StringLessTransitive(m[i].0, m[i + 1].0, m[j].0);
    }
  }

  /** No key appears twice in a strictly sorted list. */
  lemma SortedKeysDistinct(m: OrderedMap, i: nat, j: nat)
    requires i < j < |m|
    ensures m[i].0 != m[j].0
  {
    if m[i].0 == m[j].0 {
      StringLessIrreflexive(m[i].0);
    }
  }

  /** `m.find(k)`: the value stored under `k`, if any. */
  function Lookup(m: seq<(string, string)>, k: string): (r: Option<string>)
    ensures r.None? <==> forall i :: 0 <= i < |m| ==> m[i].0 != k
    ensures r.Some? ==> exists i :: 0 <= i < |m| && m[i] == (k, r.value)
  {
    if |m| == 0 then None
    else if m[0].0 == k then Some(m[0].1)
    else
      var r := Lookup(m[1..], k);
      assert forall i :: 1 <= i < |m| ==> m[i] == m[1..][i - 1];
      r
  }

  lemma LookupAt(m: OrderedMap, i: nat)
    requires i < |m|
    ensures Lookup(m, m[i].0) == Some(m[i].1)
  {
    var r := Lookup(m, m[i].0);
    var j :| 0 <= j < |m| && m[j] == (m[i].0, r.value);
    if j < i {
      SortedKeysDistinct(m, j, i);
    } else if i < j {
      SortedKeysDistinct(m, i, j);
    }
  }

  function Keys(m: seq<(string, string)>): (ks: set<string>)
    ensures forall k :: k in ks <==> exists i :: 0 <= i < |m| && m[i].0 == k
  {
    set i | 0 <= i < |m| :: m[i].0
  }

  /** The same entries as a Dafny map (for instance a protobuf `map` field
      filled from the list). */
  function ToMap(m: OrderedMap): (r: map<string, string>)
    ensures r.Keys == Keys(m)
    ensures forall k :: k in r ==> Lookup(m, k) == Some(r[k])
  {
    map k | k in Keys(m) :: Lookup(m, k).value
  }

  /** Every entry of the list is an entry of the map. */
  lemma ToMapAt(m: OrderedMap, i: nat)
    requires i < |m|
    ensures m[i].0 in ToMap(m) && ToMap(m)[m[i].0] == m[i].1
  {
    LookupAt(m, i);
  }
}
