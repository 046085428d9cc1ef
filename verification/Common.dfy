/** Types shared by several components. */
module Common {

  datatype Option<+T> = None | Some(value: T)

  type byte = x: int | 0 <= x < 0x100
  type u16 = x: int | 0 <= x < 0x1_0000
  type u32 = x: int | 0 <= x < 0x1_0000_0000

  /** A Go string is a sequence of bytes. */
  type Str = seq<byte>

  /** Every element of `s` is larger than the one before it. */
  ghost predicate StrictlyIncreasing(s: seq<int>) {
    forall i, j :: 0 <= i < j < |s| ==> s[i] < s[j]
  }

  // ---------- Sorting the keys of a map ----------

  /** `out` lists the keys, each once, by increasing rank. */
  ghost predicate Ranked<K(!new)>(out: seq<K>, keys: set<K>, rank: map<K, int>) {
    && keys <= rank.Keys
    && (forall k :: k in out <==> k in keys)
    && forall i, j :: 0 <= i < j < |out| ==> rank[out[i]] < rank[out[j]]
  }

  lemma {:induction false} HasLeast<K>(keys: set<K>, rank: map<K, int>) returns (least: K)
    requires keys != {} && keys <= rank.Keys
    ensures least in keys && forall k :: k in keys ==> rank[least] <= rank[k]
    decreases keys
  {
    least :| least in keys;
    if keys != {least} {
      var other := HasLeast(keys - {least}, rank);
      if rank[other] < rank[least] {
        least := other;
      }
    }
  }

  method SortKeys<K(!new, ==)>(keys: set<K>, rank: map<K, int>) returns (out: seq<K>)
    requires keys <= rank.Keys
    requires forall a, b :: a in keys && b in keys && a != b ==> rank[a] != rank[b]
    ensures Ranked(out, keys, rank)
  {
    out := [];
    var rest := keys;
    while rest != {}
      invariant rest <= keys && Ranked(out, keys - rest, rank)
      invariant forall i, k :: 0 <= i < |out| && k in rest ==> rank[out[i]] < rank[k]
      decreases rest
    {
      ghost var witnessed := HasLeast(rest, rank);
      var least :| least in rest && forall k :: k in rest ==> rank[least] <= rank[k];
      ghost var before := out;
      out := out + [least];
      rest := rest - {least};
      assert forall k :: k in out <==> k in before || k == least;
    }
    assert keys - rest == keys;
  }

  /** There is one such list, so the result does not depend on map iteration. */
  lemma {:induction false} RankedUnique<K(!new)>(a: seq<K>, b: seq<K>, keys: set<K>, rank: map<K, int>)
    requires Ranked(a, keys, rank) && Ranked(b, keys, rank)
    ensures a == b
    decreases |a|
  {
    assert |b| > 0 ==> b[0] in keys && b[0] in a;
    if a != [] {
      assert a[0] in b;
      assert b[0] in a;
      RankedTail(a, keys, rank);
      RankedTail(b, keys, rank);
      RankedUnique(a[1..], b[1..], keys - {a[0]}, rank);
    }
  }

  lemma RankedTail<K(!new)>(a: seq<K>, keys: set<K>, rank: map<K, int>)
    requires Ranked(a, keys, rank) && a != []
    ensures Ranked(a[1..], keys - {a[0]}, rank)
    ensures forall k :: k in keys ==> rank[a[0]] <= rank[k]
  {
    assert a == [a[0]] + a[1..];
    forall k ensures k in a[1..] <==> k in keys - {a[0]} {
      if k in a[1..] {
        var i :| 0 <= i < |a[1..]| && a[1..][i] == k;
        assert a[i + 1] == k && k in keys;
      }
    }
    forall k | k in keys ensures rank[a[0]] <= rank[k] {
      assert k in a;
    }
  }
}
