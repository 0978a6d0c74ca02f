/**
 * Plain JavaScript objects with string keys, as ordered lists of entries.
 * A JavaScript object never holds a key twice and enumerates its keys in
 * insertion order, which `URLSearchParams` and object spread both observe.
 */
module Records {
  import opened Wrappers

  type Record<V> = seq<(string, V)>

  /** `Object.keys(r)`. */
  function Keys<V>(r: Record<V>): (ks: seq<string>)
    ensures |ks| == |r| && forall i :: 0 <= i < |r| ==> ks[i] == r[i].0
  {
    seq(|r|, i requires 0 <= i < |r| => r[i].0)
  }

  predicate HasKey<V>(r: Record<V>, k: string)
  {
    k in Keys(r)
  }

  predicate UniqueKeys<V>(r: Record<V>)
  {
    forall i, j :: 0 <= i < j < |r| ==> r[i].0 != r[j].0
  }

  lemma KeysCons<V>(r: Record<V>)
    requires |r| > 0
    ensures Keys(r) == [r[0].0] + Keys(r[1..])
  {
  }

  /** `r[k]`, absent keys giving None. */
  function Lookup<V>(r: Record<V>, k: string): (v: Option<V>)
    ensures v.Some? <==> HasKey(r, k)
  {
    if |r| == 0 then None
    else
      KeysCons(r);
      if r[0].0 == k then Some(r[0].1) else Lookup(r[1..], k)
  }

  /** In a record without repeated keys, the value found for a key is the one stored with it. */
  lemma {:induction false} LookupAt<V>(r: Record<V>, i: nat)
    requires UniqueKeys(r) && i < |r|
    ensures Lookup(r, r[i].0) == Some(r[i].1)
  {
    if i > 0 {
      assert r[0].0 != r[i].0;
      LookupAt(r[1..], i - 1);
    }
  }

  /**
   * `{...r, [k]: v}`: an existing key keeps its position and takes the new
   * value; a new key goes at the end.
   */
  function Set<V>(r: Record<V>, k: string, v: V): (r': Record<V>)
    ensures Lookup(r', k) == Some(v)
    ensures forall k' :: k' != k ==> Lookup(r', k') == Lookup(r, k')
  {
    if |r| == 0 then [(k, v)]
    else if r[0].0 == k then [(k, v)] + r[1..]
    else
      var t := Set(r[1..], k, v);
      assert ([r[0]] + t)[1..] == t;
      [r[0]] + t
  }

  /** Assigning keeps the key order: same keys when the key was there, one more at the end when not. */
  lemma SetKeys<V>(r: Record<V>, k: string, v: V)
    ensures HasKey(r, k) ==> Keys(Set(r, k, v)) == Keys(r)
    ensures !HasKey(r, k) ==> Set(r, k, v) == r + [(k, v)]
  {
    if HasKey(r, k) {
      SetPresentKeys(r, k, v);
    } else {
      SetAbsentAppends(r, k, v);
    }
  }

  /** Assigning a key that is there leaves the key list as it was. */
  lemma {:induction false} SetPresentKeys<V>(r: Record<V>, k: string, v: V)
    requires HasKey(r, k)
    ensures Keys(Set(r, k, v)) == Keys(r)
  {
    KeysCons(r);
    var s := Set(r, k, v);
    KeysCons(s);
    if r[0].0 != k {
      var t := Set(r[1..], k, v);
      SetPresentKeys(r[1..], k, v);
      assert s == [r[0]] + t;
      assert s[1..] == t;
    } else {
      assert s[1..] == r[1..];
    }
  }

  /** Assigning a key that is not there appends one entry. */
  lemma {:induction false} SetAbsentAppends<V>(r: Record<V>, k: string, v: V)
    requires !HasKey(r, k)
    ensures Set(r, k, v) == r + [(k, v)]
  {
    if |r| > 0 {
      KeysCons(r);
      var t := Set(r[1..], k, v);
      SetAbsentAppends(r[1..], k, v);
      assert Set(r, k, v) == [r[0]] + t;
      ConsSnoc(r, (k, v));
    }
  }

  lemma ConsSnoc<T>(s: seq<T>, e: T)
    requires |s| > 0
    ensures [s[0]] + (s[1..] + [e]) == s + [e]
  {
    assert s == [s[0]] + s[1..];
  }

  /** Assigning never duplicates a key. */
  lemma SetUnique<V>(r: Record<V>, k: string, v: V)
    requires UniqueKeys(r)
    ensures UniqueKeys(Set(r, k, v))
  {
    SetKeys(r, k, v);
    var s := Set(r, k, v);
    if HasKey(r, k) {
      assert forall i :: 0 <= i < |s| ==> s[i].0 == Keys(s)[i] == Keys(r)[i] == r[i].0;
    } else {
      assert forall i :: 0 <= i < |r| ==> r[i].0 != k;
    }
  }

  /** `delete r[k]`: the other entries stay, in their order. */
  function Delete<V>(r: Record<V>, k: string): (r': Record<V>)
    ensures Lookup(r', k) == None
    ensures forall k' :: k' != k ==> Lookup(r', k') == Lookup(r, k')
    ensures |r'| <= |r|
  {
    if |r| == 0 then []
    else if r[0].0 == k then Delete(r[1..], k)
    else
      var t := Delete(r[1..], k);
      assert ([r[0]] + t)[1..] == t;
      [r[0]] + t
  }

  /** Deleting keeps exactly the entries under other keys. */
  lemma {:induction false} DeleteEntries<V>(r: Record<V>, k: string)
    ensures forall i :: 0 <= i < |Delete(r, k)| ==> Delete(r, k)[i] in r && Delete(r, k)[i].0 != k
    ensures forall i :: 0 <= i < |r| && r[i].0 != k ==> r[i] in Delete(r, k)
  {
    if |r| > 0 {
      DeleteEntries(r[1..], k);
      var t := Delete(r[1..], k);
      assert forall x :: x in r[1..] ==> x in r;
      assert forall i :: 0 < i < |r| ==> r[i] == r[1..][i - 1];
      if r[0].0 != k {
        var d := [r[0]] + t;
        assert Delete(r, k) == d;
        assert forall i :: 0 < i < |d| ==> d[i] == t[i - 1];
      }
    }
  }

  /** Deleting an absent key changes nothing. */
  lemma {:induction false} DeleteAbsent<V>(r: Record<V>, k: string)
    requires !HasKey(r, k)
    ensures Delete(r, k) == r
  {
    if |r| > 0 {
      KeysCons(r);
      assert r[0].0 != k && !HasKey(r[1..], k);
      DeleteAbsent(r[1..], k);
      assert Delete(r, k) == [r[0]] + Delete(r[1..], k);
      assert r == [r[0]] + r[1..];
    }
  }

  /** Deleting never duplicates a key. */
  lemma DeleteUnique<V>(r: Record<V>, k: string)
    requires UniqueKeys(r)
    ensures UniqueKeys(Delete(r, k))
    decreases |r|
  {
    if |r| > 0 {
      UniqueTail(r);
      DeleteUnique(r[1..], k);
      var t := Delete(r[1..], k);
      if r[0].0 != k {
        assert Lookup(t, r[0].0) == Lookup(r[1..], r[0].0) == None;
        assert Delete(r, k) == [r[0]] + t;
        ConsUnique(r[0], t);
      }
    }
  }

  /** Putting an entry in front of a record that lacks its key keeps the keys distinct. */
  lemma ConsUnique<V>(e: (string, V), t: Record<V>)
    requires UniqueKeys(t) && !HasKey(t, e.0)
    ensures UniqueKeys([e] + t)
  {
    assert forall j :: 0 < j < |t| + 1 ==> ([e] + t)[j] == t[j - 1];
  }

  /** Deleting a key right after assigning it is the same as deleting it from the start. */
  lemma {:induction false} DeleteAfterSet<V>(r: Record<V>, k: string, v: V)
    ensures Delete(Set(r, k, v), k) == Delete(r, k)
  {
    if |r| > 0 && r[0].0 != k {
      DeleteAfterSet(r[1..], k, v);
      assert Set(r, k, v) == [r[0]] + Set(r[1..], k, v);
      assert ([r[0]] + Set(r[1..], k, v))[1..] == Set(r[1..], k, v);
    } else if |r| > 0 {
      assert ([(k, v)] + r[1..])[1..] == r[1..];
    }
  }

  /** Dropping the first entry of a record without repeated keys leaves one without that key. */
  lemma UniqueTail<V>(r: Record<V>)
    requires |r| > 0
    ensures UniqueKeys(r) ==> UniqueKeys(r[1..]) && !HasKey(r[1..], r[0].0)
  {
    if UniqueKeys(r) {
      assert forall j :: 0 <= j < |r| - 1 ==> r[1..][j].0 == r[j + 1].0 != r[0].0;
    }
  }

  /**
   * The value of the last entry under k: what assigning the entries in order
   * leaves at k. Without repeated keys it is simply the value stored with k.
   */
  function LastValue<V>(r: Record<V>, k: string): (v: V)
    requires HasKey(r, k)
    ensures UniqueKeys(r) ==> Lookup(r, k) == Some(v)
    decreases |r|
  {
    KeysCons(r);
    UniqueTail(r);
    if HasKey(r[1..], k) then LastValue(r[1..], k) else r[0].1
  }

  /**
   * `{...a, ...b}`: b's entries are assigned onto a one after the other, so a
   * key holds b's last value for it when b has it and a's value otherwise;
   * a's keys come first and keep their order, and no key is repeated.
   */
  function Merge<V>(a: Record<V>, b: Record<V>): (r: Record<V>)
    ensures forall k :: Lookup(r, k) == if HasKey(b, k) then Some(LastValue(b, k)) else Lookup(a, k)
    ensures |r| >= |a| && forall i :: 0 <= i < |a| ==> r[i].0 == a[i].0
    ensures UniqueKeys(a) ==> UniqueKeys(r)
    decreases |b|
  {
    if |b| == 0 then a
    else
      var rest := Merge(Set(a, b[0].0, b[0].1), b[1..]);
      MergeStep(a, b, rest);
      rest
  }

  /** The last value under each key, seen from the first entry. */
  lemma LastValueStep<V>(b: Record<V>)
    requires |b| > 0
    ensures forall k :: HasKey(b, k) <==> k == b[0].0 || HasKey(b[1..], k)
    ensures forall k :: HasKey(b[1..], k) ==> LastValue(b, k) == LastValue(b[1..], k)
    ensures !HasKey(b[1..], b[0].0) ==> LastValue(b, b[0].0) == b[0].1
  {
    KeysCons(b);
  }

  /** The first assignment of a spread, as the facts Merge's contract needs. */
  lemma MergeStep<V>(a: Record<V>, b: Record<V>, rest: Record<V>)
    requires |b| > 0
    requires forall k :: (Lookup(rest, k) ==
      if HasKey(b[1..], k) then Some(LastValue(b[1..], k)) else Lookup(Set(a, b[0].0, b[0].1), k))
    requires |rest| >= |Set(a, b[0].0, b[0].1)|
    requires forall i :: 0 <= i < |Set(a, b[0].0, b[0].1)| ==> rest[i].0 == Set(a, b[0].0, b[0].1)[i].0
    requires UniqueKeys(Set(a, b[0].0, b[0].1)) ==> UniqueKeys(rest)
    ensures forall k :: Lookup(rest, k) == if HasKey(b, k) then Some(LastValue(b, k)) else Lookup(a, k)
    ensures |rest| >= |a| && forall i :: 0 <= i < |a| ==> rest[i].0 == a[i].0
    ensures UniqueKeys(a) ==> UniqueKeys(rest)
  {
    var k0, v0 := b[0].0, b[0].1;
    var a' := Set(a, k0, v0);
    LastValueStep(b);
    SetKeepsPrefix(a, k0, v0);
    if UniqueKeys(a) {
      SetUnique(a, k0, v0);
    }
    forall k
      ensures Lookup(rest, k) == if HasKey(b, k) then Some(LastValue(b, k)) else Lookup(a, k)
    {
      if HasKey(b[1..], k) {
        assert LastValue(b, k) == LastValue(b[1..], k);
      } else if k == k0 {
        assert LastValue(b, k) == v0;
      } else {
        assert !HasKey(b, k);
        assert Lookup(a', k) == Lookup(a, k);
      }
    }
  }

  /**
   * Spreading b over a record that starts with k0 and otherwise holds none of
   * b's keys: k0 stays first (taking b's value when b has it), the rest of the
   * record follows, and then b's other entries in their order.
   */
  lemma {:induction false} MergeOnto<V>(k0: string, v0: V, t: Record<V>, b: Record<V>)
    requires UniqueKeys(b) && !HasKey(t, k0)
    requires forall i :: 0 <= i < |b| ==> !HasKey(t, b[i].0)
    ensures Merge([(k0, v0)] + t, b) ==
      [(k0, if HasKey(b, k0) then LastValue(b, k0) else v0)] + t + Delete(b, k0)
    decreases |b|, 1
  {
    if |b| == 0 {
      assert [(k0, v0)] + t + [] == [(k0, v0)] + t;
    } else if b[0].0 == k0 {
      MergeOntoHead(k0, v0, t, b);
    } else {
      MergeOntoOther(k0, v0, t, b);
    }
  }

  /** MergeOnto when b starts with k0 itself. */
  lemma {:induction false} MergeOntoHead<V>(k0: string, v0: V, t: Record<V>, b: Record<V>)
    requires |b| > 0 && b[0].0 == k0
    requires UniqueKeys(b) && !HasKey(t, k0)
    requires forall i :: 0 <= i < |b| ==> !HasKey(t, b[i].0)
    ensures Merge([(k0, v0)] + t, b) == [(k0, LastValue(b, k0))] + t + Delete(b, k0)
    decreases |b|, 0
  {
    var a := [(k0, v0)] + t;
    var v, b' := b[0].1, b[1..];
    UniqueTail(b);
    LastValueStep(b);
    assert LastValue(b, k0) == v;
    assert a[1..] == t;
    assert Set(a, k0, v) == [(k0, v)] + t;
    assert Merge(a, b) == Merge([(k0, v)] + t, b');
    forall i | 0 <= i < |b'|
      ensures !HasKey(t, b'[i].0)
    {
      assert b'[i] == b[i + 1];
    }
    assert UniqueKeys(b');
    MergeOnto(k0, v, t, b');
    DeleteAbsent(b', k0);
    assert Delete(b, k0) == Delete(b', k0);
  }

  /** MergeOnto when b starts with a key other than k0. */
  lemma {:induction false} MergeOntoOther<V>(k0: string, v0: V, t: Record<V>, b: Record<V>)
    requires |b| > 0 && b[0].0 != k0
    requires UniqueKeys(b) && !HasKey(t, k0)
    requires forall i :: 0 <= i < |b| ==> !HasKey(t, b[i].0)
    ensures Merge([(k0, v0)] + t, b) ==
      [(k0, if HasKey(b, k0) then LastValue(b, k0) else v0)] + t + Delete(b, k0)
    decreases |b|, 0
  {
    var e, b' := b[0], b[1..];
    var t' := t + [e];
    AssignAfter(k0, v0, t, e);
    assert Merge([(k0, v0)] + t, b) == Merge([(k0, v0)] + t', b');
    UniqueTail(b);
    forall i | 0 <= i < |b'|
      ensures !HasKey(t', b'[i].0)
    {
      assert b'[i] == b[i + 1];
      assert !HasKey(t, b[i + 1].0);
    }
    MergeOnto(k0, v0, t', b');
    var x := if HasKey(b', k0) then LastValue(b', k0) else v0;
    LastValueStep(b);
    assert x == if HasKey(b, k0) then LastValue(b, k0) else v0;
    assert Delete(b, k0) == [e] + Delete(b', k0);
    Regroup([(k0, x)], t, e, Delete(b', k0));
  }

  lemma Regroup<T>(h: seq<T>, t: seq<T>, e: T, d: seq<T>)
    ensures h + (t + [e]) + d == h + t + ([e] + d)
  {
  }

  /** Assigning a key that is new to a record puts it last. */
  lemma AssignAfter<V>(k0: string, v0: V, t: Record<V>, e: (string, V))
    requires !HasKey(t, e.0) && e.0 != k0 && !HasKey(t, k0)
    ensures Set([(k0, v0)] + t, e.0, e.1) == [(k0, v0)] + (t + [e])
    ensures !HasKey(t + [e], k0) && Keys(t + [e]) == Keys(t) + [e.0]
  {
    var a := [(k0, v0)] + t;
    KeysCons(a);
    assert a[1..] == t;
    assert !HasKey(a, e.0);
    SetKeys(a, e.0, e.1);
    assert (e.0, e.1) == e;
    assert a + [e] == [(k0, v0)] + (t + [e]);
    KeysSnoc(t, e);
  }

  lemma KeysSnoc<V>(t: Record<V>, e: (string, V))
    ensures Keys(t + [e]) == Keys(t) + [e.0]
  {
  }

  /** Spreading entries whose keys are all new simply appends them, in order. */
  lemma {:induction false} MergeFresh<V>(a: Record<V>, b: Record<V>)
    requires UniqueKeys(b)
    requires forall i :: 0 <= i < |b| ==> !HasKey(a, b[i].0)
    ensures Merge(a, b) == a + b
    decreases |b|
  {
    if |b| > 0 {
      var e := b[0];
      assert !HasKey(a, e.0);
      SetKeys(a, e.0, e.1);
      var a' := a + [e];
      assert Set(a, e.0, e.1) == a';
      var b' := b[1..];
      UniqueTail(b);
      KeysSnoc(a, e);
      forall i | 0 <= i < |b'|
        ensures !HasKey(a', b'[i].0)
      {
        assert b'[i] == b[i + 1];
        assert !HasKey(a, b[i + 1].0);
        assert b[i + 1].0 != e.0;
      }
      MergeFresh(a', b');
      assert Merge(a, b) == Merge(a', b');
      AppendFirst(a, b);
    }
  }

  lemma AppendFirst<T>(a: seq<T>, b: seq<T>)
    requires |b| > 0
    ensures (a + [b[0]]) + b[1..] == a + b
  {
  }

  /** Assigning keeps every existing key where it was. */
  lemma SetKeepsPrefix<V>(r: Record<V>, k: string, v: V)
    ensures |Set(r, k, v)| >= |r| && forall i :: 0 <= i < |r| ==> Set(r, k, v)[i].0 == r[i].0
  {
    SetKeys(r, k, v);
    var s := Set(r, k, v);
    if HasKey(r, k) {
      assert forall i :: 0 <= i < |r| ==> s[i].0 == Keys(s)[i] == Keys(r)[i] == r[i].0;
    }
  }
}
