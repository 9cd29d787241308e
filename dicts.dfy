/** Insertion-ordered Python dicts whose values are JSON values: request bodies,
    query parameters and argument maps, which the adapter builds key by key. */
module Dicts {
  import opened PyValues

  /** A dict as its (key, value) pairs in insertion order. */
  type Body = seq<(string, Value)>

  function KeysOf(d: Body): set<string> {
    set p | p in d :: p.0
  }

  /** What every Python dict satisfies: no key twice. */
  predicate DistinctKeys(d: Body) {
    forall i, j :: 0 <= i < j < |d| ==> d[i].0 != d[j].0
  }

  /** `d.get(k)`, distinguishing a missing key from a `None` value. */
  function Lookup(d: Body, k: string): Option<Value> {
    if d == [] then None
    else if d[0].0 == k then Some(d[0].1)
    else Lookup(d[1..], k)
  }

  /** `d[k] = v`, which is also `d.update({k: v})`: a present key keeps its place
      and takes the new value, a new key goes at the end. */
  function Put(d: Body, k: string, v: Value): Body {
    if d == [] then [(k, v)]
    else if d[0].0 == k then [(k, v)] + d[1..]
    else [d[0]] + Put(d[1..], k, v)
  }

  lemma KeysOfCons(p: (string, Value), d: Body)
    ensures KeysOf([p] + d) == {p.0} + KeysOf(d)
  {
    assert forall q :: q in [p] + d <==> q == p || q in d;
  }

  /** Assignment adds the key to the key set and nothing else. */
  lemma {:induction false} PutKeys(d: Body, k: string, v: Value)
    ensures KeysOf(Put(d, k, v)) == KeysOf(d) + {k}
  {
    if d != [] {
      assert d == [d[0]] + d[1..];
      KeysOfCons(d[0], d[1..]);
      if d[0].0 == k {
        KeysOfCons((k, v), d[1..]);
      } else {
        PutKeys(d[1..], k, v);
        KeysOfCons(d[0], Put(d[1..], k, v));
      }
    }
  }

  /** After `d[k] = v`, `d.get(k)` is `v` and every other key reads as before. */
  lemma {:induction false} PutLookup(d: Body, k: string, v: Value)
    ensures Lookup(Put(d, k, v), k) == Some(v)
    ensures forall k' :: k' != k ==> Lookup(Put(d, k, v), k') == Lookup(d, k')
  {
    if d != [] && d[0].0 != k {
      PutLookup(d[1..], k, v);
    }
  }

  /** A new key goes at the end. */
  lemma {:induction false} PutAppends(d: Body, k: string, v: Value)
    requires k !in KeysOf(d)
    ensures Put(d, k, v) == d + [(k, v)]
  {
    if d != [] {
      assert d[0] in d;
      assert d == [d[0]] + d[1..];
      KeysOfCons(d[0], d[1..]);
      PutAppends(d[1..], k, v);
    }
  }

  /** Assignment keeps the keys distinct. */
  lemma PutDistinct(d: Body, k: string, v: Value)
    requires DistinctKeys(d)
    ensures DistinctKeys(Put(d, k, v))
  {
    if k !in KeysOf(d) {
      PutAppends(d, k, v);
      var r := Put(d, k, v);
      forall i, j | 0 <= i < j < |r|
        ensures r[i].0 != r[j].0
      {
        if j == |d| {
          assert d[i] in d;
        }
      }
    } else {
      PutSame(d, k, v);
    }
  }

  /** Assigning a present key changes only that key's value, in place. */
  lemma {:induction false} PutSame(d: Body, k: string, v: Value)
    requires k in KeysOf(d)
    ensures |Put(d, k, v)| == |d|
    ensures forall i :: 0 <= i < |d| ==> Put(d, k, v)[i].0 == d[i].0
  {
    assert d != [];
    if d[0].0 != k {
      assert d == [d[0]] + d[1..];
      KeysOfCons(d[0], d[1..]);
      PutSame(d[1..], k, v);
    }
  }

  /** The pairs of `s` whose value is not `None`, in their order: the body the
      loop `for pair in start.items(): if pair[1] is not None: body.update(...)` builds. */
  function NonNull(s: Body): Body {
    if s == [] then []
    else NonNull(s[..|s| - 1]) + (if s[|s| - 1].1 == Null then [] else [s[|s| - 1]])
  }

  /** A pair is in the filtered body exactly when it is in the input and its value is not `None`. */
  lemma {:induction false} NonNullMembers(s: Body)
    ensures forall p :: p in NonNull(s) <==> p in s && p.1 != Null
  {
    if s != [] {
      NonNullMembers(s[..|s| - 1]);
      assert s == s[..|s| - 1] + [s[|s| - 1]];
    }
  }

  /** The filtered body has exactly the keys whose value is not `None`, each with the
      value it had. */
  lemma NonNullKeys(s: Body)
    requires DistinctKeys(s)
    ensures KeysOf(NonNull(s)) == set p | p in s && p.1 != Null :: p.0
    ensures forall i :: 0 <= i < |s| && s[i].1 != Null ==> Lookup(NonNull(s), s[i].0) == Some(s[i].1)
  {
    NonNullMembers(s);
    forall i | 0 <= i < |s| && s[i].1 != Null
      ensures Lookup(NonNull(s), s[i].0) == Some(s[i].1)
    {
      assert s[i] in NonNull(s);
      LookupMember(NonNull(s), s[i]);
    }
  }

  /** In a dict without repeated keys, a member pair is what `get` finds. */
  lemma {:induction false} LookupMember(d: Body, p: (string, Value))
    requires p in d
    requires forall q :: q in d && q.0 == p.0 ==> q == p
    ensures Lookup(d, p.0) == Some(p.1)
  {
    if d[0] != p {
      assert p in d[1..];
      LookupMember(d[1..], p);
    }
  }

  /** Filtering keeps declaration order: it distributes over concatenation. */
  lemma {:induction false} NonNullConcat(a: Body, b: Body)
    ensures NonNull(a + b) == NonNull(a) + NonNull(b)
  {
    if b == [] {
      assert a + b == a;
    } else {
      var b' := b[..|b| - 1];
      assert (a + b)[..|a + b| - 1] == a + b';
      NonNullConcat(a, b');
    }
  }

  /** Filtering a dict with distinct keys leaves them distinct. */
  lemma {:induction false} NonNullDistinct(s: Body)
    requires DistinctKeys(s)
    ensures DistinctKeys(NonNull(s))
  {
    if s != [] {
      var front := s[..|s| - 1];
      var last := s[|s| - 1];
      assert forall i :: 0 <= i < |front| ==> front[i] == s[i];
      NonNullDistinct(front);
      if last.1 != Null {
        NonNullMembers(front);
        var f := NonNull(front);
        forall i | 0 <= i < |f|
          ensures f[i].0 != last.0
        {
          assert f[i] in f;
          var j :| 0 <= j < |front| && front[j] == f[i];
        }
      }
    }
  }

  /** A dict whose values are all `None` filters to the empty dict. */
  lemma {:induction false} NonNullOfNones(s: Body)
    requires forall i :: 0 <= i < |s| ==> s[i].1 == Null
    ensures NonNull(s) == []
  {
    if s != [] {
      NonNullOfNones(s[..|s| - 1]);
    }
  }

  /** The imperative filter loop the update and add operations run. */
  method FilterNone(start: Body) returns (body: Body)
    requires DistinctKeys(start)
    ensures body == NonNull(start)
    ensures DistinctKeys(body)
  {
    body := [];
    for i := 0 to |start|
      invariant body == NonNull(start[..i])
      invariant DistinctKeys(body)
    {
      assert start[..i + 1][..i] == start[..i];
      var (k, v) := start[i];
      if v != Null {
        NonNullMembers(start[..i]);
        forall p | p in start[..i]
          ensures p.0 != k
        {
          var j :| 0 <= j < i && start[j] == p;
        }
        PutAppends(body, k, v);
        PutDistinct(body, k, v);
        body := Put(body, k, v);
      }
    }
    assert start[..|start|] == start;
  }
}
