/**
 * JavaScript objects whose values are strings (HTTP header maps), kept as their
 * entries in key order. Key order matters to the core: `Object.keys(h).find(…)`
 * picks the first matching key, and spreading `{ ...a, ...b }` keeps `a`'s keys
 * in place and appends `b`'s new ones.
 */
module HeaderRecords {
  import opened Wrappers
  import InsertionSets

  type Headers = seq<(string, string)>

  /** `Object.keys(h)`. */
  function Keys(h: Headers): (ks: seq<string>)
    ensures |ks| == |h|
  {
    if h == [] then [] else [h[0].0] + Keys(h[1..])
  }

  /** An object never holds the same key twice. */
  predicate WellFormed(h: Headers) {
    InsertionSets.Distinct(Keys(h))
  }

  /** `h[k]`, `None` when the key is absent. */
  function Get(h: Headers, k: string): (v: Option<string>)
    ensures v.Some? <==> k in Keys(h)
  {
    if h == [] then None else if h[0].0 == k then Some(h[0].1) else Get(h[1..], k)
  }

  /** `h[k] = v` on a copy: an existing key keeps its position, a new key goes last. */
  function Assign(h: Headers, k: string, v: string): (r: Headers)
    ensures Get(r, k) == Some(v)
    ensures forall k' :: k' != k ==> Get(r, k') == Get(h, k')
    ensures Keys(r) == InsertionSets.Add(Keys(h), k)
  {
    if h == [] then [(k, v)]
    else if h[0].0 == k then [(k, v)] + h[1..]
    else [h[0]] + Assign(h[1..], k, v)
  }

  /** `{ ...a, ...b }`: every entry of `b` assigned, in order, onto a copy of `a`. */
  function Spread(a: Headers, b: Headers): Headers
    decreases |b|
  {
    if b == [] then a else Spread(Assign(a, b[0].0, b[0].1), b[1..])
  }

  /** In a spread the right-hand object wins on every key it has; other keys keep their left-hand value. */
  lemma {:induction false} SpreadGet(a: Headers, b: Headers, k: string)
    requires WellFormed(b)
    ensures Get(Spread(a, b), k) == if k in Keys(b) then Get(b, k) else Get(a, k)
    decreases |b|
  {
    if b != [] {
      assert Keys(b) == [b[0].0] + Keys(b[1..]);
      InsertionSets.DistinctCons(b[0].0, Keys(b[1..]));
      SpreadGet(Assign(a, b[0].0, b[0].1), b[1..], k);
    }
  }

  /** A spread keeps the left-hand keys in place and appends the new right-hand keys in their order. */
  lemma {:induction false} SpreadKeys(a: Headers, b: Headers)
    ensures Keys(Spread(a, b)) == InsertionSets.AddAll(Keys(a), Keys(b))
    decreases |b|
  {
    if b != [] {
      assert Keys(b) == [b[0].0] + Keys(b[1..]);
      SpreadKeys(Assign(a, b[0].0, b[0].1), b[1..]);
    }
  }

  /** Spreading an empty object onto a well-formed one copies it. */
  lemma {:induction false} SpreadOntoEmpty(b: Headers)
    requires WellFormed(b)
    ensures Spread([], b) == b
  {
    SpreadAppends([], b);
  }

  /** Spreading entries whose keys are all new appends them in order. */
  lemma {:induction false} SpreadAppends(a: Headers, b: Headers)
    requires WellFormed(b)
    requires forall k :: k in Keys(b) ==> k !in Keys(a)
    ensures Spread(a, b) == a + b
    decreases |b|
  {
    if b != [] {
      var a' := a + [b[0]];
      assert Spread(a, b) == Spread(a', b[1..]) by {
        AssignNew(a, b[0].0, b[0].1);
      }
      assert WellFormed(b[1..]) && forall k :: k in Keys(b[1..]) ==> k !in Keys(a') by {
        assert Keys(b) == [b[0].0] + Keys(b[1..]);
        InsertionSets.DistinctCons(b[0].0, Keys(b[1..]));
        AssignNew(a, b[0].0, b[0].1);
      }
      SpreadAppends(a', b[1..]);
      ConsAppend(a, b);
    }
  }

  lemma ConsAppend(a: Headers, b: Headers)
    requires b != []
    ensures a + [b[0]] + b[1..] == a + b
  {
    assert b == [b[0]] + b[1..];
  }

  lemma {:induction false} AssignNew(h: Headers, k: string, v: string)
    requires k !in Keys(h)
    ensures Assign(h, k, v) == h + [(k, v)]
    ensures Keys(h + [(k, v)]) == Keys(h) + [k]
    decreases |h|
  {
    KeysAppend(h, (k, v));
    if h != [] {
      assert Keys(h) == [h[0].0] + Keys(h[1..]);
      AssignNew(h[1..], k, v);
      assert h + [(k, v)] == [h[0]] + (h[1..] + [(k, v)]);
    }
  }

  /** The keys of an object with one more entry at the end. */
  lemma {:induction false} KeysAppend(h: Headers, e: (string, string))
    ensures Keys(h + [e]) == Keys(h) + [e.0]
    decreases |h|
  {
    if h == [] {
      assert [] + [e] == [e];
    } else {
      KeysAppend(h[1..], e);
      assert (h + [e])[1..] == h[1..] + [e];
    }
  }
}
