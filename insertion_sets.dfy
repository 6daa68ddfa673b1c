/**
 * JavaScript `Set` values as the core uses them: a set remembers the order in
 * which its elements were first added, and spreading it (`[...set]`) lists them
 * in that order. A set of strings is kept here as that duplicate-free sequence.
 */
module InsertionSets {

  /** No element occurs twice. */
  predicate Distinct(s: seq<string>) {
    forall i, j :: 0 <= i < j < |s| ==> s[i] != s[j]
  }

  /** A sequence with a head is distinct when its tail is and the head is not in the tail. */
  lemma DistinctCons(x: string, s: seq<string>)
    ensures Distinct([x] + s) <==> x !in s && Distinct(s)
  {
    var t := [x] + s;
    if Distinct(t) {
      forall i, j | 0 <= i < j < |s| ensures s[i] != s[j] {
        assert s[i] == t[i + 1] && s[j] == t[j + 1];
      }
      forall i | 0 <= i < |s| ensures s[i] != x {
        assert s[i] == t[i + 1] && x == t[0];
      }
    }
    if x !in s && Distinct(s) {
      forall i, j | 0 <= i < j < |t| ensures t[i] != t[j] {
        assert t[j] == s[j - 1];
        if i > 0 { assert t[i] == s[i - 1]; }
      }
    }
  }

  /** `set.add(x)`: a new element goes to the end, a present one changes nothing. */
  function Add(s: seq<string>, x: string): (r: seq<string>)
    ensures Distinct(s) ==> Distinct(r)
    ensures x in r
    ensures forall y :: y in r <==> y in s || y == x
    ensures x in s ==> r == s
    ensures x !in s ==> r == s + [x]
  {
    if x in s then s else s + [x]
  }

  /** Adding every element of `xs` in turn: `new Set([...s, ...xs])` when `s` is distinct. */
  function AddAll(s: seq<string>, xs: seq<string>): (r: seq<string>)
    ensures Distinct(s) ==> Distinct(r)
    ensures forall y :: y in r <==> y in s || y in xs
    decreases |xs|
  {
    if xs == [] then s else AddAll(Add(s, xs[0]), xs[1..])
  }

  /** `[...new Set(xs)]`: the distinct elements of `xs`. */
  function Dedupe(xs: seq<string>): (r: seq<string>)
    ensures Distinct(r)
    ensures forall y :: y in r <==> y in xs
  {
    AddAll([], xs)
  }

  /** The elements of `xs` that are not in `s`, in order. */
  function Exclude(xs: seq<string>, s: seq<string>): (r: seq<string>)
    ensures |r| <= |xs|
    decreases |xs|
  {
    if xs == [] then []
    else (if xs[0] in s then [] else [xs[0]]) + Exclude(xs[1..], s)
  }

  /**
   * A reference definition of deduplication that keeps first occurrences:
   * take the head, then drop every later copy of it from the rest.
   */
  function KeepFirst(xs: seq<string>): seq<string>
    decreases |xs|
  {
    if xs == [] then [] else [xs[0]] + KeepFirst(Exclude(xs[1..], [xs[0]]))
  }

  lemma {:induction false} ExcludeTwice(t: seq<string>, s: seq<string>, x: string)
    ensures Exclude(Exclude(t, s), [x]) == Exclude(t, s + [x])
    decreases |t|
  {
    if t != [] {
      ExcludeTwice(t[1..], s, x);
      if t[0] in s {
        assert Exclude(t, s) == Exclude(t[1..], s);
      } else {
        assert Exclude(t, s) == [t[0]] + Exclude(t[1..], s);
        assert Exclude(t, s)[1..] == Exclude(t[1..], s);
      }
    }
  }

  /**
   * Adding `xs` to a distinct `s` appends exactly the first occurrences of the
   * elements of `xs` not already in `s`, in the order they first occur.
   */
  lemma {:induction false} AddAllKeepsFirst(s: seq<string>, xs: seq<string>)
    requires Distinct(s)
    ensures AddAll(s, xs) == s + KeepFirst(Exclude(xs, s))
    decreases |xs|
  {
    if xs == [] {
      assert Exclude(xs, s) == [];
      assert s + [] == s;
    } else if xs[0] in s {
      assert Exclude(xs, s) == Exclude(xs[1..], s);
      AddAllKeepsFirst(s, xs[1..]);
    } else {
      AddAllKeepsFirst(s + [xs[0]], xs[1..]);
      assert xs == [xs[0]] + xs[1..];
      AddAllNewHead(s, xs[0], xs[1..]);
    }
  }

  lemma {:induction false} KeepFirstNewHead(s: seq<string>, x: string, t: seq<string>)
    requires x !in s
    ensures KeepFirst(Exclude([x] + t, s)) == [x] + KeepFirst(Exclude(t, s + [x]))
  {
    ExcludeTwice(t, s, x);
    var e := Exclude([x] + t, s);
    assert ([x] + t)[1..] == t;
    assert e == [x] + Exclude(t, s);
    assert e[1..] == Exclude(t, s);
  }

  lemma {:induction false} AddAllNewHead(s: seq<string>, x: string, t: seq<string>)
    requires x !in s
    requires AddAll(s + [x], t) == s + [x] + KeepFirst(Exclude(t, s + [x]))
    ensures AddAll(s, [x] + t) == s + KeepFirst(Exclude([x] + t, s))
  {
    var k := KeepFirst(Exclude(t, s + [x]));
    AddAllNewElement(s, x, t);
    KeepFirstNewHead(s, x, t);
    ConsAssoc(s, x, k);
  }

  lemma ConsAssoc(s: seq<string>, x: string, k: seq<string>)
    ensures s + ([x] + k) == s + [x] + k
  {
  }

  lemma {:induction false} AddAllNewElement(s: seq<string>, x: string, t: seq<string>)
    requires x !in s
    ensures AddAll(s, [x] + t) == AddAll(s + [x], t)
  {
    assert ([x] + t)[0] == x && ([x] + t)[1..] == t;
    assert Add(s, x) == s + [x];
  }


  /** Adding `xs ++ ys` is adding `xs`, then `ys`. */
  lemma {:induction false} AddAllAppend(s: seq<string>, xs: seq<string>, ys: seq<string>)
    ensures AddAll(s, xs + ys) == AddAll(AddAll(s, xs), ys)
    decreases |xs|
  {
    if xs == [] {
      assert xs + ys == ys;
    } else {
      assert (xs + ys)[1..] == xs[1..] + ys;
      AddAllAppend(Add(s, xs[0]), xs[1..], ys);
    }
  }

  /** Deduplicating one more element adds it to the deduplicated prefix. */
  lemma DedupeSnoc(xs: seq<string>, x: string)
    ensures Dedupe(xs + [x]) == Add(Dedupe(xs), x)
  {
    AddAllAppend([], xs, [x]);
    assert AddAll(Dedupe(xs), [x]) == AddAll(Add(Dedupe(xs), x), []);
  }

  /** Deduplication keeps the first occurrence of every element, in order. */
  lemma {:induction false} DedupeKeepsFirst(xs: seq<string>)
    ensures Dedupe(xs) == KeepFirst(xs)
  {
    AddAllKeepsFirst([], xs);
    ExcludeNothing(xs);
  }

  lemma {:induction false} ExcludeNothing(xs: seq<string>)
    ensures Exclude(xs, []) == xs
    decreases |xs|
  {
    if xs != [] {
      ExcludeNothing(xs[1..]);
      assert xs == [xs[0]] + xs[1..];
    }
  }

  /** Adding elements a distinct set already holds changes nothing. */
  lemma {:induction false} AddAllPresent(s: seq<string>, xs: seq<string>)
    requires Distinct(s)
    requires forall y :: y in xs ==> y in s
    ensures AddAll(s, xs) == s
    decreases |xs|
  {
    if xs != [] {
      AddAllPresent(s, xs[1..]);
    }
  }

  /** Deduplicating a duplicate-free sequence returns it unchanged. */
  lemma {:induction false} DedupeDistinct(xs: seq<string>)
    requires Distinct(xs)
    ensures Dedupe(xs) == xs
  {
    AddAllKeepsFirst([], xs);
    ExcludeNothing(xs);
    KeepFirstDistinct(xs);
  }

  lemma {:induction false} KeepFirstDistinct(xs: seq<string>)
    requires Distinct(xs)
    ensures KeepFirst(xs) == xs
    decreases |xs|
  {
    if xs != [] {
      var t := xs[1..];
      ExcludeAbsent(t, [xs[0]]);
      assert Distinct(t);
      KeepFirstDistinct(t);
      assert xs == [xs[0]] + t;
    }
  }

  lemma {:induction false} ExcludeAbsent(xs: seq<string>, s: seq<string>)
    requires forall y :: y in xs ==> y !in s
    ensures Exclude(xs, s) == xs
    decreases |xs|
  {
    if xs != [] {
      ExcludeAbsent(xs[1..], s);
      assert xs == [xs[0]] + xs[1..];
    }
  }
}
