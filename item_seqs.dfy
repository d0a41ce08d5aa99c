// Sequence helpers: guarded segments, counting, concatenation of sections.

module ItemSeqs {

  /** The segment `s` when the guard holds, nothing otherwise: one `#if` or
      `if` around a run of item macros. */
  function When<T>(b: bool, s: seq<T>): seq<T> {
    if b then s else []
  }

  /** `t` is the tail of `r`. */
  predicate EndsIn<T(==)>(r: seq<T>, t: seq<T>) {
    |t| <= |r| && r[|r| - |t|..] == t
  }

  /** How many times `x` occurs in `s`. */
  function Count<T(==)>(s: seq<T>, x: T): nat {
    if s == [] then 0 else (if s[0] == x then 1 else 0) + Count(s[1..], x)
  }

  lemma {:induction false} CountAppend<T>(a: seq<T>, b: seq<T>, x: T)
    ensures Count(a + b, x) == Count(a, x) + Count(b, x)
  {
    if a == [] {
      assert a + b == b;
    } else {
      assert (a + b)[0] == a[0];
      assert (a + b)[1..] == a[1..] + b;
      CountAppend(a[1..], b, x);
    }
  }

  lemma CountOne<T>(y: T, x: T)
    ensures Count([y], x) == if y == x then 1 else 0
  {
    assert [y][1..] == [];
  }

  lemma CountWhen<T>(b: bool, y: T, x: T)
    ensures Count(When(b, [y]), x) == if b && y == x then 1 else 0
  {
    if b {
      CountOne(y, x);
    }
  }

  /** Count agrees with the multiplicity in the sequence's multiset. */
  lemma {:induction false} CountIsMultiplicity<T>(s: seq<T>, x: T)
    ensures Count(s, x) == multiset(s)[x]
  {
    if s != [] {
      CountIsMultiplicity(s[1..], x);
      assert s == [s[0]] + s[1..];
    }
  }

  /** The concatenation of the sequences of `ss`, in order. */
  function Flatten<T>(ss: seq<seq<T>>): seq<T> {
    if ss == [] then [] else ss[0] + Flatten(ss[1..])
  }

  lemma FlattenCons<T>(s: seq<T>, ss: seq<seq<T>>)
    ensures Flatten([s] + ss) == s + Flatten(ss)
  {
    assert ([s] + ss)[1..] == ss;
  }

  lemma FlattenSeven<T>(a: seq<T>, b: seq<T>, c: seq<T>, d: seq<T>, e: seq<T>, f: seq<T>, g: seq<T>)
    ensures Flatten([a, b, c, d, e, f, g]) == a + b + c + d + e + f + g
  {
    FlattenCons(g, []);
    assert Flatten([g]) == g;
    assert [f, g] == [f] + [g];
    FlattenCons(f, [g]);
    assert [e, f, g] == [e] + [f, g];
    FlattenCons(e, [f, g]);
    assert [d, e, f, g] == [d] + [e, f, g];
    FlattenCons(d, [e, f, g]);
    assert [c, d, e, f, g] == [c] + [d, e, f, g];
    FlattenCons(c, [d, e, f, g]);
    assert [b, c, d, e, f, g] == [b] + [c, d, e, f, g];
    FlattenCons(b, [c, d, e, f, g]);
    assert [a, b, c, d, e, f, g] == [a] + [b, c, d, e, f, g];
    FlattenCons(a, [b, c, d, e, f, g]);
  }
}
