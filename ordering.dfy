/** The order in which the table returns query results: sort keys compared
    as strings, code point by code point (the order of their UTF-8 bytes).
    The store leaves the order of equal sort keys on a secondary index
    unspecified; breaking such ties by the primary key is this model's
    choice, and the uniqueness of a `GSI1` page relies on it. */
module Ordering {

  /** `a` sorts strictly before `b`. */
  predicate Below(a: string, b: string)
    decreases |a|
  {
    if a == [] then b != []
    else if b == [] then false
    else if a[0] != b[0] then a[0] < b[0]
    else Below(a[1..], b[1..])
  }

  lemma {:induction false} BelowIrreflexive(a: string)
    ensures !Below(a, a)
    decreases |a|
  {
    if a != [] {
      BelowIrreflexive(a[1..]);
    }
  }

  lemma {:induction false} BelowTransitive(a: string, b: string, c: string)
    requires Below(a, b) && Below(b, c)
    ensures Below(a, c)
    decreases |a|
  {
    if a != [] && a[0] == b[0] && b[0] == c[0] {
      BelowTransitive(a[1..], b[1..], c[1..]);
    }
  }

  lemma {:induction false} BelowTotal(a: string, b: string)
    requires a != b
    ensures Below(a, b) || Below(b, a)
    decreases |a|
  {
    if a != [] && b != [] && a[0] == b[0] {
      assert a == [a[0]] + a[1..] && b == [b[0]] + b[1..];
      BelowTotal(a[1..], b[1..]);
    }
  }

  /** Where an item sits in an index: its index sort key, then its table key. */
  datatype Position = Position(sortKey: string, pk: string, sk: string)

  predicate PosBelow(p: Position, q: Position) {
    || Below(p.sortKey, q.sortKey)
    || (p.sortKey == q.sortKey && Below(p.pk, q.pk))
    || (p.sortKey == q.sortKey && p.pk == q.pk && Below(p.sk, q.sk))
  }

  lemma PosBelowIrreflexive(p: Position)
    ensures !PosBelow(p, p)
  {
    BelowIrreflexive(p.sortKey);
    BelowIrreflexive(p.pk);
    BelowIrreflexive(p.sk);
  }

  lemma PosBelowTransitive(p: Position, q: Position, r: Position)
    requires PosBelow(p, q) && PosBelow(q, r)
    ensures PosBelow(p, r)
  {
    if Below(p.sortKey, q.sortKey) && Below(q.sortKey, r.sortKey) {
      BelowTransitive(p.sortKey, q.sortKey, r.sortKey);
    } else if p.sortKey == q.sortKey == r.sortKey {
      if Below(p.pk, q.pk) && Below(q.pk, r.pk) {
        BelowTransitive(p.pk, q.pk, r.pk);
      } else if p.pk == q.pk == r.pk {
        BelowTransitive(p.sk, q.sk, r.sk);
      }
    }
  }

  /** Positions neither of which lies below the other are the same. */
  lemma PosNeitherBelow(p: Position, q: Position)
    requires !PosBelow(p, q) && !PosBelow(q, p)
    ensures p == q
  {
    if p != q {
      PosBelowTotal(p, q);
    }
  }

  lemma PosBelowTotal(p: Position, q: Position)
    requires p != q
    ensures PosBelow(p, q) || PosBelow(q, p)
  {
    if p.sortKey != q.sortKey {
      BelowTotal(p.sortKey, q.sortKey);
    } else if p.pk != q.pk {
      BelowTotal(p.pk, q.pk);
    } else {
      BelowTotal(p.sk, q.sk);
    }
  }

  /** The three order facts at once, for proofs that compare many positions. */
  lemma PosBelowStrictTotalOrder()
    ensures forall p :: !PosBelow(p, p)
    ensures forall p, q, r :: PosBelow(p, q) && PosBelow(q, r) ==> PosBelow(p, r)
    ensures forall p, q :: p == q || PosBelow(p, q) || PosBelow(q, p)
  {
    forall p
      ensures !PosBelow(p, p)
    {
      PosBelowIrreflexive(p);
    }
    forall p, q, r | PosBelow(p, q) && PosBelow(q, r)
      ensures PosBelow(p, r)
    {
      PosBelowTransitive(p, q, r);
    }
    forall p, q | p != q
      ensures PosBelow(p, q) || PosBelow(q, p)
    {
      PosBelowTotal(p, q);
    }
  }

  /** `m` is the greatest position of `s`. */
  predicate IsMax(m: Position, s: set<Position>) {
    m in s && forall p :: p in s && p != m ==> PosBelow(p, m)
  }

  /** Every finite non-empty set of positions has a greatest element. */
  lemma {:induction false} MaxExists(s: set<Position>)
    requires s != {}
    ensures exists m :: IsMax(m, s)
    decreases s
  {
    var x :| x in s;
    if s != {x} {
      MaxExists(s - {x});
      var m :| IsMax(m, s - {x});
      if PosBelow(x, m) {
        assert IsMax(m, s);
      } else {
        PosBelowTotal(x, m);
        forall p | p in s && p != x
          ensures PosBelow(p, x)
        {
          if p != m {
            PosBelowTransitive(p, m, x);
          }
        }
        assert IsMax(x, s);
      }
    } else {
      assert IsMax(x, s);
    }
  }
}
