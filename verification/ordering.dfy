/**
 The sibling order of the `orderBy('position')` relations: a board's columns
 and a column's cards as a list sorted by position. The database leaves the
 order of equal positions open; the model breaks such ties by id.
 */
module Ordering {
  import opened Positions

  /** `a` comes no later than `b` in the relation's order. */
  predicate Precedes(l: Layout, a: Id, b: Id)
    requires a in l && b in l
  {
    l[a].pos < l[b].pos || (l[a].pos == l[b].pos && a <= b)
  }

  /** `r` lists the members of `parent` once each, in position order. */
  ghost predicate SiblingOrder(l: Layout, parent: Id, r: seq<Id>) {
    && (forall k :: k in r <==> k in Members(l, parent))
    && (forall i, j | 0 <= i < j < |r| :: r[i] != r[j])
    && |r| == Count(l, parent)
    && (forall i, j | 0 <= i < j < |r| :: r[i] in l && r[j] in l && Precedes(l, r[i], r[j]))
  }

  /** The first member of `s` in the relation's order. */
  method MinOf(l: Layout, s: set<Id>) returns (m: Id)
    requires s != {} && s <= l.Keys
    ensures m in s
    ensures forall x | x in s :: Precedes(l, m, x)
  {
    m :| m in s;
    var rest := s - {m};
    while rest != {}
      invariant rest <= s && m in s && m !in rest
      invariant forall x | x in s && x !in rest :: Precedes(l, m, x)
      decreases |rest|
    {
      var x :| x in rest;
      if !Precedes(l, m, x) {
        m := x;
      }
      rest := rest - {x};
    }
  }

  /** `$board->columns` or `$column->cards`: the members of `parent`, sorted. */
  method Siblings(l: Layout, parent: Id) returns (r: seq<Id>)
    ensures SiblingOrder(l, parent, r)
  {
    r := [];
    var rest := Members(l, parent);
    while rest != {}
      invariant rest <= Members(l, parent)
      invariant forall k :: k in r || k in rest <==> k in Members(l, parent)
      invariant forall k | k in r :: k !in rest
      invariant forall i, j | 0 <= i < j < |r| :: r[i] != r[j]
      invariant |r| + |rest| == Count(l, parent)
      invariant forall i | 0 <= i < |r| :: r[i] in l
      invariant forall i, j | 0 <= i < j < |r| :: Precedes(l, r[i], r[j])
      invariant forall i, x | 0 <= i < |r| && x in rest :: Precedes(l, r[i], x)
      decreases |rest|
    {
      var m := MinOf(l, rest);
      r := r + [m];
      rest := rest - {m};
    }
  }

  /** A strictly increasing list of `n` integers drawn from `0 .. n-1` is
      `0, 1, .., n-1`: bounded from below. */
  lemma {:induction false} StrictFromBelow(ps: seq<int>, i: nat)
    requires forall j | 0 <= j < |ps| :: 0 <= ps[j]
    requires forall j | 0 <= j < |ps| - 1 :: ps[j] < ps[j + 1]
    requires i < |ps|
    ensures ps[i] >= i
  {
    if i > 0 {
      StrictFromBelow(ps, i - 1);
    }
  }

  /** The same list, bounded from above. */
  lemma {:induction false} StrictFromAbove(ps: seq<int>, i: nat)
    requires forall j | 0 <= j < |ps| :: ps[j] < |ps|
    requires forall j | 0 <= j < |ps| - 1 :: ps[j] < ps[j + 1]
    requires i < |ps|
    ensures ps[i] <= i
    decreases |ps| - i
  {
    if i < |ps| - 1 {
      StrictFromAbove(ps, i + 1);
    }
  }

  /** On a gap-free parent, the sibling at index `i` of the ordered relation
      holds position `i`, whichever ordered list is taken. */
  lemma GapFreeOrderIsPosition(l: Layout, parent: Id, r: seq<Id>)
    requires GapFree(l, parent) && SiblingOrder(l, parent, r)
    ensures forall i | 0 <= i < |r| :: l[r[i]] == Place(parent, i)
  {
    var ps := seq(|r|, i requires 0 <= i < |r| => l[r[i]].pos);
    forall j | 0 <= j < |ps| - 1 ensures ps[j] < ps[j + 1] {
      assert r[j] in r && r[j + 1] in r;
      assert Precedes(l, r[j], r[j + 1]) && r[j] != r[j + 1];
    }
    forall j | 0 <= j < |ps| ensures 0 <= ps[j] < |ps| {
      assert r[j] in r;
    }
    forall i | 0 <= i < |r| ensures l[r[i]] == Place(parent, i) {
      StrictFromBelow(ps, i);
      StrictFromAbove(ps, i);
      assert r[i] in r;
    }
  }

  /** On a gap-free parent there is one ordered list only: the tie rule
      never comes into play. */
  lemma GapFreeOrderUnique(l: Layout, parent: Id, r: seq<Id>, r': seq<Id>)
    requires GapFree(l, parent) && SiblingOrder(l, parent, r) && SiblingOrder(l, parent, r')
    ensures r == r'
  {
    GapFreeOrderIsPosition(l, parent, r);
    GapFreeOrderIsPosition(l, parent, r');
    forall i | 0 <= i < |r| ensures r[i] == r'[i] {
      assert r[i] in r && r'[i] in r';
    }
  }
}
