/**
 The position engine: sibling lists (cards in a column, columns in a board)
 as a map from entity id to its place (parent id, position), and the bulk
 position shifts that CardService::move issues as query-builder updates.
 Nothing here touches storage.
 */
module Positions {

  type Id = nat

  /** Where an entity sits: its parent (column or board) and its rank there.
      A card's column and its position are written together as one value. */
  datatype Place = Place(parent: Id, pos: int)

  /** The places of every entity of one table, keyed by id. */
  type Layout = map<Id, Place>

  /** The ids whose parent is `parent`. */
  function Members(l: Layout, parent: Id): set<Id> {
    set k | k in l && l[k].parent == parent
  }

  /** The number of siblings under `parent` (`$column->cards()->count()`). */
  function Count(l: Layout, parent: Id): nat {
    |Members(l, parent)|
  }

  /** No two siblings under `parent` share a position. */
  predicate Unique(l: Layout, parent: Id) {
    forall k, k' | k in l && k' in l && k != k' && l[k].parent == parent && l[k'].parent == parent ::
      l[k].pos != l[k'].pos
  }

  /** Every sibling under `parent` has a position in `0 .. Count - 1`. */
  predicate InRange(l: Layout, parent: Id) {
    forall k | k in l && l[k].parent == parent :: 0 <= l[k].pos < Count(l, parent)
  }

  /** The contiguity invariant: the positions under `parent` are exactly
      `0 .. n-1`, each used once. */
  predicate GapFree(l: Layout, parent: Id) {
    Unique(l, parent) && InRange(l, parent)
  }

  /** The set of positions in use under `parent`. */
  function PositionsOf(l: Layout, parent: Id): set<int> {
    set k | k in l && l[k].parent == parent :: l[k].pos
  }

  /** One row of `where(parent).where('position', '>', above)->decrement('position')`. */
  function Lower(p: Place, parent: Id, above: int): Place {
    if p.parent == parent && p.pos > above then p.(pos := p.pos - 1) else p
  }

  /** One row of `where(parent).where('position', '>=', from)->increment('position')`. */
  function Raise(p: Place, parent: Id, from: int): Place {
    if p.parent == parent && p.pos >= from then p.(pos := p.pos + 1) else p
  }

  /** The bulk decrement of every sibling above `above` (CardService.php:75-77). */
  function LowerAbove(l: Layout, parent: Id, above: int): (r: Layout)
    ensures r.Keys == l.Keys
    ensures forall k | k in l :: r[k].parent == l[k].parent
    ensures forall k | k in l && (l[k].parent != parent || l[k].pos <= above) :: r[k] == l[k]
    ensures forall k | k in l && l[k].parent == parent && l[k].pos > above :: r[k].pos == l[k].pos - 1
  {
    map k | k in l :: Lower(l[k], parent, above)
  }

  /** The bulk increment of every sibling at or above `from` (CardService.php:80-82). */
  function RaiseFrom(l: Layout, parent: Id, from: int): (r: Layout)
    ensures r.Keys == l.Keys
    ensures forall k | k in l :: r[k].parent == l[k].parent
    ensures forall k | k in l && (l[k].parent != parent || l[k].pos < from) :: r[k] == l[k]
    ensures forall k | k in l && l[k].parent == parent && l[k].pos >= from :: r[k].pos == l[k].pos + 1
  {
    map k | k in l :: Raise(l[k], parent, from)
  }

  /** The two shifts of a move, before the moved entity is assigned its new place. */
  function Shifted(l: Layout, c: Id, target: Id, r: int): Layout
    requires c in l
  {
    RaiseFrom(LowerAbove(l, l[c].parent, l[c].pos), target, r)
  }

  /** A move: close the gap at the old place, open one at `r` in `target`,
      then put `c` at `(target, r)`. `r` is not clamped. */
  function Move(l: Layout, c: Id, target: Id, r: int): (m: Layout)
    requires c in l
    ensures m.Keys == l.Keys
    ensures m[c] == Place(target, r)
    ensures forall k | k in l && k != c && l[k].parent != l[c].parent && l[k].parent != target :: m[k] == l[k]
  {
    Shifted(l, c, target, r)[c := Place(target, r)]
  }

  /** Where an untouched sibling at position `p` ends up when the entity at
      `from` is taken out and re-inserted at `to` of the same list: the
      reference definition of an array move. */
  function ArrayMoveIndex(from: int, to: int, p: int): int {
    if from < p <= to then p - 1
    else if to <= p < from then p + 1
    else p
  }

  /** Appending to a parent: the new entity's place (create at `count`). */
  function Append(l: Layout, k: Id, parent: Id): (m: Layout)
    requires k !in l
    ensures m.Keys == l.Keys + {k}
    ensures m[k] == Place(parent, Count(l, parent))
    ensures forall j | j in l :: m[j] == l[j]
  {
    l[k := Place(parent, Count(l, parent))]
  }

  // ---------------------------------------------------------------------
  // Membership under the shifts and the final assignment
  // ---------------------------------------------------------------------

  lemma MembersOfShifted(l: Layout, c: Id, target: Id, r: int, p: Id)
    requires c in l
    ensures Members(Shifted(l, c, target, r), p) == Members(l, p)
  {
    var s := Shifted(l, c, target, r);
    forall k ensures k in Members(s, p) <==> k in Members(l, p) {
      if k in l {
        assert s[k].parent == LowerAbove(l, l[c].parent, l[c].pos)[k].parent == l[k].parent;
      }
    }
  }

  lemma MembersOfMove(l: Layout, c: Id, target: Id, r: int)
    requires c in l
    ensures Members(Move(l, c, target, r), target) == Members(l, target) + {c}
    ensures l[c].parent != target ==> Members(Move(l, c, target, r), l[c].parent) == Members(l, l[c].parent) - {c}
  {
    var s := Shifted(l, c, target, r);
    var m := Move(l, c, target, r);
    MembersOfShifted(l, c, target, r, target);
    MembersOfShifted(l, c, target, r, l[c].parent);
    assert Members(m, target) == Members(s, target) + {c};
    if l[c].parent != target {
      assert Members(m, l[c].parent) == Members(s, l[c].parent) - {c};
    }
  }

  /** Where the bulk shifts of a move of `c` from `(src, o)` to `(target, r)`
      leave a sibling that starts at `p`. */
  function SiblingPos(p: Place, src: Id, o: int, target: Id, r: int): int {
    var q := if p.parent == src && p.pos > o then p.pos - 1 else p.pos;
    if p.parent == target && q >= r then q + 1 else q
  }

  /** The place of every sibling other than the moved one, after a move. */
  lemma MovedSiblings(l: Layout, c: Id, target: Id, r: int)
    requires c in l
    ensures forall k | k in l && k != c ::
      Move(l, c, target, r)[k] == Place(l[k].parent, SiblingPos(l[k], l[c].parent, l[c].pos, target, r))
  {
  }

  // ---------------------------------------------------------------------
  // Move keeps both sibling lists contiguous when `r` is in range
  // ---------------------------------------------------------------------

  /** Where a move to another parent puts a sibling left in the source. */
  lemma MoveAcrossSourceSibling(l: Layout, c: Id, target: Id, r: int, k: Id)
    requires c in l && l[c].parent != target && Unique(l, l[c].parent)
    requires k in l && Move(l, c, target, r)[k].parent == l[c].parent
    ensures k != c && l[k].parent == l[c].parent && l[k].pos != l[c].pos
    ensures Move(l, c, target, r)[k].pos == if l[k].pos > l[c].pos then l[k].pos - 1 else l[k].pos
  {
    MovedSiblings(l, c, target, r);
  }

  /** Where a move to another parent puts a sibling already in the target. */
  lemma MoveAcrossTargetSibling(l: Layout, c: Id, target: Id, r: int, k: Id)
    requires c in l && l[c].parent != target
    requires k in l && k != c && Move(l, c, target, r)[k].parent == target
    ensures l[k].parent == target
    ensures Move(l, c, target, r)[k].pos == if l[k].pos >= r then l[k].pos + 1 else l[k].pos
  {
    MovedSiblings(l, c, target, r);
  }

  /** The source loses one member and the target gains one. */
  lemma MoveAcrossCounts(l: Layout, c: Id, target: Id, r: int)
    requires c in l && l[c].parent != target
    ensures Count(Move(l, c, target, r), l[c].parent) == Count(l, l[c].parent) - 1
    ensures Count(Move(l, c, target, r), target) == Count(l, target) + 1
  {
    MembersOfMove(l, c, target, r);
    assert c in Members(l, l[c].parent);
    assert c !in Members(l, target);
  }

  lemma {:induction false} MoveAcrossKeepsSourceUnique(l: Layout, c: Id, target: Id, r: int)
    requires c in l && l[c].parent != target
    requires Unique(l, l[c].parent)
    ensures Unique(Move(l, c, target, r), l[c].parent)
  {
    var src := l[c].parent;
    var m := Move(l, c, target, r);
    forall k, k' | k in m && k' in m && k != k' && m[k].parent == src && m[k'].parent == src
      ensures m[k].pos != m[k'].pos
    {
      MoveAcrossSourceSibling(l, c, target, r, k);
      MoveAcrossSourceSibling(l, c, target, r, k');
      assert l[k].pos != l[k'].pos;
    }
  }

  lemma {:induction false} MoveAcrossKeepsSourceGapFree(l: Layout, c: Id, target: Id, r: int)
    requires c in l && l[c].parent != target
    requires GapFree(l, l[c].parent)
    ensures GapFree(Move(l, c, target, r), l[c].parent)
    ensures Count(Move(l, c, target, r), l[c].parent) == Count(l, l[c].parent) - 1
  {
    var src, n := l[c].parent, Count(l, l[c].parent);
    var m := Move(l, c, target, r);
    MoveAcrossCounts(l, c, target, r);
    MoveAcrossKeepsSourceUnique(l, c, target, r);
    forall k | k in m && m[k].parent == src
      ensures 0 <= m[k].pos < n - 1
    {
      MoveAcrossSourceSibling(l, c, target, r, k);
      assert 0 <= l[k].pos < n && 0 <= l[c].pos < n;
    }
  }

  lemma {:induction false} MoveAcrossKeepsTargetUnique(l: Layout, c: Id, target: Id, r: int)
    requires c in l && l[c].parent != target
    requires GapFree(l, target)
    requires 0 <= r <= Count(l, target)
    ensures Unique(Move(l, c, target, r), target)
  {
    var m := Move(l, c, target, r);
    forall k, k' | k in m && k' in m && k != k' && m[k].parent == target && m[k'].parent == target
      ensures m[k].pos != m[k'].pos
    {
      if k != c && k' != c {
        MoveAcrossTargetSibling(l, c, target, r, k);
        MoveAcrossTargetSibling(l, c, target, r, k');
        assert l[k].pos != l[k'].pos;
      } else if k != c {
        MoveAcrossTargetSibling(l, c, target, r, k);
      } else {
        MoveAcrossTargetSibling(l, c, target, r, k');
      }
    }
  }

  lemma {:induction false} MoveAcrossKeepsTargetGapFree(l: Layout, c: Id, target: Id, r: int)
    requires c in l && l[c].parent != target
    requires GapFree(l, target)
    requires 0 <= r <= Count(l, target)
    ensures GapFree(Move(l, c, target, r), target)
    ensures Count(Move(l, c, target, r), target) == Count(l, target) + 1
  {
    var n := Count(l, target);
    var m := Move(l, c, target, r);
    MoveAcrossCounts(l, c, target, r);
    MoveAcrossKeepsTargetUnique(l, c, target, r);
    forall k | k in m && m[k].parent == target
      ensures 0 <= m[k].pos < n + 1
    {
      if k != c {
        MoveAcrossTargetSibling(l, c, target, r, k);
        assert 0 <= l[k].pos < n;
      }
    }
  }

  /** A move to another parent: the source loses `c` and stays gap-free, the
      target gains `c` at `r` and stays gap-free, as long as `r` is at most
      the target's sibling count. */
  lemma {:induction false} MoveAcrossKeepsGapFree(l: Layout, c: Id, target: Id, r: int)
    requires c in l && l[c].parent != target
    requires GapFree(l, l[c].parent) && GapFree(l, target)
    requires 0 <= r <= Count(l, target)
    ensures GapFree(Move(l, c, target, r), l[c].parent)
    ensures GapFree(Move(l, c, target, r), target)
    ensures Count(Move(l, c, target, r), l[c].parent) == Count(l, l[c].parent) - 1
    ensures Count(Move(l, c, target, r), target) == Count(l, target) + 1
  {
    MoveAcrossKeepsSourceGapFree(l, c, target, r);
    MoveAcrossKeepsTargetGapFree(l, c, target, r);
  }

  /** Where a move within one parent puts one other sibling. */
  lemma MoveWithinSibling(l: Layout, c: Id, r: int, k: Id)
    requires c in l && Unique(l, l[c].parent)
    requires k in l && k != c && l[k].parent == l[c].parent
    ensures l[k].pos != l[c].pos
    ensures Move(l, c, l[c].parent, r)[k] == Place(l[c].parent, ArrayMoveIndex(l[c].pos, r, l[k].pos))
  {
    MovedSiblings(l, c, l[c].parent, r);
  }

  /** An array move sends distinct positions other than `from` to distinct
      positions other than `to`. */
  lemma ArrayMoveIndexInjective(from: int, to: int, p: int, q: int)
    requires p != from && q != from
    ensures ArrayMoveIndex(from, to, p) != to
    ensures p != q ==> ArrayMoveIndex(from, to, p) != ArrayMoveIndex(from, to, q)
  {
  }

  /** A move within one parent leaves its members, and so its count, alone. */
  lemma MoveWithinCount(l: Layout, c: Id, r: int)
    requires c in l
    ensures Members(Move(l, c, l[c].parent, r), l[c].parent) == Members(l, l[c].parent)
    ensures Count(Move(l, c, l[c].parent, r), l[c].parent) == Count(l, l[c].parent)
  {
    MembersOfMove(l, c, l[c].parent, r);
    assert c in Members(l, l[c].parent);
    assert Members(l, l[c].parent) + {c} == Members(l, l[c].parent);
  }

  /** A move within a parent whose positions are unique keeps them unique. */
  lemma {:induction false} MoveWithinKeepsUnique(l: Layout, c: Id, r: int)
    requires c in l && Unique(l, l[c].parent)
    ensures Unique(Move(l, c, l[c].parent, r), l[c].parent)
  {
    var p, o := l[c].parent, l[c].pos;
    var m := Move(l, c, p, r);
    forall k, k' | k in m && k' in m && k != k' && m[k].parent == p && m[k'].parent == p
      ensures m[k].pos != m[k'].pos
    {
      if k != c && k' != c {
        MoveWithinSibling(l, c, r, k);
        MoveWithinSibling(l, c, r, k');
        ArrayMoveIndexInjective(o, r, l[k].pos, l[k'].pos);
      } else if k != c {
        MoveWithinSibling(l, c, r, k);
        ArrayMoveIndexInjective(o, r, l[k].pos, l[k].pos);
      } else {
        MoveWithinSibling(l, c, r, k');
        ArrayMoveIndexInjective(o, r, l[k'].pos, l[k'].pos);
      }
    }
  }

  /** A move within one parent keeps it gap-free when `r` is below the count. */
  lemma {:induction false} MoveWithinKeepsGapFree(l: Layout, c: Id, r: int)
    requires c in l
    requires GapFree(l, l[c].parent)
    requires 0 <= r < Count(l, l[c].parent)
    ensures GapFree(Move(l, c, l[c].parent, r), l[c].parent)
    ensures Count(Move(l, c, l[c].parent, r), l[c].parent) == Count(l, l[c].parent)
  {
    var p, o, n := l[c].parent, l[c].pos, Count(l, l[c].parent);
    var m := Move(l, c, p, r);
    MoveWithinCount(l, c, r);
    MoveWithinKeepsUnique(l, c, r);
    assert 0 <= o < n;
    forall k | k in m && m[k].parent == p
      ensures 0 <= m[k].pos < n
    {
      if k != c {
        MoveWithinSibling(l, c, r, k);
        assert 0 <= l[k].pos < n;
      }
    }
  }

  /** Within one parent, a move is an array move: every other sibling ends up
      where `ArrayMoveIndex` puts it, `c` at `r`, and no other parent changes. */
  lemma {:induction false} MoveWithinIsArrayMove(l: Layout, c: Id, r: int)
    requires c in l
    requires Unique(l, l[c].parent)
    ensures var m := Move(l, c, l[c].parent, r);
      && m[c] == Place(l[c].parent, r)
      && forall k | k in l && k != c ::
           m[k] == if l[k].parent == l[c].parent
                   then Place(l[k].parent, ArrayMoveIndex(l[c].pos, r, l[k].pos))
                   else l[k]
  {
    var p := l[c].parent;
    MovedSiblings(l, c, p, r);
    forall k | k in l && k != c
      ensures Move(l, c, p, r)[k] == if l[k].parent == p
                   then Place(l[k].parent, ArrayMoveIndex(l[c].pos, r, l[k].pos))
                   else l[k]
    {
    }
  }

  /** Moving an entity to its own parent and position changes nothing. */
  lemma MoveToOwnPlaceIsNoOp(l: Layout, c: Id)
    requires c in l
    requires Unique(l, l[c].parent)
    ensures Move(l, c, l[c].parent, l[c].pos) == l
  {
    var m := Move(l, c, l[c].parent, l[c].pos);
    MoveWithinIsArrayMove(l, c, l[c].pos);
    forall k | k in l ensures m[k] == l[k] {
    }
  }

  /** Appending adds one member to the parent. */
  lemma AppendCount(l: Layout, k: Id, parent: Id)
    requires k !in l
    ensures Members(Append(l, k, parent), parent) == Members(l, parent) + {k}
    ensures Count(Append(l, k, parent), parent) == Count(l, parent) + 1
  {
    assert Members(Append(l, k, parent), parent) == Members(l, parent) + {k};
    assert k !in Members(l, parent);
  }

  /** The appended entity takes a position no sibling of a gap-free parent holds. */
  lemma {:induction false} AppendKeepsUnique(l: Layout, k: Id, parent: Id)
    requires k !in l
    requires GapFree(l, parent)
    ensures Unique(Append(l, k, parent), parent)
  {
    var m := Append(l, k, parent);
    var n := Count(l, parent);
    forall j, j' | j in m && j' in m && j != j' && m[j].parent == parent && m[j'].parent == parent
      ensures m[j].pos != m[j'].pos
    {
      if j == k {
        assert l[j'].pos < n;
      } else if j' == k {
        assert l[j].pos < n;
      } else {
        assert l[j].pos != l[j'].pos;
      }
    }
  }

  /** Appending at `count` keeps a gap-free parent gap-free. */
  lemma {:induction false} AppendKeepsGapFree(l: Layout, k: Id, parent: Id)
    requires k !in l
    requires GapFree(l, parent)
    ensures GapFree(Append(l, k, parent), parent)
    ensures Count(Append(l, k, parent), parent) == Count(l, parent) + 1
  {
    var m := Append(l, k, parent);
    var n := Count(l, parent);
    AppendCount(l, k, parent);
    AppendKeepsUnique(l, k, parent);
    forall j | j in m && m[j].parent == parent
      ensures 0 <= m[j].pos < n + 1
    {
      if j != k {
        assert l[j].pos < n;
      }
    }
  }

  /** Removing an entity leaves every other place as it was: nothing is
      compacted. */
  lemma RemoveKeepsOtherPlaces(l: Layout, k: Id)
    ensures forall j | j in l - {k} :: (l - {k})[j] == l[j]
    ensures forall p :: Count(l - {k}, p) <= Count(l, p)
  {
    forall p ensures Count(l - {k}, p) <= Count(l, p) {
      assert Members(l - {k}, p) == Members(l, p) - {k};
    }
  }

  // ---------------------------------------------------------------------
  // Gap-free means the positions are exactly 0 .. n-1
  // ---------------------------------------------------------------------

  /** The positions taken by the ids of `s`. */
  function PosImage(l: Layout, s: set<Id>): set<int>
    requires s <= l.Keys
  {
    set k | k in s :: l[k].pos
  }

  /** Distinct siblings take distinct positions, so the image is as large as the set. */
  lemma {:induction false} PosImageSize(l: Layout, parent: Id, s: set<Id>)
    requires s <= Members(l, parent)
    requires Unique(l, parent)
    ensures |PosImage(l, s)| == |s|
    decreases |s|
  {
    if s != {} {
      var k :| k in s;
      var s' := s - {k};
      PosImageSize(l, parent, s');
      assert PosImage(l, s) == PosImage(l, s') + {l[k].pos};
      assert l[k].pos !in PosImage(l, s');
    }
  }

  /** The integers `0 .. n-1`. */
  function Below(n: nat): (r: set<int>)
    ensures forall i :: i in r <==> 0 <= i < n
  {
    if n == 0 then {} else Below(n - 1) + {n - 1}
  }

  lemma {:induction false} BelowSize(n: nat)
    ensures |Below(n)| == n
  {
    if n == 0 {
      assert Below(0) == {};
    } else {
      BelowSize(n - 1);
      assert n - 1 !in Below(n - 1);
      assert |Below(n - 1) + {n - 1}| == |Below(n - 1)| + 1;
      assert Below(n) == Below(n - 1) + {n - 1};
    }
  }

  lemma SubsetOfSameSize<T>(a: set<T>, b: set<T>)
    requires a <= b && |a| == |b|
    ensures a == b
  {
    assert b == a + (b - a);
    assert a * (b - a) == {};
    assert b - a == {};
    forall x | x in b ensures x in a {
      assert x !in b - a;
    }
  }

  /** On a gap-free parent the positions in use are exactly `0 .. Count-1`. */
  lemma {:induction false} GapFreePositions(l: Layout, parent: Id)
    requires GapFree(l, parent)
    ensures PositionsOf(l, parent) == Below(Count(l, parent))
  {
    var n := Count(l, parent);
    assert PositionsOf(l, parent) == PosImage(l, Members(l, parent));
    PosImageSize(l, parent, Members(l, parent));
    BelowSize(n);
    assert PositionsOf(l, parent) <= Below(n);
    SubsetOfSameSize(PositionsOf(l, parent), Below(n));
  }

  /** On a gap-free parent every position below the count is held by a member. */
  lemma AtPosition(l: Layout, parent: Id, p: int) returns (k: Id)
    requires GapFree(l, parent) && 0 <= p < Count(l, parent)
    ensures k in l && l[k] == Place(parent, p)
  {
    GapFreePositions(l, parent);
    assert p in Below(Count(l, parent));
    k :| k in l && l[k].parent == parent && l[k].pos == p;
  }

  /** Writing one entity's position without shifting its siblings keeps a
      gap-free parent gap-free exactly when the position does not change: any
      other position below the count is taken, and any other is out of range. */
  lemma RepositionGapFreeIff(l: Layout, k: Id, p: int)
    requires k in l && GapFree(l, l[k].parent)
    ensures GapFree(l[k := Place(l[k].parent, p)], l[k].parent) <==> p == l[k].pos
  {
    var par := l[k].parent;
    var m := l[k := Place(par, p)];
    assert Members(m, par) == Members(l, par);
    if p == l[k].pos {
      assert m == l;
    } else if 0 <= p < Count(l, par) {
      var j := AtPosition(l, par, p);
      assert j != k && m[j] == l[j];
      assert !Unique(m, par);
    } else {
      assert m[k].parent == par && !(0 <= m[k].pos < Count(m, par));
    }
  }

  /** Deleting an entity keeps its parent gap-free exactly when it held the
      last position; any other deletion leaves a hole. */
  lemma {:induction false} RemoveKeepsGapFreeIff(l: Layout, k: Id)
    requires k in l && GapFree(l, l[k].parent)
    ensures Count(l - {k}, l[k].parent) == Count(l, l[k].parent) - 1
    ensures GapFree(l - {k}, l[k].parent) <==> l[k].pos == Count(l, l[k].parent) - 1
  {
    var p, n := l[k].parent, Count(l, l[k].parent);
    var d := l - {k};
    assert Members(d, p) == Members(l, p) - {k};
    assert k in Members(l, p);
    if l[k].pos == n - 1 {
      forall j | j in d && d[j].parent == p ensures 0 <= d[j].pos < Count(d, p) {
        assert l[j].pos != l[k].pos;
      }
    } else {
      GapFreePositions(l, p);
      assert n - 1 in Below(n);
      var j :| j in l && l[j].parent == p && l[j].pos == n - 1;
      assert j in d && !(d[j].pos < Count(d, p));
    }
  }

  /** Deleting anything but the last sibling and then appending puts the new
      entity on the position the last sibling still holds. */
  lemma {:induction false} RemoveThenAppendCollides(l: Layout, k: Id, newId: Id)
    requires k in l && GapFree(l, l[k].parent)
    requires l[k].pos != Count(l, l[k].parent) - 1
    requires newId !in l
    ensures !Unique(Append(l - {k}, newId, l[k].parent), l[k].parent)
  {
    var p, n := l[k].parent, Count(l, l[k].parent);
    var d := l - {k};
    RemoveKeepsGapFreeIff(l, k);
    GapFreePositions(l, p);
    assert n - 1 in Below(n);
    var j :| j in l && l[j].parent == p && l[j].pos == n - 1;
    var m := Append(d, newId, p);
    assert j != k && j in d && m[j] == l[j];
    assert m[newId] == Place(p, n - 1);
  }

  /** Within one parent: the move keeps it gap-free exactly when `r` is one of
      the existing positions. */
  lemma {:induction false} MoveWithinGapFreeIff(l: Layout, c: Id, r: int)
    requires c in l && GapFree(l, l[c].parent)
    ensures GapFree(Move(l, c, l[c].parent, r), l[c].parent) <==> 0 <= r < Count(l, l[c].parent)
  {
    var p := l[c].parent;
    var m := Move(l, c, p, r);
    if 0 <= r < Count(l, p) {
      MoveWithinKeepsGapFree(l, c, r);
    } else {
      MembersOfMove(l, c, p, r);
      assert c in Members(l, p);
      assert Members(l, p) + {c} == Members(l, p);
      assert m[c].parent == p && !(0 <= m[c].pos < Count(m, p));
    }
  }

  /** Across parents: both stay gap-free exactly when `r` is at most the
      target's sibling count. */
  lemma {:induction false} MoveAcrossGapFreeIff(l: Layout, c: Id, target: Id, r: int)
    requires c in l && l[c].parent != target
    requires GapFree(l, l[c].parent) && GapFree(l, target)
    ensures GapFree(Move(l, c, target, r), l[c].parent) && GapFree(Move(l, c, target, r), target)
      <==> 0 <= r <= Count(l, target)
  {
    var m := Move(l, c, target, r);
    if 0 <= r <= Count(l, target) {
      MoveAcrossKeepsGapFree(l, c, target, r);
    } else {
      MembersOfMove(l, c, target, r);
      assert c !in Members(l, target);
      assert Count(m, target) == Count(l, target) + 1;
      assert m[c].parent == target && !(0 <= m[c].pos < Count(m, target));
    }
  }

  /** A parent whose only members are three entities at 0, 1 and 2 is
      gap-free with three members. */
  lemma ThreeFresh(l: Layout, p: Id, a: Id, b: Id, c: Id)
    requires a != b && b != c && a != c
    requires a in l && b in l && c in l
    requires l[a] == Place(p, 0) && l[b] == Place(p, 1) && l[c] == Place(p, 2)
    requires forall k | k in l && k != a && k != b && k != c :: l[k].parent != p
    ensures Members(l, p) == {a, b, c}
    ensures Count(l, p) == 3
    ensures GapFree(l, p)
  {
    assert Members(l, p) == {a, b, c};
    assert |{a, b, c}| == 3;
  }

  /** Adding a new entity under `parent` counts one more there and changes
      no other parent's count. */
  lemma AddCount(l: Layout, k: Id, p: Place)
    requires k !in l
    ensures Count(l[k := p], p.parent) == Count(l, p.parent) + 1
    ensures forall q | q != p.parent :: Count(l[k := p], q) == Count(l, q)
  {
    assert Members(l[k := p], p.parent) == Members(l, p.parent) + {k};
    forall q | q != p.parent ensures Count(l[k := p], q) == Count(l, q) {
      assert Members(l[k := p], q) == Members(l, q);
    }
  }
}
