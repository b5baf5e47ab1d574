/** The incremental subscription index of source/proxyd/playertracker.hpp. */
module Tracker {
  import opened Coords
  import opened Variants

  /** Identity of a StateMachine object. */
  type Pid = nat

  // ---- Areas of chunks and the order nested loops visit them in ----

  /** All chunks with x0 <= x <= x1 and z0 <= z <= z1. */
  datatype Area = Area(x0: int, x1: int, z0: int, z1: int) {
    predicate Contains(c: ChunkCoord) {
      x0 <= c.x <= x1 && z0 <= c.z <= z1
    }
  }

  const NOWHERE := Area(1, 0, 1, 0)

  /** The square of side 2r + 1 around a chunk. */
  function Around(c: ChunkCoord, r: int): Area {
    Area(c.x - r, c.x + r, c.z - r, c.z + r)
  }

  /** A position of a loop over x and, inside it, over z. */
  predicate Reached(area: Area, x: int, z: int) {
    area.z0 <= area.z1 && area.x0 <= x && area.z0 <= z <= area.z1 + 1
    && (x <= area.x1 || (x == area.x1 + 1 && z == area.z0))
  }

  /** The cells a loop over x and, inside it, over z has kept before it reaches (x, z), when it
      skips those of another area. */
  function Sweep(area: Area, skip: Area, x: int, z: int): seq<ChunkCoord>
    requires Reached(area, x, z)
    decreases x - area.x0, z - area.z0
  {
    if z > area.z0 then
      Sweep(area, skip, x, z - 1) + (if skip.Contains(ChunkCoord(x, z - 1)) then [] else [ChunkCoord(x, z - 1)])
    else if x > area.x0 then Sweep(area, skip, x - 1, area.z1 + 1)
    else []
  }

  lemma {:induction false} SweepStep(area: Area, skip: Area, x: int, z: int)
    requires area.x0 <= x <= area.x1 && area.z0 <= z <= area.z1
    ensures var c := ChunkCoord(x, z);
      Sweep(area, skip, x, z + 1) == if skip.Contains(c) then Sweep(area, skip, x, z) else Sweep(area, skip, x, z) + [c]
  {
    assert Sweep(area, skip, x, z) + [] == Sweep(area, skip, x, z);
  }

  predicate NonEmpty(area: Area) {
    area.x0 <= area.x1 && area.z0 <= area.z1
  }

  /** Every cell of an area outside another, in loop order. */
  function Cells(area: Area, skip: Area): seq<ChunkCoord>
    requires NonEmpty(area)
  {
    Sweep(area, skip, area.x1 + 1, area.z0)
  }

  lemma {:induction false} SweepExactly(area: Area, skip: Area, x: int, z: int, c: ChunkCoord)
    requires Reached(area, x, z)
    ensures c in Sweep(area, skip, x, z)
       <==> area.Contains(c) && !skip.Contains(c) && (c.x < x || (c.x == x && c.z < z))
    decreases x - area.x0, z - area.z0
  {
    if z > area.z0 {
      SweepExactly(area, skip, x, z - 1, c);
    } else if x > area.x0 {
      SweepExactly(area, skip, x - 1, area.z1 + 1, c);
    }
  }

  lemma {:induction false} CellsExactly(area: Area, skip: Area)
    requires NonEmpty(area)
    ensures forall c :: c in Cells(area, skip) <==> area.Contains(c) && !skip.Contains(c)
  {
    forall c
      ensures c in Cells(area, skip) <==> area.Contains(c) && !skip.Contains(c)
    {
      SweepExactly(area, skip, area.x1 + 1, area.z0, c);
    }
  }

  /** No cell is visited twice. */
  lemma {:induction false} SweepDistinct(area: Area, skip: Area, x: int, z: int)
    requires Reached(area, x, z)
    ensures forall i, j :: 0 <= i < j < |Sweep(area, skip, x, z)| ==>
        Sweep(area, skip, x, z)[i] != Sweep(area, skip, x, z)[j]
    decreases x - area.x0, z - area.z0
  {
    if z > area.z0 {
      SweepDistinct(area, skip, x, z - 1);
      SweepExactly(area, skip, x, z - 1, ChunkCoord(x, z - 1));
    } else if x > area.x0 {
      SweepDistinct(area, skip, x - 1, area.z1 + 1);
    }
  }

  /** West before east, and north before south in one column of chunks. */
  predicate Before(a: ChunkCoord, b: ChunkCoord) {
    a.x < b.x || (a.x == b.x && a.z < b.z)
  }

  predicate InOrder(cells: seq<ChunkCoord>) {
    forall i, j :: 0 <= i < j < |cells| ==> Before(cells[i], cells[j])
  }

  /** The cells come in that order, which with CellsExactly leaves one sequence. */
  lemma {:induction false} SweepInOrder(area: Area, skip: Area, x: int, z: int)
    requires Reached(area, x, z)
    ensures InOrder(Sweep(area, skip, x, z))
    decreases x - area.x0, z - area.z0
  {
    if z > area.z0 {
      SweepInOrder(area, skip, x, z - 1);
      var before, c := Sweep(area, skip, x, z - 1), ChunkCoord(x, z - 1);
      forall d | d in before
        ensures Before(d, c)
      {
        SweepExactly(area, skip, x, z - 1, d);
      }
      assert InOrder(before + [c]) && before + [] == before;
    } else if x > area.x0 {
      SweepInOrder(area, skip, x - 1, area.z1 + 1);
    }
  }

  // ---- The index as a relation ----

  /** Who is where, and who is told about what: pairs of a chunk and a player. */
  type Relation = set<(ChunkCoord, Pid)>

  function At(r: Relation, c: ChunkCoord): (s: set<Pid>)
    ensures forall p :: p in s <==> (c, p) in r
  {
    set cp | cp in r && cp.0 == c :: cp.1
  }

  /** The same player at many chunks. */
  function Tag(cells: seq<ChunkCoord>, p: Pid): (r: Relation)
    ensures forall c, q :: (c, q) in r <==> q == p && c in cells
  {
    set c | c in cells :: (c, p)
  }

  /** The cells between the squares of an old and a new view distance. The text keeps every
      offset that is at most the smaller distance on both axes (playertracker.hpp:101 and :112),
      which forgets the lower side of the square; meant is the smaller square. */
  function Kept(variant: Variant, c: ChunkCoord, larger: int, smaller: int): Area {
    if variant.Written? then Area(c.x - larger, c.x + smaller, c.z - larger, c.z + smaller) else Around(c, smaller)
  }

  function Ring(variant: Variant, c: ChunkCoord, oldVd: nat, newVd: nat): seq<ChunkCoord> {
    var larger, smaller := if oldVd < newVd then newVd else oldVd, if oldVd < newVd then oldVd else newVd;
    Cells(Around(c, larger), Kept(variant, c, larger, smaller))
  }

  /** As written the ring has the offsets of the larger distance of which one is above the smaller;
      meant are those of which one is further away than the smaller. */
  lemma {:induction false} RingExactly(variant: Variant, c: ChunkCoord, oldVd: nat, newVd: nat, i: int, j: int)
    ensures var larger, smaller := if oldVd < newVd then newVd else oldVd, if oldVd < newVd then oldVd else newVd;
      && (ChunkCoord(c.x + i, c.z + j) in Ring(variant, c, oldVd, newVd) <==>
           && -larger <= i <= larger && -larger <= j <= larger
           && (i > smaller || j > smaller || (variant.Intended? && (i < -smaller || j < -smaller))))
  {
    var larger, smaller := if oldVd < newVd then newVd else oldVd, if oldVd < newVd then oldVd else newVd;
    CellsExactly(Around(c, larger), Kept(variant, c, larger, smaller));
  }

  function UpdatedSubs(variant: Variant, subs: Relation, c: ChunkCoord, oldVd: nat, newVd: nat, p: Pid): Relation {
    if newVd == oldVd then subs
    else if newVd < oldVd then Without(subs, Ring(variant, c, oldVd, newVd), p)
    else With(subs, Ring(variant, c, oldVd, newVd), p)
  }

  function SquareOf(c: ChunkCoord, vd: nat): seq<ChunkCoord> {
    Cells(Around(c, vd), NOWHERE)
  }

  /** A player subscribes to exactly the square of a view distance. */
  ghost predicate SubscribesTo(subs: Relation, p: Pid, area: Area) {
    forall c :: (c, p) in subs <==> area.Contains(c)
  }

  /** With the guard as meant, the incremental update of a square is the square of the new view
      distance, and no other player's subscriptions change. */
  lemma {:induction false} UpdateIsRecomputation(subs: Relation, c: ChunkCoord, oldVd: nat, newVd: nat, p: Pid)
    requires SubscribesTo(subs, p, Around(c, oldVd))
    ensures SubscribesTo(UpdatedSubs(Intended, subs, c, oldVd, newVd, p), p, Around(c, newVd))
    ensures forall d, q :: q != p ==> ((d, q) in UpdatedSubs(Intended, subs, c, oldVd, newVd, p) <==> (d, q) in subs)
  {
    if oldVd < newVd {
      CellsExactly(Around(c, newVd), Around(c, oldVd));
    } else {
      CellsExactly(Around(c, oldVd), Around(c, newVd));
    }
  }

  /** As written, it is that square exactly when the view distance does not change at all. */
  lemma {:induction false} WrittenUpdateExactly(subs: Relation, c: ChunkCoord, oldVd: nat, newVd: nat, p: Pid)
    requires SubscribesTo(subs, p, Around(c, oldVd))
    ensures SubscribesTo(UpdatedSubs(Written, subs, c, oldVd, newVd, p), p, Around(c, newVd)) <==> oldVd == newVd
  {
    if oldVd < newVd {
      var corner := ChunkCoord(c.x - newVd, c.z - newVd);
      CellsExactly(Around(c, newVd), Kept(Written, c, newVd, oldVd));
      assert Around(c, newVd).Contains(corner);
      assert (corner, p) !in UpdatedSubs(Written, subs, c, oldVd, newVd, p);
    } else if newVd < oldVd {
      var corner := ChunkCoord(c.x - oldVd, c.z - oldVd);
      CellsExactly(Around(c, oldVd), Kept(Written, c, oldVd, newVd));
      assert (corner, p) in UpdatedSubs(Written, subs, c, oldVd, newVd, p);
      assert !Around(c, newVd).Contains(corner);
    }
  }

  // ---- The index as the source keeps it ----

  type ChunkSets = map<ChunkCoord, set<Pid>>

  /** The set at a chunk; operator[] of the source creates an empty one. */
  function Lookup(m: ChunkSets, c: ChunkCoord): set<Pid> {
    if c in m then m[c] else {}
  }

  ghost function Pairs(m: ChunkSets): (r: Relation)
    ensures forall c, p :: (c, p) in r <==> p in Lookup(m, c)
  {
    set c, p | c in m && p in m[c] :: (c, p)
  }

  function Inserted(m: ChunkSets, c: ChunkCoord, p: Pid): ChunkSets {
    m[c := Lookup(m, c) + {p}]
  }

  function Erased(m: ChunkSets, c: ChunkCoord, p: Pid): ChunkSets {
    m[c := Lookup(m, c) - {p}]
  }

  lemma {:induction false} InsertedPairs(m: ChunkSets, c: ChunkCoord, p: Pid)
    ensures Pairs(Inserted(m, c, p)) == Pairs(m) + {(c, p)}
  {
    forall d, q
      ensures (d, q) in Pairs(Inserted(m, c, p)) <==> (d, q) in Pairs(m) + {(c, p)}
    {
    }
  }

  lemma {:induction false} ErasedPairs(m: ChunkSets, c: ChunkCoord, p: Pid)
    ensures Pairs(Erased(m, c, p)) == Pairs(m) - {(c, p)}
  {
    forall d, q
      ensures (d, q) in Pairs(Erased(m, c, p)) <==> (d, q) in Pairs(m) - {(c, p)}
    {
    }
  }

  lemma {:induction false} TagSnoc(cells: seq<ChunkCoord>, c: ChunkCoord, p: Pid)
    ensures Tag(cells + [c], p) == Tag(cells, p) + {(c, p)}
  {
    forall d, q
      ensures (d, q) in Tag(cells + [c], p) <==> (d, q) in Tag(cells, p) + {(c, p)}
    {
    }
  }

  /** A relation with more, or fewer, chunks for one player. */
  function With(r: Relation, cells: seq<ChunkCoord>, p: Pid): Relation {
    r + Tag(cells, p)
  }

  function Without(r: Relation, cells: seq<ChunkCoord>, p: Pid): Relation {
    r - Tag(cells, p)
  }

  lemma {:induction false} NoCells(r: Relation, p: Pid)
    ensures With(r, [], p) == r && Without(r, [], p) == r
  {
    assert Tag([], p) == {};
  }

  lemma {:induction false} OneCellMore(r: Relation, cells: seq<ChunkCoord>, c: ChunkCoord, p: Pid)
    ensures With(r, cells + [c], p) == With(r, cells, p) + {(c, p)}
    ensures Without(r, cells + [c], p) == Without(r, cells, p) - {(c, p)}
  {
    TagSnoc(cells, c, p);
  }

  class PlayerTracker {
    const variant: Variant
    var membership: ChunkSets
    var subscriptions: ChunkSets

    constructor (variant: Variant)
      ensures this.variant == variant && membership == map[] && subscriptions == map[]
    {
      this.variant := variant;
      membership := map[];
      subscriptions := map[];
    }

    ghost function Members(): Relation
      reads this
    {
      Pairs(membership)
    }

    ghost function Subs(): Relation
      reads this
    {
      Pairs(subscriptions)
    }

    /** Inserting into the set at one chunk. */
    method Add(c: ChunkCoord, p: Pid)
      modifies this`subscriptions
      ensures Subs() == old(Subs()) + {(c, p)}
    {
      InsertedPairs(subscriptions, c, p);
      subscriptions := Inserted(subscriptions, c, p);
    }

    /** Erasing from the set at one chunk. */
    method Remove(c: ChunkCoord, p: Pid)
      modifies this`subscriptions
      ensures Subs() == old(Subs()) - {(c, p)}
    {
      ErasedPairs(subscriptions, c, p);
      subscriptions := Erased(subscriptions, c, p);
    }

    /** subscribe over a region. */
    method SubscribeRegion(area: Area, p: Pid)
      requires NonEmpty(area)
      modifies this`subscriptions
      ensures Subs() == With(old(Subs()), Cells(area, NOWHERE), p)
    {
      NoCells(Subs(), p);
      for x := area.x0 to area.x1 + 1
        invariant Subs() == With(old(Subs()), Sweep(area, NOWHERE, x, area.z0), p)
      {
        for z := area.z0 to area.z1 + 1
          invariant Subs() == With(old(Subs()), Sweep(area, NOWHERE, x, z), p)
        {
          OneCellMore(old(Subs()), Sweep(area, NOWHERE, x, z), ChunkCoord(x, z), p);
          Add(ChunkCoord(x, z), p);
        }
      }
    }

    /** unsubscribe over a region. */
    method UnsubscribeRegion(area: Area, p: Pid)
      requires NonEmpty(area)
      modifies this`subscriptions
      ensures Subs() == Without(old(Subs()), Cells(area, NOWHERE), p)
    {
      NoCells(Subs(), p);
      for x := area.x0 to area.x1 + 1
        invariant Subs() == Without(old(Subs()), Sweep(area, NOWHERE, x, area.z0), p)
      {
        for z := area.z0 to area.z1 + 1
          invariant Subs() == Without(old(Subs()), Sweep(area, NOWHERE, x, z), p)
        {
          OneCellMore(old(Subs()), Sweep(area, NOWHERE, x, z), ChunkCoord(x, z), p);
          Remove(ChunkCoord(x, z), p);
        }
      }
    }

    method Enter(c: ChunkCoord, vd: nat, p: Pid)
      modifies this`membership, this`subscriptions
      ensures Members() == old(Members()) + {(c, p)}
      ensures Subs() == With(old(Subs()), SquareOf(c, vd), p)
    {
      InsertedPairs(membership, c, p);
      membership := Inserted(membership, c, p);
      SubscribeRegion(Around(c, vd), p);
    }

    method Leave(c: ChunkCoord, vd: nat, p: Pid)
      modifies this`membership, this`subscriptions
      ensures Members() == old(Members()) - {(c, p)}
      ensures Subs() == Without(old(Subs()), SquareOf(c, vd), p)
    {
      ErasedPairs(membership, c, p);
      membership := Erased(membership, c, p);
      UnsubscribeRegion(Around(c, vd), p);
    }

    method Move(from: ChunkCoord, to: ChunkCoord, p: Pid)
      modifies this`membership
      ensures Members() == old(Members()) - {(from, p)} + {(to, p)}
    {
      ErasedPairs(membership, from, p);
      membership := Erased(membership, from, p);
      InsertedPairs(membership, to, p);
      membership := Inserted(membership, to, p);
    }

    method Subscribe(cells: seq<ChunkCoord>, p: Pid)
      modifies this`subscriptions
      ensures Subs() == With(old(Subs()), cells, p)
    {
      NoCells(Subs(), p);
      for i := 0 to |cells|
        invariant Subs() == With(old(Subs()), cells[..i], p)
      {
        OneCellMore(old(Subs()), cells[..i], cells[i], p);
        assert cells[..i + 1] == cells[..i] + [cells[i]];
        Add(cells[i], p);
      }
      assert cells[..|cells|] == cells;
    }

    method Unsubscribe(cells: seq<ChunkCoord>, p: Pid)
      modifies this`subscriptions
      ensures Subs() == Without(old(Subs()), cells, p)
    {
      NoCells(Subs(), p);
      for i := 0 to |cells|
        invariant Subs() == Without(old(Subs()), cells[..i], p)
      {
        OneCellMore(old(Subs()), cells[..i], cells[i], p);
        assert cells[..i + 1] == cells[..i] + [cells[i]];
        Remove(cells[i], p);
      }
      assert cells[..|cells|] == cells;
    }

    /** The loop of updateViewDistance for a smaller distance. */
    method UnsubscribeRing(c: ChunkCoord, larger: nat, smaller: nat, p: Pid)
      modifies this`subscriptions
      ensures Subs() == Without(old(Subs()), Cells(Around(c, larger), Kept(variant, c, larger, smaller)), p)
    {
      var area, kept := Around(c, larger), Kept(variant, c, larger, smaller);
      NoCells(Subs(), p);
      for x := area.x0 to area.x1 + 1
        invariant Subs() == Without(old(Subs()), Sweep(area, kept, x, area.z0), p)
      {
        for z := area.z0 to area.z1 + 1
          invariant Subs() == Without(old(Subs()), Sweep(area, kept, x, z), p)
        {
          var dx, dz := x - c.x, z - c.z;
          if dx <= smaller && dz <= smaller && (variant.Written? || (0 <= smaller + dx && 0 <= smaller + dz)) {
            continue;
          }
          OneCellMore(old(Subs()), Sweep(area, kept, x, z), ChunkCoord(x, z), p);
          Remove(ChunkCoord(x, z), p);
        }
      }
    }

    /** The loop of updateViewDistance for a larger distance. */
    method SubscribeRing(c: ChunkCoord, larger: nat, smaller: nat, p: Pid)
      modifies this`subscriptions
      ensures Subs() == With(old(Subs()), Cells(Around(c, larger), Kept(variant, c, larger, smaller)), p)
    {
      var area, kept := Around(c, larger), Kept(variant, c, larger, smaller);
      NoCells(Subs(), p);
      for x := area.x0 to area.x1 + 1
        invariant Subs() == With(old(Subs()), Sweep(area, kept, x, area.z0), p)
      {
        for z := area.z0 to area.z1 + 1
          invariant Subs() == With(old(Subs()), Sweep(area, kept, x, z), p)
        {
          var dx, dz := x - c.x, z - c.z;
          if dx <= smaller && dz <= smaller && (variant.Written? || (0 <= smaller + dx && 0 <= smaller + dz)) {
            continue;
          }
          OneCellMore(old(Subs()), Sweep(area, kept, x, z), ChunkCoord(x, z), p);
          Add(ChunkCoord(x, z), p);
        }
      }
    }

    method UpdateViewDistance(c: ChunkCoord, oldVd: nat, newVd: nat, p: Pid)
      modifies this`subscriptions
      ensures Subs() == UpdatedSubs(variant, old(Subs()), c, oldVd, newVd, p)
    {
      if oldVd == newVd {
        return;
      }
      if newVd < oldVd {
        UnsubscribeRing(c, oldVd, newVd, p);
      } else {
        SubscribeRing(c, newVd, oldVd, p);
      }
    }

    /** subscribers of a chunk. */
    method Subscribers(c: ChunkCoord) returns (s: set<Pid>)
      ensures s == At(Subs(), c)
    {
      s := Lookup(subscriptions, c);
    }

    method MembersAt(c: ChunkCoord) returns (s: set<Pid>)
      ensures s == At(Members(), c)
    {
      s := Lookup(membership, c);
    }
  }
}
