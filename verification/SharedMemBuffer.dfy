/** The shared scratch arena: one buffer that only grows, whose every registered
    pointer is rewritten when it moves. */
module SharedMemBuffer {
  import opened Segments

  /** Pointer cells (by address) with the bytes each asks for, in registration order. */
  datatype Request = Request(cells: seq<nat>, sizes: seq<nat>)

  type Cells = map<nat, nat>

  /** The address of an owning object. */
  datatype Owner = Owner(address: nat)

  predicate WellFormed(r: Request) { |r.cells| == |r.sizes| }

  function Offset(r: Request, i: nat): (offset: nat)
    requires i <= |r.sizes|
  {
    Sum(r.sizes[..i])
  }

  /** Every cell of the request points at its own piece of the buffer. */
  ghost predicate Points(cells: Cells, base: nat, r: Request) {
    WellFormed(r) &&
    forall i :: 0 <= i < |r.cells| ==> r.cells[i] in cells && cells[r.cells[i]] == base + Offset(r, i)
  }

  ghost predicate Apart(r: Request, q: Request) {
    forall i, j :: 0 <= i < |r.cells| && 0 <= j < |q.cells| ==> r.cells[i] != q.cells[j]
  }

  ghost predicate Registered(requests: map<Owner, seq<Request>>, o: Owner, k: int) {
    o in requests && 0 <= k < |requests[o]|
  }

  /** Registered requests write to pairwise different cells. */
  ghost predicate CellsDistinct(requests: map<Owner, seq<Request>>) {
    && (forall o, k :: Registered(requests, o, k) ==> WellFormed(requests[o][k]) && Distinct(requests[o][k].cells))
    && (forall o, k, p, l :: Registered(requests, o, k) && Registered(requests, p, l) && (o != p || k != l) ==>
          Apart(requests[o][k], requests[p][l]))
  }

  /** The request may join: its cells are its own. */
  ghost predicate Fresh(requests: map<Owner, seq<Request>>, r: Request) {
    && WellFormed(r) && Distinct(r.cells)
    && forall o, k :: Registered(requests, o, k) ==> Apart(requests[o][k], r)
  }

  ghost predicate AllPoint(requests: map<Owner, seq<Request>>, cells: Cells, base: nat) {
    forall o, k :: Registered(requests, o, k) ==> Points(cells, base, requests[o][k])
  }

  ghost predicate AllFit(requests: map<Owner, seq<Request>>, size: nat) {
    forall o, k :: Registered(requests, o, k) ==> Sum(requests[o][k].sizes) <= size
  }

  function Largest(totals: seq<nat>): (m: nat)
    ensures forall i :: 0 <= i < |totals| ==> totals[i] <= m
    ensures m == 0 || m in totals
  {
    if |totals| == 0 then 0
    else
      var m := Largest(totals[..|totals| - 1]);
      if totals[|totals| - 1] > m then totals[|totals| - 1] else m
  }

  /** Writing one request's cells leaves an apart request's pointers alone. */
  lemma ApartKeeps(before: Cells, after: Cells, base: nat, q: Request, r: Request)
    requires Points(before, base, q) && Apart(q, r)
    requires forall c :: c in before && c !in r.cells ==> c in after && after[c] == before[c]
    ensures Points(after, base, q)
  {}

  function Add(requests: map<Owner, seq<Request>>, o: Owner, r: Request): (now: map<Owner, seq<Request>>) {
    requests[o := (if o in requests then requests[o] else []) + [r]]
  }

  /** How many requests the owner has. */
  function Held(requests: map<Owner, seq<Request>>, o: Owner): nat {
    if o in requests then |requests[o]| else 0
  }

  /** Everything registered before still is, at its place; r comes after its owner's; and nothing else does. */
  ghost predicate Joined(was: map<Owner, seq<Request>>, now: map<Owner, seq<Request>>, o: Owner, r: Request) {
    && (forall p, k :: Registered(was, p, k) ==> Registered(now, p, k) && now[p][k] == was[p][k])
    && Registered(now, o, Held(was, o)) && now[o][Held(was, o)] == r
    && (forall p, k :: Registered(now, p, k) ==> Registered(was, p, k) || (p == o && k == Held(was, o)))
  }

  lemma AddJoins(requests: map<Owner, seq<Request>>, o: Owner, r: Request)
    ensures Joined(requests, Add(requests, o, r), o, r)
  {}

  lemma AddKeeps(requests: map<Owner, seq<Request>>, o: Owner, r: Request, cells: Cells, base: nat, size: nat)
    requires CellsDistinct(requests) && AllPoint(requests, cells, base) && AllFit(requests, size)
    requires Fresh(requests, r) && Points(cells, base, r) && Sum(r.sizes) <= size
    ensures CellsDistinct(Add(requests, o, r))
    ensures AllPoint(Add(requests, o, r), cells, base)
    ensures AllFit(Add(requests, o, r), size)
  {
    var now := Add(requests, o, r);
    forall p, l | Registered(now, p, l)
      ensures || (Registered(requests, p, l) && now[p][l] == requests[p][l])
              || (p == o && now[p][l] == r && l == |now[o]| - 1)
    {}
    AddDistinct(requests, o, r);
  }

  lemma AddDistinct(requests: map<Owner, seq<Request>>, o: Owner, r: Request)
    requires CellsDistinct(requests) && Fresh(requests, r)
    ensures CellsDistinct(Add(requests, o, r))
  {
    var now := Add(requests, o, r);
    forall p, l | Registered(now, p, l)
      ensures || (Registered(requests, p, l) && now[p][l] == requests[p][l])
              || (p == o && now[p][l] == r && l == |now[o]| - 1)
    {}
    forall p, k, q, l | Registered(now, p, k) && Registered(now, q, l) && (p != q || k != l)
      ensures Apart(now[p][k], now[q][l])
    {}
  }

  class Buffer {
    var buffer: nat                          // 0 is the null pointer
    var size: nat
    var requests: map<Owner, seq<Request>>     // by owner
    var cells: Cells                         // what the registered pointers hold
    ghost var totals: seq<nat>               // every total ever asked for

    ghost predicate Valid()
      reads this
    {
      && CellsDistinct(requests)
      && AllPoint(requests, cells, buffer)
      && AllFit(requests, size)
      && size == Largest(totals)
      && (buffer == 0 <==> size == 0)
    }

    constructor ()
      ensures Valid() && requests == map[] && totals == [] && size == 0 && buffer == 0
    {
      buffer, size, requests, cells, totals := 0, 0, map[], map[], [];
    }

    method TotalSize(r: Request) returns (total: nat)
      ensures total == Sum(r.sizes)
    {
      total := 0;
      for i := 0 to |r.sizes|
        invariant total == Sum(r.sizes[..i])
      {
        assert r.sizes[..i + 1][..i] == r.sizes[..i];
        total := total + r.sizes[i];
      }
      assert r.sizes[..|r.sizes|] == r.sizes;
    }

    /** `update_base_ptr`: each cell gets the base plus the sizes before it. */
    method UpdateBasePtr(base: nat, r: Request)
      requires WellFormed(r) && Distinct(r.cells)
      modifies this`cells
      ensures Points(cells, base, r)
      ensures forall c :: c in old(cells) && c !in r.cells ==> c in cells && cells[c] == old(cells)[c]
    {
      var offset := 0;
      for i := 0 to |r.cells|
        invariant offset == Offset(r, i)
        invariant forall j :: 0 <= j < i ==> r.cells[j] in cells && cells[r.cells[j]] == base + Offset(r, j)
        invariant forall c :: c in old(cells) && c !in r.cells ==> c in cells && cells[c] == old(cells)[c]
      {
        cells := cells[r.cells[i] := base + offset];
        assert r.sizes[..i + 1][..i] == r.sizes[..i];
        offset := offset + r.sizes[i];
      }
    }

    /** One owner's requests, all rewritten. */
    method UpdateOwner(o: Owner)
      requires o in requests && CellsDistinct(requests)
      modifies this`cells
      ensures forall k :: 0 <= k < |requests[o]| ==> Points(cells, buffer, requests[o][k])
      ensures forall p, l :: Registered(requests, p, l) && p != o && Points(old(cells), buffer, requests[p][l]) ==>
        Points(cells, buffer, requests[p][l])
    {
      var list := requests[o];
      for k := 0 to |list|
        invariant forall j :: 0 <= j < k ==> Points(cells, buffer, list[j])
        invariant forall p, l :: Registered(requests, p, l) && p != o && Points(old(cells), buffer, requests[p][l]) ==>
          Points(cells, buffer, requests[p][l])
      {
        assert Registered(requests, o, k);
        ghost var before := cells;
        UpdateBasePtr(buffer, list[k]);
        forall j | 0 <= j < k ensures Points(cells, buffer, list[j]) {
          assert Registered(requests, o, j);
          ApartKeeps(before, cells, buffer, list[j], list[k]);
        }
        forall p, l | Registered(requests, p, l) && p != o && Points(before, buffer, requests[p][l])
          ensures Points(cells, buffer, requests[p][l])
        {
          ApartKeeps(before, cells, buffer, requests[p][l], list[k]);
        }
      }
    }

    /** Every registered request, in whatever order the owners are visited. */
    method UpdateAll()
      requires CellsDistinct(requests)
      modifies this`cells
      ensures AllPoint(requests, cells, buffer)
    {
      var owners := requests.Keys;
      while owners != {}
        invariant owners <= requests.Keys
        invariant forall o, k :: Registered(requests, o, k) && o !in owners ==> Points(cells, buffer, requests[o][k])
      {
        var o :| o in owners;
        ghost var before := cells;
        UpdateOwner(o);
        assert forall p, l :: Registered(requests, p, l) && p !in owners ==> Points(before, buffer, requests[p][l]);
        owners := owners - {o};
      }
    }

    /** `alloc`; `newBase` is what the allocator would return (0 when it fails,
        and then the process exits). */
    method Alloc(o: Owner, r: Request, newBase: nat) returns (ok: bool)
      requires Valid() && Fresh(requests, r)
      modifies this
      ensures ok <==> Sum(r.sizes) <= old(size) || newBase != 0
      ensures ok ==> Valid() && Joined(old(requests), requests, o, r)
      ensures ok ==> totals == old(totals) + [Sum(r.sizes)]
      ensures ok ==> buffer == if Sum(r.sizes) > old(size) then newBase else old(buffer)
      ensures ok ==> size == if Sum(r.sizes) > old(size) then Sum(r.sizes) else old(size)
      ensures ok ==> forall p, k :: Registered(old(requests), p, k) ==> Points(cells, buffer, old(requests)[p][k])
      ensures ok ==> Points(cells, buffer, r)
      ensures ok && Sum(r.sizes) <= old(size) ==>
        forall c :: c in old(cells) && c !in r.cells ==> c in cells && cells[c] == old(cells)[c]
    {
      var total := TotalSize(r);
      totals := totals + [total];
      assert totals[..|totals| - 1] == old(totals);
      if total > size {
        if newBase == 0 { return false; }
        buffer := newBase;
        size := total;
        UpdateAll();
      }
      ghost var before := cells;
      UpdateBasePtr(buffer, r);
      forall p, l | Registered(requests, p, l) ensures Points(cells, buffer, requests[p][l]) {
        ApartKeeps(before, cells, buffer, requests[p][l], r);
      }
      AddKeeps(requests, o, r, cells, buffer, size);
      AddJoins(requests, o, r);
      requests := Add(requests, o, r);
      ok := true;
    }

    /** `dealloc`: the owner's requests are forgotten; buffer and size stay. */
    method Dealloc(o: Owner)
      requires Valid()
      modifies this`requests
      ensures Valid() && requests == old(requests) - {o}
    {
      requests := requests - {o};
      assert forall p, l :: Registered(requests, p, l) ==> Registered(old(requests), p,
                                                                      l) && requests[p][l] == old(requests)[p][l];
    }
  }

  /** A request apart from one that has joined may still join. */
  lemma StillFresh(was: map<Owner, seq<Request>>, now: map<Owner, seq<Request>>, o: Owner, r: Request, q: Request)
    requires Joined(was, now, o, r) && Fresh(was, q) && Apart(r, q)
    ensures Fresh(now, q)
  {}

  lemma TwoJoined(none: map<Owner, seq<Request>>, one: map<Owner, seq<Request>>, two: map<Owner, seq<Request>>,
                  o: Owner, r: Request, q: Request)
    requires none == map[] && Joined(none, one, o, r) && Joined(one, two, o, q)
    ensures Registered(two, o, 0) && two[o][0] == r && Registered(two, o, 1) && two[o][1] == q
  {
    assert Registered(one, o, 0);
  }

  const FIRST := Request([10], [64])
  const SECOND := Request([11, 12], [16, 16])
  const THIRD := Request([13], [128])

  lemma TheirCells(cells: Cells, base: nat)
    ensures Sum(FIRST.sizes) == 64 && Sum(SECOND.sizes) == 32 && Sum(THIRD.sizes) == 128
    ensures Fresh(map[], FIRST) && Fresh(map[], SECOND) && Fresh(map[], THIRD)
    ensures Apart(FIRST, SECOND) && Apart(FIRST, THIRD) && Apart(SECOND, THIRD)
    ensures Points(cells, base, FIRST) ==> 10 in cells && cells[10] == base
    ensures Points(cells, base, SECOND) ==> 11 in cells && cells[11] == base && 12 in cells && cells[12] == base + 16
    ensures Points(cells, base, THIRD) ==> 13 in cells && cells[13] == base
  {
    assert [64][..0] == [] && [128][..0] == [] && [16][..0] == [] && [16, 16][..0] == [] && [16, 16][..1] == [16];
    assert Sum([]) == 0 && Sum([16]) == 16;
    assert Points(cells, base, FIRST) ==> FIRST.cells[0] in cells;
    assert Points(cells, base, SECOND) ==> SECOND.cells[0] in cells && SECOND.cells[1] in cells;
    assert Points(cells, base, THIRD) ==> THIRD.cells[0] in cells;
  }

  /** Two live requests of one owner and a third, larger one of another: when the arena moves, all three follow. */
  method BothFollow() returns (b: Buffer)
    ensures fresh(b) && b.Valid() && b.buffer == 8192 && b.size == 128
    ensures 10 in b.cells && b.cells[10] == 8192
    ensures 11 in b.cells && b.cells[11] == 8192 && 12 in b.cells && b.cells[12] == 8192 + 16
    ensures 13 in b.cells && b.cells[13] == 8192
  {
    hide Fresh, Points, Apart, FIRST, SECOND, THIRD, Joined, Buffer.Valid, Sum;
    b := new Buffer();
    TheirCells(b.cells, 4096);
    ghost var none := b.requests;
    var ok := b.Alloc(Owner(1), FIRST, 4096);
    ghost var one := b.requests;
    StillFresh(none, one, Owner(1), FIRST, SECOND);
    StillFresh(none, one, Owner(1), FIRST, THIRD);
    ok := b.Alloc(Owner(1), SECOND, 0);
    ghost var two := b.requests;
    StillFresh(one, two, Owner(1), SECOND, THIRD);
    TwoJoined(none, one, two, Owner(1), FIRST, SECOND);
    ok := b.Alloc(Owner(2), THIRD, 8192);
    TheirCells(b.cells, 8192);
  }

  /** Every piece of a registered request lies inside the buffer, and no later piece of the request overlaps it. */
  lemma PiecesDisjoint(b: Buffer, o: Owner, k: nat, i: nat)
    requires b.Valid() && Registered(b.requests, o, k) && i < |b.requests[o][k].cells|
    ensures var r := b.requests[o][k];
      && |r.sizes| == |r.cells| && r.cells[i] in b.cells
      && b.buffer <= b.cells[r.cells[i]]
      && b.cells[r.cells[i]] + r.sizes[i] <= b.buffer + b.size
      && (forall j :: i < j < |r.cells| ==>
            r.cells[j] in b.cells && b.cells[r.cells[i]] + r.sizes[i] <= b.cells[r.cells[j]])
  {
    var r := b.requests[o][k];
    assert Points(b.cells, b.buffer, r);
    PrefixNext(r.sizes, i);
    SumPrefix(r.sizes, i + 1);
    forall j | i < j < |r.cells|
      ensures r.cells[j] in b.cells && b.cells[r.cells[i]] + r.sizes[i] <= b.cells[r.cells[j]]
    {
      PrefixOrder(r.sizes, i + 1, j);
    }
  }

  lemma PrefixNext(sizes: seq<nat>, i: nat)
    requires i < |sizes|
    ensures Sum(sizes[..i + 1]) == Sum(sizes[..i]) + sizes[i]
  {
    assert sizes[..i + 1][..i] == sizes[..i];
  }

  lemma PrefixOrder(sizes: seq<nat>, i: nat, j: nat)
    requires i <= j <= |sizes|
    ensures Sum(sizes[..i]) <= Sum(sizes[..j])
  {
    assert sizes[..j][..i] == sizes[..i];
    SumPrefix(sizes[..j], i);
  }
}
