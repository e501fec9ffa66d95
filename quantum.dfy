/** Superposition entries (a piece standing on two squares at once), the
    lookups over the list of live entries, and the per-side split credits. */
module Quantum {
  import opened Board

  /** One logical piece at two squares until it collapses. The source also
      stores `moved: true`, which nothing reads: a collapse always
      materializes the piece as moved. */
  datatype QuantumPiece = QuantumPiece(id: nat, color: Color, kind: Kind, posA: Coord, posB: Coord)

  predicate Holds(q: QuantumPiece, sq: Coord)
  {
    q.posA == sq || q.posB == sq
  }

  predicate OnBoard(q: QuantumPiece)
  {
    InBounds(q.posA.r, q.posA.c) && InBounds(q.posB.r, q.posB.c)
  }

  /** No two live entries share an id. */
  predicate IdsDistinct(qs: seq<QuantumPiece>)
  {
    forall i, j :: 0 <= i < j < |qs| ==> qs[i].id != qs[j].id
  }

  /** The index of the first entry holding `sq`, or -1. */
  function QuantumIndex(qs: seq<QuantumPiece>, sq: Coord): (i: int)
    ensures i == -1 <==> forall k :: 0 <= k < |qs| ==> !Holds(qs[k], sq)
    ensures i != -1 ==> 0 <= i < |qs| && Holds(qs[i], sq)
    ensures i != -1 ==> forall k :: 0 <= k < i ==> !Holds(qs[k], sq)
  {
    if |qs| == 0 then -1
    else if Holds(qs[0], sq) then 0
    else
      var k := QuantumIndex(qs[1..], sq);
      if k == -1 then -1 else k + 1
  }

  /** getQuantumAtSquare: the first live entry that has `sq` among its positions. */
  function QuantumAt(qs: seq<QuantumPiece>, sq: Coord): (o: Option<QuantumPiece>)
    ensures o.None? <==> forall q :: q in qs ==> !Holds(q, sq)
    ensures o.Some? ==> o.value in qs && Holds(o.value, sq)
    ensures o.Some? ==> exists i :: 0 <= i < |qs| && qs[i] == o.value && forall k :: 0 <= k < i ==> !Holds(qs[k], sq)
  {
    var i := QuantumIndex(qs, sq);
    if i == -1 then None else Some(qs[i])
  }

  /** The filter `qp.id !== q.id`: every entry except those with the given id, in order. */
  function RemoveId(qs: seq<QuantumPiece>, id: nat): (r: seq<QuantumPiece>)
    ensures forall q :: q in r <==> q in qs && q.id != id
    ensures |r| <= |qs|
  {
    if |qs| == 0 then []
    else (if qs[0].id == id then [] else [qs[0]]) + RemoveId(qs[1..], id)
  }

  /** When no other entry shares the id of entry i, removing that id removes
      exactly entry i and keeps the order of the rest. */
  lemma {:induction false} RemoveIdExactlyOne(qs: seq<QuantumPiece>, i: int)
    requires 0 <= i < |qs|
    requires forall k :: 0 <= k < |qs| && k != i ==> qs[k].id != qs[i].id
    ensures RemoveId(qs, qs[i].id) == qs[..i] + qs[i + 1..]
  {
    if i == 0 {
      RemoveIdHead(qs);
    } else {
      var id := qs[i].id;
      var tail := qs[1..];
      assert tail[i - 1] == qs[i];
      forall k | 0 <= k < |tail| && k != i - 1 ensures tail[k].id != id {
        assert tail[k] == qs[k + 1];
      }
      RemoveIdExactlyOne(tail, i - 1);
      KeepHead(qs, i);
    }
  }

  /** With distinct ids, removing entry i's id removes exactly entry i. */
  lemma RemoveEntry(qs: seq<QuantumPiece>, i: int)
    requires IdsDistinct(qs) && 0 <= i < |qs|
    ensures RemoveId(qs, qs[i].id) == qs[..i] + qs[i + 1..]
  {
    forall k | 0 <= k < |qs| && k != i ensures qs[k].id != qs[i].id {
      if k < i {
        assert qs[k].id != qs[i].id;
      }
    }
    RemoveIdExactlyOne(qs, i);
  }

  /** The base case: the head's id occurs nowhere else, so removing it drops the head alone. */
  lemma RemoveIdHead(qs: seq<QuantumPiece>)
    requires |qs| > 0
    requires forall k :: 0 < k < |qs| ==> qs[k].id != qs[0].id
    ensures RemoveId(qs, qs[0].id) == qs[1..]
  {
    forall k | 0 <= k < |qs[1..]| ensures qs[1..][k].id != qs[0].id {
      assert qs[1..][k] == qs[k + 1];
    }
    RemoveIdAbsent(qs[1..], qs[0].id);
  }

  /** The step case: a head with another id is kept in front of the filtered tail. */
  lemma KeepHead(qs: seq<QuantumPiece>, i: int)
    requires 0 < i < |qs| && qs[0].id != qs[i].id
    requires RemoveId(qs[1..], qs[i].id) == qs[1..][..i - 1] + qs[1..][i..]
    ensures RemoveId(qs, qs[i].id) == qs[..i] + qs[i + 1..]
  {
    SliceAround(qs, i);
    assert RemoveId(qs, qs[i].id) == [qs[0]] + RemoveId(qs[1..], qs[i].id);
  }

  /** Dropping element i of a sequence, seen from its tail. */
  lemma SliceAround<T>(s: seq<T>, i: int)
    requires 0 < i < |s|
    ensures s[..i] + s[i + 1..] == [s[0]] + (s[1..][..i - 1] + s[1..][i..])
  {
    assert s[..i] == [s[0]] + s[1..][..i - 1];
    assert s[i + 1..] == s[1..][i..];
  }

  /** Removing an id that no entry carries changes nothing. */
  lemma {:induction false} RemoveIdAbsent(qs: seq<QuantumPiece>, id: nat)
    requires forall k :: 0 <= k < |qs| ==> qs[k].id != id
    ensures RemoveId(qs, id) == qs
  {
    if |qs| > 0 {
      RemoveIdAbsent(qs[1..], id);
    }
  }

  /** Removing entries keeps the ids distinct. */
  lemma {:induction false} RemoveIdKeepsDistinct(qs: seq<QuantumPiece>, id: nat)
    requires IdsDistinct(qs)
    ensures IdsDistinct(RemoveId(qs, id))
  {
    if |qs| > 0 {
      assert IdsDistinct(qs[1..]);
      RemoveIdKeepsDistinct(qs[1..], id);
      var rest := RemoveId(qs[1..], id);
      forall q | q in rest ensures q.id != qs[0].id {
        var k :| 0 <= k < |qs[1..]| && qs[1..][k] == q;
        assert qs[k + 1] == q;
      }
    }
  }

  /** The square of a capture-collapsing entry other than the observed one,
      if any (`positions.find((s) => s !== targetSq)`). */
  function Other(q: QuantumPiece, sq: Coord): (o: Option<Coord>)
    ensures o.Some? ==> o.value != sq && Holds(q, o.value)
    ensures o.None? <==> q.posA == sq && q.posB == sq
  {
    if q.posA != sq then Some(q.posA)
    else if q.posB != sq then Some(q.posB)
    else None
  }

  /** The per-side count of remaining splits (`quantumUses`). */
  datatype Credits = Credits(white: int, black: int) {
    function Of(side: Color): int
    {
      if side == White then white else black
    }

    /** `quantumUses[side] -= 1`. */
    function Spend(side: Color): (c: Credits)
      ensures c.Of(side) == Of(side) - 1
      ensures c.Of(Opponent(side)) == Of(Opponent(side))
    {
      if side == White then this.(white := white - 1) else this.(black := black - 1)
    }
  }

  const InitialCredits: Credits := Credits(3, 3)
}
