/**
 * A pillar: four stacked slots and a height counter (src/pilier.rs).
 * `Column` is the value a pillar holds; `Pillar` is the object whose
 * `add_player` writes a slot and bumps the height in place.
 */
module Pillars {
  import opened Options
  import opened Player
  import opened Errors

  /** The contents of a pillar: its four slots, bottom first, and its height. */
  datatype Column = Column(slots: seq<PlayerID>, height: nat)

  /** `Pillar::default()`: four empty slots, height 0. */
  const EmptyColumn: Column := Column([Empty, Empty, Empty, Empty], 0)

  /** The two assertions of `validate`: height below 5 and nothing above the height. */
  predicate Validated(c: Column)
    ensures Validated(c) ==> |c.slots| == 4 && c.height <= 4
    ensures Validated(c) && c.height == 0 ==> c == EmptyColumn
  {
    c.height < 5 && |c.slots| == 4 &&
    forall i :: c.height <= i < 4 ==> c.slots[i] == Empty
  }

  /** No gap: what `validate` checks, and every slot below the height holds a mark. */
  predicate Gapless(c: Column)
    ensures Gapless(c) ==> |c.slots| == 4 && forall i :: 0 <= i < 4 ==> (c.slots[i] != Empty <==> i < c.height)
  {
    Validated(c) && forall i :: 0 <= i < c.height ==> c.slots[i] != Empty
  }

  /** `is_full`. */
  predicate Full(c: Column)
    ensures Validated(c) ==> (Full(c) <==> c.height == 4)
  {
    c.height >= 4
  }

  /** On a gapless column, being full is having no empty slot left. */
  lemma FullIffNoFreeSlot(c: Column)
    requires Gapless(c)
    ensures Full(c) <==> forall i :: 0 <= i < 4 ==> c.slots[i] != Empty
  {
    if !Full(c) {
      assert c.slots[c.height] == Empty;
    }
  }

  /**
   * What `add_player` does to a column: a full column is left alone and
   * reported as `OverFilledPillar(None)`; otherwise the mark goes to the
   * lowest free slot and the height grows by one.
   */
  function Dropped(c: Column, p: PlayerID): (r: (Status, Column))
    requires Validated(c)
    ensures Full(c) ==> r == (Err(OverFilledPillar(None)), c)
    ensures !Full(c) ==> r.0 == Ok && r.1.height == c.height + 1 && |r.1.slots| == 4 &&
                         r.1.slots[c.height] == p &&
                         forall i :: 0 <= i < 4 && i != c.height ==> r.1.slots[i] == c.slots[i]
    ensures Gapless(c) && p != Empty ==> Gapless(r.1)
  {
    if c.height >= 4 then (Err(OverFilledPillar(None)), c)
    else (Ok, Column(c.slots[c.height := p], c.height + 1))
  }

  /**
   * From the default pillar four marks are accepted, after which the
   * pillar is full and a fifth mark is refused.
   */
  lemma FourMarksFill(p1: PlayerID, p2: PlayerID, p3: PlayerID, p4: PlayerID, p5: PlayerID)
    requires p1 != Empty && p2 != Empty && p3 != Empty && p4 != Empty && p5 != Empty
    ensures var c1 := Dropped(EmptyColumn, p1);
            var c2 := Dropped(c1.1, p2);
            var c3 := Dropped(c2.1, p3);
            var c4 := Dropped(c3.1, p4);
            c1.0 == c2.0 == c3.0 == c4.0 == Ok && !Full(c3.1) && Full(c4.1) &&
            c4.1 == Column([p1, p2, p3, p4], 4) &&
            Dropped(c4.1, p5) == (Err(OverFilledPillar(None)), c4.1)
  {
  }

  /** `Plane`: the 16 marks found at one height, in index order. */
  datatype Plane = Plane(data: seq<PlayerID>)

  class Pillar {
    var data: array<PlayerID>
    var height: nat

    /** The column this pillar currently holds. */
    ghost function View(): (c: Column)
      reads this, data
    {
      Column(data[..], height)
    }

    ghost predicate Valid()
      reads this, data
    {
      data.Length == 4 && Gapless(View())
    }

    /** `Pillar::default()`. */
    constructor ()
      ensures Valid() && fresh(data) && View() == EmptyColumn
    {
      data := new PlayerID[4](_ => Empty);
      height := 0;
      new;
      assert data[..] == [Empty, Empty, Empty, Empty];
    }

    /** `is_full`: the height has reached 4. */
    predicate IsFull()
      requires Valid()
      reads this, data
      ensures IsFull() <==> Full(View())
    {
      height >= 4
    }

    /** `get_height`: the number of marks stacked. */
    function GetHeight(): (h: nat)
      requires Valid()
      reads this, data
      ensures h == View().height && h <= 4
    {
      height
    }

    /** `get_player`: the mark at slot `i`, counted from the bottom. */
    function GetPlayer(i: nat): (p: PlayerID)
      requires Valid() && i < 4
      reads this, data
      ensures p == View().slots[i]
      ensures p != Empty <==> i < GetHeight()
    {
      data[i]
    }

    /**
     * `add_player`. The mark must not be `Empty` (a `debug_assert!` in
     * the source); the closing `validate` call is the `assert` below.
     */
    method AddPlayer(p: PlayerID) returns (st: Status)
      requires Valid() && p != Empty
      modifies this, data
      ensures Valid() && data == old(data)
      ensures (st, View()) == Dropped(old(View()), p)
      ensures st == Ok <==> !old(IsFull())
    {
      if height >= 4 {
        return Err(OverFilledPillar(None));
      }
      data[height] := p;
      height := height + 1;
      assert Validated(View());
      return Ok;
    }
  }
}
