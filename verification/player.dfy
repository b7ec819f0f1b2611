/** The mark a slot holds and the turn token (src/player.rs). */
module Player {

  /** A slot's occupant: one of the two players, or `Empty`. */
  datatype PlayerID = P1 | P2 | Empty {

    /**
     * `joue`: hands the turn to the other player. The source reassigns
     * `*self`; here the new value is returned and the caller stores it.
     * On `Empty` the source panics with `EmptyPlayerPlayed`, so the
     * token must be a player.
     */
    function Joue(): (next: PlayerID)
      requires this != Empty
      ensures next != Empty && next != this
    {
      match this
      case P1 => P2
      case P2 => P1
    }
  }

  /** `PlayerID::default()`: no player, the occupant of a free slot, which never holds the turn. */
  function DefaultPlayer(): (p: PlayerID)
    ensures p != P1 && p != P2
  {
    Empty
  }

  /** Passing the turn twice gives it back. */
  lemma JoueTwice(p: PlayerID)
    requires p != Empty
    ensures p.Joue().Joue() == p
  {
  }
}
