/** The game's error kinds (src/error.rs) and the unit result of a placement. */
module Errors {
  import opened Options
  import opened Coord

  /**
   * `P4Error`. The `io::Error` payload of `OutputInterfaceError` is not
   * modelled; an overfilled pillar carries the coordinate once the plate
   * has attached it.
   */
  datatype P4Error =
    | OutputInterfaceError
    | OverFilledPillar(at: Option<LetterCoord>)
    | EmptyPlayerPlayed

  /** `Result<(), P4Error>`. */
  datatype Status = Ok | Err(error: P4Error)
}
