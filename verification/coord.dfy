/**
 * The three views of a pillar's address (src/coord.rs): the index 0..15,
 * the pair (letter A-D, digit 0-3) and the pair (x, y). The source's
 * `Coord` trait supplies `to_xy_coord`, `to_ln_coord` and
 * `as_letter_coord` from `to_num`; here those defaults are functions of
 * the index (`XYOfNum`, `LnOfNum`), used by each coordinate type.
 * A `debug_assert!`, a `panic!` or an `unreachable!` is a `requires`.
 */
module Coord {
  import opened Options

  /** Rust's `u8` and `u16`. */
  type U8 = x: int | 0 <= x < 0x100
  type U16 = x: int | 0 <= x < 0x1_0000

  datatype Letter = A | B | C | D {

    /** The column index every `match` on a letter in the source gives it. */
    function Ordinal(): (i: nat)
      ensures i < 4
    {
      match this
      case A => 0
      case B => 1
      case C => 2
      case D => 3
    }

    /** `Display for Letter`: the letter's capital. */
    function ToString(): (s: string)
      ensures |s| == 1 && s[0] == "ABCD"[Ordinal()]
    {
      match this
      case A => "A"
      case B => "B"
      case C => "C"
      case D => "D"
    }
  }

  /** `Letter::from(u8)`: only 0..=3 name a letter; any other value is unreachable. */
  function LetterFromU8(v: U8): (l: Letter)
    requires v < 4
    ensures l.Ordinal() == v
  {
    match v
    case 0 => A
    case 1 => B
    case 2 => C
    case 3 => D
  }

  /** `FromStr for Letter`: exactly the four capitals parse; anything else is `Err(())`. */
  function LetterFromStr(s: string): (r: Option<Letter>)
    ensures r.Some? <==> s in {"A", "B", "C", "D"}
    ensures r.Some? ==> r.value.ToString() == s
  {
    match s
    case "A" => Some(A)
    case "B" => Some(B)
    case "C" => Some(C)
    case "D" => Some(D)
    case _ => None
  }

  /** The default `to_xy_coord`: (n % 4, n / 4), computed in `u16`. */
  function XYOfNum(n: U8): (xy: (U16, U16))
    ensures xy.0 < 4 && xy.0 + 4 * xy.1 == n
    ensures n < 16 ==> xy.1 < 4
  {
    (n % 4, n / 4)
  }

  /** The default `to_ln_coord`: the letter of n % 4 and the digit n / 4. */
  function LnOfNum(n: U8): (ln: (Letter, U8))
    ensures ln.0.Ordinal() + 4 * ln.1 == n
    ensures (ln.0.Ordinal(), ln.1) == XYOfNum(n)
  {
    var l := match n % 4
      case 0 => A
      case 1 => B
      case 2 => C
      case _ => D;
    (l, n / 4)
  }

  /** A coordinate held as a letter and a number (`LetterCoord`). */
  datatype LetterCoord = LetterCoord(letter: Letter, number: U8) {

    /** The override of `to_xy_coord`: the letter's ordinal and the number. */
    function ToXY(): (xy: (U16, U16))
      ensures xy.0 < 4 && xy.0 == letter.Ordinal() && xy.1 == number
    {
      (letter.Ordinal(), number)
    }

    /**
     * `to_num`: `l as u8 + n as u8 * 4`. Once the number reaches 64 the
     * `u8` arithmetic overflows: it panics in a debug build and wraps in a
     * release build; the requires keeps to the range where both agree.
     */
    function ToNum(): (n: U8)
      requires number < 64
      ensures n == letter.Ordinal() + 4 * number
    {
      var (l, k) := ToXY();
      l + k * 4
    }

    /** The default `to_ln_coord`; it gives back the coordinate itself. */
    function ToLn(): (ln: (Letter, U8))
      requires number < 64
      ensures ln == (letter, number)
    {
      LnOfNum(ToNum())
    }

    /** The default `as_letter_coord`; `LetterCoord::from` asserts a digit below 4. */
    function AsLetterCoord(): (c: LetterCoord)
      requires number < 4
      ensures c == this
    {
      LetterCoordFrom(ToLn())
    }

    /** The default `as_number_coord`: the same cell as an index. */
    function AsNumberCoord(): (c: NumberCoord)
      requires number < 4
      ensures c.n < 16 && c.n == ToNum()
    {
      NumberCoordFrom(ToLn())
    }
  }

  /** A coordinate held as the index 0..15 (`NumberCoord`). */
  datatype NumberCoord = NumberCoord(n: U8) {

    /** `to_num`: the stored index. */
    function ToNum(): (k: U8)
      ensures k == n
    {
      n
    }

    /** The default `to_xy_coord`: the column x below 4 and the row y with x + 4y the index. */
    function ToXY(): (xy: (U16, U16))
      ensures xy.0 < 4 && xy.0 + 4 * xy.1 == n
      ensures n < 16 ==> xy.1 < 4
    {
      XYOfNum(ToNum())
    }

    /** The default `to_ln_coord`: the letter and the digit that recompose the index. */
    function ToLn(): (ln: (Letter, U8))
      ensures ln.0.Ordinal() + 4 * ln.1 == n
      ensures (ln.0.Ordinal(), ln.1) == ToXY()
    {
      LnOfNum(ToNum())
    }

    /** The default `as_letter_coord`: the same cell as a letter and a digit. */
    function AsLetterCoord(): (c: LetterCoord)
      requires n < 16
      ensures c.number < 4 && c.ToNum() == n
    {
      LetterCoordFrom(ToLn())
    }

    /** The default `as_number_coord`; it gives back the coordinate itself. */
    function AsNumberCoord(): (c: NumberCoord)
      requires n < 16
      ensures c == this
    {
      NumberCoordFrom(ToLn())
    }
  }

  /** `NumberCoord::new`, which asserts an index below 16. */
  function NewNumberCoord(n: U8): (c: NumberCoord)
    requires n < 16
    ensures var ln := c.ToLn(); ln.1 < 4 && 4 * ln.1 + ln.0.Ordinal() == n
  {
    NumberCoord(n)
  }

  /** `From<(Letter, u8)> for NumberCoord`: index digit * 4 + letter ordinal. */
  function NumberCoordFrom(ln: (Letter, U8)): (c: NumberCoord)
    requires ln.1 < 4
    ensures c.n < 16 && c.n == 4 * ln.1 + ln.0.Ordinal()
    ensures c.ToLn() == ln
  {
    var li := match ln.0
      case A => 0
      case B => 1
      case C => 2
      case D => 3;
    NewNumberCoord(ln.1 * 4 + li)
  }

  /** `From<(Letter, u8)> for LetterCoord` (through the builder, which cannot fail here). */
  function LetterCoordFrom(ln: (Letter, U8)): (c: LetterCoord)
    requires ln.1 < 4
    ensures c.number < 4 && c.ToNum() == 4 * ln.1 + ln.0.Ordinal()
    ensures c.ToLn() == ln
  {
    LetterCoord(ln.0, ln.1)
  }

  /**
   * The index and letter-digit views are inverse bijections between
   * 0..15 and {A,B,C,D} x {0,1,2,3}.
   */
  lemma CoordinatesBijective()
    ensures forall n: U8 :: n < 16 ==> NumberCoordFrom(LnOfNum(n)).n == n
    ensures forall l: Letter, d: U8 :: d < 4 ==> LnOfNum(4 * d + l.Ordinal()) == (l, d)
    ensures forall l: Letter :: LetterFromU8(l.Ordinal()) == l
    ensures forall l: Letter :: LetterFromStr(l.ToString()) == Some(l)
  {
    forall l: Letter, d: U8 | d < 4
      ensures LnOfNum(4 * d + l.Ordinal()) == (l, d)
    {
      assert NumberCoordFrom((l, d)).ToLn() == (l, d);
    }
  }
}
