/**
 * The coordinate a human player is typing (src/input.rs): an optional
 * letter and an optional number, filled in one key at a time.
 * `Parts` is the value an input holds (what `split` returns); `Input` is
 * the object whose setters change it in place.
 */
module Inputs {
  import opened Options
  import opened Coord

  /** The text of a number in base ten (`u8::to_string`). */
  function Decimal(n: nat): (s: string)
    ensures |s| >= 1 && forall i :: 0 <= i < |s| ==> '0' <= s[i] <= '9'
    ensures n < 10 ==> s == [(n + '0' as int) as char]
    ensures s[0] == '0' <==> n == 0
  {
    if n < 10 then [(n + '0' as int) as char] else Decimal(n / 10) + [(n % 10 + '0' as int) as char]
  }

  /** Reads a string of decimal digits back as a number. */
  function DigitsValue(s: string): (v: nat)
    requires forall i :: 0 <= i < |s| ==> '0' <= s[i] <= '9'
  {
    if s == [] then 0 else 10 * DigitsValue(s[..|s| - 1]) + (s[|s| - 1] as int - '0' as int)
  }

  /** The decimal text of a number reads back as that number. */
  lemma {:induction false} DecimalRoundTrip(n: nat)
    ensures DigitsValue(Decimal(n)) == n
  {
    if n >= 10 {
      var s := Decimal(n);
      assert s[..|s| - 1] == Decimal(n / 10);
      DecimalRoundTrip(n / 10);
    }
  }

  /** The two parts of an input; `Parts(None, None)` is `Input::default()`. */
  datatype Parts = Parts(letter: Option<Letter>, number: Option<U8>) {

    /** `is_valid`: both parts are present. */
    predicate IsValid() {
      letter.Some? && number.Some?
    }

    /**
     * The `to_xy_coord` of an input: the letter's ordinal and the number.
     * A missing part makes the source's `expect` panic.
     */
    function ToXY(): (xy: (U16, U16))
      requires IsValid()
      ensures xy.0 < 4 && xy == (letter.value.Ordinal(), number.value)
    {
      var l := match letter.value
        case A => 0
        case B => 1
        case C => 2
        case D => 3;
      (l, number.value)
    }

    /**
     * The `to_num` of an input: `l + n * 4` in `u8`. From a number of 64 this
     * panics in a debug build and wraps in a release build; the requires
     * keeps to the range where both agree.
     */
    function ToNum(): (n: U8)
      requires IsValid() && number.value < 64
      ensures n == letter.value.Ordinal() + 4 * number.value
      ensures number.value < 4 ==> n < 16
    {
      var (l, k) := ToXY();
      l + k * 4
    }

    /** `get_to_coord`: the letter coordinate the parts spell. */
    function GetToCoord(): (c: LetterCoord)
      requires IsValid()
      ensures c.letter == letter.value && c.number == number.value
      ensures number.value < 64 ==> c.ToNum() == ToNum()
    {
      LetterCoord(letter.value, number.value)
    }

    /** `Debug for Input`: the letter then the number, each `?` when missing. */
    function Text(): (t: string)
      ensures |t| >= 2
      ensures t[0] == '?' <==> letter.None?
      ensures letter.Some? ==> [t[0]] == letter.value.ToString()
      ensures number.None? <==> t[1..] == "?"
      ensures number.Some? ==> (forall i :: 1 <= i < |t| ==> '0' <= t[i] <= '9') &&
                               DigitsValue(t[1..]) == number.value
      ensures number.Some? ==> (t[1] == '0' ==> |t| == 2)
    {
      var l := if letter.Some? then letter.value.ToString() else "?";
      var n := if number.Some? then Decimal(number.value) else "?";
      assert (l + n)[1..] == n;
      if number.Some? then DecimalRoundTrip(number.value); l + n else l + n
    }
  }

  /** The parts `From<(Letter, u8)>` builds: that letter and that digit. */
  function PartsOf(ln: (Letter, U8)): (p: Parts)
    requires ln.1 < 4
    ensures p.IsValid() && p.number.value < 4 && p.ToNum() == 4 * ln.1 + ln.0.Ordinal()
  {
    Parts(Some(ln.0), Some(ln.1))
  }

  /** The parts `From<u8>` builds: the letter and digit of the index. */
  function PartsOfIndex(v: U8): (p: Parts)
    requires v < 16
    ensures p.IsValid() && p.number.value < 4 && p.ToNum() == v
  {
    PartsOf(NewNumberCoord(v).ToLn())
  }

  /**
   * Equal inputs are exactly the inputs of equal index: on complete
   * inputs with a digit below 4, `to_num` loses nothing.
   */
  lemma IndexDeterminesInput(p: Parts, q: Parts)
    requires p.IsValid() && p.number.value < 4 && q.IsValid() && q.number.value < 4
    ensures p == q <==> p.ToNum() == q.ToNum()
  {
    if p.ToNum() == q.ToNum() {
      var (lp, np) := (p.letter.value.Ordinal(), p.number.value);
      var (lq, nq) := (q.letter.value.Ordinal(), q.number.value);
      assert lp + 4 * np == lq + 4 * nq;
      assert np == nq && lp == lq;
      assert p.letter.value == q.letter.value by {
        match p.letter.value
        case A =>
        case B =>
        case C =>
        case D =>
      }
    }
  }

  /** Every index 0..15 is spelled by the input `From<u8>` builds for it, and only by it. */
  lemma {:induction false} PartsOfIndexRoundTrip(p: Parts)
    requires p.IsValid() && p.number.value < 4
    ensures PartsOfIndex(p.ToNum()) == p
  {
    IndexDeterminesInput(PartsOfIndex(p.ToNum()), p);
  }

  class Input {
    var letter: Option<Letter>
    var number: Option<U8>

    /** What `split` returns: the letter and the number as they are stored. */
    function Split(): (p: Parts)
      reads this
      ensures p.letter == letter && p.number == number
    {
      Parts(letter, number)
    }

    /** `Input::default()`: neither part. */
    constructor ()
      ensures Split() == Parts(None, None)
    {
      letter := None;
      number := None;
    }

    /** `set_letter`: the letter is replaced, the number kept. */
    method SetLetter(l: Letter)
      modifies this
      ensures Split() == Parts(Some(l), old(number))
    {
      letter := Some(l);
    }

    /** `set_number`: the `usize` is cast to `u8`, keeping its low eight bits; the letter is kept. */
    method SetNumber(n: nat)
      modifies this
      ensures Split() == Parts(old(letter), Some(n % 0x100))
    {
      number := Some(n % 0x100);
    }

    /** `reset`: back to the default input. */
    method Reset()
      modifies this
      ensures Split() == Parts(None, None)
    {
      letter := None;
      number := None;
    }

    predicate IsValid()
      reads this
      ensures IsValid() <==> letter.Some? && number.Some?
    {
      Split().IsValid()
    }

    function GetToCoord(): (c: LetterCoord)
      requires IsValid()
      reads this
      ensures c.letter == letter.value && c.number == number.value
    {
      Split().GetToCoord()
    }

    /** `give`: the coordinate spelled so far, after which the input is reset. */
    method Give() returns (c: LetterCoord)
      requires IsValid()
      modifies this
      ensures c == LetterCoord(old(letter).value, old(number).value)
      ensures Split() == Parts(None, None)
    {
      c := GetToCoord();
      Reset();
    }

    function ToNum(): (n: U8)
      requires IsValid() && number.value < 64
      reads this
      ensures n == letter.value.Ordinal() + 4 * number.value
    {
      Split().ToNum()
    }

    /** `Clone`: a new input with the same parts. */
    method Clone() returns (c: Input)
      ensures fresh(c) && c.Split() == Split()
    {
      c := new Input();
      c.letter := letter;
      c.number := number;
    }

    /** `From<(Letter, u8)>`: a default input given the letter, then the digit. */
    static method FromLn(ln: (Letter, U8)) returns (inp: Input)
      requires ln.1 < 4
      ensures fresh(inp) && inp.Split() == PartsOf(ln)
    {
      inp := new Input();
      inp.SetLetter(ln.0);
      inp.SetNumber(ln.1);
    }

    /** `From<u8>`: the input of the index's letter and digit. */
    static method FromIndex(v: U8) returns (inp: Input)
      requires v < 16
      ensures fresh(inp) && inp.Split() == PartsOfIndex(v)
    {
      var nc := NewNumberCoord(v);
      inp := FromLn(nc.ToLn());
    }
  }
}
