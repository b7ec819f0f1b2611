/**
 * The two thinkers of src/logic.rs: `Human::think`, the keyboard loop
 * that builds an input, previews it on the plate and returns it on Enter,
 * and `RBot::think`, the random player.
 *
 * The terminal is replaced by values: the events the loop reads are a
 * sequence given to it, and what it draws or prints is returned as a
 * sequence of `Signal`s. The loop itself is `Step` (one event) and `Run`
 * (a whole sequence of events); `Human.Think` is proved to emit and
 * return what `Run` says.
 */
module Logic {
  import opened Options
  import opened Player
  import opened Coord
  import opened Errors
  import opened Pillars
  import opened WinLines
  import opened Plates
  import opened Inputs

  /** The key codes the loop tells apart; every other key is `OtherKey`. */
  datatype KeyCode = Char(c: char) | Enter | Esc | OtherKey

  /**
   * What `crossterm::event::read` delivers: a key, or something the loop
   * skips (a read error, a mouse or resize event).
   */
  datatype Event = Key(code: KeyCode) | NotKey

  /** The output the loop produces, in order. */
  datatype Signal =
    | Redraw                                        // `plot`, after `clear_plot` on a view switch
    | ShowInput(text: string)                       // `Game::input_display`
    | ShowMessage(text: string)                     // `Game::message_display`
    | PreviewAt(action: PreviewAction, pillar: nat) // `Plate::preview`

  const BadInputMessage: string := "Tu dois entrer un input corect"
  const FullPillarMessage: string := "La colonne choisie est deja pleine"

  /** `" ".repeat(n)`. */
  function Spaces(n: nat): (s: string)
    ensures |s| == n && forall i :: 0 <= i < n ==> s[i] == ' '
  {
    seq(n, _ => ' ')
  }

  predicate Blank(t: string) {
    forall i :: 0 <= i < |t| ==> t[i] == ' '
  }

  /** What a key asks of the loop. */
  datatype KeyAction = SetLetter(l: Letter) | SetDigit(d: nat) | SwitchView | Confirm | Quit | Ignore

  /** The `match keycode` of the loop: letters in either case, digits 0-3, `s`, Enter, Esc. */
  function ActionOf(code: KeyCode): (a: KeyAction)
    ensures a.SetLetter? <==> code.Char? && code.c in "ABCDabcd"
    ensures a.SetLetter? ==> code.c == "ABCD"[a.l.Ordinal()] || code.c == "abcd"[a.l.Ordinal()]
    ensures a.SetDigit? <==> code.Char? && code.c in "0123"
    ensures a.SetDigit? ==> a.d < 4 && code.c == "0123"[a.d]
    ensures a == SwitchView <==> code == Char('s')
    ensures a == Confirm <==> code == Enter
    ensures a == Quit <==> code == Esc
  {
    match code
    case Char(c) =>
      if c == 'A' || c == 'a' then SetLetter(A)
      else if c == 'B' || c == 'b' then SetLetter(B)
      else if c == 'C' || c == 'c' then SetLetter(C)
      else if c == 'D' || c == 'd' then SetLetter(D)
      else if c == '0' then SetDigit(0)
      else if c == '1' then SetDigit(1)
      else if c == '2' then SetDigit(2)
      else if c == '3' then SetDigit(3)
      else if c == 's' then SwitchView
      else Ignore
    case Enter => Confirm
    case Esc => Quit
    case OtherKey => Ignore
  }

  /** A number typed with the keys 0-3 (or none yet), so `to_num` stays below 16. */
  predicate Keyed(p: Parts) {
    p.number.None? || p.number.value < 4
  }

  /** `res.is_valid() && plt.playable(res)`: a complete input naming a pillar that is not full. */
  predicate Open(b: Board, p: Parts)
    requires WellFormed(b) && Keyed(p)
  {
    p.IsValid() && !Full(b[p.ToNum()])
  }

  /**
   * The loop's state between two events: the input being typed, the one
   * last previewed (`prec_prev`), the human's `last_message_length` and
   * the plate's view.
   */
  datatype Machine = Machine(res: Parts, prev: Parts, lastLen: nat, view: TypeOfDisplay)

  predicate Sane(m: Machine) {
    Keyed(m.res) && Keyed(m.prev)
  }

  /** How the loop goes on after an event. */
  datatype Next = Continue | Break | Exit

  datatype StepResult = StepResult(next: Machine, out: seq<Signal>, how: Next)

  /** The state of the loop when it starts: nothing typed, nothing previewed. */
  function Start(lastLen: nat, view: TypeOfDisplay): (m: Machine)
    ensures Sane(m) && !m.res.IsValid() && !m.prev.IsValid()
  {
    Machine(Parts(None, None), Parts(None, None), lastLen, view)
  }

  /**
   * One pass of the loop for one event. Enter breaks on an open input
   * and otherwise prints one of the two messages; Esc exits; every other
   * key is applied, the input is shown again and, when it names an open
   * pillar, previewed in place of the previous preview, after which the
   * last message is blanked out.
   */
  function Step(m: Machine, e: Event, b: Board): (s: StepResult)
    requires WellFormed(b) && Sane(m)
    ensures Sane(s.next)
    ensures s.how == Break <==> e == Key(Enter) && Open(b, m.res)
    ensures s.how == Exit <==> e == Key(Esc)
    ensures s.how != Continue ==> s.next == m && s.out == []
  {
    match e
    case NotKey => StepResult(m, [], Continue)
    case Key(code) =>
      var a := ActionOf(code);
      match a
      case Confirm =>
        if !m.res.IsValid() then
          StepResult(m.(lastLen := |BadInputMessage|), [ShowMessage(BadInputMessage)], Continue)
        else if !Open(b, m.res) then
          StepResult(m.(lastLen := |FullPillarMessage|), [ShowMessage(FullPillarMessage)], Continue)
        else StepResult(m, [], Break)
      case Quit => StepResult(m, [], Exit)
      case _ => Refresh(Apply(m, a), RedrawFor(a), b)
  }

  /** What a key other than Enter and Esc does before the input is shown again. */
  function Apply(m: Machine, a: KeyAction): (m': Machine)
    requires Sane(m) && (a.SetDigit? ==> a.d < 4)
    ensures Sane(m') && m'.prev == m.prev && m'.lastLen == m.lastLen
    ensures a.SetLetter? ==> m'.res.letter == Some(a.l) && m'.res.number == m.res.number && m'.view == m.view
    ensures a.SetDigit? ==> m'.res.number == Some(a.d) && m'.res.letter == m.res.letter && m'.view == m.view
    ensures a.SwitchView? ==> m'.res == m.res && m'.view != m.view
    ensures !(a.SetLetter? || a.SetDigit? || a.SwitchView?) ==> m' == m
  {
    match a
    case SetLetter(l) => m.(res := m.res.(letter := Some(l)))
    case SetDigit(d) => m.(res := m.res.(number := Some(d)))
    case SwitchView => m.(view := m.view.Switch())
    case _ => m
  }

  /** A view switch clears and redraws the plate before the input is shown. */
  function RedrawFor(a: KeyAction): (out: seq<Signal>) {
    if a == SwitchView then [Redraw] else []
  }

  /** The end of the loop body, after the key has been applied. */
  function Refresh(m: Machine, redraw: seq<Signal>, b: Board): (s: StepResult)
    requires WellFormed(b) && Sane(m)
    ensures Sane(s.next) && s.how == Continue
    ensures s.next.res == m.res && s.next.view == m.view
    ensures !Open(b, m.res) ==> s.next == m
    ensures Open(b, m.res) ==> s.next.prev == m.res && s.next.lastLen == 0
  {
    var shown := redraw + [ShowInput(m.res.Text())];
    if !Open(b, m.res) then StepResult(m, shown, Continue)
    else
      var add := [PreviewAt(Add, m.res.ToNum())];
      var remove := if m.prev.IsValid() && m.res != m.prev then [PreviewAt(Remove, m.prev.ToNum())] else [];
      StepResult(m.(prev := m.res, lastLen := 0), shown + add + remove + [ShowMessage(Spaces(m.lastLen))], Continue)
  }

  /** How `think` ends: with an input, by exiting the process, or still waiting for a key. */
  datatype Outcome = Chose(input: Parts) | Aborted | Waiting

  datatype Trace = Trace(outcome: Outcome, signals: seq<Signal>, final: Machine)

  /**
   * The loop fed a whole sequence of events, after it has already
   * emitted `emitted`: how it ends, everything emitted by then, and its
   * state then.
   */
  function Run(m: Machine, events: seq<Event>, b: Board, emitted: seq<Signal>): (t: Trace)
    requires WellFormed(b) && Sane(m)
    ensures Sane(t.final)
    ensures t.outcome.Chose? ==> t.outcome.input == t.final.res
    decreases |events|
  {
    if events == [] then Trace(Waiting, emitted, m)
    else
      var s := Step(m, events[0], b);
      match s.how
      case Break => Trace(Chose(m.res), emitted, m)
      case Exit => Trace(Aborted, emitted, m)
      case Continue => Run(s.next, events[1..], b, emitted + s.out)
  }

  /** The invariant of the loop of `think` is kept by an event that continues. */
  lemma RunContinues(rest: seq<Event>, b: Board, emitted: seq<Signal>, m: Machine, out: seq<Signal>, m': Machine)
    requires WellFormed(b) && Sane(m) && rest != []
    requires Step(m, rest[0], b) == StepResult(m', out, Continue)
    ensures Sane(m')
    ensures Run(m, rest, b, emitted) == Run(m', rest[1..], b, emitted + out)
  {
  }

  /** An event that stops the loop ends the run, with what was emitted so far. */
  lemma RunStops(rest: seq<Event>, b: Board, emitted: seq<Signal>, m: Machine)
    requires WellFormed(b) && Sane(m) && rest != []
    requires Step(m, rest[0], b).how != Continue
    ensures Run(m, rest, b, emitted) ==
            Trace(if Step(m, rest[0], b).how == Break then Chose(m.res) else Aborted, emitted, m)
  {
  }

  /** The loop returns only an input that is complete and names a pillar that is not full. */
  lemma {:induction false} ChosenIsOpen(m: Machine, events: seq<Event>, b: Board, emitted: seq<Signal>)
    requires WellFormed(b) && Sane(m)
    ensures Run(m, events, b, emitted).outcome.Chose? ==> Open(b, Run(m, events, b, emitted).outcome.input)
    decreases |events|
  {
    if events != [] {
      var s := Step(m, events[0], b);
      if s.how == Continue {
        ChosenIsOpen(s.next, events[1..], b, emitted + s.out);
      }
    }
  }

  /** The input being returned is chosen by an Enter key, and Esc is never passed over. */
  lemma {:induction false} EndsOnEnterOrEsc(m: Machine, events: seq<Event>, b: Board, emitted: seq<Signal>)
    requires WellFormed(b) && Sane(m)
    ensures Run(m, events, b, emitted).outcome.Chose? ==> Key(Enter) in events
    ensures Run(m, events, b, emitted).outcome == Waiting ==> Key(Esc) !in events
    decreases |events|
  {
    if events != [] {
      var s := Step(m, events[0], b);
      if s.how == Continue {
        EndsOnEnterOrEsc(s.next, events[1..], b, emitted + s.out);
        assert events == [events[0]] + events[1..];
      }
    }
  }

  /**
   * The previous preview names an open pillar, so the `expect` on the
   * removal of the previous preview never fires. The plate does not
   * change during the loop, so this holds from one event to the next.
   */
  predicate PreviewSafe(m: Machine, b: Board)
    requires WellFormed(b) && Sane(m)
  {
    m.prev.IsValid() ==> Open(b, m.prev)
  }

  lemma PreviewSafeStep(m: Machine, e: Event, b: Board)
    requires WellFormed(b) && Sane(m) && PreviewSafe(m, b)
    ensures PreviewSafe(Step(m, e, b).next, b)
  {
  }

  /** The pillars highlighted after one signal; a redraw clears every highlight. */
  function LitAfter(sig: Signal, lit: set<nat>): (after: set<nat>) {
    match sig
    case Redraw => {}
    case PreviewAt(Add, k) => lit + {k}
    case PreviewAt(Remove, k) => lit - {k}
    case _ => lit
  }

  /** The pillars left highlighted by a sequence of signals. */
  function Lit(out: seq<Signal>, lit: set<nat>): (after: set<nat>)
    decreases |out|
  {
    if out == [] then lit else Lit(out[1..], LitAfter(out[0], lit))
  }

  lemma {:induction false} LitAppend(s1: seq<Signal>, s2: seq<Signal>, lit: set<nat>)
    ensures Lit(s1 + s2, lit) == Lit(s2, Lit(s1, lit))
    decreases |s1|
  {
    if s1 != [] {
      assert (s1 + s2)[0] == s1[0] && (s1 + s2)[1..] == s1[1..] + s2;
      LitAppend(s1[1..], s2, LitAfter(s1[0], lit));
      assert Lit(s1 + s2, lit) == Lit(s1[1..] + s2, LitAfter(s1[0], lit));
    } else {
      assert s1 + s2 == s2;
    }
  }

  /** The pillar the loop believes highlighted: the one of the previous preview, if any. */
  function Marked(m: Machine): (r: set<nat>)
    requires Sane(m)
    ensures |r| <= 1
  {
    if m.prev.IsValid() then {m.prev.ToNum()} else {}
  }

  /** The end of the loop body never leaves more highlighted than the previous preview's pillar. */
  lemma LitRefresh(m: Machine, redraw: seq<Signal>, b: Board, lit: set<nat>)
    requires WellFormed(b) && Sane(m) && lit <= Marked(m) && (redraw == [] || redraw == [Redraw])
    ensures Lit(Refresh(m, redraw, b).out, lit) <= Marked(Refresh(m, redraw, b).next)
  {
    var shown := redraw + [ShowInput(m.res.Text())];
    var lit1 := Lit(shown, lit);
    assert lit1 <= lit by {
      if redraw == [] {
        assert shown == [ShowInput(m.res.Text())] && shown[1..] == [];
        assert LitAfter(shown[0], lit) == lit;
        assert Lit(shown, lit) == Lit([], lit);
      } else {
        assert shown == [Redraw, ShowInput(m.res.Text())] && shown[1..] == [ShowInput(m.res.Text())];
        assert shown[1..][1..] == [];
        assert Lit(shown, lit) == Lit(shown[1..], {});
        assert Lit(shown[1..], {}) == Lit([], {});
      }
    }
    if Open(b, m.res) {
      var add := [PreviewAt(Add, m.res.ToNum())];
      var remove := if m.prev.IsValid() && m.res != m.prev then [PreviewAt(Remove, m.prev.ToNum())] else [];
      var tail := [ShowMessage(Spaces(m.lastLen))];
      LitAppend(shown, add, lit);
      LitAppend(shown + add, remove, lit);
      LitAppend(shown + add + remove, tail, lit);
      if remove != [] {
        IndexDeterminesInput(m.res, m.prev);
      }
    }
  }

  /** One event never leaves more highlighted than the previous preview's pillar. */
  lemma LitStep(m: Machine, e: Event, b: Board, lit: set<nat>)
    requires WellFormed(b) && Sane(m) && lit <= Marked(m)
    ensures Lit(Step(m, e, b).out, lit) <= Marked(Step(m, e, b).next)
  {
    match e
    case NotKey =>
    case Key(code) =>
      var a := ActionOf(code);
      if a != Confirm && a != Quit {
        LitRefresh(Apply(m, a), RedrawFor(a), b, lit);
      }
  }

  /**
   * At most one pillar is highlighted at any time: whatever a run
   * leaves highlighted is at most the pillar of the last preview.
   */
  lemma {:induction false} LitRun(m: Machine, events: seq<Event>, b: Board, emitted: seq<Signal>, lit: set<nat>)
    requires WellFormed(b) && Sane(m) && Lit(emitted, lit) <= Marked(m)
    ensures Lit(Run(m, events, b, emitted).signals, lit) <= Marked(Run(m, events, b, emitted).final)
    ensures |Lit(Run(m, events, b, emitted).signals, lit)| <= 1
    decreases |events|
  {
    var t := Run(m, events, b, emitted);
    if events != [] {
      var s := Step(m, events[0], b);
      if s.how == Continue {
        LitStep(m, events[0], b, Lit(emitted, lit));
        LitAppend(emitted, s.out, lit);
        LitRun(s.next, events[1..], b, emitted + s.out, lit);
      }
    }
    SubsetSize(Lit(t.signals, lit), Marked(t.final));
  }

  /** The length of the message on screen after one signal; a blank message counts as none. */
  function OnScreenAfter(sig: Signal, len: nat): (after: nat) {
    match sig
    case ShowMessage(t) => if Blank(t) then 0 else |t|
    case _ => len
  }

  /** The length of the message on screen after a sequence of signals. */
  function OnScreen(out: seq<Signal>, len: nat): (after: nat)
    decreases |out|
  {
    if out == [] then len else OnScreen(out[1..], OnScreenAfter(out[0], len))
  }

  lemma {:induction false} OnScreenAppend(s1: seq<Signal>, s2: seq<Signal>, len: nat)
    ensures OnScreen(s1 + s2, len) == OnScreen(s2, OnScreen(s1, len))
    decreases |s1|
  {
    if s1 != [] {
      assert (s1 + s2)[0] == s1[0] && (s1 + s2)[1..] == s1[1..] + s2;
      OnScreenAppend(s1[1..], s2, OnScreenAfter(s1[0], len));
      assert OnScreen(s1 + s2, len) == OnScreen(s1[1..] + s2, OnScreenAfter(s1[0], len));
    } else {
      assert s1 + s2 == s2;
    }
  }

  /**
   * `last_message_length` is the length of the message on screen, so
   * the blank printed after a preview covers exactly that message.
   *
   * `OnScreenAfter` treats each message as replacing the previous one,
   * whereas `message_display` (src/lib.rs:94-104) prints in place without
   * clearing, so a shorter message would leave the tail of a longer one
   * visible. The two agree on every run from `Start`: the 30-character
   * incomplete-input message can only be printed while the input is
   * incomplete, the 34-character full-pillar message only once it is
   * complete, and a complete input never becomes incomplete again, so the
   * shorter message never follows the longer one; every blank has exactly
   * the length of the message it covers.
   */
  lemma {:induction false} LastLenIsOnScreen(m: Machine, events: seq<Event>, b: Board, emitted: seq<Signal>, len: nat)
    requires WellFormed(b) && Sane(m) && OnScreen(emitted, len) == m.lastLen
    ensures Run(m, events, b, emitted).final.lastLen == OnScreen(Run(m, events, b, emitted).signals, len)
    decreases |events|
  {
    if events != [] {
      var s := Step(m, events[0], b);
      if s.how == Continue {
        LastLenStep(m, events[0], b);
        OnScreenAppend(emitted, s.out, len);
        LastLenIsOnScreen(s.next, events[1..], b, emitted + s.out, len);
      }
    }
  }

  lemma LastLenRefresh(m: Machine, redraw: seq<Signal>, b: Board)
    requires WellFormed(b) && Sane(m) && (redraw == [] || redraw == [Redraw])
    ensures Refresh(m, redraw, b).next.lastLen == OnScreen(Refresh(m, redraw, b).out, m.lastLen)
  {
    var shown := redraw + [ShowInput(m.res.Text())];
    assert OnScreen(shown, m.lastLen) == m.lastLen by {
      if redraw == [] {
        assert shown == [ShowInput(m.res.Text())] && shown[1..] == [];
        assert OnScreen(shown, m.lastLen) == OnScreen([], m.lastLen);
      } else {
        assert shown == [Redraw, ShowInput(m.res.Text())] && shown[1..] == [ShowInput(m.res.Text())];
        assert shown[1..][1..] == [];
        assert OnScreen(shown, m.lastLen) == OnScreen(shown[1..], m.lastLen);
        assert OnScreen(shown[1..], m.lastLen) == OnScreen([], m.lastLen);
      }
    }
    if Open(b, m.res) {
      var add := [PreviewAt(Add, m.res.ToNum())];
      var remove := if m.prev.IsValid() && m.res != m.prev then [PreviewAt(Remove, m.prev.ToNum())] else [];
      var tail := [ShowMessage(Spaces(m.lastLen))];
      OnScreenAppend(shown, add, m.lastLen);
      OnScreenAppend(shown + add, remove, m.lastLen);
      OnScreenAppend(shown + add + remove, tail, m.lastLen);
    }
  }

  lemma LastLenStep(m: Machine, e: Event, b: Board)
    requires WellFormed(b) && Sane(m)
    ensures Step(m, e, b).next.lastLen == OnScreen(Step(m, e, b).out, m.lastLen)
  {
    match e
    case NotKey =>
    case Key(code) =>
      var a := ActionOf(code);
      match a
      case Confirm =>
        assert !Blank(BadInputMessage) by { assert BadInputMessage[0] != ' '; }
        assert !Blank(FullPillarMessage) by { assert FullPillarMessage[0] != ' '; }
      case Quit =>
      case _ => LastLenRefresh(Apply(m, a), RedrawFor(a), b);
  }

  /**
   * Letter keys set the letter and digit keys the number; every other
   * event leaves the input being typed as it is.
   */
  lemma KeysEditInput(m: Machine, e: Event, b: Board)
    requires WellFormed(b) && Sane(m)
    ensures e.Key? && ActionOf(e.code).SetLetter? ==>
            Step(m, e, b).next.res == m.res.(letter := Some(ActionOf(e.code).l))
    ensures e.Key? && ActionOf(e.code).SetDigit? ==>
            Step(m, e, b).next.res == m.res.(number := Some(ActionOf(e.code).d))
    ensures !(e.Key? && (ActionOf(e.code).SetLetter? || ActionOf(e.code).SetDigit?)) ==>
            Step(m, e, b).next.res == m.res
  {
  }

  /**
   * After a key other than Enter and Esc, the input is previewed exactly
   * when it names an open pillar, and the previous preview is removed
   * exactly when, in addition, it was complete and differs from the input.
   */
  lemma PreviewSignals(m: Machine, redraw: seq<Signal>, b: Board)
    requires WellFormed(b) && Sane(m) && (redraw == [] || redraw == [Redraw])
    ensures forall k :: PreviewAt(Add, k) in Refresh(m, redraw, b).out <==>
                        Open(b, m.res) && k == m.res.ToNum()
    ensures forall k :: PreviewAt(Remove, k) in Refresh(m, redraw, b).out <==>
                        Open(b, m.res) && m.prev.IsValid() && m.prev != m.res && k == m.prev.ToNum()
  {
    var shown := redraw + [ShowInput(m.res.Text())];
    assert forall sig :: sig in shown ==> sig == Redraw || sig.ShowInput?;
    if Open(b, m.res) {
      var add := [PreviewAt(Add, m.res.ToNum())];
      var remove := if m.prev.IsValid() && m.res != m.prev then [PreviewAt(Remove, m.prev.ToNum())] else [];
      var out := shown + add + remove + [ShowMessage(Spaces(m.lastLen))];
      assert Refresh(m, redraw, b).out == out;
      forall sig | sig in out
        ensures sig in shown || sig in add || sig in remove || sig.ShowMessage?
      {
      }
      assert add[0] in out && (remove != [] ==> remove[0] in out);
    }
  }

  /**
   * Enter never ends the loop on an incomplete input or a full pillar:
   * it prints the matching message and records its length instead.
   */
  lemma EnterRefused(m: Machine, b: Board)
    requires WellFormed(b) && Sane(m)
    ensures !m.res.IsValid() ==>
            Step(m, Key(Enter), b) == StepResult(m.(lastLen := 30), [ShowMessage(BadInputMessage)], Continue)
    ensures m.res.IsValid() && !Open(b, m.res) ==>
            Step(m, Key(Enter), b) == StepResult(m.(lastLen := 34), [ShowMessage(FullPillarMessage)], Continue)
  {
  }

  /** Typing `a`, `0` and Enter on the empty plate chooses A0, previewing pillar 0 on the way. */
  lemma TypeA0Enter()
    ensures var t := Run(Start(0, Victor), [Key(Char('a')), Key(Char('0')), Key(Enter)], EmptyBoard(), []);
            t.outcome == Chose(Parts(Some(A), Some(0))) &&
            t.signals == [ShowInput("A?"), ShowInput("A0"), PreviewAt(Add, 0), ShowMessage("")]
  {
    var b := EmptyBoard();
    var m0 := Start(0, Victor);
    var m1 := m0.(res := Parts(Some(A), None));
    var m2 := m1.(res := Parts(Some(A), Some(0)), prev := Parts(Some(A), Some(0)));
    assert ActionOf(Char('a')) == SetLetter(A) && ActionOf(Char('0')) == SetDigit(0);
    assert m1.res.Text() == "A?";
    assert Step(m0, Key(Char('a')), b) == StepResult(m1, [ShowInput("A?")], Continue);
    assert m2.res.Text() == "A0" by {
      assert Decimal(0) == "0";
    }
    assert m2.res.ToNum() == 0 && Open(b, m2.res);
    assert Step(m1, Key(Char('0')), b) == Refresh(m1.(res := m2.res), [], b);
    assert Step(m1, Key(Char('0')), b).next == m2;
    assert Spaces(0) == "";
    assert Step(m1, Key(Char('0')), b).out == [ShowInput("A0"), PreviewAt(Add, 0), ShowMessage("")];
    assert Step(m2, Key(Enter), b).how == Break;
    var es := [Key(Char('a')), Key(Char('0')), Key(Enter)];
    assert es[1..] == [Key(Char('0')), Key(Enter)] && es[1..][1..] == [Key(Enter)];
  }

  /** Enter on an incomplete input prints the error message and keeps waiting. */
  lemma EnterTooEarly(lastLen: nat, view: TypeOfDisplay, b: Board)
    requires WellFormed(b)
    ensures var t := Run(Start(lastLen, view), [Key(Enter)], b, []);
            t.outcome == Waiting && t.signals == [ShowMessage(BadInputMessage)] &&
            t.final.lastLen == 30
  {
    var es := [Key(Enter)];
    assert es[1..] == [];
  }

  class Human {
    const playerId: PlayerID
    var lastMessageLength: nat

    /** `Human::new`: no message printed yet. */
    constructor (id: PlayerID)
      ensures playerId == id && lastMessageLength == 0
    {
      playerId := id;
      lastMessageLength := 0;
    }

    /**
     * `Human::think`: draws the plate, shows the empty input, then runs
     * the loop over `events` as `Run` does. Only the plate's view and the
     * human's message length change.
     */
    method Think(plt: Plate, events: seq<Event>) returns (outcome: Outcome, signals: seq<Signal>)
      requires plt.Valid() && this !in plt.Repr
      modifies this`lastMessageLength, plt`typeOfDisplay
      ensures plt.Valid() && plt.Columns == old(plt.Columns)
      ensures var t := Run(Start(old(lastMessageLength), old(plt.typeOfDisplay)), events, old(plt.Columns), []);
              outcome == t.outcome && signals == [Redraw, ShowInput("??")] + t.signals &&
              lastMessageLength == t.final.lastLen && plt.typeOfDisplay == t.final.view
    {
      ghost var b := plt.Columns;
      ghost var m0 := Start(lastMessageLength, plt.typeOfDisplay);
      var res := new Input();
      var prev := res.Clone();
      var text := res.Split().Text();
      assert text == [text[0]] + text[1..] == "??";
      var shown: seq<Signal> := [];
      var i := 0;
      while i < |events|
        invariant i <= |events|
        invariant plt.Valid() && plt.Columns == b
        invariant fresh(res) && fresh(prev) && res != prev && res !in plt.Repr && prev !in plt.Repr
        invariant var m := Machine(res.Split(), prev.Split(), lastMessageLength, plt.typeOfDisplay);
                  Sane(m) && PreviewSafe(m, b) && Run(m0, events, b, []) == Run(m, events[i..], b, shown)
      {
        ghost var m := Machine(res.Split(), prev.Split(), lastMessageLength, plt.typeOfDisplay);
        assert events[i..][0] == events[i];
        var out, how;
        prev, out, how := HandleEvent(plt, res, prev, events[i]);
        if how != Continue {
          RunStops(events[i..], b, shown, m);
          outcome := if how == Break then Chose(res.Split()) else Aborted;
          signals := [Redraw, ShowInput(text)] + shown;
          return;
        }
        RunContinues(events[i..], b, shown, m, out, Machine(res.Split(), prev.Split(), lastMessageLength, plt.typeOfDisplay));
        assert events[i..][1..] == events[i + 1..];
        shown := shown + out;
        i := i + 1;
      }
      outcome := Waiting;
      signals := [Redraw, ShowInput(text)] + shown;
    }

    /** One pass of the loop of `think`, for the event `e`. */
    method HandleEvent(plt: Plate, res: Input, prev: Input, e: Event) returns (prev': Input, out: seq<Signal>, how: Next)
      requires plt.Valid() && this !in plt.Repr && res != prev && res !in plt.Repr && prev !in plt.Repr
      requires var m := Machine(res.Split(), prev.Split(), lastMessageLength, plt.typeOfDisplay);
               Sane(m) && PreviewSafe(m, plt.Columns)
      modifies this`lastMessageLength, plt`typeOfDisplay, res
      ensures plt.Valid() && plt.Columns == old(plt.Columns)
      ensures prev' == prev || fresh(prev')
      ensures prev' != res && prev' !in plt.Repr
      ensures var s := Step(Machine(old(res.Split()), old(prev.Split()), old(lastMessageLength), old(plt.typeOfDisplay)), e, plt.Columns);
              s == StepResult(Machine(res.Split(), prev'.Split(), lastMessageLength, plt.typeOfDisplay), out, how)
      ensures PreviewSafe(Machine(res.Split(), prev'.Split(), lastMessageLength, plt.typeOfDisplay), plt.Columns)
    {
      ghost var m := Machine(res.Split(), prev.Split(), lastMessageLength, plt.typeOfDisplay);
      ghost var b := plt.Columns;
      PreviewSafeStep(m, e, b);
      prev', out, how := prev, [], Continue;
      match e
      case NotKey =>
      case Key(code) =>
        var a := ActionOf(code);
        if a == Confirm {
          out, how := ConfirmInput(plt, res, prev);
        } else if a == Quit {
          how := Exit;
        } else {
          ApplyKey(plt, res, a, prev.Split(), lastMessageLength);
          prev', out := ShowAndPreview(plt, res, prev, RedrawFor(a));
        }
    }

    /** The `match keycode` arms that edit the input or switch the view. */
    method ApplyKey(plt: Plate, res: Input, a: KeyAction, ghost prev: Parts, ghost lastLen: nat)
      requires plt.Valid() && res !in plt.Repr && (a.SetDigit? ==> a.d < 4)
      requires Sane(Machine(res.Split(), prev, lastLen, plt.typeOfDisplay))
      modifies res, plt`typeOfDisplay
      ensures plt.Valid() && plt.Columns == old(plt.Columns)
      ensures Machine(res.Split(), prev, lastLen, plt.typeOfDisplay) ==
              Apply(Machine(old(res.Split()), prev, lastLen, old(plt.typeOfDisplay)), a)
    {
      match a
      case SetLetter(l) => res.SetLetter(l);
      case SetDigit(d) =>
        res.SetNumber(d);
        assert d % 0x100 == d;
      case SwitchView => plt.SwitchView();
      case _ =>
    }

    /** Enter: break on an open input, otherwise print why not and remember the message's length. */
    method ConfirmInput(plt: Plate, res: Input, prev: Input) returns (out: seq<Signal>, how: Next)
      requires plt.Valid() && Sane(Machine(res.Split(), prev.Split(), lastMessageLength, plt.typeOfDisplay))
      modifies this`lastMessageLength
      ensures var m := Machine(res.Split(), prev.Split(), old(lastMessageLength), plt.typeOfDisplay);
              Step(m, Key(Enter), plt.Columns) ==
              StepResult(Machine(res.Split(), prev.Split(), lastMessageLength, plt.typeOfDisplay), out, how)
    {
      out, how := [], Continue;
      if !res.IsValid() {
        out := [ShowMessage(BadInputMessage)];
        lastMessageLength := |BadInputMessage|;
      } else if !plt.Playable(res.ToNum()) {
        out := [ShowMessage(FullPillarMessage)];
        lastMessageLength := |FullPillarMessage|;
      } else {
        how := Break;
      }
    }

    /**
     * The end of the loop body: the input is shown again; when it names
     * an open pillar it is previewed, the previous preview is removed if
     * it differs, and the last message is blanked out.
     */
    method ShowAndPreview(plt: Plate, res: Input, prev: Input, redraw: seq<Signal>) returns (prev': Input, out: seq<Signal>)
      requires plt.Valid() && res != prev
      requires var m := Machine(res.Split(), prev.Split(), lastMessageLength, plt.typeOfDisplay);
               Sane(m) && PreviewSafe(m, plt.Columns)
      modifies this`lastMessageLength
      ensures prev' == prev || fresh(prev')
      ensures prev' != res
      ensures var s := Refresh(Machine(res.Split(), old(prev.Split()), old(lastMessageLength), plt.typeOfDisplay), redraw, plt.Columns);
              s.next == Machine(res.Split(), prev'.Split(), lastMessageLength, plt.typeOfDisplay) && s.out == out
    {
      prev' := prev;
      out := redraw + [ShowInput(res.Split().Text())];
      if res.IsValid() && plt.Playable(res.ToNum()) {
        var added := plt.Preview(res.ToNum(), Add);
        assert added == Ok;
        out := out + [PreviewAt(Add, res.ToNum())];
        if prev.IsValid() && res.Split() != prev.Split() {
          var removed := plt.Preview(prev.ToNum(), Remove);
          assert removed == Ok;
          out := out + [PreviewAt(Remove, prev.ToNum())];
        }
        prev' := res.Clone();
        out := out + [ShowMessage(Spaces(lastMessageLength))];
        lastMessageLength := 0;
      }
    }
  }

  /**
   * The choice `RBot::think` makes from its single draw: the input of the
   * drawn pillar if it is open, and `None` if it is full, in which case
   * the loop, which never draws again, spins forever.
   */
  function SingleDrawChoice(b: Board, draw: nat): (r: Option<Parts>)
    requires WellFormed(b) && draw < 16
    ensures r.Some? <==> !Full(b[draw])
    ensures r.Some? ==> Keyed(r.value) && Open(b, r.value) && r.value.ToNum() == draw
  {
    if Full(b[draw]) then None else Some(PartsOfIndex(draw))
  }

  /**
   * `RBot::think` given its draw (`gen_range(0..=15)`). Each pass of the
   * loop builds the input of the same draw again; `fuel` bounds the
   * passes, and `None` is a loop that has not ended.
   */
  method RBotThink(plt: Plate, draw: nat, fuel: nat) returns (res: Option<Parts>)
    requires plt.Valid() && draw < 16
    ensures fuel > 0 ==> res == SingleDrawChoice(plt.Columns, draw)
    ensures fuel == 0 ==> res == None
  {
    var passes := 0;
    while passes < fuel
      invariant passes <= fuel
      invariant passes > 0 ==> Full(plt.Columns[draw])
    {
      var input := Input.FromIndex(draw);
      if plt.Playable(input.ToNum()) {
        return Some(input.Split());
      }
      passes := passes + 1;
    }
    return None;
  }

  /** A plate whose pillar 0 is full while every other pillar is empty. */
  function PillarZeroFull(): (b: Board)
    ensures WellFormed(b) && Full(b[0]) && forall k :: 1 <= k < 16 ==> !Full(b[k])
  {
    EmptyBoard()[0 := Column([P1, P2, P1, P2], 4)]
  }

  /** The single draw can land on a full pillar while others are open: the bot then never plays. */
  lemma SingleDrawCanSpin()
    ensures var b := PillarZeroFull();
            SingleDrawChoice(b, 0) == None && !Full(b[1])
  {
  }

  /**
   * The evident intent: draw again until the drawn pillar is open. The
   * choice is the first open pillar among the draws.
   */
  function ResampledChoice(b: Board, draws: seq<nat>): (r: Option<Parts>)
    requires WellFormed(b) && forall j :: 0 <= j < |draws| ==> draws[j] < 16
    ensures r.Some? ==> Keyed(r.value) && Open(b, r.value) && r.value.ToNum() in draws
    decreases |draws|
  {
    if draws == [] then None
    else if !Full(b[draws[0]]) then Some(PartsOfIndex(draws[0]))
    else ResampledChoice(b, draws[1..])
  }

  /** Resampling plays as soon as one draw lands on an open pillar, and plays the first such draw. */
  lemma {:induction false} ResamplingFindsOpenPillar(b: Board, draws: seq<nat>, j: nat)
    requires WellFormed(b) && forall i :: 0 <= i < |draws| ==> draws[i] < 16
    requires j < |draws| && !Full(b[draws[j]]) && forall i :: 0 <= i < j ==> Full(b[draws[i]])
    ensures ResampledChoice(b, draws) == Some(PartsOfIndex(draws[j]))
    decreases j
  {
    if j > 0 {
      ResamplingFindsOpenPillar(b, draws[1..], j - 1);
    }
  }

  /** On the plate where the single draw spins, resampling plays pillar 1 after drawing 0 then 1. */
  lemma ResamplingEscapesFullPillar()
    ensures ResampledChoice(PillarZeroFull(), [0, 1]) == Some(PartsOfIndex(1))
  {
    ResamplingFindsOpenPillar(PillarZeroFull(), [0, 1], 1);
  }

  /** `RBot::think` as evidently intended: a new draw on each pass of the loop. */
  method RBotThinkResampling(plt: Plate, draws: seq<nat>) returns (res: Option<Parts>)
    requires plt.Valid() && forall j :: 0 <= j < |draws| ==> draws[j] < 16
    ensures res == ResampledChoice(plt.Columns, draws)
  {
    var i := 0;
    while i < |draws|
      invariant i <= |draws|
      invariant ResampledChoice(plt.Columns, draws) == ResampledChoice(plt.Columns, draws[i..])
    {
      assert draws[i..][1..] == draws[i + 1..];
      var input := Input.FromIndex(draws[i]);
      if plt.Playable(input.ToNum()) {
        return Some(input.Split());
      }
      i := i + 1;
    }
    return None;
  }
}
