/**
 * The glitch-text hover effect: on mouse-enter a 30 ms interval rewrites the
 * displayed string, revealing a growing prefix of the original text and
 * scrambling the rest, until the whole original text is back.
 *
 * The interval is an explicit `Tick` event, `Math.random()` is a sequence of
 * draws in [0, 1), one per character, and the fractional counter
 * `iterations` (which grows by 1/3 per tick) is `Iterations(ticks)`, an exact
 * rational.
 */
module GlitchTextEffect {

  /** The characters a scrambled position is drawn from. */
  const Alphabet: string := "ABCDEFGHIJKLMNOPQRSTUVWXYZ0123456789!@#$%^&*"

  /** Every draw lies in [0, 1), the range of `Math.random()`. */
  predicate ValidDraws(draws: seq<real>) {
    forall i :: 0 <= i < |draws| ==> 0.0 <= draws[i] < 1.0
  }

  /** One list of draws per tick, each as long as the text. */
  predicate ValidTickDraws(original: string, draws: seq<seq<real>>) {
    forall t :: 0 <= t < |draws| ==> |draws[t]| == |original| && ValidDraws(draws[t])
  }

  /** `Math.floor(Math.random() * chars.length)`: the alphabet index a draw selects. */
  function PickIndex(draw: real): (j: nat)
    requires 0.0 <= draw < 1.0
    ensures j < |Alphabet|
  {
    (draw * (|Alphabet| as real)).Floor
  }

  /** The interval's `iterations` counter after `k` ticks: 0 at first, 1/3 more per tick. */
  function Iterations(k: nat): real {
    k as real / 3.0
  }

  /** Position `i` is solved at counter `Iterations(k)` exactly when `3 * i < k`. */
  lemma SolvedIff(i: nat, k: nat)
    ensures (i as real) < Iterations(k) <==> 3 * i < k
  {
  }

  /** The stop test `iterations >= length` first holds at tick `3 * length`. */
  lemma StopIff(n: nat, k: nat)
    ensures Iterations(k) >= n as real <==> k >= 3 * n
  {
  }

  /**
   * One rewrite of the displayed text: the text is mapped character by
   * character, position `i` taking the original character when
   * `i < Iterations(k)` and otherwise the alphabet character its draw selects.
   */
  function Scramble(prev: string, original: string, k: nat, draws: seq<real>): (r: string)
    requires |prev| == |original| && |draws| == |prev| && ValidDraws(draws)
    ensures |r| == |prev|
    ensures forall i :: 0 <= i < |r| && 3 * i < k ==> r[i] == original[i]
    ensures forall i :: 0 <= i < |r| && 3 * i >= k ==> r[i] == Alphabet[PickIndex(draws[i])]
    ensures forall i :: 0 <= i < |r| ==> r[i] == original[i] || r[i] in Alphabet
  {
    seq(|prev|, i requires 0 <= i < |prev| =>
      if (i as real) < Iterations(k) then original[i] else Alphabet[PickIndex(draws[i])])
  }

  /**
   * The component's state: the displayed `text`, the `isGlitching` flag, and
   * `ticks`, the number of times the running interval has fired (so its
   * counter is `Iterations(ticks)`); `ticks` is 0 while idle.
   */
  datatype Session = Session(text: string, isGlitching: bool, ticks: nat)

  /** The state before any hover: the original text, not glitching. */
  function Idle(original: string): Session {
    Session(original, false, 0)
  }

  /**
   * Mouse-enter: ignored while glitching; otherwise sets the flag and starts
   * an interval whose counter begins at 0.
   */
  function Enter(s: Session): Session {
    if s.isGlitching then s else s.(isGlitching := true, ticks := 0)
  }

  /**
   * One firing of the interval: rewrite the text at the current counter; if
   * the counter has reached the text's length, clear the interval and the
   * flag, otherwise advance the counter. With no interval running nothing
   * fires.
   */
  function Tick(original: string, s: Session, draws: seq<real>): (r: Session)
    requires |s.text| == |original| && |draws| == |s.text| && ValidDraws(draws)
    ensures |r.text| == |s.text|
    ensures !s.isGlitching ==> r == s
  {
    if !s.isGlitching then s
    else
      var text := Scramble(s.text, original, s.ticks, draws);
      if Iterations(s.ticks) >= |original| as real then Session(text, false, 0)
      else Session(text, true, s.ticks + 1)
  }

  /** The state after the interval has fired once per element of `draws`. */
  function Run(original: string, s: Session, draws: seq<seq<real>>): (r: Session)
    requires |s.text| == |original| && ValidTickDraws(original, draws)
    ensures |r.text| == |original|
    decreases |draws|
  {
    if draws == [] then s
    else Run(original, Tick(original, s, draws[0]), draws[1..])
  }

  /**
   * What holds between events: the text keeps the original's length; while
   * idle it is the original text; while glitching the counter has not passed
   * the stopping tick, the positions solved by the last tick hold their
   * original characters, and every position holds its original character or
   * an alphabet character.
   */
  predicate Inv(original: string, s: Session) {
    && |s.text| == |original|
    && (!s.isGlitching ==> s.text == original && s.ticks == 0)
    && (s.isGlitching ==> s.ticks <= 3 * |original|)
    && (forall i :: 0 <= i < |s.text| && 3 * i + 1 < s.ticks ==> s.text[i] == original[i])
    && (forall i :: 0 <= i < |s.text| ==> s.text[i] == original[i] || s.text[i] in Alphabet)
  }

  lemma EnterPreservesInv(original: string, s: Session)
    requires Inv(original, s)
    ensures Inv(original, Enter(s))
    ensures s.isGlitching ==> Enter(s) == s
    ensures !s.isGlitching ==> Enter(s) == Session(original, true, 0)
  {
  }

  /**
   * A tick keeps the invariant; the tick at counter `3 * |original|` is the
   * one that stops the session, and it leaves exactly the original text.
   */
  lemma TickPreservesInv(original: string, s: Session, draws: seq<real>)
    requires Inv(original, s) && |draws| == |s.text| && ValidDraws(draws)
    ensures Inv(original, Tick(original, s, draws))
    ensures s.isGlitching ==>
      (!Tick(original, s, draws).isGlitching <==> s.ticks == 3 * |original|)
  {
    if s.isGlitching {
      StopIff(|original|, s.ticks);
      var text := Scramble(s.text, original, s.ticks, draws);
      if s.ticks == 3 * |original| {
        assert forall i :: 0 <= i < |text| ==> text[i] == original[i];
        assert text == original;
      }
    }
  }

  /** Once idle, further ticks change nothing. */
  lemma {:induction false} RunIdle(original: string, s: Session, draws: seq<seq<real>>)
    requires |s.text| == |original| && ValidTickDraws(original, draws)
    requires !s.isGlitching
    ensures Run(original, s, draws) == s
    decreases |draws|
  {
    if draws != [] {
      RunIdle(original, Tick(original, s, draws[0]), draws[1..]);
    }
  }

  /**
   * From a glitching state with counter `ticks`, the interval keeps running
   * while fewer than `3 * |original| + 1 - ticks` ticks have fired, and after
   * that many it has stopped with the original text displayed.
   */
  lemma {:induction false} RunGlitching(original: string, s: Session, draws: seq<seq<real>>)
    requires Inv(original, s) && s.isGlitching && ValidTickDraws(original, draws)
    ensures s.ticks + |draws| <= 3 * |original| ==>
      Run(original, s, draws).isGlitching && Run(original, s, draws).ticks == s.ticks + |draws|
    ensures s.ticks + |draws| > 3 * |original| ==> Run(original, s, draws) == Idle(original)
    decreases |draws|
  {
    if draws != [] {
      var next := Tick(original, s, draws[0]);
      TickPreservesInv(original, s, draws[0]);
      if next.isGlitching {
        RunGlitching(original, next, draws[1..]);
      } else {
        RunIdle(original, next, draws[1..]);
      }
    }
  }

  /**
   * A hover on the idle component starts a session that is still glitching
   * after any of its first `3 * N` ticks and is over, showing exactly the
   * original text, from tick `3 * N + 1` on (`N` the text's length; an empty
   * text stops on its first tick).
   */
  lemma GlitchSessionEnds(original: string, draws: seq<seq<real>>)
    requires ValidTickDraws(original, draws)
    ensures |draws| <= 3 * |original| ==> Run(original, Enter(Idle(original)), draws).isGlitching
    ensures |draws| >= 3 * |original| + 1 ==>
      Run(original, Enter(Idle(original)), draws) == Idle(original)
  {
    RunGlitching(original, Enter(Idle(original)), draws);
  }

  /** The `GlitchText` component: its text prop is fixed for the component's life. */
  class GlitchText {
    const original: string
    var text: string
    var isGlitching: bool
    var ticks: nat

    function State(): Session
      reads this
    {
      Session(text, isGlitching, ticks)
    }

    ghost predicate Valid()
      reads this
    {
      Inv(original, State())
    }

    /** `useState(children)` and `useState(false)`. */
    constructor (children: string)
      ensures Valid() && original == children && State() == Idle(children)
    {
      original := children;
      text := children;
      isGlitching := false;
      ticks := 0;
    }

    /** `handleMouseEnter`. */
    method MouseEnter()
      requires Valid()
      modifies this
      ensures Valid() && State() == Enter(old(State()))
    {
      EnterPreservesInv(original, State());
      if !isGlitching {
        isGlitching := true;
        ticks := 0;
      }
    }

    /** One firing of the interval, with one draw per displayed character. */
    method IntervalTick(draws: seq<real>)
      requires Valid() && |draws| == |text| && ValidDraws(draws)
      modifies this
      ensures Valid() && State() == Tick(original, old(State()), draws)
    {
      TickPreservesInv(original, State(), draws);
      if isGlitching {
        text := Scramble(text, original, ticks, draws);
        if Iterations(ticks) >= |original| as real {
          isGlitching := false;
          ticks := 0;
        } else {
          ticks := ticks + 1;
        }
      }
    }
  }
}
