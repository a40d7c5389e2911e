/** The state-cycle controller: the body of the firmware's main loop. */
module Controller {
  import opened Bytes
  import opened Outputs

  /** A state the selector can hold: 0 (rest, black) through 6 (blue). */
  type State = n: Byte | n <= 6

  /** The state at boot. */
  const Rest: State := 0

  /** One sample of the two button inputs: the levels `is_high()` returns for
      button A and button B. Reading high as "held" assumes the buttons drive
      their pulled-up lines high; the selector's logic only compares the levels. */
  datatype Buttons = Buttons(a: bool, b: bool) {
    /** Exactly one button is held: only such a tick moves the selector. */
    predicate Qualifying() { a != b }
  }

  /** Button A alone: "next". */
  const NextPress := Buttons(true, false)
  /** Button B alone: "previous". */
  const PreviousPress := Buttons(false, true)

  /** Reference definition of one tick: an ambiguous sample keeps the state,
      "next" adds one modulo 7 and "previous" subtracts one modulo 7. */
  function Successor(s: State, p: Buttons): State
  {
    if !p.Qualifying() then s
    else if p.a then ((s as int + 1) % 7) as Byte
    else ((s as int - 1) % 7) as Byte
  }

  /** The state after a finite run of ticks. */
  function Run(s: State, inputs: seq<Buttons>): State
    decreases |inputs|
  {
    if inputs == [] then s else Run(Successor(s, inputs[0]), inputs[1..])
  }

  /** How many ticks of a run push fresh values to the LED and the display. */
  function RefreshCount(inputs: seq<Buttons>): (k: nat)
    ensures k <= |inputs|
  {
    if inputs == [] then 0
    else RefreshCount(inputs[..|inputs| - 1]) + (if inputs[|inputs| - 1].Qualifying() then 1 else 0)
  }

  /** `k` identical samples in a row. */
  function Repeat(p: Buttons, k: nat): (r: seq<Buttons>)
    ensures |r| == k
    ensures forall i :: 0 <= i < k ==> r[i] == p
  {
    if k == 0 then [] else [p] + Repeat(p, k - 1)
  }

  /** Every qualifying tick moves to a different state, and so to a different
      LED colour and a different label. */
  lemma QualifyingTickMoves(s: State, p: Buttons)
    requires p.Qualifying()
    ensures Successor(s, p) != s
    ensures Led(Successor(s, p)) != Led(s)
    ensures Label(Successor(s, p)) != Label(s)
  {
  }

  /** "Next" then "previous", or "previous" then "next", returns to the start. */
  lemma NextPreviousCancel(s: State)
    ensures Successor(Successor(s, NextPress), PreviousPress) == s
    ensures Successor(Successor(s, PreviousPress), NextPress) == s
  {
  }

  /** Running two runs back to back is running their concatenation. */
  lemma {:induction false} RunAppend(s: State, xs: seq<Buttons>, ys: seq<Buttons>)
    ensures Run(s, xs + ys) == Run(Run(s, xs), ys)
    decreases |xs|
  {
    if xs != [] {
      assert (xs + ys)[0] == xs[0] && (xs + ys)[1..] == xs[1..] + ys;
      RunAppend(Successor(s, xs[0]), xs[1..], ys);
    } else {
      assert xs + ys == ys;
    }
  }

  /** A run of ambiguous samples (both or neither button held) never moves the selector. */
  lemma {:induction false} AmbiguousRunIdles(s: State, inputs: seq<Buttons>)
    requires forall i :: 0 <= i < |inputs| ==> !inputs[i].Qualifying()
    ensures Run(s, inputs) == s
    ensures RefreshCount(inputs) == 0
    decreases |inputs|
  {
    if inputs != [] {
      AmbiguousRunIdles(s, inputs[1..]);
      AmbiguousRunIdles(s, inputs[..|inputs| - 1]);
    }
  }

  /** `k` presses of "next" add `k` modulo 7. */
  lemma {:induction false} RunNexts(s: State, k: nat)
    ensures Run(s, Repeat(NextPress, k)) as int == (s as int + k) % 7
    decreases k
  {
    if k > 0 {
      assert Repeat(NextPress, k)[1..] == Repeat(NextPress, k - 1);
      RunNexts(Successor(s, NextPress), k - 1);
    }
  }

  /** `k` presses of "previous" subtract `k` modulo 7. */
  lemma {:induction false} RunPreviouses(s: State, k: nat)
    ensures Run(s, Repeat(PreviousPress, k)) as int == (s as int - k) % 7
    decreases k
  {
    if k > 0 {
      assert Repeat(PreviousPress, k)[1..] == Repeat(PreviousPress, k - 1);
      RunPreviouses(Successor(s, PreviousPress), k - 1);
    }
  }

  /** Seven presses of either button return to the starting state. */
  lemma SevenPressesReturn(s: State)
    ensures Run(s, Repeat(NextPress, 7)) == s
    ensures Run(s, Repeat(PreviousPress, 7)) == s
  {
    RunNexts(s, 7);
    RunPreviouses(s, 7);
  }

  /** From boot, "next" pressed 1 to 6 times reaches states 1 to 6 (red to blue);
      a seventh press wraps to black; one "previous" from boot gives blue. */
  lemma BootSequence()
    ensures forall k :: 1 <= k <= 6 ==> Run(Rest, Repeat(NextPress, k)) as int == k
    ensures Run(Rest, Repeat(NextPress, 7)) == Rest
    ensures Run(Rest, Repeat(PreviousPress, 1)) == 6
    ensures Label(Run(Rest, Repeat(NextPress, 1))) == "red"
    ensures Led(Run(Rest, Repeat(NextPress, 1))) == Rgb(true, false, false)
  {
    forall k | 1 <= k <= 6
      ensures Run(Rest, Repeat(NextPress, k)) as int == k
    {
      RunNexts(Rest, k);
    }
    RunNexts(Rest, 7);
    RunNexts(Rest, 1);
    RunPreviouses(Rest, 1);
  }

  /** The selector: the counter `i` of the main loop together with the levels
      last written to the LED pins and the name last drawn on the display. */
  class Selector {
    var state: Byte
    var led: Rgb
    var screen: string

    /** The counter is a state, and both outputs show it. */
    ghost predicate Valid()
      reads this
    {
      state <= 6 && led == Led(state) && screen == Label(state)
    }

    /** Boot: the counter starts at 0 and both outputs are pushed once. */
    constructor ()
      ensures Valid()
      ensures state == Rest && led == Dark && screen == "black"
    {
      state := 0;
      led := Led(0);
      screen := Label(0);
    }

    /** One pass of the main loop on one sample of the buttons. */
    method Tick(p: Buttons) returns (refreshed: bool)
      requires Valid()
      modifies this
      ensures Valid()
      ensures state == Successor(old(state), p)
      ensures refreshed == p.Qualifying()
      ensures !refreshed ==> led == old(led) && screen == old(screen)
    {
      if p.a == p.b {
        return false;
      }
      if p.a {
        state := state + 1;
      }
      if p.b {
        if state == 0 {
          state := 6;
        } else {
          state := state - 1;
        }
      }
      if state > 6 {
        state := 0;
      }
      led := Led(state);
      screen := Label(state);
      refreshed := true;
    }

    /** The main loop over a finite run of samples; returns how many ticks
        pushed fresh outputs. */
    method RunTicks(inputs: seq<Buttons>) returns (refreshes: nat)
      requires Valid()
      modifies this
      ensures Valid()
      ensures state == Run(old(state), inputs)
      ensures refreshes == RefreshCount(inputs)
    {
      refreshes := 0;
      var k := 0;
      while k < |inputs|
        invariant 0 <= k <= |inputs|
        invariant Valid()
        invariant Run(old(state), inputs) == Run(state, inputs[k..])
        invariant refreshes == RefreshCount(inputs[..k])
      {
        var refreshed := Tick(inputs[k]);
        if refreshed {
          refreshes := refreshes + 1;
        }
        assert inputs[..k + 1][..k] == inputs[..k];
        k := k + 1;
      }
      assert inputs[..k] == inputs;
    }
  }
}
