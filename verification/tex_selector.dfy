/** The debug texture-id selector of the test-shader path: the D-pad's Left and Right step the
    selected texture id down and up, once per press, and once per frame while a button is
    held for longer than the hold delay. */
module TexSelector {

  /** The id the selector starts at. */
  const InitialId: int := 256

  /** Frames a button must be held before the id starts repeating. */
  const HoldDelay: nat := 30

  /** What the input helper reports for one button in one frame: newly pressed (checked
      first), held down, or neither. */
  datatype Button = Released | Pressed | Held

  /** The inputs read in one frame. */
  datatype Input = Input(left: Button, right: Button)

  /** The three function-local statics: the selected id and the two hold counters. */
  datatype Selector = Selector(curId: int, downCounter: nat, upCounter: nat)

  const Start: Selector := Selector(InitialId, 0, 0)

  /** One button's effect: the step it contributes and its hold counter afterwards. A press
      steps and keeps the counter, a hold counts and steps once past the delay, a release
      resets the counter. */
  datatype Effect = Effect(steps: bool, counter: nat)

  function Press(b: Button, counter: nat): (e: Effect)
    ensures e.steps <==> b == Pressed || (b == Held && counter + 1 > HoldDelay)
    ensures b == Released ==> e.counter == 0
    ensures b == Held ==> e.counter == counter + 1
    ensures b == Pressed ==> e.counter == counter
  {
    match b
    case Pressed => Effect(true, counter)
    case Held => Effect(counter + 1 > HoldDelay, counter + 1)
    case Released => Effect(false, 0)
  }

  /** `texIDSelector`, one frame: Left is handled before Right, each on its own counter. */
  function Step(s: Selector, input: Input): (s': Selector)
    ensures s'.curId - s.curId
            == (if Press(input.right, s.upCounter).steps then 1 else 0)
               - (if Press(input.left, s.downCounter).steps then 1 else 0)
    ensures -1 <= s'.curId - s.curId <= 1
    ensures input.left == Released ==> s'.downCounter == 0
    ensures input.right == Released ==> s'.upCounter == 0
    ensures input.left == Held ==> s'.downCounter == s.downCounter + 1
    ensures input.right == Held ==> s'.upCounter == s.upCounter + 1
  {
    var l := Press(input.left, s.downCounter);
    var afterLeft := if l.steps then s.curId - 1 else s.curId;
    var r := Press(input.right, s.upCounter);
    var afterRight := if r.steps then afterLeft + 1 else afterLeft;
    Selector(afterRight, l.counter, r.counter)
  }

  /** The selector after a sequence of frames. */
  function Run(s: Selector, inputs: seq<Input>): Selector
    decreases |inputs|
  {
    if |inputs| == 0 then s else Run(Step(s, inputs[0]), inputs[1..])
  }

  function HoldingLeft(n: nat): (inputs: seq<Input>)
    ensures |inputs| == n && forall k :: 0 <= k < n ==> inputs[k] == Input(Held, Released)
  {
    seq(n, k => Input(Held, Released))
  }

  function Max0(x: int): nat {
    if x < 0 then 0 else x
  }

  /** Holding Left for `n` frames, with `s.downCounter` frames already counted, lowers the id
      once for every frame whose count passes the delay. */
  lemma {:induction false} HoldLeftRepeats(s: Selector, n: nat)
    ensures var t := Run(s, HoldingLeft(n));
            && t.curId == s.curId - (Max0(s.downCounter + n - HoldDelay) - Max0(s.downCounter - HoldDelay))
            && t.downCounter == s.downCounter + n
            && t.upCounter == if n == 0 then s.upCounter else 0
    decreases n
  {
    if n > 0 {
      var s1 := Step(s, Input(Held, Released));
      assert HoldingLeft(n)[1..] == HoldingLeft(n - 1);
      HoldLeftRepeats(s1, n - 1);
    }
  }

  /** From a fresh counter, the first `HoldDelay` frames of holding do nothing and every
      later frame steps once. */
  lemma HoldLeftFromRest(s: Selector, n: nat)
    requires s.downCounter == 0
    ensures Run(s, HoldingLeft(n)).curId == s.curId - Max0(n - HoldDelay)
  {
    HoldLeftRepeats(s, n);
  }

  /** A press of both buttons in the same frame leaves the id where it was. */
  lemma BothPressedCancel(s: Selector)
    ensures Step(s, Input(Pressed, Pressed)) == s
  {
  }
}
