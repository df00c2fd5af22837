/**
 * One round of the matching game: hand slots bound to click handlers, a problem
 * card copied from a randomly chosen slot, and a countdown that judges the round
 * incorrect when it runs out.
 *
 * Time is counted in whole milliseconds. The countdown is first stated as
 * functions (`Tick` for one frame, `Run` for a sequence of frames); the class
 * `GameManager` holds the scene's fields and its methods are proved against them.
 */
module Game {

  /** A sprite, named by its resource path. */
  type Sprite = string

  /** The round's time limit: 10 seconds. */
  const DefaultTimeLimit := 10000

  // ---------------------------------------------------------------------------
  // The countdown
  // ---------------------------------------------------------------------------

  /** The countdown's state: time left and whether it is counting. */
  datatype Timer = Timer(remaining: int, running: bool)

  /** The state `StartTimer` leaves: the full limit, counting. */
  function Started(limit: int): Timer
  {
    Timer(limit, true)
  }

  /**
   * One frame of `Update` with `delta` milliseconds elapsed: the new state and
   * whether `OnTimeUp` fired in this frame.
   */
  function Tick(t: Timer, delta: nat): (r: (Timer, bool))
    ensures !t.running ==> r == (t, false)
    ensures t.running ==> r.0.remaining == t.remaining - delta
    ensures r.1 <==> t.running && !r.0.running
    ensures r.1 <==> t.running && t.remaining - delta <= 0
  {
    if !t.running then (t, false)
    else
      var remaining := t.remaining - delta;
      if remaining <= 0 then (Timer(remaining, false), true) else (Timer(remaining, true), false)
  }

  /** Total of some frame times. */
  function Sum(deltas: seq<nat>): nat
  {
    if deltas == [] then 0 else Sum(deltas[..|deltas| - 1]) + deltas[|deltas| - 1]
  }

  /**
   * The frames `deltas`, one `Tick` each, from `t`: the final state and how many
   * times `OnTimeUp` fired. It fires at most once, exactly when a counting timer
   * stops, and a stopped timer stays as it is.
   */
  function Run(t: Timer, deltas: seq<nat>): (r: (Timer, nat))
    ensures r.1 <= 1
    ensures r.1 == 1 <==> t.running && !r.0.running
    ensures !t.running ==> r == (t, 0)
  {
    if deltas == [] then (t, 0)
    else
      var before := Run(t, deltas[..|deltas| - 1]);
      var after := Tick(before.0, deltas[|deltas| - 1]);
      (after.0, before.1 + if after.1 then 1 else 0)
  }

  /** Running two blocks of frames is running the first and then the second from where it ended. */
  lemma {:induction false} RunAppend(t: Timer, a: seq<nat>, b: seq<nat>)
    ensures Run(t, a + b) == (Run(Run(t, a).0, b).0, Run(t, a).1 + Run(Run(t, a).0, b).1)
    decreases |b|
  {
    if b == [] {
      assert a + b == a;
    } else {
      var front := b[..|b| - 1];
      RunAppend(t, a, front);
      assert (a + b)[..|a + b| - 1] == a + front;
      assert (a + b)[|a + b| - 1] == b[|b| - 1];
    }
  }

  /** Once time is up, later frames change nothing and fire nothing until the timer is started again. */
  lemma TimeUpIsFinal(t: Timer, a: seq<nat>, b: seq<nat>)
    requires Run(t, a).1 == 1
    ensures Run(t, a + b) == Run(t, a)
  {
    RunAppend(t, a, b);
  }

  /**
   * From `StartTimer` with limit `limit`: time is up (once) exactly when at least
   * one frame has run and the frames add up to the limit or more; until then the
   * timer is still counting, with exactly the elapsed time taken off.
   */
  lemma {:induction false} RunFromStart(limit: int, deltas: seq<nat>)
    ensures Run(Started(limit), deltas).1 == 1 <==> |deltas| > 0 && Sum(deltas) >= limit
    ensures Run(Started(limit), deltas).1 == 0 ==> Run(Started(limit), deltas).0 == Timer(limit - Sum(deltas), true)
  {
    if deltas != [] {
      var front := deltas[..|deltas| - 1];
      RunFromStart(limit, front);
    }
  }

  // ---------------------------------------------------------------------------
  // The random choice of the correct slot
  // ---------------------------------------------------------------------------

  /**
   * Unity's `Random.Range(min, max)` on integers with `min <= max`, the random
   * draw `roll` being an input: a value in `[min, max)`, or `min` when `min == max`.
   */
  function RandomRange(min: int, max: int, roll: nat): (r: int)
    requires min <= max
    ensures min < max ==> min <= r < max
    ensures max == min ==> r == min
  {
    if min < max then min + roll % (max - min) else min
  }

  /** Every value of the range is the outcome of some draw. */
  lemma RandomRangeReachesAll(min: int, max: int, v: int)
    requires min <= v < max
    ensures RandomRange(min, max, v - min) == v
  {
    var width := max - min;
    var d: nat := v - min;
    assert d < width;
    assert d % width == d;
  }

  // ---------------------------------------------------------------------------
  // The scene object
  // ---------------------------------------------------------------------------

  /** A hand slot: its sprite and its button's listeners, each the index it reports to `OnCardClicked`. */
  datatype HandCard = HandCard(sprite: Sprite, listeners: seq<nat>)

  class GameManager {
    const handCards: array<HandCard>
    var problemSprite: Sprite
    var resultPanelActive: bool
    var choicePanelActive: bool
    var timerTextActive: bool
    var correctIndex: int
    var timeLimit: int
    var remainingTime: int
    var isTimeRunning: bool
    /** The judgments shown so far, oldest first (`false` is incorrect). */
    var results: seq<bool>

    /** The countdown's state in this object. */
    function TimerState(): Timer
      reads this
    {
      Timer(remainingTime, isTimeRunning)
    }

    /** A scene object with the given hand slots and the fields' initial values. */
    constructor (slots: seq<HandCard>)
      ensures fresh(handCards) && handCards[..] == slots
      ensures timeLimit == DefaultTimeLimit && !isTimeRunning && remainingTime == 0 && correctIndex == 0
      ensures results == []
    {
      handCards := new HandCard[|slots|](i requires 0 <= i < |slots| => slots[i]);
      problemSprite := "";
      resultPanelActive, choicePanelActive, timerTextActive := false, false, false;
      correctIndex := 0;
      timeLimit := DefaultTimeLimit;
      remainingTime := 0;
      isTimeRunning := false;
      results := [];
    }

    /** Sets up a round: panels hidden, timer text shown, hand and problem set, timer started. */
    method StartGame(sprites: seq<Sprite>, roll: nat)
      requires |sprites| == handCards.Length && handCards.Length > 0
      modifies this, handCards
      ensures !resultPanelActive && !choicePanelActive && timerTextActive
      ensures forall i :: 0 <= i < handCards.Length ==> handCards[i] == HandCard(sprites[i], [i])
      ensures 0 <= correctIndex < handCards.Length && correctIndex == RandomRange(0, handCards.Length, roll)
      ensures problemSprite == sprites[correctIndex]
      ensures TimerState() == Started(timeLimit) && timeLimit == old(timeLimit)
      ensures results == old(results)
    {
      resultPanelActive := false;
      choicePanelActive := false;
      timerTextActive := true;
      SetHandCards(sprites);
      SetProblemCard(roll);
      StartTimer();
    }

    /** Gives slot `i` the sprite `sprites[i]` and exactly one listener, which reports `i`. */
    method SetHandCards(sprites: seq<Sprite>)
      requires |sprites| == handCards.Length
      modifies handCards
      ensures forall i :: 0 <= i < handCards.Length ==> handCards[i] == HandCard(sprites[i], [i])
    {
      for i := 0 to handCards.Length
        invariant forall j :: 0 <= j < i ==> handCards[j] == HandCard(sprites[j], [j])
      {
        handCards[i] := handCards[i].(sprite := sprites[i]);
        var index := i;
        handCards[i] := handCards[i].(listeners := []);
        handCards[i] := handCards[i].(listeners := handCards[i].listeners + [index]);
      }
    }

    /** Picks the correct slot at random and shows its sprite as the problem. */
    method SetProblemCard(roll: nat)
      requires handCards.Length > 0
      modifies this`correctIndex, this`problemSprite
      ensures 0 <= correctIndex < handCards.Length && correctIndex == RandomRange(0, handCards.Length, roll)
      ensures problemSprite == handCards[correctIndex].sprite
    {
      correctIndex := RandomRange(0, handCards.Length, roll);
      problemSprite := handCards[correctIndex].sprite;
    }

    /** Restarts the countdown from the full limit. */
    method StartTimer()
      modifies this`remainingTime, this`isTimeRunning
      ensures TimerState() == Started(timeLimit)
    {
      remainingTime := timeLimit;
      isTimeRunning := true;
    }

    /** One frame with `delta` milliseconds elapsed. */
    method Update(delta: nat)
      modifies this`remainingTime, this`isTimeRunning, this`timerTextActive, this`results
      ensures TimerState() == Tick(old(TimerState()), delta).0
      ensures results == old(results) + (if Tick(old(TimerState()), delta).1 then [false] else [])
      ensures timerTextActive == (if Tick(old(TimerState()), delta).1 then false else old(timerTextActive))
    {
      if isTimeRunning {
        remainingTime := remainingTime - delta;
        if remainingTime <= 0 {
          isTimeRunning := false;
          OnTimeUp();
        }
      }
    }

    /** Time is up: the timer text is hidden and the round is judged incorrect. */
    method OnTimeUp()
      modifies this`timerTextActive, this`results
      ensures !timerTextActive && results == old(results) + [false]
    {
      timerTextActive := false;
      results := results + [false];
    }

    /** The frames `deltas`, one `Update` each. */
    method RunFrames(deltas: seq<nat>)
      modifies this`remainingTime, this`isTimeRunning, this`timerTextActive, this`results
      ensures TimerState() == Run(old(TimerState()), deltas).0
      ensures results == old(results) + (if Run(old(TimerState()), deltas).1 == 1 then [false] else [])
      ensures timerTextActive == (if Run(old(TimerState()), deltas).1 == 1 then false else old(timerTextActive))
    {
      for k := 0 to |deltas|
        invariant TimerState() == Run(old(TimerState()), deltas[..k]).0
        invariant results == old(results) + (if Run(old(TimerState()), deltas[..k]).1 == 1 then [false] else [])
        invariant timerTextActive == (if Run(old(TimerState()), deltas[..k]).1 == 1 then false else old(timerTextActive))
      {
        assert deltas[..k + 1][..k] == deltas[..k];
        Update(deltas[k]);
      }
      assert deltas[..|deltas|] == deltas;
    }
  }
}
