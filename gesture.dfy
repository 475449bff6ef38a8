/** The touch rule of FaceView: how a vertical drag turns into a change of
    happiness, and how that change is saturated to the range [0, 100]. The
    functions here specify the FaceView methods that update the fields
    `happiness` and `y1`. */
module Gesture {
  import opened JavaMath

  /** Pixels of vertical drag per unit of happiness. */
  const HappinessGestureScale: real := 4.0

  /** The range that `changeHappiness` saturates to. */
  predicate InRange(happiness: real) {
    0.0 <= happiness <= 100.0
  }

  /** `Math.min(Math.max(v, 0), 100)`: the value itself when it is in range,
      otherwise the bound it overshoots. */
  function Saturate(v: real): (r: real)
    ensures InRange(r)
    ensures InRange(v) ==> r == v
    ensures v < 0.0 ==> r == 0.0
    ensures v > 100.0 ==> r == 100.0
  {
    Min(Max(v, 0.0), 100.0)
  }

  /** The masked action of a motion event, as far as the view tells them apart. */
  datatype Action = Down | Move | Other

  /** A motion event: its masked action and its y coordinate. */
  datatype TouchEvent = TouchEvent(action: Action, y: real)

  /** The part of a FaceView that the touch rule reads and writes. */
  datatype TouchState = TouchState(happiness: real, y1: real)

  /** The happiness change of a move from `y1` to `y`: dragging up (a smaller
      y) is positive, dragging down negative, one unit per four pixels. */
  function MoveDelta(y1: real, y: real): (d: real)
    ensures d > 0.0 <==> y < y1
    ensures d < 0.0 <==> y > y1
    ensures d * HappinessGestureScale == y1 - y
  {
    -(y - y1) / HappinessGestureScale
  }

  /** The effect of one motion event on the touch state. There is no explicit
      dragging state: a MOVE is applied whenever it arrives, measured from
      whatever `y1` holds. */
  function Touch(s: TouchState, e: TouchEvent): (t: TouchState)
    ensures e.action == Down ==> t.happiness == s.happiness && t.y1 == e.y
    ensures e.action == Other ==> t == s
    ensures e.action == Move ==> t.y1 == e.y
    ensures e.action == Move && e.y == s.y1 ==> t.happiness == s.happiness
    ensures e.action == Move && e.y != s.y1 ==> t.happiness == Saturate(s.happiness + MoveDelta(s.y1, e.y))
    // What the saturation above implies, spelled out:
    ensures e.action == Move && e.y != s.y1 ==>
              InRange(t.happiness) &&
              (InRange(s.happiness + MoveDelta(s.y1, e.y)) ==> t.happiness == s.happiness + MoveDelta(s.y1, e.y))
  {
    match e.action
    case Down => TouchState(s.happiness, e.y)
    case Move =>
      var deltaY := MoveDelta(s.y1, e.y);
      if deltaY != 0.0 then TouchState(Saturate(s.happiness + deltaY), e.y)
      else TouchState(s.happiness, e.y)
    case Other => s
  }

  /** A move is monotone: dragging up never lowers happiness below where it
      was (or 100, if it was above range), dragging down never raises it above
      where it was (or 0, if it was below range). */
  lemma MoveIsMonotone(s: TouchState, y: real)
    ensures y < s.y1 ==> Touch(s, TouchEvent(Move, y)).happiness >= Min(s.happiness, 100.0)
    ensures y > s.y1 ==> Touch(s, TouchEvent(Move, y)).happiness <= Max(s.happiness, 0.0)
    ensures InRange(s.happiness) && y < s.y1 ==> Touch(s, TouchEvent(Move, y)).happiness >= s.happiness
    ensures InRange(s.happiness) && y > s.y1 ==> Touch(s, TouchEvent(Move, y)).happiness <= s.happiness
  {
  }

  /** Because setHappiness does not clamp, an upward drag can LOWER happiness
      that was set above 100: it saturates straight back to 100. */
  lemma UpwardDragAboveRangeLowers()
    ensures Touch(TouchState(150.0, 100.0), TouchEvent(Move, 92.0)).happiness == 100.0
  {
  }

  /** The state after a sequence of motion events, delivered in order. */
  function Replay(s: TouchState, events: seq<TouchEvent>): TouchState
    decreases |events|
  {
    if events == [] then s
    else Touch(Replay(s, events[..|events| - 1]), events[|events| - 1])
  }

  /** The y of the last DOWN or MOVE among `events`, if there is one. */
  function LastY(y1: real, events: seq<TouchEvent>): real
    decreases |events|
  {
    if events == [] then y1
    else if events[|events| - 1].action == Other then LastY(y1, events[..|events| - 1])
    else events[|events| - 1].y
  }

  /** Delivering `a` then `b` is delivering `a + b`. */
  lemma {:induction false} ReplayAppend(s: TouchState, a: seq<TouchEvent>, b: seq<TouchEvent>)
    ensures Replay(s, a + b) == Replay(Replay(s, a), b)
    decreases |b|
  {
    if b == [] {
      assert a + b == a;
    } else {
      var n := |b| - 1;
      assert (a + b)[..|a + b| - 1] == a + b[..n];
      assert (a + b)[|a + b| - 1] == b[n];
      ReplayAppend(s, a, b[..n]);
    }
  }

  /** `y1` always holds the y of the most recent DOWN or MOVE. */
  lemma {:induction false} ReplayTracksLastY(s: TouchState, events: seq<TouchEvent>)
    ensures Replay(s, events).y1 == LastY(s.y1, events)
    decreases |events|
  {
    if events != [] {
      ReplayTracksLastY(s, events[..|events| - 1]);
    }
  }

  /** Once happiness is in [0, 100], no sequence of motion events takes it out. */
  lemma {:induction false} ReplayStaysInRange(s: TouchState, events: seq<TouchEvent>)
    requires InRange(s.happiness)
    ensures InRange(Replay(s, events).happiness)
    decreases |events|
  {
    if events != [] {
      ReplayStaysInRange(s, events[..|events| - 1]);
    }
  }

  /** A drag made only of MOVEs that never pushes happiness past a bound changes
      it by exactly the total distance over four: the per-move changes telescope. */
  lemma {:induction false} UnsaturatedDragTelescopes(s: TouchState, moves: seq<TouchEvent>)
    requires forall i :: 0 <= i < |moves| ==> moves[i].action == Move
    requires forall i :: 0 <= i < |moves| ==> InRange(s.happiness + MoveDelta(s.y1, moves[i].y))
    ensures Replay(s, moves).happiness == s.happiness + MoveDelta(s.y1, LastY(s.y1, moves))
    decreases |moves|
  {
    if moves != [] {
      var n := |moves| - 1;
      var init := moves[..n];
      UnsaturatedDragTelescopes(s, init);
      ReplayTracksLastY(s, init);
      var before := Replay(s, init);
      var y := moves[n].y;
      assert InRange(s.happiness + MoveDelta(s.y1, y));
      assert before.happiness + MoveDelta(before.y1, y) == s.happiness + MoveDelta(s.y1, y);
    }
  }

  /** A whole gesture: press at `y0`, then move. As long as happiness stays
      within its bounds, it ends where it started plus (y0 - last y) / 4, and
      a drag that comes back to `y0` leaves it unchanged. */
  lemma DragChangesHappinessByDistance(s: TouchState, y0: real, moves: seq<TouchEvent>)
    requires forall i :: 0 <= i < |moves| ==> moves[i].action == Move
    requires forall i :: 0 <= i < |moves| ==> InRange(s.happiness + MoveDelta(y0, moves[i].y))
    ensures Replay(s, [TouchEvent(Down, y0)] + moves).happiness
              == s.happiness + MoveDelta(y0, LastY(y0, moves))
    ensures LastY(y0, moves) == y0 ==> Replay(s, [TouchEvent(Down, y0)] + moves).happiness == s.happiness
  {
    var pressed := TouchState(s.happiness, y0);
    assert Replay(s, [TouchEvent(Down, y0)]) == pressed by {
      assert [TouchEvent(Down, y0)][..0] == [];
    }
    ReplayAppend(s, [TouchEvent(Down, y0)], moves);
    UnsaturatedDragTelescopes(pressed, moves);
  }

  /** Pressing at y = 100 and moving to y = 92 adds 2: from 50 to 52, while
      from 100 it stays at 100; and 99 pushed up by 5 saturates at 100. */
  lemma DragExamples()
    ensures Replay(TouchState(50.0, 0.0), [TouchEvent(Down, 100.0), TouchEvent(Move, 92.0)]).happiness == 52.0
    ensures Replay(TouchState(100.0, 0.0), [TouchEvent(Down, 100.0), TouchEvent(Move, 92.0)]).happiness == 100.0
    ensures Saturate(99.0 + 5.0) == 100.0
  {
  }
}
