/** The FaceView widget as a class: the fields its handlers assign, one method
    per handler, and the save/restore pair that carries happiness across the
    destruction and re-creation of the view. */
module Happiness {
  import opened JavaMath
  import opened Gesture
  import Layout
  import Drawer

  /** What the view saves of itself: the happiness scalar, nothing else. */
  datatype SavedState = SavedState(state: real)

  class FaceView {
    var happiness: real
    var centerX: real
    var centerY: real
    var y1: real
    var faceRadius: real

    /** Sizes come from the layout system and are never negative, so neither
        are the radius and centre derived from them. Happiness has no such
        invariant: setHappiness stores any value. */
    ghost predicate Valid()
      reads this
    {
      faceRadius >= 0.0 && centerX >= 0.0 && centerY >= 0.0
    }

    /** The part of the view the touch rule works on. */
    function TouchView(): TouchState
      reads this
    {
      TouchState(happiness, y1)
    }

    /** A new view is fully happy; every other field starts at zero, as Java's
        field defaults do, until the first size change. */
    constructor ()
      ensures Valid()
      ensures happiness == 100.0 && y1 == 0.0
      ensures faceRadius == 0.0 && centerX == 0.0 && centerY == 0.0
    {
      happiness := 100.0;
      centerX, centerY := 0.0, 0.0;
      y1 := 0.0;
      faceRadius := 0.0;
    }

    /** Stores the value as given, with no clamping. */
    method SetHappiness(v: real)
      requires Valid()
      modifies this`happiness
      ensures Valid()
      ensures happiness == v
    {
      happiness := v;
    }

    /** Adds the change and saturates the sum to [0, 100]. */
    method ChangeHappiness(change: real)
      requires Valid()
      modifies this`happiness
      ensures Valid()
      ensures happiness == Saturate(old(happiness) + change)
      // What the saturation above implies, spelled out:
      ensures InRange(happiness)
      ensures InRange(old(happiness) + change) ==> happiness == old(happiness) + change
    {
      happiness := Min(Max(happiness + change, 0.0), 100.0);
    }

    /** DOWN records y; MOVE turns the drag since the last recorded y into a
        happiness change and records the new y; DOWN and MOVE are consumed, and
        any other action goes to the host's default handling, whose answer is
        `hostHandled`. */
    method OnTouchEvent(e: TouchEvent, hostHandled: bool) returns (handled: bool)
      requires Valid()
      modifies this`happiness, this`y1
      ensures Valid()
      ensures TouchView() == Touch(old(TouchView()), e)
      ensures handled == (e.action == Down || e.action == Move || hostHandled)
    {
      match e.action
      case Down =>
        y1 := e.y;
        handled := true;
      case Move =>
        var deltaY := MoveDelta(y1, e.y);
        y1 := e.y;
        if deltaY != 0.0 {
          ChangeHappiness(deltaY);
        }
        handled := true;
      case Other =>
        handled := hostHandled;
    }

    /** Takes the face radius and the centre from the new size. */
    method OnSizeChanged(w: int, h: int)
      requires Valid()
      requires w >= 0 && h >= 0
      modifies this`faceRadius, this`centerX, this`centerY
      ensures Valid()
      ensures faceRadius == Layout.FaceRadiusFor(w, h)
      ensures centerX == Layout.CenterFor(w) && centerY == Layout.CenterFor(h)
    {
      faceRadius := ((MinInt(w, h) / 2) as real) * Layout.Scale;
      centerX := (w / 2) as real;
      centerY := (h / 2) as real;
    }

    /** Saves happiness. */
    method OnSaveInstanceState() returns (saved: SavedState)
      ensures saved.state == happiness
    {
      saved := SavedState(happiness);
    }

    /** Restores happiness through setHappiness, so unclamped. */
    method OnRestoreInstanceState(saved: SavedState)
      requires Valid()
      modifies this`happiness
      ensures Valid()
      ensures happiness == saved.state
    {
      SetHappiness(saved.state);
    }

    /** The geometry of one frame, relative to (centerX, centerY). Since the
        radius is never negative, the smile never leaves the outline. */
    method OnDraw() returns (d: Drawer.Drawing)
      requires Valid()
      ensures d == Drawer.FaceDrawing(faceRadius, happiness)
      ensures -faceRadius / 3.0 <= d.mouth.control1.y - d.mouth.start.y <= faceRadius / 3.0
    {
      d := Drawer.FaceDrawing(faceRadius, happiness);
    }
  }

  /** The host saves a view, destroys it, builds a new one and restores it into
      that: the new view has the old one's happiness, whatever it was, and
      nothing else of the old view survives. */
  method SaveAndRecreate(view: FaceView) returns (restored: FaceView)
    requires view.Valid()
    ensures fresh(restored) && restored.Valid()
    ensures restored.happiness == view.happiness
    ensures restored.y1 == 0.0 && restored.faceRadius == 0.0
  {
    var saved := view.OnSaveInstanceState();
    restored := new FaceView();
    restored.OnRestoreInstanceState(saved);
  }

  /** A 200 x 100 view gets a face of radius 45, drawn around (100, 50), with
      eyes of radius 4.5. */
  lemma ResizeExample()
    ensures Layout.FaceRadiusFor(200, 100) == 45.0
    ensures Layout.CenterFor(200) == 100.0 && Layout.CenterFor(100) == 50.0
    ensures Drawer.EyeCircle(Layout.FaceRadiusFor(200, 100), Drawer.Left).radius == 4.5
  {
  }
}
