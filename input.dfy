/** The viewer's input handling: keyEvent, which turns the light about one axis for six keys, and
    the fold of run's event loop over one batch of events, which keeps the running flag and the
    held key. */
module Input {
  import opened Geometry
  import opened Transform

  /** pygame's key codes for the keys keyEvent handles (their ASCII codes). */
  const KeyA := 97
  const KeyD := 100
  const KeyE := 101
  const KeyQ := 113
  const KeyS := 115
  const KeyW := 119

  /** The arguments keyEvent passes to rotation_matrix for a key, or none for any other key. */
  datatype KeyTurn = Rotate(x: real, y: real, z: real) | NoTurn

  function KeyRotation(key: int): KeyTurn {
    if key == KeyA then Rotate(0.0, 10.0, 0.0)
    else if key == KeyD then Rotate(0.0, -10.0, 0.0)
    else if key == KeyW then Rotate(-10.0, 0.0, 0.0)
    else if key == KeyS then Rotate(10.0, 0.0, 0.0)
    else if key == KeyQ then Rotate(0.0, 0.0, -10.0)
    else if key == KeyE then Rotate(0.0, 0.0, 10.0)
    else NoTurn
  }

  predicate HandledKey(key: int) {
    key == KeyA || key == KeyD || key == KeyW || key == KeyS || key == KeyQ || key == KeyE
  }

  /** keyEvent(key) on the light vector: a and d turn it by +10 and -10 degrees about y, w and s
      by -10 and +10 about x, q and e by -10 and +10 about z; any other key leaves it as it is. */
  function LightAfterKey(t: Trig, light: Vec3, key: int): (r: Vec3)
    ensures key == KeyA ==> r == Apply(AxisMatrix(t, Y, 10.0), light)
    ensures key == KeyD ==> r == Apply(AxisMatrix(t, Y, -10.0), light)
    ensures key == KeyW ==> r == Apply(AxisMatrix(t, X, -10.0), light)
    ensures key == KeyS ==> r == Apply(AxisMatrix(t, X, 10.0), light)
    ensures key == KeyQ ==> r == Apply(AxisMatrix(t, Z, -10.0), light)
    ensures key == KeyE ==> r == Apply(AxisMatrix(t, Z, 10.0), light)
    ensures !HandledKey(key) ==> r == light
  {
    match KeyRotation(key)
    case NoTurn => light
    case Rotate(x, y, z) =>
      var rot := RotationMatrix(t, x, y, z);
      if rot.Matrix? then Apply(rot.m, light) else light
  }

  /** The axis a handled key turns about. */
  function KeyAxis(key: int): Axis
    requires HandledKey(key)
  {
    if key == KeyA || key == KeyD then Y
    else if key == KeyW || key == KeyS then X
    else Z
  }

  /** A handled key keeps the light's coordinate along the axis it turns about: a and d keep y,
      w and s keep x, q and e keep z. */
  lemma KeyKeepsAxis(t: Trig, light: Vec3, key: int)
    requires HandledKey(key)
    ensures Coord(LightAfterKey(t, light, key), KeyAxis(key)) == Coord(light, KeyAxis(key))
  {
    var deg := if key == KeyA || key == KeyS || key == KeyE then 10.0 else -10.0;
    assert LightAfterKey(t, light, key) == Apply(AxisMatrix(t, KeyAxis(key), deg), light);
    ApplyKeepsAxis(AxisMatrix(t, KeyAxis(key), deg), KeyAxis(key), light);
  }

  /** What the abstract trigonometry must satisfy at 10 degrees for the key turns to behave as
      rotations: cosine even, sine odd, cos^2 + sin^2 == 1. */
  predicate TrigAtTen(t: Trig) {
    t.cosDeg(-10.0) == t.cosDeg(10.0) && t.sinDeg(-10.0) == -t.sinDeg(10.0) &&
    t.cosDeg(10.0) * t.cosDeg(10.0) + t.sinDeg(10.0) * t.sinDeg(10.0) == 1.0
  }

  /** The keys of each pair turn about the same axis in opposite senses. */
  predicate Opposite(k1: int, k2: int) {
    (k1 == KeyA && k2 == KeyD) || (k1 == KeyD && k2 == KeyA) ||
    (k1 == KeyW && k2 == KeyS) || (k1 == KeyS && k2 == KeyW) ||
    (k1 == KeyQ && k2 == KeyE) || (k1 == KeyE && k2 == KeyQ)
  }

  lemma TrigAtMinusTen(t: Trig)
    requires TrigAtTen(t)
    ensures t.cosDeg(- -10.0) == t.cosDeg(-10.0) && t.sinDeg(- -10.0) == -t.sinDeg(-10.0)
    ensures t.cosDeg(-10.0) * t.cosDeg(-10.0) + t.sinDeg(-10.0) * t.sinDeg(-10.0) == 1.0
  {
    var c, s := t.cosDeg(10.0), t.sinDeg(10.0);
    assert t.sinDeg(-10.0) * t.sinDeg(-10.0) == s * s;
  }

  /** Pressing a key and then its opposite puts the light back where it was (given exact
      trigonometry at 10 degrees). */
  lemma {:induction false} KeyPairsCancel(t: Trig, light: Vec3, k1: int, k2: int)
    requires TrigAtTen(t) && Opposite(k1, k2)
    ensures LightAfterKey(t, LightAfterKey(t, light, k1), k2) == light
  {
    var axis := KeyAxis(k1);
    if k1 == KeyA || k1 == KeyS || k1 == KeyE {
      assert LightAfterKey(t, light, k1) == Apply(AxisMatrix(t, axis, 10.0), light);
      assert LightAfterKey(t, LightAfterKey(t, light, k1), k2) == Apply(AxisMatrix(t, axis, -10.0), LightAfterKey(t, light, k1));
      RotationUndone(t, axis, 10.0, light);
    } else {
      TrigAtMinusTen(t);
      assert LightAfterKey(t, light, k1) == Apply(AxisMatrix(t, axis, -10.0), light);
      assert LightAfterKey(t, LightAfterKey(t, light, k1), k2) == Apply(AxisMatrix(t, axis, - -10.0), LightAfterKey(t, light, k1));
      RotationUndone(t, axis, -10.0, light);
    }
  }

  /** Every key keeps the light's length (given cos^2 + sin^2 == 1 at 10 degrees), so a unit
      light vector stays a unit vector however many keys are pressed. */
  lemma KeyKeepsLength(t: Trig, light: Vec3, key: int)
    requires TrigAtTen(t)
    ensures NormSq(LightAfterKey(t, light, key)) == NormSq(light)
  {
    if HandledKey(key) {
      var deg := if key == KeyA || key == KeyS || key == KeyE then 10.0 else -10.0;
      TrigAtMinusTen(t);
      assert LightAfterKey(t, light, key) == Apply(AxisMatrix(t, KeyAxis(key), deg), light);
      RotationKeepsLength(t, KeyAxis(key), deg, light);
    }
  }

  // ---- Events ----

  /** The pygame events run reacts to; every other event type is OtherEvent. */
  datatype Event = Quit | KeyDown(key: int) | KeyUp(key: int) | OtherEvent

  /** run's key_down: False at the start and None after a key-up are both Released; a key-down
      stores the key code. */
  datatype Held = Released | Pressed(key: int)

  /** `if key_down:` — a stored key code is truthy unless it is 0. */
  predicate Truthy(h: Held) {
    h.Pressed? && h.key != 0
  }

  /** run's loop variables running and key_down. */
  datatype LoopState = LoopState(running: bool, held: Held)

  /** One pass of the event loop's body. */
  function Step(st: LoopState, e: Event): LoopState {
    match e
    case Quit => st.(running := false)
    case KeyDown(k) => st.(held := Pressed(k))
    case KeyUp(_) => st.(held := Released)
    case OtherEvent => st
  }

  /** The loop variables after the events of one batch, in order. */
  function AfterEvents(st: LoopState, events: seq<Event>): LoopState {
    if events == [] then st
    else Step(AfterEvents(st, events[..|events| - 1]), events[|events| - 1])
  }

  method HandleEvents(st: LoopState, events: seq<Event>) returns (r: LoopState)
    ensures r == AfterEvents(st, events)
  {
    var running, held := st.running, st.held;
    var i := 0;
    while i < |events|
      invariant 0 <= i <= |events|
      invariant LoopState(running, held) == AfterEvents(st, events[..i])
    {
      match events[i] {
        case Quit => running := false;
        case KeyDown(k) => held := Pressed(k);
        case KeyUp(_) => held := Released;
        case OtherEvent =>
      }
      assert events[..i + 1][..i] == events[..i];
      i := i + 1;
    }
    assert events[..i] == events;
    r := LoopState(running, held);
  }

  /** The loop keeps running after a batch exactly when it was running and the batch holds no
      QUIT: a QUIT is never undone by later events. */
  lemma {:induction false} RunningAfterEvents(st: LoopState, events: seq<Event>)
    ensures AfterEvents(st, events).running <==> st.running && Quit !in events
    decreases |events|
  {
    if events != [] {
      var init := events[..|events| - 1];
      RunningAfterEvents(st, init);
      assert events == init + [events[|events| - 1]];
    }
  }

  predicate IsKeyEvent(e: Event) {
    e.KeyDown? || e.KeyUp?
  }

  /** A batch without key events leaves the held key as it was. */
  lemma {:induction false} HeldWithoutKeyEvents(st: LoopState, events: seq<Event>)
    requires forall i :: 0 <= i < |events| ==> !IsKeyEvent(events[i])
    ensures AfterEvents(st, events).held == st.held
    decreases |events|
  {
    if events != [] {
      HeldWithoutKeyEvents(st, events[..|events| - 1]);
    }
  }

  /** The last key event of a batch decides the held key: the key of a KEYDOWN, or released after
      a KEYUP of any key. */
  lemma {:induction false} LastKeyEventWins(st: LoopState, pre: seq<Event>, e: Event, post: seq<Event>)
    requires IsKeyEvent(e)
    requires forall i :: 0 <= i < |post| ==> !IsKeyEvent(post[i])
    ensures AfterEvents(st, pre + [e] + post).held == (if e.KeyDown? then Pressed(e.key) else Released)
    decreases |post|
  {
    var events := pre + [e] + post;
    if post == [] {
      assert events[..|events| - 1] == pre;
    } else {
      var init := post[..|post| - 1];
      assert events[..|events| - 1] == pre + [e] + init;
      LastKeyEventWins(st, pre, e, init);
    }
  }
}
