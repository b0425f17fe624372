/** The WireframeViewer object: its registry of meshes, its display settings and light, and the
    methods that change them (addWireframe, addWireframeGroup, keyEvent) or read them (display),
    and run, the event loop that ties them together. */
module Viewer {
  import opened Geometry
  import opened Transform
  import opened Dicts
  import opened Mesh
  import opened MeshRegistry
  import opened Render
  import opened Input

  /** What run does with a list of event batches (one per call of pygame.event.get), from loop
      variables st and display settings s: while running, handle the batch, turn the light once
      if the held key is truthy, draw a frame. A frame that raises UnboundLocalError is the last:
      the exception leaves run. The result is the frames drawn and the final light. The meshes stay
      as they are (update is not part of this model). */
  function RunFrom(t: Trig, normalize: Vec3 -> Vec3, s: Settings, meshes: Dict<Wireframe>, st: LoopState,
                   batches: seq<seq<Event>>): (seq<Frame>, Vec3)
    requires MeshesFit(meshes)
    decreases |batches|
  {
    if batches == [] || !st.running then ([], s.light)
    else
      var st' := AfterEvents(st, batches[0]);
      var s' := KeyTurned(t, s, st'.held);
      var frame := FrameOf(s', normalize, meshes);
      if frame.Raised? then ([frame], s'.light)
      else
        var rest := RunFrom(t, normalize, s', meshes, st', batches[1..]);
        ([frame] + rest.0, rest.1)
  }

  /** The settings after `if key_down: self.keyEvent(key_down)`. */
  function KeyTurned(t: Trig, s: Settings, held: Held): Settings {
    if Truthy(held) then s.(light := LightAfterKey(t, s.light, held.key)) else s
  }

  /** Once the loop has stopped, or has no batches left, it draws nothing more. */
  lemma RunFromDone(t: Trig, normalize: Vec3 -> Vec3, s: Settings, meshes: Dict<Wireframe>, st: LoopState,
                    batches: seq<seq<Event>>, i: nat)
    requires MeshesFit(meshes) && i <= |batches| && (!st.running || i == |batches|)
    ensures RunFrom(t, normalize, s, meshes, st, batches[i..]) == ([], s.light)
  {
  }

  /** One pass of the loop, unfolded: the frame it draws comes first, the later passes follow. */
  lemma RunFromPass(t: Trig, normalize: Vec3 -> Vec3, s: Settings, meshes: Dict<Wireframe>, st: LoopState,
                    batches: seq<seq<Event>>, i: nat, st': LoopState, s': Settings)
    requires MeshesFit(meshes) && st.running && i < |batches|
    requires st' == AfterEvents(st, batches[i]) && s' == KeyTurned(t, s, st'.held)
    requires FrameOf(s', normalize, meshes).Shown?
    ensures RunFrom(t, normalize, s, meshes, st, batches[i..]).0 ==
              [FrameOf(s', normalize, meshes)] + RunFrom(t, normalize, s', meshes, st', batches[i + 1..]).0
    ensures RunFrom(t, normalize, s, meshes, st, batches[i..]).1 == RunFrom(t, normalize, s', meshes, st', batches[i + 1..]).1
  {
    assert batches[i..][0] == batches[i] && batches[i..][1..] == batches[i + 1..];
  }

  /** A pass whose frame raises is the last one. */
  lemma RunFromRaised(t: Trig, normalize: Vec3 -> Vec3, s: Settings, meshes: Dict<Wireframe>, st: LoopState,
                      batches: seq<seq<Event>>, i: nat, st': LoopState, s': Settings)
    requires MeshesFit(meshes) && st.running && i < |batches|
    requires st' == AfterEvents(st, batches[i]) && s' == KeyTurned(t, s, st'.held)
    requires FrameOf(s', normalize, meshes).Raised?
    ensures RunFrom(t, normalize, s, meshes, st, batches[i..]) == ([FrameOf(s', normalize, meshes)], s'.light)
  {
    assert batches[i..][0] == batches[i];
  }

  /** The loop of run after one more pass whose frame is shown: the frames so far, followed by
      what the rest of the run draws, are still the frames of the whole run. */
  lemma RunStepShown(t: Trig, normalize: Vec3 -> Vec3, s: Settings, meshes: Dict<Wireframe>, st: LoopState,
                     batches: seq<seq<Event>>, i: nat, st': LoopState, s': Settings,
                     frames: seq<Frame>, all: (seq<Frame>, Vec3))
    requires MeshesFit(meshes) && st.running && i < |batches|
    requires st' == AfterEvents(st, batches[i]) && s' == KeyTurned(t, s, st'.held)
    requires FrameOf(s', normalize, meshes).Shown?
    requires frames + RunFrom(t, normalize, s, meshes, st, batches[i..]).0 == all.0
    requires RunFrom(t, normalize, s, meshes, st, batches[i..]).1 == all.1
    ensures frames + [FrameOf(s', normalize, meshes)] + RunFrom(t, normalize, s', meshes, st', batches[i + 1..]).0 == all.0
    ensures RunFrom(t, normalize, s', meshes, st', batches[i + 1..]).1 == all.1
  {
    RunFromPass(t, normalize, s, meshes, st, batches, i, st', s');
    var rest := RunFrom(t, normalize, s', meshes, st', batches[i + 1..]).0;
    assert frames + [FrameOf(s', normalize, meshes)] + rest == frames + ([FrameOf(s', normalize, meshes)] + rest);
  }

  /** The loop of run after a pass whose frame raises: the frames so far are those of the whole
      run. */
  lemma RunStepRaised(t: Trig, normalize: Vec3 -> Vec3, s: Settings, meshes: Dict<Wireframe>, st: LoopState,
                      batches: seq<seq<Event>>, i: nat, st': LoopState, s': Settings,
                      frames: seq<Frame>, all: (seq<Frame>, Vec3))
    requires MeshesFit(meshes) && st.running && i < |batches|
    requires st' == AfterEvents(st, batches[i]) && s' == KeyTurned(t, s, st'.held)
    requires FrameOf(s', normalize, meshes).Raised?
    requires frames + RunFrom(t, normalize, s, meshes, st, batches[i..]).0 == all.0
    requires RunFrom(t, normalize, s, meshes, st, batches[i..]).1 == all.1
    ensures frames + [FrameOf(s', normalize, meshes)] == all.0 && s'.light == all.1
  {
    RunFromRaised(t, normalize, s, meshes, st, batches, i, st', s');
  }

  /** Whether display raises is the same for every frame of a run: turning the light changes the
      colours of the polygons only. */
  lemma KeyTurnedRaises(t: Trig, s: Settings, meshes: Dict<Wireframe>, held: Held)
    requires MeshesFit(meshes)
    ensures FrameRaises(KeyTurned(t, s, held), meshes) == FrameRaises(s, meshes)
  {
    if Truthy(held) {
      RaisesIgnoresLight(s, LightAfterKey(t, s.light, held.key), meshes);
    }
  }

  /** If display raises, run draws the one frame, which raises, and ends. */
  lemma RunStopsAfterRaise(t: Trig, normalize: Vec3 -> Vec3, s: Settings, meshes: Dict<Wireframe>,
                           st: LoopState, batches: seq<seq<Event>>)
    requires MeshesFit(meshes) && st.running && batches != []
    requires FrameRaises(s, meshes)
    ensures |RunFrom(t, normalize, s, meshes, st, batches).0| == 1
    ensures RunFrom(t, normalize, s, meshes, st, batches).0[0].Raised?
  {
    var st' := AfterEvents(st, batches[0]);
    var s' := KeyTurned(t, s, st'.held);
    KeyTurnedRaises(t, s, meshes, st'.held);
    FrameRaisesIff(s', normalize, meshes);
  }

  /** If display does not raise, every pass draws exactly one frame, and a QUIT ends the loop after
      the pass that handled it: if batch i is the first to hold a QUIT, i + 1 frames are drawn. */
  lemma {:induction false} RunStopsAfterQuit(t: Trig, normalize: Vec3 -> Vec3, s: Settings, meshes: Dict<Wireframe>,
                                             st: LoopState, batches: seq<seq<Event>>, i: nat)
    requires MeshesFit(meshes) && st.running && !FrameRaises(s, meshes)
    requires i < |batches| && Quit in batches[i]
    requires forall j :: 0 <= j < i ==> Quit !in batches[j]
    ensures |RunFrom(t, normalize, s, meshes, st, batches).0| == i + 1
    decreases i
  {
    var st' := AfterEvents(st, batches[0]);
    RunningAfterEvents(st, batches[0]);
    var s' := KeyTurned(t, s, st'.held);
    KeyTurnedRaises(t, s, meshes, st'.held);
    FrameRaisesIff(s', normalize, meshes);
    if i > 0 {
      RunStopsAfterQuit(t, normalize, s', meshes, st', batches[1..], i - 1);
    }
  }

  /** Without a QUIT, and with a display that does not raise, every batch gets its pass and its
      frame. */
  lemma {:induction false} RunWithoutQuit(t: Trig, normalize: Vec3 -> Vec3, s: Settings, meshes: Dict<Wireframe>,
                                          st: LoopState, batches: seq<seq<Event>>)
    requires MeshesFit(meshes) && st.running && !FrameRaises(s, meshes)
    requires forall j :: 0 <= j < |batches| ==> Quit !in batches[j]
    ensures |RunFrom(t, normalize, s, meshes, st, batches).0| == |batches|
    ensures forall j :: 0 <= j < |batches| ==> RunFrom(t, normalize, s, meshes, st, batches).0[j].Shown?
    decreases |batches|
  {
    if batches != [] {
      var st' := AfterEvents(st, batches[0]);
      RunningAfterEvents(st, batches[0]);
      var s' := KeyTurned(t, s, st'.held);
      KeyTurnedRaises(t, s, meshes, st'.held);
      FrameRaisesIff(s', normalize, meshes);
      RunWithoutQuit(t, normalize, s', meshes, st', batches[1..]);
    }
  }

  /** However the keys are held, the light keeps its length through a whole run (given exact
      trigonometry at 10 degrees). */
  lemma {:induction false} RunKeepsLightLength(t: Trig, normalize: Vec3 -> Vec3, s: Settings, meshes: Dict<Wireframe>,
                                               st: LoopState, batches: seq<seq<Event>>)
    requires MeshesFit(meshes) && TrigAtTen(t)
    ensures NormSq(RunFrom(t, normalize, s, meshes, st, batches).1) == NormSq(s.light)
    decreases |batches|
  {
    if batches != [] && st.running {
      var st' := AfterEvents(st, batches[0]);
      var s' := KeyTurned(t, s, st'.held);
      if Truthy(st'.held) {
        KeyKeepsLength(t, s.light, st'.held.key);
      }
      if FrameOf(s', normalize, meshes).Shown? {
        RunKeepsLightLength(t, normalize, s', meshes, st', batches[1..]);
      }
    }
  }

  class WireframeViewer {
    var width: int
    var height: int
    var wireframes: Dict<Wireframe>
    var wireframeColours: Dict<Vec3>
    var displayNodes: bool
    var displayEdges: bool
    var displayFaces: bool
    var perspective: real
    var lightColour: Vec3
    var viewVector: Vec3
    var lightVector: Vec3
    var background: Vec3
    var nodeRadius: int
    /** numpy's cos and sin of degrees, and v / norm(v): fixed for the viewer's lifetime. */
    const trig: Trig
    const normalize: Vec3 -> Vec3

    /** The two dicts, as a registry value. */
    function Reg(): Registry
      reads this
    {
      Registry(wireframes, wireframeColours)
    }

    /** The fields display reads. */
    function View(): Settings
      reads this
    {
      Settings(width, height, displayNodes, displayEdges, displayFaces, perspective,
               viewVector, lightVector, lightColour, background, nodeRadius)
    }

    /** The two dicts are well-formed and have the same keys in the same order. */
    ghost predicate Valid()
      reads this
    {
      MeshRegistry.Valid(Reg())
    }

    /** __init__: empty registry, faces and edges shown, nodes hidden, no perspective, white light
        along (0,0,-1), view along (0,0,-1), background (10,10,50), node radius 4. */
    constructor (width: int, height: int, trig: Trig, normalize: Vec3 -> Vec3)
      ensures Valid() && wireframes.values == map[] && wireframeColours.values == map[]
      ensures View() == Settings(width, height, false, true, true, 0.0, Vec3(0.0, 0.0, -1.0), Vec3(0.0, 0.0, -1.0),
                                 Vec3(1.0, 1.0, 1.0), Vec3(10.0, 10.0, 50.0), 4)
      ensures this.trig == trig && this.normalize == normalize
    {
      this.width := width;
      this.height := height;
      this.trig := trig;
      this.normalize := normalize;
      wireframes := Empty();
      wireframeColours := Empty();
      displayNodes := false;
      displayEdges := true;
      displayFaces := true;
      perspective := 0.0;
      lightColour := Vec3(1.0, 1.0, 1.0);
      viewVector := Vec3(0.0, 0.0, -1.0);
      lightVector := Vec3(0.0, 0.0, -1.0);
      background := Vec3(10.0, 10.0, 50.0);
      nodeRadius := 4;
    }

    /** addWireframe(name, w): the registry becomes AddWireframe of the old one, so the two dicts
        stay parallel; nothing else changes. */
    method AddWireframe(name: string, w: Wireframe)
      requires Valid()
      modifies this
      ensures Valid()
      ensures Reg() == MeshRegistry.AddWireframe(old(Reg()), name, w)
      ensures View() == old(View())
    {
      wireframes := Insert(wireframes, name, w);
      wireframeColours := Insert(wireframeColours, name, DefaultColour);
    }

    /** addWireframeGroup(g): addWireframe for each of g's meshes, in g's key order. */
    method AddWireframeGroup(g: Dict<Wireframe>)
      requires Valid() && g.Valid()
      modifies this
      ensures Valid()
      ensures Reg() == AddGroup(old(Reg()), g)
      ensures View() == old(View())
    {
      var i := 0;
      while i < |g.keys|
        invariant 0 <= i <= |g.keys|
        invariant Valid()
        invariant Reg() == AddAll(old(Reg()), g, g.keys[..i])
        invariant View() == old(View())
      {
        var name := g.keys[i];
        AddWireframe(name, g.values[name]);
        AddAllStep(old(Reg()), g, i);
        i := i + 1;
      }
      assert g.keys[..i] == g.keys;
    }

    /** keyEvent(key): the light turns as LightAfterKey says; nothing else changes. */
    method KeyEvent(key: int)
      modifies this
      ensures lightVector == LightAfterKey(trig, old(lightVector), key)
      ensures View() == old(View()).(light := lightVector)
      ensures Reg() == old(Reg())
    {
      match KeyRotation(key) {
        case NoTurn =>
        case Rotate(x, y, z) =>
          var rot := RotationMatrix(trig, x, y, z);
          if rot.Matrix? {
            lightVector := Apply(rot.m, lightVector);
          }
      }
    }

    /** display(): the frame FrameOf specifies for the current settings and meshes, shown or
        ended by UnboundLocalError. */
    method Display() returns (frame: Frame)
      requires MeshesFit(wireframes)
      ensures frame == FrameOf(View(), normalize, wireframes)
    {
      frame := DrawFrame(View(), normalize, wireframes);
    }

    /** One pass of run's loop: handle the batch, turn the light if the held key is truthy, draw. */
    method Pass(st: LoopState, batch: seq<Event>) returns (st': LoopState, frame: Frame)
      requires MeshesFit(wireframes)
      modifies this
      ensures st' == AfterEvents(st, batch)
      ensures Reg() == old(Reg()) && View() == KeyTurned(trig, old(View()), st'.held)
      ensures frame == FrameOf(View(), normalize, wireframes)
    {
      st' := HandleEvents(st, batch);
      if Truthy(st'.held) {
        KeyEvent(st'.held.key);
      }
      frame := Display();
    }

    /** run(), over the event batches it receives: the frames drawn and the final light are those
        RunFrom gives from a running loop with no key held; the meshes do not change. A frame
        that raises ends the loop, as the exception leaves run. */
    method Run(batches: seq<seq<Event>>) returns (frames: seq<Frame>)
      requires MeshesFit(wireframes)
      modifies this
      ensures Reg() == old(Reg())
      ensures View() == old(View()).(light := lightVector)
      ensures (frames, lightVector) == RunFrom(trig, normalize, old(View()), old(wireframes), LoopState(true, Released), batches)
    {
      var st := LoopState(true, Released);
      ghost var meshes := wireframes;
      ghost var cur := View();
      ghost var all := RunFrom(trig, normalize, cur, meshes, st, batches);
      frames := [];
      var raised := false;
      var i := 0;
      while st.running && i < |batches| && !raised
        invariant 0 <= i <= |batches|
        invariant Reg() == old(Reg()) && wireframes == meshes && cur == View() && cur == old(View()).(light := lightVector)
        invariant !raised ==> frames + RunFrom(trig, normalize, cur, meshes, st, batches[i..]).0 == all.0
        invariant !raised ==> RunFrom(trig, normalize, cur, meshes, st, batches[i..]).1 == all.1
        invariant raised ==> frames == all.0 && lightVector == all.1
        decreases |batches| - i
      {
        ghost var st0 := st;
        var frame;
        st, frame := Pass(st, batches[i]);
        ghost var next := View();
        if frame.Raised? {
          RunStepRaised(trig, normalize, cur, meshes, st0, batches, i, st, next, frames, all);
          raised := true;
        } else {
          RunStepShown(trig, normalize, cur, meshes, st0, batches, i, st, next, frames, all);
        }
        frames := frames + [frame];
        cur := next;
        i := i + 1;
      }
      if !raised {
        RunFromDone(trig, normalize, cur, meshes, st, batches, i);
        assert frames + [] == frames;
      }
    }
  }
}
