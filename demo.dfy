/**
 * The demo base class of TestProject/Demo.cpp: a scene node with a camera,
 * its own lights and messages, and a lifetime measured from its creation
 * time. Its `traverse` sets up the view matrix from the camera, hands its
 * lights to the renderer and then draws its children.
 */
module Demos {
  import opened Wrappers
  import opened Matrices
  import opened Renderers
  import Md2
  import opened Scenes
  import opened Cameras

  /** One `addLight` call per light, in list order. */
  function LightCalls(lights: seq<Md2.Light>): (calls: seq<Call>)
    ensures |calls| == |lights|
    ensures forall i :: 0 <= i < |lights| ==> calls[i] == AddLight(lights[i])
  {
    seq(|lights|, i requires 0 <= i < |lights| => AddLight(lights[i]))
  }

  /** The translation that moves the world opposite to the camera position. */
  function ViewTranslation(position: Column4): Mat4
  {
    Translation(-position[0][0], -position[1][0], -position[2][0])
  }

  /** The calls `Demo::traverse` makes for a camera at `position` with `rotation`, n children and these lights. */
  function DemoCalls(position: Column4, rotation: MatrixTerm, lights: seq<Md2.Light>, n: nat, time: int): seq<Call>
  {
    [SetMatrixMode(VIEW), LoadIdentity, Transform(Literal(ViewTranslation(position))), Transform(rotation),
     SetMatrixMode(WORLD), ClearLights]
    + LightCalls(lights) + ChildDraws(n, time)
  }

  /** `Vertex4f(4, 0, 0, 0, 1)`: four arguments, so the column (0, 0, 0, 1). */
  const ResetPosition: Column4 := [[0.0], [0.0], [0.0], [1.0]]

  class Demo {
    /** The `SceneNode` part. */
    const node: SceneNode
    const cam: Camera
    var lights: seq<Md2.Light>
    var messages: seq<string>
    var creationTime: int
    var lastUpdate: int
    var length: int

    constructor (cam: Camera, time: int, length: int)
      ensures this.cam == cam && creationTime == time && lastUpdate == time && this.length == length
      ensures lights == [] && messages == [] && fresh(node) && node.children == []
    {
      node := new SceneNode();
      this.cam := cam;
      lights, messages := [], [];
      creationTime, lastUpdate, this.length := time, time, length;
    }

    /**
     * The view stack becomes the camera's view (the inverse position
     * translation, then the camera rotation), the mode returns to WORLD, the
     * renderer's light list is replaced by the demo's lights, and the
     * children are drawn.
     */
    method Traverse(time: int) returns (calls: seq<Call>)
      modifies this
      ensures lastUpdate == time
      ensures creationTime == old(creationTime) && length == old(length)
      ensures lights == old(lights) && messages == old(messages)
      ensures calls == DemoCalls(cam.position, cam.rotation, lights, |node.children|, time)
    {
      calls := [SetMatrixMode(VIEW), LoadIdentity];
      var p := cam.GetPosition();
      calls := calls + [Transform(Literal(Translation(-p[0][0], -p[1][0], -p[2][0])))];
      calls := calls + [Transform(cam.GetRotation())];
      calls := calls + [SetMatrixMode(WORLD)];
      lastUpdate := time;
      calls := calls + [ClearLights];
      ghost var prefix := calls;
      for i := 0 to |lights|
        invariant calls == prefix + LightCalls(lights[..i])
      {
        calls := calls + [Call.AddLight(lights[i])];
        assert lights[..i + 1] == lights[..i] + [lights[i]];
      }
      assert lights[..|lights|] == lights;
      var children := node.Traverse(time);
      calls := calls + children;
    }

    /** The demo has outlived its length. */
    predicate Dead()
      reads this
    {
      lastUpdate - creationTime > length
    }

    /** Restarts the clock at `time` and puts the camera back at (0, 0, 0, 1) with no rotation. */
    method Reset(time: int)
      modifies this, cam
      ensures creationTime == time && lastUpdate == time && length == old(length)
      ensures lights == old(lights) && messages == old(messages)
      ensures cam.position == ResetPosition && cam.rotation == Composed(0.0, 0.0, 0.0)
      ensures cam.rotationX == 0.0 && cam.rotationY == 0.0 && cam.rotationZ == 0.0
      ensures length >= 0 ==> !Dead()
    {
      creationTime := time;
      lastUpdate := time;
      cam.SetPosition(ResetPosition, false);
      cam.SetRotation(0.0, 0.0, 0.0, false);
    }

    method AddLight(light: Md2.Light)
      modifies this
      ensures lights == old(lights) + [light] && messages == old(messages)
      ensures creationTime == old(creationTime) && lastUpdate == old(lastUpdate) && length == old(length)
    {
      lights := lights + [light];
    }

    method AddMessage(message: string)
      modifies this
      ensures messages == old(messages) + [message] && lights == old(lights)
      ensures creationTime == old(creationTime) && lastUpdate == old(lastUpdate) && length == old(length)
    {
      messages := messages + [message];
    }

    /** The messages, in the order they were added. */
    function GetDemoText(): seq<string>
      reads this
    {
      messages
    }
  }

  // ---------------------------------------------------------------------------
  // Properties

  /** Each `addLight` call appends its light. */
  lemma {:induction false} LightCallsAppend(s: RenderState, lights: seq<Md2.Light>, rot: (Axis, real) -> Mat4)
    ensures Run(s, LightCalls(lights), rot) == Some(s.(lights := s.lights + lights))
    decreases |lights|
  {
    if |lights| == 0 {
      assert s.lights + lights == s.lights;
    } else {
      var calls := LightCalls(lights);
      var s1 := s.(lights := s.lights + [lights[0]]);
      assert Apply(s, calls[0], rot) == Some(s1);
      assert calls[1..] == LightCalls(lights[1..]);
      LightCallsAppend(s1, lights[1..], rot);
      assert s1.lights + lights[1..] == s.lights + lights;
    }
  }

  /**
   * After a demo's traverse, whatever the renderer held before: the view
   * stack's top is the camera rotation times the inverse position
   * translation (the rest of the view stack kept), the world and projection
   * stacks are untouched, the mode is WORLD, and the renderer's lights are
   * exactly the demo's lights, in order.
   */
  lemma DemoHandsOff(s: RenderState, position: Column4, rotation: MatrixTerm, lights: seq<Md2.Light>,
                     n: nat, time: int, rot: (Axis, real) -> Mat4)
    ensures Run(s, DemoCalls(position, rotation, lights, n, time), rot).Some?
    ensures var r := Run(s, DemoCalls(position, rotation, lights, n, time), rot).value;
            r.lights == lights && r.mode == WORLD && r.world == s.world && r.projection == s.projection
            && Peek(r.view) == Times4(Eval(rotation, rot), ViewTranslation(position))
            && |r.view| == (if |s.view| == 0 then 1 else |s.view|)
            && r.view[..|r.view| - 1] == s.view[..|r.view| - 1]
  {
    var t := ViewTranslation(position);
    DemoRun(s, position, rotation, lights, n, time, rot);
    CameraView(s.view, t, Eval(rotation, rot));
  }

  /** The view stack after `loadIdentity`, `transform(t)`, `transform(r)`. */
  lemma CameraView(v: seq<Mat4>, t: Mat4, r: Mat4)
    ensures var w := Transformed(Transformed(IdentityLoaded(v), t), r);
            Peek(w) == Times4(r, t) && |w| == (if |v| == 0 then 1 else |v|) && w[..|w| - 1] == v[..|w| - 1]
  {
    IdentityNeutral(t, 4, 4);
    assert Times4(t, Identity(4, 4)) == t;
  }

  lemma DemoRun(s: RenderState, position: Column4, rotation: MatrixTerm, lights: seq<Md2.Light>,
                n: nat, time: int, rot: (Axis, real) -> Mat4)
    ensures Run(s, DemoCalls(position, rotation, lights, n, time), rot)
         == Some(s.(view := Transformed(Transformed(IdentityLoaded(s.view), ViewTranslation(position)), Eval(rotation, rot)),
                    mode := WORLD, lights := lights))
  {
    var head := [SetMatrixMode(VIEW), LoadIdentity, Transform(Literal(ViewTranslation(position))), Transform(rotation),
                 SetMatrixMode(WORLD), ClearLights];
    var t := ViewTranslation(position);
    var view := Transformed(Transformed(IdentityLoaded(s.view), t), Eval(rotation, rot));
    var s6 := s.(view := view, mode := WORLD, lights := []);
    HeadRun(s, head, t, rotation, rot);
    var s7 := s6.(lights := lights);
    LightCallsAppend(s6, lights, rot);
    ChildDrawsNeutral(s7, ChildDraws(n, time), rot);
    RunAppend(s, head, LightCalls(lights) + ChildDraws(n, time), rot);
    RunAppend(s6, LightCalls(lights), ChildDraws(n, time), rot);
    assert s6.lights + lights == lights;
    assert Run(s6, LightCalls(lights) + ChildDraws(n, time), rot) == Some(s7);
    assert Run(s, head + (LightCalls(lights) + ChildDraws(n, time)), rot) == Some(s7);
    assert DemoCalls(position, rotation, lights, n, time) == head + (LightCalls(lights) + ChildDraws(n, time));
  }

  /** The six calls before the lights: the view stack set up, then WORLD mode and no lights. */
  lemma HeadRun(s: RenderState, head: seq<Call>, t: Mat4, rotation: MatrixTerm, rot: (Axis, real) -> Mat4)
    requires head == [SetMatrixMode(VIEW), LoadIdentity, Transform(Literal(t)), Transform(rotation),
                      SetMatrixMode(WORLD), ClearLights]
    ensures Run(s, head, rot)
         == Some(s.(view := Transformed(Transformed(IdentityLoaded(s.view), t), Eval(rotation, rot)),
                    mode := WORLD, lights := []))
  {
    var s1 := s.(mode := VIEW);
    var s2 := s1.(view := IdentityLoaded(s.view));
    var s3 := s1.(view := Transformed(IdentityLoaded(s.view), t));
    var s4 := s1.(view := Transformed(Transformed(IdentityLoaded(s.view), t), Eval(rotation, rot)));
    var s5 := s4.(mode := WORLD);
    var s6 := s5.(lights := []);
    assert Run(s5, head[5..], rot) == Run(s6, [], rot);
    assert Run(s4, head[4..], rot) == Run(s5, head[5..], rot);
    assert Run(s3, head[3..], rot) == Run(s4, head[4..], rot);
    assert Run(s2, head[2..], rot) == Run(s3, head[3..], rot);
    assert Run(s1, head[1..], rot) == Run(s2, head[2..], rot);
  }
}
