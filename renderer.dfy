/**
 * The matrix-stack state machine of Acun3D/Renderer.cpp: three stacks of 4 x 4
 * matrices (world, view, projection), a pointer to the current one chosen by
 * the matrix mode, and the light list; plus the per-triangle cull and
 * backface tests of the `draw*` paths and the material fallback of `draw`.
 */
module Renderers {
  import opened Wrappers
  import opened Matrices
  import Md2

  // ---------------------------------------------------------------------------
  // Modes

  /** MatrixMode.h: the enumerators in declaration order; `setMatrixMode` accepts any value. */
  const VIEW: int := 0
  const WORLD: int := 1
  const PROJECTION: int := 2

  datatype StackId = WorldStack | ViewStack | ProjectionStack

  /** The stack `setMatrixMode` points `_matrixStack` at: WORLD and every unknown value select the world stack. */
  function StackFor(mode: int): (id: StackId)
    ensures id == ProjectionStack <==> mode == PROJECTION
    ensures id == ViewStack <==> mode == VIEW
    ensures id == WorldStack <==> mode != PROJECTION && mode != VIEW
  {
    if mode == PROJECTION then ProjectionStack
    else if mode == VIEW then ViewStack
    else WorldStack
  }

  datatype MaterialType = Wireframe | Solid | Textured
  datatype ShadingType = NoShading | Flat | Smooth | Phong
  datatype CullingType = NoCulling | Front | Back

  // ---------------------------------------------------------------------------
  // A stack of matrices: a sequence whose last element is the top

  /** `getMatrix`: the top, or the zero matrix when the stack is empty. */
  function Peek(s: seq<Mat4>): Mat4
  {
    if |s| > 0 then s[|s| - 1] else Zero(4, 4)
  }

  /** `pushMatrix`: one more entry, a copy of the top (the zero matrix on an empty stack). */
  function Pushed(s: seq<Mat4>): (r: seq<Mat4>)
    ensures |r| == |s| + 1 && r[..|s|] == s
    ensures Peek(r) == Peek(s)
  {
    s + [Peek(s)]
  }

  /** `popMatrix`: the top removed. */
  function Popped(s: seq<Mat4>): (r: seq<Mat4>)
    requires |s| > 0
    ensures |r| == |s| - 1 && r + [Peek(s)] == s
  {
    s[..|s| - 1]
  }

  /** Assigning to `top()`, or pushing when the stack is empty: depth max(1, |s|), only the top changed. */
  function WithTop(s: seq<Mat4>, m: Mat4): (r: seq<Mat4>)
    ensures |r| == if |s| == 0 then 1 else |s|
    ensures r[..|r| - 1] == s[..|r| - 1]
    ensures Peek(r) == m
  {
    if |s| == 0 then [m] else s[|s| - 1 := m]
  }

  /** `loadIdentity`. */
  function IdentityLoaded(s: seq<Mat4>): (r: seq<Mat4>)
    ensures |r| == if |s| == 0 then 1 else |s|
    ensures r[..|r| - 1] == s[..|r| - 1] && Peek(r) == Identity(4, 4)
  {
    WithTop(s, Identity(4, 4))
  }

  /** `transform(m)`: the top pre-multiplied by m, or m pushed onto an empty stack. */
  function Transformed(s: seq<Mat4>, m: Mat4): (r: seq<Mat4>)
    ensures |r| == if |s| == 0 then 1 else |s|
    ensures r[..|r| - 1] == s[..|r| - 1]
    ensures Peek(r) == if |s| == 0 then m else Times4(m, Peek(s))
  {
    WithTop(s, if |s| == 0 then m else Times4(m, Peek(s)))
  }

  // ---------------------------------------------------------------------------
  // The renderer state as a value, and the calls scene nodes make on it

  datatype RenderState = RenderState(world: seq<Mat4>, view: seq<Mat4>, projection: seq<Mat4>,
                                     mode: int, lights: seq<Md2.Light>)
  {
    function Stack(id: StackId): seq<Mat4>
    {
      match id
      case WorldStack => world
      case ViewStack => view
      case ProjectionStack => projection
    }

    /** `*_matrixStack`. */
    function Current(): seq<Mat4>
    {
      Stack(StackFor(mode))
    }

    /** The state with the current stack replaced and the other two kept. */
    function WithCurrent(s: seq<Mat4>): (r: RenderState)
      ensures r.Current() == s && r.mode == mode && r.lights == lights
      ensures forall id :: id != StackFor(mode) ==> r.Stack(id) == Stack(id)
    {
      match StackFor(mode)
      case WorldStack => this.(world := s)
      case ViewStack => this.(view := s)
      case ProjectionStack => this.(projection := s)
    }
  }

  /**
   * A renderer call. `Transform` carries a symbolic matrix (the rotation
   * builders are evaluated by a caller-supplied function); `DrawChild(i, t)`
   * is `draw(t)` on the i-th child, which `SceneNode::draw` brackets with push
   * and pop and which leaves the matrix mode at WORLD.
   */
  datatype Call =
    | SetMatrixMode(mode: int)
    | PushMatrix
    | PopMatrix
    | LoadIdentity
    | Transform(m: MatrixTerm)
    | AddLight(light: Md2.Light)
    | ClearLights
    | DrawChild(child: nat, time: int)

  /** The effect of one call; `popMatrix` on an empty stack is undefined behaviour in the source and gives `None`. */
  function Apply(s: RenderState, c: Call, rot: (Axis, real) -> Mat4): Option<RenderState>
  {
    match c
    case SetMatrixMode(mode) => Some(s.(mode := mode))
    case PushMatrix => Some(s.WithCurrent(Pushed(s.Current())))
    case PopMatrix => if |s.Current()| == 0 then None else Some(s.WithCurrent(Popped(s.Current())))
    case LoadIdentity => Some(s.WithCurrent(IdentityLoaded(s.Current())))
    case Transform(m) => Some(s.WithCurrent(Transformed(s.Current(), Eval(m, rot))))
    case AddLight(l) => Some(s.(lights := s.lights + [l]))
    case ClearLights => Some(s.(lights := []))
    case DrawChild(_, _) => Some(s.(mode := WORLD))
  }

  /** The calls applied in order; `None` once a pop finds an empty stack. */
  function Run(s: RenderState, calls: seq<Call>, rot: (Axis, real) -> Mat4): Option<RenderState>
    decreases |calls|
  {
    if |calls| == 0 then Some(s)
    else match Apply(s, calls[0], rot)
      case None => None
      case Some(s') => Run(s', calls[1..], rot)
  }

  /** The calls change only the top of the current stack and neither switch stacks nor pop. */
  predicate TopOnly(calls: seq<Call>)
  {
    forall i :: 0 <= i < |calls| ==> calls[i].LoadIdentity? || calls[i].Transform? || calls[i].DrawChild?
                                     || calls[i].AddLight? || calls[i].ClearLights?
  }

  /** `SceneNode::draw`: WORLD mode, then push, the node's traverse, pop. */
  function DrawCalls(traverse: seq<Call>): seq<Call>
  {
    [SetMatrixMode(WORLD), PushMatrix] + traverse + [PopMatrix]
  }

  // ---------------------------------------------------------------------------
  // The per-triangle tests of the `draw*` paths

  /** A projected vertex outside the view as written: `x < -1 || x > 1 || y < -1 || x > 1`. */
  predicate OutsideAsWritten(x: real, y: real)
  {
    x < -1.0 || x > 1.0 || y < -1.0 || x > 1.0
  }

  /** A projected vertex outside the view as evidently intended: the last test is `y > 1`. */
  predicate Outside(x: real, y: real)
  {
    x < -1.0 || x > 1.0 || y < -1.0 || y > 1.0
  }

  datatype Projected = Projected(x: real, y: real, z: real)

  /** The cull test as written: a vertex before the near or beyond the far plane, or all three outside. */
  predicate CulledAsWritten(v1: Projected, v2: Projected, v3: Projected)
  {
    v1.z < 0.0 || v2.z < 0.0 || v3.z < 0.0 || v1.z > 1.0 || v2.z > 1.0 || v3.z > 1.0
    || (OutsideAsWritten(v1.x, v1.y) && OutsideAsWritten(v2.x, v2.y) && OutsideAsWritten(v3.x, v3.y))
  }

  predicate Culled(v1: Projected, v2: Projected, v3: Projected)
  {
    v1.z < 0.0 || v2.z < 0.0 || v3.z < 0.0 || v1.z > 1.0 || v2.z > 1.0 || v3.z > 1.0
    || (Outside(v1.x, v1.y) && Outside(v2.x, v2.y) && Outside(v3.x, v3.y))
  }

  /** `drawWireFrame` skips a face facing away under BACK culling and one facing the camera under FRONT. */
  predicate WireframeSkips(cos: real, culling: CullingType)
  {
    (cos < 0.0 && culling == Back) || (cos > 0.0 && culling == Front)
  }

  /** The six solid paths skip every face with `cos < 0`, whatever the culling type. */
  predicate SolidSkips(cos: real)
  {
    cos < 0.0
  }

  /** `draw`'s fallback: TEXTURED becomes SOLID for a model without textures. */
  function EffectiveMaterial(material: MaterialType, textureCount: int): (m: MaterialType)
    ensures m == Solid <==> material == Solid || (material == Textured && textureCount <= 0)
    ensures m != Solid ==> m == material
  {
    if material == Textured && textureCount <= 0 then Solid else material
  }

  /** The draw path `draw` selects. */
  datatype DrawPath =
    | WireFramePath
    | SolidFlatPath | SolidSmoothPath | SolidPhongPath
    | SolidFlatTexturedPath | SolidSmoothTexturedPath | SolidPhongTexturedPath

  function PathFor(material: MaterialType, shading: ShadingType): (p: DrawPath)
    ensures p == WireFramePath <==> material == Wireframe
    ensures p.SolidFlatTexturedPath? || p.SolidSmoothTexturedPath? || p.SolidPhongTexturedPath? <==> material == Textured
  {
    match material
    case Wireframe => WireFramePath
    case Solid =>
      if shading == Smooth then SolidSmoothPath else if shading == Phong then SolidPhongPath else SolidFlatPath
    case Textured =>
      if shading == Smooth then SolidSmoothTexturedPath
      else if shading == Phong then SolidPhongTexturedPath else SolidFlatTexturedPath
  }

  // ---------------------------------------------------------------------------
  // The renderer object

  class Renderer {
    var world: seq<Mat4>
    var view: seq<Mat4>
    var projection: seq<Mat4>
    /** `_matrixStack`, as the stack it points at. */
    var current: StackId
    var mode: int
    var lights: seq<Md2.Light>
    var materialType: MaterialType
    var shadingType: ShadingType
    var cullingType: CullingType
    var nearView: real
    var farView: real

    /** `_matrixStack` always points at the stack `_matrixMode` selects. */
    ghost predicate Valid()
      reads this
    {
      current == StackFor(mode)
    }

    function State(): RenderState
      reads this
    {
      RenderState(world, view, projection, mode, lights)
    }

    function Current(): (c: seq<Mat4>)
      reads this
      ensures current == StackFor(mode) ==> c == State().Current()
    {
      match current
      case WorldStack => world
      case ViewStack => view
      case ProjectionStack => projection
    }

    /**
     * `Renderer(nearView, farView)`: empty stacks, the world stack current,
     * TEXTURED / SMOOTH / BACK, no lights. The source leaves `_matrixMode`
     * unset; it is taken as WORLD, the mode `_matrixStack` points at.
     */
    constructor (nearView: real, farView: real)
      ensures Valid() && State() == RenderState([], [], [], WORLD, [])
      ensures materialType == Textured && shadingType == Smooth && cullingType == Back
      ensures this.nearView == nearView && this.farView == farView
    {
      world, view, projection := [], [], [];
      current := WorldStack;
      mode := WORLD;
      lights := [];
      materialType, shadingType, cullingType := Textured, Smooth, Back;
      this.nearView, this.farView := nearView, farView;
    }

    /** Replaces the current stack, as the stack operations do through `_matrixStack`. */
    method SetCurrent(s: seq<Mat4>)
      requires Valid()
      modifies this
      ensures Valid() && State() == old(State()).WithCurrent(s)
      ensures materialType == old(materialType) && shadingType == old(shadingType) && cullingType == old(cullingType)
      ensures nearView == old(nearView) && farView == old(farView)
    {
      match current
      case WorldStack => world := s;
      case ViewStack => view := s;
      case ProjectionStack => projection := s;
    }

    method SetMatrixMode(newMode: int)
      requires Valid()
      modifies this
      ensures Valid() && State() == old(State()).(mode := newMode)
      ensures Current() == old(State()).Stack(StackFor(newMode))
      ensures Some(State()) == Apply(old(State()), Call.SetMatrixMode(newMode), (_, _) => Zero(4, 4))
      ensures materialType == old(materialType) && shadingType == old(shadingType) && cullingType == old(cullingType)
      ensures nearView == old(nearView) && farView == old(farView)
    {
      if newMode == PROJECTION {
        current := ProjectionStack;
        mode := newMode;
      } else if newMode == VIEW {
        current := ViewStack;
        mode := newMode;
      } else {
        current := WorldStack;
        mode := newMode;
      }
    }

    function GetMatrixMode(): int
      reads this
    {
      mode
    }

    method PushMatrix()
      requires Valid()
      modifies this
      ensures Valid() && State() == old(State()).WithCurrent(Pushed(old(Current())))
      ensures materialType == old(materialType) && shadingType == old(shadingType) && cullingType == old(cullingType)
      ensures nearView == old(nearView) && farView == old(farView)
    {
      if |Current()| > 0 {
        SetCurrent(Current() + [Current()[|Current()| - 1]]);
      } else {
        SetCurrent(Current() + [Zero(4, 4)]);
      }
    }

    /** `popMatrix`: `std::stack::pop` requires a non-empty stack. */
    method PopMatrix()
      requires Valid() && |Current()| > 0
      modifies this
      ensures Valid() && State() == old(State()).WithCurrent(Popped(old(Current())))
      ensures materialType == old(materialType) && shadingType == old(shadingType) && cullingType == old(cullingType)
      ensures nearView == old(nearView) && farView == old(farView)
    {
      SetCurrent(Current()[..|Current()| - 1]);
    }

    method GetMatrix() returns (m: Mat4)
      requires Valid()
      ensures m == Peek(Current())
      ensures |Current()| == 0 ==> m == Zero(4, 4)
    {
      if |Current()| > 0 {
        m := Current()[|Current()| - 1];
      } else {
        m := Zero(4, 4);
      }
    }

    /** `resetMatrixStack`: pops until the current stack is empty. */
    method ResetMatrixStack()
      requires Valid()
      modifies this
      ensures Valid() && State() == old(State()).WithCurrent([])
      ensures materialType == old(materialType) && shadingType == old(shadingType) && cullingType == old(cullingType)
      ensures nearView == old(nearView) && farView == old(farView)
    {
      while |Current()| > 0
        invariant Valid() && State() == old(State()).WithCurrent(Current())
        invariant materialType == old(materialType) && shadingType == old(shadingType) && cullingType == old(cullingType)
        invariant nearView == old(nearView) && farView == old(farView)
        decreases |Current()|
      {
        PopMatrix();
      }
    }

    method LoadIdentity()
      requires Valid()
      modifies this
      ensures Valid() && State() == old(State()).WithCurrent(IdentityLoaded(old(Current())))
      ensures materialType == old(materialType) && shadingType == old(shadingType) && cullingType == old(cullingType)
      ensures nearView == old(nearView) && farView == old(farView)
    {
      var e := Identity(4, 4);
      if |Current()| > 0 {
        SetCurrent(Current()[|Current()| - 1 := e]);
      } else {
        SetCurrent(Current() + [e]);
      }
    }

    method Transform(m: Mat4)
      requires Valid()
      modifies this
      ensures Valid() && State() == old(State()).WithCurrent(Transformed(old(Current()), m))
      ensures materialType == old(materialType) && shadingType == old(shadingType) && cullingType == old(cullingType)
      ensures nearView == old(nearView) && farView == old(farView)
    {
      if |Current()| > 0 {
        var top := Current()[|Current()| - 1];
        SetCurrent(Current()[|Current()| - 1 := Times4(m, top)]);
      } else {
        SetCurrent(Current() + [m]);
      }
    }

    method AddLight(l: Md2.Light)
      modifies this
      ensures State() == old(State()).(lights := old(lights) + [l]) && current == old(current)
      ensures materialType == old(materialType) && shadingType == old(shadingType) && cullingType == old(cullingType)
      ensures nearView == old(nearView) && farView == old(farView)
    {
      lights := lights + [l];
    }

    method ClearLights()
      modifies this
      ensures State() == old(State()).(lights := []) && current == old(current)
      ensures materialType == old(materialType) && shadingType == old(shadingType) && cullingType == old(cullingType)
      ensures nearView == old(nearView) && farView == old(farView)
    {
      lights := [];
    }

    /**
     * The state changes of `draw(model)` for a model with `textureCount`
     * textures. It reads the view matrix, switches to WORLD and, when
     * nearView < farView, returns early (false beyond the far plane, true
     * before the near one) with the mode left at WORLD. Otherwise it pushes,
     * applies the view, draws along the path for the effective material,
     * pops, restores the material type and the light list, and restores the
     * mode.
     */
    method Draw(textureCount: int) returns (drawn: bool, path: Option<DrawPath>)
      requires Valid()
      modifies this
      ensures Valid()
      ensures world == old(world) && view == old(view) && projection == old(projection) && lights == old(lights)
      ensures materialType == old(materialType) && shadingType == old(shadingType) && cullingType == old(cullingType)
      ensures nearView == old(nearView) && farView == old(farView)
      ensures path.None? ==> mode == WORLD
      ensures path.Some? ==> drawn && mode == old(mode)
                             && path.value == PathFor(EffectiveMaterial(old(materialType), textureCount), shadingType)
      ensures !(nearView < farView) ==> path.Some?
      ensures nearView < farView ==>
        var z, viewZ := Peek(old(world))[2][3], Peek(old(view))[2][3];
        (path.None? <==> z < -viewZ - farView || z > -viewZ - nearView)
        && (!drawn <==> z < -viewZ - farView)
    {
      var savedMode := mode;
      SetMatrixMode(VIEW);
      var viewMatrix := GetMatrix();
      SetMatrixMode(WORLD);
      if nearView < farView {
        var m := GetMatrix();
        var z := m[2][3];
        var viewZ := viewMatrix[2][3];
        if z < -viewZ - farView {
          return false, None;
        }
        if z > -viewZ - nearView {
          return true, None;
        }
      }
      var p := Render(textureCount, viewMatrix, savedMode);
      drawn, path := true, Some(p);
    }

    /** The part of `draw` after the depth cull: the view applied inside a push/pop, the fallback undone, the mode restored. */
    method Render(textureCount: int, viewMatrix: Mat4, savedMode: int) returns (path: DrawPath)
      requires Valid()
      modifies this
      ensures Valid() && mode == savedMode
      ensures world == old(world) && view == old(view) && projection == old(projection) && lights == old(lights)
      ensures materialType == old(materialType) && shadingType == old(shadingType) && cullingType == old(cullingType)
      ensures nearView == old(nearView) && farView == old(farView)
      ensures path == PathFor(EffectiveMaterial(old(materialType), textureCount), shadingType)
    {
      var savedLights := lights;
      ghost var s0 := State();
      PushMatrix();
      Transform(viewMatrix);
      ghost var p, t := Pushed(s0.Current()), Transformed(Pushed(s0.Current()), viewMatrix);
      WithCurrentTwice(s0, p, t);
      assert State() == s0.WithCurrent(t);
      var savedMaterial := materialType;
      if materialType == Textured && textureCount <= 0 {
        materialType := Solid;
      }
      path := PathFor(materialType, shadingType);
      PopMatrix();
      PushTransformPop(s0.Current(), viewMatrix);
      WithCurrentTwice(s0, t, s0.Current());
      WithCurrentSame(s0);
      assert State() == s0;
      materialType := savedMaterial;
      lights := savedLights;
      SetMatrixMode(savedMode);
    }
  }

  // ---------------------------------------------------------------------------
  // Properties: the stacks

  /** Popping undoes pushing, and a push leaves the top as it was. */
  lemma PushPop(s: seq<Mat4>)
    ensures Popped(Pushed(s)) == s
    ensures Peek(Pushed(s)) == Peek(s)
    ensures |s| > 0 ==> Pushed(Popped(s)) == s[|s| - 1 := Peek(Popped(s))]
  {
  }

  /** `pushMatrix; transform(m); popMatrix` leaves a stack as it was. */
  lemma PushTransformPop(s: seq<Mat4>, m: Mat4)
    ensures Popped(Transformed(Pushed(s), m)) == s
  {
  }

  lemma WithCurrentTwice(s: RenderState, a: seq<Mat4>, b: seq<Mat4>)
    ensures s.WithCurrent(a).WithCurrent(b) == s.WithCurrent(b)
  {
  }

  lemma WithCurrentSame(s: RenderState)
    ensures s.WithCurrent(s.Current()) == s
  {
  }

  /** After `loadIdentity`, `transform(m)` leaves exactly m on top. */
  lemma IdentityThenTransform(s: seq<Mat4>, m: Mat4)
    ensures Peek(Transformed(IdentityLoaded(s), m)) == m
    ensures |Transformed(IdentityLoaded(s), m)| == |IdentityLoaded(s)|
  {
    IdentityNeutral(m, 4, 4);
  }

  /** Successive transforms pre-multiply: the last one issued is the leftmost factor. */
  lemma TransformOrder(s: seq<Mat4>, a: Mat4, b: Mat4)
    requires |s| > 0
    ensures Peek(Transformed(Transformed(s, a), b)) == Times4(b, Times4(a, Peek(s)))
  {
  }

  /** A stack operation on the current stack leaves the other two stacks as they were. */
  lemma OnlyCurrentChanges(s: RenderState, c: Call, rot: (Axis, real) -> Mat4, id: StackId)
    requires c.PushMatrix? || c.PopMatrix? || c.LoadIdentity? || c.Transform?
    requires Apply(s, c, rot).Some? && id != StackFor(s.mode)
    ensures Apply(s, c, rot).value.Stack(id) == s.Stack(id)
    ensures Apply(s, c, rot).value.mode == s.mode
  {
  }

  /** Top-only calls keep the current stack's depth (at least one) and everything below its top. */
  lemma {:induction false} TopOnlyKeepsDepth(s: RenderState, calls: seq<Call>, rot: (Axis, real) -> Mat4)
    requires TopOnly(calls) && |s.Current()| > 0 && s.mode == WORLD
    ensures Run(s, calls, rot).Some?
    ensures var r := Run(s, calls, rot).value;
            |r.Current()| == |s.Current()| && r.Current()[..|s.Current()| - 1] == s.Current()[..|s.Current()| - 1]
            && r.mode == WORLD && r.view == s.view && r.projection == s.projection
    decreases |calls|
  {
    if |calls| > 0 {
      var s' := Apply(s, calls[0], rot).value;
      assert TopOnly(calls[1..]);
      TopOnlyKeepsDepth(s', calls[1..], rot);
    }
  }

  /**
   * `SceneNode::draw` restores the world stack: whatever top-only calls the
   * node's traverse makes between the push and the pop, the stacks afterwards
   * are the stacks before, and the mode is WORLD.
   */
  lemma DrawRestoresWorld(s: RenderState, traverse: seq<Call>, rot: (Axis, real) -> Mat4)
    requires TopOnly(traverse)
    ensures Run(s, DrawCalls(traverse), rot).Some?
    ensures var r := Run(s, DrawCalls(traverse), rot).value;
            r.world == s.world && r.view == s.view && r.projection == s.projection && r.mode == WORLD
  {
    var s1 := s.(mode := WORLD);
    var s2 := s1.WithCurrent(Pushed(s1.Current()));
    RunAppend(s, [SetMatrixMode(WORLD), PushMatrix], traverse + [PopMatrix], rot);
    assert DrawCalls(traverse) == [SetMatrixMode(WORLD), PushMatrix] + (traverse + [PopMatrix]);
    assert Run(s1, [PushMatrix], rot) == Run(s2, [], rot);
    assert Run(s, [SetMatrixMode(WORLD), PushMatrix], rot) == Some(s2);
    TopOnlyKeepsDepth(s2, traverse, rot);
    var s3 := Run(s2, traverse, rot).value;
    RunAppend(s2, traverse, [PopMatrix], rot);
    assert s3.Current() == s3.world && s2.Current() == s2.world;
    assert s3.world[..|s3.world| - 1] == s2.world[..|s2.world| - 1] == s.world;
    var s4 := s3.WithCurrent(Popped(s3.Current()));
    assert Run(s3, [PopMatrix], rot) == Run(s4, [], rot);
    assert s4.world == s.world && s4.view == s.view && s4.projection == s.projection;
  }

  /** Running two traces in sequence is running their concatenation. */
  lemma {:induction false} RunAppend(s: RenderState, a: seq<Call>, b: seq<Call>, rot: (Axis, real) -> Mat4)
    ensures Run(s, a + b, rot) == if Run(s, a, rot).None? then None else Run(Run(s, a, rot).value, b, rot)
    decreases |a|
  {
    if |a| > 0 {
      assert (a + b)[0] == a[0] && (a + b)[1..] == a[1..] + b;
      if Apply(s, a[0], rot).Some? {
        RunAppend(Apply(s, a[0], rot).value, a[1..], b, rot);
      }
    } else {
      assert a + b == b;
    }
  }

  // ---------------------------------------------------------------------------
  // Properties: culling

  /** With every z in [0, 1], the cull test as written accepts a triangle lying wholly above the view (y > 1), which the intended test rejects. */
  lemma CullMissesAboveView()
    ensures var v := Projected(0.0, 2.0, 0.5);
            !CulledAsWritten(v, v, v) && Culled(v, v, v)
  {
  }

  /** The intended test culls at least what the written one does; they differ only on vertices with y > 1. */
  lemma CulledAsWrittenImpliesCulled(v1: Projected, v2: Projected, v3: Projected)
    ensures CulledAsWritten(v1, v2, v3) ==> Culled(v1, v2, v3)
    ensures (v1.y <= 1.0 && v2.y <= 1.0 && v3.y <= 1.0) ==> (CulledAsWritten(v1, v2, v3) <==> Culled(v1, v2, v3))
  {
  }

  /** The solid paths ignore the culling type; wireframe without culling draws every face; under BACK the two agree. */
  lemma BackfaceRules(cos: real, culling: CullingType)
    ensures !WireframeSkips(cos, NoCulling)
    ensures WireframeSkips(cos, Back) <==> SolidSkips(cos)
    ensures WireframeSkips(cos, Front) <==> cos > 0.0
    ensures cos == 0.0 ==> !WireframeSkips(cos, culling) && !SolidSkips(cos)
  {
  }

  /** The fallback never selects a textured path for a model without textures, and keeps every other choice. */
  lemma MaterialFallback(material: MaterialType, shading: ShadingType, textureCount: int)
    ensures textureCount <= 0 ==>
              (!PathFor(EffectiveMaterial(material, textureCount), shading).SolidFlatTexturedPath?
               && !PathFor(EffectiveMaterial(material, textureCount), shading).SolidSmoothTexturedPath?
               && !PathFor(EffectiveMaterial(material, textureCount), shading).SolidPhongTexturedPath?)
    ensures textureCount > 0 ==> EffectiveMaterial(material, textureCount) == material
    ensures EffectiveMaterial(EffectiveMaterial(material, textureCount), textureCount) == EffectiveMaterial(material, textureCount)
  {
  }
}
