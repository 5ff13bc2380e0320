/**
 * The scene graph of Acun3D: `SceneNode` (a child list drawn in insertion
 * order inside a push/pop), `TransformNode` (translate / rotate / scale
 * triples turned into renderer transforms), and the animated nodes
 * `RotatingNode`, `TranslatingNode` and `PulseNode`.
 *
 * C++ inheritance becomes composition: each derived node holds its base
 * part (`base`, `node`), and a child list holds the `SceneNode` part of each
 * child. A node's `Traverse` returns the renderer calls it makes, as a
 * `seq<Call>`; a child's own drawing appears as one `DrawChild(i, time)` call.
 */
module Scenes {
  import opened Wrappers
  import opened Matrices
  import opened Renderers

  /** Three floats the source keeps side by side (`_tx, _ty, _tz`, ...). */
  datatype Triple = Triple(x: real, y: real, z: real)

  // ---------------------------------------------------------------------------
  // Traces

  /** `SceneNode::traverse`: `draw(time)` on each child, in list order. */
  function ChildDraws(n: nat, time: int): (calls: seq<Call>)
    ensures |calls| == n
    ensures forall i :: 0 <= i < n ==> calls[i] == DrawChild(i, time)
  {
    seq(n, (i: int) requires 0 <= i => DrawChild(i, time))
  }

  /** The five transforms `TransformNode::traverse` issues, in source order. */
  function TransformCalls(scaling: Triple, rotation: Triple, translation: Triple): seq<Call>
  {
    [Transform(Literal(Matrices.Scale(scaling.x, scaling.y, scaling.z))),
     Transform(Rotation(XAxis, rotation.x)),
     Transform(Rotation(YAxis, rotation.y)),
     Transform(Rotation(ZAxis, rotation.z)),
     Transform(Literal(Translation(translation.x, translation.y, translation.z)))]
  }

  /** The elements of s other than x, in their order (`std::list::remove`). */
  function Without<T(==)>(s: seq<T>, x: T): seq<T>
    decreases |s|
  {
    if |s| == 0 then []
    else (if s[0] == x then [] else [s[0]]) + Without(s[1..], x)
  }

  // ---------------------------------------------------------------------------
  // Nodes

  class SceneNode {
    var children: seq<SceneNode>

    constructor ()
      ensures children == []
    {
      children := [];
    }

    method Add(node: SceneNode)
      modifies this
      ensures children == old(children) + [node]
    {
      children := children + [node];
    }

    method Remove(node: SceneNode)
      modifies this
      ensures children == Without(old(children), node)
    {
      children := Without(children, node);
    }

    /** The children are deleted (not modelled) and the list cleared. */
    method KillChildren()
      modifies this
      ensures children == []
    {
      children := [];
    }

    method Traverse(time: int) returns (calls: seq<Call>)
      ensures calls == ChildDraws(|children|, time)
    {
      calls := [];
      for i := 0 to |children|
        invariant calls == ChildDraws(i, time)
      {
        calls := calls + [DrawChild(i, time)];
      }
    }

    /** `draw`: WORLD mode, push, `traverse`, pop; the three matrix stacks end as they began. */
    method Draw(time: int) returns (calls: seq<Call>)
      ensures calls == DrawCalls(ChildDraws(|children|, time))
      ensures forall s: RenderState, rot: (Axis, real) -> Mat4 {:trigger Run(s, calls, rot)} ::
                Run(s, calls, rot).Some? && Run(s, calls, rot).value.world == s.world
                && Run(s, calls, rot).value.view == s.view && Run(s, calls, rot).value.projection == s.projection
    {
      var t := Traverse(time);
      calls := [SetMatrixMode(WORLD), PushMatrix] + t + [PopMatrix];
      forall s: RenderState, rot: (Axis, real) -> Mat4
        ensures Run(s, calls, rot).Some? && Run(s, calls, rot).value.world == s.world
                && Run(s, calls, rot).value.view == s.view && Run(s, calls, rot).value.projection == s.projection
      {
        ChildDrawsTopOnly(|children|, time);
        DrawRestoresWorld(s, t, rot);
      }
    }
  }

  class TransformNode {
    /** The `SceneNode` part. */
    const node: SceneNode
    var translation: Triple
    var rotation: Triple
    var scaling: Triple

    constructor ()
      ensures translation == Triple(0.0, 0.0, 0.0) && rotation == Triple(0.0, 0.0, 0.0)
      ensures scaling == Triple(1.0, 1.0, 1.0)
      ensures fresh(node) && node.children == []
    {
      node := new SceneNode();
      translation := Triple(0.0, 0.0, 0.0);
      rotation := Triple(0.0, 0.0, 0.0);
      scaling := Triple(1.0, 1.0, 1.0);
    }

    method SetTranslate(x: real, y: real, z: real)
      modifies this
      ensures translation == Triple(x, y, z) && rotation == old(rotation) && scaling == old(scaling)
    {
      translation := Triple(x, y, z);
    }

    method SetRotate(x: real, y: real, z: real)
      modifies this
      ensures rotation == Triple(x, y, z) && translation == old(translation) && scaling == old(scaling)
    {
      rotation := Triple(x, y, z);
    }

    method SetScale(x: real, y: real, z: real)
      modifies this
      ensures scaling == Triple(x, y, z) && translation == old(translation) && rotation == old(rotation)
    {
      scaling := Triple(x, y, z);
    }

    method Translate(x: real, y: real, z: real)
      modifies this
      ensures translation == Triple(old(translation).x + x, old(translation).y + y, old(translation).z + z)
      ensures rotation == old(rotation) && scaling == old(scaling)
    {
      translation := Triple(translation.x + x, translation.y + y, translation.z + z);
    }

    method Rotate(x: real, y: real, z: real)
      modifies this
      ensures rotation == Triple(old(rotation).x + x, old(rotation).y + y, old(rotation).z + z)
      ensures translation == old(translation) && scaling == old(scaling)
    {
      rotation := Triple(rotation.x + x, rotation.y + y, rotation.z + z);
    }

    method Scale(x: real, y: real, z: real)
      modifies this
      ensures scaling == Triple(old(scaling).x * x, old(scaling).y * y, old(scaling).z * z)
      ensures translation == old(translation) && rotation == old(rotation)
    {
      scaling := Triple(scaling.x * x, scaling.y * y, scaling.z * z);
    }

    /** Scale, X, Y and Z rotation, translation, then the children. */
    method Traverse(time: int) returns (calls: seq<Call>)
      ensures calls == TransformCalls(scaling, rotation, translation) + ChildDraws(|node.children|, time)
    {
      calls := [Transform(Literal(Matrices.Scale(scaling.x, scaling.y, scaling.z)))];
      calls := calls + [Transform(Rotation(XAxis, rotation.x))];
      calls := calls + [Transform(Rotation(YAxis, rotation.y))];
      calls := calls + [Transform(Rotation(ZAxis, rotation.z))];
      calls := calls + [Transform(Literal(Translation(translation.x, translation.y, translation.z)))];
      var children := node.Traverse(time);
      calls := calls + children;
    }
  }

  /** Each angle advanced by its rate times the elapsed time times the speed. */
  function Advanced(a: Triple, rates: Triple, lastUpdate: int, time: int, speed: real): Triple
  {
    var k := (time - lastUpdate) as real * speed;
    Triple(a.x + rates.x * k, a.y + rates.y * k, a.z + rates.z * k)
  }

  class RotatingNode {
    /** The `TransformNode` part. */
    const base: TransformNode
    /** `_rx, _ry, _rz`: rotation rates, distinct from the base's angles. */
    var rates: Triple
    var speed: real
    var lastUpdate: int

    constructor (rx: real, ry: real, rz: real)
      ensures rates == Triple(rx, ry, rz) && speed == 0.0 && lastUpdate == 0
      ensures fresh(base) && base.rotation == Triple(0.0, 0.0, 0.0)
    {
      base := new TransformNode();
      rates := Triple(rx, ry, rz);
      speed, lastUpdate := 0.0, 0;
    }

    constructor Timed(rx: real, ry: real, rz: real, speed: real, time: int)
      ensures rates == Triple(rx, ry, rz) && this.speed == speed && lastUpdate == time
      ensures fresh(base) && base.rotation == Triple(0.0, 0.0, 0.0)
    {
      base := new TransformNode();
      rates := Triple(rx, ry, rz);
      this.speed, lastUpdate := speed, time;
    }

    method SetTime(time: int)
      modifies this
      ensures lastUpdate == time && rates == old(rates) && speed == old(speed)
    {
      lastUpdate := time;
    }

    method SetRotatingFrequency(rx: real, ry: real, rz: real)
      modifies this
      ensures rates == Triple(rx, ry, rz) && speed == old(speed) && lastUpdate == old(lastUpdate)
    {
      rates := Triple(rx, ry, rz);
    }

    method Traverse(time: int) returns (calls: seq<Call>)
      modifies this, base
      ensures base.rotation == Advanced(old(base.rotation), rates, old(lastUpdate), time, speed)
      ensures base.translation == old(base.translation) && base.scaling == old(base.scaling)
      ensures lastUpdate == time && rates == old(rates) && speed == old(speed)
      ensures calls == TransformCalls(base.scaling, base.rotation, base.translation) + ChildDraws(|base.node.children|, time)
    {
      var rot := (time - lastUpdate) as real * speed;
      base.Rotate(rates.x * rot, rates.y * rot, rates.z * rot);
      lastUpdate := time;
      calls := base.Traverse(time);
    }
  }

  class TranslatingNode {
    /** The `TransformNode` part. */
    const base: TransformNode
    /** `_tx, _ty, _tz`: translation rates, distinct from the base's offsets. */
    var rates: Triple
    var speed: real
    var lastUpdate: int

    constructor (tx: real, ty: real, tz: real)
      ensures rates == Triple(tx, ty, tz) && speed == 0.0 && lastUpdate == 0
      ensures fresh(base) && base.translation == Triple(0.0, 0.0, 0.0)
    {
      base := new TransformNode();
      rates := Triple(tx, ty, tz);
      speed, lastUpdate := 0.0, 0;
    }

    constructor Timed(tx: real, ty: real, tz: real, speed: real, time: int)
      ensures rates == Triple(tx, ty, tz) && this.speed == speed && lastUpdate == time
      ensures fresh(base) && base.translation == Triple(0.0, 0.0, 0.0)
    {
      base := new TransformNode();
      rates := Triple(tx, ty, tz);
      this.speed, lastUpdate := speed, time;
    }

    method SetTime(time: int)
      modifies this
      ensures lastUpdate == time && rates == old(rates) && speed == old(speed)
    {
      lastUpdate := time;
    }

    method SetTranslatingFrequency(tx: real, ty: real, tz: real)
      modifies this
      ensures rates == Triple(tx, ty, tz) && speed == old(speed) && lastUpdate == old(lastUpdate)
    {
      rates := Triple(tx, ty, tz);
    }

    /** As `RotatingNode::traverse` on the translation, except that the children are drawn with time 0. */
    method Traverse(time: int) returns (calls: seq<Call>)
      modifies this, base
      ensures base.translation == Advanced(old(base.translation), rates, old(lastUpdate), time, speed)
      ensures base.rotation == old(base.rotation) && base.scaling == old(base.scaling)
      ensures lastUpdate == time && rates == old(rates) && speed == old(speed)
      ensures calls == TransformCalls(base.scaling, base.rotation, base.translation) + ChildDraws(|base.node.children|, 0)
    {
      var rot := (time - lastUpdate) as real * speed;
      base.Translate(rates.x * rot, rates.y * rot, rates.z * rot);
      lastUpdate := time;
      calls := base.Traverse(0);
    }
  }

  // ---------------------------------------------------------------------------
  // PulseNode: a scale bouncing between two bounds

  /** The `min` and `max` templates of PulseNode.cpp. */
  function Lo(a: real, b: real): real
  {
    if a < b then a else b
  }

  function Hi(a: real, b: real): real
  {
    if a > b then a else b
  }

  /** One component clamped as `traverse` does: first raised to the lower bound, then lowered to the upper. */
  function ClampAxis(c: real, a: real, b: real): real
  {
    var raised := if c < Lo(a, b) then Lo(a, b) else c;
    if raised > Hi(a, b) then Hi(a, b) else raised
  }

  function ClampTriple(c: Triple, s1: Triple, s2: Triple): Triple
  {
    Triple(ClampAxis(c.x, s1.x, s2.x), ClampAxis(c.y, s1.y, s2.y), ClampAxis(c.z, s1.z, s2.z))
  }

  predicate AxisWithin(c: real, a: real, b: real)
  {
    Lo(a, b) <= c <= Hi(a, b)
  }

  /** Every component between its two bounds. */
  predicate Within(c: Triple, s1: Triple, s2: Triple)
  {
    AxisWithin(c.x, s1.x, s2.x) && AxisWithin(c.y, s1.y, s2.y) && AxisWithin(c.z, s1.z, s2.z)
  }

  /** The step of PulseNode.cpp:86-88 as written: the y component moves by k * (sy1 - sx2). */
  function StepAsWritten(c: Triple, s1: Triple, s2: Triple, k: real): Triple
  {
    Triple(c.x + k * (s1.x - s2.x), c.y + k * (s1.y - s2.x), c.z + k * (s1.z - s2.z))
  }

  /** The evidently intended step: each component moves by k times its own span. */
  function Step(c: Triple, s1: Triple, s2: Triple, k: real): Triple
  {
    Triple(c.x + k * (s1.x - s2.x), c.y + k * (s1.y - s2.y), c.z + k * (s1.z - s2.z))
  }

  /** The step multiplier: elapsed time times speed, or 1 when `time` is 0; then times the direction. */
  function PulseFactor(time: int, lastUpdate: int, speed: real, sm: real): real
  {
    (if time != 0 then (time - lastUpdate) as real * speed else 1.0) * sm
  }

  class PulseNode {
    /** The `TransformNode` part. */
    const base: TransformNode
    /** `_sx1, _sy1, _sz1` and `_sx2, _sy2, _sz2`: the two bounds. */
    var s1: Triple
    var s2: Triple
    /** `_sxc, _syc, _szc`. */
    var current: Triple
    /** `_sm`: the direction, 1 or -1. */
    var sm: real
    var speed: real
    var lastUpdate: int

    constructor (sx1: real, sy1: real, sz1: real, sx2: real, sy2: real, sz2: real)
      ensures s1 == Triple(sx1, sy1, sz1) && s2 == Triple(sx2, sy2, sz2) && current == s1
      ensures sm == 1.0 && speed == 0.0 && lastUpdate == 0 && fresh(base)
    {
      base := new TransformNode();
      s1, s2 := Triple(sx1, sy1, sz1), Triple(sx2, sy2, sz2);
      current := Triple(sx1, sy1, sz1);
      sm, speed, lastUpdate := 1.0, 0.0, 0;
    }

    constructor Timed(sx1: real, sy1: real, sz1: real, sx2: real, sy2: real, sz2: real, speed: real, time: int)
      ensures s1 == Triple(sx1, sy1, sz1) && s2 == Triple(sx2, sy2, sz2) && current == s1
      ensures sm == 1.0 && this.speed == speed && lastUpdate == time && fresh(base)
    {
      base := new TransformNode();
      s1, s2 := Triple(sx1, sy1, sz1), Triple(sx2, sy2, sz2);
      current := Triple(sx1, sy1, sz1);
      sm, this.speed, lastUpdate := 1.0, speed, time;
    }

    constructor Uniform(lo: real, hi: real)
      ensures s1 == Triple(lo, lo, lo) && s2 == Triple(hi, hi, hi) && current == s1
      ensures sm == 1.0 && speed == 0.0 && lastUpdate == 0 && fresh(base)
    {
      base := new TransformNode();
      s1, s2 := Triple(lo, lo, lo), Triple(hi, hi, hi);
      current := Triple(lo, lo, lo);
      sm, speed, lastUpdate := 1.0, 0.0, 0;
    }

    constructor UniformTimed(lo: real, hi: real, speed: real, time: int)
      ensures s1 == Triple(lo, lo, lo) && s2 == Triple(hi, hi, hi) && current == s1
      ensures sm == 1.0 && this.speed == speed && lastUpdate == time && fresh(base)
    {
      base := new TransformNode();
      s1, s2 := Triple(lo, lo, lo), Triple(hi, hi, hi);
      current := Triple(lo, lo, lo);
      sm, this.speed, lastUpdate := 1.0, speed, time;
    }

    method SetTime(time: int)
      modifies this
      ensures lastUpdate == time && s1 == old(s1) && s2 == old(s2) && current == old(current)
      ensures sm == old(sm) && speed == old(speed)
    {
      lastUpdate := time;
    }

    /** The two-argument `setPulseFrequency`: the same bound on every axis. */
    method SetUniformPulseFrequency(lo: real, hi: real)
      modifies this
      ensures s1 == Triple(lo, lo, lo) && s2 == Triple(hi, hi, hi)
      ensures current == old(current) && sm == old(sm) && speed == old(speed) && lastUpdate == old(lastUpdate)
    {
      s1, s2 := Triple(lo, lo, lo), Triple(hi, hi, hi);
    }

    method SetPulseFrequency(sx1: real, sy1: real, sz1: real, sx2: real, sy2: real, sz2: real)
      modifies this
      ensures s1 == Triple(sx1, sy1, sz1) && s2 == Triple(sx2, sy2, sz2)
      ensures current == old(current) && sm == old(sm) && speed == old(speed) && lastUpdate == old(lastUpdate)
    {
      s1, s2 := Triple(sx1, sy1, sz1), Triple(sx2, sy2, sz2);
    }

    /**
     * One step as written (the y step uses `_sx2`), a direction flip when any
     * component overshot, the clamp back between the bounds, and the
     * resulting scale handed to the `TransformNode` part.
     */
    method Traverse(time: int) returns (calls: seq<Call>)
      modifies this, base
      ensures var raw := StepAsWritten(old(current), s1, s2, PulseFactor(time, old(lastUpdate), speed, old(sm)));
              current == ClampTriple(raw, s1, s2)
              && sm == (if Within(raw, s1, s2) then old(sm) else -old(sm))
      ensures Within(current, s1, s2)
      ensures lastUpdate == time && s1 == old(s1) && s2 == old(s2) && speed == old(speed)
      ensures base.scaling == current
      ensures base.rotation == old(base.rotation) && base.translation == old(base.translation)
      ensures calls == TransformCalls(current, base.rotation, base.translation) + ChildDraws(|base.node.children|, time)
    {
      ghost var last := lastUpdate;
      var scaleFactor := 1.0;
      if time != 0 {
        scaleFactor := (time - lastUpdate) as real * speed;
        lastUpdate := time;
      }
      assert scaleFactor * sm == PulseFactor(time, last, speed, sm);
      Bounce(scaleFactor);
      base.SetScale(current.x, current.y, current.z);
      lastUpdate := time;
      calls := base.Traverse(time);
    }

    /** PulseNode.cpp:86-88: the step by `scaleFactor * _sm`, then the flip and the clamps. */
    method Bounce(scaleFactor: real)
      modifies this
      ensures var raw := StepAsWritten(old(current), s1, s2, scaleFactor * old(sm));
              current == ClampTriple(raw, s1, s2)
              && sm == (if Within(raw, s1, s2) then old(sm) else -old(sm))
      ensures Within(current, s1, s2)
      ensures lastUpdate == old(lastUpdate) && s1 == old(s1) && s2 == old(s2) && speed == old(speed)
    {
      var sxc := current.x + scaleFactor * sm * (s1.x - s2.x);
      var syc := current.y + scaleFactor * sm * (s1.y - s2.x);
      var szc := current.z + scaleFactor * sm * (s1.z - s2.z);
      ghost var raw := StepAsWritten(current, s1, s2, scaleFactor * sm);
      assert Triple(sxc, syc, szc) == raw;
      Settle(sxc, syc, szc);
    }

    /** PulseNode.cpp:90-105: the direction flips when any component is out of range; each is clamped back. */
    method Settle(sxc: real, syc: real, szc: real)
      modifies this
      ensures current == ClampTriple(Triple(sxc, syc, szc), s1, s2)
      ensures sm == (if Within(Triple(sxc, syc, szc), s1, s2) then old(sm) else -old(sm))
      ensures Within(current, s1, s2)
      ensures lastUpdate == old(lastUpdate) && s1 == old(s1) && s2 == old(s2) && speed == old(speed)
    {
      var sxc, syc, szc := sxc, syc, szc;
      if sxc < Lo(s1.x, s2.x) || syc < Lo(s1.y, s2.y) || szc < Lo(s1.z, s2.z)
         || sxc > Hi(s1.x, s2.x) || syc > Hi(s1.y, s2.y) || szc > Hi(s1.z, s2.z) {
        sm := sm * -1.0;
      }
      ghost var raw := Triple(sxc, syc, szc);
      if sxc < Lo(s1.x, s2.x) { sxc := Lo(s1.x, s2.x); }
      if syc < Lo(s1.y, s2.y) { syc := Lo(s1.y, s2.y); }
      if szc < Lo(s1.z, s2.z) { szc := Lo(s1.z, s2.z); }
      if sxc > Hi(s1.x, s2.x) { sxc := Hi(s1.x, s2.x); }
      if syc > Hi(s1.y, s2.y) { syc := Hi(s1.y, s2.y); }
      if szc > Hi(s1.z, s2.z) { szc := Hi(s1.z, s2.z); }
      current := Triple(sxc, syc, szc);
      ClampWithin(raw, s1, s2);
    }
  }

  // ---------------------------------------------------------------------------
  // Properties: child lists

  /** `remove` deletes every occurrence of x and keeps how often each other node occurs. */
  lemma {:induction false} WithoutCounts<T>(s: seq<T>, x: T)
    ensures x !in Without(s, x)
    ensures forall y :: y != x ==> multiset(Without(s, x))[y] == multiset(s)[y]
    ensures |Without(s, x)| == |s| - multiset(s)[x]
    decreases |s|
  {
    if |s| > 0 {
      WithoutCounts(s[1..], x);
      assert s == [s[0]] + s[1..];
      assert multiset(s) == multiset{s[0]} + multiset(s[1..]);
    }
  }

  /** `remove` keeps the relative order of the other nodes: it distributes over concatenation. */
  lemma {:induction false} WithoutAppend<T>(a: seq<T>, b: seq<T>, x: T)
    ensures Without(a + b, x) == Without(a, x) + Without(b, x)
    decreases |a|
  {
    if |a| == 0 {
      assert a + b == b;
    } else {
      assert (a + b)[0] == a[0] && (a + b)[1..] == a[1..] + b;
      WithoutAppend(a[1..], b, x);
    }
  }

  /** Removing a node that is not a child changes nothing; removing twice is removing once. */
  lemma {:induction false} WithoutAbsent<T>(s: seq<T>, x: T)
    ensures x !in s ==> Without(s, x) == s
    ensures Without(Without(s, x), x) == Without(s, x)
    decreases |s|
  {
    if |s| > 0 {
      WithoutAbsent(s[1..], x);
      if s[0] != x {
        var w := Without(s, x);
        assert w == [s[0]] + Without(s[1..], x);
        assert w[0] == s[0] && w[1..] == Without(s[1..], x);
        assert Without(w, x) == [s[0]] + Without(w[1..], x);
      } else {
        assert Without(s, x) == [] + Without(s[1..], x) == Without(s[1..], x);
      }
    }
  }

  /** `add` then `remove` of a node not already a child restores the list. */
  lemma AddThenRemove<T>(s: seq<T>, x: T)
    requires x !in s
    ensures Without(s + [x], x) == s
  {
    WithoutAppend(s, [x], x);
    WithoutAbsent(s, x);
    assert Without([x], x) == [] + Without([], x);
  }

  // ---------------------------------------------------------------------------
  // Properties: what the traces do to the renderer

  lemma ChildDrawsTopOnly(n: nat, time: int)
    ensures TopOnly(ChildDraws(n, time))
  {
  }

  lemma TransformCallsTopOnly(scaling: Triple, rotation: Triple, translation: Triple, n: nat, time: int)
    ensures TopOnly(TransformCalls(scaling, rotation, translation) + ChildDraws(n, time))
  {
  }

  /** Child draws leave a WORLD-mode state exactly as it was. */
  lemma {:induction false} ChildDrawsNeutral(s: RenderState, calls: seq<Call>, rot: (Axis, real) -> Mat4)
    requires s.mode == WORLD
    requires forall i :: 0 <= i < |calls| ==> calls[i].DrawChild?
    ensures Run(s, calls, rot) == Some(s)
    decreases |calls|
  {
    if |calls| > 0 {
      assert Apply(s, calls[0], rot) == Some(s);
      ChildDrawsNeutral(s, calls[1..], rot);
    }
  }

  /**
   * A transform node's traverse, run in WORLD mode on a non-empty world
   * stack, pre-multiplies the top by scale, then the X, Y and Z rotations,
   * then the translation (so a vertex is scaled first and translated last),
   * and touches nothing else.
   */
  lemma TransformNodeComposes(s: RenderState, scaling: Triple, rotation: Triple, translation: Triple,
                              n: nat, time: int, rot: (Axis, real) -> Mat4)
    requires s.mode == WORLD && |s.world| > 0
    ensures Run(s, TransformCalls(scaling, rotation, translation) + ChildDraws(n, time), rot).Some?
    ensures var r := Run(s, TransformCalls(scaling, rotation, translation) + ChildDraws(n, time), rot).value;
            r.world == s.world[|s.world| - 1 := NodeTop(Peek(s.world), scaling, rotation, translation, rot)]
            && r.view == s.view && r.projection == s.projection && r.mode == WORLD && r.lights == s.lights
  {
    var calls := TransformCalls(scaling, rotation, translation);
    RunAppend(s, calls, ChildDraws(n, time), rot);
    RunTransformCalls(s, scaling, rotation, translation, rot);
    var r := s.(world := s.world[|s.world| - 1 := NodeTop(Peek(s.world), scaling, rotation, translation, rot)]);
    ChildDrawsNeutral(r, ChildDraws(n, time), rot);
  }

  /**
   * The top of the world stack after a transform node's five transforms:
   * translation * (Rz * (Ry * (Rx * (scale * top)))).
   */
  function NodeTop(top: Mat4, scaling: Triple, rotation: Triple, translation: Triple, rot: (Axis, real) -> Mat4): Mat4
  {
    Times4(Translation(translation.x, translation.y, translation.z),
      Times4(rot(ZAxis, rotation.z),
        Times4(rot(YAxis, rotation.y),
          Times4(rot(XAxis, rotation.x),
            Times4(Matrices.Scale(scaling.x, scaling.y, scaling.z), top)))))
  }

  lemma RunTransformCalls(s: RenderState, scaling: Triple, rotation: Triple, translation: Triple, rot: (Axis, real) -> Mat4)
    requires s.mode == WORLD && |s.world| > 0
    ensures Run(s, TransformCalls(scaling, rotation, translation), rot)
         == Some(s.(world := s.world[|s.world| - 1 := NodeTop(Peek(s.world), scaling, rotation, translation, rot)]))
  {
    var calls := TransformCalls(scaling, rotation, translation);
    var w := s.world;
    var k := |w| - 1;
    var t1 := Times4(Matrices.Scale(scaling.x, scaling.y, scaling.z), w[k]);
    var t2 := Times4(rot(XAxis, rotation.x), t1);
    var t3 := Times4(rot(YAxis, rotation.y), t2);
    var t4 := Times4(rot(ZAxis, rotation.z), t3);
    assert w[k := w[k]] == w;
    TransformStep(s, calls, 0, w[k], rot);
    TransformStep(s, calls, 1, t1, rot);
    TransformStep(s, calls, 2, t2, rot);
    TransformStep(s, calls, 3, t3, rot);
    TransformStep(s, calls, 4, t4, rot);
    assert calls[0..] == calls && calls[5..] == [];
  }

  /** The i-th call, a transform, run in WORLD mode with `top` on the world stack. */
  lemma TransformStep(s: RenderState, calls: seq<Call>, i: nat, top: Mat4, rot: (Axis, real) -> Mat4)
    requires s.mode == WORLD && |s.world| > 0 && i < |calls| && calls[i].Transform?
    ensures Run(s.(world := s.world[|s.world| - 1 := top]), calls[i..], rot)
         == Run(s.(world := s.world[|s.world| - 1 := Times4(Eval(calls[i].m, rot), top)]), calls[i + 1..], rot)
  {
    var k := |s.world| - 1;
    var before := s.(world := s.world[k := top]);
    TransformInWorld(before, calls[i].m, rot);
    assert before.world[k := Times4(Eval(calls[i].m, rot), top)] == s.world[k := Times4(Eval(calls[i].m, rot), top)];
    RunStep(before, calls, i, s.(world := s.world[k := Times4(Eval(calls[i].m, rot), top)]), rot);
  }

  /** Running from the i-th call: one step, then the rest. */
  lemma RunStep(s: RenderState, calls: seq<Call>, i: nat, s': RenderState, rot: (Axis, real) -> Mat4)
    requires i < |calls| && Apply(s, calls[i], rot) == Some(s')
    ensures Run(s, calls[i..], rot) == Run(s', calls[i + 1..], rot)
  {
    assert calls[i..][0] == calls[i] && calls[i..][1..] == calls[i + 1..];
  }

  /** One transform in WORLD mode pre-multiplies the top of the world stack. */
  lemma TransformInWorld(s: RenderState, t: MatrixTerm, rot: (Axis, real) -> Mat4)
    requires s.mode == WORLD && |s.world| > 0
    ensures Apply(s, Transform(t), rot)
         == Some(s.(world := s.world[|s.world| - 1 := Times4(Eval(t, rot), s.world[|s.world| - 1])]))
  {
  }

  // ---------------------------------------------------------------------------
  // Properties: the animated nodes

  /** Two traversals at t1 then t2 advance the angles as one traversal at t2 would. */
  lemma AdvancedTelescopes(a: Triple, rates: Triple, lastUpdate: int, t1: int, t2: int, speed: real)
    ensures Advanced(Advanced(a, rates, lastUpdate, t1, speed), rates, t1, t2, speed)
         == Advanced(a, rates, lastUpdate, t2, speed)
  {
    var k1, k2 := (t1 - lastUpdate) as real * speed, (t2 - t1) as real * speed;
    assert k1 + k2 == (t2 - lastUpdate) as real * speed;
    assert rates.x * k1 + rates.x * k2 == rates.x * (k1 + k2);
    assert rates.y * k1 + rates.y * k2 == rates.y * (k1 + k2);
    assert rates.z * k1 + rates.z * k2 == rates.z * (k1 + k2);
    var b := Advanced(a, rates, lastUpdate, t1, speed);
    assert b == Triple(a.x + rates.x * k1, a.y + rates.y * k1, a.z + rates.z * k1);
    assert Advanced(b, rates, t1, t2, speed) == Triple(b.x + rates.x * k2, b.y + rates.y * k2, b.z + rates.z * k2);
  }

  /** With speed 0, or no time elapsed, traversal leaves the angles where they were. */
  lemma AdvancedStill(a: Triple, rates: Triple, lastUpdate: int, time: int, speed: real)
    requires speed == 0.0 || time == lastUpdate
    ensures Advanced(a, rates, lastUpdate, time, speed) == a
  {
  }

  /** Clamping one component lands between its bounds and changes it exactly when it was outside them. */
  lemma ClampAxisProperties(c: real, a: real, b: real)
    ensures AxisWithin(ClampAxis(c, a, b), a, b)
    ensures ClampAxis(c, a, b) == c <==> AxisWithin(c, a, b)
    ensures ClampAxis(ClampAxis(c, a, b), a, b) == ClampAxis(c, a, b)
  {
  }

  lemma ClampWithin(c: Triple, s1: Triple, s2: Triple)
    ensures Within(ClampTriple(c, s1, s2), s1, s2)
    ensures ClampTriple(c, s1, s2) == c <==> Within(c, s1, s2)
  {
    ClampAxisProperties(c.x, s1.x, s2.x);
    ClampAxisProperties(c.y, s1.y, s2.y);
    ClampAxisProperties(c.z, s1.z, s2.z);
  }

  /**
   * As written, the y component does not depend on the y bounds alone: with
   * bounds (1, 1, 1) and (1, 2, 1), which should pulse y between 1 and 2,
   * the y step is zero, so y never moves; the intended step moves it.
   */
  lemma StepAsWrittenIgnoresY(c: Triple, k: real)
    requires k != 0.0
    ensures StepAsWritten(c, Triple(1.0, 1.0, 1.0), Triple(1.0, 2.0, 1.0), k).y == c.y
    ensures Step(c, Triple(1.0, 1.0, 1.0), Triple(1.0, 2.0, 1.0), k).y == c.y - k
    ensures StepAsWritten(c, Triple(1.0, 1.0, 1.0), Triple(1.0, 2.0, 1.0), k)
         != Step(c, Triple(1.0, 1.0, 1.0), Triple(1.0, 2.0, 1.0), k)
  {
  }

  /**
   * The intended step treats the axes independently: each component's new
   * value depends only on that component's bounds; and a step followed by
   * the opposite step returns to the start.
   */
  lemma StepAxesIndependent(c: Triple, s1: Triple, s2: Triple, t1: Triple, t2: Triple, k: real)
    ensures s1.x == t1.x && s2.x == t2.x ==> Step(c, s1, s2, k).x == Step(c, t1, t2, k).x
    ensures s1.y == t1.y && s2.y == t2.y ==> Step(c, s1, s2, k).y == Step(c, t1, t2, k).y
    ensures s1.z == t1.z && s2.z == t2.z ==> Step(c, s1, s2, k).z == Step(c, t1, t2, k).z
    ensures Step(Step(c, s1, s2, k), s1, s2, -k) == c
  {
  }

  /** A step that stays between the bounds keeps the direction; one that overshoots is clamped and reverses it. */
  lemma PulseBounce(c: Triple, s1: Triple, s2: Triple, k: real)
    ensures !Within(StepAsWritten(c, s1, s2, k), s1, s2) ==>
              ClampTriple(StepAsWritten(c, s1, s2, k), s1, s2) != StepAsWritten(c, s1, s2, k)
    ensures Within(StepAsWritten(c, s1, s2, k), s1, s2) ==>
              ClampTriple(StepAsWritten(c, s1, s2, k), s1, s2) == StepAsWritten(c, s1, s2, k)
  {
    ClampWithin(StepAsWritten(c, s1, s2, k), s1, s2);
  }
}
