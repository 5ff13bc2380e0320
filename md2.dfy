/**
 * The animation state machine and the vertex lighting of Acun3D/MD2_Model.cpp.
 * `setAnimation` and `animate` step the `_animation` record in place; the
 * lighting sums one colour term per light and clamps the sum to 1.
 */
module Md2 {
  import opened Colours
  import Vectors

  // ---------------------------------------------------------------------------
  // Lights

  /** The light kinds of LightTypes.h with the fields their classes add to `Light`. */
  datatype LightKind =
    | PointLight(position: Vectors.Vec4)
    | DirectionalLight(direction: Vectors.Vec4)
    | AmbientLight(intensity: real)
    | Spotlight(position: Vectors.Vec4, direction: Vectors.Vec4, fov: real, exponent: real)

  datatype Light = Light(kind: LightKind, colour: Rgb)

  /**
   * The floating-point quantities `calculateLight` derives from the vertex
   * position and normal and the light's geometry, for one light:
   * `cosLightNormal` (light direction . normal), `reflectedDot` (reflected
   * direction . camera direction) and `specularPow` (its 32nd power),
   * `spotDot` (light direction . spot direction), `cosFov` (cos of the spot's
   * field of view) and `spotPow` (spotDot to the spot's exponent).
   */
  datatype Terms = Terms(cosLightNormal: real, reflectedDot: real, specularPow: real,
                         spotDot: real, cosFov: real, spotPow: real)

  const SpecularCoefficient: real := 1.0
  const DiffuseCoefficient: real := 0.7

  /** Half-Lambert diffuse term: (cos + 1) / 2. */
  function Diffuse(t: Terms): real
  {
    (t.cosLightNormal + 1.0) / 2.0
  }

  /** The specular term: 0 when the reflected direction faces away, its power otherwise. */
  function Specular(t: Terms): real
  {
    if t.reflectedDot < 0.0 then 0.0 else t.specularPow
  }

  /** A spotlight's factor: the powered dot inside the cone, 0 outside it, and never negative. */
  function SpotFactor(t: Terms): real
  {
    var f := if t.spotDot >= t.cosFov then t.spotPow else 0.0;
    if f < 0.0 then 0.0 else f
  }

  /** `calculateLight`: ambient lights give colour * intensity; the others colour * (specular + 0.7 diffuse) * spot factor. */
  function CalculateLight(l: Light, t: Terms): Rgb
  {
    if l.kind.AmbientLight? then Scaled(l.colour, l.kind.intensity)
    else
      var spotFactor := if l.kind.Spotlight? then SpotFactor(t) else 1.0;
      var total := (Specular(t) * SpecularCoefficient + Diffuse(t) * DiffuseCoefficient) * spotFactor;
      Scaled(l.colour, total)
  }

  /** The sum of the first |lights| terms, added in list order to (0, 0, 0). */
  function SumLights(lights: seq<Light>, terms: Light -> Terms): Rgb
  {
    if |lights| == 0 then Black
    else Plus(SumLights(lights[..|lights| - 1], terms), CalculateLight(lights[|lights| - 1], terms(lights[|lights| - 1])))
  }

  /**
   * `calculateLights`: a colour starting at (0, 0, 0), each light's term added
   * with `+=`, then `clamp(1.0f)`.
   */
  method CalculateLights(lights: seq<Light>, terms: Light -> Terms) returns (c: Rgb)
    ensures c == Clamped(SumLights(lights, terms), 1.0)
    ensures AtMost(c, 1.0)
    ensures |lights| == 0 ==> c == Black
  {
    var colour := new Colour(0.0, 0.0, 0.0);
    for i := 0 to |lights|
      invariant colour.Value() == SumLights(lights[..i], terms)
    {
      assert lights[..i + 1][..i] == lights[..i];
      var l := CalculateLight(lights[i], terms(lights[i]));
      var term := new Colour(l.r, l.g, l.b);
      colour.AddAssign(term);
    }
    assert lights[..|lights|] == lights;
    colour.Clamp(1.0);
    c := colour.Value();
    ClampedBound(SumLights(lights, terms), 1.0);
  }

  predicate NonNegative(c: Rgb)
  {
    c.r >= 0.0 && c.g >= 0.0 && c.b >= 0.0
  }

  /** Lights a vertex can physically receive: non-negative colours and intensities, unit cosines, non-negative powers. */
  predicate Physical(l: Light, t: Terms)
  {
    NonNegative(l.colour) && (l.kind.AmbientLight? ==> l.kind.intensity >= 0.0)
    && -1.0 <= t.cosLightNormal && 0.0 <= t.specularPow
  }

  // ---------------------------------------------------------------------------
  // Properties: lighting

  /** An ambient light's term depends on neither the position nor the normal. */
  lemma AmbientIgnoresSurface(l: Light, t: Terms, t': Terms)
    requires l.kind.AmbientLight?
    ensures CalculateLight(l, t) == CalculateLight(l, t')
    ensures CalculateLight(l, t) == Scaled(l.colour, l.kind.intensity)
  {
  }

  /** The spot factor is never negative, is 0 outside the cone, and is the powered dot inside it when that is not negative. */
  lemma SpotFactorRange(t: Terms)
    ensures SpotFactor(t) >= 0.0
    ensures t.spotDot < t.cosFov ==> SpotFactor(t) == 0.0
    ensures t.spotDot >= t.cosFov && t.spotPow >= 0.0 ==> SpotFactor(t) == t.spotPow
  {
  }

  /** A spotlight contributes black to a vertex outside its cone. */
  lemma SpotOutsideConeIsDark(l: Light, t: Terms)
    requires l.kind.Spotlight? && t.spotDot < t.cosFov
    ensures CalculateLight(l, t) == Black
  {
  }

  /** The half-Lambert term lies in [0, 1] when the cosine does. */
  lemma DiffuseRange(t: Terms)
    requires -1.0 <= t.cosLightNormal <= 1.0
    ensures 0.0 <= Diffuse(t) <= 1.0
  {
  }

  /** A physical light never takes colour away. */
  lemma LightNonNegative(l: Light, t: Terms)
    requires Physical(l, t)
    ensures NonNegative(CalculateLight(l, t))
  {
    SpotFactorRange(t);
    if !l.kind.AmbientLight? {
      var spotFactor := if l.kind.Spotlight? then SpotFactor(t) else 1.0;
      var total := (Specular(t) * SpecularCoefficient + Diffuse(t) * DiffuseCoefficient) * spotFactor;
      assert total >= 0.0;
    }
  }

  /** With physical lights only, every channel of `calculateLights` lies in [0, 1]. */
  lemma {:induction false} LightsInUnitRange(lights: seq<Light>, terms: Light -> Terms)
    requires forall i :: 0 <= i < |lights| ==> Physical(lights[i], terms(lights[i]))
    ensures NonNegative(SumLights(lights, terms))
    ensures NonNegative(Clamped(SumLights(lights, terms), 1.0)) && AtMost(Clamped(SumLights(lights, terms), 1.0), 1.0)
  {
    if |lights| > 0 {
      var n := |lights| - 1;
      LightsInUnitRange(lights[..n], terms);
      LightNonNegative(lights[n], terms(lights[n]));
    }
    ClampedBound(SumLights(lights, terms), 1.0);
  }

  // ---------------------------------------------------------------------------
  // Animation

  /** The `AnimationState` record; its default constructor zeroes every field. `curInterpolation` is not modelled. */
  datatype AnimationState = AnimationState(firstFrame: int, lastFrame: int, fps: int,
                                           curTime: int, oldTime: int, curFrame: int, nextFrame: int)

  const DefaultAnimation := AnimationState(0, 0, 0, 0, 0, 0, 0)

  /**
   * `setAnimation(fps, start, end)` as written: with `end < 0` and `start >= 0`
   * it assigns the parameter `end`, not `lastFrame`, so `lastFrame` keeps its
   * old value.
   */
  function SetAnimationAsWritten(s: AnimationState, frameCount: int, fps: int, start: int, end: int): (r: AnimationState)
    ensures r.fps == fps && r.curTime == s.curTime && r.oldTime == s.oldTime
    ensures !(fps >= 0 && frameCount > start) ==> r == s.(fps := fps)
    ensures fps >= 0 && start < 0 && start < frameCount ==> r.firstFrame == 0 && r.lastFrame == frameCount - 1
    ensures fps >= 0 && 0 <= start < frameCount ==>
      r.firstFrame == start && r.lastFrame == (if end >= 0 then end else s.lastFrame)
    ensures fps >= 0 && start < frameCount ==>
      r.curFrame == r.firstFrame
      && r.nextFrame == (if start + 1 < frameCount then r.firstFrame + 1 else r.firstFrame)
  {
    if fps >= 0 && frameCount > start then
      var s1 := if start < 0 then s.(firstFrame := 0, lastFrame := frameCount - 1)
                else if end < 0 then s.(firstFrame := start)
                else s.(firstFrame := start, lastFrame := end);
      s1.(fps := fps, curFrame := s1.firstFrame,
          nextFrame := if start + 1 < frameCount then s1.firstFrame + 1 else s1.firstFrame)
    else s.(fps := fps)
  }

  /** `setAnimation` as evidently intended: a negative `end` selects the last frame of the model. */
  function SetAnimationIntended(s: AnimationState, frameCount: int, fps: int, start: int, end: int): (r: AnimationState)
    ensures fps >= 0 && 0 <= start < frameCount ==> r.lastFrame == (if end >= 0 then end else frameCount - 1)
    ensures r.(lastFrame := 0) == SetAnimationAsWritten(s, frameCount, fps, start, end).(lastFrame := 0)
    ensures !(fps >= 0 && 0 <= start < frameCount && end < 0) ==> r == SetAnimationAsWritten(s, frameCount, fps, start, end)
  {
    var r := SetAnimationAsWritten(s, frameCount, fps, start, end);
    if fps >= 0 && 0 <= start < frameCount && end < 0 then r.(lastFrame := frameCount - 1) else r
  }

  /** The frames lie in [0, frameCount), and the range is not empty. */
  predicate InRange(s: AnimationState, frameCount: int)
  {
    0 <= s.curFrame < frameCount && 0 <= s.nextFrame < frameCount
    && 0 <= s.firstFrame <= s.lastFrame
  }

  /**
   * `animate(time)`: records the time; with a positive rate, once more than
   * 1000 / fps (integer division) has passed since the last step it advances
   * to the next frame, wrapping past `lastFrame` to `firstFrame`; then any
   * frame above frameCount - 1 is reset to 0.
   */
  function Animated(s: AnimationState, frameCount: int, time: int): (r: AnimationState)
    ensures r.curTime == time
    ensures s.fps <= 0 ==> r == s.(curTime := time)
    ensures r.firstFrame == s.firstFrame && r.lastFrame == s.lastFrame && r.fps == s.fps
    ensures s.fps > 0 && time - s.oldTime <= 1000 / s.fps ==>
      r.oldTime == s.oldTime
      && r.curFrame == (if s.curFrame > frameCount - 1 then 0 else s.curFrame)
      && r.nextFrame == (if s.nextFrame > frameCount - 1 then 0 else s.nextFrame)
    ensures s.fps > 0 && time - s.oldTime > 1000 / s.fps ==> r.oldTime == time
    ensures s.fps > 0 && frameCount >= 1 && 0 <= s.nextFrame && 0 <= s.firstFrame && 0 <= s.curFrame ==>
      0 <= r.curFrame < frameCount && 0 <= r.nextFrame < frameCount
  {
    var s1 := s.(curTime := time);
    if s1.fps > 0 then
      var s2 := if s1.curTime - s1.oldTime > 1000 / s1.fps
                then
                  var next := s1.nextFrame + 1;
                  s1.(curFrame := s1.nextFrame,
                      nextFrame := if next > s1.lastFrame then s1.firstFrame else next,
                      oldTime := s1.curTime)
                else s1;
      var s3 := if s2.curFrame > frameCount - 1 then s2.(curFrame := 0) else s2;
      if s3.nextFrame > frameCount - 1 then s3.(nextFrame := 0) else s3
    else s1
  }

  // ---------------------------------------------------------------------------
  // Properties: animation

  /**
   * With the intended `setAnimation`, valid arguments give an in-range,
   * non-empty animation. A negative start on a one-frame model is excluded:
   * there `nextFrame` becomes 1 (see `SingleFrameNextOutOfRange`).
   */
  lemma SetAnimationInRange(s: AnimationState, frameCount: int, fps: int, start: int, end: int)
    requires fps >= 0 && start < frameCount && 1 <= frameCount
    requires end < 0 || start <= end
    requires 0 <= start || 2 <= frameCount
    ensures InRange(SetAnimationIntended(s, frameCount, fps, start, end), frameCount)
  {
  }

  /** On a one-frame model, `setAnimation(fps)` with the default start -1 makes `nextFrame` 1, past the only frame. */
  lemma SingleFrameNextOutOfRange(s: AnimationState, fps: int)
    requires fps >= 0
    ensures SetAnimationAsWritten(s, 1, fps, -1, -1).nextFrame == 1
    ensures SetAnimationIntended(s, 1, fps, -1, -1).nextFrame == 1
  {
  }

  /** The record right after a 10-frame model is loaded: the constructor's `setAnimation()`, then `lastFrame = frameCount - 1`. */
  const LoadedTen := DefaultAnimation.(fps := -1, lastFrame := 9)

  /**
   * As written, `setAnimation(fps, start)` with the default `end` keeps the
   * `lastFrame` of the previous call. On a freshly loaded 10-frame model
   * `setAnimation(10, 2)` selects 2 .. 9, but after `setAnimation(10, 0, 3)`
   * the call `setAnimation(10, 5)` selects the empty range 5 .. 3, and the
   * first `animate` step wraps the next frame straight back to 5.
   */
  lemma SetAnimationStaleLastFrame()
    ensures SetAnimationAsWritten(LoadedTen, 10, 10, 2, -1).lastFrame == 9
    ensures var s := SetAnimationAsWritten(SetAnimationAsWritten(LoadedTen, 10, 10, 0, 3), 10, 10, 5, -1);
            s.firstFrame == 5 && s.lastFrame == 3 && !InRange(s, 10)
            && Animated(s, 10, 200).curFrame == 6 && Animated(s, 10, 200).nextFrame == 5
    ensures var s := SetAnimationIntended(SetAnimationIntended(LoadedTen, 10, 10, 0, 3), 10, 10, 5, -1);
            s.firstFrame == 5 && s.lastFrame == 9 && InRange(s, 10)
  {
  }

  /** From an in-range state whose next frame lies in [first, last], a frame step keeps the state in range. */
  lemma AnimatedStaysInRange(s: AnimationState, frameCount: int, time: int)
    requires InRange(s, frameCount) && s.firstFrame <= s.nextFrame <= s.lastFrame < frameCount
    ensures InRange(Animated(s, frameCount, time), frameCount)
    ensures s.fps > 0 && time - s.oldTime > 1000 / s.fps ==>
      Animated(s, frameCount, time).curFrame == s.nextFrame
      && Animated(s, frameCount, time).nextFrame == (if s.nextFrame == s.lastFrame then s.firstFrame else s.nextFrame + 1)
  {
  }

  /** An animation whose frames stay within [first, last] visits frames in cyclic order. */
  lemma AnimatedCycles(s: AnimationState, frameCount: int, time: int)
    requires InRange(s, frameCount) && s.firstFrame <= s.nextFrame <= s.lastFrame < frameCount
    requires s.fps > 0 && time - s.oldTime > 1000 / s.fps
    ensures var r := Animated(s, frameCount, time);
            r.firstFrame <= r.nextFrame <= r.lastFrame && r.oldTime == time
  {
  }

  // ---------------------------------------------------------------------------
  // The model's animation state

  class Md2Model {
    var frameCount: int
    var animation: AnimationState

    /** `MD2_Model()`: no frames, then `setAnimation()` with every argument -1, which sets only fps. */
    constructor ()
      ensures frameCount == 0 && animation == DefaultAnimation.(fps := -1)
    {
      frameCount := 0;
      animation := DefaultAnimation;
      new;
      SetAnimation(-1, -1, -1);
    }

    /** `setAnimation(fps, start, end)`, as written. */
    method SetAnimation(fps: int, start: int, end: int)
      modifies this
      ensures frameCount == old(frameCount)
      ensures animation == SetAnimationAsWritten(old(animation), frameCount, fps, start, end)
    {
      animation := animation.(fps := fps);
      var end := end;
      if fps >= 0 && frameCount > start {
        if start < 0 {
          animation := animation.(firstFrame := 0, lastFrame := frameCount - 1);
        } else {
          animation := animation.(firstFrame := start);
          if end < 0 {
            end := frameCount - 1;
          } else {
            animation := animation.(lastFrame := end);
          }
        }
        animation := animation.(curFrame := animation.firstFrame);
        if start + 1 < frameCount {
          animation := animation.(nextFrame := animation.firstFrame + 1);
        } else {
          animation := animation.(nextFrame := animation.firstFrame);
        }
      }
    }

    /** `animate(time)`. */
    method Animate(time: int)
      modifies this
      ensures frameCount == old(frameCount)
      ensures animation == Animated(old(animation), frameCount, time)
    {
      animation := animation.(curTime := time);
      if animation.fps > 0 {
        if animation.curTime - animation.oldTime > 1000 / animation.fps {
          animation := animation.(curFrame := animation.nextFrame);
          animation := animation.(nextFrame := animation.nextFrame + 1);
          if animation.nextFrame > animation.lastFrame {
            animation := animation.(nextFrame := animation.firstFrame);
          }
          animation := animation.(oldTime := animation.curTime);
        }
        if animation.curFrame > frameCount - 1 {
          animation := animation.(curFrame := 0);
        }
        if animation.nextFrame > frameCount - 1 {
          animation := animation.(nextFrame := 0);
        }
      }
    }

    /** `getCurrentFrame`. */
    function CurrentFrame(): int
      reads this
    {
      animation.curFrame
    }
  }
}
