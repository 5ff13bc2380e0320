/**
 * The RGB colour of Acun3D/Colour.cpp: three float channels `_b`, `_g`, `_r`
 * (modelled as `real`), updated in place by the compound operators and `clamp`,
 * and copied by the binary operators.
 */
module Colours {

  /** A colour value. */
  datatype Rgb = Rgb(r: real, g: real, b: real)

  const Black := Rgb(0.0, 0.0, 0.0)

  function Plus(c: Rgb, d: Rgb): Rgb
  {
    Rgb(c.r + d.r, c.g + d.g, c.b + d.b)
  }

  function Minus(c: Rgb, d: Rgb): Rgb
  {
    Rgb(c.r - d.r, c.g - d.g, c.b - d.b)
  }

  function Negation(c: Rgb): Rgb
  {
    Rgb(-c.r, -c.g, -c.b)
  }

  /** Channel-by-channel product (`*` by a colour). */
  function Times(c: Rgb, d: Rgb): Rgb
  {
    Rgb(c.r * d.r, c.g * d.g, c.b * d.b)
  }

  /** Every channel times one factor (`*` by a float). */
  function Scaled(c: Rgb, f: real): Rgb
  {
    Rgb(c.r * f, c.g * f, c.b * f)
  }

  predicate NoZeroChannel(d: Rgb)
  {
    d.r != 0.0 && d.g != 0.0 && d.b != 0.0
  }

  /** Channel-by-channel quotient (`/` by a colour). */
  function Quotient(c: Rgb, d: Rgb): Rgb
    requires NoZeroChannel(d)
  {
    Rgb(c.r / d.r, c.g / d.g, c.b / d.b)
  }

  /** Every channel over one divisor (`/` by a float). */
  function DividedBy(c: Rgb, f: real): Rgb
    requires f != 0.0
  {
    Rgb(c.r / f, c.g / f, c.b / f)
  }

  function Min(x: real, f: real): real
  {
    if x > f then f else x
  }

  /** `clamp(f)`: every channel above f is lowered to f. */
  function Clamped(c: Rgb, f: real): Rgb
  {
    Rgb(Min(c.r, f), Min(c.g, f), Min(c.b, f))
  }

  predicate AtMost(c: Rgb, f: real)
  {
    c.r <= f && c.g <= f && c.b <= f
  }

  // ---------------------------------------------------------------------------
  // Properties

  /** After `clamp(f)` every channel is at most f, and a channel already at most f is kept. */
  lemma ClampedBound(c: Rgb, f: real)
    ensures AtMost(Clamped(c, f), f)
    ensures c.r <= f ==> Clamped(c, f).r == c.r
    ensures c.g <= f ==> Clamped(c, f).g == c.g
    ensures c.b <= f ==> Clamped(c, f).b == c.b
    ensures AtMost(c, f) <==> Clamped(c, f) == c
  {
  }

  /** Clamping twice with the same bound is clamping once. */
  lemma ClampedIdempotent(c: Rgb, f: real)
    ensures Clamped(Clamped(c, f), f) == Clamped(c, f)
  {
  }

  /** Clamping to a lower bound after a higher one is clamping to the lower one. */
  lemma ClampedMonotone(c: Rgb, f: real, f': real)
    requires f' <= f
    ensures Clamped(Clamped(c, f), f') == Clamped(c, f')
  {
  }

  /** Subtraction undoes addition; negation is subtraction from black and undoes itself. */
  lemma PlusMinus(c: Rgb, d: Rgb)
    ensures Minus(Plus(c, d), d) == c
    ensures Plus(Minus(c, d), d) == c
    ensures Negation(c) == Minus(Black, c)
    ensures Negation(Negation(c)) == c
  {
  }

  /** Division by a non-zero factor undoes scaling by it. */
  lemma ScaledDividedBy(c: Rgb, f: real)
    requires f != 0.0
    ensures DividedBy(Scaled(c, f), f) == c
    ensures Quotient(Times(c, Rgb(f, f, f)), Rgb(f, f, f)) == c
  {
  }

  // ---------------------------------------------------------------------------
  // The class

  class Colour {
    var b: real
    var g: real
    var r: real

    function Value(): Rgb
      reads this
    {
      Rgb(r, g, b)
    }

    /** `Colour(r, g, b)`, every argument defaulting to 0. */
    constructor (r: real, g: real, b: real)
      ensures Value() == Rgb(r, g, b)
    {
      this.r, this.g, this.b := r, g, b;
    }

    /** `setColour(r, g, b)`: `_r := r`, `_g := g`, `_b := b`. */
    method SetColour(r: real, g: real, b: real)
      modifies this
      ensures Value() == Rgb(r, g, b)
    {
      this.r := r;
      this.g := g;
      this.b := b;
    }

    method Clamp(f: real)
      modifies this
      ensures Value() == Clamped(old(Value()), f)
    {
      if r > f {
        r := f;
      }
      if g > f {
        g := f;
      }
      if b > f {
        b := f;
      }
    }

    /** `+=`; with `other == this` every channel doubles. */
    method AddAssign(other: Colour)
      modifies this
      ensures Value() == Plus(old(Value()), old(other.Value()))
    {
      r := r + other.r;
      g := g + other.g;
      b := b + other.b;
    }

    method SubAssign(other: Colour)
      modifies this
      ensures Value() == Minus(old(Value()), old(other.Value()))
    {
      r := r - other.r;
      g := g - other.g;
      b := b - other.b;
    }

    method MulAssign(other: Colour)
      modifies this
      ensures Value() == Times(old(Value()), old(other.Value()))
    {
      r := r * other.r;
      g := g * other.g;
      b := b * other.b;
    }

    method MulAssignScalar(f: real)
      modifies this
      ensures Value() == Scaled(old(Value()), f)
    {
      r := r * f;
      g := g * f;
      b := b * f;
    }

    method DivAssign(other: Colour)
      requires NoZeroChannel(other.Value())
      modifies this
      ensures Value() == Quotient(old(Value()), old(other.Value()))
    {
      r := r / other.r;
      g := g / other.g;
      b := b / other.b;
    }

    method DivAssignScalar(f: real)
      requires f != 0.0
      modifies this
      ensures Value() == DividedBy(old(Value()), f)
    {
      r := r / f;
      g := g / f;
      b := b / f;
    }

    /** Binary `+`: a copy of `this` with `other` added; `this` is unchanged. */
    method Add(other: Colour) returns (c: Colour)
      ensures fresh(c) && c.Value() == Plus(Value(), other.Value())
    {
      c := new Colour(r, g, b);
      c.AddAssign(other);
    }

    method Subtract(other: Colour) returns (c: Colour)
      ensures fresh(c) && c.Value() == Minus(Value(), other.Value())
    {
      c := new Colour(r, g, b);
      c.SubAssign(other);
    }

    method Multiply(other: Colour) returns (c: Colour)
      ensures fresh(c) && c.Value() == Times(Value(), other.Value())
    {
      c := new Colour(r, g, b);
      c.MulAssign(other);
    }

    method MultiplyScalar(f: real) returns (c: Colour)
      ensures fresh(c) && c.Value() == Scaled(Value(), f)
    {
      c := new Colour(r, g, b);
      c.MulAssignScalar(f);
    }

    method Divide(other: Colour) returns (c: Colour)
      requires NoZeroChannel(other.Value())
      ensures fresh(c) && c.Value() == Quotient(Value(), other.Value())
    {
      c := new Colour(r, g, b);
      c.DivAssign(other);
    }

    method DivideScalar(f: real) returns (c: Colour)
      requires f != 0.0
      ensures fresh(c) && c.Value() == DividedBy(Value(), f)
    {
      c := new Colour(r, g, b);
      c.DivAssignScalar(f);
    }

    /** Unary `-`: a fresh colour with every channel negated. */
    method Negate() returns (c: Colour)
      ensures fresh(c) && c.Value() == Negation(Value())
    {
      c := new Colour(0.0, 0.0, 0.0);
      c.r := -r;
      c.g := -g;
      c.b := -b;
    }
  }
}
