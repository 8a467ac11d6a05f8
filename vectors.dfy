/** Three-component vectors, as lib/gmaths/Vec3.java defines them.
    Java `float` is modelled as `real` (exact arithmetic). */
module Vectors {

  /** The value held by a Vec3: its x, y and z components.  The static
      operations of Vec3 (add, subtract, multiply, crossProduct) build a new
      vector from the values of their arguments, so they are functions here. */
  datatype V3 = V3(x: real, y: real, z: real) {

    /** Static `Vec3.add(a, b)`: the component-wise sum, so taking `b`
        away again gives back `a`. */
    static function Add(a: V3, b: V3): (r: V3)
      ensures Subtract(r, b) == a
    {
      V3(a.x + b.x, a.y + b.y, a.z + b.z)
    }

    /** Static `Vec3.subtract(a, b)`: the component-wise difference, the
        zero vector exactly when `a` and `b` are equal. */
    static function Subtract(a: V3, b: V3): (r: V3)
      ensures r == V3(0.0, 0.0, 0.0) <==> a == b
    {
      V3(a.x - b.x, a.y - b.y, a.z - b.z)
    }

    /** Static `Vec3.multiply(v, f)`: every component scaled by `f`, so the
        squared length is scaled by `f * f`. */
    static function Multiply(v: V3, f: real): (r: V3)
      ensures Dot(r, r) == f * f * Dot(v, v)
    {
      V3(v.x * f, v.y * f, v.z * f)
    }

    /** Static `Vec3.crossProduct(a, b)`: a vector perpendicular to both
        arguments. */
    static function CrossProduct(a: V3, b: V3): (r: V3)
      ensures Dot(r, a) == 0.0 && Dot(r, b) == 0.0
    {
      V3(a.y * b.z - a.z * b.y, a.z * b.x - a.x * b.z, a.x * b.y - a.y * b.x)
    }
  }

  /** `new Vec3()` is the origin. */
  const Origin: V3 := V3(0.0, 0.0, 0.0)

  /** Scalar product, used to state what scaling and the cross product mean. */
  function Dot(a: V3, b: V3): real {
    a.x * b.x + a.y * b.y + a.z * b.z
  }

  /** Adding back what was subtracted gives back the vector. */
  lemma AddUndoesSubtract(a: V3, b: V3)
    ensures V3.Add(V3.Subtract(a, b), b) == a
  {
  }

  /** Scaling by 1 keeps a vector and scaling by 0 gives the origin. */
  lemma MultiplyByOneAndZero(v: V3)
    ensures V3.Multiply(v, 1.0) == v
    ensures V3.Multiply(v, 0.0) == Origin
  {
  }

  /** The cross product is anti-commutative. */
  lemma CrossAntiCommutative(a: V3, b: V3)
    ensures V3.CrossProduct(a, b) == V3.Multiply(V3.CrossProduct(b, a), -1.0)
  {
  }

  /** The cross product of a vector with itself is the zero vector. */
  lemma CrossSelfIsZero(a: V3)
    ensures V3.CrossProduct(a, a) == Origin
  {
  }

  /** A Vec3 object: three public, mutable float fields. */
  class Vec3 {
    var x: real
    var y: real
    var z: real

    /** The current components of this vector. */
    function Value(): V3
      reads this
    {
      V3(x, y, z)
    }

    /** `new Vec3()`: the origin. */
    constructor Zero()
      ensures Value() == Origin
    {
      x, y, z := 0.0, 0.0, 0.0;
    }

    /** `new Vec3(x, y, z)`. */
    constructor (x: real, y: real, z: real)
      ensures Value() == V3(x, y, z)
    {
      this.x, this.y, this.z := x, y, z;
    }

    /** `new Vec3(v)`: a separate object holding the same components. */
    constructor Copy(v: Vec3)
      ensures Value() == v.Value()
    {
      x, y, z := v.x, v.y, v.z;
    }

    /** Instance `add(v)`: adds `v` into this vector, one component at a
        time.  Only this object changes, so `v` keeps its value unless it is
        this very object (then every component doubles). */
    method Add(v: Vec3)
      modifies this
      ensures Value() == V3.Add(old(Value()), old(v.Value()))
      ensures v != this ==> v.Value() == old(v.Value())
      ensures v == this ==> Value() == V3.Multiply(old(Value()), 2.0)
    {
      x := x + v.x;
      y := y + v.y;
      z := z + v.z;
    }
  }
}
