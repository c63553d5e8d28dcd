/** Element counts of tensor shapes (`sizeOfShape`, webnn/resources/utils.js:57-59). */
module Shapes {

  /** Product of the dimensions, folded from the left with initial value 1, as
      `array.reduce((a, c) => a * c, 1)`. The empty shape of a scalar has one
      element; a shape has no elements exactly when one of its dimensions is 0. */
  function SizeOfShape(shape: seq<nat>): (size: nat)
    ensures size == 0 <==> 0 in shape
    ensures size != 0 ==> forall k | 0 <= k < |shape| :: shape[k] <= size
    decreases |shape|
  {
    if |shape| == 0 then 1
    else
      var prefix := shape[..|shape| - 1];
      var last := shape[|shape| - 1];
      assert shape == prefix + [last];
      var size := SizeOfShape(prefix) * last;
      ProductBounds(SizeOfShape(prefix), last);
      size
  }

  /** For naturals a, b: a * b is 0 exactly when one is 0, and otherwise at least
      each of them. */
  lemma ProductBounds(a: nat, b: nat)
    ensures a * b == 0 <==> a == 0 || b == 0
    ensures a * b != 0 ==> a <= a * b && b <= a * b
  {
    if a != 0 && b != 0 {
      assert a * b == a * (b - 1) + a;
      assert a * b == (a - 1) * b + b;
    }
  }

  /** The element count of a concatenation of shapes is the product of their
      element counts: the fold does not depend on where the shape is cut. */
  lemma {:induction false} SizeOfShapeAppend(a: seq<nat>, b: seq<nat>)
    ensures SizeOfShape(a + b) == SizeOfShape(a) * SizeOfShape(b)
    decreases |b|
  {
    if |b| == 0 {
      assert a + b == a;
    } else {
      var b' := b[..|b| - 1];
      var last := b[|b| - 1];
      assert (a + b)[..|a + b| - 1] == a + b';
      assert (a + b)[|a + b| - 1] == last;
      SizeOfShapeAppend(a, b');
      var x, y := SizeOfShape(a), SizeOfShape(b');
      calc {
        SizeOfShape(a + b);
        SizeOfShape(a + b') * last;
        (x * y) * last;
        { MulAssociates(x, y, last); }
        x * (y * last);
        SizeOfShape(a) * SizeOfShape(b);
      }
    }
  }

  lemma MulAssociates(x: int, y: int, z: int)
    ensures (x * y) * z == x * (y * z)
  {
  }
}
