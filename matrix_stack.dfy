/**
 * The matrix stack the renderer builds its projection and model-view
 * matrices on. Its implementation (MatrixStack.h/.cpp) is not part of this
 * model, so matrices are kept as symbolic terms: a term records which
 * elementary transforms were multiplied onto which base, in what order,
 * without giving them a numeric meaning.
 */
module Transforms {
  import opened Geometry

  /** The elementary transforms the viewer multiplies onto a stack. */
  datatype Transform =
    | Perspective(fovy: real, aspect: real, znear: real, zfar: real)  // glm::perspective
    | LookAt(eye: Vec3, center: Vec3, up: Vec3)                       // glm::lookAt
    | TranslateBy(offset: Vec3)
    | ScaleBy(factors: Vec3)

  /** `Then(m, t)` is the product m * t: t composes after m in object space. */
  datatype Matrix = Identity | Then(base: Matrix, last: Transform)

  class MatrixStack {
    var stack: seq<Matrix>

    /** A new stack holds only the identity base. */
    constructor ()
      ensures stack == [Identity]
    {
      stack := [Identity];
    }

    function Depth(): nat
      reads this
    {
      |stack|
    }

    function Top(): Matrix
      reads this
      requires |stack| > 0
    {
      stack[|stack| - 1]
    }

    /** Duplicates the top, so later changes to the new top leave the copy beneath intact. */
    method PushMatrix()
      requires |stack| > 0
      modifies this
      ensures stack == old(stack) + [old(Top())]
    {
      stack := stack + [Top()];
    }

    /** Removes the top; popping the identity base is a programming error. */
    method PopMatrix()
      requires |stack| > 1
      modifies this
      ensures stack == old(stack)[..|old(stack)| - 1]
    {
      stack := stack[..|stack| - 1];
    }

    /** Replaces the top T by T * t. */
    method MultMatrix(t: Transform)
      requires |stack| > 0
      modifies this
      ensures stack == old(stack)[..|old(stack)| - 1] + [Then(old(Top()), t)]
    {
      stack := stack[..|stack| - 1] + [Then(Top(), t)];
    }

    method Translate(offset: Vec3)
      requires |stack| > 0
      modifies this
      ensures stack == old(stack)[..|old(stack)| - 1] + [Then(old(Top()), TranslateBy(offset))]
    {
      MultMatrix(TranslateBy(offset));
    }

    method Scale(factors: Vec3)
      requires |stack| > 0
      modifies this
      ensures stack == old(stack)[..|old(stack)| - 1] + [Then(old(Top()), ScaleBy(factors))]
    {
      MultMatrix(ScaleBy(factors));
    }
  }
}
