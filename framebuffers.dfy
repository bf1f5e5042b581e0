/**
 * CStdFramebuffer and CStdSwappableFramebuffer (Shader.h, Shader.cpp). A framebuffer's GPU storage
 * is outside the model: an object stands for its identity, and its size never changes.
 */
module Framebuffers {
  class Framebuffer {
    const width: int
    const height: int

    constructor (width: int, height: int)
      ensures this.width == width && this.height == height
    {
      this.width := width;
      this.height := height;
    }
  }

  /**
   * Two owned framebuffers (buffers[0] and buffers[1] in the source) and two references into
   * them, front and back. Swapping exchanges the references and never copies contents.
   */
  class SwappableFramebuffer {
    const first: Framebuffer
    const second: Framebuffer
    var front: Framebuffer
    var back: Framebuffer

    /** front and back designate the two owned buffers, one each */
    ghost predicate Valid()
      reads this
    {
      first != second &&
      ((front == first && back == second) || (front == second && back == first))
    }

    constructor (width: int, height: int)
      ensures Valid() && fresh(first) && fresh(second)
      ensures front == first && back == second
      ensures first.width == second.width == width && first.height == second.height == height
    {
      var a := new Framebuffer(width, height);
      var b := new Framebuffer(width, height);
      first, second := a, b;
      front, back := a, b;
    }

    /** The buffer that was written last and is read next. */
    function GetFront(): (f: Framebuffer)
      reads this
      requires Valid()
      ensures (f == first || f == second) && f != GetBack()
    {
      front
    }

    /** The buffer the next draw writes. */
    function GetBack(): (b: Framebuffer)
      reads this
      requires Valid()
      ensures b == first || b == second
    {
      back
    }

    method SwapBuffers()
      requires Valid()
      modifies this`front, this`back
      ensures Valid()
      ensures front == old(back) && back == old(front)
    {
      front, back := back, front;
    }
  }

  /** The front after n swaps starting from front f and back b. */
  function FrontAfter(f: Framebuffer, b: Framebuffer, n: nat): Framebuffer
  {
    if n == 0 then f else FrontAfter(b, f, n - 1)
  }

  /** An even number of swaps restores the front, an odd number brings up the old back. */
  lemma {:induction false} FrontAfterParity(f: Framebuffer, b: Framebuffer, n: nat)
    ensures FrontAfter(f, b, n) == (if n % 2 == 0 then f else b)
    ensures FrontAfter(b, f, n) == (if n % 2 == 0 then b else f)
  {
    if n > 0 {
      FrontAfterParity(f, b, n - 1);
    }
  }
}
