/**
 * The record of what one frame of MainProgram::Run (FluidSim2D.cpp) asks the GPU to do: each
 * full-grid draw with the shader program it runs, the framebuffer it renders into and the
 * framebuffers whose textures it samples, and each front/back swap of a double buffer.
 * The per-cell arithmetic of the shaders is outside the model.
 */
module Trace {
  import opened Framebuffers
  import opened Geometry

  /** The shader programs of MainProgram that the simulation step uses. */
  datatype Program =
    | Advect | AddImpulse | AddRadialImpulse | Vorticity | AddVorticity
    | Jacobi | Divergence | Gradient | Subtract | Boundary | Copy | Render

  /**
   * The sampler uniforms each program is given a texture for: a draw reads exactly the textures
   * bound to the units these samplers name, and the log lists them in this order.
   */
  function Samplers(p: Program): (names: seq<string>)
    ensures 1 <= |names| <= 2
  {
    match p
    case Advect => ["quantity", "velocity"]
    case AddImpulse => ["velocity"]
    case AddRadialImpulse => ["velocity"]
    case Vorticity => ["velocity"]
    case AddVorticity => ["velocity", "vorticity"]
    case Jacobi => ["x", "b"]
    case Divergence => ["field"]
    case Gradient => ["field"]
    case Subtract => ["a", "b"]
    case Boundary => ["field"]
    case Copy => ["field"]
    case Render => ["field"]
  }

  /** The impulse program chosen by the radial flag. */
  function ImpulseProgram(radial: bool): (p: Program)
    ensures p == AddRadialImpulse || p == AddImpulse
    ensures radial <==> p == AddRadialImpulse
  {
    if radial then AddRadialImpulse else AddImpulse
  }

  /** Full-screen quad, or one of the border lines. */
  datatype Shape = Quad | Line(segment: Segment)

  datatype Draw = Draw(program: Program, target: Framebuffer, inputs: seq<Framebuffer>, shape: Shape)

  /**
   * A draw into a framebuffer object, a full-screen draw into the window's own (default)
   * framebuffer, or a front/back swap of a double buffer.
   */
  datatype Event =
    | Drew(draw: Draw)
    | Shown(program: Program, inputs: seq<Framebuffer>)
    | Swapped(pair: SwappableFramebuffer)

  /** How often the log swaps the given double buffer, counted from the front of the log. */
  function Swaps(log: seq<Event>, pair: SwappableFramebuffer): nat
  {
    if log == [] then 0 else (if log[0] == Swapped(pair) then 1 else 0) + Swaps(log[1..], pair)
  }

  /** The count is the number of occurrences of the swap event in the log. */
  lemma {:induction false} SwapsCountsOccurrences(log: seq<Event>, pair: SwappableFramebuffer)
    ensures Swaps(log, pair) == multiset(log)[Swapped(pair)]
  {
    if log != [] {
      SwapsCountsOccurrences(log[1..], pair);
      assert log == [log[0]] + log[1..];
      assert multiset(log) == multiset([log[0]]) + multiset(log[1..]);
    }
  }

  /** No draw samples the framebuffer it renders into (no rendering feedback loop). */
  ghost predicate NoFeedback(log: seq<Event>)
  {
    forall e | e in log :: e.Drew? ==> e.draw.target !in e.draw.inputs
  }

  /** The six framebuffers a step touches are pairwise different objects. */
  ghost predicate DistinctBuffers(vf: Framebuffer, vb: Framebuffer, pf: Framebuffer, pb: Framebuffer,
                                  vorticity: Framebuffer, scratch: Framebuffer)
  {
    && vf != vb && vf != pf && vf != pb && vf != vorticity && vf != scratch
    && vb != pf && vb != pb && vb != vorticity && vb != scratch
    && pf != pb && pf != vorticity && pf != scratch
    && pb != vorticity && pb != scratch
    && vorticity != scratch
  }

  /** 30 with its lowest bit cleared, as a 64-bit size_t. */
  const NumJacobiRounds: nat := ((30 as bv64) & !(1 as bv64)) as nat

  lemma NumJacobiRoundsIsEven()
    ensures NumJacobiRounds == 30 && NumJacobiRounds % 2 == 0
  {
  }

  /**
   * The rounds of the Jacobi loop of SolvePoissonSystem: each reads the current front ("x") and
   * the copied right-hand side ("b", already bound), renders into the back and swaps.
   */
  function JacobiRounds(pair: SwappableFramebuffer, front: Framebuffer, back: Framebuffer,
                        rhs: Framebuffer, n: nat): seq<Event>
  {
    if n == 0 then []
    else [Drew(Draw(Jacobi, back, [front, rhs], Quad)), Swapped(pair)]
         + JacobiRounds(pair, back, front, rhs, n - 1)
  }

  /** The events of round n alone. */
  function JacobiRound(pair: SwappableFramebuffer, front: Framebuffer, back: Framebuffer,
                       rhs: Framebuffer, n: nat): seq<Event>
  {
    [Drew(Draw(Jacobi, FrontAfter(back, front, n), [FrontAfter(front, back, n), rhs], Quad)),
     Swapped(pair)]
  }

  /** Rounds are added at the end one at a time, as the loop runs them. */
  lemma {:induction false} JacobiRoundsSnoc(pair: SwappableFramebuffer, front: Framebuffer,
                                            back: Framebuffer, rhs: Framebuffer, n: nat)
    ensures JacobiRounds(pair, front, back, rhs, n + 1)
            == JacobiRounds(pair, front, back, rhs, n) + JacobiRound(pair, front, back, rhs, n)
  {
    if n > 0 {
      JacobiRoundsSnoc(pair, back, front, rhs, n - 1);
      var head := [Drew(Draw(Jacobi, back, [front, rhs], Quad)), Swapped(pair)];
      assert JacobiRounds(pair, front, back, rhs, n + 1)
             == head + (JacobiRounds(pair, back, front, rhs, n - 1)
                        + JacobiRound(pair, back, front, rhs, n - 1));
    }
  }

  /** n rounds swap their own double buffer n times and no other one. */
  lemma {:induction false} JacobiRoundsSwaps(pair: SwappableFramebuffer, front: Framebuffer,
                                             back: Framebuffer, rhs: Framebuffer, n: nat,
                                             other: SwappableFramebuffer)
    ensures Swaps(JacobiRounds(pair, front, back, rhs, n), other) == if other == pair then n else 0
  {
    if n > 0 {
      JacobiRoundsSwaps(pair, back, front, rhs, n - 1, other);
      var head := [Drew(Draw(Jacobi, back, [front, rhs], Quad)), Swapped(pair)];
      var tail := JacobiRounds(pair, back, front, rhs, n - 1);
      assert multiset(head + tail) == multiset(head) + multiset(tail);
    }
  }

  /** No round reads what it writes, provided the right-hand side is neither of the pair's buffers. */
  lemma {:induction false} JacobiRoundsSafe(pair: SwappableFramebuffer, front: Framebuffer,
                                            back: Framebuffer, rhs: Framebuffer, n: nat)
    requires front != back && rhs != front && rhs != back
    ensures NoFeedback(JacobiRounds(pair, front, back, rhs, n))
  {
    if n > 0 {
      JacobiRoundsSafe(pair, back, front, rhs, n - 1);
    }
  }

  /**
   * MainProgram::SetBounds: copy front into back, draw the four border lines into back while
   * sampling front, swap once.
   */
  function BoundsEvents(pair: SwappableFramebuffer, front: Framebuffer, back: Framebuffer,
                        border: Border): seq<Event>
  {
    [Drew(Draw(Copy, back, [front], Quad)),
     Drew(Draw(Boundary, back, [front], Line(border.top))),
     Drew(Draw(Boundary, back, [front], Line(border.left))),
     Drew(Draw(Boundary, back, [front], Line(border.bottom))),
     Drew(Draw(Boundary, back, [front], Line(border.right))),
     Swapped(pair)]
  }

  /**
   * MainProgram::SolvePoissonSystem: copy the initial value into the scratch buffer once, then
   * run the Jacobi rounds on the pair.
   */
  function SolveEvents(pair: SwappableFramebuffer, front: Framebuffer, back: Framebuffer,
                       initial: Framebuffer, scratch: Framebuffer): seq<Event>
  {
    [Drew(Draw(Copy, scratch, [initial], Quad))] + JacobiRounds(pair, front, back, scratch, NumJacobiRounds)
  }

  /** Appending a log in one piece or in two gives the same log. */
  lemma ConcatAssoc(x: seq<Event>, y: seq<Event>, z: seq<Event>)
    ensures x + (y + z) == x + y + z
  {
  }

  /** Concatenation adds swap counts. */
  lemma SwapsConcat(x: seq<Event>, y: seq<Event>, pair: SwappableFramebuffer)
    ensures Swaps(x + y, pair) == Swaps(x, pair) + Swaps(y, pair)
  {
    SwapsCountsOccurrences(x, pair);
    SwapsCountsOccurrences(y, pair);
    SwapsCountsOccurrences(x + y, pair);
    assert multiset(x + y) == multiset(x) + multiset(y);
  }

  /** A log is free of feedback exactly when both of its parts are. */
  lemma NoFeedbackConcat(x: seq<Event>, y: seq<Event>)
    ensures NoFeedback(x + y) <==> NoFeedback(x) && NoFeedback(y)
  {
    assert forall e :: e in x + y <==> e in x || e in y;
  }

  lemma BoundsFacts(pair: SwappableFramebuffer, front: Framebuffer, back: Framebuffer,
                    border: Border, other: SwappableFramebuffer)
    ensures front != back ==> NoFeedback(BoundsEvents(pair, front, back, border))
    ensures Swaps(BoundsEvents(pair, front, back, border), other) == if other == pair then 1 else 0
  {
    BoundsSwaps(pair, front, back, border, other);
  }

  lemma BoundsSwaps(pair: SwappableFramebuffer, front: Framebuffer, back: Framebuffer,
                    border: Border, other: SwappableFramebuffer)
    ensures Swaps(BoundsEvents(pair, front, back, border), other) == if other == pair then 1 else 0
  {
    var log := BoundsEvents(pair, front, back, border);
    var draws := log[..5];
    assert log == draws + [Swapped(pair)];
    DrawsDoNotSwap(draws, other);
    SwapsConcat(draws, [Swapped(pair)], other);
  }

  /** A log of draws only swaps nothing. */
  lemma {:induction false} DrawsDoNotSwap(log: seq<Event>, pair: SwappableFramebuffer)
    requires forall i | 0 <= i < |log| :: log[i].Drew?
    ensures Swaps(log, pair) == 0
  {
    if log != [] {
      DrawsDoNotSwap(log[1..], pair);
    }
  }

  lemma SolveFacts(pair: SwappableFramebuffer, front: Framebuffer, back: Framebuffer,
                   initial: Framebuffer, scratch: Framebuffer, other: SwappableFramebuffer)
    ensures front != back && scratch != front && scratch != back && scratch != initial
            ==> NoFeedback(SolveEvents(pair, front, back, initial, scratch))
    ensures Swaps(SolveEvents(pair, front, back, initial, scratch), other)
            == if other == pair then NumJacobiRounds else 0
  {
    var copy := [Drew(Draw(Copy, scratch, [initial], Quad))];
    var rounds := JacobiRounds(pair, front, back, scratch, NumJacobiRounds);
    JacobiRoundsSwaps(pair, front, back, scratch, NumJacobiRounds, other);
    SwapsConcat(copy, rounds, other);
    NoFeedbackConcat(copy, rounds);
    if front != back && scratch != front && scratch != back {
      JacobiRoundsSafe(pair, front, back, scratch, NumJacobiRounds);
    }
  }

  /** Stage 1: boundary pre-pass, then advection of velocity by itself. */
  function AdvectionEvents(velocity: SwappableFramebuffer, vf: Framebuffer, vb: Framebuffer,
                           border: Border): seq<Event>
  {
    BoundsEvents(velocity, vf, vb, border) + [Drew(Draw(Advect, vf, [vb, vb], Quad)), Swapped(velocity)]
  }

  /** Stage 2: the impulse draw and its swap, only for an active impulse. */
  function ForceEvents(velocity: SwappableFramebuffer, vf: Framebuffer, vb: Framebuffer,
                       active: bool, radial: bool): seq<Event>
  {
    if active then [Drew(Draw(ImpulseProgram(radial), vb, [vf], Quad)), Swapped(velocity)] else []
  }

  /** Stage 3: curl into the vorticity buffer, boundaries, confinement; front a, back b on entry. */
  function VorticityEvents(velocity: SwappableFramebuffer, a: Framebuffer, b: Framebuffer,
                           vorticity: Framebuffer, border: Border): seq<Event>
  {
    [Drew(Draw(Vorticity, vorticity, [a], Quad))]
    + BoundsEvents(velocity, a, b, border)
    + [Drew(Draw(AddVorticity, a, [b, vorticity], Quad)), Swapped(velocity)]
  }

  /**
   * Stage 5: divergence into velocity's back, pressure solve against it, pressure gradient into
   * pressure's back, subtraction into velocity's back, boundaries; velocity front a, back b on entry.
   */
  function ProjectionEvents(velocity: SwappableFramebuffer, pressure: SwappableFramebuffer,
                            a: Framebuffer, b: Framebuffer, pf: Framebuffer, pb: Framebuffer,
                            scratch: Framebuffer, border: Border): seq<Event>
  {
    [Drew(Draw(Divergence, b, [a], Quad))]
    + SolveEvents(pressure, pf, pb, b, scratch)
    + [Drew(Draw(Gradient, pb, [pf], Quad))]
    + [Drew(Draw(Subtract, b, [a, pb], Quad)), Swapped(velocity)]
    + BoundsEvents(velocity, b, a, border)
  }

  /**
   * The simulation stages of one iteration of MainProgram::Run, from velocity front vf / back vb
   * and pressure front pf / back pb. After the optional impulse stage the velocity front is a and
   * its back b; stage 4 is the diffusion solve.
   */
  function StepEvents(velocity: SwappableFramebuffer, pressure: SwappableFramebuffer,
                      vf: Framebuffer, vb: Framebuffer, pf: Framebuffer, pb: Framebuffer,
                      vorticity: Framebuffer, scratch: Framebuffer, border: Border,
                      active: bool, radial: bool): seq<Event>
  {
    var a := if active then vb else vf;
    var b := if active then vf else vb;
    AdvectionEvents(velocity, vf, vb, border)
    + ForceEvents(velocity, vf, vb, active, radial)
    + VorticityEvents(velocity, a, b, vorticity, border)
    + SolveEvents(velocity, a, b, a, scratch)
    + ProjectionEvents(velocity, pressure, a, b, pf, pb, scratch, border)
  }

  /** One iteration of MainProgram::Run: the simulation step, then the velocity front (a) is shown. */
  function FrameEvents(velocity: SwappableFramebuffer, pressure: SwappableFramebuffer,
                       vf: Framebuffer, vb: Framebuffer, pf: Framebuffer, pb: Framebuffer,
                       vorticity: Framebuffer, scratch: Framebuffer, border: Border,
                       active: bool, radial: bool): seq<Event>
  {
    StepEvents(velocity, pressure, vf, vb, pf, pb, vorticity, scratch, border, active, radial)
    + [Shown(Render, [if active then vb else vf])]
  }

  lemma AdvectionFacts(velocity: SwappableFramebuffer, vf: Framebuffer, vb: Framebuffer,
                       border: Border, other: SwappableFramebuffer)
    ensures vf != vb ==> NoFeedback(AdvectionEvents(velocity, vf, vb, border))
    ensures Swaps(AdvectionEvents(velocity, vf, vb, border), other) == if other == velocity then 2 else 0
  {
    var tail := [Drew(Draw(Advect, vf, [vb, vb], Quad)), Swapped(velocity)];
    BoundsFacts(velocity, vf, vb, border, other);
    SwapsCountsOccurrences(tail, other);
    SwapsConcat(BoundsEvents(velocity, vf, vb, border), tail, other);
    NoFeedbackConcat(BoundsEvents(velocity, vf, vb, border), tail);
  }

  lemma VorticityFacts(velocity: SwappableFramebuffer, a: Framebuffer, b: Framebuffer,
                       vorticity: Framebuffer, border: Border, other: SwappableFramebuffer)
    ensures a != b && vorticity != a && vorticity != b ==> NoFeedback(VorticityEvents(velocity, a, b, vorticity, border))
    ensures Swaps(VorticityEvents(velocity, a, b, vorticity, border), other) == if other == velocity then 2 else 0
  {
    var curl := [Drew(Draw(Vorticity, vorticity, [a], Quad))];
    var bounds := BoundsEvents(velocity, a, b, border);
    var confine := [Drew(Draw(AddVorticity, a, [b, vorticity], Quad)), Swapped(velocity)];
    BoundsFacts(velocity, a, b, border, other);
    SwapsCountsOccurrences(curl, other);
    SwapsCountsOccurrences(confine, other);
    SwapsConcat(curl, bounds, other);
    SwapsConcat(curl + bounds, confine, other);
    NoFeedbackConcat(curl, bounds);
    NoFeedbackConcat(curl + bounds, confine);
  }

  lemma ProjectionSwaps(velocity: SwappableFramebuffer, pressure: SwappableFramebuffer,
                        a: Framebuffer, b: Framebuffer, pf: Framebuffer, pb: Framebuffer,
                        scratch: Framebuffer, border: Border, other: SwappableFramebuffer)
    requires velocity != pressure
    ensures Swaps(ProjectionEvents(velocity, pressure, a, b, pf, pb, scratch, border), other)
            == if other == velocity then 2 else if other == pressure then NumJacobiRounds else 0
  {
    var div := [Drew(Draw(Divergence, b, [a], Quad))];
    var solve := SolveEvents(pressure, pf, pb, b, scratch);
    var grad := [Drew(Draw(Gradient, pb, [pf], Quad))];
    var sub := [Drew(Draw(Subtract, b, [a, pb], Quad)), Swapped(velocity)];
    var bounds := BoundsEvents(velocity, b, a, border);
    SolveFacts(pressure, pf, pb, b, scratch, other);
    BoundsFacts(velocity, b, a, border, other);
    SwapsCountsOccurrences(div, other);
    SwapsCountsOccurrences(grad, other);
    SwapsCountsOccurrences(sub, other);
    SwapsConcat(div, solve, other);
    SwapsConcat(div + solve, grad, other);
    SwapsConcat(div + solve + grad, sub, other);
    SwapsConcat(div + solve + grad + sub, bounds, other);
  }

  lemma ProjectionSafe(velocity: SwappableFramebuffer, pressure: SwappableFramebuffer,
                       a: Framebuffer, b: Framebuffer, pf: Framebuffer, pb: Framebuffer,
                       scratch: Framebuffer, border: Border)
    requires a != b && pf != pb
    requires scratch != a && scratch != b && scratch != pf && scratch != pb
    requires pb != a && pb != b
    ensures NoFeedback(ProjectionEvents(velocity, pressure, a, b, pf, pb, scratch, border))
  {
    var div := [Drew(Draw(Divergence, b, [a], Quad))];
    var solve := SolveEvents(pressure, pf, pb, b, scratch);
    var grad := [Drew(Draw(Gradient, pb, [pf], Quad))];
    var sub := [Drew(Draw(Subtract, b, [a, pb], Quad)), Swapped(velocity)];
    var bounds := BoundsEvents(velocity, b, a, border);
    SolveFacts(pressure, pf, pb, b, scratch, pressure);
    BoundsFacts(velocity, b, a, border, velocity);
    assert NoFeedback(div);
    assert NoFeedback(grad);
    assert NoFeedback(sub);
    NoFeedbackConcat(div, solve);
    NoFeedbackConcat(div + solve, grad);
    NoFeedbackConcat(div + solve + grad, sub);
    NoFeedbackConcat(div + solve + grad + sub, bounds);
  }

  lemma StepNoFeedback(velocity: SwappableFramebuffer, pressure: SwappableFramebuffer,
                        vf: Framebuffer, vb: Framebuffer, pf: Framebuffer, pb: Framebuffer,
                        vorticity: Framebuffer, scratch: Framebuffer, border: Border,
                        active: bool, radial: bool)
    requires DistinctBuffers(vf, vb, pf, pb, vorticity, scratch)
    ensures NoFeedback(StepEvents(velocity, pressure, vf, vb, pf, pb, vorticity, scratch, border, active, radial))
  {
    var a := if active then vb else vf;
    var b := if active then vf else vb;
    var s1 := AdvectionEvents(velocity, vf, vb, border);
    var s2 := ForceEvents(velocity, vf, vb, active, radial);
    var s3 := VorticityEvents(velocity, a, b, vorticity, border);
    var s4 := SolveEvents(velocity, a, b, a, scratch);
    var s5 := ProjectionEvents(velocity, pressure, a, b, pf, pb, scratch, border);
    AdvectionFacts(velocity, vf, vb, border, velocity);
    VorticityFacts(velocity, a, b, vorticity, border, velocity);
    SolveFacts(velocity, a, b, a, scratch, velocity);
    ProjectionSafe(velocity, pressure, a, b, pf, pb, scratch, border);
    assert NoFeedback(s2);
    NoFeedbackConcat(s1, s2);
    NoFeedbackConcat(s1 + s2, s3);
    NoFeedbackConcat(s1 + s2 + s3, s4);
    NoFeedbackConcat(s1 + s2 + s3 + s4, s5);
  }

  lemma StepSwaps(velocity: SwappableFramebuffer, pressure: SwappableFramebuffer,
                   vf: Framebuffer, vb: Framebuffer, pf: Framebuffer, pb: Framebuffer,
                   vorticity: Framebuffer, scratch: Framebuffer, border: Border,
                   active: bool, radial: bool, other: SwappableFramebuffer)
    requires velocity != pressure
    ensures Swaps(StepEvents(velocity, pressure, vf, vb, pf, pb, vorticity, scratch, border, active, radial), other)
            == if other == velocity then 36 + (if active then 1 else 0)
               else if other == pressure then NumJacobiRounds
               else 0
  {
    var a := if active then vb else vf;
    var b := if active then vf else vb;
    var s1 := AdvectionEvents(velocity, vf, vb, border);
    var s2 := ForceEvents(velocity, vf, vb, active, radial);
    var s3 := VorticityEvents(velocity, a, b, vorticity, border);
    var s4 := SolveEvents(velocity, a, b, a, scratch);
    var s5 := ProjectionEvents(velocity, pressure, a, b, pf, pb, scratch, border);
    NumJacobiRoundsIsEven();
    AdvectionFacts(velocity, vf, vb, border, other);
    SwapsCountsOccurrences(s2, other);
    VorticityFacts(velocity, a, b, vorticity, border, other);
    SolveFacts(velocity, a, b, a, scratch, other);
    ProjectionSwaps(velocity, pressure, a, b, pf, pb, scratch, border, other);
    SwapsConcat(s1, s2, other);
    SwapsConcat(s1 + s2, s3, other);
    SwapsConcat(s1 + s2 + s3, s4, other);
    SwapsConcat(s1 + s2 + s3 + s4, s5, other);
  }

  /** Over one iteration no draw reads its own render target. */
  lemma FrameNoFeedback(velocity: SwappableFramebuffer, pressure: SwappableFramebuffer,
                        vf: Framebuffer, vb: Framebuffer, pf: Framebuffer, pb: Framebuffer,
                        vorticity: Framebuffer, scratch: Framebuffer, border: Border,
                        active: bool, radial: bool)
    requires DistinctBuffers(vf, vb, pf, pb, vorticity, scratch)
    ensures NoFeedback(FrameEvents(velocity, pressure, vf, vb, pf, pb, vorticity, scratch, border, active, radial))
  {
    var step := StepEvents(velocity, pressure, vf, vb, pf, pb, vorticity, scratch, border, active, radial);
    StepNoFeedback(velocity, pressure, vf, vb, pf, pb, vorticity, scratch, border, active, radial);
    NoFeedbackConcat(step, [Shown(Render, [if active then vb else vf])]);
  }

  /**
   * Over one iteration velocity is swapped 36 times plus one for an active impulse, pressure
   * NumJacobiRounds times, and no other double buffer at all.
   */
  lemma FrameSwaps(velocity: SwappableFramebuffer, pressure: SwappableFramebuffer,
                   vf: Framebuffer, vb: Framebuffer, pf: Framebuffer, pb: Framebuffer,
                   vorticity: Framebuffer, scratch: Framebuffer, border: Border,
                   active: bool, radial: bool, other: SwappableFramebuffer)
    requires velocity != pressure
    ensures Swaps(FrameEvents(velocity, pressure, vf, vb, pf, pb, vorticity, scratch, border, active, radial), other)
            == if other == velocity then 36 + (if active then 1 else 0)
               else if other == pressure then NumJacobiRounds
               else 0
  {
    var step := StepEvents(velocity, pressure, vf, vb, pf, pb, vorticity, scratch, border, active, radial);
    StepSwaps(velocity, pressure, vf, vb, pf, pb, vorticity, scratch, border, active, radial, other);
    SwapsConcat(step, [Shown(Render, [if active then vb else vf])], other);
  }

  /**
   * The swap totals of a run of frames frames, activeFrames of them with an active impulse:
   * NumJacobiRounds pressure swaps per frame, 36 velocity swaps per frame and one more per active one.
   */
  ghost predicate SwapTotals(start: seq<Event>, log: seq<Event>, velocity: SwappableFramebuffer,
                             pressure: SwappableFramebuffer, frames: nat, activeFrames: nat)
  {
    && Swaps(log, pressure) == Swaps(start, pressure) + NumJacobiRounds * frames
    && activeFrames <= frames
    && Swaps(log, velocity) == Swaps(start, velocity) + 36 * frames + activeFrames
  }

  /** One more frame with its own swap counts extends the totals. */
  lemma SwapTotalsStep(start: seq<Event>, log: seq<Event>, next: seq<Event>, velocity: SwappableFramebuffer,
                       pressure: SwappableFramebuffer, frames: nat, activeFrames: nat, active: bool)
    requires SwapTotals(start, log, velocity, pressure, frames, activeFrames)
    requires Swaps(next, pressure) == Swaps(log, pressure) + NumJacobiRounds
    requires Swaps(next, velocity) == Swaps(log, velocity) + 36 + (if active then 1 else 0)
    ensures SwapTotals(start, next, velocity, pressure, frames + 1, activeFrames + (if active then 1 else 0))
  {
  }
}
