/**
 * MainProgram (FluidSim2D.cpp): the owner of the field buffers and the render loop. The GL state
 * the loop relies on is kept as fields: the bound draw framebuffer, the framebuffer whose texture
 * each texture unit holds, and the unit each program's sampler uniforms name. Every draw is
 * appended to an event log together with the framebuffers its samplers read at that moment, so
 * the log records what the bindings actually produce rather than what a stage intends.
 */
module Pipeline {
  import opened Wrappers
  import opened Geometry
  import opened Framebuffers
  import opened Trace
  import opened Impulses
  import FrameLimiter

  /** The constexpr Variables block of the source. */
  datatype Settings = Settings(advectionDissipation: real, gridScale: real, vorticity: real,
                               viscosity: real, splatRadius: real, droplets: bool)

  /** The values the source compiles in: droplets are switched off. */
  const Vars := Settings(0.99, 0.3, 0.005, 0.001, 0.003, false)

  /** Target frame rate handed to the limiter. */
  const FPS := 60

  /** The time step used when no previous time stamp is known. */
  const FirstTimeStep: real := 0.016667

  /**
   * The time step of one iteration: the fixed first step when lastTime is 0, otherwise the
   * elapsed time minus the time spent polling events.
   */
  function TimeStep(lastTime: real, now: real, pollTime: real): (dt: real)
    ensures lastTime == 0.0 ==> dt == FirstTimeStep
    ensures lastTime != 0.0 ==> dt + pollTime + lastTime == now
  {
    if lastTime == 0.0 then FirstTimeStep else (now - lastTime) - pollTime
  }

  /** The unit a sampler uniform names; GLSL sampler uniforms start out naming unit 0. */
  function SamplerUnit(p: Program, name: string, samplers: map<(Program, string), nat>): nat
  {
    if (p, name) in samplers then samplers[(p, name)] else 0
  }

  /** The framebuffer whose texture the sampler name of p reads; an empty unit reads nothing. */
  function UnitTexture(p: Program, name: string, samplers: map<(Program, string), nat>,
                       units: map<nat, Framebuffer>): seq<Framebuffer>
  {
    var u := SamplerUnit(p, name, samplers);
    if u in units then [units[u]] else []
  }

  /** The framebuffers a draw with program p reads, one per sampler in declaration order. */
  function Textures(p: Program, samplers: map<(Program, string), nat>, units: map<nat, Framebuffer>)
    : seq<Framebuffer>
  {
    var names := Samplers(p);
    UnitTexture(p, names[0], samplers, units)
    + (if |names| == 2 then UnitTexture(p, names[1], samplers, units) else [])
  }

  /**
   * The slice of OpenGL state the render loop relies on: the bound draw framebuffer (null is the
   * window's default framebuffer), the framebuffer whose colour texture each texture unit holds,
   * the unit each program's sampler uniforms name, and the log of what was drawn so far.
   */
  datatype Gl = Gl(target: Framebuffer?, units: map<nat, Framebuffer>,
                   samplers: map<(Program, string), nat>, events: seq<Event>)
  {
    /** The framebuffers a draw with program p reads under the current bindings. */
    function Sampled(p: Program): seq<Framebuffer>
    {
      Textures(p, samplers, units)
    }

    /** CStdFramebuffer::Bind (or glBindFramebuffer(0) for null): later draws go to fb. */
    function Bind(fb: Framebuffer?): (r: Gl)
      ensures r.target == fb
      ensures r.units == units && r.samplers == samplers && r.events == events
    {
      this.(target := fb)
    }

    /**
     * MainProgram::BindTexture: the sampler key of p is set to unit and fb's texture is bound
     * there, so a draw with p now reads fb through key; every other sampler that named another
     * unit reads what it read before.
     */
    function BindTexture(p: Program, key: string, fb: Framebuffer, unit: nat): (r: Gl)
      ensures UnitTexture(p, key, r.samplers, r.units) == [fb]
      ensures forall q: Program, k: string {:trigger UnitTexture(q, k, r.samplers, r.units)} ::
                (q, k) != (p, key) && SamplerUnit(q, k, samplers) != unit
                ==> UnitTexture(q, k, r.samplers, r.units) == UnitTexture(q, k, samplers, units)
      ensures r.target == target && r.events == events
    {
      this.(samplers := samplers[(p, key) := unit], units := units[unit := fb])
    }

    /**
     * MainProgram::DrawQuad with program p selected: exactly one event, a draw into the bound
     * framebuffer reading what p's samplers name, or a draw shown in the window when none is bound.
     */
    function DrawQuad(p: Program): (r: Gl)
      ensures |r.events| == |events| + 1 && r.events[..|events|] == events
      ensures target != null ==> r.events[|events|] == Drew(Draw(p, target, Sampled(p), Quad))
      ensures target == null ==> r.events[|events|] == Shown(p, Sampled(p))
      ensures r.target == target && r.units == units && r.samplers == samplers
    {
      this.(events := events + [if target == null then Shown(p, Sampled(p))
                                else Drew(Draw(p, target, Sampled(p), Quad))])
    }

    /** Drawing one border line with program p selected into the bound framebuffer. */
    function DrawLine(p: Program, segment: Segment): (r: Gl)
      requires target != null
      ensures |r.events| == |events| + 1 && r.events[..|events|] == events
      ensures r.events[|events|] == Drew(Draw(p, target, Sampled(p), Line(segment)))
      ensures r.target == target && r.units == units && r.samplers == samplers
    {
      this.(events := events + [Drew(Draw(p, target, Sampled(p), Line(segment)))])
    }

    /** Recording a buffer swap. */
    function Swapped(pair: SwappableFramebuffer): Gl
    {
      this.(events := events + [Event.Swapped(pair)])
    }

    /**
     * MainProgram::CopyBuffers: one copy draw into destination that reads source and nothing
     * else; destination stays bound and source stays on unit 0.
     */
    function CopyBuffers(source: Framebuffer, destination: Framebuffer): (r: Gl)
      ensures r.events == events + [Drew(Draw(Copy, destination, [source], Quad))]
      ensures r.target == destination
      ensures r.samplers == samplers[(Copy, "field") := 0] && r.units == units[0 := source]
    {
      var g := Bind(destination).BindTexture(Copy, "field", source, 0);
      assert g.Sampled(Copy) == [source];
      g.DrawQuad(Copy)
    }
  }

  /**
   * What one loop iteration takes from the outside world: three glfwGetTime readings (before
   * polling, after polling, and after that), the impulse state as ProcessInput leaves it, the
   * std::rand results DoDroplets would consume, and the limiter's clock reading in milliseconds.
   */
  datatype FrameInput = FrameInput(start: real, polled: real, now: real, impulse: ImpulseState,
                                   draws: DropletDraws, clock: real)

  /** The limiter's clock readings of a run, one per iteration. */
  function Clocks(inputs: seq<FrameInput>): (clocks: seq<real>)
    ensures |clocks| == |inputs|
    ensures forall k | 0 <= k < |inputs| :: clocks[k] == inputs[k].clock
  {
    seq(|inputs|, k requires 0 <= k < |inputs| => inputs[k].clock)
  }

  /**
   * The limiter state and the sleeps after the first i + 1 clock readings are those after the
   * first i, extended by one more call.
   */
  lemma CallsOverClocks(s: FrameLimiter.LimiterState, inputs: seq<FrameInput>, i: nat)
    requires i < |inputs|
    ensures FrameLimiter.Calls(s, Clocks(inputs)[..i + 1])
            == FrameLimiter.Step(FrameLimiter.Calls(s, Clocks(inputs)[..i]), inputs[i].clock)
    ensures FrameLimiter.Sleeps(s, Clocks(inputs)[..i + 1])
            == FrameLimiter.Sleeps(s, Clocks(inputs)[..i]) + [FrameLimiter.Sleep(FrameLimiter.Calls(s, Clocks(inputs)[..i]))]
  {
    assert Clocks(inputs)[..i + 1] == Clocks(inputs)[..i] + [inputs[i].clock];
    FrameLimiter.CallsSnoc(s, Clocks(inputs)[..i], inputs[i].clock);
    FrameLimiter.SleepsSnoc(s, Clocks(inputs)[..i], inputs[i].clock);
  }

  /** How many of the first n inputs carry an active impulse. */
  function ActiveCount(inputs: seq<FrameInput>, n: nat): (count: nat)
    requires n <= |inputs|
    ensures count <= n
  {
    if n == 0 then 0
    else ActiveCount(inputs, n - 1) + (if inputs[n - 1].impulse.IsActive() then 1 else 0)
  }

  /**
   * What the render loop has done after its first i iterations, starting from log start and
   * limiter state s0: the swap totals, the frames with an active impulse (with droplets off, those
   * whose polled impulse is active), the limiter state and the sleeps of those i calls.
   */
  ghost predicate RunProgress(start: seq<Event>, log: seq<Event>, velocity: SwappableFramebuffer,
                              pressure: SwappableFramebuffer, droplets: bool, inputs: seq<FrameInput>,
                              i: nat, activeFrames: nat, s0: FrameLimiter.LimiterState,
                              state: FrameLimiter.LimiterState, sleeps: seq<Option<int>>)
  {
    && i <= |inputs|
    && (NoFeedback(start) ==> NoFeedback(log))
    && SwapTotals(start, log, velocity, pressure, i, activeFrames)
    && (!droplets ==> activeFrames == ActiveCount(inputs, i))
    && state == FrameLimiter.Calls(s0, Clocks(inputs)[..i])
    && sleeps == FrameLimiter.Sleeps(s0, Clocks(inputs)[..i])
  }

  /** One more iteration, with the effects of one frame on the log and the limiter, extends RunProgress. */
  lemma RunProgressStep(start: seq<Event>, log: seq<Event>, next: seq<Event>, velocity: SwappableFramebuffer,
                        pressure: SwappableFramebuffer, droplets: bool, inputs: seq<FrameInput>,
                        i: nat, activeFrames: nat, active: bool, s0: FrameLimiter.LimiterState,
                        state: FrameLimiter.LimiterState, sleeps: seq<Option<int>>, sleep: Option<int>)
    requires RunProgress(start, log, velocity, pressure, droplets, inputs, i, activeFrames, s0, state, sleeps)
    requires i < |inputs|
    requires NoFeedback(log) ==> NoFeedback(next)
    requires Swaps(next, pressure) == Swaps(log, pressure) + NumJacobiRounds
    requires Swaps(next, velocity) == Swaps(log, velocity) + 36 + (if active then 1 else 0)
    requires !droplets ==> active == inputs[i].impulse.IsActive()
    requires sleep == FrameLimiter.Sleep(state)
    ensures RunProgress(start, next, velocity, pressure, droplets, inputs, i + 1,
                        activeFrames + (if active then 1 else 0), s0,
                        FrameLimiter.Step(state, inputs[i].clock), sleeps + [sleep])
  {
    SwapTotalsStep(start, log, next, velocity, pressure, i, activeFrames, active);
    CallsOverClocks(s0, inputs, i);
  }

  class MainProgram {
    const width: int
    const height: int
    const gridScale: Vec2
    const vars: Settings
    const velocityBuffer: SwappableFramebuffer
    const pressureBuffer: SwappableFramebuffer
    const vorticityBuffer: Framebuffer
    const temporaryBuffer: Framebuffer
    const border: Border
    const limiter: FrameLimiter.FPSLimiter

    /** Bindings and the draw log. */
    var gl: Gl
    /** The "force" uniform of the directional impulse program, once it was set. */
    var impulseForce: Option<Vec2>
    var dt: real
    var impulseState: ImpulseState
    /** The static locals acc and nextDrop of DoDroplets. */
    var droplets: DropletState

    ghost predicate Valid()
      reads velocityBuffer, pressureBuffer
    {
      && width > 0 && height > 0 && vars.gridScale >= 0.0
      && velocityBuffer.Valid() && pressureBuffer.Valid() && velocityBuffer != pressureBuffer
      && DistinctBuffers(velocityBuffer.first, velocityBuffer.second,
                         pressureBuffer.first, pressureBuffer.second, vorticityBuffer, temporaryBuffer)
    }

    /**
     * Allocates the two double buffers, the vorticity and the scratch buffer in that order; each
     * framebuffer's constructor binds its texture to unit 0 and unbinds its framebuffer, so unit 0
     * ends up holding the scratch buffer and the default framebuffer is bound.
     */
    constructor (width: int, height: int, vars: Settings, impulse: ImpulseState)
      requires width > 0 && height > 0 && vars.gridScale >= 0.0
      ensures Valid()
      ensures this.width == width && this.height == height && this.vars == vars
      ensures gridScale == Vec2(1.0 / width as real, 1.0 / height as real)
      ensures border == InitBorder(width, height)
      ensures limiter.State() == FrameLimiter.Initial(FPS)
      ensures gl == Gl(null, map[0 := temporaryBuffer], map[], [])
      ensures impulseForce == None && droplets == InitialDroplets
      ensures impulseState == impulse
      ensures fresh(velocityBuffer) && fresh(pressureBuffer) && fresh(limiter)
    {
      this.width := width;
      this.height := height;
      this.vars := vars;
      gridScale := Vec2(1.0 / width as real, 1.0 / height as real);
      var v := new SwappableFramebuffer(width, height);
      var p := new SwappableFramebuffer(width, height);
      var w := new Framebuffer(width, height);
      var t := new Framebuffer(width, height);
      velocityBuffer := v;
      pressureBuffer := p;
      vorticityBuffer := w;
      temporaryBuffer := t;
      border := InitBorder(width, height);
      limiter := new FrameLimiter.FPSLimiter(FPS);
      gl := Gl(null, map[0 := t], map[], []);
      impulseForce := None;
      dt := 0.0;
      impulseState := impulse;
      droplets := InitialDroplets;
    }

    lemma DistinctFrontBack()
      requires Valid()
      ensures DistinctBuffers(velocityBuffer.front, velocityBuffer.back,
                              pressureBuffer.front, pressureBuffer.back, vorticityBuffer, temporaryBuffer)
    {
    }

    /**
     * MainProgram::SetBounds: copy velocity's front into its back, draw the four border lines
     * into the back while sampling the front, swap once.
     */
    method SetBounds()
      requires Valid()
      modifies this`gl, velocityBuffer`front, velocityBuffer`back
      ensures Valid()
      ensures gl.events == old(gl.events) + BoundsEvents(velocityBuffer, old(velocityBuffer.front), old(velocityBuffer.back), border)
      ensures velocityBuffer.front == old(velocityBuffer.back) && velocityBuffer.back == old(velocityBuffer.front)
    {
      var front, back := velocityBuffer.front, velocityBuffer.back;
      var g := gl.CopyBuffers(front, back).BindTexture(Boundary, "field", front, 0).Bind(back);
      assert g.Sampled(Boundary) == [front];
      g := g.DrawLine(Boundary, border.top).DrawLine(Boundary, border.left)
           .DrawLine(Boundary, border.bottom).DrawLine(Boundary, border.right);
      velocityBuffer.SwapBuffers();
      gl := g.Swapped(velocityBuffer);
    }

    /**
     * MainProgram::SolvePoissonSystem: copy the initial value into the scratch buffer, bind it as
     * the right-hand side "b" on unit 1 once, then NumJacobiRounds times render into the back
     * while sampling the front as "x" on unit 0, and swap. The round count is even, so the pair
     * ends with the front and back it started with.
     */
    method SolvePoissonSystem(pair: SwappableFramebuffer, initial: Framebuffer)
      requires Valid() && (pair == velocityBuffer || pair == pressureBuffer)
      modifies this`gl, pair`front, pair`back
      ensures Valid()
      ensures gl.events == old(gl.events) + SolveEvents(pair, old(pair.front), old(pair.back), initial, temporaryBuffer)
      ensures pair.front == old(pair.front) && pair.back == old(pair.back)
    {
      var front, back := pair.front, pair.back;
      gl := gl.CopyBuffers(initial, temporaryBuffer).BindTexture(Jacobi, "b", temporaryBuffer, 1);
      JacobiLoop(pair);
      NumJacobiRoundsIsEven();
      FrontAfterParity(front, back, NumJacobiRounds);
    }

    /** The for loop of SolvePoissonSystem, with "b" already bound to the scratch buffer. */
    method JacobiLoop(pair: SwappableFramebuffer)
      requires pair.Valid()
      requires UnitTexture(Jacobi, "b", gl.samplers, gl.units) == [temporaryBuffer]
      requires SamplerUnit(Jacobi, "b", gl.samplers) == 1
      modifies this`gl, pair`front, pair`back
      ensures pair.Valid()
      ensures pair.front == FrontAfter(old(pair.front), old(pair.back), NumJacobiRounds)
      ensures pair.back == FrontAfter(old(pair.back), old(pair.front), NumJacobiRounds)
      ensures gl.events == old(gl.events) + JacobiRounds(pair, old(pair.front), old(pair.back), temporaryBuffer, NumJacobiRounds)
    {
      var front, back := pair.front, pair.back;
      var start := gl.events;
      var i := 0;
      while i < NumJacobiRounds
        invariant 0 <= i <= NumJacobiRounds
        invariant pair.Valid()
        invariant pair.front == FrontAfter(front, back, i) && pair.back == FrontAfter(back, front, i)
        invariant UnitTexture(Jacobi, "b", gl.samplers, gl.units) == [temporaryBuffer]
        invariant SamplerUnit(Jacobi, "b", gl.samplers) == 1
        invariant gl.events == start + JacobiRounds(pair, front, back, temporaryBuffer, i)
      {
        JacobiIteration(pair);
        JacobiRoundsSnoc(pair, front, back, temporaryBuffer, i);
        i := i + 1;
      }
    }

    /**
     * One round of the Jacobi loop of SolvePoissonSystem: render into the back while sampling the
     * front as "x" on unit 0 and the scratch buffer, still bound as "b" on unit 1, then swap.
     */
    method JacobiIteration(pair: SwappableFramebuffer)
      requires pair.Valid()
      requires UnitTexture(Jacobi, "b", gl.samplers, gl.units) == [temporaryBuffer]
      requires SamplerUnit(Jacobi, "b", gl.samplers) == 1
      modifies this`gl, pair`front, pair`back
      ensures pair.Valid() && pair.front == old(pair.back) && pair.back == old(pair.front)
      ensures UnitTexture(Jacobi, "b", gl.samplers, gl.units) == [temporaryBuffer]
      ensures SamplerUnit(Jacobi, "b", gl.samplers) == 1
      ensures gl.events == old(gl.events) + [Drew(Draw(Jacobi, old(pair.back), [old(pair.front), temporaryBuffer], Quad)),
                                             Event.Swapped(pair)]
    {
      var g := gl.Bind(pair.GetBack()).BindTexture(Jacobi, "x", pair.GetFront(), 0);
      assert g.Sampled(Jacobi) == [pair.front, temporaryBuffer];
      pair.SwapBuffers();
      gl := g.DrawQuad(Jacobi).Swapped(pair);
    }

    /** Advection region: boundaries, then velocity advected by itself into the back, swap. */
    method Advection()
      requires Valid()
      modifies this`gl, velocityBuffer`front, velocityBuffer`back
      ensures Valid()
      ensures gl.events == old(gl.events) + AdvectionEvents(velocityBuffer, old(velocityBuffer.front), old(velocityBuffer.back), border)
      ensures velocityBuffer.front == old(velocityBuffer.front) && velocityBuffer.back == old(velocityBuffer.back)
    {
      SetBounds();
      var front, back := velocityBuffer.GetFront(), velocityBuffer.GetBack();
      var g := gl.Bind(back).BindTexture(Advect, "quantity", front, 1).BindTexture(Advect, "velocity", front, 0);
      assert g.Sampled(Advect) == [front, front];
      velocityBuffer.SwapBuffers();
      gl := g.DrawQuad(Advect).Swapped(velocityBuffer);
    }

    /**
     * Force Application region: for an active impulse, the impulse program the radial flag picks
     * renders into velocity's back reading its front, and the pair swaps; the clamped "force"
     * uniform is set only for the directional program.
     */
    method ApplyForce()
      requires Valid()
      modifies this`gl, this`impulseForce, velocityBuffer`front, velocityBuffer`back
      ensures Valid()
      ensures gl.events == old(gl.events) + ForceEvents(velocityBuffer, old(velocityBuffer.front), old(velocityBuffer.back),
                                                         impulseState.IsActive(), impulseState.radial)
      ensures impulseState.IsActive() ==>
                velocityBuffer.front == old(velocityBuffer.back) && velocityBuffer.back == old(velocityBuffer.front)
      ensures !impulseState.IsActive() ==>
                velocityBuffer.front == old(velocityBuffer.front) && velocityBuffer.back == old(velocityBuffer.back)
      ensures impulseForce == if impulseState.IsActive() && !impulseState.radial
                              then Some(ClampForce(impulseState.delta, vars.gridScale)) else old(impulseForce)
    {
      if impulseState.IsActive() {
        var force := ClampForce(impulseState.delta, vars.gridScale);
        var front, back := velocityBuffer.GetFront(), velocityBuffer.GetBack();
        var program := ImpulseProgram(impulseState.radial);
        var g := gl.Bind(back).BindTexture(program, "velocity", front, 0);
        assert g.Sampled(program) == [front];
        if !impulseState.radial {
          impulseForce := Some(force);
        }
        velocityBuffer.SwapBuffers();
        gl := g.DrawQuad(program).Swapped(velocityBuffer);
      }
    }

    /**
     * Vorticity and Add Vorticity regions: curl of the velocity front into the vorticity buffer,
     * boundaries, then confinement into velocity's back reading its front and the curl, swap.
     */
    method VorticityConfinement()
      requires Valid()
      modifies this`gl, velocityBuffer`front, velocityBuffer`back
      ensures Valid()
      ensures gl.events == old(gl.events) + VorticityEvents(velocityBuffer, old(velocityBuffer.front), old(velocityBuffer.back),
                                                             vorticityBuffer, border)
      ensures velocityBuffer.front == old(velocityBuffer.front) && velocityBuffer.back == old(velocityBuffer.back)
    {
      ghost var e0 := gl.events;
      var front, back := velocityBuffer.GetFront(), velocityBuffer.GetBack();
      ghost var curl := [Drew(Draw(Vorticity, vorticityBuffer, [front], Quad))];
      ghost var bounds := BoundsEvents(velocityBuffer, front, back, border);
      ghost var confine := [Drew(Draw(AddVorticity, front, [back, vorticityBuffer], Quad)), Event.Swapped(velocityBuffer)];
      DrawCurl();
      SetBounds();
      Confine();
      ConcatAssoc(e0, curl, bounds);
      ConcatAssoc(e0, curl + bounds, confine);
    }

    /** Vorticity region: curl of the velocity front into the vorticity buffer. */
    method DrawCurl()
      requires Valid()
      modifies this`gl
      ensures gl.events == old(gl.events) + [Drew(Draw(Vorticity, vorticityBuffer, [velocityBuffer.front], Quad))]
    {
      var g := gl.Bind(vorticityBuffer).BindTexture(Vorticity, "velocity", velocityBuffer.GetFront(), 0);
      assert g.Sampled(Vorticity) == [velocityBuffer.front];
      gl := g.DrawQuad(Vorticity);
    }

    /** Add Vorticity region: confinement into velocity's back reading its front and the curl, swap. */
    method Confine()
      requires Valid()
      modifies this`gl, velocityBuffer`front, velocityBuffer`back
      ensures Valid()
      ensures velocityBuffer.front == old(velocityBuffer.back) && velocityBuffer.back == old(velocityBuffer.front)
      ensures gl.events == old(gl.events) + [Drew(Draw(AddVorticity, old(velocityBuffer.back),
                                                       [old(velocityBuffer.front), vorticityBuffer], Quad)),
                                             Event.Swapped(velocityBuffer)]
    {
      var front, back := velocityBuffer.GetFront(), velocityBuffer.GetBack();
      var g := gl.Bind(back).BindTexture(AddVorticity, "velocity", front, 0)
                .BindTexture(AddVorticity, "vorticity", vorticityBuffer, 1);
      assert g.Sampled(AddVorticity) == [front, vorticityBuffer];
      velocityBuffer.SwapBuffers();
      gl := g.DrawQuad(AddVorticity).Swapped(velocityBuffer);
    }

    /**
     * Projection region: divergence into velocity's back, pressure solve against it, gradient
     * into pressure's back (no swap), subtraction into velocity's back reading velocity's front and
     * pressure's back, swap, boundaries.
     */
    method Projection()
      requires Valid()
      modifies this`gl, velocityBuffer`front, velocityBuffer`back, pressureBuffer`front, pressureBuffer`back
      ensures Valid()
      ensures gl.events == old(gl.events) + ProjectionEvents(velocityBuffer, pressureBuffer,
                                                              old(velocityBuffer.front), old(velocityBuffer.back),
                                                              old(pressureBuffer.front), old(pressureBuffer.back),
                                                              temporaryBuffer, border)
      ensures velocityBuffer.front == old(velocityBuffer.front) && velocityBuffer.back == old(velocityBuffer.back)
      ensures pressureBuffer.front == old(pressureBuffer.front) && pressureBuffer.back == old(pressureBuffer.back)
    {
      ghost var e0 := gl.events;
      var vf, vb := velocityBuffer.GetFront(), velocityBuffer.GetBack();
      ghost var pf, pb := pressureBuffer.front, pressureBuffer.back;
      ghost var div := [Drew(Draw(Divergence, vb, [vf], Quad))];
      ghost var solve := SolveEvents(pressureBuffer, pf, pb, vb, temporaryBuffer);
      ghost var grad := [Drew(Draw(Gradient, pb, [pf], Quad))];
      ghost var sub := [Drew(Draw(Subtract, vb, [vf, pb], Quad)), Event.Swapped(velocityBuffer)];
      ghost var bounds := BoundsEvents(velocityBuffer, vb, vf, border);
      DrawDivergence();
      SolvePoissonSystem(pressureBuffer, vb);
      SubtractGradient();
      SetBounds();
      ConcatAssoc(e0, div + solve + grad + sub, bounds);
      ConcatAssoc(e0, div + solve + grad, sub);
      ConcatAssoc(e0, div + solve, grad);
      ConcatAssoc(e0, div, solve);
    }

    /** Divergence of the velocity front into the velocity back. */
    method DrawDivergence()
      requires Valid()
      modifies this`gl
      ensures gl.events == old(gl.events) + [Drew(Draw(Divergence, velocityBuffer.back, [velocityBuffer.front], Quad))]
    {
      var g := gl.Bind(velocityBuffer.GetBack()).BindTexture(Divergence, "field", velocityBuffer.GetFront(), 0);
      assert g.Sampled(Divergence) == [velocityBuffer.front];
      gl := g.DrawQuad(Divergence);
    }

    /**
     * Pressure gradient into pressure's back (no swap), then subtraction into velocity's back
     * reading velocity's front and that gradient, and a velocity swap.
     */
    method SubtractGradient()
      requires Valid()
      modifies this`gl, velocityBuffer`front, velocityBuffer`back
      ensures Valid()
      ensures velocityBuffer.front == old(velocityBuffer.back) && velocityBuffer.back == old(velocityBuffer.front)
      ensures gl.events == old(gl.events) + [Drew(Draw(Gradient, pressureBuffer.back, [pressureBuffer.front], Quad))]
                                           + [Drew(Draw(Subtract, old(velocityBuffer.back),
                                                        [old(velocityBuffer.front), pressureBuffer.back], Quad)),
                                              Event.Swapped(velocityBuffer)]
    {
      var vf, vb := velocityBuffer.GetFront(), velocityBuffer.GetBack();
      var pf, pb := pressureBuffer.GetFront(), pressureBuffer.GetBack();
      var g := gl.Bind(pb).BindTexture(Gradient, "field", pf, 0);
      assert g.Sampled(Gradient) == [pf];
      g := g.DrawQuad(Gradient).Bind(vb).BindTexture(Subtract, "a", vf, 0).BindTexture(Subtract, "b", pb, 1);
      assert g.Sampled(Subtract) == [vf, pb];
      velocityBuffer.SwapBuffers();
      gl := g.DrawQuad(Subtract).Swapped(velocityBuffer);
    }

    /** Rendering region: unbind to the window's framebuffer and show the velocity front there. */
    method Render()
      modifies this`gl
      ensures gl.events == old(gl.events) + [Shown(Trace.Render, [velocityBuffer.front])]
      ensures gl.target == null
    {
      var g := gl.Bind(null).BindTexture(Trace.Render, "field", velocityBuffer.front, 0);
      assert g.Sampled(Trace.Render) == [velocityBuffer.front];
      gl := g.DrawQuad(Trace.Render);
    }

    /** MainProgram::DoDroplets, with the std::rand results it consumes as draws. */
    method DoDroplets(draws: DropletDraws)
      requires width > 0 && height > 0
      modifies this`droplets, this`impulseState
      ensures (droplets, impulseState) == DropletStep(old(droplets), dt, old(impulseState), draws, width, height)
    {
      var acc := droplets.acc + dt * 1000.0;
      if acc >= droplets.nextDrop {
        var next := NextDropDelay(draws.sign, draws.magnitude);
        var start := RandomPosition(draws.x0, draws.y0, width, height);
        var end := RandomPosition(draws.x1, draws.y1, width, height);
        droplets := DropletState(0.0, next);
        impulseState := impulseState.(lastPos := start, currentPos := end, delta := end.Minus(start),
                                      forceActive := true, inkActive := true, radial := true);
      } else {
        droplets := DropletState(acc, droplets.nextDrop);
        impulseState := impulseState.(forceActive := false, inkActive := false, radial := false);
      }
    }

    /**
     * The simulation regions of one iteration of MainProgram::Run: advection, force application,
     * vorticity confinement, diffusion (a Poisson solve on velocity against its own front) and
     * projection.
     */
    method Simulate()
      requires Valid()
      modifies this`gl, this`impulseForce,
               velocityBuffer`front, velocityBuffer`back, pressureBuffer`front, pressureBuffer`back
      ensures Valid()
      ensures gl.events == old(gl.events) + StepEvents(velocityBuffer, pressureBuffer,
                                                  old(velocityBuffer.front), old(velocityBuffer.back),
                                                  old(pressureBuffer.front), old(pressureBuffer.back),
                                                  vorticityBuffer, temporaryBuffer, border,
                                                  impulseState.IsActive(), impulseState.radial)
      ensures velocityBuffer.front == (if impulseState.IsActive() then old(velocityBuffer.back) else old(velocityBuffer.front))
      ensures pressureBuffer.front == old(pressureBuffer.front) && pressureBuffer.back == old(pressureBuffer.back)
      ensures impulseForce == if impulseState.IsActive() && !impulseState.radial
                              then Some(ClampForce(impulseState.delta, vars.gridScale)) else old(impulseForce)
    {
      ghost var e0 := gl.events;
      ghost var vf, vb, pf, pb := velocityBuffer.front, velocityBuffer.back, pressureBuffer.front, pressureBuffer.back;
      ghost var active := impulseState.IsActive();
      ghost var a, b := if active then vb else vf, if active then vf else vb;
      ghost var advection := AdvectionEvents(velocityBuffer, vf, vb, border);
      ghost var force := ForceEvents(velocityBuffer, vf, vb, active, impulseState.radial);
      ghost var vorticity := VorticityEvents(velocityBuffer, a, b, vorticityBuffer, border);
      ghost var diffusion := SolveEvents(velocityBuffer, a, b, a, temporaryBuffer);
      ghost var projection := ProjectionEvents(velocityBuffer, pressureBuffer, a, b, pf, pb, temporaryBuffer, border);
      Advection();
      ApplyForce();
      assert gl.events == e0 + advection + force;
      VorticityConfinement();
      SolvePoissonSystem(velocityBuffer, velocityBuffer.GetFront());
      assert gl.events == e0 + advection + force + vorticity + diffusion;
      Projection();
      ConcatAssoc(e0, advection + force + vorticity + diffusion, projection);
      ConcatAssoc(e0, advection + force + vorticity, diffusion);
      ConcatAssoc(e0, advection + force, vorticity);
      ConcatAssoc(e0, advection, force);
    }

    /**
     * One iteration of the render loop of MainProgram::Run. lastTime is declared inside the loop
     * body, so it is 0 on every iteration and dt is always the fixed first step. Returns the sleep
     * the limiter performs.
     */
    method Frame(input: FrameInput) returns (sleep: Option<int>)
      requires Valid()
      modifies this, velocityBuffer`front, velocityBuffer`back, pressureBuffer`front, pressureBuffer`back,
               limiter`avgFrameTime, limiter`fpsDelay, limiter`adjustmentCtr, limiter`lastTime
      ensures Valid()
      ensures dt == FirstTimeStep
      ensures vars.droplets ==>
                (droplets, impulseState) == DropletStep(old(droplets), FirstTimeStep, input.impulse, input.draws, width, height)
      ensures !vars.droplets ==> droplets == old(droplets) && impulseState == input.impulse
      ensures gl.events == old(gl.events) + FrameEvents(velocityBuffer, pressureBuffer,
                                                   old(velocityBuffer.front), old(velocityBuffer.back),
                                                   old(pressureBuffer.front), old(pressureBuffer.back),
                                                   vorticityBuffer, temporaryBuffer, border,
                                                   impulseState.IsActive(), impulseState.radial)
      ensures velocityBuffer.front == (if impulseState.IsActive() then old(velocityBuffer.back) else old(velocityBuffer.front))
      ensures pressureBuffer.front == old(pressureBuffer.front) && pressureBuffer.back == old(pressureBuffer.back)
      ensures impulseForce == if impulseState.IsActive() && !impulseState.radial
                              then Some(ClampForce(impulseState.delta, vars.gridScale)) else old(impulseForce)
      ensures limiter.State() == FrameLimiter.Step(old(limiter.State()), input.clock)
      ensures sleep == FrameLimiter.Sleep(old(limiter.State()))
    {
      var lastTime := 0.0;
      var now := input.start;
      var pollTime := input.polled - now;
      now := input.now;
      dt := TimeStep(lastTime, now, pollTime);
      impulseState := input.impulse;
      if vars.droplets {
        DoDroplets(input.draws);
      }
      ghost var e0 := gl.events;
      Simulate();
      ghost var e1 := gl.events;
      Render();
      sleep := limiter.Regulate(input.clock);
      assert gl.events == e0 + (e1[|e0|..] + gl.events[|e1|..]);
    }

    /**
     * Frame, seen from the render loop: the accounting of one iteration (feedback-freedom, swap
     * counts) without the full event sequence, so that the loop in Run reasons about counts only.
     */
    method CountedFrame(input: FrameInput) returns (sleep: Option<int>, ghost active: bool)
      requires Valid()
      modifies this, velocityBuffer`front, velocityBuffer`back, pressureBuffer`front, pressureBuffer`back,
               limiter`avgFrameTime, limiter`fpsDelay, limiter`adjustmentCtr, limiter`lastTime
      ensures Valid()
      ensures NoFeedback(old(gl.events)) ==> NoFeedback(gl.events)
      ensures Swaps(gl.events, pressureBuffer) == Swaps(old(gl.events), pressureBuffer) + NumJacobiRounds
      ensures active == impulseState.IsActive()
      ensures Swaps(gl.events, velocityBuffer) == Swaps(old(gl.events), velocityBuffer) + 36 + (if active then 1 else 0)
      ensures !vars.droplets ==> active == input.impulse.IsActive()
      ensures pressureBuffer.front == old(pressureBuffer.front)
      ensures limiter.State() == FrameLimiter.Step(old(limiter.State()), input.clock)
      ensures sleep == FrameLimiter.Sleep(old(limiter.State()))
    {
      ghost var before := gl.events;
      ghost var vf, vb, pf, pb := velocityBuffer.front, velocityBuffer.back, pressureBuffer.front, pressureBuffer.back;
      DistinctFrontBack();
      sleep := Frame(input);
      active := impulseState.IsActive();
      ghost var frame := FrameEvents(velocityBuffer, pressureBuffer, vf, vb, pf, pb, vorticityBuffer, temporaryBuffer,
                                     border, impulseState.IsActive(), impulseState.radial);
      FrameNoFeedback(velocityBuffer, pressureBuffer, vf, vb, pf, pb, vorticityBuffer, temporaryBuffer,
                      border, impulseState.IsActive(), impulseState.radial);
      FrameSwaps(velocityBuffer, pressureBuffer, vf, vb, pf, pb, vorticityBuffer, temporaryBuffer,
                 border, impulseState.IsActive(), impulseState.radial, pressureBuffer);
      FrameSwaps(velocityBuffer, pressureBuffer, vf, vb, pf, pb, vorticityBuffer, temporaryBuffer,
                 border, impulseState.IsActive(), impulseState.radial, velocityBuffer);
      NoFeedbackConcat(before, frame);
      SwapsConcat(before, frame, pressureBuffer);
      SwapsConcat(before, frame, velocityBuffer);
    }

    /**
     * The render loop of MainProgram::Run for one iteration per input, until the window closes.
     * Over the whole run pressure is swapped exactly NumJacobiRounds times per iteration and keeps
     * its front, velocity is swapped 36 times per iteration plus once per iteration whose impulse
     * was active (activeFrames of them: with droplets off, those whose polled impulse is active),
     * and no draw reads its own target.
     */
    method Run(inputs: seq<FrameInput>) returns (sleeps: seq<Option<int>>, ghost activeFrames: nat)
      requires Valid()
      modifies this, velocityBuffer`front, velocityBuffer`back, pressureBuffer`front, pressureBuffer`back,
               limiter`avgFrameTime, limiter`fpsDelay, limiter`adjustmentCtr, limiter`lastTime
      ensures Valid()
      ensures |sleeps| == |inputs|
      ensures NoFeedback(old(gl.events)) ==> NoFeedback(gl.events)
      ensures Swaps(gl.events, pressureBuffer) == Swaps(old(gl.events), pressureBuffer) + NumJacobiRounds * |inputs|
      ensures activeFrames <= |inputs|
      ensures Swaps(gl.events, velocityBuffer) == Swaps(old(gl.events), velocityBuffer) + 36 * |inputs| + activeFrames
      ensures !vars.droplets ==> activeFrames == ActiveCount(inputs, |inputs|)
      ensures pressureBuffer.front == old(pressureBuffer.front)
      ensures limiter.State() == FrameLimiter.Calls(old(limiter.State()), Clocks(inputs))
      ensures sleeps == FrameLimiter.Sleeps(old(limiter.State()), Clocks(inputs))
    {
      NumJacobiRoundsIsEven();
      ghost var e0, s0, pf0 := gl.events, limiter.State(), pressureBuffer.front;
      sleeps := [];
      activeFrames := 0;
      var i := 0;
      while i < |inputs|
        invariant Valid()
        invariant pressureBuffer.front == pf0
        invariant RunProgress(e0, gl.events, velocityBuffer, pressureBuffer, vars.droplets, inputs,
                              i, activeFrames, s0, limiter.State(), sleeps)
      {
        var sleep;
        ghost var active;
        ghost var log, state := gl.events, limiter.State();
        sleep, active := CountedFrame(inputs[i]);
        RunProgressStep(e0, log, gl.events, velocityBuffer, pressureBuffer, vars.droplets, inputs,
                        i, activeFrames, active, s0, state, sleeps, sleep);
        activeFrames := activeFrames + if active then 1 else 0;
        sleeps := sleeps + [sleep];
        i := i + 1;
      }
      assert Clocks(inputs)[..|inputs|] == Clocks(inputs);
    }
  }
}
