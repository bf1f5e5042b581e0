/**
 * The impulse state the force stage consumes, the force clamp, and the scripted droplet generator
 * of MainProgram::DoDroplets (FluidSim2D.cpp). std::rand() results are taken as parameters.
 */
module Impulses {
  import opened Geometry

  /**
   * ImpulseState; the source keeps positions as glm vec3 with z == 0, only x and y are modelled.
   * The header that declares it (ImpulseState.h) is not part of this model.
   */
  datatype ImpulseState = ImpulseState(lastPos: Vec2, currentPos: Vec2, delta: Vec2,
                                       forceActive: bool, inkActive: bool, radial: bool)
  {
    /** Injection runs only for an engaged force. */
    predicate IsActive() { forceActive }
  }

  /** std::clamp(v, lo, hi), which requires !(hi < lo). */
  function Clamp(v: real, lo: real, hi: real): (r: real)
    requires lo <= hi
    ensures lo <= r <= hi
    ensures lo <= v <= hi ==> r == v
    ensures v < lo ==> r == lo
    ensures hi < v ==> r == hi
  {
    if v < lo then lo else if hi < v then hi else v
  }

  function Abs(v: real): real { if v < 0.0 then -v else v }

  /** The clamped value is the point of [lo, hi] nearest to v. */
  lemma ClampIsNearest(v: real, lo: real, hi: real, y: real)
    requires lo <= y <= hi
    ensures Abs(Clamp(v, lo, hi) - v) <= Abs(y - v)
  {
  }

  /** The directional force of the impulse stage: the mouse delta clamped to [-limit, limit] per axis. */
  function ClampForce(delta: Vec2, limit: real): (force: Vec2)
    requires limit >= 0.0
    ensures -limit <= force.x <= limit && -limit <= force.y <= limit
    ensures -limit <= delta.x <= limit ==> force.x == delta.x
    ensures -limit <= delta.y <= limit ==> force.y == delta.y
    ensures Abs(force.x) <= Abs(delta.x) && Abs(force.y) <= Abs(delta.y)
  {
    Vec2(Clamp(delta.x, -limit, limit), Clamp(delta.y, -limit, limit))
  }

  /** MainProgram::RandomPosition: a whole-numbered cell position, rx % width and ry % height. */
  function RandomPosition(rx: nat, ry: nat, width: int, height: int): (p: Vec2)
    requires width > 0 && height > 0
    ensures 0.0 <= p.x < width as real && 0.0 <= p.y < height as real
    ensures p.x == p.x.Floor as real && p.y == p.y.Floor as real
    ensures rx < width ==> p.x == rx as real
    ensures ry < height ==> p.y == ry as real
  {
    Vec2((rx % width) as real, (ry % height) as real)
  }

  /** The mean time between drops in milliseconds. */
  const Delay: real := 1000.0

  /**
   * The next drop threshold, Delay + (-1)^(sign % 2) * (magnitude % int(0.5 * Delay)):
   * a whole number of milliseconds within [Delay/2 + 1, 3*Delay/2 - 1], at least Delay for an
   * even sign draw and at most Delay for an odd one.
   */
  function NextDropDelay(sign: nat, magnitude: nat): (r: real)
    ensures 501.0 <= r <= 1499.0
    ensures Delay / 2.0 < r < 1.5 * Delay
    ensures r == r.Floor as real
    ensures sign % 2 == 0 ==> r >= Delay
    ensures sign % 2 == 1 ==> r <= Delay
  {
    var spread := (0.5 * Delay).Floor;
    assert spread == 500;
    var offset := magnitude % spread;
    var r := Delay + (if sign % 2 == 0 then 1.0 else -1.0) * offset as real;
    assert r == (if sign % 2 == 0 then 1000 + offset else 1000 - offset) as real;
    r
  }

  /** The function-local statics of DoDroplets. */
  datatype DropletState = DropletState(acc: real, nextDrop: real)

  const InitialDroplets := DropletState(0.0, 0.0)

  /**
   * The six std::rand() results one drop consumes: the sign and the size of the threshold
   * offset, then x and y of the start position and x and y of the end position.
   */
  datatype DropletDraws = DropletDraws(sign: nat, magnitude: nat, x0: nat, y0: nat, x1: nat, y1: nat)

  /**
   * One call of DoDroplets with frame time dt (seconds): dt*1000 ms are accumulated; once the
   * accumulator reaches the threshold a radial drop between two random grid positions fires and
   * a new threshold is drawn, otherwise all three flags are cleared and the positions stay.
   */
  function DropletStep(d: DropletState, dt: real, s: ImpulseState, draws: DropletDraws,
                       width: int, height: int): (r: (DropletState, ImpulseState))
    requires width > 0 && height > 0
    // fires exactly when the accumulated time reaches the threshold
    ensures r.1.forceActive <==> d.acc + dt * 1000.0 >= d.nextDrop
    ensures r.1.forceActive == r.1.inkActive == r.1.radial
    // after every call the accumulator is below the threshold
    ensures r.0.acc < r.0.nextDrop
    ensures r.1.forceActive ==>
              && r.0.acc == 0.0 && 501.0 <= r.0.nextDrop <= 1499.0
              && r.1.delta == r.1.currentPos.Minus(r.1.lastPos)
              && 0.0 <= r.1.lastPos.x < width as real && 0.0 <= r.1.lastPos.y < height as real
              && 0.0 <= r.1.currentPos.x < width as real && 0.0 <= r.1.currentPos.y < height as real
    ensures !r.1.forceActive ==>
              && r.0 == DropletState(d.acc + dt * 1000.0, d.nextDrop)
              && r.1.lastPos == s.lastPos && r.1.currentPos == s.currentPos && r.1.delta == s.delta
  {
    var acc := d.acc + dt * 1000.0;
    if acc >= d.nextDrop then
      var next := NextDropDelay(draws.sign, draws.magnitude);
      var start := RandomPosition(draws.x0, draws.y0, width, height);
      var end := RandomPosition(draws.x1, draws.y1, width, height);
      (DropletState(0.0, next),
       ImpulseState(start, end, end.Minus(start), true, true, true))
    else
      (DropletState(acc, d.nextDrop), s.(forceActive := false, inkActive := false, radial := false))
  }
}
