/**
 * The walk controller's path bookkeeping: how far along its path a
 * character is, which segment it is on, and when the path is dropped.
 * The interpolated position and the vertical bob are not modelled; an
 * update reports the segment and the fraction along it instead.
 */
module Walking {
  import opened Types

  /** A path being walked: its points, its total duration and the time spent on it so far. */
  datatype WalkPath = WalkPath(points: seq<Vec>, duration: real, elapsed: real)

  /** Where on the path an update places the character: segment `index`, fraction `localT` along it. */
  datatype Placement = Placement(index: int, localT: real)

  /**
   * What one update does: nothing without a path, nothing after the
   * elapsed update when the path has fewer than two points, a placement,
   * or a fault where the source reads a point that does not exist (a
   * zero duration, or a negative time along the path) and throws.
   */
  datatype WalkOutcome = NoPath | Holding | Placed(placement: Placement) | Fault

  function Min(a: real, b: real): (m: real)
    ensures m <= a && m <= b && (m == a || m == b)
  {
    if a <= b then a else b
  }

  /** The time spent on a path after an update: never past its duration. */
  function ElapsedAfter(elapsed: real, delta: real, duration: real): (e: real)
    ensures e <= duration
    ensures elapsed + delta <= duration ==> e == elapsed + delta
    ensures elapsed + delta > duration ==> e == duration
  {
    Min(elapsed + delta, duration)
  }

  /**
   * The segment and fraction for `elapsed` of `duration` on a path of
   * `segments` segments, or None where the source would index outside its
   * points.
   */
  function Locate(elapsed: real, duration: real, segments: int): (r: Option<Placement>)
    requires segments >= 1
    ensures r.None? <==> duration == 0.0 || elapsed / duration * segments as real < 0.0
    ensures r.Some? ==> 0 <= r.value.index <= segments - 1
    ensures r.Some? ==> r.value.index as real + r.value.localT == elapsed / duration * segments as real
    ensures r.Some? ==> r.value.localT >= 0.0
    ensures r.Some? && elapsed / duration <= 1.0 ==> r.value.localT <= 1.0
  {
    if duration == 0.0 then None
    else
      var scaled := elapsed / duration * segments as real;
      if scaled < 0.0 then None
      else
        var floor := scaled.Floor;
        var index := if floor < segments - 1 then floor else segments - 1;
        Some(Placement(index, scaled - index as real))
  }

  /** A positive duration and a time within it always give a placement with its fraction in [0, 1]. */
  lemma LocateWithinPath(elapsed: real, duration: real, segments: int)
    requires segments >= 1 && duration > 0.0 && 0.0 <= elapsed <= duration
    ensures Locate(elapsed, duration, segments).Some?
    ensures 0.0 <= Locate(elapsed, duration, segments).value.localT <= 1.0
  {
    FractionOfWhole(elapsed, duration);
    NonNegativeProduct(elapsed / duration, segments as real);
  }

  /** A part of a positive whole, divided by the whole, lies in [0, 1]. */
  lemma FractionOfWhole(a: real, b: real)
    requires b > 0.0 && 0.0 <= a <= b
    ensures 0.0 <= a / b <= 1.0
  {
    var q := a / b;
    assert q * b == a;
    ScaleBounds(q, b);
  }

  lemma ScaleBounds(q: real, b: real)
    ensures b > 0.0 && q < 0.0 ==> q * b < 0.0
    ensures b > 0.0 && q > 1.0 ==> q * b > b
  {
    if b > 0.0 && q < 0.0 {
      Types.MulPos(-q, b);
    }
    if b > 0.0 && q > 1.0 {
      Types.MulPos(q - 1.0, b);
    }
  }

  lemma NonNegativeProduct(x: real, y: real)
    ensures x >= 0.0 && y >= 0.0 ==> x * y >= 0.0
  {
    if x > 0.0 && y > 0.0 {
      Types.MulPos(x, y);
    }
  }

  /** From a fresh start, `k` updates of `delta >= 0` leave min(k * delta, duration) elapsed. */
  function ElapsedAfterUpdates(k: nat, delta: real, duration: real): real
  {
    if k == 0 then 0.0 else ElapsedAfter(ElapsedAfterUpdates(k - 1, delta, duration), delta, duration)
  }

  lemma {:induction false} ElapsedAfterUpdatesClosed(k: nat, delta: real, duration: real)
    requires delta >= 0.0 && duration >= 0.0
    ensures ElapsedAfterUpdates(k, delta, duration) == Min(k as real * delta, duration)
  {
    if k > 0 {
      var prev := ElapsedAfterUpdates(k - 1, delta, duration);
      ElapsedAfterUpdatesClosed(k - 1, delta, duration);
      var before := (k - 1) as real * delta;
      assert prev == Min(before, duration);
      StepFurther(k, delta);
      MinAbsorbs(before, delta, duration);
      assert ElapsedAfterUpdates(k, delta, duration) == Min(prev + delta, duration);
    }
  }

  lemma StepFurther(k: nat, delta: real)
    requires k > 0
    ensures k as real * delta == (k - 1) as real * delta + delta
  {
    var kr := k as real;
    assert (k - 1) as real == kr - 1.0;
    assert kr * delta == (kr - 1.0) * delta + delta;
  }

  /** Capping before adding a non-negative step and capping again is capping once. */
  lemma MinAbsorbs(b: real, delta: real, d: real)
    requires delta >= 0.0
    ensures Min(Min(b, d) + delta, d) == Min(b + delta, d)
  {
  }

  class WalkController {
    var currentPath: Option<WalkPath>
    var bobTime: real

    constructor()
      ensures currentPath == None && bobTime == 0.0
    {
      currentPath := None;
      bobTime := 0.0;
    }

    /** setPath: replace any path with a fresh one over `points`, nothing elapsed. */
    method SetPath(points: seq<Vec>, duration: real)
      modifies this`currentPath
      ensures currentPath == Some(WalkPath(points, duration, 0.0))
    {
      currentPath := Some(WalkPath(points, duration, 0.0));
    }

    /**
     * update(delta): advance the elapsed time (never past the duration),
     * then, on a path of at least two points, place the character, advance
     * the bob clock and drop the path once its duration is reached.
     */
    method Update(delta: real) returns (outcome: WalkOutcome)
      modifies this`currentPath, this`bobTime
      ensures old(currentPath).None? ==> outcome == NoPath && currentPath == None && bobTime == old(bobTime)
      ensures old(currentPath).Some? ==>
        var p := old(currentPath).value;
        var advanced := p.(elapsed := ElapsedAfter(p.elapsed, delta, p.duration));
        if |p.points| <= 1 then
          outcome == Holding && currentPath == Some(advanced) && bobTime == old(bobTime)
        else
          var spot := Locate(advanced.elapsed, p.duration, |p.points| - 1);
          if spot.None? then
            outcome == Fault && currentPath == Some(advanced) && bobTime == old(bobTime)
          else
            && outcome == Placed(spot.value)
            && bobTime == old(bobTime) + delta * 4.0
            && currentPath == (if advanced.elapsed >= p.duration then None else Some(advanced))
      ensures outcome.Placed? ==> 0 <= outcome.placement.index && outcome.placement.index + 1 < |old(currentPath).value.points|
      ensures currentPath.Some? ==> currentPath.value.elapsed <= currentPath.value.duration
    {
      if currentPath.None? {
        return NoPath;
      }
      var p := currentPath.value;
      var elapsed := Min(p.elapsed + delta, p.duration);
      currentPath := Some(p.(elapsed := elapsed));
      var segments := |p.points| - 1;
      if segments <= 0 {
        return Holding;
      }
      if p.duration == 0.0 {
        return Fault;
      }
      var scaled := elapsed / p.duration * segments as real;
      if scaled < 0.0 {
        return Fault;
      }
      var floor := scaled.Floor;
      var index := if floor < segments - 1 then floor else segments - 1;
      var localT := scaled - index as real;
      bobTime := bobTime + delta * 4.0;
      if elapsed >= p.duration {
        currentPath := None;
      }
      outcome := Placed(Placement(index, localT));
    }
  }

  /**
   * Walking a path of at least two points with a positive duration and
   * non-negative updates never faults, and every placement's fraction lies
   * in [0, 1].
   */
  lemma WalkNeverFaults(p: WalkPath, delta: real)
    requires |p.points| >= 2 && p.duration > 0.0 && delta >= 0.0 && 0.0 <= p.elapsed
    ensures var e := ElapsedAfter(p.elapsed, delta, p.duration);
      && Locate(e, p.duration, |p.points| - 1).Some?
      && 0.0 <= Locate(e, p.duration, |p.points| - 1).value.localT <= 1.0
  {
    LocateWithinPath(ElapsedAfter(p.elapsed, delta, p.duration), p.duration, |p.points| - 1);
  }

  /** With fixed non-negative updates the path is dropped at the first update that reaches its duration. */
  lemma PathDroppedAtEnd(k: nat, delta: real, duration: real)
    requires delta >= 0.0 && duration >= 0.0
    ensures ElapsedAfterUpdates(k, delta, duration) >= duration <==> k as real * delta >= duration
  {
    ElapsedAfterUpdatesClosed(k, delta, duration);
  }
}
