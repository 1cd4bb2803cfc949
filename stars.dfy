/** The star lifecycle of the character sketches (`addStar` and the state part of `drawStars`;
    the code is the same in both sketches). A star rests at `pos`; while `movingTo` is present it
    is flying from `pos` towards that target, started at frame `moveStartFrame`. On the frame the
    flight completes the target becomes the new resting position; an idle star starts a new
    flight when its random draw falls below `START_CHANCE`. */
module Stars {
  import opened P5

  /** Length of a flight, in frames. */
  const STAR_MOVE_DUR: int := 100
  /** An idle star starts a flight on a frame when its draw is below this. */
  const START_CHANCE: real := 0.001
  /** Opacity of a trail at the very start of a flight. */
  const FULL_ALPHA: real := 255.0

  datatype Star = Star(pos: Vec, movingTo: Option<Vec>, moveStartFrame: int, rotateSpeed: real)

  /** The raw draws `addStar` consumes: two `Math.random()` for the position, one for
      `p.random(-2, 2)`. */
  datatype StarDraws = StarDraws(x: real, y: real, spin: real)

  /** What `drawStars` draws for one star: where the star appears, and the trail line if any. */
  datatype Trail = Trail(from: Vec, to: Vec, alpha: real)
  datatype StarView = StarView(at: Vec, trail: Option<Trail>)

  predicate UnitDraws(d: StarDraws) {
    0.0 <= d.x < 1.0 && 0.0 <= d.y < 1.0 && 0.0 <= d.spin < 1.0
  }

  /** The star `addStar` pushes: at rest at a random position, with a random rotation speed. */
  function NewStar(d: StarDraws): (st: Star)
    ensures st.movingTo == None && st.moveStartFrame == 0
    ensures UnitDraws(d) ==> InUnitSquare(st.pos) && -2.0 <= st.rotateSpeed < 2.0
  {
    Star(Vec(d.x, d.y), None, 0, Random(d.spin, -2.0, 2.0))
  }

  /** The first `n` stars the setup loop creates, in creation order. */
  function NewStars(draws: nat -> StarDraws, n: nat): (stars: seq<Star>)
    ensures |stars| == n
    ensures forall i :: 0 <= i < n ==> stars[i] == NewStar(draws(i))
  {
    if n == 0 then [] else NewStars(draws, n - 1) + [NewStar(draws(n - 1))]
  }

  /** Raw flight progress: `constrain(elapsed / STAR_MOVE_DUR, 0, 1)`. */
  function MoveProgress(elapsed: int): (p: real)
    ensures 0.0 <= p <= 1.0
    ensures p == 1.0 <==> elapsed >= STAR_MOVE_DUR
    ensures elapsed <= 0 ==> p == 0.0
  {
    Constrain(elapsed as real / STAR_MOVE_DUR as real, 0.0, 1.0)
  }

  /** The completion check of `drawStars`: a flight whose progress has reached 1 ends, and the
      star comes to rest on the former target. */
  function Settle(st: Star, frame: int): (r: Star)
    ensures r.rotateSpeed == st.rotateSpeed
    ensures st.movingTo.None? || frame - st.moveStartFrame < STAR_MOVE_DUR ==> r == st
    ensures st.movingTo.Some? && frame - st.moveStartFrame >= STAR_MOVE_DUR ==>
              r == Star(st.movingTo.value, None, 0, st.rotateSpeed)
  {
    match st.movingTo
    case None => st
    case Some(target) =>
      if MoveProgress(frame - st.moveStartFrame) == 1.0 then
        st.(moveStartFrame := 0, pos := target, movingTo := None)
      else
        st
  }

  /** The start rule at the end of `drawStars`: only an idle star may start a flight. */
  function MaybeStart(st: Star, frame: int, draw: real, target: Vec): Star {
    if st.movingTo.None? && draw < START_CHANCE then
      st.(moveStartFrame := frame, movingTo := Some(target))
    else
      st
  }

  /** One star's state change on one frame of `drawStars`. */
  function StepStar(st: Star, frame: int, draw: real, target: Vec): Star {
    MaybeStart(Settle(st, frame), frame, draw, target)
  }

  /** What `drawStars` draws for `st` on `frame` (computed from the state before the frame). */
  function View(st: Star, frame: int, elasticInOut: real -> real): StarView {
    match st.movingTo
    case None => StarView(st.pos, None)
    case Some(target) =>
      var progress := MoveProgress(frame - st.moveStartFrame);
      var at := Lerp(st.pos, target, elasticInOut(progress));
      var settled := Settle(st, frame);
      if settled.movingTo.Some? then
        StarView(at, Some(Trail(settled.pos, at, (1.0 - progress) * FULL_ALPHA)))
      else
        StarView(at, None)
  }

  /** The invariant every star keeps: an idle star has `moveStartFrame == 0`, and a flying
      star started no later than the last frame drawn. */
  predicate WellFormed(st: Star, frame: int) {
    (st.movingTo.None? ==> st.moveStartFrame == 0) &&
    (st.movingTo.Some? ==> st.moveStartFrame <= frame)
  }

  /** Resting position and target, when present, both lie in the unit square. */
  predicate OnCanvas(st: Star) {
    InUnitSquare(st.pos) && (st.movingTo.Some? ==> InUnitSquare(st.movingTo.value))
  }

  // ---------------------------------------------------------------- one frame

  /** A flight that has not reached its duration is untouched: the star keeps its target and
      start frame whatever it draws, so a flying star is never re-targeted. */
  lemma FlightContinues(st: Star, frame: int, draw: real, target: Vec)
    requires st.movingTo.Some? && frame - st.moveStartFrame < STAR_MOVE_DUR
    ensures StepStar(st, frame, draw, target) == st
  {
  }

  /** A flight that reaches its duration ends with the star resting on the former target; on the
      same frame it either stays at rest (`moveStartFrame == 0`) or, when its draw is below
      `START_CHANCE`, immediately starts a new flight from there. */
  lemma FlightCompletes(st: Star, frame: int, draw: real, target: Vec)
    requires st.movingTo.Some? && frame - st.moveStartFrame >= STAR_MOVE_DUR
    ensures StepStar(st, frame, draw, target).pos == st.movingTo.value
    ensures draw >= START_CHANCE ==>
              StepStar(st, frame, draw, target) == Star(st.movingTo.value, None, 0, st.rotateSpeed)
    ensures draw < START_CHANCE ==>
              StepStar(st, frame, draw, target) == Star(st.movingTo.value, Some(target), frame, st.rotateSpeed)
  {
  }

  /** A flight starts on a frame exactly when the star is idle after the completion check and its
      draw is below `START_CHANCE`; starting records the frame and the target and nothing else. */
  lemma StartRule(st: Star, frame: int, draw: real, target: Vec)
    ensures StepStar(st, frame, draw, target) != Settle(st, frame) <==>
              Settle(st, frame).movingTo.None? && draw < START_CHANCE
    ensures StepStar(st, frame, draw, target) != Settle(st, frame) ==>
              StepStar(st, frame, draw, target) ==
                Settle(st, frame).(moveStartFrame := frame, movingTo := Some(target))
  {
  }

  /** `rotateSpeed` is fixed for a star's lifetime. */
  lemma StepKeepsRotateSpeed(st: Star, frame: int, draw: real, target: Vec)
    ensures StepStar(st, frame, draw, target).rotateSpeed == st.rotateSpeed
  {
  }

  /** Frames only move forward, and each step keeps the star well formed. */
  lemma StepKeepsWellFormed(st: Star, last: int, frame: int, draw: real, target: Vec)
    requires WellFormed(st, last) && last <= frame
    ensures WellFormed(StepStar(st, frame, draw, target), frame)
  {
  }

  /** With targets drawn from `Math.random()`, stars never leave the unit square. */
  lemma StepKeepsOnCanvas(st: Star, frame: int, draw: real, target: Vec)
    requires OnCanvas(st) && InUnitSquare(target)
    ensures OnCanvas(StepStar(st, frame, draw, target))
  {
  }

  /** The trail is drawn exactly while the star is still flying after the completion check, and
      its opacity lies in (0, 255]. */
  lemma TrailRule(st: Star, frame: int, elasticInOut: real -> real)
    ensures View(st, frame, elasticInOut).trail.Some? <==> Settle(st, frame).movingTo.Some?
    ensures View(st, frame, elasticInOut).trail.Some? ==>
              0.0 < View(st, frame, elasticInOut).trail.value.alpha <= FULL_ALPHA
  {
  }

  /** With `elasticInOut(0) == 0` and `elasticInOut(1) == 1`, a star is drawn at its resting
      position when the flight has not advanced and exactly on the target when it completes. */
  lemma ViewEndpoints(st: Star, frame: int, elasticInOut: real -> real)
    requires elasticInOut(0.0) == 0.0 && elasticInOut(1.0) == 1.0
    requires st.movingTo.Some?
    ensures frame <= st.moveStartFrame ==> View(st, frame, elasticInOut).at == st.pos
    ensures frame - st.moveStartFrame >= STAR_MOVE_DUR ==>
              View(st, frame, elasticInOut).at == st.movingTo.value &&
              View(st, frame, elasticInOut).at == Settle(st, frame).pos
  {
  }

  // ---------------------------------------------------------------- many frames

  /** The star after `drawStars` has run on frames `frame`, ..., `frame + n - 1`, drawing
      `draw(f)` and `target(f)` on frame `f`. */
  function Run(st: Star, frame: int, n: nat, draw: int -> real, target: int -> Vec): Star
    decreases n
  {
    if n == 0 then st else Run(StepStar(st, frame, draw(frame), target(frame)), frame + 1, n - 1, draw, target)
  }

  /** Running one more frame is one more step at the end. */
  lemma {:induction false} RunLast(st: Star, frame: int, n: nat, draw: int -> real, target: int -> Vec)
    ensures Run(st, frame, n + 1, draw, target) ==
              StepStar(Run(st, frame, n, draw, target), frame + n, draw(frame + n), target(frame + n))
    decreases n
  {
    if n > 0 {
      RunLast(StepStar(st, frame, draw(frame), target(frame)), frame + 1, n - 1, draw, target);
    }
  }

  /** A flight lasts: on every frame before `moveStartFrame + STAR_MOVE_DUR` the star keeps its
      resting position, target and start frame, whatever is drawn. */
  lemma {:induction false} FlightLasts(st: Star, frame: int, n: nat, draw: int -> real, target: int -> Vec)
    requires st.movingTo.Some? && frame + n <= st.moveStartFrame + STAR_MOVE_DUR
    ensures Run(st, frame, n, draw, target) == st
    decreases n
  {
    if n > 0 {
      FlightContinues(st, frame, draw(frame), target(frame));
      FlightLasts(st, frame + 1, n - 1, draw, target);
    }
  }

  /** A flight started at `s` is over after the frame `s + STAR_MOVE_DUR`: from any frame of the
      flight on, the star rests on (or restarts from) the former target after that frame. */
  lemma {:induction false} FlightLands(st: Star, frame: int, draw: int -> real, target: int -> Vec)
    requires st.movingTo.Some? && frame <= st.moveStartFrame + STAR_MOVE_DUR
    ensures Run(st, frame, st.moveStartFrame + STAR_MOVE_DUR - frame + 1, draw, target).pos == st.movingTo.value
  {
    var n: nat := st.moveStartFrame + STAR_MOVE_DUR - frame;
    FlightLasts(st, frame, n, draw, target);
    RunLast(st, frame, n, draw, target);
    FlightCompletes(st, frame + n, draw(frame + n), target(frame + n));
  }

  /** Well-formedness holds on every frame of a run. */
  lemma {:induction false} RunKeepsWellFormed(st: Star, last: int, frame: int, n: nat, draw: int -> real, target: int -> Vec)
    requires WellFormed(st, last) && last < frame
    ensures WellFormed(Run(st, frame, n, draw, target), frame + n - 1)
    decreases n
  {
    if n > 0 {
      StepKeepsWellFormed(st, last, frame, draw(frame), target(frame));
      RunKeepsWellFormed(StepStar(st, frame, draw(frame), target(frame)), frame, frame + 1, n - 1, draw, target);
    }
  }

  // ---------------------------------------------------------------- the star field

  /** The `starStates` array of a sketch. */
  class StarField {
    var starStates: seq<Star>

    constructor ()
      ensures starStates == []
    {
      starStates := [];
    }

    /** `addStar`: push one new resting star. */
    method AddStar(d: StarDraws)
      modifies this
      ensures starStates == old(starStates) + [NewStar(d)]
    {
      starStates := starStates + [NewStar(d)];
    }

    /** The setup loop: `count` calls of `addStar`, the `i`-th with `draws(i)`. */
    method AddStars(draws: nat -> StarDraws, count: nat)
      modifies this
      ensures starStates == old(starStates) + NewStars(draws, count)
    {
      for index := 0 to count
        invariant starStates == old(starStates) + NewStars(draws, index)
      {
        AddStar(draws(index));
      }
    }

    /** `drawStars` on frame `frame`: star `i` draws `draw(i)` and, if it starts a flight,
        flies to `target(i)`. Returns what is drawn, star by star; no star is added or removed. */
    method DrawStars(frame: int, draw: nat -> real, target: nat -> Vec, elasticInOut: real -> real)
      returns (views: seq<StarView>)
      modifies this
      ensures |starStates| == |old(starStates)| && |views| == |old(starStates)|
      ensures forall i :: 0 <= i < |starStates| ==>
                starStates[i] == StepStar(old(starStates)[i], frame, draw(i), target(i)) &&
                views[i] == View(old(starStates)[i], frame, elasticInOut)
    {
      views := [];
      var i := 0;
      while i < |starStates|
        invariant 0 <= i <= |starStates| == |old(starStates)|
        invariant |views| == i
        invariant forall k :: 0 <= k < i ==>
                    starStates[k] == StepStar(old(starStates)[k], frame, draw(k), target(k)) &&
                    views[k] == View(old(starStates)[k], frame, elasticInOut)
        invariant forall k :: i <= k < |starStates| ==> starStates[k] == old(starStates)[k]
      {
        var st := starStates[i];
        views := views + [View(st, frame, elasticInOut)];
        starStates := starStates[i := StepStar(st, frame, draw(i), target(i))];
        i := i + 1;
      }
    }
  }
}
