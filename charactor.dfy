/** The jumping-character sketch (`src/03_charactor.ts`): a jump timer encoded in one integer,
    `jumpStartFrame`, with `0` meaning "not jumping", and a fixed field of `STAR_COUNT` stars.
    The frame counter, the clicks and all random draws are inputs. */
module Charactor {
  import opened P5
  import Jump
  import Stars

  /** Height of a jump in pixels. */
  const JUMP_HEIGHT: real := 150.0
  /** Length of a jump in frames. */
  const JUMP_DUR: int := 120
  /** Number of stars created by `setup`. */
  const STAR_COUNT: nat := 12

  /** Raw jump progress: `constrain(elapsed / JUMP_DUR, 0, 1)`. */
  function Progress(elapsed: int): (p: real)
    ensures 0.0 <= p <= 1.0
    ensures p == 1.0 <==> elapsed >= JUMP_DUR
    ensures elapsed <= 0 ==> p == 0.0
    ensures 0 <= elapsed <= JUMP_DUR ==> p * JUMP_DUR as real == elapsed as real
  {
    Constrain(elapsed as real / JUMP_DUR as real, 0.0, 1.0)
  }

  /** This sketch's progress rule reaches 1 exactly when `JUMP_DUR` frames have elapsed. */
  lemma ProgressEndsAfterDur()
    ensures Jump.EndsAfter(Progress, JUMP_DUR)
  {
    forall e: int
      ensures Progress(e) == 1.0 <==> e >= JUMP_DUR
    {
    }
  }

  /** `jumpStartFrame` after `drawChara` on `frame`: a jump is over, and the timer back at 0, on
      the first frame at least `JUMP_DUR` frames after its start. */
  function Settled(jumpStartFrame: int, frame: int): (r: int)
    ensures r == 0 <==> jumpStartFrame == 0 || frame - jumpStartFrame >= JUMP_DUR
    ensures r != 0 ==> r == jumpStartFrame
  {
    ProgressEndsAfterDur();
    Jump.SettledRule(jumpStartFrame, frame, Progress, JUMP_DUR);
    Jump.Settled(jumpStartFrame, frame, Progress)
  }

  /** The vertical offset `drawChara` draws the character at, from the state before the frame. */
  function JumpY(jumpStartFrame: int, frame: int, expoOut: real -> real, bounceOut: real -> real): real {
    Jump.JumpY(jumpStartFrame, frame, Progress, JUMP_HEIGHT, expoOut, bounceOut)
  }

  // ---------------------------------------------------------------- the offset

  /** The offset is 0 when idle; otherwise it follows `expoOut` over the first half of the jump,
      `1 - bounceOut` over the second half, and stays at its landing value once the jump is over. */
  lemma JumpYRule(jumpStartFrame: int, frame: int, expoOut: real -> real, bounceOut: real -> real)
    ensures jumpStartFrame == 0 ==> JumpY(jumpStartFrame, frame, expoOut, bounceOut) == 0.0
    ensures jumpStartFrame != 0 && 0 <= frame - jumpStartFrame && 2 * (frame - jumpStartFrame) < JUMP_DUR ==>
              JumpY(jumpStartFrame, frame, expoOut, bounceOut) ==
                expoOut(2.0 * (frame - jumpStartFrame) as real / JUMP_DUR as real) * JUMP_HEIGHT
    ensures jumpStartFrame != 0 && JUMP_DUR <= 2 * (frame - jumpStartFrame) <= 2 * JUMP_DUR ==>
              JumpY(jumpStartFrame, frame, expoOut, bounceOut) ==
                (1.0 - bounceOut(2.0 * (frame - jumpStartFrame) as real / JUMP_DUR as real - 1.0)) * JUMP_HEIGHT
    ensures jumpStartFrame != 0 && frame - jumpStartFrame >= JUMP_DUR ==>
              JumpY(jumpStartFrame, frame, expoOut, bounceOut) == (1.0 - bounceOut(1.0)) * JUMP_HEIGHT
  {
    var e := frame - jumpStartFrame;
    if jumpStartFrame != 0 && 0 <= e <= JUMP_DUR {
      var p := Progress(e);
      assert p == e as real / JUMP_DUR as real;
      assert p * 2.0 == 2.0 * e as real / JUMP_DUR as real;
      assert (p - 0.5) * 2.0 == 2.0 * e as real / JUMP_DUR as real - 1.0;
    }
  }

  /** Given the easings' endpoint values, the character leaves the ground at the start of a jump
      and is back on it on the frame the jump ends. */
  lemma JumpStartsAndEndsOnGround(jumpStartFrame: int, expoOut: real -> real, bounceOut: real -> real)
    requires expoOut(0.0) == 0.0 && bounceOut(0.0) == 0.0 && bounceOut(1.0) == 1.0
    ensures JumpY(jumpStartFrame, jumpStartFrame, expoOut, bounceOut) == 0.0
    ensures JumpY(jumpStartFrame, jumpStartFrame + JUMP_DUR, expoOut, bounceOut) == 0.0
  {
    Jump.EasedJumpEndpoints(expoOut, bounceOut);
  }

  /** When both easings keep [0, 1] inside [0, 1], the offset stays between the ground and
      `JUMP_HEIGHT`. */
  lemma JumpYBounds(jumpStartFrame: int, frame: int, expoOut: real -> real, bounceOut: real -> real)
    requires forall t :: 0.0 <= t <= 1.0 ==> 0.0 <= expoOut(t) <= 1.0
    requires forall t :: 0.0 <= t <= 1.0 ==> 0.0 <= bounceOut(t) <= 1.0
    ensures 0.0 <= JumpY(jumpStartFrame, frame, expoOut, bounceOut) <= JUMP_HEIGHT
  {
    if jumpStartFrame != 0 {
      Jump.EasedJumpInUnit(Progress(frame - jumpStartFrame), expoOut, bounceOut);
    }
  }

  // ---------------------------------------------------------------- the timer over many frames

  /** A jump started at `start` is in progress after every frame before `start + JUMP_DUR`,
      and clicks during it change nothing. */
  lemma JumpLasts(start: int, n: nat, clicked: int -> bool)
    requires start != 0 && n <= JUMP_DUR
    ensures Jump.Run(start, start, n, clicked, Progress) == start
  {
    ProgressEndsAfterDur();
    Jump.JumpLasts(start, start, n, clicked, Progress, JUMP_DUR);
  }

  /** A jump started at `start` ends on frame `start + JUMP_DUR`: after that frame the timer
      is 0, unless a click right after it starts the next jump on the same frame. */
  lemma JumpEnds(start: int, clicked: int -> bool)
    requires start != 0
    ensures Jump.Run(start, start, JUMP_DUR + 1, clicked, Progress) ==
              if clicked(start + JUMP_DUR) then start + JUMP_DUR else 0
  {
    ProgressEndsAfterDur();
    Jump.JumpEnds(start, clicked, Progress, JUMP_DUR);
  }

  // ---------------------------------------------------------------- the sketch

  /** `charaState`. */
  class Chara {
    var jumpStartFrame: int

    constructor ()
      ensures jumpStartFrame == 0
    {
      jumpStartFrame := 0;
    }

    /** The state part of `drawChara`: returns the vertical offset `jumpY` and ends a jump whose
        progress has reached 1. */
    method DrawChara(frame: int, expoOut: real -> real, bounceOut: real -> real) returns (jumpY: real)
      modifies this
      ensures jumpStartFrame == Settled(old(jumpStartFrame), frame)
      ensures jumpY == JumpY(old(jumpStartFrame), frame, expoOut, bounceOut)
    {
      jumpY := 0.0;
      if jumpStartFrame != 0 {
        var jumpingFrameCount := frame - jumpStartFrame;
        var progress := Progress(jumpingFrameCount);
        if progress == 1.0 {
          jumpStartFrame := 0;
        }
        var easedProgress := Jump.EasedJump(progress, expoOut, bounceOut);
        jumpY := easedProgress * JUMP_HEIGHT;
      }
    }

    /** `mouseClicked`: start a jump at `frame` unless one is in progress. */
    method MouseClicked(frame: int)
      modifies this
      ensures jumpStartFrame == Jump.Clicked(old(jumpStartFrame), frame)
    {
      if jumpStartFrame != 0 {
        return;
      }
      jumpStartFrame := frame;
    }
  }

  /** The sketch's state: the character and the stars. */
  class Sketch {
    const chara: Chara
    const stars: Stars.StarField

    constructor ()
      ensures fresh(chara) && fresh(stars)
      ensures chara.jumpStartFrame == 0 && stars.starStates == []
    {
      chara := new Chara();
      stars := new Stars.StarField();
    }

    /** `setup`: create `STAR_COUNT` stars, the `i`-th from `draws(i)`. */
    method Setup(draws: nat -> Stars.StarDraws)
      modifies stars
      ensures stars.starStates == old(stars.starStates) + Stars.NewStars(draws, STAR_COUNT)
      ensures old(stars.starStates) == [] ==> |stars.starStates| == STAR_COUNT
    {
      stars.AddStars(draws, STAR_COUNT);
    }

    /** `draw`: the stars first, then the character; returns what is drawn of both. */
    method Draw(frame: int, starDraw: nat -> real, starTarget: nat -> Vec,
                elasticInOut: real -> real, expoOut: real -> real, bounceOut: real -> real)
      returns (views: seq<Stars.StarView>, jumpY: real)
      modifies chara, stars
      ensures |stars.starStates| == |old(stars.starStates)| && |views| == |old(stars.starStates)|
      ensures forall i :: 0 <= i < |stars.starStates| ==>
                stars.starStates[i] == Stars.StepStar(old(stars.starStates)[i], frame, starDraw(i), starTarget(i)) &&
                views[i] == Stars.View(old(stars.starStates)[i], frame, elasticInOut)
      ensures chara.jumpStartFrame == Settled(old(chara.jumpStartFrame), frame)
      ensures jumpY == JumpY(old(chara.jumpStartFrame), frame, expoOut, bounceOut)
    {
      views := stars.DrawStars(frame, starDraw, starTarget, elasticInOut);
      jumpY := chara.DrawChara(frame, expoOut, bounceOut);
    }
  }
}
