/** The character's jump timer, shared by both character sketches, which differ only in their
    constants and in how they clamp the jump progress. The timer is one integer,
    `jumpStartFrame`: `0` means idle, any other value is the frame the running jump started.
    Each sketch passes its own progress rule `progress` (from elapsed frames to raw progress).
    The eased height profile follows `expoOut` over the first half of the jump and falls back
    along `1 - bounceOut` over the second half. The two easing functions come from a library that
    is not modelled, so they are parameters, and anything known about them is a lemma `requires`. */
module Jump {

  /** A progress rule reaches 1 exactly once `dur` frames have elapsed. */
  ghost predicate EndsAfter(progress: int -> real, dur: int) {
    forall e :: progress(e) == 1.0 <==> e >= dur
  }

  /** Eased height fraction for a raw jump `progress`. */
  function EasedJump(progress: real, expoOut: real -> real, bounceOut: real -> real): real {
    if progress < 0.5 then expoOut(progress * 2.0) else 1.0 - bounceOut((progress - 0.5) * 2.0)
  }

  /** `jumpStartFrame` after `drawChara` on `frame`: a jump whose progress has reached 1 is over. */
  function Settled(jumpStartFrame: int, frame: int, progress: int -> real): int {
    if jumpStartFrame != 0 && progress(frame - jumpStartFrame) == 1.0 then 0 else jumpStartFrame
  }

  /** The vertical offset `jumpY` of `drawChara`, from the timer before the frame. */
  function JumpY(jumpStartFrame: int, frame: int, progress: int -> real, height: real,
                 expoOut: real -> real, bounceOut: real -> real): real {
    if jumpStartFrame == 0 then 0.0
    else EasedJump(progress(frame - jumpStartFrame), expoOut, bounceOut) * height
  }

  /** `jumpStartFrame` after `mouseClicked` on `frame`. */
  function Clicked(jumpStartFrame: int, frame: int): int {
    if jumpStartFrame != 0 then jumpStartFrame else frame
  }

  /** One frame of the character: `drawChara`, then the clicks received before the next frame
      (these read the same frame counter). */
  function AfterFrame(jumpStartFrame: int, frame: int, clicked: bool, progress: int -> real): int {
    var settled := Settled(jumpStartFrame, frame, progress);
    if clicked then Clicked(settled, frame) else settled
  }

  /** The timer after frames `frame`, ..., `frame + n - 1`, clicking after frame `f` when `clicked(f)`. */
  function Run(jumpStartFrame: int, frame: int, n: nat, clicked: int -> bool, progress: int -> real): int
    decreases n
  {
    if n == 0 then jumpStartFrame
    else Run(AfterFrame(jumpStartFrame, frame, clicked(frame), progress), frame + 1, n - 1, clicked, progress)
  }

  // ---------------------------------------------------------------- one frame

  /** The timer goes back to 0 exactly when it was idle or the jump has lasted `dur` frames;
      otherwise it is unchanged. */
  lemma SettledRule(jumpStartFrame: int, frame: int, progress: int -> real, dur: int)
    requires EndsAfter(progress, dur)
    ensures Settled(jumpStartFrame, frame, progress) == 0 <==>
              jumpStartFrame == 0 || frame - jumpStartFrame >= dur
    ensures Settled(jumpStartFrame, frame, progress) != 0 ==>
              Settled(jumpStartFrame, frame, progress) == jumpStartFrame
  {
    assert progress(frame - jumpStartFrame) == 1.0 <==> frame - jumpStartFrame >= dur;
  }

  /** A click changes the timer only when the character is idle, and then starts a jump at the
      current frame; since 0 means idle, a click at frame 0 leaves the character idle. */
  lemma ClickRule(jumpStartFrame: int, frame: int)
    ensures jumpStartFrame != 0 ==> Clicked(jumpStartFrame, frame) == jumpStartFrame
    ensures jumpStartFrame == 0 ==> Clicked(jumpStartFrame, frame) == frame
    ensures jumpStartFrame == 0 && frame == 0 ==> Clicked(jumpStartFrame, frame) == 0
  {
  }

  /** For progress in [0, 1] the profile is `expoOut(2p)` below one half and
      `1 - bounceOut(2(p - 0.5))` from one half on, and each easing is asked about [0, 1] only. */
  lemma EasingArgumentInUnit(progress: real, expoOut: real -> real, bounceOut: real -> real)
    requires 0.0 <= progress <= 1.0
    ensures progress < 0.5 ==>
              0.0 <= progress * 2.0 < 1.0 &&
              EasedJump(progress, expoOut, bounceOut) == expoOut(progress * 2.0)
    ensures progress >= 0.5 ==>
              0.0 <= (progress - 0.5) * 2.0 <= 1.0 &&
              EasedJump(progress, expoOut, bounceOut) == 1.0 - bounceOut((progress - 0.5) * 2.0)
  {
  }

  /** With the endpoint values of the two easings, the jump starts on the ground, peaks at half
      time and lands back on the ground. */
  lemma EasedJumpEndpoints(expoOut: real -> real, bounceOut: real -> real)
    requires expoOut(0.0) == 0.0
    requires bounceOut(0.0) == 0.0 && bounceOut(1.0) == 1.0
    ensures EasedJump(0.0, expoOut, bounceOut) == 0.0
    ensures EasedJump(0.5, expoOut, bounceOut) == 1.0
    ensures EasedJump(1.0, expoOut, bounceOut) == 0.0
  {
  }

  /** When both easings map [0, 1] into [0, 1], so does the jump profile. */
  lemma EasedJumpInUnit(progress: real, expoOut: real -> real, bounceOut: real -> real)
    requires forall t :: 0.0 <= t <= 1.0 ==> 0.0 <= expoOut(t) <= 1.0
    requires forall t :: 0.0 <= t <= 1.0 ==> 0.0 <= bounceOut(t) <= 1.0
    requires 0.0 <= progress <= 1.0
    ensures 0.0 <= EasedJump(progress, expoOut, bounceOut) <= 1.0
  {
    EasingArgumentInUnit(progress, expoOut, bounceOut);
  }

  // ---------------------------------------------------------------- many frames

  /** Running one more frame is one more `AfterFrame` at the end. */
  lemma {:induction false} RunLast(jumpStartFrame: int, frame: int, n: nat, clicked: int -> bool, progress: int -> real)
    ensures Run(jumpStartFrame, frame, n + 1, clicked, progress) ==
              AfterFrame(Run(jumpStartFrame, frame, n, clicked, progress), frame + n, clicked(frame + n), progress)
    decreases n
  {
    if n > 0 {
      RunLast(AfterFrame(jumpStartFrame, frame, clicked(frame), progress), frame + 1, n - 1, clicked, progress);
    }
  }

  /** Without clicks an idle character stays idle. */
  lemma {:induction false} IdleStaysIdle(frame: int, n: nat, progress: int -> real)
    ensures Run(0, frame, n, _ => false, progress) == 0
    decreases n
  {
    if n > 0 {
      IdleStaysIdle(frame + 1, n - 1, progress);
    }
  }

  /** A jump started at `start` is in progress after every frame before `start + dur`, and clicks
      during it change nothing. */
  lemma {:induction false} JumpLasts(start: int, frame: int, n: nat, clicked: int -> bool, progress: int -> real, dur: int)
    requires EndsAfter(progress, dur)
    requires start != 0 && start <= frame && frame + n <= start + dur
    ensures Run(start, frame, n, clicked, progress) == start
    decreases n
  {
    if n > 0 {
      SettledRule(start, frame, progress, dur);
      JumpLasts(start, frame + 1, n - 1, clicked, progress, dur);
    }
  }

  /** A jump started at `start` ends on frame `start + dur`: after that frame the timer is 0,
      unless a click right after it starts the next jump on the same frame. */
  lemma JumpEnds(start: int, clicked: int -> bool, progress: int -> real, dur: nat)
    requires EndsAfter(progress, dur)
    requires start != 0
    ensures Run(start, start, dur + 1, clicked, progress) ==
              if clicked(start + dur) then start + dur else 0
  {
    JumpLasts(start, start, dur, clicked, progress, dur);
    RunLast(start, start, dur, clicked, progress);
    SettledRule(start, start + dur, progress, dur);
  }
}
