/** The rising-bubble sketch (`src/02_bubble.ts`). Each frame culls the bubbles that have left
    the top of the screen, refills the population to `COUNT` with new bubbles, and moves every
    bubble up by its own speed. A new bubble appears near the cursor while the cursor has moved
    within the last `MOUSE_ACTIVE_FRAMES` frames, and at a random place below the bottom edge
    otherwise; a biased "depth" draw sets both its size and its speed.
    Positions are fractions of the canvas (`x` of its width, `y` of its height); `size` is a
    fraction of the width. The cull test adds that width fraction to the `y` coordinate in
    pixels, exactly as the sketch does. */
module Bubbles {
  import opened P5

  /** Number of bubbles kept on screen. */
  const COUNT: nat := 40
  /** Size range, as fractions of the canvas width. */
  const MINSIZE: real := 0.005
  const MAXSIZE: real := 0.2
  /** Speed range, as fractions of the canvas height per frame. */
  const MINSPEED: real := 0.005
  const MAXSPEED: real := 0.02
  /** How long after a cursor move new bubbles keep appearing at the cursor, in frames. */
  const MOUSE_ACTIVE_FRAMES: int := 120
  /** Half-width of the random offset of a bubble spawned at the cursor. */
  const CURSOR_SPREAD: real := 0.05
  /** Starting height of a bubble spawned at the bottom (below the visible canvas). */
  const BOTTOM_Y: real := 1.2
  /** A bubble is filled when its fill draw exceeds this. */
  const FILL_THRESHOLD: real := 0.5

  datatype Bubble = Bubble(pos: Vec, size: real, speed: real, isFill: bool)

  /** The raw random draws `addBubble` makes for one bubble, each in [0, 1): the depth sample,
      the `x` draw (a position when spawning at the bottom, an offset at the cursor), the `y`
      offset draw (used only at the cursor) and the fill draw. */
  datatype SpawnDraws = SpawnDraws(depth: real, x: real, y: real, fill: real)

  /** What the sketch reads from p5 during a frame. */
  datatype Input = Input(frameCount: int, mouseX: real, mouseY: real, width: real, height: real)

  predicate UnitDraws(d: SpawnDraws) {
    0.0 <= d.depth < 1.0 && 0.0 <= d.x < 1.0 && 0.0 <= d.y < 1.0 && 0.0 <= d.fill < 1.0
  }

  // ---------------------------------------------------------------- spawning

  /** The depth `zDist = p.random() ** 3`: in [0, 1) and never above the draw itself, so most
      bubbles are far away; draws of 0 and 1 give depths 0 and 1. */
  function ZDist(u: real): (z: real)
    ensures 0.0 <= u < 1.0 ==> 0.0 <= z <= u
    ensures u == 0.0 ==> z == 0.0
    ensures u == 1.0 ==> z == 1.0
  {
    if 0.0 <= u < 1.0 then
      UnitProduct(u, u);
      UnitProduct(u * u, u);
      u * u * u
    else
      u * u * u
  }

  /** Multiplying by a factor in [0, 1) does not make a non-negative number larger. */
  lemma UnitProduct(a: real, b: real)
    requires 0.0 <= a && 0.0 <= b < 1.0
    ensures 0.0 <= a * b <= a
  {
    assert a * (1.0 - b) >= 0.0;
  }

  /** Size and speed of a bubble at depth `z`: `p.map(z, 0, 1, MIN, MAX)`. */
  function Size(z: real): real {
    Map(z, 0.0, 1.0, MINSIZE, MAXSIZE)
  }

  function Speed(z: real): real {
    Map(z, 0.0, 1.0, MINSPEED, MAXSPEED)
  }

  /** Whether `addBubble` spawns at the cursor on `frameCount`. */
  predicate UseCursor(frameCount: int, lastMouseMoved: int) {
    frameCount - lastMouseMoved < MOUSE_ACTIVE_FRAMES
  }

  /** Spawning at the cursor divides the cursor position by the canvas size. */
  predicate CanSpawn(input: Input, lastMouseMoved: int) {
    UseCursor(input.frameCount, lastMouseMoved) ==> input.width != 0.0 && input.height != 0.0
  }

  /** The bubble `addBubble` pushes. */
  function Spawn(input: Input, lastMouseMoved: int, d: SpawnDraws): (b: Bubble)
    requires CanSpawn(input, lastMouseMoved)
    ensures !UseCursor(input.frameCount, lastMouseMoved) ==> b.pos == Vec(d.x, BOTTOM_Y)
    ensures UseCursor(input.frameCount, lastMouseMoved) && UnitDraws(d) ==>
              input.mouseX / input.width - CURSOR_SPREAD <= b.pos.x < input.mouseX / input.width + CURSOR_SPREAD &&
              input.mouseY / input.height - CURSOR_SPREAD <= b.pos.y < input.mouseY / input.height + CURSOR_SPREAD
    ensures UnitDraws(d) ==> MINSIZE <= b.size < MAXSIZE && MINSPEED <= b.speed < MAXSPEED
    ensures b.isFill <==> d.fill > FILL_THRESHOLD
  {
    var zDist := ZDist(d.depth);
    var isUseMousePos := UseCursor(input.frameCount, lastMouseMoved);
    var x := if isUseMousePos then input.mouseX / input.width + Random(d.x, -CURSOR_SPREAD, CURSOR_SPREAD) else d.x;
    var y := if isUseMousePos then input.mouseY / input.height + Random(d.y, -CURSOR_SPREAD, CURSOR_SPREAD) else BOTTOM_Y;
    Bubble(Vec(x, y), Size(zDist), Speed(zDist), d.fill > FILL_THRESHOLD)
  }

  /** The bubbles `n` calls of `addBubble` push in one frame, the `i`-th with `draws(i)`. */
  function Spawns(input: Input, lastMouseMoved: int, draws: nat -> SpawnDraws, n: nat): (r: seq<Bubble>)
    requires CanSpawn(input, lastMouseMoved)
    ensures |r| == n
    ensures forall i :: 0 <= i < n ==> r[i] == Spawn(input, lastMouseMoved, draws(i))
  {
    if n == 0 then [] else Spawns(input, lastMouseMoved, draws, n - 1) + [Spawn(input, lastMouseMoved, draws(n - 1))]
  }

  /** How many bubbles the refill loop adds to a population of `n`. */
  function Needed(n: nat): nat {
    if n < COUNT then COUNT - n else 0
  }

  // ---------------------------------------------------------------- culling and moving

  /** The filter condition of `removeOutBubbles`. */
  predicate OnScreen(b: Bubble, height: real) {
    b.pos.y * height + b.size >= 0.0
  }

  /** `bubbles.filter(OnScreen)`. */
  function Visible(bs: seq<Bubble>, height: real): (r: seq<Bubble>)
    ensures |r| <= |bs|
    ensures forall b :: b in r ==> b in bs && OnScreen(b, height)
    ensures forall i :: 0 <= i < |bs| && OnScreen(bs[i], height) ==> bs[i] in r
    decreases |bs|
  {
    if bs == [] then []
    else (if OnScreen(bs[0], height) then [bs[0]] else []) + Visible(bs[1..], height)
  }

  /** One step of `updateBubbles`: `b.pos.y -= b.speed`. */
  function Rise(b: Bubble): Bubble {
    b.(pos := b.pos.(y := b.pos.y - b.speed))
  }

  function RiseAll(bs: seq<Bubble>): seq<Bubble> {
    seq(|bs|, i requires 0 <= i < |bs| => Rise(bs[i]))
  }

  /** The population after one `draw`: remove, refill, then move. */
  function Tick(bs: seq<Bubble>, lastMouseMoved: int, input: Input, draws: nat -> SpawnDraws): seq<Bubble>
    requires CanSpawn(input, lastMouseMoved)
  {
    var kept := Visible(bs, input.height);
    RiseAll(kept + Spawns(input, lastMouseMoved, draws, Needed(|kept|)))
  }

  // ---------------------------------------------------------------- depth map

  /** Depth 0 gives the smallest, slowest bubble and depth 1 the largest, fastest one. */
  lemma DepthMapEndpoints(z: real)
    ensures z == 0.0 ==> Size(z) == MINSIZE && Speed(z) == MINSPEED
    ensures z == 1.0 ==> Size(z) == MAXSIZE && Speed(z) == MAXSPEED
  {
  }

  /** Size and speed both grow strictly with depth. */
  lemma DepthMapMonotone(z1: real, z2: real)
    requires z1 < z2
    ensures Size(z1) < Size(z2) && Speed(z1) < Speed(z2)
  {
  }

  /** Depths in [0, 1] give sizes and speeds inside the configured ranges. */
  lemma DepthMapRange(z: real)
    requires 0.0 <= z <= 1.0
    ensures MINSIZE <= Size(z) <= MAXSIZE && MINSPEED <= Speed(z) <= MAXSPEED
  {
  }

  /** Size and speed come from the same depth: the speed is an affine function of the size. */
  lemma SpeedFollowsSize(z: real)
    ensures (Speed(z) - MINSPEED) * (MAXSIZE - MINSIZE) == (Size(z) - MINSIZE) * (MAXSPEED - MINSPEED)
  {
  }

  // ---------------------------------------------------------------- cursor window

  /** Cursor spawning lasts `MOUSE_ACTIVE_FRAMES` frames after the last cursor move; with the
      initial `lastMouseMoved` no frame from 0 on spawns at the cursor. */
  lemma CursorWindow(frameCount: int, lastMouseMoved: int)
    ensures UseCursor(frameCount, lastMouseMoved) <==> frameCount < lastMouseMoved + MOUSE_ACTIVE_FRAMES
    ensures UseCursor(frameCount, -MOUSE_ACTIVE_FRAMES) <==> frameCount < 0
  {
  }

  // ---------------------------------------------------------------- filter

  /** The filter distributes over concatenation, so it keeps the order of the bubbles. */
  lemma {:induction false} VisibleAppend(a: seq<Bubble>, b: seq<Bubble>, height: real)
    ensures Visible(a + b, height) == Visible(a, height) + Visible(b, height)
    decreases |a|
  {
    if a == [] {
      assert a + b == b;
    } else {
      assert (a + b)[1..] == a[1..] + b;
      VisibleAppend(a[1..], b, height);
    }
  }

  /** A single bubble is kept exactly when it passes the filter condition. */
  lemma VisibleSingle(b: Bubble, height: real)
    ensures Visible([b], height) == if OnScreen(b, height) then [b] else []
  {
    assert [b][1..] == [];
  }

  /** Filtering twice is filtering once. */
  lemma {:induction false} VisibleIdempotent(bs: seq<Bubble>, height: real)
    ensures Visible(Visible(bs, height), height) == Visible(bs, height)
    decreases |bs|
  {
    if bs != [] {
      var head := if OnScreen(bs[0], height) then [bs[0]] else [];
      VisibleAppend(head, Visible(bs[1..], height), height);
      if OnScreen(bs[0], height) {
        VisibleSingle(bs[0], height);
      }
      VisibleIdempotent(bs[1..], height);
    }
  }

  // ---------------------------------------------------------------- one frame

  /** `updateBubbles` lowers `y` by the bubble's speed and leaves everything else alone. */
  lemma RiseRule(b: Bubble)
    ensures Rise(b).pos.y == b.pos.y - b.speed
    ensures Rise(b).pos.x == b.pos.x && Rise(b).size == b.size && Rise(b).speed == b.speed
    ensures Rise(b).isFill == b.isFill
  {
  }

  /** After a frame there are `COUNT` bubbles, or as many as survived the cull if that is more
      (which cannot happen from a population of at most `COUNT`). */
  lemma TickPopulation(bs: seq<Bubble>, lastMouseMoved: int, input: Input, draws: nat -> SpawnDraws)
    requires CanSpawn(input, lastMouseMoved)
    ensures |Visible(bs, input.height)| <= COUNT ==> |Tick(bs, lastMouseMoved, input, draws)| == COUNT
    ensures |bs| <= COUNT ==> |Tick(bs, lastMouseMoved, input, draws)| == COUNT
    ensures |Visible(bs, input.height)| > COUNT ==>
              |Tick(bs, lastMouseMoved, input, draws)| == |Visible(bs, input.height)|
  {
  }

  /** The order within a frame: the survivors of the cull come first, in their old order, then
      the new bubbles in creation order, and every one of them, new ones included, has risen once. */
  lemma TickOrder(bs: seq<Bubble>, lastMouseMoved: int, input: Input, draws: nat -> SpawnDraws)
    requires CanSpawn(input, lastMouseMoved)
    ensures var kept := Visible(bs, input.height);
            var t := Tick(bs, lastMouseMoved, input, draws);
            |t| == |kept| + Needed(|kept|) &&
            (forall i :: 0 <= i < |kept| ==> t[i] == Rise(kept[i])) &&
            (forall i :: |kept| <= i < |t| ==> t[i] == Rise(Spawn(input, lastMouseMoved, draws(i - |kept|))))
  {
  }

  // ---------------------------------------------------------------- the sketch

  /** The sketch's state: the `bubbles` array and `lastMouseMoved`. */
  class BubbleSketch {
    var bubbles: seq<Bubble>
    var lastMouseMoved: int

    constructor ()
      ensures bubbles == [] && lastMouseMoved == -MOUSE_ACTIVE_FRAMES
    {
      bubbles := [];
      lastMouseMoved := -MOUSE_ACTIVE_FRAMES;
    }

    /** `addBubble`: push one new bubble. */
    method AddBubble(input: Input, d: SpawnDraws)
      requires CanSpawn(input, lastMouseMoved)
      modifies this
      ensures lastMouseMoved == old(lastMouseMoved)
      ensures bubbles == old(bubbles) + [Spawn(input, lastMouseMoved, d)]
    {
      bubbles := bubbles + [Spawn(input, lastMouseMoved, d)];
    }

    /** `removeOutBubbles`: keep the bubbles that pass the filter condition. */
    method RemoveOutBubbles(height: real)
      modifies this
      ensures bubbles == Visible(old(bubbles), height)
      ensures lastMouseMoved == old(lastMouseMoved)
    {
      bubbles := Visible(bubbles, height);
    }

    /** The refill loop of `draw`: add bubbles until there are `COUNT`. */
    method Refill(input: Input, draws: nat -> SpawnDraws)
      requires CanSpawn(input, lastMouseMoved)
      modifies this
      ensures lastMouseMoved == old(lastMouseMoved)
      ensures bubbles == old(bubbles) + Spawns(input, lastMouseMoved, draws, Needed(|old(bubbles)|))
      ensures |bubbles| >= COUNT
    {
      var k: nat := 0;
      while |bubbles| < COUNT
        invariant lastMouseMoved == old(lastMouseMoved)
        invariant k <= Needed(|old(bubbles)|)
        invariant bubbles == old(bubbles) + Spawns(input, lastMouseMoved, draws, k)
        decreases COUNT - |bubbles|
      {
        AddBubble(input, draws(k));
        k := k + 1;
      }
    }

    /** `updateBubbles`: every bubble rises by its speed. */
    method UpdateBubbles()
      modifies this
      ensures bubbles == RiseAll(old(bubbles))
      ensures lastMouseMoved == old(lastMouseMoved)
    {
      var i := 0;
      while i < |bubbles|
        invariant 0 <= i <= |bubbles| == |old(bubbles)|
        invariant lastMouseMoved == old(lastMouseMoved)
        invariant forall k :: 0 <= k < i ==> bubbles[k] == Rise(old(bubbles)[k])
        invariant forall k :: i <= k < |bubbles| ==> bubbles[k] == old(bubbles)[k]
      {
        var b := bubbles[i];
        bubbles := bubbles[i := b.(pos := b.pos.(y := b.pos.y - b.speed))];
        i := i + 1;
      }
    }

    /** The state part of `draw`: remove, refill, move. */
    method Draw(input: Input, draws: nat -> SpawnDraws)
      requires CanSpawn(input, lastMouseMoved)
      modifies this
      ensures lastMouseMoved == old(lastMouseMoved)
      ensures bubbles == Tick(old(bubbles), lastMouseMoved, input, draws)
      ensures |old(bubbles)| <= COUNT ==> |bubbles| == COUNT
    {
      RemoveOutBubbles(input.height);
      Refill(input, draws);
      UpdateBubbles();
      TickPopulation(old(bubbles), lastMouseMoved, input, draws);
    }

    /** `mouseMoved`: remember the frame of the last cursor move. */
    method MouseMoved(frameCount: int)
      modifies this
      ensures lastMouseMoved == frameCount
      ensures bubbles == old(bubbles)
    {
      lastMouseMoved := frameCount;
    }
  }
}
