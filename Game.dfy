/**
 * The "Flappy Dedo" games: progressive difficulty, the per-frame pipe step
 * (move, collide, score once, cull) and the game-state machine.  Pipe heights
 * come from `random.randint` and spawning from the wall clock; both are
 * inputs here.
 */
module Game {
  import opened Wrappers
  import opened Geometry
  import opened Arith

  /** The difficulty constants of a script: base speed and its cap, base gap and its floor. */
  datatype Difficulty = Difficulty(baseSpeed: int, speedCap: int, baseGap: int, gapFloor: int)

  /** flappyDedo.py and testeFinal.py. */
  const SuiteDifficulty := Difficulty(20, 30, 220, 120)
  /** testeFinalJogov2.py. */
  const PhysicsDifficulty := Difficulty(10, 26, 230, 160)

  function Min(a: int, b: int): int { if a < b then a else b }
  function Max(a: int, b: int): int { if a > b then a else b }

  /** `min(cap, base + (score // 5) * 2)`. */
  function PipeSpeed(d: Difficulty, score: nat): int {
    Min(d.speedCap, d.baseSpeed + (score / 5) * 2)
  }

  /** `max(floor, base - (score // 5) * 10)`. */
  function PipeGap(d: Difficulty, score: nat): int {
    Max(d.gapFloor, d.baseGap - (score / 5) * 10)
  }

  /** Speed and gap stay within their limits and start from the base values. */
  lemma DifficultyBounds(d: Difficulty, score: nat)
    requires d.baseSpeed <= d.speedCap && d.gapFloor <= d.baseGap
    ensures d.baseSpeed <= PipeSpeed(d, score) <= d.speedCap
    ensures d.gapFloor <= PipeGap(d, score) <= d.baseGap
    ensures score < 5 ==> PipeSpeed(d, score) == d.baseSpeed && PipeGap(d, score) == d.baseGap
  {
  }

  /** A higher score never makes the pipes slower or the gap wider. */
  lemma DifficultyIsMonotone(d: Difficulty, s: nat, t: nat)
    requires s <= t
    ensures PipeSpeed(d, s) <= PipeSpeed(d, t)
    ensures PipeGap(d, s) >= PipeGap(d, t)
  {
    DivisionIsMonotone(s, t, 5);
  }

  /** Every five points the level rises by one, until the limits are reached. */
  lemma DifficultyLevels(d: Difficulty, score: nat)
    ensures PipeSpeed(d, score + 5) == Min(d.speedCap, PipeSpeed(d, score) + 2) || PipeSpeed(d, score) == d.speedCap
    ensures PipeSpeed(d, score + 5) == Min(d.speedCap, d.baseSpeed + (score / 5) * 2 + 2)
    ensures PipeGap(d, score + 5) == Max(d.gapFloor, d.baseGap - (score / 5) * 10 - 10)
  {
    assert (score + 5) / 5 == score / 5 + 1;
  }

  /** The suite reaches its speed cap 30 and gap floor 120 at 25 points; the physics variant its 26 and 160 at 40 and 35. */
  lemma DifficultyCaps()
    ensures PipeSpeed(SuiteDifficulty, 24) == 28 && PipeSpeed(SuiteDifficulty, 25) == 30
    ensures PipeGap(SuiteDifficulty, 49) == 130 && PipeGap(SuiteDifficulty, 50) == 120
    ensures forall s: nat :: PipeSpeed(SuiteDifficulty, s) <= 30 && PipeGap(SuiteDifficulty, s) >= 120
    ensures forall s: nat :: PipeSpeed(PhysicsDifficulty, s) <= 26 && PipeGap(PhysicsDifficulty, s) >= 160
    ensures PipeSpeed(PhysicsDifficulty, 40) == 26 && PipeGap(PhysicsDifficulty, 35) == 160
  {
  }

  /** A pipe: its left edge, the bottom of its top half, its own gap (used by the pinch game) and the "counted" mark. */
  datatype Pipe = Pipe(x: int, height: int, gap: int, counted: bool)

  /** Which gap the collision test uses: the current difficulty's, or the pipe's own. */
  datatype GapRule = CurrentGap(g: int) | OwnGap

  function GapOf(rule: GapRule, p: Pipe): int {
    match rule
    case CurrentGap(g) => g
    case OwnGap => p.gap
  }

  /**
   * The bird's collision shape.  `Box`: the sprite rectangle of flappyDedo.py,
   * tested with `check_collision` against both halves of the pipe.  `Round`:
   * a circle of radius `r` at column `cx`, tested by the open-interval rule of
   * the other scripts.
   */
  datatype BirdShape =
    | Box(left: int, width: int, half: int)
    | Round(cx: int, r: int)

  /** The collision layout: screen height, pipe width and bird shape. */
  datatype Layout = Layout(screenHeight: int, pipeWidth: int, bird: BirdShape)

  /** flappyDedo.py with its sprites: an 85×60 bird at x = 640 - 150 and 150-pixel pipes. */
  const SpriteLayout := Layout(720, 150, Box(490, 85, 30))
  /** flappyDedo.py without sprites: a 50×50 bird and 120-pixel pipes. */
  const PlainLayout := Layout(720, 120, Box(490, 50, 25))
  /** testeFinal.py and testeFinalJogov2.py: a radius-25 bird at the screen centre, 120-pixel pipes. */
  const CentreLayout := Layout(720, 120, Round(640, 25))
  /** testes/testeseguir.py: a radius-25 bird at x = 300, 150-pixel pipes. */
  const FollowLayout := Layout(720, 150, Round(300, 25))

  function BirdRect(b: BirdShape, y: int): Rect
    requires b.Box?
  {
    Rect(b.left, y - b.half, b.left + b.width, y + b.half)
  }

  /** Does the bird at height `y` touch the pipe whose left edge is at `x`? */
  predicate HitsPipe(lay: Layout, y: int, x: int, h: int, gap: int) {
    match lay.bird
    case Box(_, _, _) =>
      var br := BirdRect(lay.bird, y);
      BoxesCollide(br, Rect(x, 0, x + lay.pipeWidth, h)) ||
      BoxesCollide(br, Rect(x, h + gap, x + lay.pipeWidth, lay.screenHeight))
    case Round(cx, r) =>
      (y - r < h || y + r > h + gap) && (cx + r > x && cx - r < x + lay.pipeWidth)
  }

  /**
   * For a sprite bird on screen, the box test comes down to the rule the
   * other scripts write out, with closed intervals: the bird's columns meet
   * the pipe's and its box reaches past either edge of the gap.
   */
  lemma BoxHitIsOutsideGap(lay: Layout, y: int, x: int, h: int, gap: int)
    requires lay.bird.Box? && lay.bird.width >= 0 && lay.bird.half >= 0 && lay.pipeWidth >= 0
    requires 0 <= y - lay.bird.half && y + lay.bird.half <= lay.screenHeight
    requires 0 <= h && h + gap <= lay.screenHeight
    ensures HitsPipe(lay, y, x, h, gap) <==>
              (y - lay.bird.half <= h || y + lay.bird.half >= h + gap) &&
              (lay.bird.left <= x + lay.pipeWidth && lay.bird.left + lay.bird.width >= x)
  {
  }

  /** A round bird inside the gap, or clear of the pipe's columns, never hits it. */
  lemma RoundBirdSafeInGap(lay: Layout, y: int, x: int, h: int, gap: int)
    requires lay.bird.Round?
    ensures var b := lay.bird;
            ((h <= y - b.r && y + b.r <= h + gap) || b.cx + b.r <= x || x + lay.pipeWidth <= b.cx - b.r)
              <==> !HitsPipe(lay, y, x, h, gap)
  {
  }

  /** What one pipe does in one frame: it moves left by `speed`. */
  function Moved(p: Pipe, speed: int): Pipe {
    p.(x := p.x - speed)
  }

  /** A moved pipe scores when its right edge has passed the scoring line and it was not yet counted. */
  predicate Scores(p: Pipe, speed: int, width: int, line: int) {
    !p.counted && p.x - speed + width < line
  }

  /** The pipe after its frame: moved, and marked once it scores. */
  function Advance(p: Pipe, speed: int, width: int, line: int): (q: Pipe)
    ensures q.x == p.x - speed && q.height == p.height && q.gap == p.gap
    ensures q.counted <==> p.counted || Scores(p, speed, width, line)
  {
    var m := Moved(p, speed);
    if Scores(p, speed, width, line) then m.(counted := true) else m
  }

  /** `if x + width > 0: new_pipes.append(pipe)`. */
  function Survivors(ps: seq<Pipe>, speed: int, width: int, line: int): seq<Pipe> {
    if ps == [] then []
    else
      var rest := Survivors(ps[..|ps| - 1], speed, width, line);
      var q := Advance(ps[|ps| - 1], speed, width, line);
      if q.x + width > 0 then rest + [q] else rest
  }

  /** The points a frame adds: one per pipe that scores. */
  function Gained(ps: seq<Pipe>, speed: int, width: int, line: int): nat {
    if ps == [] then 0
    else Gained(ps[..|ps| - 1], speed, width, line) + (if Scores(ps[|ps| - 1], speed, width, line) then 1 else 0)
  }

  /** Whether some moved pipe touches the bird. */
  /** The bird hits pipe `p` after it moves by `speed`. */
  predicate PipeHit(lay: Layout, rule: GapRule, y: int, p: Pipe, speed: int) {
    HitsPipe(lay, y, p.x - speed, p.height, GapOf(rule, p))
  }

  predicate AnyHit(lay: Layout, rule: GapRule, y: int, ps: seq<Pipe>, speed: int) {
    exists i :: 0 <= i < |ps| && PipeHit(lay, rule, y, ps[i], speed)
  }

  datatype PipeStep = PipeStep(kept: seq<Pipe>, gained: nat, hit: bool)

  lemma SurvivorsStep(ps: seq<Pipe>, k: nat, speed: int, width: int, line: int)
    requires k < |ps|
    ensures var q := Advance(ps[k], speed, width, line);
            Survivors(ps[..k + 1], speed, width, line) ==
              Survivors(ps[..k], speed, width, line) + (if q.x + width > 0 then [q] else [])
  {
    assert ps[..k + 1][..k] == ps[..k];
  }

  lemma GainedStep(ps: seq<Pipe>, k: nat, speed: int, width: int, line: int)
    requires k < |ps|
    ensures Gained(ps[..k + 1], speed, width, line) ==
              Gained(ps[..k], speed, width, line) + (if Scores(ps[k], speed, width, line) then 1 else 0)
  {
    assert ps[..k + 1][..k] == ps[..k];
  }

  lemma AnyHitStep(lay: Layout, rule: GapRule, y: int, ps: seq<Pipe>, k: nat, speed: int)
    requires k < |ps|
    ensures AnyHit(lay, rule, y, ps[..k + 1], speed) <==>
              AnyHit(lay, rule, y, ps[..k], speed) || PipeHit(lay, rule, y, ps[k], speed)
  {
    var pre := ps[..k + 1];
    var short := ps[..k];
    assert pre[k] == ps[k];
    if AnyHit(lay, rule, y, pre, speed) {
      var i :| 0 <= i < k + 1 && PipeHit(lay, rule, y, pre[i], speed);
      if i < k {
        assert short[i] == pre[i];
      }
    }
    if AnyHit(lay, rule, y, short, speed) {
      var i :| 0 <= i < k && PipeHit(lay, rule, y, short[i], speed);
      assert pre[i] == short[i];
    }
  }

  /**
   * The `for pipe in game_pipes` loop: move every pipe, test it against the
   * bird, score it once, keep it while its right edge is on screen.
   */
  method StepPipes(lay: Layout, rule: GapRule, y: int, pipes: seq<Pipe>, speed: int, line: int)
    returns (r: PipeStep)
    ensures r.kept == Survivors(pipes, speed, lay.pipeWidth, line)
    ensures r.gained == Gained(pipes, speed, lay.pipeWidth, line)
    ensures r.hit <==> AnyHit(lay, rule, y, pipes, speed)
  {
    var kept: seq<Pipe> := [];
    var gained: nat := 0;
    var hit := false;
    for k := 0 to |pipes|
      invariant kept == Survivors(pipes[..k], speed, lay.pipeWidth, line)
      invariant gained == Gained(pipes[..k], speed, lay.pipeWidth, line)
      invariant hit <==> AnyHit(lay, rule, y, pipes[..k], speed)
    {
      SurvivorsStep(pipes, k, speed, lay.pipeWidth, line);
      GainedStep(pipes, k, speed, lay.pipeWidth, line);
      AnyHitStep(lay, rule, y, pipes, k, speed);
      var p := pipes[k];
      var x := p.x - speed;
      if HitsPipe(lay, y, x, p.height, GapOf(rule, p)) {
        hit := true;
      }
      if Scores(p, speed, lay.pipeWidth, line) {
        gained := gained + 1;
      }
      var q := Advance(p, speed, lay.pipeWidth, line);
      if q.x + lay.pipeWidth > 0 {
        kept := kept + [q];
      }
    }
    assert pipes[..|pipes|] == pipes;
    r := PipeStep(kept, gained, hit);
  }

  /**
   * Culling keeps exactly the advanced pipes whose right edge is still on
   * screen, and never lengthens the list.
   */
  lemma {:induction false} SurvivorsAreOnScreen(ps: seq<Pipe>, speed: int, width: int, line: int)
    ensures forall q :: q in Survivors(ps, speed, width, line) ==> q.x + width > 0
    ensures forall p :: p in ps && Advance(p, speed, width, line).x + width > 0 ==>
              Advance(p, speed, width, line) in Survivors(ps, speed, width, line)
    ensures |Survivors(ps, speed, width, line)| <= |ps|
  {
    if ps != [] {
      SurvivorsAreOnScreen(ps[..|ps| - 1], speed, width, line);
      forall p | p in ps && Advance(p, speed, width, line).x + width > 0
        ensures Advance(p, speed, width, line) in Survivors(ps, speed, width, line)
      {
        if p != ps[|ps| - 1] {
          assert p in ps[..|ps| - 1] by {
            var i :| 0 <= i < |ps| && ps[i] == p;
            assert i < |ps| - 1;
            assert ps[..|ps| - 1][i] == p;
          }
        }
      }
    }
  }

  /** The points of one frame count exactly the uncounted pipes that pass the line; at most one per pipe. */
  lemma {:induction false} GainedIsCount(ps: seq<Pipe>, speed: int, width: int, line: int)
    ensures Gained(ps, speed, width, line) <= |ps|
    ensures Gained(ps, speed, width, line) == |set i | 0 <= i < |ps| && Scores(ps[i], speed, width, line)|
  {
    if ps != [] {
      var n := |ps| - 1;
      GainedIsCount(ps[..n], speed, width, line);
      var older := set i | 0 <= i < n && Scores(ps[..n][i], speed, width, line);
      var all := set i | 0 <= i < |ps| && Scores(ps[i], speed, width, line);
      assert older == set i | 0 <= i < n && Scores(ps[i], speed, width, line);
      if Scores(ps[n], speed, width, line) {
        assert all == older + {n};
      } else {
        assert all == older;
      }
    }
  }

  /** Once counted, a pipe never scores again, however many frames follow. */
  lemma CountedPipeNeverScores(p: Pipe, speed: int, width: int, line: int, speed2: int)
    requires Scores(p, speed, width, line)
    ensures !Scores(Advance(p, speed, width, line), speed2, width, line)
    ensures Advance(Advance(p, speed, width, line), speed2, width, line).counted
  {
  }

  datatype GameState = Start | Playing | GameOver

  /**
   * The game of the application suite (flappyDedo.py, testeFinal.py,
   * testeFinalJogov2.py): a click starts it, the bird follows the cursor,
   * and a click on the restart button starts it again.
   */
  class SuiteGame {
    const layout: Layout
    const difficulty: Difficulty
    /** The scoring line: the bird's left edge. */
    const line: int
    var state: GameState
    var score: nat
    var pipes: seq<Pipe>
    var birdY: int

    constructor (layout: Layout, difficulty: Difficulty, line: int)
      ensures this.layout == layout && this.difficulty == difficulty && this.line == line
      ensures state == Start && score == 0 && pipes == [] && birdY == layout.screenHeight / 2
    {
      this.layout := layout;
      this.difficulty := difficulty;
      this.line := line;
      state := Start;
      score := 0;
      pipes := [];
      birdY := layout.screenHeight / 2;
    }

    /** START or restart: a fresh game with no pipes and the bird in the middle. */
    method Begin()
      modifies this
      ensures state == Playing && score == 0 && pipes == [] && birdY == layout.screenHeight / 2
    {
      state := Playing;
      score := 0;
      pipes := [];
      birdY := layout.screenHeight / 2;
    }

    /**
     * A click: in START it begins the game; in GAME_OVER it restarts the game
     * when the cursor is inside the restart button; otherwise nothing happens.
     */
    method OnClick(cursor: Point, restart: Rect)
      modifies this
      ensures old(state) == Start || (old(state) == GameOver && InRect(cursor, restart)) ==>
                state == Playing && score == 0 && pipes == [] && birdY == layout.screenHeight / 2
      ensures old(state) == Playing || (old(state) == GameOver && !InRect(cursor, restart)) ==>
                state == old(state) && score == old(score) && pipes == old(pipes) && birdY == old(birdY)
    {
      if state == Start || (state == GameOver && InRect(cursor, restart)) {
        Begin();
      }
    }

    /**
     * One PLAYING frame.  `birdInput` is the height the bird takes this frame:
     * the smoothed cursor's y when a hand is seen (the physics variant passes
     * its integrated height); `spawn` the height of a new pipe when the pipe
     * timer has run out.
     */
    method PlayFrame(birdInput: Option<int>, spawn: Option<int>, screenWidth: int)
      requires state == Playing
      modifies this
      ensures var y := if birdInput.Some? then birdInput.value else old(birdY);
              var speed := PipeSpeed(difficulty, old(score));
              var gap := PipeGap(difficulty, old(score));
              var ps := old(pipes) + (if spawn.Some? then [Pipe(screenWidth, spawn.value, 0, false)] else []);
              birdY == y &&
              pipes == Survivors(ps, speed, layout.pipeWidth, line) &&
              score == old(score) + Gained(ps, speed, layout.pipeWidth, line) &&
              (state == GameOver <==> AnyHit(layout, CurrentGap(gap), y, ps, speed) || OffScreen(y)) &&
              (state != GameOver ==> state == Playing)
    {
      var speed := PipeSpeed(difficulty, score);
      var gap := PipeGap(difficulty, score);
      if birdInput.Some? {
        birdY := birdInput.value;
      }
      if spawn.Some? {
        pipes := pipes + [Pipe(screenWidth, spawn.value, 0, false)];
      }
      var r := StepPipes(layout, CurrentGap(gap), birdY, pipes, speed, line);
      assert pipes == old(pipes) + (if spawn.Some? then [Pipe(screenWidth, spawn.value, 0, false)] else []);
      if r.hit {
        state := GameOver;
      }
      score := score + r.gained;
      pipes := r.kept;
      if OffScreen(birdY) {
        state := GameOver;
      }
    }

    /** The ceiling and floor test: the bird's extent touches row 0 or the screen height. */
    predicate OffScreen(y: int)
      reads this
    {
      var half := match layout.bird
        case Box(_, _, h) => h
        case Round(_, r) => r;
      y - half <= 0 || y + half >= layout.screenHeight
    }
  }

  /**
   * The pinch game (testes/testeseguir.py): a pinch starts or restarts it
   * with one fresh pipe; while playing the bird follows the index tip, or
   * falls by the gravity step when no hand is seen.
   */
  class FollowGame {
    const layout: Layout
    static const Gravity := 7
    static const BaseGap := 230
    const line: int
    var state: GameState
    var score: nat
    var pipes: seq<Pipe>
    var birdY: int

    ghost predicate Valid()
      reads this
    {
      layout.bird.Round? && layout.pipeWidth > 0
    }

    constructor (layout: Layout, line: int, screenWidth: int, firstHeight: int)
      requires layout.bird.Round? && layout.pipeWidth > 0
      ensures Valid() && this.layout == layout && this.line == line
      ensures state == Start && score == 0 && birdY == layout.screenHeight / 2
      ensures pipes == [Pipe(screenWidth, firstHeight, BaseGap, false)]
    {
      this.layout := layout;
      this.line := line;
      state := Start;
      score := 0;
      birdY := layout.screenHeight / 2;
      pipes := [Pipe(screenWidth, firstHeight, BaseGap, false)];
    }

    /**
     * One frame.  `pinch` is the undebounced pinch test, `tipY` the index
     * tip's y when a hand is seen, `freshHeight` the random height a restart
     * would use, `speed` the current speed, and `spawn` the height and gap of a
     * new pipe when the pipe timer has run out.
     */
    method Frame(pinch: bool, tipY: Option<int>, freshHeight: int, speed: int,
                 spawn: Option<(int, int)>, screenWidth: int)
      requires Valid()
      modifies this
      ensures Valid()
      ensures old(state) != Playing && pinch ==>
                state == Playing && score == 0 && birdY == layout.screenHeight / 2 &&
                pipes == [Pipe(screenWidth, freshHeight, BaseGap, false)]
      ensures old(state) != Playing && !pinch ==>
                state == old(state) && score == old(score) && pipes == old(pipes) && birdY == old(birdY)
      ensures old(state) == Playing ==>
                var y := if tipY.Some? then tipY.value else old(birdY) + Gravity;
                var spawning := spawn.Some? && (old(pipes) == [] || old(pipes)[|old(pipes)| - 1].x < screenWidth - layout.pipeWidth * 2);
                var ps := old(pipes) + (if spawning then [Pipe(screenWidth, spawn.value.0, spawn.value.1, false)] else []);
                birdY == y &&
                pipes == Survivors(ps, speed, layout.pipeWidth, line) &&
                score == old(score) + Gained(ps, speed, layout.pipeWidth, line) &&
                (state == GameOver <==>
                   AnyHit(layout, OwnGap, y, ps, speed) || y - layout.bird.r <= 0 || y + layout.bird.r >= layout.screenHeight) &&
                (state != GameOver ==> state == Playing)
    {
      if state == Start || state == GameOver {
        if pinch {
          state := Playing;
          score := 0;
          pipes := [Pipe(screenWidth, freshHeight, BaseGap, false)];
          birdY := layout.screenHeight / 2;
        }
      } else {
        if tipY.Some? {
          birdY := tipY.value;
        } else {
          birdY := birdY + Gravity;
        }
        var spawning := spawn.Some? && (pipes == [] || pipes[|pipes| - 1].x < screenWidth - layout.pipeWidth * 2);
        var ps := pipes + (if spawning then [Pipe(screenWidth, spawn.value.0, spawn.value.1, false)] else []);
        var r := StepPipes(layout, OwnGap, birdY, ps, speed, line);
        if r.hit {
          state := GameOver;
        }
        score := score + r.gained;
        pipes := r.kept;
        if birdY - layout.bird.r <= 0 || birdY + layout.bird.r >= layout.screenHeight {
          state := GameOver;
        }
      }
    }
  }
}
