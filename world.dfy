/** The game world: a fixed ladder of platforms plus one player, spring, base
    and breaking overlay, updated in place once per frame.  Each pass states
    what it does to the objects it touches in terms of the matching function
    of WorldSpec, and a whole tick is proved to do to the world's value view
    what WorldSpec.TickStep says. */
module Worlds {
  import opened Entities
  import opened Platforms
  import opened WorldSpec

  class World {
    /** Screen size as the handler reports it. */
    const width: real
    const height: real
    const platforms: seq<Platform>
    const player: Player
    const spring: Spring
    const base: Base
    const overlay: PlatformBroken
    /** Platform's static POSITION and BROKEN, shared by every platform. */
    const statics: PlatformStatics

    var score: int
    var falling: int
    var gameOver: bool

    ghost function PlatformViews(): (vs: seq<PView>)
      reads platforms
      ensures |vs| == |platforms|
      ensures forall k :: 0 <= k < |platforms| ==> vs[k] == platforms[k].View()
    {
      seq(|platforms|, k requires 0 <= k < |platforms| reads platforms => platforms[k].View())
    }

    ghost function View(): WorldView
      reads this, platforms, player, spring, base, overlay, statics
    {
      WorldView(PlatformViews(), player.View(), spring.View(), base.y, overlay.View(),
                score, falling, gameOver, statics.broken)
    }

    /** The ladder's platforms are distinct objects. */
    ghost predicate Distinct()
    {
      forall i, j :: 0 <= i < j < |platforms| ==> platforms[i] != platforms[j]
    }

    /** The ladder holds PlatformCount distinct, well-formed platforms and the
        game-over phase is 0 or 1: that is, ValidWorld(View()) over distinct
        platform objects. */
    ghost predicate Valid()
      reads this, platforms
    {
      Distinct() && |platforms| == PlatformCount &&
      (forall k :: 0 <= k < |platforms| ==> platforms[k].Valid()) &&
      (falling == 0 || falling == 1)
    }

    /** Valid() says exactly that the world's view is well formed, over
        distinct platform objects. */
    lemma ValidIsValidWorld()
      ensures Valid() <==> Distinct() && ValidWorld(View())
    {
      if Distinct() && ValidWorld(View()) {
        assert forall k :: 0 <= k < |platforms| ==> ValidView(View().platforms[k]);
      }
    }

    /** The state-setting half of loadWorld, then gameOver := false.  The
        player, base, spring and overlay stand for the objects their own
        generate factories build; `xs[k]` and `ts[k]` are the random values
        drawn for platform k's x and initial type; `step` is the screen
        height divided by PlatformCount. */
    constructor (screenWidth: real, screenHeight: real, step: real, statics: PlatformStatics,
                 player: Player, base: Base, spring: Spring, overlay: PlatformBroken,
                 xs: seq<real>, ts: seq<real>)
      requires |xs| == PlatformCount && |ts| == PlatformCount && AllRandom(xs) && AllRandom(ts)
      modifies statics
      ensures Valid()
      ensures width == screenWidth && height == screenHeight
      ensures this.statics == statics && this.player == player && this.base == base
      ensures this.spring == spring && this.overlay == overlay
      ensures score == 0 && falling == 0 && !gameOver
      ensures forall k :: 0 <= k < |platforms| ==> fresh(platforms[k])
      ensures forall k :: 0 <= k < |platforms| ==>
        platforms[k].View() == PView(SpawnX(xs[k], screenWidth), k as real * step, Speed, InitialType(ts[k]), 0, 0)
      ensures statics.position == PlatformCount as real * step
      ensures statics.broken == old(statics.broken)
      ensures screenWidth >= PlatformWidth as real ==> AllInBand(PlatformViews(), screenWidth)
    {
      statics.position := 0.0;
      var ps := BuildLadder(statics, screenWidth, step, xs, ts);
      width, height := screenWidth, screenHeight;
      platforms := ps;
      this.player, this.base, this.spring, this.overlay := player, base, spring, overlay;
      this.statics := statics;
      score, falling := 0, 0;
      gameOver := false;
      forall k | 0 <= k <= PlatformCount ensures Rung(0.0, k, step) == k as real * step {
        RungIs(0.0, k, step);
      }
      if screenWidth >= PlatformWidth as real {
        forall k | 0 <= k < |ps| ensures InBand(ps[k].View(), screenWidth) {
          SpawnInBand(xs[k], k as real * step, InitialType(ts[k]), screenWidth);
        }
      }
    }

    /** The loop of loadWorld that generates PlatformCount platforms, each on
        the next rung of the ladder. */
    static method BuildLadder(statics: PlatformStatics, screenWidth: real, step: real, xs: seq<real>, ts: seq<real>)
      returns (ps: seq<Platform>)
      requires |xs| == PlatformCount && |ts| == PlatformCount && AllRandom(xs) && AllRandom(ts)
      modifies statics
      ensures |ps| == PlatformCount
      ensures forall i, j :: 0 <= i < j < |ps| ==> ps[i] != ps[j]
      ensures forall k :: 0 <= k < |ps| ==> fresh(ps[k])
      ensures forall k :: 0 <= k < |ps| ==>
        ps[k].View() == PView(SpawnX(xs[k], screenWidth), Rung(old(statics.position), k, step),
                              Speed, InitialType(ts[k]), 0, 0)
      ensures statics.position == Rung(old(statics.position), PlatformCount, step)
      ensures statics.broken == old(statics.broken)
    {
      ps := [];
      while |ps| < PlatformCount
        invariant |ps| <= PlatformCount
        invariant statics.position == Rung(old(statics.position), |ps|, step)
        invariant statics.broken == old(statics.broken)
        invariant forall k :: 0 <= k < |ps| ==> fresh(ps[k])
        invariant forall k :: 0 <= k < |ps| ==>
          ps[k].View() == PView(SpawnX(xs[k], screenWidth), Rung(old(statics.position), k, step),
                                Speed, InitialType(ts[k]), 0, 0)
        invariant forall i, j :: 0 <= i < j < |ps| ==> ps[i] != ps[j]
      {
        var p := Platform.Generate(statics, screenWidth, step, xs[|ps|], ts[|ps|]);
        ps := ps + [p];
      }
    }

    /** The platforms' own ticks, in list order, sharing the overlay. */
    method PlatformTicks()
      requires Distinct()
      modifies platforms, overlay
      ensures var moved := TickPlatforms(old(View()).platforms, |platforms|, old(View()).overlay, width);
        View() == old(View()).(platforms := moved.0, overlay := moved.1)
    {
      TickEach();
    }

    /** The loop of tick over the platforms. */
    method TickEach()
      requires Distinct()
      modifies platforms, overlay
      ensures (PlatformViews(), overlay.View()) == TickPlatforms(old(PlatformViews()), |platforms|, old(overlay.View()), width)
    {
      ghost var ps0 := PlatformViews();
      ghost var o0 := overlay.View();
      var i := 0;
      while i < |platforms|
        invariant 0 <= i <= |platforms|
        invariant var acc := TickPlatforms(ps0, i, o0, width);
          (forall k :: 0 <= k < |platforms| ==> platforms[k].View() == acc.0[k]) && overlay.View() == acc.1
      {
        platforms[i].Tick(width, overlay);
        i := i + 1;
      }
      assert PlatformViews() == TickPlatforms(ps0, |platforms|, o0, width).0;
    }

    /** createSpring: places the spring on platform 0. */
    method CreateSpring()
      requires |platforms| > 0
      modifies spring
      ensures View() == old(View()).(spring := AttachSpring(old(View()).platforms[0], old(View()).spring, height))
    {
      var p := platforms[0];
      if p.kind == 1 || p.kind == 3 || p.kind == 2 {
        spring.x := p.x + (PlatformWidth / 2) as real - (spring.width / 2) as real;
        spring.y := p.y - PlatformHeight as real;
        spring.appear := true;
        if spring.y > height / 1.1 || p.flag == 1 {
          spring.state := 0;
          spring.appear := false;
        }
      } else {
        spring.x := 0.0 - spring.x;
        spring.y := 0.0 - spring.y;
      }
    }

    /** platformScrolling.  `rolls[k]` is the random value platform k draws
        if it is recycled. */
    method PlatformScrolling(rolls: seq<real>)
      requires Distinct() && |rolls| == |platforms| && AllRandom(rolls)
      modifies this`score, platforms, base, statics`broken
      ensures View() == Scroll(old(View()), rolls, height)
    {
      if player.y >= height / 2.0 - (player.height / 2) as real {
        return;
      }
      ScrollEach(rolls);
      base.y := base.y - player.vy;
      score := score + 1;
    }

    /** The loop of platformScrolling over the platforms. */
    method ScrollEach(rolls: seq<real>)
      requires Distinct() && |rolls| == |platforms| && AllRandom(rolls)
      modifies platforms, statics`broken
      ensures (PlatformViews(), statics.broken)
        == ScrollPass(old(PlatformViews()), rolls, |platforms|, old(statics.broken), player.vy, height, score)
    {
      ghost var ps0 := PlatformViews();
      ghost var b0 := statics.broken;
      var vy := player.vy;
      var i := 0;
      while i < |platforms|
        invariant 0 <= i <= |platforms|
        invariant (PlatformViews(), statics.broken) == ScrollPass(ps0, rolls, i, b0, vy, height, score)
      {
        ScrollAt(i, vy, rolls[i]);
        i := i + 1;
      }
    }

    /** One iteration of the scrolling loop, on platform i: shifted down by
        -vy when the player rises, and recycled to the top with a fresh type
        once below the screen. */
    method ScrollAt(i: nat, vy: real, r: real)
      requires Distinct() && i < |platforms| && IsRandom(r)
      modifies platforms[i], statics`broken
      ensures var one := ScrollOne(old(platforms[i].View()), vy, height, score, r, old(statics.broken));
        (PlatformViews(), statics.broken) == (old(PlatformViews())[i := one.0], one.1)
    {
      var p := platforms[i];
      if vy < 0.0 {
        p.y := p.y - vy;
      }
      if p.y > height {
        var t := p.GenerateType(score, r, statics);
        p.kind := t;
        p.y := p.y - height;
        p.flag := 0;
      }
      assert PlatformViews() == old(PlatformViews())[i := p.View()];
    }

    /** collides: the platform loop, then the spring check unless the loop
        returned early. */
    method Collides()
      requires Distinct()
      modifies platforms, player`jumps, player`highJumps, spring`state
      ensures View() == Collide(old(View()))
    {
      var stopped := LandOnPlatforms();
      if !stopped {
        SpringCheck();
      }
    }

    /** The spring part of collides: a falling player whose feet enter the
        unused spring's box uses it up and makes a boosted jump. */
    method SpringCheck()
      modifies player`highJumps, spring`state
      ensures var fires := SpringHit(old(player.View()), old(spring.View()));
        spring.state == (if fires then 1 else old(spring.state)) &&
        player.highJumps == old(player.highJumps) + (if fires then 1 else 0)
      ensures PlatformViews() == old(PlatformViews())
    {
      var offset := Inset;
      if player.vy > 0.0 && spring.state == 0
         && player.x + offset < spring.x + spring.width as real
         && player.x + player.width as real - offset > spring.x
         && player.y + player.height as real > spring.y
         && player.y + player.height as real < spring.y + spring.height as real
      {
        spring.state := 1;
        player.JumpHigh();
      }
    }

    /** The platform loop of collides.  Where the loop returns from collides
        early, this method answers `stopped` and collides skips the spring. */
    method LandOnPlatforms() returns (stopped: bool)
      requires Distinct()
      modifies platforms, player`jumps
      ensures var l := CollidePlatforms(old(PlatformViews()), old(player.View()));
        PlatformViews() == l.platforms && player.jumps == old(player.jumps) + l.jumps && stopped == l.stopped
    {
      ghost var ps0 := PlatformViews();
      ghost var pl0 := player.View();
      var i := 0;
      while i < |platforms|
        invariant 0 <= i <= |platforms|
        invariant forall k :: 0 <= k < |platforms| ==> platforms[k].View() == ps0[k]
        invariant NoStopBefore(ps0, pl0, i)
        invariant player.View() == pl0.(jumps := pl0.jumps + HitCount(ps0[..i], pl0))
      {
        HitCountPrefix(ps0, i, pl0);
        var stop := LandOn(platforms[i]);
        if stop {
          CollideStopsAt(ps0, pl0, i);
          return true;
        }
        i := i + 1;
      }
      assert ps0[..|platforms|] == ps0;
      CollideNoStop(ps0, pl0);
      return false;
    }

    /** One iteration of the platform loop of collides.  A registered
        landing grants a jump and goes on to the next platform, except on an
        untriggered breakable platform (no jump), an untriggered spring
        anchor (one jump) or a triggered platform (no jump), where the loop
        ends; there the untriggered ones are triggered and armed. */
    method LandOn(p: Platform) returns (stop: bool)
      modifies p`flag, p`state, player`jumps
      ensures var q := old(p.View()); var pl := old(player.View());
        stop == (Hits(pl, q) && Stops(q)) &&
        p.View() == (if stop then Land(q) else q) &&
        player.jumps == pl.jumps + (if stop then StopJumps(q) else if Hits(pl, q) then 1 else 0)
    {
      var offset := Inset;
      stop := false;
      if player.vy > 0.0 && p.state == 0
         && player.x + offset < p.x + PlatformWidth as real
         && player.x + player.width as real - offset > p.x
         && player.y + player.height as real - 10.0 > p.y
         && player.y + player.height as real < p.y + PlatformHeight as real
      {
        if p.kind == 2 && p.flag == 0 {
          p.flag := 1;
          p.state := 1;
          return true;
        } else if p.kind == 3 && p.flag == 0 {
          player.Jump();
          p.flag := 1;
          p.state := 1;
        }
        if p.flag == 1 {
          return true;
        }
        player.Jump();
      }
    }

    /** gameOver, called on each tick once the player is dead. */
    method GameOver()
      requires Distinct()
      modifies this`falling, this`gameOver, platforms, base, player`y, player`vy
      ensures View() == GameOverStep(old(View()), height)
    {
      ShiftPlatformsUp();
      base.y := 10000.0;
      Descent();
    }

    /** The branches of gameOver that move the player and the phase. */
    method Descent()
      modifies this`falling, this`gameOver, player`y, player`vy
      ensures (player.View(), falling, gameOver) == Descend(old(player.View()), old(falling), old(gameOver), height)
    {
      if player.y > height / 2.0 && falling == 0 {
        player.y := player.y - 20.0;
        player.vy := 0.0;
      } else if player.y < height / 2.0 {
        falling := 1;
      } else if player.y > height {
        gameOver := true;
      }
    }

    /** The loop of gameOver that moves every platform up the screen by 20
        (y grows downward). */
    method ShiftPlatformsUp()
      requires Distinct()
      modifies platforms
      ensures PlatformViews() == ShiftedUp(old(PlatformViews()))
    {
      ghost var ps0 := PlatformViews();
      var i := 0;
      while i < |platforms|
        invariant 0 <= i <= |platforms|
        invariant forall k :: 0 <= k < i ==> platforms[k].View() == ps0[k].(y := ps0[k].y - 20.0)
        invariant forall k :: i <= k < |platforms| ==> platforms[k].View() == ps0[k]
      {
        platforms[i].y := platforms[i].y - 20.0;
        i := i + 1;
      }
    }

    /** One frame.  `rolls[k]` is the random value platform k draws if the
        scrolling pass recycles it; `dead` is the player's isDead() answer. */
    method Tick(rolls: seq<real>, dead: bool)
      requires Valid() && |rolls| == |platforms| && AllRandom(rolls)
      modifies this, platforms, player, spring, base, overlay, statics`broken
      ensures Valid()
      ensures View() == TickStep(old(View()), rolls, dead, width, height)
      ensures old(falling) <= falling && (old(gameOver) ==> gameOver)
      ensures width >= PlatformWidth as real + 2.0 * Speed && AllInBand(old(PlatformViews()), width) ==>
        AllInBand(PlatformViews(), width)
    {
      ghost var w0 := View();
      ValidIsValidWorld();
      TickKeepsValid(w0, rolls, dead, width, height);
      TickIsMonotone(w0, rolls, dead, width, height);
      if width >= PlatformWidth as real + 2.0 * Speed && AllInBand(w0.platforms, width) {
        TickKeepsBand(w0, rolls, dead, width, height);
      }
      Step(rolls, dead);
      ValidIsValidWorld();
    }

    /** The passes of one frame, in order. */
    method Step(rolls: seq<real>, dead: bool)
      requires Distinct() && |platforms| > 0 && |rolls| == |platforms| && AllRandom(rolls)
      modifies this, platforms, player, spring, base, overlay, statics`broken
      ensures View() == TickStep(old(View()), rolls, dead, width, height)
    {
      PlatformTicks();
      CreateSpring();
      PlatformScrolling(rolls);
      Collides();
      if dead {
        GameOver();
      }
    }
  }
}
