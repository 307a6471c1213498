/** The single-instance entities that World reads and writes: the player, the spring,
    the ground and the breaking-platform overlay.  Only the fields World touches are
    kept; their own per-frame updates are not part of this model. */
module Entities {

  /** Value view of the player.  `jumps` and `highJumps` count the calls of the
      player's ordinary and spring-boosted jump operations. */
  datatype PlayerView = PlayerView(x: real, y: real, vy: real, width: nat, height: nat,
                                   jumps: nat, highJumps: nat)

  class Player {
    var x: real
    var y: real
    var vy: real
    const width: nat
    const height: nat
    var jumps: nat
    var highJumps: nat

    constructor (x0: real, y0: real, vy0: real, w: nat, h: nat)
      ensures View() == PlayerView(x0, y0, vy0, w, h, 0, 0)
    {
      x, y, vy := x0, y0, vy0;
      width, height := w, h;
      jumps, highJumps := 0, 0;
    }

    function View(): PlayerView
      reads this
    {
      PlayerView(x, y, vy, width, height, jumps, highJumps)
    }

    /** Records one ordinary jump. */
    method Jump()
      modifies this`jumps
      ensures jumps == old(jumps) + 1
    {
      jumps := jumps + 1;
    }

    /** Records one spring-boosted jump. */
    method JumpHigh()
      modifies this`highJumps
      ensures highJumps == old(highJumps) + 1
    {
      highJumps := highJumps + 1;
    }
  }

  datatype SpringView = SpringView(x: real, y: real, width: nat, height: nat, state: int, appear: bool)

  class Spring {
    var x: real
    var y: real
    const width: nat
    const height: nat
    var state: int
    var appear: bool

    constructor (x0: real, y0: real, w: nat, h: nat)
      ensures View() == SpringView(x0, y0, w, h, 0, false)
    {
      x, y := x0, y0;
      width, height := w, h;
      state, appear := 0, false;
    }

    function View(): SpringView
      reads this
    {
      SpringView(x, y, width, height, state, appear)
    }
  }

  /** The ground. */
  class Base {
    var y: real

    constructor (y0: real)
      ensures y == y0
    {
      y := y0;
    }
  }

  /** Value view of the overlay drawn over a platform that is breaking. */
  datatype OverlayView = OverlayView(x: real, y: real, appear: bool)

  class PlatformBroken {
    var x: real
    var y: real
    var appear: bool

    constructor (x0: real, y0: real)
      ensures View() == OverlayView(x0, y0, false)
    {
      x, y, appear := x0, y0, false;
    }

    function View(): OverlayView
      reads this
    {
      OverlayView(x, y, appear)
    }
  }
}
