/** One platform: its value view, the pure rules behind its per-frame behaviour
    (horizontal bouncing, cracking up, the score-tiered type roll, the sprite
    choice), and the class whose methods apply those rules in place. */
module Platforms {
  import opened Entities

  const PlatformWidth: nat := 180
  const PlatformHeight: nat := 45
  const PlatformCount: nat := 7
  /** Magnitude of a platform's horizontal velocity. */
  const Speed: real := 3.0

  /** Value view of a platform.  `kind` is the source's integer `type`
      (0 static, 1 moving, 2 breakable, 3 spring anchor); `flag` 1 means the
      platform has been triggered, `state` 1 that it is armed and ignores landings. */
  datatype PView = PView(x: real, y: real, vx: real, kind: int, flag: int, state: int)

  /** The integer tags take only the values the code assigns, and the
      horizontal speed is always 3. */
  predicate ValidView(p: PView)
  {
    (p.vx == Speed || p.vx == -Speed) && 0 <= p.kind <= 3 &&
    (p.flag == 0 || p.flag == 1) && (p.state == 0 || p.state == 1)
  }

  /** A value of the random source: a number in [0, 1). */
  predicate IsRandom(r: real)
  {
    0.0 <= r < 1.0
  }

  predicate AllRandom(rs: seq<real>)
  {
    forall i :: 0 <= i < |rs| ==> IsRandom(rs[i])
  }

  function Abs(v: real): real
  {
    if v < 0.0 then -v else v
  }

  // ---------------------------------------------------------------------------
  // Construction

  /** `(int) (r * n)`: the table index picked by a random value. */
  function RandomIndex(r: real, n: nat): (i: nat)
    requires IsRandom(r) && 0 < n
    ensures i < n
    ensures i as real <= r * n as real < i as real + 1.0
  {
    assert 0.0 <= r * n as real < n as real;
    (r * n as real).Floor
  }

  /** The type a freshly built platform starts with. */
  function InitialType(r: real): (t: int)
    requires IsRandom(r)
    ensures t == 0 || t == 1
    ensures t == 1 <==> r >= 0.5
  {
    RandomIndex(r, 2)
  }

  /** x of a freshly generated platform, from a random value. */
  function SpawnX(r: real, screenWidth: real): (x: real)
    requires IsRandom(r)
    ensures PlatformWidth as real <= screenWidth ==> 0.0 <= x <= screenWidth - PlatformWidth as real
  {
    var room := screenWidth - PlatformWidth as real;
    if room >= 0.0 then ScaleWithin(r, room); r * room else r * room
  }

  lemma ScaleWithin(r: real, d: real)
    requires IsRandom(r) && d >= 0.0
    ensures 0.0 <= r * d <= d
  {
    assert (1.0 - r) * d >= 0.0;
  }

  /** The y of rung k of a ladder that starts at `base` and climbs by `step`. */
  function Rung(base: real, k: nat, step: real): real
  {
    if k == 0 then base else Rung(base, k - 1, step) + step
  }

  lemma {:induction false} RungIs(base: real, k: nat, step: real)
    ensures Rung(base, k, step) == base + k as real * step
  {
    if k > 0 {
      RungIs(base, k - 1, step);
      assert (k - 1) as real * step + step == k as real * step;
    }
  }

  // ---------------------------------------------------------------------------
  // Type regeneration

  /** The weighted table generateType samples from, by score tier. */
  function TypeTable(score: int): (t: seq<int>)
    ensures |t| > 0
  {
    if score >= 5000 then [1, 2, 2, 2, 3, 3, 3, 3]
    else if score >= 2000 then [1, 1, 1, 2, 2, 2, 2, 3, 3, 3, 3]
    else if score >= 1000 then [1, 1, 1, 2, 2, 2, 2]
    else if score >= 500 then [0, 0, 0, 1, 1, 1, 1, 2, 2, 2, 2]
    else if score >= 50 then [0, 0, 0, 1, 1, 1]
    else [0]
  }

  function Values(t: seq<int>): set<int>
  {
    set v | v in t
  }

  /** The set of types each score tier can roll. */
  function TierValues(score: int): set<int>
  {
    if score >= 1000 then (if score >= 2000 then {1, 2, 3} else {1, 2})
    else if score >= 500 then {0, 1, 2}
    else if score >= 50 then {0, 1}
    else {0}
  }

  /** The entry of the tier table picked by the random value, before the
      BROKEN adjustment. */
  function RolledType(score: int, r: real): (t: int)
    requires IsRandom(r)
    ensures t in TierValues(score)
  {
    var table := TypeTable(score);
    table[RandomIndex(r, |table|)]
  }

  /** generateType: the new type and the new value of the global BROKEN toggle.
      A breakable roll is kept and sets the toggle when it is clear, and is
      downgraded to static and clears the toggle when it is set. */
  function TypeRoll(score: int, r: real, broken: bool): (res: (int, bool))
    requires IsRandom(r)
    ensures 0 <= res.0 <= 3
    ensures res.0 == 2 ==> RolledType(score, r) == 2 && !broken && res.1
  {
    var t := RolledType(score, r);
    if !broken && t == 2 then (2, true)
    else if broken && t == 2 then (0, false)
    else (t, broken)
  }

  /** The tier table holds exactly the values of its tier. */
  lemma TableValues(score: int)
    ensures Values(TypeTable(score)) == TierValues(score)
  {
    var t := TypeTable(score);
    if score >= 5000 {
      assert t[0] == 1 && t[1] == 2 && t[4] == 3;
    } else if score >= 2000 {
      assert t[0] == 1 && t[3] == 2 && t[7] == 3;
    } else if score >= 1000 {
      assert t[0] == 1 && t[3] == 2;
    } else if score >= 500 {
      assert t[0] == 0 && t[3] == 1 && t[7] == 2;
    } else if score >= 50 {
      assert t[0] == 0 && t[3] == 1;
    } else {
      assert t[0] == 0;
    }
  }

  /** The i-th of the n equal slices of [0, 1) picks entry i of the tier
      table: every random value r with i <= r * n < i + 1 selects it. */
  lemma RollSelects(score: int, r: real, i: nat)
    requires IsRandom(r) && i < |TypeTable(score)|
    requires i as real <= r * |TypeTable(score)| as real < i as real + 1.0
    ensures RolledType(score, r) == TypeTable(score)[i]
  {
    assert RandomIndex(r, |TypeTable(score)|) == i;
  }

  /** The left end i / n of the i-th slice is a random value in that slice. */
  lemma SliceStart(i: nat, n: nat)
    requires i < n
    ensures var r := i as real / n as real;
      IsRandom(r) && i as real <= r * n as real < i as real + 1.0
  {
    var r := i as real / n as real;
    assert r * n as real == i as real;
  }

  /** Entry i of the tier table is drawn by the left end of its slice. */
  lemma EntryDrawn(score: int, i: nat)
    requires i < |TypeTable(score)|
    ensures exists r :: IsRandom(r) && RolledType(score, r) == TypeTable(score)[i]
  {
    var n := |TypeTable(score)|;
    var r := i as real / n as real;
    SliceStart(i, n);
    RollSelects(score, r, i);
  }

  /** Every value of the tier is rolled by some random value. */
  lemma TierReachable(score: int, v: int)
    requires v in TierValues(score)
    ensures exists r :: IsRandom(r) && RolledType(score, r) == v
  {
    TableValues(score);
    var t := TypeTable(score);
    assert v in Values(t);
    var i :| 0 <= i < |t| && t[i] == v;
    EntryDrawn(score, i);
  }

  /** Below score 50 every roll is static and the toggle is left alone. */
  lemma LowScoreIsStatic(score: int, r: real, broken: bool)
    requires IsRandom(r) && score < 50
    ensures TypeRoll(score, r, broken) == (0, broken)
  {
    assert RolledType(score, r) in {0};
  }

  /** The BROKEN toggle: a breakable roll flips it; any other roll keeps the
      roll and the toggle. */
  lemma BrokenToggle(score: int, r: real, broken: bool)
    requires IsRandom(r)
    ensures RolledType(score, r) == 2 ==> TypeRoll(score, r, broken) == (if broken then 0 else 2, !broken)
    ensures RolledType(score, r) != 2 ==> TypeRoll(score, r, broken) == (RolledType(score, r), broken)
  {
  }

  /** The toggle only alternates: it does not record whether the platform
      that kept the last breakable roll is still on screen, so three
      breakable rolls in a row keep the first and the third. */
  lemma ToggleAlternates(score: int, r: real)
    requires IsRandom(r) && RolledType(score, r) == 2
    ensures var a := TypeRoll(score, r, false);
      var b := TypeRoll(score, r, a.1);
      var c := TypeRoll(score, r, b.1);
      a == (2, true) && b == (0, false) && c == (2, true)
  {
    BrokenToggle(score, r, false);
    BrokenToggle(score, r, true);
  }

  /** From score 1000 on the table has no static entry, so a static result can
      only come from downgrading a second breakable roll. */
  lemma HighScoreStaticOnlyByDowngrade(score: int, r: real, broken: bool)
    requires IsRandom(r) && score >= 1000
    ensures TypeRoll(score, r, broken).0 == 0 <==> RolledType(score, r) == 2 && broken
  {
    assert RolledType(score, r) in TierValues(score);
  }

  // ---------------------------------------------------------------------------
  // Per-frame behaviour

  predicate OffScreen(p: PView, screenWidth: real)
  {
    p.x < 0.0 || p.x + PlatformWidth as real > screenWidth
  }

  /** moveAround: moving and breakable platforms reverse when past either edge
      of the screen and then advance by their velocity; the others stay put. */
  function MoveStep(p: PView, screenWidth: real): (q: PView)
    ensures q.y == p.y && q.kind == p.kind && q.flag == p.flag && q.state == p.state
    ensures Abs(q.vx) == Abs(p.vx)
    ensures p.kind != 1 && p.kind != 2 ==> q == p
    ensures p.kind == 1 || p.kind == 2 ==> q.x == p.x + q.vx
    ensures q.vx != p.vx <==> (p.kind == 1 || p.kind == 2) && OffScreen(p, screenWidth) && p.vx != 0.0
  {
    if p.kind == 1 || p.kind == 2 then
      var vx := if OffScreen(p, screenWidth) then -p.vx else p.vx;
      p.(x := p.x + vx, vx := vx)
    else p
  }

  /** A platform with speed 3 never gets more than one step past an edge, and
      beyond an edge it is still heading outward, so that its next move turns
      it back: this holds of every freshly
      generated platform and is kept by every move. */
  predicate InBand(p: PView, screenWidth: real)
  {
    (p.vx == Speed || p.vx == -Speed) &&
    -Speed <= p.x && p.x + PlatformWidth as real <= screenWidth + Speed &&
    (p.x < 0.0 ==> p.vx == -Speed) &&
    (p.x + PlatformWidth as real > screenWidth ==> p.vx == Speed)
  }

  lemma MoveStepKeepsBand(p: PView, screenWidth: real)
    requires screenWidth >= PlatformWidth as real + 2.0 * Speed
    requires InBand(p, screenWidth)
    ensures InBand(MoveStep(p, screenWidth), screenWidth)
  {
  }

  lemma SpawnInBand(rx: real, y: real, kind: int, screenWidth: real)
    requires IsRandom(rx) && screenWidth >= PlatformWidth as real
    ensures InBand(PView(SpawnX(rx, screenWidth), y, Speed, kind, 0, 0), screenWidth)
  {
  }

  /** The condition under which crackUp publishes the platform to the overlay:
      triggered, armed, and the overlay not already showing. */
  predicate CanCrack(p: PView, o: OverlayView)
  {
    p.flag == 1 && !o.appear && p.state == 1
  }

  /** crackUp: the overlay moves onto the platform and shows, and the platform
      is disarmed; otherwise nothing changes. */
  function CrackStep(p: PView, o: OverlayView): (r: (PView, OverlayView))
    ensures CanCrack(p, o) ==> r.1 == OverlayView(p.x, p.y, true) && r.0 == p.(state := 0)
    ensures !CanCrack(p, o) ==> r == (p, o)
    ensures !CanCrack(r.0, r.1)
  {
    if CanCrack(p, o) then (p.(state := 0), OverlayView(p.x, p.y, true)) else (p, o)
  }

  /** Platform.tick: moveAround, then crackUp. */
  function PlatformTick(p: PView, o: OverlayView, screenWidth: real): (r: (PView, OverlayView))
  {
    CrackStep(MoveStep(p, screenWidth), o)
  }

  /** The sprite a platform is drawn with, or none. */
  datatype Frame = NoFrame | Sprite(index: nat)

  /** getCurrentFrame: breakable and spring-anchor platforms vanish once
      triggered; every other type, unknown ones included, has a sprite, the
      unknown ones the static sprite. */
  function CurrentFrame(p: PView): (f: Frame)
    ensures f.NoFrame? <==> (p.kind == 2 || p.kind == 3) && p.flag != 0
    ensures f.Sprite? ==> f.index == (if 0 <= p.kind <= 3 then p.kind else 0)
  {
    match p.kind
    case 0 => Sprite(0)
    case 1 => Sprite(1)
    case 2 => if p.flag == 0 then Sprite(2) else NoFrame
    case 3 => if p.flag == 0 then Sprite(3) else NoFrame
    case _ => Sprite(0)
  }

  // ---------------------------------------------------------------------------
  // State shared by all platforms

  /** The two static fields of Platform: the ladder cursor POSITION and the
      BROKEN toggle. */
  class PlatformStatics {
    var position: real
    var broken: bool

    constructor ()
      ensures position == 0.0 && !broken
    {
      position, broken := 0.0, false;
    }
  }

  class Platform {
    var x: real
    var y: real
    var vx: real
    var kind: int
    var flag: int
    var state: int

    function View(): PView
      reads this
    {
      PView(x, y, vx, kind, flag, state)
    }

    ghost predicate Valid()
      reads this
    {
      ValidView(View())
    }

    /** Builds a platform at (x0, y0) and advances the ladder cursor by one
        rung; `step` is the screen height divided by PlatformCount. */
    constructor (x0: real, y0: real, statics: PlatformStatics, step: real, rt: real)
      requires IsRandom(rt)
      modifies statics
      ensures Valid()
      ensures View() == PView(x0, y0, Speed, InitialType(rt), 0, 0)
      ensures statics.position == old(statics.position) + step
      ensures statics.broken == old(statics.broken)
    {
      x, y := x0, y0;
      vx := Speed;
      kind := InitialType(rt);
      flag, state := 0, 0;
      new;
      statics.position := statics.position + step;
    }

    /** generate: a new platform at a random x and at the current rung. */
    static method Generate(statics: PlatformStatics, screenWidth: real, step: real, rx: real, rt: real)
      returns (p: Platform)
      requires IsRandom(rx) && IsRandom(rt)
      modifies statics
      ensures fresh(p) && p.Valid()
      ensures p.View() == PView(SpawnX(rx, screenWidth), old(statics.position), Speed, InitialType(rt), 0, 0)
      ensures statics.position == old(statics.position) + step
      ensures statics.broken == old(statics.broken)
    {
      p := new Platform(SpawnX(rx, screenWidth), statics.position, statics, step, rt);
    }

    method MoveAround(screenWidth: real)
      modifies this`x, this`vx
      ensures View() == MoveStep(old(View()), screenWidth)
    {
      if kind == 1 || kind == 2 {
        if x < 0.0 || x + PlatformWidth as real > screenWidth {
          vx := -vx;
        }
        x := x + vx;
      }
    }

    method CrackUp(overlay: PlatformBroken)
      modifies this`state, overlay
      ensures (View(), overlay.View()) == CrackStep(old(View()), old(overlay.View()))
    {
      if flag == 1 && !overlay.appear && state == 1 {
        overlay.x := x;
        overlay.y := y;
        overlay.appear := true;
        state := 0;
      }
    }

    method Tick(screenWidth: real, overlay: PlatformBroken)
      modifies this`x, this`vx, this`state, overlay
      ensures (View(), overlay.View()) == PlatformTick(old(View()), old(overlay.View()), screenWidth)
    {
      MoveAround(screenWidth);
      CrackUp(overlay);
    }

    method GenerateType(score: int, r: real, statics: PlatformStatics) returns (t: int)
      requires IsRandom(r)
      modifies this`kind, statics`broken
      ensures t == kind
      ensures (t, statics.broken) == TypeRoll(score, r, old(statics.broken))
    {
      var table := TypeTable(score);
      kind := table[RandomIndex(r, |table|)];
      if !statics.broken && kind == 2 {
        statics.broken := true;
      } else if statics.broken && kind == 2 {
        statics.broken := false;
        kind := 0;
      }
      t := kind;
    }
  }
}
