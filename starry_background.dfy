/**
 * The animated star field behind the page: a canvas-sized set of stars, each
 * of which twinkles, fades in, drifts up and to the right, starts to fade out
 * in an exit band, and is then recycled with `reset` at the bottom or left
 * edge. Drawing is not modelled; every `Math.random()` draw is an explicit
 * parameter in [0, 1), and the value of `Math.sin` an explicit parameter in
 * [-1, 1].
 */
module StarryBackground {

  /** `Math.PI * 2`, as the double the source multiplies by. */
  const TwoPi: real := 6.283185307179586

  /** One star per this many square pixels of canvas. */
  const PixelsPerStar: nat := 15000

  /** A value `Math.random()` can return. */
  predicate IsDraw(r: real) { 0.0 <= r < 1.0 }

  /** `r * n` for a whole number of pixels `n`, written as `n` additions of
      `r` so that the bounds below are linear facts. */
  function Scaled(r: real, n: nat): real
  {
    if n == 0 then 0.0 else Scaled(r, n - 1) + r
  }

  lemma {:induction false} ScaledIsProduct(r: real, n: nat)
    ensures Scaled(r, n) == r * n as real
  {
    if n > 0 {
      ScaledIsProduct(r, n - 1);
      assert r * (n - 1) as real + r == r * n as real;
    }
  }

  /** A draw scaled to `n` pixels lands in [0, n), or on 0 when `n` is 0. */
  lemma {:induction false} ScaledDraw(r: real, n: nat)
    requires IsDraw(r)
    ensures 0.0 <= Scaled(r, n) <= n as real
    ensures n > 0 ==> Scaled(r, n) < n as real
  {
    if n > 0 {
      ScaledDraw(r, n - 1);
    }
  }

  /** The canvas element; the browser keeps its width and height integral. */
  class Canvas {
    var width: nat
    var height: nat

    constructor(width: nat, height: nat)
      ensures this.width == width && this.height == height
    {
      this.width := width;
      this.height := height;
    }
  }

  /** The fields of a `Star`. */
  datatype StarState = StarState(
    x: real, y: real, size: real,
    baseBrightness: real, brightness: real,
    twinkleSpeed: real, twinklePhase: real, twinkleAmount: real,
    speedX: real, speedY: real,
    opacity: real, fadeIn: bool, fadeOut: bool)

  /** The nine draws of the constructor, in the order it makes them. */
  datatype StarDraws = StarDraws(
    x: real, y: real, size: real, brightness: real,
    twinkleSpeed: real, twinklePhase: real, twinkleAmount: real,
    speedX: real, speedY: real)

  predicate ValidStarDraws(d: StarDraws)
  {
    IsDraw(d.x) && IsDraw(d.y) && IsDraw(d.size) && IsDraw(d.brightness) &&
    IsDraw(d.twinkleSpeed) && IsDraw(d.twinklePhase) && IsDraw(d.twinkleAmount) &&
    IsDraw(d.speedX) && IsDraw(d.speedY)
  }

  /** The seven draws of `reset`, in the order it makes them; `band` picks
      the bottom band when it exceeds 0.5 and the left band otherwise. */
  datatype ResetDraws = ResetDraws(
    band: real, x: real, y: real, size: real, brightness: real,
    speedX: real, speedY: real)

  predicate ValidResetDraws(d: ResetDraws)
  {
    IsDraw(d.band) && IsDraw(d.x) && IsDraw(d.y) && IsDraw(d.size) &&
    IsDraw(d.brightness) && IsDraw(d.speedX) && IsDraw(d.speedY)
  }

  // ----- Draws scaled to the source's ranges -----

  function SizeOf(r: real): real { r * 1.7 + 0.8 }
  function BaseBrightnessOf(r: real): real { r * 0.5 + 0.15 }
  function SpeedXOf(r: real): real { r * 0.3 + 0.15 }
  function SpeedYOf(r: real): real { -(r * 0.4 + 0.2) }

  /** The ranges the constructor's and `reset`'s draws land in. */
  ghost predicate InDrawRanges(s: StarState)
  {
    0.8 <= s.size < 2.5 &&
    0.15 <= s.baseBrightness < 0.65 &&
    0.003 <= s.twinkleSpeed < 0.011 &&
    0.1 <= s.twinkleAmount < 0.4 &&
    0.15 <= s.speedX < 0.45 &&
    -0.6 < s.speedY <= -0.2
  }

  // ----- The star's life cycle -----

  /** `new Star(initial)` on a `w` by `h` canvas. */
  function NewStar(initial: bool, w: nat, h: nat, d: StarDraws): StarState
  {
    var bb := BaseBrightnessOf(d.brightness);
    StarState(
      x := Scaled(d.x, w),
      y := if initial then Scaled(d.y, h) else h as real + d.y * 50.0,
      size := SizeOf(d.size),
      baseBrightness := bb, brightness := bb,
      twinkleSpeed := d.twinkleSpeed * 0.008 + 0.003,
      twinklePhase := d.twinklePhase * TwoPi,
      twinkleAmount := d.twinkleAmount * 0.3 + 0.1,
      speedX := SpeedXOf(d.speedX), speedY := SpeedYOf(d.speedY),
      opacity := if initial then 1.0 else 0.0,
      fadeIn := !initial, fadeOut := false)
  }

  /** The entry point `reset()` picks: the bottom band when `d.band`
      exceeds 0.5, the left band otherwise. */
  function Place(s: StarState, w: nat, h: nat, d: ResetDraws): StarState
  {
    if d.band > 0.5 then s.(x := Scaled(d.x, w) * 0.7, y := h as real + d.y * 50.0)
    else s.(x := -(d.x * 50.0), y := Scaled(d.y, h) * 0.7 + h as real * 0.3)
  }

  /** `reset()`: a new position in one of the two entry bands, new size,
      base brightness and speeds, and a fresh fade-in. */
  function ResetStar(s: StarState, w: nat, h: nat, d: ResetDraws): StarState
  {
    Place(s, w, h, d).(
      size := SizeOf(d.size),
      baseBrightness := BaseBrightnessOf(d.brightness),
      opacity := 0.0, fadeIn := true, fadeOut := false,
      speedX := SpeedXOf(d.speedX), speedY := SpeedYOf(d.speedY))
  }

  function Max(a: real, b: real): real { if a >= b then a else b }

  /** Twinkle: advance the phase and set the brightness from `sin`, the sine
      of the advanced phase, never below 0.05. */
  function Twinkle(s: StarState, sin: real): StarState
  {
    s.(twinklePhase := s.twinklePhase + s.twinkleSpeed,
       brightness := Max(0.05, s.baseBrightness + sin * s.twinkleAmount))
  }

  /** Fade in: 0.008 more opacity while below 1, clearing `fadeIn` at 1. */
  function FadeIn(s: StarState): StarState
  {
    if s.fadeIn && s.opacity < 1.0 then
      var opacity := s.opacity + 0.008;
      s.(opacity := opacity, fadeIn := if opacity >= 1.0 then false else s.fadeIn)
    else s
  }

  /** Drift by the star's speed. */
  function Move(s: StarState): StarState
  {
    s.(x := s.x + s.speedX, y := s.y + s.speedY)
  }

  /** Raise `fadeOut` in the exit band (the top tenth or the right tenth),
      then take 0.01 of opacity off while it is raised. */
  function FadeOut(s: StarState, w: nat, h: nat): StarState
  {
    var fadeOut := if s.y < h as real * 0.1 || s.x > w as real * 0.9 then true else s.fadeOut;
    s.(fadeOut := fadeOut, opacity := if fadeOut then s.opacity - 0.01 else s.opacity)
  }

  /** The part of `update()` before the exit test. */
  function Advance(s: StarState, w: nat, h: nat, sin: real): StarState
  {
    FadeOut(Move(FadeIn(Twinkle(s, sin))), w, h)
  }

  /** The exit test of `update()`: faded out, or off the top or right edge. */
  predicate Exits(s: StarState, w: nat)
  {
    s.opacity <= 0.0 || s.y < -10.0 || s.x > w as real + 10.0
  }

  /** `update()`: advance, and reset a star that has left the field. */
  function StepStar(s: StarState, w: nat, h: nat, sin: real, d: ResetDraws): StarState
  {
    var a := Advance(s, w, h, sin);
    if Exits(a, w) then ResetStar(a, w, h, d) else a
  }

  // ----- What a star satisfies between frames -----

  /** The opacity after `k` fade-in steps from 0. */
  function FadeInLevel(k: nat): real { k as real * 0.008 }

  /** Opacities strictly between two fade-in steps are never reached while
      fading in. */
  ghost predicate OnFadeInGrid(opacity: real)
  {
    exists k: nat :: k < 125 && opacity == FadeInLevel(k)
  }

  /** Opacity stays in [0, 1]: a star that is neither fading in nor out is
      fully visible, and one fading in (and not yet out) is on the fade-in
      grid below 1. */
  ghost predicate OpacityValid(s: StarState)
  {
    0.0 <= s.opacity <= 1.0 &&
    (s.fadeIn ==> s.opacity < 1.0) &&
    (!s.fadeOut && s.fadeIn ==> OnFadeInGrid(s.opacity)) &&
    (!s.fadeOut && !s.fadeIn ==> s.opacity == 1.0)
  }

  /** A star on a `w` by `h` canvas: drawn ranges, opacity in [0, 1],
      brightness in [0.05, 1.05), and a position inside the margins the
      entry bands and the exit test leave. */
  ghost predicate StarValid(s: StarState, w: nat, h: nat)
  {
    InDrawRanges(s) &&
    0.0 <= s.twinklePhase &&
    OpacityValid(s) &&
    0.05 <= s.brightness < 1.05 &&
    -50.0 < s.x <= w as real + 10.0 &&
    -10.0 <= s.y < h as real + 50.0
  }

  /** A sine value scales an amount to within plus or minus that amount. */
  lemma ScaleSine(sin: real, a: real)
    requires -1.0 <= sin <= 1.0 && 0.0 <= a
    ensures -a <= sin * a <= a
  {
    assert a - sin * a == (1.0 - sin) * a;
    assert a + sin * a == (1.0 + sin) * a;
  }

  /** A twinkle keeps brightness in [0.05, 1.05). */
  lemma TwinkleBrightness(base: real, sin: real, amount: real)
    requires 0.15 <= base < 0.65 && 0.1 <= amount < 0.4 && -1.0 <= sin <= 1.0
    ensures 0.05 <= Max(0.05, base + sin * amount) < 1.05
  {
    ScaleSine(sin, amount);
  }

  /** The constructor's two modes. */
  lemma {:induction false} NewStarModes(initial: bool, w: nat, h: nat, d: StarDraws)
    requires ValidStarDraws(d)
    ensures var s := NewStar(initial, w, h, d);
      StarValid(s, w, h) && 0.0 <= s.x <= w as real && s.brightness == s.baseBrightness &&
      (initial ==> s.opacity == 1.0 && !s.fadeIn && !s.fadeOut && 0.0 <= s.y <= h as real) &&
      (!initial ==> s.opacity == 0.0 && s.fadeIn && !s.fadeOut && h as real <= s.y < h as real + 50.0)
  {
    ScaledDraw(d.x, w);
    ScaledDraw(d.y, h);
    assert FadeInLevel(0) == 0.0;
  }

  /** `reset` places the star in the bottom band or the left band, starts a
      fade-in from 0, draws new ranges, and leaves the twinkle fields and the
      current brightness as they were. */
  lemma {:induction false} ResetBands(s: StarState, w: nat, h: nat, d: ResetDraws)
    requires ValidResetDraws(d)
    requires 0.003 <= s.twinkleSpeed < 0.011 && 0.1 <= s.twinkleAmount < 0.4
    ensures var r := ResetStar(s, w, h, d);
      (d.band > 0.5 ==>
        0.0 <= r.x <= w as real * 0.7 && (w > 0 ==> r.x < w as real * 0.7) &&
        h as real <= r.y < h as real + 50.0) &&
      (d.band <= 0.5 ==>
        -50.0 < r.x <= 0.0 &&
        h as real * 0.3 <= r.y <= h as real && (h > 0 ==> r.y < h as real)) &&
      r.opacity == 0.0 && r.fadeIn && !r.fadeOut && InDrawRanges(r) &&
      r.twinkleSpeed == s.twinkleSpeed && r.twinklePhase == s.twinklePhase &&
      r.twinkleAmount == s.twinkleAmount && r.brightness == s.brightness
  {
    ScaledDraw(d.x, w);
    ScaledDraw(d.y, h);
  }

  /** A reset star is valid again, wherever it left the field and whatever
      its opacity was: only the twinkle fields and the brightness it keeps
      from before need to be in range. */
  lemma {:induction false} ResetValid(s: StarState, w: nat, h: nat, d: ResetDraws)
    requires ValidResetDraws(d)
    requires 0.003 <= s.twinkleSpeed < 0.011 && 0.1 <= s.twinkleAmount < 0.4
    requires 0.0 <= s.twinklePhase && 0.05 <= s.brightness < 1.05
    ensures StarValid(ResetStar(s, w, h, d), w, h)
  {
    ResetBands(s, w, h, d);
    assert FadeInLevel(0) == 0.0;
  }

  /** Fade-in adds 0.008 exactly while opacity is below 1, and clears the
      flag once opacity reaches 1; fade-out is raised in the exit band and
      never lowered, and while it is raised each frame takes 0.01 off. */
  lemma AdvanceFades(s: StarState, w: nat, h: nat, sin: real)
    ensures var a := Advance(s, w, h, sin);
      var faded := if s.fadeIn && s.opacity < 1.0 then s.opacity + 0.008 else s.opacity;
      (a.fadeOut <==> s.fadeOut || a.y < h as real * 0.1 || a.x > w as real * 0.9) &&
      a.opacity == (if a.fadeOut then faded - 0.01 else faded) &&
      (a.fadeIn <==> s.fadeIn && (s.opacity >= 1.0 || faded < 1.0)) &&
      a.x == s.x + s.speedX && a.y == s.y + s.speedY &&
      a.twinklePhase == s.twinklePhase + s.twinkleSpeed
  {
  }

  /** After `update` a star either was just reset, or is still visible and
      inside the exit margins; a fade-out is only ever undone by a reset. */
  lemma {:induction false} StepResetsOrStays(s: StarState, w: nat, h: nat, sin: real, d: ResetDraws)
    ensures var a := Advance(s, w, h, sin);
      var r := StepStar(s, w, h, sin, d);
      (r == ResetStar(a, w, h, d) && Exits(a, w)) ||
      (r == a && r.opacity > 0.0 && r.y >= -10.0 && r.x <= w as real + 10.0)
    ensures s.fadeOut && !StepStar(s, w, h, sin, d).fadeOut ==>
      StepStar(s, w, h, sin, d) == ResetStar(Advance(s, w, h, sin), w, h, d)
  {
    AdvanceFades(s, w, h, sin);
  }

  /** The fade-in/fade-out bookkeeping keeps opacity in [0, 1]. */
  lemma {:induction false} AdvanceOpacity(s: StarState, w: nat, h: nat, sin: real)
    requires OpacityValid(s)
    ensures var a := Advance(s, w, h, sin);
      a.opacity <= 1.0 && (a.fadeIn ==> a.opacity < 1.0) &&
      (!a.fadeOut && a.fadeIn ==> OnFadeInGrid(a.opacity)) &&
      (!a.fadeOut && !a.fadeIn ==> a.opacity == 1.0)
  {
    AdvanceFades(s, w, h, sin);
    if s.fadeIn && s.opacity < 1.0 && !s.fadeOut {
      var k: nat :| k < 125 && s.opacity == FadeInLevel(k);
      assert s.opacity + 0.008 == FadeInLevel(k + 1);
      if k + 1 < 125 {
        assert OnFadeInGrid(FadeInLevel(k + 1));
      }
    }
  }

  /** `update` keeps a star valid. */
  lemma {:induction false} StepPreservesValid(s: StarState, w: nat, h: nat, sin: real, d: ResetDraws)
    requires StarValid(s, w, h)
    requires -1.0 <= sin <= 1.0 && ValidResetDraws(d)
    ensures StarValid(StepStar(s, w, h, sin, d), w, h)
  {
    var a := Advance(s, w, h, sin);
    AdvanceFades(s, w, h, sin);
    AdvanceOpacity(s, w, h, sin);
    TwinkleBrightness(s.baseBrightness, sin, s.twinkleAmount);
    if Exits(a, w) {
      ResetBands(a, w, h, d);
      assert FadeInLevel(0) == 0.0;
    }
  }

  /** Brightness is not capped at 1: a bright star at the top of its twinkle
      goes above it. */
  lemma BrightnessCanExceedOne()
    ensures exists s: StarState, sin: real ::
      StarValid(s, 100, 100) && -1.0 <= sin <= 1.0 &&
      Advance(s, 100, 100, sin).brightness > 1.0
  {
    var s := StarState(50.0, 50.0, 1.0, 0.64, 0.64, 0.005, 0.0, 0.39, 0.2, -0.3, 1.0, false, false);
    assert Advance(s, 100, 100, 1.0).brightness == 1.03;
  }

  // ----- One frame over the whole field -----

  /** Every star of the field is valid. */
  ghost predicate AllValid(states: seq<StarState>, w: nat, h: nat)
  {
    forall j :: 0 <= j < |states| ==> StarValid(states[j], w, h)
  }

  /** The stars after one frame of `animate`: star `j` updated with sine
      value `sins[j]` and reset draws `resets[j]`. No star is added or
      dropped. */
  function FrameStates(states: seq<StarState>, w: nat, h: nat, sins: seq<real>, resets: seq<ResetDraws>): (r: seq<StarState>)
    requires |sins| == |states| && |resets| == |states|
    ensures |r| == |states|
  {
    if states == [] then []
    else [StepStar(states[0], w, h, sins[0], resets[0])] + FrameStates(states[1..], w, h, sins[1..], resets[1..])
  }

  lemma {:induction false} FrameStatesAt(states: seq<StarState>, w: nat, h: nat, sins: seq<real>, resets: seq<ResetDraws>, j: nat)
    requires |sins| == |states| && |resets| == |states| && j < |states|
    ensures FrameStates(states, w, h, sins, resets)[j] == StepStar(states[j], w, h, sins[j], resets[j])
  {
    if j > 0 {
      FrameStatesAt(states[1..], w, h, sins[1..], resets[1..], j - 1);
    }
  }

  /** A frame keeps every star valid. */
  lemma FramePreservesValid(states: seq<StarState>, w: nat, h: nat, sins: seq<real>, resets: seq<ResetDraws>)
    requires |sins| == |states| && |resets| == |states|
    requires AllValid(states, w, h)
    requires forall j :: 0 <= j < |states| ==> -1.0 <= sins[j] <= 1.0 && ValidResetDraws(resets[j])
    ensures AllValid(FrameStates(states, w, h, sins, resets), w, h)
  {
    forall j | 0 <= j < |states|
      ensures StarValid(FrameStates(states, w, h, sins, resets)[j], w, h)
    {
      FrameStatesAt(states, w, h, sins, resets, j);
      StepPreservesValid(states[j], w, h, sins[j], resets[j]);
    }
  }

  /** `Math.floor(width * height / 15000)`. */
  function StarCount(width: nat, height: nat): (n: nat)
    ensures n * PixelsPerStar <= width * height < (n + 1) * PixelsPerStar
  {
    (width * height) / PixelsPerStar
  }

  // ----- The objects -----

  class Star {
    const canvas: Canvas
    var x: real
    var y: real
    var size: real
    var baseBrightness: real
    var brightness: real
    var twinkleSpeed: real
    var twinklePhase: real
    var twinkleAmount: real
    var speedX: real
    var speedY: real
    var opacity: real
    var fadeIn: bool
    var fadeOut: bool

    function State(): StarState
      reads this
    {
      StarState(x, y, size, baseBrightness, brightness, twinkleSpeed, twinklePhase,
                twinkleAmount, speedX, speedY, opacity, fadeIn, fadeOut)
    }

    /** `new Star(initial)`, `d` holding its draws. */
    constructor(canvas: Canvas, initial: bool, d: StarDraws)
      ensures this.canvas == canvas
      ensures State() == NewStar(initial, canvas.width, canvas.height, d)
    {
      var w := canvas.width;
      var h := canvas.height;
      this.canvas := canvas;
      x := Scaled(d.x, w);
      y := if initial then Scaled(d.y, h) else h as real + d.y * 50.0;
      size := d.size * 1.7 + 0.8;
      baseBrightness := d.brightness * 0.5 + 0.15;
      brightness := baseBrightness;
      twinkleSpeed := d.twinkleSpeed * 0.008 + 0.003;
      twinklePhase := d.twinklePhase * TwoPi;
      twinkleAmount := d.twinkleAmount * 0.3 + 0.1;
      speedX := d.speedX * 0.3 + 0.15;
      speedY := -(d.speedY * 0.4 + 0.2);
      opacity := if initial then 1.0 else 0.0;
      fadeIn := !initial;
      fadeOut := false;
    }

    /** The placement lines of `reset()`. */
    method PlaceStep(d: ResetDraws)
      modifies this
      ensures State() == Place(old(State()), canvas.width, canvas.height, d)
    {
      var w := canvas.width;
      var h := canvas.height;
      if d.band > 0.5 {
        x := Scaled(d.x, w) * 0.7;
        y := h as real + d.y * 50.0;
      } else {
        x := -(d.x * 50.0);
        y := Scaled(d.y, h) * 0.7 + h as real * 0.3;
      }
    }

    /** `reset()`, `d` holding its draws. */
    method Reset(d: ResetDraws)
      modifies this
      ensures State() == ResetStar(old(State()), canvas.width, canvas.height, d)
    {
      PlaceStep(d);
      size := d.size * 1.7 + 0.8;
      baseBrightness := d.brightness * 0.5 + 0.15;
      opacity := 0.0;
      fadeIn := true;
      fadeOut := false;
      speedX := d.speedX * 0.3 + 0.15;
      speedY := -(d.speedY * 0.4 + 0.2);
    }

    /** The twinkle lines of `update()`; `sin` stands for `Math.sin` of the
        advanced twinkle phase. */
    method TwinkleStep(sin: real)
      modifies this
      ensures State() == Twinkle(old(State()), sin)
    {
      twinklePhase := twinklePhase + twinkleSpeed;
      var twinkle := sin * twinkleAmount;
      brightness := Max(0.05, baseBrightness + twinkle);
    }

    /** The fade-in lines of `update()`. */
    method FadeInStep()
      modifies this
      ensures State() == FadeIn(old(State()))
    {
      if fadeIn && opacity < 1.0 {
        opacity := opacity + 0.008;
        if opacity >= 1.0 {
          fadeIn := false;
        }
      }
    }

    /** The movement lines of `update()`. */
    method MoveStep()
      modifies this
      ensures State() == Move(old(State()))
    {
      x := x + speedX;
      y := y + speedY;
    }

    /** The fade-out lines of `update()`. */
    method FadeOutStep()
      modifies this
      ensures State() == FadeOut(old(State()), canvas.width, canvas.height)
    {
      var w := canvas.width as real;
      var h := canvas.height as real;
      if y < h * 0.1 || x > w * 0.9 {
        fadeOut := true;
      }
      if fadeOut {
        opacity := opacity - 0.01;
      }
    }

    /** `update()`, with `sin` standing for `Math.sin` of the advanced
        twinkle phase and `d` for the draws a reset would make. */
    method Update(sin: real, d: ResetDraws)
      modifies this
      ensures State() == StepStar(old(State()), canvas.width, canvas.height, sin, d)
    {
      TwinkleStep(sin);
      FadeInStep();
      MoveStep();
      FadeOutStep();
      var w := canvas.width as real;
      if opacity <= 0.0 || y < -10.0 || x > w + 10.0 {
        Reset(d);
      }
    }
  }

  /** The effect's state: the canvas and the `stars` array. */
  class StarField {
    const canvas: Canvas
    var stars: seq<Star>

    /** The states of the stars, in array order. */
    function States(): (r: seq<StarState>)
      reads this, stars
      ensures |r| == |stars|
      ensures forall j :: 0 <= j < |stars| ==> r[j] == stars[j].State()
    {
      seq(|stars|, j reads this, stars requires 0 <= j < |stars| => stars[j].State())
    }

    /** Distinct stars, all drawn on this canvas and all valid on it. */
    ghost predicate Valid()
      reads this, canvas, stars
    {
      (forall i, j :: 0 <= i < j < |stars| ==> stars[i] != stars[j]) &&
      (forall i :: 0 <= i < |stars| ==> stars[i].canvas == canvas) &&
      AllValid(States(), canvas.width, canvas.height)
    }

    constructor(canvas: Canvas)
      ensures this.canvas == canvas && stars == [] && Valid()
    {
      this.canvas := canvas;
      stars := [];
    }

    /** `initStars`: discard the stars and create one initial-mode star per
        15000 square pixels, `draws[i]` being the draws of star `i`. */
    method InitStars(draws: seq<StarDraws>)
      requires |draws| == StarCount(canvas.width, canvas.height)
      requires forall i :: 0 <= i < |draws| ==> ValidStarDraws(draws[i])
      modifies this
      ensures |stars| == StarCount(canvas.width, canvas.height)
      ensures forall i :: 0 <= i < |stars| ==> fresh(stars[i])
      ensures forall i :: 0 <= i < |stars| ==>
        stars[i].State() == NewStar(true, canvas.width, canvas.height, draws[i])
      ensures Valid()
    {
      var w := canvas.width;
      var h := canvas.height;
      stars := [];
      var n := StarCount(w, h);
      for i := 0 to n
        invariant |stars| == i
        invariant forall j :: 0 <= j < i ==> fresh(stars[j])
        invariant forall j :: 0 <= j < i ==> stars[j].State() == NewStar(true, w, h, draws[j])
        invariant Valid()
      {
        var star := new Star(canvas, true, draws[i]);
        NewStarModes(true, w, h, draws[i]);
        stars := stars + [star];
      }
    }

    /** One frame of `animate`: update every star in place, in array order,
        star `i` with sine value `sins[i]` and reset draws `resets[i]`. The
        array itself, and so its length, stays as it was. */
    method Animate(sins: seq<real>, resets: seq<ResetDraws>)
      requires Valid()
      requires |sins| == |stars| && |resets| == |stars|
      requires forall i :: 0 <= i < |stars| ==> -1.0 <= sins[i] <= 1.0 && ValidResetDraws(resets[i])
      modifies stars
      ensures stars == old(stars)
      ensures States() == FrameStates(old(States()), canvas.width, canvas.height, sins, resets)
      ensures Valid()
    {
      var w := canvas.width;
      var h := canvas.height;
      ghost var before := States();
      ghost var after := FrameStates(before, w, h, sins, resets);
      FramePreservesValid(before, w, h, sins, resets);
      for i := 0 to |stars|
        invariant forall j :: 0 <= j < i ==> stars[j].State() == after[j]
        invariant forall j :: i <= j < |stars| ==> stars[j].State() == before[j]
      {
        FrameStatesAt(before, w, h, sins, resets, i);
        stars[i].Update(sins[i], resets[i]);
      }
      assert States() == after;
    }

    /** `handleResize`: take the window's size and rebuild the stars. */
    method HandleResize(width: nat, height: nat, draws: seq<StarDraws>)
      requires |draws| == StarCount(width, height)
      requires forall i :: 0 <= i < |draws| ==> ValidStarDraws(draws[i])
      modifies this, canvas
      ensures canvas.width == width && canvas.height == height
      ensures |stars| == StarCount(width, height)
      ensures forall i :: 0 <= i < |stars| ==>
        fresh(stars[i]) && stars[i].State() == NewStar(true, width, height, draws[i])
      ensures Valid()
    {
      canvas.width := width;
      canvas.height := height;
      InitStars(draws);
    }
  }
}
