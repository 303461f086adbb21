/**
 * The state update of the animated starfield (client/src/components/
 * StarryBackground.tsx), with every drawing call removed: the population
 * built from the canvas area, each star's colour class and radius tier, the
 * clamped twinkling opacity, the upward drift with wrap-around, and the
 * shooting stars' fade-in/fade-out lifecycle with their in-place removal.
 *
 * Every `Math.random()` result is a parameter in [0, 1), every sine or
 * cosine a parameter, and canvas quantities are exact reals.
 */
module Starfield {
  import opened Host

  // ---------------------------------------------------------------------------
  // Population

  /** One star per 1500 square pixels of canvas. */
  const Density: nat := 1500

  /** `Math.floor(width * height / 1500)`. */
  function StarCount(width: nat, height: nat): (n: nat)
    ensures n * Density <= width * height < (n + 1) * Density
    ensures width == 0 || height == 0 ==> n == 0
  {
    (width * height) / Density
  }

  lemma StarCountExample()
    ensures StarCount(1000, 1500) == 1000
  {
  }

  /** The five spectral colour classes a star can take. */
  datatype StarColor = LightBlue | White | YellowWhite | LightOrange | RedOrange

  /** The `r, g, b` text each colour class is painted with. */
  function Rgb(c: StarColor): string {
    match c
    case LightBlue => "200, 220, 255"
    case White => "255, 255, 255"
    case YellowWhite => "255, 245, 230"
    case LightOrange => "255, 220, 180"
    case RedOrange => "255, 200, 150"
  }

  /** `getStarColor`: the first of the thresholds 0.1, 0.4, 0.7, 0.9 that the draw falls below. */
  function StarColorFor(rand: real): (c: StarColor)
    ensures c == LightBlue <==> rand < 0.1
    ensures c == White <==> 0.1 <= rand < 0.4
    ensures c == YellowWhite <==> 0.4 <= rand < 0.7
    ensures c == LightOrange <==> 0.7 <= rand < 0.9
    ensures c == RedOrange <==> 0.9 <= rand
  {
    if rand < 0.1 then LightBlue
    else if rand < 0.4 then White
    else if rand < 0.7 then YellowWhite
    else if rand < 0.9 then LightOrange
    else RedOrange
  }

  /** The three radius tiers: most stars tiny, a few medium, rare large ones. */
  datatype RadiusTier = Tiny | Medium | Large

  function TierOf(size: real): (t: RadiusTier)
    ensures t == Tiny <==> size < 0.9
    ensures t == Medium <==> 0.9 <= size < 0.97
    ensures t == Large <==> 0.97 <= size
  {
    if size < 0.9 then Tiny else if size < 0.97 then Medium else Large
  }

  /** A star's radius from its tier draw `size` and the inner draw `rand`. */
  function StarRadius(size: real, rand: real): (r: real)
    requires UnitDraw(rand)
    ensures TierOf(size) == Tiny ==> 0.15 <= r < 0.75
    ensures TierOf(size) == Medium ==> 0.6 <= r < 1.8
    ensures TierOf(size) == Large ==> 0.8 <= r < 2.8
  {
    match TierOf(size)
    case Tiny => rand * 0.6 + 0.15
    case Medium => rand * 1.2 + 0.6
    case Large => rand * 2.0 + 0.8
  }

  /** `Math.PI * 2` as the double the source computes. */
  const TwoPi: real := 6.283185307179586

  datatype Star = Star(
    x: real,
    y: real,
    radius: real,
    baseAlpha: real,
    twinkleSpeed: real,
    twinklePhase: real,
    speed: real,
    color: StarColor)

  /** The nine draws one star consumes, in the order the source makes them. */
  datatype StarDraw = StarDraw(
    size: real,
    radius: real,
    x: real,
    y: real,
    alpha: real,
    twinkleSpeed: real,
    twinklePhase: real,
    speed: real,
    color: real)

  predicate ValidDraw(d: StarDraw) {
    && UnitDraw(d.size) && UnitDraw(d.radius) && UnitDraw(d.x) && UnitDraw(d.y)
    && UnitDraw(d.alpha) && UnitDraw(d.twinkleSpeed) && UnitDraw(d.twinklePhase)
    && UnitDraw(d.speed) && UnitDraw(d.color)
  }

  /** A star that lies on the canvas horizontally and within 10 px of it vertically. */
  predicate OnSky(s: Star, width: nat, height: nat) {
    && 0.0 <= s.x <= width as real
    && -10.0 <= s.y <= height as real + 10.0
    && s.speed >= 0.0
  }

  /** The star the push loop of `initStars` builds from one draw record. */
  function NewStar(d: StarDraw, width: nat, height: nat): (s: Star)
    requires ValidDraw(d)
    ensures 0.0 <= s.x <= width as real && 0.0 <= s.y <= height as real
    ensures width > 0 ==> s.x < width as real
    ensures height > 0 ==> s.y < height as real
    ensures s.radius == StarRadius(d.size, d.radius)
    ensures 0.2 <= s.baseAlpha < 0.7
    ensures 0.005 <= s.twinkleSpeed < 0.025
    ensures 0.0 <= s.twinklePhase < TwoPi
    ensures 0.002 <= s.speed < 0.022
    ensures s.color == StarColorFor(d.color)
    ensures OnSky(s, width, height)
  {
    var x := d.x * width as real;
    var y := d.y * height as real;
    ScaleBounds(d.x, width as real);
    ScaleBounds(d.y, height as real);
    ScaleBounds(d.twinklePhase, TwoPi);
    assert 0.0 <= x <= width as real && (width > 0 ==> x < width as real);
    assert 0.0 <= y <= height as real && (height > 0 ==> y < height as real);
    Star(x, y, StarRadius(d.size, d.radius),
         d.alpha * 0.5 + 0.2, d.twinkleSpeed * 0.02 + 0.005, d.twinklePhase * TwoPi,
         d.speed * 0.02 + 0.002, StarColorFor(d.color))
  }

  /** The population `initStars` builds for a canvas of the given size. */
  function Population(draws: seq<StarDraw>, width: nat, height: nat): (stars: seq<Star>)
    requires |draws| >= StarCount(width, height)
    requires forall i :: 0 <= i < |draws| ==> ValidDraw(draws[i])
    ensures |stars| == StarCount(width, height)
    ensures forall i :: 0 <= i < |stars| ==> stars[i] == NewStar(draws[i], width, height)
  {
    seq(StarCount(width, height), i requires 0 <= i < StarCount(width, height) => NewStar(draws[i], width, height))
  }

  // ---------------------------------------------------------------------------
  // Twinkle and drift

  /** `0.6 + 0.4 * twinkle`, where twinkle averages a sine and a cosine term. */
  function AlphaMod(sinTerm: real, cosTerm: real): (m: real)
    ensures Wave(sinTerm) && Wave(cosTerm) ==> 0.2 <= m <= 1.0
  {
    0.6 + 0.4 * ((sinTerm + cosTerm) * 0.5)
  }

  /** `Math.max(0.1, Math.min(1, v))`. */
  function Clamp(v: real): (a: real)
    ensures 0.1 <= a <= 1.0
    ensures 0.1 <= v <= 1.0 ==> a == v
    ensures v < 0.1 ==> a == 0.1
    ensures v > 1.0 ==> a == 1.0
  {
    var upper := if v < 1.0 then v else 1.0;
    if upper > 0.1 then upper else 0.1
  }

  /** A star's opacity this frame, for any base opacity and any twinkle terms. */
  function CurrentAlpha(baseAlpha: real, sinTerm: real, cosTerm: real): (a: real)
    ensures 0.1 <= a <= 1.0
  {
    Clamp(baseAlpha * AlphaMod(sinTerm, cosTerm))
  }

  /** A generated star never reaches the upper clamp: its opacity stays below 0.7. */
  lemma GeneratedAlphaBelowOne(baseAlpha: real, sinTerm: real, cosTerm: real)
    requires 0.2 <= baseAlpha < 0.7
    requires Wave(sinTerm) && Wave(cosTerm)
    ensures 0.1 <= CurrentAlpha(baseAlpha, sinTerm, cosTerm) < 0.7
  {
    var m := AlphaMod(sinTerm, cosTerm);
    ScaleBounds(m, baseAlpha);
    var v := baseAlpha * m;
    assert v == m * baseAlpha;
    assert v < 0.7;
    assert CurrentAlpha(baseAlpha, sinTerm, cosTerm) == Clamp(v);
  }

  /** One frame of drift: up by `speed`; past 10 px above the top, back to 10 px below the bottom. */
  function Drifted(s: Star, width: nat, height: nat, xDraw: real): (r: Star)
    ensures r.radius == s.radius && r.baseAlpha == s.baseAlpha && r.speed == s.speed
    ensures r.twinkleSpeed == s.twinkleSpeed && r.twinklePhase == s.twinklePhase && r.color == s.color
    ensures s.y - s.speed >= -10.0 ==> r.y == s.y - s.speed && r.x == s.x
    ensures s.y - s.speed < -10.0 ==> r.y == height as real + 10.0 && r.x == xDraw * width as real
  {
    var y := s.y - s.speed;
    if y < -10.0 then s.(y := height as real + 10.0, x := xDraw * width as real)
    else s.(y := y)
  }

  /** Drift keeps every star on the sky band, whatever its speed or position. */
  lemma DriftStaysOnSky(s: Star, width: nat, height: nat, xDraw: real)
    requires OnSky(s, width, height)
    requires UnitDraw(xDraw)
    ensures OnSky(Drifted(s, width, height, xDraw), width, height)
  {
    var r := Drifted(s, width, height, xDraw);
    ScaleBounds(xDraw, width as real);
  }

  // ---------------------------------------------------------------------------
  // Shooting stars

  datatype ShootingStar = ShootingStar(
    x: real,
    y: real,
    len: real,
    speed: real,
    vx: real,
    vy: real,
    opacity: real,
    fadingIn: bool,
    thickness: real)

  /** The chance per frame that a shooting star is spawned. */
  const SpawnChance: real := 0.005
  const FadeInStep: real := 0.08
  const FadeOutStep: real := 0.015

  /**
   * The draws a frame's spawn step consumes: the chance draw, then start x,
   * start y, angle, speed, trail length and thickness. The angle draw only
   * feeds the sine and cosine, which are parameters of `Spawned`.
   */
  datatype SpawnDraw = SpawnDraw(chance: real, x: real, y: real, angle: real, speed: real, len: real, thickness: real)

  predicate ValidSpawnDraw(d: SpawnDraw) {
    && UnitDraw(d.chance) && UnitDraw(d.x) && UnitDraw(d.y) && UnitDraw(d.angle)
    && UnitDraw(d.speed) && UnitDraw(d.len) && UnitDraw(d.thickness)
  }

  /** A new shooting star: invisible, fading in, starting high up and moving along the angle. */
  function Spawned(d: SpawnDraw, width: nat, height: nat, cosAngle: real, sinAngle: real): (ss: ShootingStar)
    requires ValidSpawnDraw(d)
    requires Wave(cosAngle) && Wave(sinAngle)
    ensures ss.opacity == 0.0 && ss.fadingIn
    ensures 0.0 <= ss.x <= 1.5 * width as real && 0.0 <= ss.y <= 0.3 * height as real
    ensures 15.0 <= ss.speed < 30.0 && 100.0 <= ss.len < 250.0 && 0.3 <= ss.thickness < 1.5
    ensures ss.vx == -cosAngle * ss.speed && ss.vy == sinAngle * ss.speed
  {
    var speed := d.speed * 15.0 + 15.0;
    var x := d.x * width as real * 1.5;
    var y := d.y * height as real * 0.3;
    ScaleBounds(d.x, 1.5 * width as real);
    ScaleBounds(d.y, 0.3 * height as real);
    assert x == d.x * (1.5 * width as real);
    assert y == d.y * (0.3 * height as real);
    assert 0.0 <= x <= 1.5 * width as real && 0.0 <= y <= 0.3 * height as real;
    ShootingStar(x, y, d.len * 150.0 + 100.0,
                 speed, -cosAngle * speed, sinAngle * speed, 0.0, true, d.thickness * 1.2 + 0.3)
  }

  /**
   * The fade machine's invariant: while fading in, opacity is in [0, 1); once
   * fading out, it never exceeds 1.
   */
  predicate FadeOk(ss: ShootingStar) {
    (ss.fadingIn ==> 0.0 <= ss.opacity < 1.0) && (!ss.fadingIn ==> ss.opacity <= 1.0)
  }

  /** One frame of the fade: up by 0.08 until 1 is reached (then exactly 1, fading out), then down by 0.015. */
  function Faded(ss: ShootingStar): (r: ShootingStar)
    ensures r == ss.(opacity := r.opacity, fadingIn := r.fadingIn)
    ensures r.fadingIn ==> ss.fadingIn
    ensures ss.fadingIn && ss.opacity + FadeInStep < 1.0 ==> r.fadingIn && r.opacity == ss.opacity + FadeInStep
    ensures ss.fadingIn && ss.opacity + FadeInStep >= 1.0 ==> !r.fadingIn && r.opacity == 1.0
    ensures !ss.fadingIn ==> !r.fadingIn && r.opacity == ss.opacity - FadeOutStep
  {
    if ss.fadingIn then
      var o := ss.opacity + FadeInStep;
      if o >= 1.0 then ss.(opacity := 1.0, fadingIn := false) else ss.(opacity := o)
    else ss.(opacity := ss.opacity - FadeOutStep)
  }

  /** The fade keeps its invariant; opacity rises strictly while fading in and falls strictly after. */
  lemma FadeMonotone(ss: ShootingStar)
    requires FadeOk(ss)
    ensures FadeOk(Faded(ss))
    ensures ss.fadingIn ==> Faded(ss).opacity > ss.opacity
    ensures !ss.fadingIn ==> Faded(ss).opacity < ss.opacity
  {
  }

  /** n frames of fading. */
  function FadeSteps(ss: ShootingStar, n: nat): ShootingStar
    decreases n
  {
    if n == 0 then ss else Faded(FadeSteps(ss, n - 1))
  }

  lemma {:induction false} FadeStepsAdd(ss: ShootingStar, a: nat, b: nat)
    ensures FadeSteps(ss, a + b) == FadeSteps(FadeSteps(ss, a), b)
    decreases b
  {
    if b > 0 {
      FadeStepsAdd(ss, a, b - 1);
    }
  }

  /** From opacity 0, the first 12 frames raise the opacity by 0.08 each, still fading in. */
  lemma {:induction false} FadeInRamp(ss: ShootingStar, k: nat)
    requires ss.opacity == 0.0 && ss.fadingIn
    requires k <= 12
    ensures FadeSteps(ss, k) == ss.(opacity := FadeInStep * k as real)
    decreases k
  {
    if k > 0 {
      FadeInRamp(ss, k - 1);
    }
  }

  /** Once fading out, each frame lowers the opacity by 0.015. */
  lemma {:induction false} FadeOutRamp(ss: ShootingStar, k: nat)
    requires !ss.fadingIn
    ensures FadeSteps(ss, k) == ss.(opacity := ss.opacity - FadeOutStep * k as real)
    decreases k
  {
    if k > 0 {
      FadeOutRamp(ss, k - 1);
    }
  }

  /** Starting from 0, the opacity reaches 1 on exactly the 13th frame, and fades out from there. */
  lemma FadeInThirteen(ss: ShootingStar)
    requires ss.opacity == 0.0 && ss.fadingIn
    ensures forall k: nat :: k < 13 ==> FadeSteps(ss, k).fadingIn && FadeSteps(ss, k).opacity < 1.0
    ensures FadeSteps(ss, 13) == ss.(opacity := 1.0, fadingIn := false)
  {
    forall k: nat | k < 13
      ensures FadeSteps(ss, k).fadingIn && FadeSteps(ss, k).opacity < 1.0
    {
      if k <= 12 {
        FadeInRamp(ss, k);
      }
    }
    FadeInRamp(ss, 12);
  }

  /**
   * The whole envelope: a shooting star that stays on screen lives 79 frames
   * with positive opacity and its opacity reaches 0 or below on the 80th.
   */
  lemma Lifetime(ss: ShootingStar)
    requires ss.opacity == 0.0 && ss.fadingIn
    ensures forall k: nat :: 1 <= k < 80 ==> FadeSteps(ss, k).opacity > 0.0
    ensures FadeSteps(ss, 80).opacity <= 0.0
  {
    FadeInThirteen(ss);
    var top := FadeSteps(ss, 13);
    forall k: nat | 1 <= k < 80
      ensures FadeSteps(ss, k).opacity > 0.0
    {
      if k <= 12 {
        FadeInRamp(ss, k);
      } else {
        FadeStepsAdd(ss, 13, k - 13);
        FadeOutRamp(top, k - 13);
      }
    }
    FadeStepsAdd(ss, 13, 67);
    FadeOutRamp(top, 67);
  }

  /** The removal test, made on the star after this frame's fade. */
  predicate Removed(ss: ShootingStar, height: nat) {
    ss.opacity <= 0.0 || ss.x < -ss.len || ss.y > height as real + ss.len
  }

  /** One frame of motion for a star that stays. */
  function Advanced(ss: ShootingStar): ShootingStar {
    ss.(x := ss.x + ss.vx, y := ss.y + ss.vy)
  }

  /** What the update loop leaves of entries i.. of the array, in order. */
  function UpdateFrom(ss: seq<ShootingStar>, height: nat, i: nat): (r: seq<ShootingStar>)
    requires i <= |ss|
    ensures |r| <= |ss| - i
    decreases |ss| - i
  {
    if i == |ss| then []
    else
      var t := Faded(ss[i]);
      (if Removed(t, height) then [] else [Advanced(t)]) + UpdateFrom(ss, height, i + 1)
  }

  /** The indices of the entries i.. that survive this frame, in order. */
  function KeptFrom(ss: seq<ShootingStar>, height: nat, i: nat): seq<nat>
    requires i <= |ss|
    decreases |ss| - i
  {
    if i == |ss| then []
    else (if Removed(Faded(ss[i]), height) then [] else [i]) + KeptFrom(ss, height, i + 1)
  }

  /** The whole frame's update of the shooting-star array. */
  function Update(ss: seq<ShootingStar>, height: nat): (r: seq<ShootingStar>)
    ensures |r| <= |ss|
  {
    UpdateFrom(ss, height, 0)
  }

  /** Each survivor is the faded and advanced entry at its kept index, below the array's length. */
  lemma {:induction false} SurvivorsAreAdvanced(ss: seq<ShootingStar>, height: nat, i: nat)
    requires i <= |ss|
    ensures |UpdateFrom(ss, height, i)| == |KeptFrom(ss, height, i)|
    ensures forall k :: 0 <= k < |KeptFrom(ss, height, i)| ==>
      i <= KeptFrom(ss, height, i)[k] < |ss| &&
      UpdateFrom(ss, height, i)[k] == Advanced(Faded(ss[KeptFrom(ss, height, i)[k]]))
    decreases |ss| - i
  {
    if i < |ss| {
      SurvivorsAreAdvanced(ss, height, i + 1);
      var rest, keptRest := UpdateFrom(ss, height, i + 1), KeptFrom(ss, height, i + 1);
      var t := Faded(ss[i]);
      if !Removed(t, height) {
        var out, kept := [Advanced(t)] + rest, [i] + keptRest;
        assert UpdateFrom(ss, height, i) == out && KeptFrom(ss, height, i) == kept;
        forall k | 0 <= k < |kept|
          ensures i <= kept[k] < |ss| && out[k] == Advanced(Faded(ss[kept[k]]))
        {
          if k > 0 {
            assert kept[k] == keptRest[k - 1] && out[k] == rest[k - 1];
          }
        }
      }
    }
  }

  /** The kept indices of entries i.. all lie in [i, |ss|) and are strictly increasing: survivors keep their order. */
  lemma {:induction false} SurvivorsInOrder(ss: seq<ShootingStar>, height: nat, i: nat)
    requires i <= |ss|
    ensures forall k :: 0 <= k < |KeptFrom(ss, height, i)| ==> i <= KeptFrom(ss, height, i)[k] < |ss|
    ensures forall k, l :: 0 <= k < l < |KeptFrom(ss, height, i)| ==>
      KeptFrom(ss, height, i)[k] < KeptFrom(ss, height, i)[l]
    decreases |ss| - i
  {
    if i < |ss| {
      SurvivorsInOrder(ss, height, i + 1);
      var keptRest := KeptFrom(ss, height, i + 1);
      if !Removed(Faded(ss[i]), height) {
        var kept := [i] + keptRest;
        assert KeptFrom(ss, height, i) == kept;
        forall k, l | 0 <= k < l < |kept| ensures kept[k] < kept[l] {
          assert kept[l] == keptRest[l - 1];
          if k > 0 {
            assert kept[k] == keptRest[k - 1];
          }
        }
      }
    }
  }

  /** An entry is spliced out exactly when its faded state meets the removal test. */
  lemma {:induction false} SurvivorsExactly(ss: seq<ShootingStar>, height: nat, i: nat)
    requires i <= |ss|
    ensures forall j :: i <= j < |ss| ==> (j in KeptFrom(ss, height, i) <==> !Removed(Faded(ss[j]), height))
    decreases |ss| - i
  {
    if i < |ss| {
      SurvivorsExactly(ss, height, i + 1);
      SurvivorsInOrder(ss, height, i + 1);
      var keptRest := KeptFrom(ss, height, i + 1);
      assert i !in keptRest;
      if !Removed(Faded(ss[i]), height) {
        assert KeptFrom(ss, height, i) == [i] + keptRest;
      }
    }
  }

  /** Every survivor of an update is visible and keeps the fade invariant. */
  lemma {:induction false} UpdateKeepsFadeOk(ss: seq<ShootingStar>, height: nat, i: nat)
    requires i <= |ss|
    requires forall j :: 0 <= j < |ss| ==> FadeOk(ss[j])
    ensures forall k :: 0 <= k < |UpdateFrom(ss, height, i)| ==>
      FadeOk(UpdateFrom(ss, height, i)[k]) && UpdateFrom(ss, height, i)[k].opacity > 0.0
    decreases |ss| - i
  {
    if i < |ss| {
      FadeMonotone(ss[i]);
      UpdateKeepsFadeOk(ss, height, i + 1);
    }
  }

  // ---------------------------------------------------------------------------
  // The renderer's state

  /** The two terms of a star's twinkle this frame (a sine and a cosine). */
  datatype Twinkle = Twinkle(sinTerm: real, cosTerm: real)

  class StarrySky {
    var width: nat
    var height: nat
    var stars: seq<Star>
    var shootingStars: seq<ShootingStar>

    /**
     * The population matches the canvas area, every star is on the sky band,
     * and every shooting star keeps the fade invariant.
     */
    ghost predicate Valid()
      reads this
    {
      && |stars| == StarCount(width, height)
      && (forall i :: 0 <= i < |stars| ==> OnSky(stars[i], width, height))
      && (forall i :: 0 <= i < |shootingStars| ==> FadeOk(shootingStars[i]))
    }

    /** Mounting: size the canvas to the window and build the population. */
    constructor (innerWidth: nat, innerHeight: nat, draws: seq<StarDraw>)
      requires |draws| >= StarCount(innerWidth, innerHeight)
      requires forall i :: 0 <= i < |draws| ==> ValidDraw(draws[i])
      ensures Valid()
      ensures width == innerWidth && height == innerHeight
      ensures stars == Population(draws, innerWidth, innerHeight) && shootingStars == []
    {
      width, height := innerWidth, innerHeight;
      stars, shootingStars := [], [];
      new;
      InitStars(draws);
    }

    /** `resizeCanvas`: the canvas takes the window's size and the population is rebuilt. */
    method ResizeCanvas(innerWidth: nat, innerHeight: nat, draws: seq<StarDraw>)
      requires |draws| >= StarCount(innerWidth, innerHeight)
      requires forall i :: 0 <= i < |draws| ==> ValidDraw(draws[i])
      modifies this
      ensures Valid()
      ensures width == innerWidth && height == innerHeight
      ensures stars == Population(draws, innerWidth, innerHeight) && shootingStars == []
    {
      width := innerWidth;
      height := innerHeight;
      InitStars(draws);
    }

    /** `initStars`: both arrays emptied, then one pushed star per draw record. */
    method InitStars(draws: seq<StarDraw>)
      requires |draws| >= StarCount(width, height)
      requires forall i :: 0 <= i < |draws| ==> ValidDraw(draws[i])
      modifies this`stars, this`shootingStars
      ensures Valid()
      ensures stars == Population(draws, width, height) && shootingStars == []
    {
      stars := [];
      shootingStars := [];
      var numStars := StarCount(width, height);
      var i := 0;
      while i < numStars
        invariant 0 <= i <= numStars
        invariant stars == Population(draws, width, height)[..i]
        invariant shootingStars == []
      {
        stars := stars + [NewStar(draws[i], width, height)];
        i := i + 1;
      }
    }

    /**
     * The `forEach` over the stars: each star's opacity this frame, then its
     * drift. `xDraws[i]` is the draw used if star i wraps around.
     */
    method DriftStars(twinkles: seq<Twinkle>, xDraws: seq<real>) returns (alphas: seq<real>)
      requires Valid()
      requires |twinkles| == |stars| && |xDraws| == |stars|
      requires forall i :: 0 <= i < |twinkles| ==> Wave(twinkles[i].sinTerm) && Wave(twinkles[i].cosTerm)
      requires forall i :: 0 <= i < |xDraws| ==> UnitDraw(xDraws[i])
      modifies this`stars
      ensures Valid()
      ensures |stars| == |old(stars)| && |alphas| == |stars|
      ensures forall i :: 0 <= i < |stars| ==> stars[i] == Drifted(old(stars)[i], width, height, xDraws[i])
      ensures forall i :: 0 <= i < |alphas| ==>
        alphas[i] == CurrentAlpha(old(stars)[i].baseAlpha, twinkles[i].sinTerm, twinkles[i].cosTerm)
      ensures forall i :: 0 <= i < |alphas| ==> 0.1 <= alphas[i] <= 1.0
    {
      alphas := [];
      var i := 0;
      while i < |stars|
        invariant 0 <= i <= |stars| == |old(stars)|
        invariant |alphas| == i
        invariant forall k :: 0 <= k < i ==> stars[k] == Drifted(old(stars)[k], width, height, xDraws[k])
        invariant forall k :: i <= k < |stars| ==> stars[k] == old(stars)[k]
        invariant forall k :: 0 <= k < i ==>
          alphas[k] == CurrentAlpha(old(stars)[k].baseAlpha, twinkles[k].sinTerm, twinkles[k].cosTerm)
        invariant forall k :: 0 <= k < |stars| ==> OnSky(stars[k], width, height)
      {
        var star := stars[i];
        alphas := alphas + [CurrentAlpha(star.baseAlpha, twinkles[i].sinTerm, twinkles[i].cosTerm)];
        DriftStaysOnSky(star, width, height, xDraws[i]);
        stars := stars[i := Drifted(star, width, height, xDraws[i])];
        i := i + 1;
      }
    }

    /** The spawn step: with probability 0.005 a new shooting star is pushed. */
    method MaybeSpawn(d: SpawnDraw, cosAngle: real, sinAngle: real)
      requires Valid()
      requires ValidSpawnDraw(d)
      requires Wave(cosAngle) && Wave(sinAngle)
      modifies this`shootingStars
      ensures Valid()
      ensures shootingStars == old(shootingStars) +
        (if d.chance < SpawnChance then [Spawned(d, width, height, cosAngle, sinAngle)] else [])
    {
      if d.chance < SpawnChance {
        shootingStars := shootingStars + [Spawned(d, width, height, cosAngle, sinAngle)];
      }
    }

    /**
     * The reverse loop over the shooting stars: fade entry i; splice it out if
     * it is now invisible or off screen; otherwise advance it.
     */
    method UpdateShootingStars()
      requires Valid()
      modifies this`shootingStars
      ensures Valid()
      ensures shootingStars == Update(old(shootingStars), height)
    {
      ghost var start := shootingStars;
      var i := |shootingStars| - 1;
      while i >= 0
        invariant -1 <= i < |start|
        invariant shootingStars == start[..i + 1] + UpdateFrom(start, height, i + 1)
        decreases i
      {
        assert shootingStars[i] == start[i];
        ghost var done := UpdateFrom(start, height, i + 1);
        shootingStars := shootingStars[i := Faded(shootingStars[i])];
        if Removed(shootingStars[i], height) {
          shootingStars := shootingStars[..i] + shootingStars[i + 1..];
          assert shootingStars == start[..i] + done;
        } else {
          shootingStars := shootingStars[i := Advanced(shootingStars[i])];
          assert shootingStars == start[..i] + [Advanced(Faded(start[i]))] + done;
        }
        assert start[..i + 1][..i] == start[..i];
        i := i - 1;
      }
      assert start[..0] == [];
      UpdateKeepsFadeOk(start, height, 0);
    }

    /** One animation frame's state update: stars drift, maybe a spawn, then the shooting-star loop. */
    method AnimateFrame(twinkles: seq<Twinkle>, xDraws: seq<real>, spawn: SpawnDraw, cosAngle: real, sinAngle: real)
      returns (alphas: seq<real>)
      requires Valid()
      requires |twinkles| == |stars| && |xDraws| == |stars|
      requires forall i :: 0 <= i < |twinkles| ==> Wave(twinkles[i].sinTerm) && Wave(twinkles[i].cosTerm)
      requires forall i :: 0 <= i < |xDraws| ==> UnitDraw(xDraws[i])
      requires ValidSpawnDraw(spawn)
      requires Wave(cosAngle) && Wave(sinAngle)
      modifies this`stars, this`shootingStars
      ensures Valid()
      ensures |stars| == |old(stars)| && |alphas| == |stars|
      ensures forall i :: 0 <= i < |stars| ==> stars[i] == Drifted(old(stars)[i], width, height, xDraws[i])
      ensures forall i :: 0 <= i < |alphas| ==> 0.1 <= alphas[i] <= 1.0
      ensures shootingStars == Update(old(shootingStars) +
        (if spawn.chance < SpawnChance then [Spawned(spawn, width, height, cosAngle, sinAngle)] else []), height)
    {
      alphas := DriftStars(twinkles, xDraws);
      MaybeSpawn(spawn, cosAngle, sinAngle);
      UpdateShootingStars();
    }
  }
}
