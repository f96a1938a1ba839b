/** The structural planner (`planBeat`): tempo, scale, root, sections,
    per-bar density, per-bar layer activation and the stop policy, from a
    seed and the user's configuration. */
module Planner {
  import opened Rng
  import opened Style
  import opened Sections

  datatype Option<T> = None | Some(value: T)

  type PitchClass = x: int | 0 <= x < 12

  /** How the tempo is chosen; the fixed and manual values are the numbers
      already parsed from their input boxes. */
  datatype BpmMode = ArtistTempo | FixedTempo(fixedValue: int) | ManualTempo(manualValue: int)
  datatype KeyMode = AutoKey | PickKey(pc: PitchClass)
  datatype ScaleMode = AutoScale | ExplicitScale(scale: Scale)

  /** The settings `planBeat` reads from the global state and the tempo inputs. */
  datatype Config = Config(
    artists: seq<Artist>, mood: Mood, bars: nat, sketch: Sketch,
    bpmMode: BpmMode, keyMode: KeyMode, scaleMode: ScaleMode)

  /** Which layers play in one bar, and the name of the bar's section. */
  datatype Layers = Layers(
    kick: bool, snare: bool, hats: bool, bass: bool, lead: bool, pad: bool, bell: bool,
    section: string)

  /** A stop: the 1-based bar it falls in and how many beats are muted. */
  datatype Stop = Stop(bar: int, beats: real)

  datatype Plan = Plan(
    seed: bv32, mainArtist: Artist, artists: seq<Artist>, mood: Mood,
    bpm: int, root: PitchClass, scale: Scale,
    sections: seq<Section>, density: seq<real>, layers: seq<Layers>,
    stop: Option<Stop>, bars: nat, sketch: Sketch)

  /** The shape every plan has and the renderer relies on. */
  predicate PlanShaped(p: Plan)
  {
    && |p.density| == p.bars
    && |p.layers| == p.bars
    && |p.sections| > 0
    && (p.stop.Some? ==> p.stop.value.beats == 0.5 || p.stop.value.beats == 1.0)
  }

  // ---------------------------------------------------------------- tempo

  /** The tempo: one draw is always taken and lerped over the artist's
      range; a fixed or manual tempo then replaces it, clamped to [60,220]. */
  method ResolveBpm(rng: Mulberry32, main: Artist, mode: BpmMode) returns (bpm: int)
    requires rng.Valid()
    modifies rng
    ensures rng.Valid() && rng.seed == old(rng.seed) && Drew(old(rng.history), rng.history, 1)
    ensures mode.ArtistTempo? ==>
      bpm == Round(Lerp(Priors(main).tempoLo as real, Priors(main).tempoHi as real, rng.history[|old(rng.history)|]))
    ensures mode.ArtistTempo? ==> Priors(main).tempoLo <= bpm <= Priors(main).tempoHi
    ensures mode.FixedTempo? ==> bpm == ClampInt(mode.fixedValue, 60, 220)
    ensures mode.ManualTempo? ==> bpm == ClampInt(mode.manualValue, 60, 220)
    ensures 60 <= bpm <= 220
  {
    var pri := Priors(main);
    var x := rng.Next();
    bpm := Round(Lerp(pri.tempoLo as real, pri.tempoHi as real, x));
    match mode {
      case FixedTempo(v) => bpm := ClampInt(v, 60, 220);
      case ManualTempo(v) => bpm := ClampInt(v, 60, 220);
      case ArtistTempo =>
    }
  }

  // ---------------------------------------------------------------- scale and key

  /** Artists and moods that bias the scale and root toward darker choices. */
  predicate IsDark(a: Artist, m: Mood) { a == Feng || m == Dark }
  predicate IsFloaty(a: Artist, m: Mood) { a == Bladee || m == Floaty }

  /** `resolveScale`: an explicit scale wins without drawing; otherwise
      dark settings try harmonic minor first (p = 0.55), floaty settings
      then try natural minor (p = 0.45), and finally phrygian is picked
      with p = 0.25. Each guarded draw is taken only when its guard holds. */
  method ResolveScale(rng: Mulberry32, main: Artist, mood: Mood, mode: ScaleMode) returns (scale: Scale)
    requires rng.Valid()
    modifies rng
    ensures rng.Valid() && rng.seed == old(rng.seed)
    ensures ScaleDrawn(old(rng.history), rng.history, main, mood, mode, scale)
  {
    if mode.ExplicitScale? {
      assert rng.history[|rng.history|..] == [];
      return mode.scale;
    }
    ghost var h0 := rng.history;
    var harmonic, r1 := GuardedChance(rng, IsDark(main, mood), 0.55);
    if harmonic {
      HarmonicRead(h0, r1, rng.history, main, mood, mode);
      return Harmonic;
    }
    ghost var h1 := rng.history;
    var natural, r2 := GuardedChance(rng, IsFloaty(main, mood), 0.45);
    if natural {
      NaturalRead(h0, h1, r1, r2, rng.history, main, mood, mode);
      return Natural;
    }
    ghost var h2 := rng.history;
    var phrygian, r3 := GuardedChance(rng, true, 0.25);
    scale := if phrygian then Phrygian else Natural;
    LastRead(h0, h1, h2, r1, r2, r3, rng.history, main, mood, mode, phrygian);
  }

  /** `guard && chance(rng, p)`: the value is read only when the guard
      holds; `read` is what was read. */
  method GuardedChance(rng: Mulberry32, guard: bool, p: real) returns (hit: bool, ghost read: seq<real>)
    requires rng.Valid()
    modifies rng
    ensures rng.Valid() && rng.seed == old(rng.seed)
    ensures rng.history == old(rng.history) + read && |read| == (if guard then 1 else 0)
    ensures hit <==> guard && read[0] < p
  {
    if guard {
      hit := Chance(rng, p);
      read := [rng.history[|rng.history| - 1]];
      assert rng.history == old(rng.history) + read by {
        assert rng.history == rng.history[..|old(rng.history)|] + read;
      }
    } else {
      hit, read := false, [];
    }
  }

  /** The dark draw `r1` hit: harmonic minor after one value. */
  lemma HarmonicRead(h0: seq<real>, r1: seq<real>, h: seq<real>, main: Artist, mood: Mood, mode: ScaleMode)
    requires mode.AutoScale? && h == h0 + r1 && |r1| == (if IsDark(main, mood) then 1 else 0)
    requires IsDark(main, mood) && r1[0] < 0.55
    ensures ScaleDrawn(h0, h, main, mood, mode, Harmonic)
  {
    assert h[|h0|..] == r1;
  }

  /** The dark draw `r1` (if any) missed and the floaty draw `r2` hit:
      natural minor. */
  lemma NaturalRead(h0: seq<real>, h1: seq<real>, r1: seq<real>, r2: seq<real>, h: seq<real>,
                    main: Artist, mood: Mood, mode: ScaleMode)
    requires mode.AutoScale? && h1 == h0 + r1 && h == h1 + r2
    requires |r1| == (if IsDark(main, mood) then 1 else 0) && |r2| == (if IsFloaty(main, mood) then 1 else 0)
    requires !(IsDark(main, mood) && r1[0] < 0.55)
    requires IsFloaty(main, mood) && r2[0] < 0.45
    ensures ScaleDrawn(h0, h, main, mood, mode, Natural)
  {
    assert h[|h0|..] == r1 + r2;
  }

  /** Neither guarded draw hit: the last draw `r3` picks phrygian when it
      is below 0.25 and natural minor otherwise. */
  lemma LastRead(h0: seq<real>, h1: seq<real>, h2: seq<real>, r1: seq<real>, r2: seq<real>, r3: seq<real>,
                 h: seq<real>, main: Artist, mood: Mood, mode: ScaleMode, phrygian: bool)
    requires mode.AutoScale? && h1 == h0 + r1 && h2 == h1 + r2 && h == h2 + r3
    requires |r1| == (if IsDark(main, mood) then 1 else 0) && |r2| == (if IsFloaty(main, mood) then 1 else 0)
    requires !(IsDark(main, mood) && r1[0] < 0.55) && !(IsFloaty(main, mood) && r2[0] < 0.45)
    requires |r3| == 1 && (phrygian <==> r3[0] < 0.25)
    ensures ScaleDrawn(h0, h, main, mood, mode, if phrygian then Phrygian else Natural)
  {
    assert h[|h0|..] == r1 + r2 + r3;
  }

  /** The history went from `h0` to `h` by reading the values `ScaleOf`
      reads from `h0` on, and `scale` is the scale it picks. */
  predicate ScaleDrawn(h0: seq<real>, h: seq<real>, main: Artist, mood: Mood, mode: ScaleMode, scale: Scale)
  {
    && |h0| <= |h| && h[..|h0|] == h0
    && ScaleOf(h[|h0|..], main, mood, mode) == ScaleChoice(scale, |h| - |h0|)
  }

  /** A scale and the number of values of the stream it was chosen with. */
  datatype ScaleChoice = ScaleChoice(scale: Scale, draws: nat)

  /** `chance(rng, p)` on value `k` of `xs`: a hit when that value is
      below `p`. A value past the end of `xs` counts as a miss. */
  predicate HitAt(xs: seq<real>, k: nat, p: real)
  {
    k < |xs| && xs[k] < p
  }

  /** `resolveScale` on the values `xs` of the stream from the current
      position on: each guarded `chance` reads the next value only when its
      guard holds, so the result names how many values it read. */
  function ScaleOf(xs: seq<real>, main: Artist, mood: Mood, mode: ScaleMode): (r: ScaleChoice)
    ensures mode.ExplicitScale? ==> r == ScaleChoice(mode.scale, 0)
    ensures mode.AutoScale? ==> 1 <= r.draws <= 3
    ensures mode.AutoScale? && r.scale == Harmonic ==> IsDark(main, mood) && r.draws == 1
    ensures mode.AutoScale? && IsDark(main, mood) ==> (r.scale == Harmonic <==> HitAt(xs, 0, 0.55))
    ensures mode.AutoScale? && r.scale == Phrygian ==> HitAt(xs, r.draws - 1, 0.25)
    ensures mode.AutoScale? && !IsDark(main, mood) && !IsFloaty(main, mood) ==> r.draws == 1
    ensures r.draws == 3 <==>
      (mode.AutoScale? && IsDark(main, mood) && IsFloaty(main, mood) && !HitAt(xs, 0, 0.55) && !HitAt(xs, 1, 0.45))
  {
    if mode.ExplicitScale? then ScaleChoice(mode.scale, 0)
    else if IsDark(main, mood) then
      if HitAt(xs, 0, 0.55) then ScaleChoice(Harmonic, 1)
      else if IsFloaty(main, mood) then
        if HitAt(xs, 1, 0.45) then ScaleChoice(Natural, 2) else LastScaleDraw(HitAt(xs, 2, 0.25), 3)
      else LastScaleDraw(HitAt(xs, 1, 0.25), 2)
    else if IsFloaty(main, mood) then
      if HitAt(xs, 0, 0.45) then ScaleChoice(Natural, 1) else LastScaleDraw(HitAt(xs, 1, 0.25), 2)
    else LastScaleDraw(HitAt(xs, 0, 0.25), 1)
  }

  /** The final `chance(rng, 0.25) ? "phrygian" : "natural"`, as draw number `n`. */
  function LastScaleDraw(hit: bool, n: nat): (r: ScaleChoice)
    ensures r.draws == n && (r.scale == Phrygian <==> hit) && r.scale in {Phrygian, Natural}
  {
    ScaleChoice(if hit then Phrygian else Natural, n)
  }

  /** The scale only depends on the values it reads: more values after them
      change nothing. */
  lemma ScaleOfLonger(xs: seq<real>, ys: seq<real>, main: Artist, mood: Mood, mode: ScaleMode)
    requires ScaleOf(xs, main, mood, mode).draws <= |xs| <= |ys| && ys[..|xs|] == xs
    ensures ScaleOf(ys, main, mood, mode) == ScaleOf(xs, main, mood, mode)
  {
    forall k | 0 <= k < |xs|
      ensures ys[k] == xs[k]
    {
      assert ys[..|xs|][k] == ys[k];
    }
  }

  function Sum(w: seq<real>): real
  {
    if w == [] then 0.0 else Sum(w[..|w| - 1]) + w[|w| - 1]
  }

  /** The root weights: 1.0 for every pitch class, raised on A, E and F
      for dark settings and on C#, F# and G# for the three harder artists. */
  function RootWeights(main: Artist, mood: Mood): (w: seq<real>)
    ensures |w| == 12
    ensures forall i :: 0 <= i < 12 ==> 1.0 <= w[i] <= 1.9
  {
    var base := seq(12, _ => 1.0);
    var w1 := if IsDark(main, mood) then base[9 := 1.9][4 := 1.6][5 := 1.5] else base;
    if main == KenCarson || main == EsdeeKid || main == FimiGuerrero
    then w1[1 := w1[1] + 0.4][6 := w1[6] + 0.35][8 := w1[8] + 0.25]
    else w1
  }

  /** The running weight up to and including index `j`. */
  function Running(w: seq<real>, j: int): real
    requires 0 <= j < |w|
  {
    Sum(w[..j + 1])
  }

  /** Index `i` is where the draw `x`, scaled by the total weight, first
      falls within the running weight. */
  predicate WeightedPick(w: seq<real>, x: real, i: int)
    requires 0 <= i < |w|
  {
    var r := x * Sum(w);
    && r <= Running(w, i)
    && forall j :: 0 <= j < i ==> Running(w, j) < r
  }

  /** The loop of `resolveRoot`: subtract the weights from `r0` one by one
      and stop at the first index where the remainder is at most 0;
      0 when none is reached. */
  method PickWeighted(w: seq<real>, r0: real) returns (i: nat)
    ensures i == 0 || i < |w|
    ensures |w| > 0 ==> i < |w|
    ensures forall j :: 0 <= j < i ==> Running(w, j) < r0
    ensures (i < |w| && r0 <= Running(w, i)) || (i == 0 && forall j :: 0 <= j < |w| ==> Running(w, j) < r0)
  {
    var r := r0;
    var k := 0;
    while k < |w|
      invariant 0 <= k <= |w|
      invariant r == r0 - Sum(w[..k])
      invariant forall j :: 0 <= j < k ==> Running(w, j) < r0
    {
      assert w[..k + 1][..k] == w[..k];
      r := r - w[k];
      if r <= 0.0 {
        return k;
      }
      k := k + 1;
    }
    return 0;
  }

  /** `resolveRoot`: a picked key is returned as is; otherwise one draw
      scaled by the total weight selects the first pitch class whose
      running weight reaches it (the fallback 0 is never taken). */
  method ResolveRoot(rng: Mulberry32, main: Artist, mood: Mood, mode: KeyMode) returns (root: PitchClass)
    requires rng.Valid()
    modifies rng
    ensures rng.Valid() && rng.seed == old(rng.seed)
    ensures mode.PickKey? ==> root == mode.pc && rng.history == old(rng.history)
    ensures mode.AutoKey? ==> Drew(old(rng.history), rng.history, 1)
    ensures mode.AutoKey? ==>
      WeightedPick(RootWeights(main, mood), rng.history[|old(rng.history)|], root)
  {
    if mode.PickKey? {
      root := mode.pc;
    } else {
      root := PickRoot(rng, RootWeights(main, mood));
    }
  }

  /** The weighted draw of `resolveRoot` over twelve weights of at least 1. */
  method PickRoot(rng: Mulberry32, w: seq<real>) returns (root: PitchClass)
    requires rng.Valid() && |w| == 12
    requires forall i :: 0 <= i < |w| ==> w[i] >= 1.0
    modifies rng
    ensures rng.Valid() && rng.seed == old(rng.seed) && Drew(old(rng.history), rng.history, 1)
    ensures WeightedPick(w, rng.history[|old(rng.history)|], root)
  {
    var x := rng.Next();
    var total := Sum(w);
    PositiveSum(w);
    var r := x * total;
    assert r < total by {
      assert (1.0 - x) * total > 0.0;
    }
    var i := PickWeighted(w, r);
    assert w[..12] == w;
    assert Running(w, 11) == total;
    root := i;
  }

  lemma {:induction false} PositiveSum(w: seq<real>)
    requires forall i :: 0 <= i < |w| ==> w[i] >= 1.0
    ensures Sum(w) >= |w| as real
  {
    if w != [] {
      PositiveSum(w[..|w| - 1]);
    }
  }

  // ---------------------------------------------------------------- density

  /** The density one section writes for bar `b`: its intensity plus a
      ramp of up to 0.04 across the section, clamped to [0.12, 0.98]. */
  function Ramp(s: Section, b: int): (r: real)
    ensures 0.12 <= r <= 0.98
  {
    var t := if s.bars <= 1 then 0.0 else (b - s.startBar) as real / (s.bars - 1) as real;
    Clamp(s.intensity + t * 0.04, 0.12, 0.98)
  }

  /** What the density loop leaves in bar `b`: the value written by the
      last section covering it, or the initial 0.7. */
  function DensityAt(secs: seq<Section>, b: int): (r: real)
    ensures 0.12 <= r <= 0.98
  {
    if secs == [] then 0.7
    else if Covers(secs[|secs| - 1], b) then Ramp(secs[|secs| - 1], b)
    else DensityAt(secs[..|secs| - 1], b)
  }

  /** The density curve: fill with 0.7, then let every section write its
      ramp over the bars it covers that exist. */
  method DensityCurve(sections: seq<Section>, bars: nat) returns (curve: seq<real>)
    ensures |curve| == bars
    ensures forall b :: 0 <= b < bars ==> curve[b] == DensityAt(sections, b)
  {
    var a := new real[bars](_ => 0.7);
    for k := 0 to |sections|
      invariant forall b :: 0 <= b < bars ==> a[b] == DensityAt(sections[..k], b)
    {
      var s := sections[k];
      assert sections[..k + 1][..k] == sections[..k];
      for i := 0 to s.bars
        invariant forall b :: 0 <= b < bars ==>
          a[b] == if s.startBar <= b < s.startBar + i then Ramp(s, b) else DensityAt(sections[..k], b)
      {
        var b := s.startBar + i;
        if b < bars {
          var t := if s.bars <= 1 then 0.0 else i as real / (s.bars - 1) as real;
          a[b] := Clamp(s.intensity + t * 0.04, 0.12, 0.98);
        }
      }
    }
    assert sections[..|sections|] == sections;
    curve := a[..];
  }

  /** When bar `b` is covered by exactly one section, its density is that
      section's ramp. */
  lemma {:induction false} DensityOfOnlyCover(secs: seq<Section>, b: int, i: nat)
    requires i < |secs| && Covers(secs[i], b)
    requires forall j :: 0 <= j < |secs| && Covers(secs[j], b) ==> j == i
    ensures DensityAt(secs, b) == Ramp(secs[i], b)
  {
    if i < |secs| - 1 {
      var v := secs[..|secs| - 1];
      assert v[i] == secs[i];
      DensityOfOnlyCover(v, b, i);
    }
  }

  /** For a tiling (every table entry of 1-4, 8 or 16 bars), each bar's
      density is `clamp(intensity + 0.04*i/(len-1), 0.12, 0.98)` of the
      section that `find` selects for it. */
  lemma DensityOfTiling(secs: seq<Section>, bars: nat, b: int)
    requires Tiles(secs, bars) && 0 <= b < bars
    ensures FindFrom(secs, b, 0) >= 0
    ensures DensityAt(secs, b) == Ramp(secs[FindFrom(secs, b, 0)], b)
  {
    TilesCoverOnce(secs, bars, b);
    DensityOfOnlyCover(secs, b, FindFrom(secs, b, 0));
  }

  // ---------------------------------------------------------------- layers

  predicate Introish(name: string) { name == "INTRO" || name == "BUILD" }
  predicate Breakish(name: string) { name == "BREAK" }

  /** The layer rule of one bar, given the outcomes of its pad and bell
      draws: density thresholds, section exceptions, then the per-artist
      overrides of BLADEE, 2HOLLIS and FENG. */
  function LayerFlags(main: Artist, name: string, d: real, padHit: bool, bellHit: bool): (l: Layers)
    ensures l.section == name
    ensures Introish(name) ==> !l.kick
    ensures Breakish(name) ==> !l.snare && !l.bass && !l.bell
    ensures Introish(name) || Breakish(name) || main in {Bladee, TwoHollis, Feng} ==> l.pad
    ensures l.pad <== padHit
    ensures l.bell ==> bellHit
  {
    var intro := Introish(name);
    var brk := Breakish(name);
    var kick := d > 0.50 && !intro && !brk;
    var snare := d > 0.35 && !brk;
    var hats := d > 0.25 && !brk;
    var bass := d > 0.45 && !intro && !brk;
    var lead := d > 0.22;
    var pad := padHit || intro || brk;
    var bell := bellHit && !brk;
    match main
    case Bladee =>
      Layers(if intro then false else kick, snare, hats, if intro then false else bass, true, true, bell, name)
    case TwoHollis =>
      Layers(d > 0.58 && !intro, snare, hats, bass, lead, true, bell, name)
    case Feng =>
      Layers(if intro then false else kick, snare, d > 0.58, if intro then false else bass, lead, true, bell, name)
    case _ =>
      Layers(kick, snare, hats, bass, lead, pad, bell, name)
  }

  /** Every flag except pad and bell is fixed by artist, section and
      density; pad and bell follow their own rule. So a bar's flags can be
      checked without knowing the draws. */
  predicate FollowsLayerRule(main: Artist, name: string, d: real, l: Layers)
  {
    l == LayerFlags(main, name, d, l.pad, l.bell)
  }

  lemma LayerFlagsFollowRule(main: Artist, name: string, d: real, padHit: bool, bellHit: bool)
    ensures FollowsLayerRule(main, name, d, LayerFlags(main, name, d, padHit, bellHit))
  {
  }

  /** Each of the first `bars` bars has the layers of the layer rule, with
      the pad outcome of value `pos + 2b` of `xs` and the bell outcome of
      value `pos + 2b + 1`. */
  predicate BarsDrawn(main: Artist, sections: seq<Section>, density: seq<real>, layers: seq<Layers>,
                      xs: seq<real>, pos: nat, bars: nat)
    requires |sections| > 0
  {
    && bars <= |density| && bars <= |layers| && pos + 2 * bars <= |xs|
    && forall b :: 0 <= b < bars ==>
      layers[b] == LayerFlags(main, SectionOf(sections, b).name, density[b],
                              xs[pos + 2 * b] < Priors(main).padChance,
                              xs[pos + 2 * b + 1] < Priors(main).bellChance)
  }

  /** The layer schedule: two draws per bar, the pad draw then the bell
      draw, each taken unconditionally. */
  method LayerSchedule(rng: Mulberry32, main: Artist, sections: seq<Section>, density: seq<real>)
    returns (layers: seq<Layers>)
    requires rng.Valid() && |sections| > 0
    modifies rng
    ensures rng.Valid() && rng.seed == old(rng.seed) && Drew(old(rng.history), rng.history, 2 * |density|)
    ensures |layers| == |density|
    ensures BarsDrawn(main, sections, density, layers, rng.history, |old(rng.history)|, |density|)
  {
    var pri := Priors(main);
    layers := [];
    for b := 0 to |density|
      invariant rng.Valid() && rng.seed == old(rng.seed) && Drew(old(rng.history), rng.history, 2 * b)
      invariant |layers| == b
      invariant forall c :: 0 <= c < b ==>
        layers[c] == LayerFlags(main, SectionOf(sections, c).name, density[c],
                                rng.history[|old(rng.history)| + 2 * c] < pri.padChance,
                                rng.history[|old(rng.history)| + 2 * c + 1] < pri.bellChance)
    {
      var sec := SectionOf(sections, b);
      var padHit := Chance(rng, pri.padChance);
      var bellHit := Chance(rng, pri.bellChance);
      layers := layers + [LayerFlags(main, sec.name, density[b], padHit, bellHit)];
    }
  }

  // ---------------------------------------------------------------- stop

  /** The artist's stop probability, raised by 0.15 for HIT_STOP. */
  function StopProb(main: Artist, mood: Mood): (p: real)
    ensures 0.05 <= p <= 0.85
  {
    Clamp(Priors(main).stopProb + (if mood == HitStop then 0.15 else 0.0), 0.05, 0.85)
  }

  /** The muted length of a stop, in beats. */
  function StopBeats(mood: Mood): real
  {
    if mood == HitStop then 1.0 else 0.5
  }

  /** One draw decides whether the song has a stop; a stop always falls in
      bar min(8, bars). */
  method StopPolicy(rng: Mulberry32, main: Artist, mood: Mood, bars: nat) returns (stop: Option<Stop>)
    requires rng.Valid()
    modifies rng
    ensures rng.Valid() && rng.seed == old(rng.seed) && Drew(old(rng.history), rng.history, 1)
    ensures stop.Some? <==> rng.history[|old(rng.history)|] < StopProb(main, mood)
    ensures stop.Some? ==> stop.value.bar == (if bars < 8 then bars else 8)
    ensures stop.Some? ==> stop.value.beats == (if mood == HitStop then 1.0 else 0.5)
  {
    var hit := Chance(rng, StopProb(main, mood));
    stop := if hit then Some(Stop(if bars < 8 then bars else 8, StopBeats(mood))) else None;
  }

  // ---------------------------------------------------------------- plan

  /** The per-bar part of the plan: the density curve, then the layer
      schedule with its two draws per bar. */
  method PlanBars(rng: Mulberry32, main: Artist, sections: seq<Section>, bars: nat)
    returns (density: seq<real>, layers: seq<Layers>)
    requires rng.Valid() && |sections| > 0
    modifies rng
    ensures rng.Valid() && rng.seed == old(rng.seed) && Drew(old(rng.history), rng.history, 2 * bars)
    ensures |density| == bars && |layers| == bars
    ensures forall b :: 0 <= b < bars ==>
      density[b] == DensityAt(sections, b) && 0.12 <= density[b] <= 0.98
    ensures BarsDrawn(main, sections, density, layers, rng.history, |old(rng.history)|, bars)
    ensures forall b :: 0 <= b < bars ==>
      layers[b].section == SectionOf(sections, b).name
      && FollowsLayerRule(main, layers[b].section, density[b], layers[b])
  {
    density := DensityCurve(sections, bars);
    ghost var before := |rng.history|;
    layers := LayerSchedule(rng, main, sections, density);
    forall b | 0 <= b < bars
      ensures FollowsLayerRule(main, layers[b].section, density[b], layers[b])
    {
      LayerFlagsFollowRule(main, SectionOf(sections, b).name, density[b],
        rng.history[before + 2 * b] < Priors(main).padChance,
        rng.history[before + 2 * b + 1] < Priors(main).bellChance);
    }
  }

  /** How many values `resolveRoot` reads: one, unless the key is picked. */
  function KeyDraws(mode: KeyMode): nat
  {
    if mode.AutoKey? then 1 else 0
  }

  /** Where the root's value sits in the planner's stream `xs`: after the
      tempo's value and the values the scale read. */
  function RootPos(xs: seq<real>, cfg: Config): nat
    requires |xs| >= 1 && |cfg.artists| > 0
  {
    1 + ScaleOf(xs[1..], cfg.artists[0], cfg.mood, cfg.scaleMode).draws
  }

  /** Where the per-bar pad and bell values start in the planner's stream. */
  function LayerPos(xs: seq<real>, cfg: Config): nat
    requires |xs| >= 1 && |cfg.artists| > 0
  {
    RootPos(xs, cfg) + KeyDraws(cfg.keyMode)
  }

  /** `planBeat`: the planner's stream is seeded with the seed itself and
      read in a fixed order: tempo, scale, root, two draws per bar, stop.
      `xs` are the values it reads, value `i` of the seed's stream each. */
  method PlanBeat(seed: bv32, cfg: Config) returns (plan: Plan, ghost xs: seq<real>)
    requires |cfg.artists| > 0
    ensures PlanShaped(plan)
    ensures plan.seed == seed && plan.mainArtist == cfg.artists[0] && plan.artists == cfg.artists
    ensures plan.mood == cfg.mood && plan.bars == cfg.bars && plan.sketch == cfg.sketch
    ensures forall i {:trigger Draw(seed, i)} :: 0 <= i < |xs| ==> xs[i] == Draw(seed, i)
    ensures |xs| >= 1 && |xs| == LayerPos(xs, cfg) + 2 * cfg.bars + 1
    ensures 60 <= plan.bpm <= 220
    ensures cfg.bpmMode.ArtistTempo? ==>
      plan.bpm == Round(Lerp(Priors(plan.mainArtist).tempoLo as real, Priors(plan.mainArtist).tempoHi as real, xs[0]))
      && Priors(plan.mainArtist).tempoLo <= plan.bpm <= Priors(plan.mainArtist).tempoHi
    ensures cfg.bpmMode.FixedTempo? ==> plan.bpm == ClampInt(cfg.bpmMode.fixedValue, 60, 220)
    ensures cfg.bpmMode.ManualTempo? ==> plan.bpm == ClampInt(cfg.bpmMode.manualValue, 60, 220)
    ensures plan.scale == ScaleOf(xs[1..], plan.mainArtist, cfg.mood, cfg.scaleMode).scale
    ensures cfg.scaleMode.ExplicitScale? ==> plan.scale == cfg.scaleMode.scale
    ensures cfg.scaleMode.AutoScale? && plan.scale == Harmonic ==> IsDark(plan.mainArtist, cfg.mood)
    ensures cfg.keyMode.PickKey? ==> plan.root == cfg.keyMode.pc
    ensures cfg.keyMode.AutoKey? ==>
      WeightedPick(RootWeights(plan.mainArtist, cfg.mood), xs[RootPos(xs, cfg)], plan.root)
    ensures plan.sections == BuildSketchSections(cfg.sketch, cfg.bars)
    ensures forall b :: 0 <= b < cfg.bars ==>
      plan.density[b] == DensityAt(plan.sections, b) && 0.12 <= plan.density[b] <= 0.98
    ensures BarsDrawn(plan.mainArtist, plan.sections, plan.density, plan.layers, xs, LayerPos(xs, cfg), cfg.bars)
    ensures forall b :: 0 <= b < cfg.bars ==>
      plan.layers[b].section == SectionOf(plan.sections, b).name
      && FollowsLayerRule(plan.mainArtist, plan.layers[b].section, plan.density[b], plan.layers[b])
    ensures plan.stop.Some? <==> xs[LayerPos(xs, cfg) + 2 * cfg.bars] < StopProb(plan.mainArtist, cfg.mood)
    ensures plan.stop.Some? ==>
      plan.stop.value == Stop(if cfg.bars < 8 then cfg.bars else 8, StopBeats(cfg.mood))
  {
    var rng := new Mulberry32(seed);
    var main := cfg.artists[0];
    var bpm := ResolveBpm(rng, main, cfg.bpmMode);
    ghost var h1 := rng.history;
    var scale := ResolveScale(rng, main, cfg.mood, cfg.scaleMode);
    ghost var h2 := rng.history;
    var root := ResolveRoot(rng, main, cfg.mood, cfg.keyMode);
    ghost var h3 := rng.history;
    var sections := BuildSketchSections(cfg.sketch, cfg.bars);
    var density, layers := PlanBars(rng, main, sections, cfg.bars);
    ghost var h4 := rng.history;
    var stop := StopPolicy(rng, main, cfg.mood, cfg.bars);
    xs := rng.history;
    plan := Plan(seed, main, cfg.artists, cfg.mood, bpm, root, scale, sections, density, layers,
                 stop, cfg.bars, cfg.sketch);
    PlanTies(plan, xs, h1, h2, h3, h4, cfg);
  }

  /** The draw ties of `planBeat`, moved from the histories after each step
      to the planner's final history `xs`. */
  lemma PlanTies(plan: Plan, xs: seq<real>, h1: seq<real>, h2: seq<real>, h3: seq<real>, h4: seq<real>, cfg: Config)
    requires |cfg.artists| > 0 && plan.mainArtist == cfg.artists[0] && |plan.sections| > 0
    requires |h1| == 1 && ScaleDrawn(h1, h2, plan.mainArtist, cfg.mood, cfg.scaleMode, plan.scale)
    requires Drew(h2, h3, KeyDraws(cfg.keyMode))
    requires Drew(h3, h4, 2 * cfg.bars) && Drew(h4, xs, 1)
    requires cfg.bpmMode.ArtistTempo? ==>
      plan.bpm == Round(Lerp(Priors(plan.mainArtist).tempoLo as real, Priors(plan.mainArtist).tempoHi as real, h1[0]))
    requires cfg.keyMode.AutoKey? ==> WeightedPick(RootWeights(plan.mainArtist, cfg.mood), h3[|h2|], plan.root)
    requires BarsDrawn(plan.mainArtist, plan.sections, plan.density, plan.layers, h4, |h3|, cfg.bars)
    requires plan.stop.Some? <==> xs[|h4|] < StopProb(plan.mainArtist, cfg.mood)
    ensures |xs| >= 1 && |xs| == LayerPos(xs, cfg) + 2 * cfg.bars + 1
    ensures cfg.bpmMode.ArtistTempo? ==>
      plan.bpm == Round(Lerp(Priors(plan.mainArtist).tempoLo as real, Priors(plan.mainArtist).tempoHi as real, xs[0]))
    ensures plan.scale == ScaleOf(xs[1..], plan.mainArtist, cfg.mood, cfg.scaleMode).scale
    ensures cfg.keyMode.AutoKey? ==>
      WeightedPick(RootWeights(plan.mainArtist, cfg.mood), xs[RootPos(xs, cfg)], plan.root)
    ensures BarsDrawn(plan.mainArtist, plan.sections, plan.density, plan.layers, xs, LayerPos(xs, cfg), cfg.bars)
    ensures plan.stop.Some? <==> xs[LayerPos(xs, cfg) + 2 * cfg.bars] < StopProb(plan.mainArtist, cfg.mood)
  {
    PlanStream(xs, h1, h2, h3, h4, cfg);
    LayersFromStream(plan.layers, plan.mainArtist, plan.sections, plan.density, h4, xs, |h3|, LayerPos(xs, cfg), cfg.bars);
    if cfg.keyMode.AutoKey? {
      assert xs[RootPos(xs, cfg)] == h3[|h2|];
    }
  }

  /** The pad and bell flags read at `off` in `h` are the ones read at
      `pos` in `xs` when the two streams agree there. */
  lemma LayersFromStream(layers: seq<Layers>, main: Artist, sections: seq<Section>, density: seq<real>,
                         h: seq<real>, xs: seq<real>, off: nat, pos: nat, bars: nat)
    requires pos == off && |sections| > 0 && off + 2 * bars <= |xs| && off + 2 * bars <= |h|
    requires forall i :: off <= i < off + 2 * bars ==> xs[i] == h[i]
    requires BarsDrawn(main, sections, density, layers, h, off, bars)
    ensures BarsDrawn(main, sections, density, layers, xs, pos, bars)
  {
    forall b | 0 <= b < bars
      ensures xs[pos + 2 * b] == h[off + 2 * b] && xs[pos + 2 * b + 1] == h[off + 2 * b + 1]
    {
    }
  }

  /** The planner's histories after the tempo, the scale, the root and the
      bars are prefixes of its final history, at the positions counted from
      the values each step read. */
  lemma PlanStream(xs: seq<real>, h1: seq<real>, h2: seq<real>, h3: seq<real>, h4: seq<real>, cfg: Config)
    requires |cfg.artists| > 0
    requires |h1| == 1 && |h2| >= 1
    requires Drew(h1, h2, |h2| - 1) && ScaleOf(h2[1..], cfg.artists[0], cfg.mood, cfg.scaleMode).draws == |h2| - 1
    requires Drew(h2, h3, KeyDraws(cfg.keyMode))
    requires Drew(h3, h4, 2 * cfg.bars) && Drew(h4, xs, 1)
    ensures |xs| >= 1 && xs[0] == h1[0]
    ensures ScaleOf(xs[1..], cfg.artists[0], cfg.mood, cfg.scaleMode) == ScaleOf(h2[1..], cfg.artists[0], cfg.mood, cfg.scaleMode)
    ensures RootPos(xs, cfg) == |h2| && LayerPos(xs, cfg) == |h3|
    ensures cfg.keyMode.AutoKey? ==> xs[|h2|] == h3[|h2|]
    ensures forall i :: |h3| <= i < |h3| + 2 * cfg.bars ==> xs[i] == h4[i]
    ensures |xs| == |h4| + 1 == LayerPos(xs, cfg) + 2 * cfg.bars + 1
  {
    assert xs[..|h4|] == h4;
    assert h4[..|h3|] == h3 && h3[..|h2|] == h2 && h2[..1] == h1;
    assert xs[0] == h4[0] == h3[0] == h2[0] == h1[0];
    var a, b := h2[1..], xs[1..];
    assert b[..|a|] == a by {
      forall k | 0 <= k < |a|
        ensures b[..|a|][k] == a[k]
      {
        assert xs[1 + k] == h4[1 + k] == h3[1 + k] == h2[1 + k];
      }
    }
    ScaleOfLonger(a, b, cfg.artists[0], cfg.mood, cfg.scaleMode);
    if cfg.keyMode.AutoKey? {
      assert xs[|h2|] == h4[|h2|] == h3[|h2|];
    }
    forall i | |h3| <= i < |h3| + 2 * cfg.bars
      ensures xs[i] == h4[i]
    {
      assert xs[..|h4|][i] == xs[i];
    }
  }
}
