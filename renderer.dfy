/** The renderer `buildSong`: it turns a plan into seven per-instrument
    event lists, drawing from its own seeded stream, and sorts each list
    by start tick. */
module Renderer {
  import opened Rng
  import opened Style
  import opened Sections
  import opened Planner
  import opened Sorting

  // General-MIDI drum notes used by the drum tracks.
  const KickNote: int := 36
  const SnareNote: int := 38
  const ClapNote: int := 39
  const HatNote: int := 42

  datatype Kind = Note | Drum

  /** One sounding event: start tick, duration in ticks, pitch, velocity. */
  datatype Event = Event(t: int, d: int, n: int, v: int, kind: Kind)

  datatype TrackId = Pad | Lead | Bell | Bass | KickTrack | SnareTrack | Hats

  /** The song the renderer returns: the plan's identity fields and the tracks. */
  datatype Song = Song(
    seed: bv32, bpm: int, root: PitchClass, scale: Scale, bars: nat, sketch: Sketch,
    mood: Mood, artists: seq<Artist>, mainArtist: Artist, plan: Plan,
    tracks: Tracks)

  /** The object `{ PAD: [], LEAD: [], ... }` with its seven fixed keys. */
  datatype Tracks = Tracks(pad: seq<Event>, lead: seq<Event>, bell: seq<Event>, bass: seq<Event>,
                           kick: seq<Event>, snare: seq<Event>, hats: seq<Event>)

  /** `tracks[key]`. */
  function Get(ts: Tracks, id: TrackId): seq<Event>
  {
    match id
    case Pad => ts.pad
    case Lead => ts.lead
    case Bell => ts.bell
    case Bass => ts.bass
    case KickTrack => ts.kick
    case SnareTrack => ts.snare
    case Hats => ts.hats
  }

  /** `addNote`: the duration is at least one tick. */
  function NoteEvent(t: int, d: int, n: int, v: int): (e: Event)
    ensures e.d >= 1 && (d >= 1 ==> e.d == d)
    ensures e.t == t && e.n == n && e.v == v && e.kind == Note
  {
    Event(t, if d < 1 then 1 else d, n, v, Note)
  }

  /** `addDrum`: the same, for a drum hit. */
  function DrumEvent(t: int, d: int, n: int, v: int): (e: Event)
    ensures e.d >= 1 && (d >= 1 ==> e.d == d)
    ensures e.t == t && e.n == n && e.v == v && e.kind == Drum
  {
    Event(t, if d < 1 then 1 else d, n, v, Drum)
  }

  function StartTick(e: Event): int { e.t }

  /** A well-formed MIDI event: positive length, 7-bit pitch, audible 7-bit velocity. */
  predicate WellFormed(e: Event)
  {
    e.d >= 1 && 0 <= e.n <= 127 && 1 <= e.v <= 127
  }

  /** The per-bar stop test: on the stop bar, nothing starts before `t0 + stopTicks`. */
  predicate Muted(stopHere: bool, stopTicks: int, t0: int, tt: int)
  {
    stopHere && tt < t0 + stopTicks
  }

  /** An event that starts inside the bar at `t0` and is not silenced by the stop. */
  predicate InBarUnmuted(e: Event, t0: int, stopHere: bool, stopTicks: int)
  {
    t0 <= e.t < t0 + Bar && !Muted(stopHere, stopTicks, t0, e.t)
  }

  // ------------------------------------------------------------ the stop

  /** The length of the stop in ticks: `Math.round(beats * 480)`. */
  function StopTicks(s: Stop): (r: int)
    ensures s.beats == 0.5 ==> r == Beat / 2
    ensures s.beats == 1.0 ==> r == Beat
  {
    Round(s.beats * (Beat as real))
  }

  /** Bar `stop.bar` (counting from 1) is the stop bar. */
  predicate StopHere(plan: Plan, bar: int)
  {
    plan.stop.Some? && plan.stop.value.bar == bar + 1
  }

  /** `stopTicks` of bar `bar`: the stop's length on the stop bar, 0 elsewhere. */
  function StopTicksAt(plan: Plan, bar: int): int
  {
    if StopHere(plan, bar) then StopTicks(plan.stop.value) else 0
  }

  /** Ticks `t` lies in the silent window at the start of the stop bar. */
  predicate InStopWindow(plan: Plan, t: int)
  {
    plan.stop.Some? &&
    var lo := (plan.stop.value.bar - 1) * Bar;
    lo <= t < lo + StopTicks(plan.stop.value)
  }

  /** What an event placed by bar `bar`'s own stop test means for the whole
      song: it lies in bar `bar` and outside the stop window. */
  lemma InBarOutsideWindow(plan: Plan, bar: nat, e: Event, stopHere: bool, stopTicks: int)
    requires PlanShaped(plan) && bar < plan.bars
    requires stopHere == StopHere(plan, bar) && stopTicks == StopTicksAt(plan, bar)
    requires InBarUnmuted(e, bar * Bar, stopHere, stopTicks)
    ensures 0 <= e.t < plan.bars * Bar && e.t / Bar == bar
    ensures !InStopWindow(plan, e.t)
  {
    if plan.stop.Some? {
      var sb := plan.stop.value.bar - 1;
      assert 0 <= StopTicks(plan.stop.value) <= Beat;
      if sb < bar {
        assert (sb + 1) * Bar <= bar * Bar;
      } else if sb > bar {
        assert (bar + 1) * Bar <= sb * Bar;
      }
    }
  }

  // ------------------------------------------------------------ kick cells

  /** The tick offsets of the hits of a 16-step cell, from step `i` on.
      Steps past the end of the string are rests. */
  function OffsetsFrom(p: string, i: nat): (r: seq<int>)
    ensures forall j :: 0 <= j < |r| ==> i * Sixteenth <= r[j] < Bar && r[j] % Sixteenth == 0
    ensures forall j, k :: 0 <= j < k < |r| ==> r[j] < r[k]
    decreases 16 - i
  {
    if i >= 16 then []
    else
      var rest := OffsetsFrom(p, i + 1);
      if i < |p| && p[i] == 'x' then
        assert (i * Sixteenth) / Sixteenth == i;
        [i * Sixteenth] + rest
      else rest
  }

  /** Hit offsets of one bar: inside the bar and strictly increasing. */
  predicate IsOffsets(offsets: seq<int>)
  {
    && (forall j :: 0 <= j < |offsets| ==> 0 <= offsets[j] < Bar)
    && (forall j, k :: 0 <= j < k < |offsets| ==> offsets[j] < offsets[k])
  }

  /** The offsets from step `i` on are exactly the `x` steps from `i` on:
      each names an `x` step, and each `x` step is there. */
  lemma {:induction false} OffsetsFromHits(p: string, i: nat)
    ensures forall j :: 0 <= j < |OffsetsFrom(p, i)| ==>
      OffsetsFrom(p, i)[j] / Sixteenth < |p| && p[OffsetsFrom(p, i)[j] / Sixteenth] == 'x'
    ensures forall s :: i <= s < 16 && s < |p| && p[s] == 'x' ==> s * Sixteenth in OffsetsFrom(p, i)
    decreases 16 - i
  {
    if i < 16 {
      OffsetsFromHits(p, i + 1);
      var rest := OffsetsFrom(p, i + 1);
      if i < |p| && p[i] == 'x' {
        var r := OffsetsFrom(p, i);
        assert (i * Sixteenth) / Sixteenth == i;
        assert r == [i * Sixteenth] + rest;
        forall j | 0 <= j < |r| ensures r[j] / Sixteenth < |p| && p[r[j] / Sixteenth] == 'x' {
          if j > 0 { assert r[j] == rest[j - 1]; }
        }
        forall s | i <= s < 16 && s < |p| && p[s] == 'x' ensures s * Sixteenth in r {
          if s > i { assert s * Sixteenth in rest; }
        }
      } else {
        assert OffsetsFrom(p, i) == rest;
      }
    }
  }

  /** The offsets of all hits of a cell. */
  function PatternOffsets(p: string): seq<int>
  {
    OffsetsFrom(p, 0)
  }

  /** `stepsToOffsets`: the loop over the sixteen steps. */
  method StepsToOffsets(pattern: string) returns (out: seq<int>)
    ensures out == PatternOffsets(pattern)
  {
    out := [];
    for i := 0 to 16
      invariant out + OffsetsFrom(pattern, i) == PatternOffsets(pattern)
    {
      OffsetsStep(pattern, i, out);
      if i < |pattern| && pattern[i] == 'x' {
        out := out + [i * Sixteenth];
      }
    }
  }

  /** One step of `stepsToOffsets`: step `i` moves from the rest of the
      cell to the offsets found so far. */
  lemma OffsetsStep(p: string, i: nat, out: seq<int>)
    requires i < 16
    ensures out + OffsetsFrom(p, i)
      == (if i < |p| && p[i] == 'x' then out + [i * Sixteenth] else out) + OffsetsFrom(p, i + 1)
  {
    if i < |p| && p[i] == 'x' {
      assert out + ([i * Sixteenth] + OffsetsFrom(p, i + 1)) == (out + [i * Sixteenth]) + OffsetsFrom(p, i + 1);
    }
  }

  /** Every legal cell starts with a hit on the downbeat. */
  lemma CellStartsOnDownbeat(p: string)
    requires IsCell(p)
    ensures |PatternOffsets(p)| > 0 && PatternOffsets(p)[0] == 0
  {
    var r := PatternOffsets(p);
    assert 0 * Sixteenth in r;
  }

  predicate IsKickHit(e: Event)
  {
    e.d == Sixteenth && e.n == KickNote && e.v == 120 && e.kind == Drum
  }

  /** The kick hits of one bar from offset number `i` on: one drum event
      per offset that the stop does not silence. */
  function KickFrom(t0: int, offsets: seq<int>, i: nat, stopHere: bool, stopTicks: int): (r: seq<Event>)
    requires i <= |offsets|
    requires IsOffsets(offsets)
    ensures forall j :: 0 <= j < |r| ==> IsKickHit(r[j]) && InBarUnmuted(r[j], t0, stopHere, stopTicks)
    ensures forall j :: 0 <= j < |r| ==> i < |offsets| && t0 + offsets[i] <= r[j].t
    ensures SortedBy(r, StartTick)
    decreases |offsets| - i
  {
    if i == |offsets| then []
    else
      var rest := KickFrom(t0, offsets, i + 1, stopHere, stopTicks);
      var tt := t0 + offsets[i];
      if Muted(stopHere, stopTicks, t0, tt) then rest
      else [DrumEvent(tt, Sixteenth, KickNote, 120)] + rest
  }

  /** The kick hits of one bar. */
  function KickBar(t0: int, offsets: seq<int>, stopHere: bool, stopTicks: int): (r: seq<Event>)
    requires IsOffsets(offsets)
  {
    KickFrom(t0, offsets, 0, stopHere, stopTicks)
  }

  /** The kick loop of one bar. */
  method EmitKick(t0: int, offsets: seq<int>, stopHere: bool, stopTicks: int) returns (evs: seq<Event>)
    requires IsOffsets(offsets)
    ensures evs == KickBar(t0, offsets, stopHere, stopTicks)
  {
    evs := [];
    for i := 0 to |offsets|
      invariant evs + KickFrom(t0, offsets, i, stopHere, stopTicks) == KickBar(t0, offsets, stopHere, stopTicks)
    {
      var tt := t0 + offsets[i];
      ghost var rest := KickFrom(t0, offsets, i + 1, stopHere, stopTicks);
      if stopHere && tt < t0 + stopTicks {
        assert KickFrom(t0, offsets, i, stopHere, stopTicks) == rest;
        continue;
      }
      var e := DrumEvent(tt, Sixteenth, KickNote, 120);
      assert KickFrom(t0, offsets, i, stopHere, stopTicks) == [e] + rest;
      assert (evs + [e]) + rest == evs + ([e] + rest);
      evs := evs + [e];
    }
  }

  /** Every section name of the plan has a stored kick cell. */
  predicate AllNamed(plan: Plan, kicks: map<string, string>)
  {
    forall b :: 0 <= b < |plan.layers| ==> plan.layers[b].section in kicks
  }

  /** The kick hits of bar `b` when its section has a stored cell. */
  function KickBarOf(plan: Plan, kicks: map<string, string>, b: nat): (r: seq<Event>)
    requires b < |plan.layers| && plan.layers[b].section in kicks
    ensures forall j :: 0 <= j < |r| ==> b * Bar <= r[j].t < b * Bar + Bar
    ensures SortedBy(r, StartTick)
  {
    var l := plan.layers[b];
    if l.kick then KickBar(b * Bar, PatternOffsets(kicks[l.section]), StopHere(plan, b), StopTicksAt(plan, b))
    else []
  }

  /** The kick track of the first `n` bars when every bar's section has a
      stored cell: bar `b` plays its section's cell if its kick layer is on. */
  function KickTrackOf(plan: Plan, kicks: map<string, string>, n: nat): (r: seq<Event>)
    requires n <= |plan.layers| && AllNamed(plan, kicks)
    ensures forall j :: 0 <= j < |r| ==> 0 <= r[j].t < n * Bar
    ensures SortedBy(r, StartTick)
  {
    if n == 0 then []
    else KickTrackOf(plan, kicks, n - 1) + KickBarOf(plan, kicks, n - 1)
  }

  // ------------------------------------------------------- section kicks

  /** `pickKickPattern`: one draw picks one of the artist's three cells
      (`floor(x * 3)`, which is `RandInt(x, 0, 2)`). */
  method PickKickPattern(rng: Mulberry32, main: Artist) returns (p: string)
    requires rng.Valid()
    modifies rng
    ensures rng.Valid() && rng.seed == old(rng.seed) && Drew(old(rng.history), rng.history, 1)
    ensures p == KickBank(main)[RandInt(rng.history[|old(rng.history)|], 0, 2)]
    ensures p in KickBank(main) && IsCell(p)
  {
    var x := rng.Next();
    p := KickBank(main)[RandInt(x, 0, 2)];
  }

  function SectionNames(secs: seq<Section>): set<string>
  {
    set s | s in secs :: s.name
  }

  /** The index of the last section called `name`, or -1. */
  function LastNamed(secs: seq<Section>, name: string): (i: int)
    ensures -1 <= i < |secs|
    ensures i >= 0 ==> secs[i].name == name && forall j :: i < j < |secs| ==> secs[j].name != name
    ensures i == -1 ==> forall j :: 0 <= j < |secs| ==> secs[j].name != name
  {
    if secs == [] then -1
    else if secs[|secs| - 1].name == name then |secs| - 1
    else LastNamed(secs[..|secs| - 1], name)
  }

  /** Extending the prefix by one section adds its name, and makes it the
      last section of that name. */
  lemma NamesSnoc(secs: seq<Section>, k: nat)
    requires k < |secs|
    ensures SectionNames(secs[..k + 1]) == SectionNames(secs[..k]) + {secs[k].name}
    ensures LastNamed(secs[..k + 1], secs[k].name) == k
    ensures forall name :: name != secs[k].name ==> LastNamed(secs[..k + 1], name) == LastNamed(secs[..k], name)
  {
    assert secs[..k + 1] == secs[..k] + [secs[k]];
    assert secs[..k + 1][..k] == secs[..k];
  }

  /** The map the `set` calls leave: section `i` stores `picks[i]`
      under its name, later sections overwriting earlier ones. */
  ghost function KickMapOf(secs: seq<Section>, picks: seq<string>): map<string, string>
    requires |picks| == |secs|
  {
    if secs == [] then map[]
    else KickMapOf(secs[..|secs| - 1], picks[..|secs| - 1])[secs[|secs| - 1].name := picks[|secs| - 1]]
  }

  /** The keys are the section names, and each name holds the pick of its
      last section. */
  lemma {:induction false} KickMapSpec(secs: seq<Section>, picks: seq<string>)
    requires |picks| == |secs|
    ensures KickMapOf(secs, picks).Keys == SectionNames(secs)
    ensures forall name :: name in KickMapOf(secs, picks) ==>
      LastNamed(secs, name) >= 0 && KickMapOf(secs, picks)[name] == picks[LastNamed(secs, name)]
  {
    if secs != [] {
      var n := |secs| - 1;
      KickMapSpec(secs[..n], picks[..n]);
      NamesSnoc(secs, n);
      assert secs[..n + 1] == secs;
    }
  }

  /** Appending section `k`'s pick extends the map by one `set`. */
  lemma KickMapSnoc(secs: seq<Section>, picks: seq<string>, k: nat, p: string)
    requires k < |secs| && |picks| == k
    ensures KickMapOf(secs[..k + 1], picks + [p]) == KickMapOf(secs[..k], picks)[secs[k].name := p]
  {
    assert secs[..k + 1][..k] == secs[..k];
    assert (picks + [p])[..k] == picks;
  }

  /** Pick `i` is the bank entry chosen by value `from + i` of `hist`. */
  predicate PicksDrawn(picks: seq<string>, hist: seq<real>, from: nat, main: Artist)
  {
    && from + |picks| <= |hist|
    && forall i {:trigger picks[i]} :: 0 <= i < |picks| ==> PickAt(picks, hist, from, main, i)
  }

  /** Pick `i` is the cell drawn by value `from + i` of `hist`. */
  predicate PickAt(picks: seq<string>, hist: seq<real>, from: nat, main: Artist, i: nat)
    requires i < |picks| && from + i < |hist|
  {
    0.0 <= hist[from + i] < 1.0 && picks[i] == KickBank(main)[RandInt(hist[from + i], 0, 2)] && IsCell(picks[i])
  }

  /** One more draw, and its pick, extends the picks drawn so far. */
  lemma PicksDrawnSnoc(picks: seq<string>, p: string, before: seq<real>, after: seq<real>, from: nat, main: Artist)
    requires PicksDrawn(picks, before, from, main) && from + |picks| == |before| && Drew(before, after, 1)
    requires 0.0 <= after[|before|] < 1.0 && p == KickBank(main)[RandInt(after[|before|], 0, 2)] && IsCell(p)
    ensures PicksDrawn(picks + [p], after, from, main)
  {
    var q := picks + [p];
    assert from + |q| <= |after|;
    forall i | 0 <= i < |q|
      ensures PickAt(q, after, from, main, i)
    {
      if i < |picks| {
        assert after[..|before|][from + i] == before[from + i];
        assert q[i] == picks[i] && PickAt(picks, before, from, main, i);
      } else {
        assert from + i == |before| && q[i] == p;
        assert after[from + i] == after[|before|];
      }
    }
  }

  /** After `k` sections: pick `i` was drawn by value `from + i` of
      `hist`, and the map is the one the first `k` `set` calls leave. */
  ghost predicate KicksSoFar(kicks: map<string, string>, picks: seq<string>, secs: seq<Section>, k: nat,
                       hist: seq<real>, from: nat, main: Artist)
  {
    && k <= |secs| && |picks| == k
    && PicksDrawn(picks, hist, from, main)
    && kicks == KickMapOf(secs[..k], picks)
  }

  /** One iteration of the `sectionKick` loop: draw section `k`'s cell and store it under its name. */
  method PickStep(rng: Mulberry32, secs: seq<Section>, main: Artist, k: nat, kicks: map<string, string>,
                  ghost picks: seq<string>, ghost from: nat)
    returns (kicks': map<string, string>, ghost picks': seq<string>)
    requires rng.Valid() && k < |secs| && from + k == |rng.history|
    requires KicksSoFar(kicks, picks, secs, k, rng.history, from, main)
    modifies rng
    ensures rng.Valid() && rng.seed == old(rng.seed) && Drew(old(rng.history), rng.history, 1)
    ensures KicksSoFar(kicks', picks', secs, k + 1, rng.history, from, main)
  {
    ghost var before := rng.history;
    var p := PickKickPattern(rng, main);
    PicksDrawnSnoc(picks, p, before, rng.history, from, main);
    KickMapSnoc(secs, picks, k, p);
    kicks' := kicks[secs[k].name := p];
    picks' := picks + [p];
  }

  /** The loop that fills `sectionKick`: one draw per section, in order;
      a name that occurs twice keeps the cell drawn for its last section. */
  method PickSectionKicks(rng: Mulberry32, secs: seq<Section>, main: Artist)
    returns (kicks: map<string, string>, ghost picks: seq<string>)
    requires rng.Valid()
    modifies rng
    ensures rng.Valid() && rng.seed == old(rng.seed) && Drew(old(rng.history), rng.history, |secs|)
    ensures kicks.Keys == SectionNames(secs)
    ensures |picks| == |secs|
    ensures forall i :: 0 <= i < |picks| ==>
      picks[i] == KickBank(main)[RandInt(rng.history[|old(rng.history)| + i], 0, 2)]
    ensures forall name :: name in kicks ==> LastNamed(secs, name) >= 0 && kicks[name] == picks[LastNamed(secs, name)]
    ensures forall name :: name in kicks ==> IsCell(kicks[name])
  {
    kicks := map[];
    picks := [];
    ghost var h0 := rng.history;
    for k := 0 to |secs|
      invariant rng.Valid() && rng.seed == old(rng.seed) && Drew(h0, rng.history, k)
      invariant KicksSoFar(kicks, picks, secs, k, rng.history, |h0|, main)
    {
      ghost var before := rng.history;
      kicks, picks := PickStep(rng, secs, main, k, kicks, picks, |h0|);
      DrewThen(h0, before, rng.history, k, 1);
    }
    assert secs[..|secs|] == secs;
    KickMapSpec(secs, picks);
  }

  /** Every bar whose section comes from the plan's own section list finds
      its cell in the map, so the fallback draw never happens. */
  lemma PlannedSectionsNamed(plan: Plan, kicks: map<string, string>)
    requires PlanShaped(plan)
    requires kicks.Keys == SectionNames(plan.sections)
    requires forall b :: 0 <= b < |plan.layers| ==> plan.layers[b].section == SectionOf(plan.sections, b).name
    ensures AllNamed(plan, kicks)
  {
    forall b | 0 <= b < |plan.layers| ensures plan.layers[b].section in kicks {
      var s := SectionOf(plan.sections, b);
      assert s.name in SectionNames(plan.sections);
    }
  }

  // --------------------------------------------------------------- snare

  predicate IsSnareHit(e: Event)
  {
    e.kind == Drum && e.d == Sixteenth && ((e.n == SnareNote && e.v == 110) || (e.n == ClapNote && e.v == 86))
  }

  /** Every unmuted beat among the first `i` has its snare in `evs`. */
  predicate SnaresPresent(evs: seq<Event>, beats: seq<int>, i: nat, t0: int, stopHere: bool, stopTicks: int)
    requires i <= |beats|
    decreases i
  {
    || i == 0
    || (&& SnaresPresent(evs, beats, i - 1, t0, stopHere, stopTicks)
        && (|| Muted(stopHere, stopTicks, t0, t0 + (beats[i - 1] - 1) * Beat)
            || DrumEvent(t0 + (beats[i - 1] - 1) * Beat, Sixteenth, SnareNote, 110) in evs))
  }

  /** Adding events keeps every snare that was there. */
  lemma {:induction false} SnaresPresentGrow(evs: seq<Event>, all: seq<Event>, beats: seq<int>, i: nat, t0: int,
                                             stopHere: bool, stopTicks: int)
    requires i <= |beats| && SnaresPresent(evs, beats, i, t0, stopHere, stopTicks)
    requires forall x :: x in evs ==> x in all
    ensures SnaresPresent(all, beats, i, t0, stopHere, stopTicks)
    decreases i
  {
    if i > 0 {
      SnaresPresentGrow(evs, all, beats, i - 1, t0, stopHere, stopTicks);
    }
  }

  /** The snare of unmuted beat `j` is among the events. */
  lemma {:induction false} SnaresPresentAt(evs: seq<Event>, beats: seq<int>, i: nat, j: nat, t0: int,
                                           stopHere: bool, stopTicks: int)
    requires j < i <= |beats| && SnaresPresent(evs, beats, i, t0, stopHere, stopTicks)
    requires !Muted(stopHere, stopTicks, t0, t0 + (beats[j] - 1) * Beat)
    ensures DrumEvent(t0 + (beats[j] - 1) * Beat, Sixteenth, SnareNote, 110) in evs
    decreases i
  {
    if j < i - 1 {
      SnaresPresentAt(evs, beats, i - 1, j, t0, stopHere, stopTicks);
    }
  }

  /** The snare hits of the first `i` beats: every hit a snare or clap on
      one of them, unmuted, and every unmuted beat with its snare. */
  predicate SnareSoFar(evs: seq<Event>, beats: seq<int>, i: nat, t0: int, stopHere: bool, stopTicks: int)
    requires i <= |beats|
  {
    && (forall e :: e in evs ==> IsSnareHit(e) && InBarUnmuted(e, t0, stopHere, stopTicks) && (e.t - t0) % Beat == 0)
    && (forall e :: e in evs ==> exists j :: 0 <= j < i && e.t == t0 + (beats[j] - 1) * Beat)
    && SnaresPresent(evs, beats, i, t0, stopHere, stopTicks)
  }

  /** A muted beat adds nothing. */
  lemma SnareSkip(evs: seq<Event>, beats: seq<int>, i: nat, t0: int, stopHere: bool, stopTicks: int)
    requires i < |beats| && SnareSoFar(evs, beats, i, t0, stopHere, stopTicks)
    requires Muted(stopHere, stopTicks, t0, t0 + (beats[i] - 1) * Beat)
    ensures SnareSoFar(evs, beats, i + 1, t0, stopHere, stopTicks)
  {
    forall e | e in evs
      ensures exists j :: 0 <= j < i + 1 && e.t == t0 + (beats[j] - 1) * Beat
    {
      var j :| 0 <= j < i && e.t == t0 + (beats[j] - 1) * Beat;
    }
  }

  /** An unmuted beat adds its snare, and possibly a clap beside it. */
  lemma SnareAppend(evs: seq<Event>, added: seq<Event>, beats: seq<int>, i: nat, t0: int, stopHere: bool, stopTicks: int)
    requires i < |beats| && 1 <= beats[i] <= 4 && SnareSoFar(evs, beats, i, t0, stopHere, stopTicks)
    requires !Muted(stopHere, stopTicks, t0, t0 + (beats[i] - 1) * Beat)
    requires var tt := t0 + (beats[i] - 1) * Beat;
      added == [DrumEvent(tt, Sixteenth, SnareNote, 110)]
      || added == [DrumEvent(tt, Sixteenth, SnareNote, 110), DrumEvent(tt, Sixteenth, ClapNote, 86)]
    ensures SnareSoFar(evs + added, beats, i + 1, t0, stopHere, stopTicks)
  {
    var tt := t0 + (beats[i] - 1) * Beat;
    var snare := DrumEvent(tt, Sixteenth, SnareNote, 110);
    var all := evs + added;
    assert snare in all by {
      assert all[|evs|] == snare;
    }
    forall e | e in all
      ensures IsSnareHit(e) && InBarUnmuted(e, t0, stopHere, stopTicks) && (e.t - t0) % Beat == 0
      ensures exists j :: 0 <= j < i + 1 && e.t == t0 + (beats[j] - 1) * Beat
    {
      if e in evs {
        var j :| 0 <= j < i && e.t == t0 + (beats[j] - 1) * Beat;
      } else {
        assert e in added && e.t == tt;
        assert e.t - t0 == (beats[i] - 1) * Beat;
      }
    }
    SnaresPresentGrow(evs, all, beats, i, t0, stopHere, stopTicks);
  }

  /** A clap is only ever played beside its snare: it sits on an unmuted
      snare beat, and every unmuted beat has its snare. */
  lemma SnareClapsBeside(evs: seq<Event>, beats: seq<int>, t0: int, stopHere: bool, stopTicks: int)
    requires SnareSoFar(evs, beats, |beats|, t0, stopHere, stopTicks)
    ensures forall e :: e in evs && e.n == ClapNote ==> DrumEvent(e.t, Sixteenth, SnareNote, 110) in evs
  {
    forall e | e in evs && e.n == ClapNote
      ensures DrumEvent(e.t, Sixteenth, SnareNote, 110) in evs
    {
      var j :| 0 <= j < |beats| && e.t == t0 + (beats[j] - 1) * Beat;
      SnaresPresentAt(evs, beats, |beats|, j, t0, stopHere, stopTicks);
    }
  }

  /** One snare beat: skipped when muted, else a snare and, with
      probability 0.6, a clap on the same tick. */
  method SnareStep(rng: Mulberry32, beats: seq<int>, i: nat, t0: int, stopHere: bool, stopTicks: int, evs: seq<Event>)
    returns (evs': seq<Event>)
    requires rng.Valid() && i < |beats| && 1 <= beats[i] <= 4
    requires SnareSoFar(evs, beats, i, t0, stopHere, stopTicks)
    modifies rng
    ensures rng.Valid()
    ensures SnareSoFar(evs', beats, i + 1, t0, stopHere, stopTicks)
  {
    var tt := t0 + (beats[i] - 1) * Beat;
    if stopHere && tt < t0 + stopTicks {
      SnareSkip(evs, beats, i, t0, stopHere, stopTicks);
      return evs;
    }
    var added := [DrumEvent(tt, Sixteenth, SnareNote, 110)];
    var clap := Chance(rng, 0.6);
    if clap {
      added := added + [DrumEvent(tt, Sixteenth, ClapNote, 86)];
    }
    SnareAppend(evs, added, beats, i, t0, stopHere, stopTicks);
    evs' := evs + added;
  }

  /** The snare of one bar: a snare on each listed beat the stop does not
      silence, each followed by a clap with probability 0.6. */
  method EmitSnare(rng: Mulberry32, beats: seq<int>, t0: int, stopHere: bool, stopTicks: int)
    returns (evs: seq<Event>)
    requires rng.Valid()
    requires forall i :: 0 <= i < |beats| ==> 1 <= beats[i] <= 4
    modifies rng
    ensures rng.Valid()
    ensures forall e :: e in evs ==> IsSnareHit(e) && InBarUnmuted(e, t0, stopHere, stopTicks) && (e.t - t0) % Beat == 0
    ensures forall e :: e in evs ==> exists i :: 0 <= i < |beats| && e.t == t0 + (beats[i] - 1) * Beat
    ensures forall e :: e in evs && e.n == ClapNote ==> DrumEvent(e.t, Sixteenth, SnareNote, 110) in evs
    ensures forall i :: 0 <= i < |beats| && !Muted(stopHere, stopTicks, t0, t0 + (beats[i] - 1) * Beat) ==>
      DrumEvent(t0 + (beats[i] - 1) * Beat, Sixteenth, SnareNote, 110) in evs
  {
    evs := [];
    for i := 0 to |beats|
      invariant rng.Valid()
      invariant SnareSoFar(evs, beats, i, t0, stopHere, stopTicks)
    {
      evs := SnareStep(rng, beats, i, t0, stopHere, stopTicks, evs);
    }
    SnareClapsBeside(evs, beats, t0, stopHere, stopTicks);
    forall j | 0 <= j < |beats| && !Muted(stopHere, stopTicks, t0, t0 + (beats[j] - 1) * Beat)
      ensures DrumEvent(t0 + (beats[j] - 1) * Beat, Sixteenth, SnareNote, 110) in evs
    {
      SnaresPresentAt(evs, beats, |beats|, j, t0, stopHere, stopTicks);
    }
  }

  // ---------------------------------------------------------------- hats

  /** The turnaround roll starts on the last beat of the bar and lasts
      eight sixteenths, so its second half falls in the next bar. */
  function RollStart(t0: int): int { t0 + Bar - Beat }
  const RollSpan: int := Sixteenth * 8
  const RollHitLength: int := Sixteenth / 2 / 2

  predicate IsHat(e: Event)
  {
    e.kind == Drum && e.n == HatNote
  }

  /** A grid hat of the bar at `t0`: on a grid step inside the bar, half a
      step long, outside the stop. */
  predicate IsGridHat(e: Event, grid: int, t0: int, stopHere: bool, stopTicks: int)
    requires grid > 0
  {
    && IsHat(e) && WellFormed(e) && e.d == grid / 2 && 55 <= e.v <= 100
    && InBarUnmuted(e, t0, stopHere, stopTicks) && (e.t - t0) % grid == 0
  }

  /** A hit of the roll that starts at `RollStart(t0)`: on a 32nd-note
      step of the roll span, 30 ticks long, outside the stop. */
  predicate IsRollHat(e: Event, t0: int, stopHere: bool, stopTicks: int)
  {
    && IsHat(e) && WellFormed(e) && e.d == RollHitLength && 60 <= e.v <= 110
    && !Muted(stopHere, stopTicks, t0, e.t)
    && RollStart(t0) <= e.t < RollStart(t0) + RollSpan && (e.t - RollStart(t0)) % (Sixteenth / 2) == 0
  }

  /** The grid loop: every step the stop leaves, skipped with probability
      `0.10 + (1-d)*0.18`. */
  method HatGridHits(rng: Mulberry32, grid: int, t0: int, d: real, stopHere: bool, stopTicks: int)
    returns (evs: seq<Event>)
    requires rng.Valid()
    requires grid == Sixteenth || grid == 2 * Sixteenth || grid == 4 * Sixteenth
    modifies rng
    ensures rng.Valid()
    ensures forall e :: e in evs ==> IsGridHat(e, grid, t0, stopHere, stopTicks)
  {
    evs := [];
    var tt := t0;
    while tt < t0 + Bar
      invariant t0 <= tt && (tt - t0) % grid == 0
      invariant rng.Valid()
      invariant forall e :: e in evs ==> IsGridHat(e, grid, t0, stopHere, stopTicks)
      decreases t0 + Bar - tt
    {
      if !(stopHere && tt < t0 + stopTicks) {
        var skip := Chance(rng, 0.10 + (1.0 - d) * 0.18);
        if !skip {
          evs := evs + [DrumEvent(tt, grid / 2, HatNote, ClampInt(Round(70.0 + d * 22.0), 55, 100))];
        }
      }
      tt := tt + grid;
    }
  }

  /** Hit `k` of the roll: 32nd-note step `k` after `RollStart(t0)`, with
      the roll's velocity for density `d`. */
  function RollHit(t0: int, d: real, k: int): Event
  {
    DrumEvent(RollStart(t0) + k * (Sixteenth / 2), RollHitLength, HatNote, ClampInt(Round(74.0 + d * 26.0), 60, 110))
  }

  /** The roll loop: a 32nd-note hit on every step of the span the stop
      leaves. The sixteen steps all lie past a stop of at most three beats,
      so then all sixteen hits are there, in order. */
  method HatRoll(t0: int, d: real, stopHere: bool, stopTicks: int) returns (evs: seq<Event>)
    ensures forall e :: e in evs ==> IsRollHat(e, t0, stopHere, stopTicks)
    ensures forall k :: 0 <= k < 16 && !Muted(stopHere, stopTicks, t0, RollStart(t0) + k * (Sixteenth / 2)) ==>
      RollHit(t0, d, k) in evs
    ensures stopTicks <= Bar - Beat ==> |evs| == 16 && forall k :: 0 <= k < 16 ==> evs[k] == RollHit(t0, d, k)
  {
    evs := [];
    var start := RollStart(t0);
    var rate := Sixteenth / 2;
    var rt := start;
    ghost var k := 0;
    while rt < start + Sixteenth * 8
      invariant 0 <= k <= 16 && rt == RollStart(t0) + k * (Sixteenth / 2)
      invariant forall e :: e in evs ==> IsRollHat(e, t0, stopHere, stopTicks)
      invariant forall j :: 0 <= j < k && !Muted(stopHere, stopTicks, t0, RollStart(t0) + j * (Sixteenth / 2)) ==>
        RollHit(t0, d, j) in evs
      invariant stopTicks <= Bar - Beat ==> |evs| == k && forall j :: 0 <= j < k ==> evs[j] == RollHit(t0, d, j)
      decreases start + Sixteenth * 8 - rt
    {
      if !(stopHere && rt < t0 + stopTicks) {
        evs := evs + [DrumEvent(rt, rate / 2, HatNote, ClampInt(Round(74.0 + d * 26.0), 60, 110))];
      }
      rt := rt + rate;
      k := k + 1;
    }
  }

  /** The hi-hats of one bar: the grid loop, then, for eligible songs, a
      roll of 32nd notes with probability `0.45 + d*0.15`. */
  method EmitHats(rng: Mulberry32, grid: int, t0: int, d: real, stopHere: bool, stopTicks: int, rollEligible: bool)
    returns (evs: seq<Event>)
    requires rng.Valid()
    requires grid == Sixteenth || grid == 2 * Sixteenth || grid == 4 * Sixteenth
    modifies rng
    ensures rng.Valid()
    ensures forall e :: e in evs ==> IsHat(e) && WellFormed(e) && !Muted(stopHere, stopTicks, t0, e.t)
    ensures forall e :: e in evs ==>
      || (e.d == grid / 2 && 55 <= e.v <= 100 && InBarUnmuted(e, t0, stopHere, stopTicks) && (e.t - t0) % grid == 0)
      || (e.d == RollHitLength && 60 <= e.v <= 110 && RollStart(t0) <= e.t < RollStart(t0) + RollSpan
          && (e.t - RollStart(t0)) % (Sixteenth / 2) == 0)
    ensures !rollEligible ==> forall e :: e in evs ==> e.d == grid / 2
  {
    evs := HatGridHits(rng, grid, t0, d, stopHere, stopTicks);
    if rollEligible {
      var roll := Chance(rng, 0.45 + d * 0.15);
      if roll {
        var rollHits := HatRoll(t0, d, stopHere, stopTicks);
        evs := evs + rollHits;
      }
    }
  }

  // ---------------------------------------------------------------- bass

  /** The pitch inputs of the melodic layers: a root with the scale's
      seven offsets. */
  predicate ScaleOk(intervals: seq<int>)
  {
    |intervals| == 7 && forall i :: 0 <= i < 7 ==> 0 <= intervals[i] <= 11
  }

  /** `kickOffsets.filter(...)`: the kick hits within a sixteenth of beat 3. */
  function NearBeatThree(offs: seq<int>): (r: seq<int>)
    ensures forall j :: 0 <= j < |r| ==> r[j] in offs && 2 * Beat - Sixteenth <= r[j] <= 3 * Beat + Sixteenth
    ensures forall x :: x in offs && 2 * Beat - Sixteenth <= x <= 3 * Beat + Sixteenth ==> x in r
  {
    if offs == [] then []
    else
      assert offs == [offs[0]] + offs[1..];
      (if 2 * Beat - Sixteenth <= offs[0] <= 3 * Beat + Sixteenth then [offs[0]] else []) + NearBeatThree(offs[1..])
  }

  /** No kick hit lies within a sixteenth of beat 3. */
  predicate NoneNearBeatThree(offs: seq<int>)
  {
    forall x :: x in offs ==> !(2 * Beat - Sixteenth <= x <= 3 * Beat + Sixteenth)
  }

  /** The filter is empty exactly when no kick hit is near beat 3. */
  lemma NoneNearBeatThreeEmpty(offs: seq<int>)
    ensures NoneNearBeatThree(offs) <==> |NearBeatThree(offs)| == 0
  {
    if |NearBeatThree(offs)| > 0 {
      assert NearBeatThree(offs)[0] in offs;
    }
  }

  function Value(h: int): int { h }

  /** The length of the bass note on hit `i`: up to the next hit (or the
      bar line), at least six sixteenths, and no further than the bar line
      unless that would be shorter than six sixteenths. */
  function SustainLength(hits: seq<int>, i: nat): (r: int)
    requires i < |hits|
    ensures r >= 6 * Sixteenth
    ensures var next := if i < |hits| - 1 then hits[i + 1] else Bar;
      6 * Sixteenth <= next - hits[i] && next <= Bar ==> r == next - hits[i]
    ensures var next := if i < |hits| - 1 then hits[i + 1] else Bar;
      next - hits[i] <= 6 * Sixteenth || Bar - hits[i] <= 6 * Sixteenth ==> r == 6 * Sixteenth
  {
    var next := if i < |hits| - 1 then hits[i + 1] else Bar;
    ClampInt(next - hits[i], 6 * Sixteenth, Bar - hits[i])
  }

  /** `[...new Set(hits)].sort((a, b) => a - b)` leaves a strictly
      increasing list as it is. */
  lemma DedupSortIncreasing(s: seq<int>)
    requires forall i, j :: 0 <= i < j < |s| ==> s[i] < s[j]
    ensures SortBy(Distinct(s), Value) == s
  {
    DistinctIncreasing(s);
    assert SortedBy(s, Value);
    SortBySorted(s, Value);
  }

  /** `[...new Set(hits)].sort((a, b) => a - b)` on the bass hits, which
      are already strictly increasing. */
  method UniqueSorted(raw: seq<int>) returns (r: seq<int>)
    requires forall i, j :: 0 <= i < j < |raw| ==> raw[i] < raw[j]
    ensures r == raw
  {
    DedupSortIncreasing(raw);
    r := SortBy(Distinct(raw), Value);
  }

  /** The hits of the bass in one bar: the downbeat if the kick plays
      there and one drawn kick hit near beat 3; without either, the
      downbeat and beat 3; then deduplicated and sorted. */
  method BassHits(rng: Mulberry32, kickOffsets: seq<int>) returns (hits: seq<int>)
    requires rng.Valid()
    requires forall j :: 0 <= j < |kickOffsets| ==> 0 <= kickOffsets[j] < Bar
    modifies rng
    ensures rng.Valid() && rng.seed == old(rng.seed)
    ensures 1 <= |hits| <= 2
    ensures forall i :: 0 <= i < |hits| ==> 0 <= hits[i] < Bar && (hits[i] in kickOffsets || hits[i] in [0, 2 * Beat])
    ensures forall i, j :: 0 <= i < j < |hits| ==> hits[i] < hits[j]
    ensures 0 in kickOffsets ==> hits[0] == 0
    ensures |NearBeatThree(kickOffsets)| == 0 ==>
      rng.history == old(rng.history) && hits == (if 0 in kickOffsets then [0] else [0, 2 * Beat])
    ensures |NearBeatThree(kickOffsets)| > 0 ==>
      && Drew(old(rng.history), rng.history, 1)
      && hits[|hits| - 1] == NearBeatThree(kickOffsets)[RandInt(rng.history[|old(rng.history)|], 0, |NearBeatThree(kickOffsets)| - 1)]
      && (|hits| == 2 <==> 0 in kickOffsets)
    ensures NoneNearBeatThree(kickOffsets) ==> hits == (if 0 in kickOffsets then [0] else [0, 2 * Beat])
    ensures !NoneNearBeatThree(kickOffsets) ==>
      && hits[|hits| - 1] in kickOffsets && 2 * Beat - Sixteenth <= hits[|hits| - 1] <= 3 * Beat + Sixteenth
      && (|hits| == 2 <==> 0 in kickOffsets)
  {
    NoneNearBeatThreeEmpty(kickOffsets);
    var down := 0 in kickOffsets;
    var cand := NearBeatThree(kickOffsets);
    var raw: seq<int>;
    if |cand| > 0 {
      var x := rng.Next();
      var c := cand[RandInt(x, 0, |cand| - 1)];
      assert c in kickOffsets && 2 * Beat - Sixteenth <= c < Bar;
      raw := if down then [0, c] else [c];
    } else {
      raw := if down then [0] else [0, 2 * Beat];
    }
    hits := UniqueSorted(raw);
  }

  /** Bass note `e` sounds hit `i` of the bar at `t0`: it starts on the
      hit, sustains to the next one, and plays the root or the fifth (the
      seventh degree in the dark mood). */
  predicate IsBassNote(e: Event, t0: int, hits: seq<int>, i: nat, rootBass: int, intervals: seq<int>, mood: Mood)
    requires i < |hits| && ScaleOk(intervals)
  {
    && e.t == t0 + hits[i] && e.d == SustainLength(hits, i)
    && e.kind == Note && e.v == 118
    && (e.n == DegreeToMidi(rootBass, intervals, 1, 0)
        || e.n == DegreeToMidi(rootBass, intervals, if mood == Dark then 7 else 5, 0))
  }

  /** The note of one bass hit: one draw picks the degree. */
  method BassNote(rng: Mulberry32, hits: seq<int>, i: nat, mood: Mood, t0: int, rootBass: int, intervals: seq<int>)
    returns (e: Event)
    requires rng.Valid() && i < |hits| && ScaleOk(intervals) && 0 <= rootBass <= 116
    requires forall k :: 0 <= k < |hits| ==> 0 <= hits[k] < Bar
    modifies rng
    ensures rng.Valid()
    ensures IsBassNote(e, t0, hits, i, rootBass, intervals, mood) && WellFormed(e)
  {
    var hitT := hits[i];
    var nextT := if i < |hits| - 1 then hits[i + 1] else Bar;
    var dur := ClampInt(nextT - hitT, Sixteenth * 6, Bar - hitT);
    var deg: int;
    if mood == Dark {
      var h := Chance(rng, 0.55);
      deg := if h then 1 else 7;
    } else {
      var h := Chance(rng, 0.6);
      deg := if h then 1 else 5;
    }
    var note := DegreeToMidi(rootBass, intervals, deg, 0);
    e := NoteEvent(t0 + hitT, dur, note, 118);
  }

  /** The bass of one bar: one note per hit, sustained to the next hit,
      except on the hits the stop silences (their degree is still drawn). */
  method EmitBass(rng: Mulberry32, kickOffsets: seq<int>, mood: Mood, t0: int, rootBass: int, intervals: seq<int>,
                  stopHere: bool, stopTicks: int)
    returns (evs: seq<Event>, ghost hits: seq<int>, ghost at: seq<nat>)
    requires rng.Valid()
    requires ScaleOk(intervals) && 0 <= rootBass <= 116
    requires forall j :: 0 <= j < |kickOffsets| ==> 0 <= kickOffsets[j] < Bar
    modifies rng
    ensures rng.Valid()
    ensures 1 <= |hits| <= 2
    ensures forall i :: 0 <= i < |hits| ==> 0 <= hits[i] < Bar && (hits[i] in kickOffsets || hits[i] in [0, 2 * Beat])
    ensures forall i, j :: 0 <= i < j < |hits| ==> hits[i] < hits[j]
    ensures 0 in kickOffsets ==> hits[0] == 0
    ensures NoneNearBeatThree(kickOffsets) ==> hits == (if 0 in kickOffsets then [0] else [0, 2 * Beat])
    ensures !NoneNearBeatThree(kickOffsets) ==>
      && hits[|hits| - 1] in kickOffsets && 2 * Beat - Sixteenth <= hits[|hits| - 1] <= 3 * Beat + Sixteenth
      && (|hits| == 2 <==> 0 in kickOffsets)
    ensures |at| == |evs| && forall k :: 0 <= k < |at| ==> at[k] < |hits|
    ensures forall k, l :: 0 <= k < l < |at| ==> at[k] < at[l]
    ensures forall i :: 0 <= i < |hits| ==> (i in at <==> !Muted(stopHere, stopTicks, t0, t0 + hits[i]))
    ensures forall k :: 0 <= k < |evs| ==> IsBassNote(evs[k], t0, hits, at[k], rootBass, intervals, mood)
    ensures forall e :: e in evs ==> WellFormed(e) && InBarUnmuted(e, t0, stopHere, stopTicks)
    ensures forall e :: e in evs ==> e.d >= 6 * Sixteenth && (e.t - t0 in kickOffsets || e.t - t0 in [0, 2 * Beat])
    ensures forall k, l :: 0 <= k < l < |evs| ==> evs[k].t < evs[l].t
    ensures FallbackBass(evs, t0, kickOffsets, stopHere, stopTicks)
  {
    var uniq := BassHits(rng, kickOffsets);
    hits := uniq;
    evs, at := BassNotes(rng, uniq, mood, t0, rootBass, intervals, stopHere, stopTicks);
    BassFinish(evs, at, hits, t0, rootBass, intervals, mood, stopHere, stopTicks, kickOffsets);
  }

  /** One note per hit, each with its own draw, dropping the notes the
      stop silences. */
  method BassNotes(rng: Mulberry32, hits: seq<int>, mood: Mood, t0: int, rootBass: int, intervals: seq<int>,
                   stopHere: bool, stopTicks: int)
    returns (evs: seq<Event>, ghost at: seq<nat>)
    requires rng.Valid() && ScaleOk(intervals) && 0 <= rootBass <= 116
    requires forall k :: 0 <= k < |hits| ==> 0 <= hits[k] < Bar
    modifies rng
    ensures rng.Valid()
    ensures BassSoFar(evs, at, |hits|, hits, t0, rootBass, intervals, mood, stopHere, stopTicks)
  {
    evs := [];
    at := [];
    for i := 0 to |hits|
      invariant rng.Valid()
      invariant BassSoFar(evs, at, i, hits, t0, rootBass, intervals, mood, stopHere, stopTicks)
    {
      var e := BassNote(rng, hits, i, mood, t0, rootBass, intervals);
      if stopHere && e.t < t0 + stopTicks {
        BassSkip(evs, at, i, hits, t0, rootBass, intervals, mood, stopHere, stopTicks);
        continue;
      }
      BassKeep(evs, at, e, i, hits, t0, rootBass, intervals, mood, stopHere, stopTicks);
      evs := evs + [e];
      at := at + [i];
    }
  }

  /** Once every hit is handled, the notes are placed on the hits, sorted,
      and the fallback hits sound. */
  lemma BassFinish(evs: seq<Event>, at: seq<nat>, hits: seq<int>, t0: int, rootBass: int, intervals: seq<int>,
                   mood: Mood, stopHere: bool, stopTicks: int, kickOffsets: seq<int>)
    requires ScaleOk(intervals)
    requires BassSoFar(evs, at, |hits|, hits, t0, rootBass, intervals, mood, stopHere, stopTicks)
    requires forall i :: 0 <= i < |hits| ==> 0 <= hits[i] < Bar && (hits[i] in kickOffsets || hits[i] in [0, 2 * Beat])
    requires forall i, j :: 0 <= i < j < |hits| ==> hits[i] < hits[j]
    requires NoneNearBeatThree(kickOffsets) ==> hits == (if 0 in kickOffsets then [0] else [0, 2 * Beat])
    ensures |at| == |evs| && forall k :: 0 <= k < |at| ==> at[k] < |hits|
    ensures forall k, l :: 0 <= k < l < |at| ==> at[k] < at[l]
    ensures forall i :: 0 <= i < |hits| ==> (i in at <==> !Muted(stopHere, stopTicks, t0, t0 + hits[i]))
    ensures forall k :: 0 <= k < |evs| ==> IsBassNote(evs[k], t0, hits, at[k], rootBass, intervals, mood)
    ensures forall e :: e in evs ==> WellFormed(e) && InBarUnmuted(e, t0, stopHere, stopTicks)
    ensures forall e :: e in evs ==> e.d >= 6 * Sixteenth && (e.t - t0 in kickOffsets || e.t - t0 in [0, 2 * Beat])
    ensures forall k, l :: 0 <= k < l < |evs| ==> evs[k].t < evs[l].t
    ensures FallbackBass(evs, t0, kickOffsets, stopHere, stopTicks)
  {
    BassPlacement(evs, t0, hits, at, rootBass, intervals, mood, kickOffsets);
    FallbackBassSounds(evs, t0, hits, at, rootBass, intervals, mood, stopHere, stopTicks, kickOffsets);
  }

  /** The bass notes of the first `i` hits: `at[k]` is the hit note `k`
      sounds, increasing, and exactly the unmuted hits sound. */
  predicate BassSoFar(evs: seq<Event>, at: seq<nat>, i: nat, hits: seq<int>, t0: int, rootBass: int,
                      intervals: seq<int>, mood: Mood, stopHere: bool, stopTicks: int)
    requires ScaleOk(intervals) && i <= |hits|
  {
    && |at| == |evs|
    && AtSoFar(at, i, hits, t0, stopHere, stopTicks)
    && NotesSoFar(evs, at, hits, t0, rootBass, intervals, mood, stopHere, stopTicks)
  }

  /** The hits that sound among the first `i`, in increasing order. */
  predicate AtSoFar(at: seq<nat>, i: nat, hits: seq<int>, t0: int, stopHere: bool, stopTicks: int)
    requires i <= |hits|
  {
    && (forall k :: 0 <= k < |at| ==> at[k] < i)
    && (forall k, l :: 0 <= k < l < |at| ==> at[k] < at[l])
    && (forall j :: 0 <= j < i ==> (j in at <==> !Muted(stopHere, stopTicks, t0, t0 + hits[j])))
  }

  /** Note `k` sounds hit `at[k]`, unmuted and inside the bar. */
  predicate NotesSoFar(evs: seq<Event>, at: seq<nat>, hits: seq<int>, t0: int, rootBass: int,
                       intervals: seq<int>, mood: Mood, stopHere: bool, stopTicks: int)
    requires ScaleOk(intervals)
  {
    && (forall k :: 0 <= k < |evs| && k < |at| ==>
          at[k] < |hits| && IsBassNote(evs[k], t0, hits, at[k], rootBass, intervals, mood))
    && (forall e :: e in evs ==> WellFormed(e) && InBarUnmuted(e, t0, stopHere, stopTicks))
  }

  /** A muted hit adds no note. */
  lemma BassSkip(evs: seq<Event>, at: seq<nat>, i: nat, hits: seq<int>, t0: int, rootBass: int,
                 intervals: seq<int>, mood: Mood, stopHere: bool, stopTicks: int)
    requires ScaleOk(intervals) && i < |hits| && BassSoFar(evs, at, i, hits, t0, rootBass, intervals, mood, stopHere, stopTicks)
    requires Muted(stopHere, stopTicks, t0, t0 + hits[i])
    ensures BassSoFar(evs, at, i + 1, hits, t0, rootBass, intervals, mood, stopHere, stopTicks)
  {
    assert i !in at;
  }

  /** An unmuted hit adds its note. */
  lemma BassKeep(evs: seq<Event>, at: seq<nat>, e: Event, i: nat, hits: seq<int>, t0: int, rootBass: int,
                 intervals: seq<int>, mood: Mood, stopHere: bool, stopTicks: int)
    requires ScaleOk(intervals) && i < |hits| && BassSoFar(evs, at, i, hits, t0, rootBass, intervals, mood, stopHere, stopTicks)
    requires IsBassNote(e, t0, hits, i, rootBass, intervals, mood) && WellFormed(e)
    requires 0 <= hits[i] < Bar && !Muted(stopHere, stopTicks, t0, e.t)
    ensures BassSoFar(evs + [e], at + [i], i + 1, hits, t0, rootBass, intervals, mood, stopHere, stopTicks)
  {
    AtKeep(at, i, hits, t0, stopHere, stopTicks);
    NotesKeep(evs, at, e, i, hits, t0, rootBass, intervals, mood, stopHere, stopTicks);
  }

  /** Hit `i` sounds: it joins the hits that sound. */
  lemma AtKeep(at: seq<nat>, i: nat, hits: seq<int>, t0: int, stopHere: bool, stopTicks: int)
    requires i < |hits| && AtSoFar(at, i, hits, t0, stopHere, stopTicks)
    requires !Muted(stopHere, stopTicks, t0, t0 + hits[i])
    ensures AtSoFar(at + [i], i + 1, hits, t0, stopHere, stopTicks)
  {
    var at' := at + [i];
    forall k | 0 <= k < |at'| ensures at'[k] < i + 1 {
      if k < |at| {
        assert at'[k] == at[k];
      }
    }
    forall k, l | 0 <= k < l < |at'| ensures at'[k] < at'[l] {
      assert at'[k] == at[k];
      if l < |at| {
        assert at'[l] == at[l];
      }
    }
    forall j | 0 <= j < i + 1
      ensures j in at' <==> !Muted(stopHere, stopTicks, t0, t0 + hits[j])
    {
      if j < i {
        assert j in at' <==> j in at;
      } else {
        assert at'[|at|] == i;
      }
    }
  }

  /** The note of sounding hit `i` joins the notes. */
  lemma NotesKeep(evs: seq<Event>, at: seq<nat>, e: Event, i: nat, hits: seq<int>, t0: int, rootBass: int,
                  intervals: seq<int>, mood: Mood, stopHere: bool, stopTicks: int)
    requires ScaleOk(intervals) && i < |hits| && |at| == |evs|
    requires NotesSoFar(evs, at, hits, t0, rootBass, intervals, mood, stopHere, stopTicks)
    requires IsBassNote(e, t0, hits, i, rootBass, intervals, mood) && WellFormed(e)
    requires 0 <= hits[i] < Bar && !Muted(stopHere, stopTicks, t0, e.t)
    ensures NotesSoFar(evs + [e], at + [i], hits, t0, rootBass, intervals, mood, stopHere, stopTicks)
  {
    var evs', at' := evs + [e], at + [i];
    forall k | 0 <= k < |evs'| && k < |at'|
      ensures at'[k] < |hits| && IsBassNote(evs'[k], t0, hits, at'[k], rootBass, intervals, mood)
    {
      if k < |evs| {
        assert evs'[k] == evs[k] && at'[k] == at[k];
      } else {
        assert evs'[k] == e && at'[k] == i;
      }
    }
    forall x | x in evs' ensures WellFormed(x) && InBarUnmuted(x, t0, stopHere, stopTicks) {
      if x !in evs {
        assert x == e;
      }
    }
  }

  /** The bass notes of a bar start on its hits, in increasing order, and
      last at least six sixteenths. */
  lemma BassPlacement(evs: seq<Event>, t0: int, hits: seq<int>, at: seq<nat>, rootBass: int, intervals: seq<int>,
                      mood: Mood, kickOffsets: seq<int>)
    requires ScaleOk(intervals)
    requires |at| == |evs| && forall k :: 0 <= k < |at| ==> at[k] < |hits|
    requires forall k, l :: 0 <= k < l < |at| ==> at[k] < at[l]
    requires forall i, j :: 0 <= i < j < |hits| ==> hits[i] < hits[j]
    requires forall i :: 0 <= i < |hits| ==> hits[i] in kickOffsets || hits[i] in [0, 2 * Beat]
    requires forall k :: 0 <= k < |evs| ==> IsBassNote(evs[k], t0, hits, at[k], rootBass, intervals, mood)
    ensures forall e :: e in evs ==> e.d >= 6 * Sixteenth && (e.t - t0 in kickOffsets || e.t - t0 in [0, 2 * Beat])
    ensures forall k, l :: 0 <= k < l < |evs| ==> evs[k].t < evs[l].t
  {
    forall e | e in evs ensures e.d >= 6 * Sixteenth && (e.t - t0 in kickOffsets || e.t - t0 in [0, 2 * Beat]) {
      var k :| 0 <= k < |evs| && evs[k] == e;
      assert e.t - t0 == hits[at[k]];
    }
  }

  /** Every hit the stop leaves sounds: some bass note starts on it and
      lasts its sustain. */
  lemma BassHitSounds(evs: seq<Event>, t0: int, hits: seq<int>, at: seq<nat>, rootBass: int, intervals: seq<int>,
                      mood: Mood, stopHere: bool, stopTicks: int, i: nat)
    requires ScaleOk(intervals) && i < |hits|
    requires |at| == |evs| && forall k :: 0 <= k < |at| ==> at[k] < |hits|
    requires forall j :: 0 <= j < |hits| ==> (j in at <==> !Muted(stopHere, stopTicks, t0, t0 + hits[j]))
    requires forall k :: 0 <= k < |evs| ==> IsBassNote(evs[k], t0, hits, at[k], rootBass, intervals, mood)
    requires !Muted(stopHere, stopTicks, t0, t0 + hits[i])
    ensures SoundsAt(evs, t0 + hits[i], SustainLength(hits, i))
  {
    var k :| 0 <= k < |at| && at[k] == i;
    assert IsBassNote(evs[k], t0, hits, at[k], rootBass, intervals, mood);
    assert evs[k] in evs;
  }

  /** Some bass note of `evs` starts at tick `t` and lasts `d` ticks. */
  predicate SoundsAt(evs: seq<Event>, t: int, d: int)
  {
    exists e :: e in evs && e.t == t && e.d == d
  }

  /** Without a kick near beat 3, the bass of the bar at `t0` falls back
      to fixed hits: the downbeat and beat 3, two beats each, when the kick
      misses the downbeat; the downbeat for the whole bar when it plays
      there. Each of them sounds unless the stop silences it. */
  predicate FallbackBass(evs: seq<Event>, t0: int, kickOffsets: seq<int>, stopHere: bool, stopTicks: int)
  {
    && (NoneNearBeatThree(kickOffsets) && 0 !in kickOffsets ==>
          && (!Muted(stopHere, stopTicks, t0, t0) ==> SoundsAt(evs, t0, 2 * Beat))
          && (!Muted(stopHere, stopTicks, t0, t0 + 2 * Beat) ==> SoundsAt(evs, t0 + 2 * Beat, 2 * Beat)))
    && (NoneNearBeatThree(kickOffsets) && 0 in kickOffsets ==>
          !Muted(stopHere, stopTicks, t0, t0) ==> SoundsAt(evs, t0, Bar))
  }

  /** The bass `EmitBass` writes on the fallback hits. */
  lemma FallbackBassSounds(evs: seq<Event>, t0: int, hits: seq<int>, at: seq<nat>, rootBass: int, intervals: seq<int>,
                           mood: Mood, stopHere: bool, stopTicks: int, kickOffsets: seq<int>)
    requires ScaleOk(intervals)
    requires NoneNearBeatThree(kickOffsets) ==> hits == (if 0 in kickOffsets then [0] else [0, 2 * Beat])
    requires |at| == |evs| && forall k :: 0 <= k < |at| ==> at[k] < |hits|
    requires forall i :: 0 <= i < |hits| ==> (i in at <==> !Muted(stopHere, stopTicks, t0, t0 + hits[i]))
    requires forall k :: 0 <= k < |evs| ==> IsBassNote(evs[k], t0, hits, at[k], rootBass, intervals, mood)
    ensures FallbackBass(evs, t0, kickOffsets, stopHere, stopTicks)
  {
    if NoneNearBeatThree(kickOffsets) {
      if !Muted(stopHere, stopTicks, t0, t0) {
        BassHitSounds(evs, t0, hits, at, rootBass, intervals, mood, stopHere, stopTicks, 0);
      }
      if |hits| == 2 && !Muted(stopHere, stopTicks, t0, t0 + 2 * Beat) {
        BassHitSounds(evs, t0, hits, at, rootBass, intervals, mood, stopHere, stopTicks, 1);
      }
    }
  }

  // ----------------------------------------------------------------- pad

  /** The pad of one bar: a chord on degree 1 (p 0.55), else 6 or 4, one
      octave down, held for the whole bar. The third is left out for
      2HOLLIS and FENG and otherwise with probability 0.55. */
  method EmitPad(rng: Mulberry32, main: Artist, t0: int, d: real, rootMidi: int, intervals: seq<int>)
    returns (evs: seq<Event>, ghost chordDeg: int)
    requires rng.Valid()
    requires ScaleOk(intervals) && 12 <= rootMidi <= 100
    modifies rng
    ensures rng.Valid()
    ensures chordDeg == 1 || chordDeg == 4 || chordDeg == 6
    ensures 2 <= |evs| <= 3
    ensures (main == TwoHollis || main == Feng) ==> |evs| == 2
    ensures evs[0].n == DegreeToMidi(rootMidi, intervals, chordDeg, -1)
    ensures evs[|evs| - 1].n == evs[0].n + 7
    ensures |evs| == 3 ==> evs[1].n == DegreeToMidi(rootMidi, intervals, (chordDeg + 2 - 1) % 7 + 1, -1)
    ensures forall e :: e in evs ==> e.t == t0 && e.d == Bar && e.kind == Note && 30 <= e.v <= 70 && WellFormed(e)
  {
    var deg: int;
    var first := Chance(rng, 0.55);
    if first {
      deg := 1;
    } else {
      var sixth := Chance(rng, 0.5);
      deg := if sixth then 6 else 4;
    }
    chordDeg := deg;
    var n1 := DegreeToMidi(rootMidi, intervals, deg, -1);
    var n5 := n1 + 7;
    var n3 := DegreeToMidi(rootMidi, intervals, ((deg + 2 - 1) % 7) + 1, -1);
    var omitThird: bool;
    if main == TwoHollis || main == Feng {
      omitThird := true;
    } else {
      omitThird := Chance(rng, 0.55);
    }
    var notes := if omitThird then [n1, n5] else [n1, n3, n5];
    var vel := ClampInt(Round(45.0 + d * 12.0), 30, 70);
    evs := [];
    for i := 0 to |notes|
      invariant |evs| == i
      invariant forall k :: 0 <= k < i ==> evs[k] == NoteEvent(t0, Bar, notes[k], vel)
    {
      evs := evs + [NoteEvent(t0, Bar, notes[i], vel)];
    }
  }

  // ---------------------------------------------------------------- bell

  /** The bell of one bar: with probability `0.45 + d*0.20`, one note on
      degree 5 or 3 two octaves up, at beat 1.5 or 2.5 (ticks 720 or 1200),
      three sixteenths long, unless the stop silences it. */
  method EmitBell(rng: Mulberry32, t0: int, d: real, rootMidi: int, intervals: seq<int>, stopHere: bool, stopTicks: int)
    returns (evs: seq<Event>)
    requires rng.Valid()
    requires ScaleOk(intervals) && 0 <= rootMidi <= 92
    modifies rng
    ensures rng.Valid()
    ensures |evs| <= 1
    ensures forall e :: e in evs ==>
      && (e.t == t0 + 3 * Beat / 2 || e.t == t0 + 5 * Beat / 2)
      && e.d == 3 * Sixteenth && e.kind == Note && 55 <= e.v <= 95
      && (e.n == DegreeToMidi(rootMidi, intervals, 5, 2) || e.n == DegreeToMidi(rootMidi, intervals, 3, 2))
      && WellFormed(e) && InBarUnmuted(e, t0, stopHere, stopTicks)
  {
    evs := [];
    var ring := Chance(rng, 0.45 + d * 0.20);
    if ring {
      var fifth := Chance(rng, 0.5);
      var deg := if fifth then 5 else 3;
      var n := DegreeToMidi(rootMidi, intervals, deg, 2);
      var early := Chance(rng, 0.5);
      var tt := t0 + (if early then 3 * Beat / 2 else 5 * Beat / 2);
      if !(stopHere && tt < t0 + stopTicks) {
        evs := [NoteEvent(tt, Sixteenth * 3, n, ClampInt(Round(70.0 + d * 12.0), 55, 95))];
      }
    }
  }

  // ---------------------------------------------------------------- lead

  /** The lead motif's spacing: eighths for ESDEEKID and FIMIGUERRERO, quarters otherwise. */
  function LeadGrid(main: Artist): (g: int)
    ensures g == 2 * Sixteenth || g == 4 * Sixteenth
  {
    if main == EsdeeKid || main == FimiGuerrero then Sixteenth * 2 else Sixteenth * 4
  }

  /** The scale degrees the lead draws from. */
  function LeadPool(mood: Mood): (pool: seq<int>)
    ensures |pool| >= 5 && forall i :: 0 <= i < |pool| ==> 1 <= pool[i] <= 7
  {
    if mood == Dark then [1, 7, 6, 5, 4] else [1, 3, 5, 7, 2, 4]
  }

  /** Motif slot `i` of four starts at `i * grid`, inside the first four grid steps. */
  lemma SlotBounds(i: int, grid: int)
    requires 0 <= i < 4 && (grid == 2 * Sixteenth || grid == 4 * Sixteenth)
    ensures 0 <= i * grid && i * grid + grid == (i + 1) * grid && (i + 1) * grid <= 4 * grid
  {
  }

  /** Lead note `e` starts in [t0, hi), lasts one or two grid steps and
      escapes the stop. */
  predicate IsLeadNote(e: Event, t0: int, hi: int, grid: int, stopHere: bool, stopTicks: int)
  {
    && t0 <= e.t < hi
    && (e.d == grid || e.d == 2 * grid)
    && e.kind == Note && 55 <= e.v <= 118
    && WellFormed(e) && InBarUnmuted(e, t0, stopHere, stopTicks)
  }

  /** The pitch of one motif slot: a degree drawn from the pool. */
  method LeadPitch(rng: Mulberry32, mood: Mood, rootMidi: int, intervals: seq<int>, oct: int)
    returns (n: int, ghost deg: int)
    requires rng.Valid() && ScaleOk(intervals) && 0 <= rootMidi <= 104 && 0 <= oct <= 1
    modifies rng
    ensures rng.Valid()
    ensures deg in LeadPool(mood) && n == DegreeToMidi(rootMidi, intervals, deg, oct)
    ensures 0 <= n <= 127
  {
    var pool := LeadPool(mood);
    var k := DrawInt(rng, 0, |pool| - 1);
    n := DegreeToMidi(rootMidi, intervals, pool[k], oct);
    deg := pool[k];
  }

  /** One motif slot at tick `tt`: a rest with probability
      `0.18 + (1-d)*0.18`; else a pitch is drawn and, unless the stop
      silences the slot, a note of one grid step (probability 0.7) or two. */
  method LeadSlot(rng: Mulberry32, mood: Mood, tt: int, grid: int, d: real, rootMidi: int, intervals: seq<int>,
                  oct: int, t0: int, stopHere: bool, stopTicks: int)
    returns (note: Option<Event>, ghost deg: int)
    requires rng.Valid() && ScaleOk(intervals) && 0 <= rootMidi <= 104 && 0 <= oct <= 1
    requires grid == 2 * Sixteenth || grid == 4 * Sixteenth
    requires t0 <= tt && tt + grid <= t0 + 4 * grid
    modifies rng
    ensures rng.Valid()
    ensures note.Some? ==>
      && note.value.t == tt && IsLeadNote(note.value, t0, tt + grid, grid, stopHere, stopTicks)
      && deg in LeadPool(mood) && note.value.n == DegreeToMidi(rootMidi, intervals, deg, oct)
    ensures Muted(stopHere, stopTicks, t0, tt) ==> note.None?
  {
    note := None;
    deg := 1;
    var rest := Chance(rng, 0.18 + (1.0 - d) * 0.18);
    if rest {
      return;
    }
    var n;
    n, deg := LeadPitch(rng, mood, rootMidi, intervals, oct);
    if stopHere && tt < t0 + stopTicks {
      return;
    }
    var short := Chance(rng, 0.7);
    note := Some(NoteEvent(tt, if short then grid else grid * 2, n, ClampInt(Round(78.0 + d * 14.0), 55, 118)));
  }

  /** `x` is a whole, non-negative number of steps of length `grid`. */
  predicate OnGrid(x: int, grid: int)
    requires grid > 0
    decreases x
  {
    if x <= 0 then x == 0 else OnGrid(x - grid, grid)
  }

  /** On the lead grid, a whole number of steps is a multiple of the step. */
  lemma {:induction false} OnGridMod(x: int, grid: int)
    requires (grid == 2 * Sixteenth || grid == 4 * Sixteenth) && OnGrid(x, grid)
    ensures x >= 0 && x % grid == 0
    decreases x
  {
    if x > 0 {
      OnGridMod(x - grid, grid);
      if grid == 2 * Sixteenth {
        var q := (x - 2 * Sixteenth) / (2 * Sixteenth);
        assert x == 2 * Sixteenth * (q + 1);
      } else {
        var q := (x - 4 * Sixteenth) / (4 * Sixteenth);
        assert x == 4 * Sixteenth * (q + 1);
      }
    }
  }

  /** The lead notes placed before tick `tt`: in increasing ticks, on grid
      steps, each on a pool degree in octave `oct`. */
  predicate LeadSoFar(evs: seq<Event>, degs: seq<int>, t0: int, tt: int, grid: int, mood: Mood, rootMidi: int,
                      intervals: seq<int>, oct: int, stopHere: bool, stopTicks: int)
    requires ScaleOk(intervals) && grid > 0
  {
    && |degs| == |evs|
    && (forall j, k :: 0 <= j < k < |evs| ==> evs[j].t < evs[k].t)
    && (forall k :: 0 <= k < |evs| ==>
          degs[k] in LeadPool(mood) && evs[k].n == DegreeToMidi(rootMidi, intervals, degs[k], oct))
    && (forall k :: 0 <= k < |evs| ==>
          IsLeadNote(evs[k], t0, tt, grid, stopHere, stopTicks) && OnGrid(evs[k].t - t0, grid))
  }

  /** A note on slot `tt` extends the lead placed before `tt`. */
  lemma LeadAppend(evs: seq<Event>, degs: seq<int>, e: Event, deg: int, t0: int, tt: int, grid: int, mood: Mood,
                   rootMidi: int, intervals: seq<int>, oct: int, stopHere: bool, stopTicks: int)
    requires ScaleOk(intervals) && grid > 0
    requires LeadSoFar(evs, degs, t0, tt, grid, mood, rootMidi, intervals, oct, stopHere, stopTicks)
    requires e.t == tt && OnGrid(tt - t0, grid) && IsLeadNote(e, t0, tt + grid, grid, stopHere, stopTicks)
    requires deg in LeadPool(mood) && e.n == DegreeToMidi(rootMidi, intervals, deg, oct)
    ensures LeadSoFar(evs + [e], degs + [deg], t0, tt + grid, grid, mood, rootMidi, intervals, oct, stopHere, stopTicks)
  {
    var evs', degs' := evs + [e], degs + [deg];
    forall j, k | 0 <= j < k < |evs'| ensures evs'[j].t < evs'[k].t {
      assert evs'[j] == evs[j];
      if k < |evs| {
        assert evs'[k] == evs[k];
      } else {
        assert evs'[k] == e && IsLeadNote(evs[j], t0, tt, grid, stopHere, stopTicks);
      }
    }
    forall k | 0 <= k < |evs'|
      ensures degs'[k] in LeadPool(mood) && evs'[k].n == DegreeToMidi(rootMidi, intervals, degs'[k], oct)
      ensures IsLeadNote(evs'[k], t0, tt + grid, grid, stopHere, stopTicks) && OnGrid(evs'[k].t - t0, grid)
    {
      if k < |evs| {
        assert evs'[k] == evs[k] && degs'[k] == degs[k];
        assert IsLeadNote(evs[k], t0, tt, grid, stopHere, stopTicks);
      } else {
        assert evs'[k] == e && degs'[k] == deg;
      }
    }
  }

  /** Without a note the lead placed before `tt` is placed before the next slot. */
  lemma LeadWiden(evs: seq<Event>, degs: seq<int>, t0: int, tt: int, hi: int, grid: int, mood: Mood,
                  rootMidi: int, intervals: seq<int>, oct: int, stopHere: bool, stopTicks: int)
    requires ScaleOk(intervals) && grid > 0 && tt <= hi
    requires LeadSoFar(evs, degs, t0, tt, grid, mood, rootMidi, intervals, oct, stopHere, stopTicks)
    ensures LeadSoFar(evs, degs, t0, hi, grid, mood, rootMidi, intervals, oct, stopHere, stopTicks)
  {
  }

  /** What the lead placed before `hi` says note by note. */
  lemma LeadSoFarMeans(evs: seq<Event>, degs: seq<int>, t0: int, hi: int, grid: int, mood: Mood,
                       rootMidi: int, intervals: seq<int>, oct: int, stopHere: bool, stopTicks: int)
    requires ScaleOk(intervals) && (grid == 2 * Sixteenth || grid == 4 * Sixteenth)
    requires LeadSoFar(evs, degs, t0, hi, grid, mood, rootMidi, intervals, oct, stopHere, stopTicks)
    ensures |degs| == |evs|
    ensures forall j, k :: 0 <= j < k < |evs| ==> evs[j].t < evs[k].t
    ensures forall k :: 0 <= k < |evs| ==>
      && degs[k] in LeadPool(mood)
      && evs[k].n == DegreeToMidi(rootMidi, intervals, degs[k], oct)
    ensures forall e :: e in evs ==> IsLeadNote(e, t0, hi, grid, stopHere, stopTicks)
    ensures forall e :: e in evs ==> (e.t - t0) % grid == 0
  {
    forall e | e in evs
      ensures (e.t - t0) % grid == 0
    {
      OnGridMod(e.t - t0, grid);
    }
  }

  /** Slot `i` of the grid is `i` whole steps from the bar start. */
  lemma {:induction false} SlotOnGrid(i: nat, grid: int)
    requires grid > 0
    ensures OnGrid(i * grid, grid)
    decreases i
  {
    if i > 0 {
      SlotOnGrid(i - 1, grid);
      assert i * grid == (i - 1) * grid + grid;
    }
  }

  /** The start of motif slot `i`, counted step by step from `t0`. */
  function SlotStart(t0: int, i: nat, grid: int): int
  {
    if i == 0 then t0 else SlotStart(t0, i - 1, grid) + grid
  }

  /** Counting `i` steps of `grid` from `t0` reaches `t0 + i*grid`. */
  lemma {:induction false} SlotStartIs(t0: int, i: nat, grid: int)
    ensures SlotStart(t0, i, grid) == t0 + i * grid
  {
    if i > 0 {
      SlotStartIs(t0, i - 1, grid);
      assert (i - 1) * grid + grid == i * grid;
    }
  }

  /** Motif slot `i`, at `t0 + i*grid`: its note, if `LeadSlot` plays one, extends the lead. */
  method LeadStep(rng: Mulberry32, mood: Mood, i: nat, grid: int, d: real, rootMidi: int, intervals: seq<int>,
                  oct: int, t0: int, stopHere: bool, stopTicks: int, evs: seq<Event>, ghost degs: seq<int>)
    returns (evs': seq<Event>, ghost degs': seq<int>)
    requires rng.Valid() && ScaleOk(intervals) && 0 <= rootMidi <= 104 && 0 <= oct <= 1
    requires grid == 2 * Sixteenth || grid == 4 * Sixteenth
    requires i < 4
    requires LeadSoFar(evs, degs, t0, SlotStart(t0, i, grid), grid, mood, rootMidi, intervals, oct, stopHere, stopTicks)
    modifies rng
    ensures rng.Valid() && |evs'| <= |evs| + 1
    ensures LeadSoFar(evs', degs', t0, SlotStart(t0, i + 1, grid), grid, mood, rootMidi, intervals, oct, stopHere, stopTicks)
  {
    SlotBounds(i, grid);
    SlotOnGrid(i, grid);
    SlotStartIs(t0, i, grid);
    var tt := t0 + i * grid;
    assert tt == SlotStart(t0, i, grid) && tt + grid == SlotStart(t0, i + 1, grid);
    var note, deg := LeadSlot(rng, mood, tt, grid, d, rootMidi, intervals, oct, t0, stopHere, stopTicks);
    if note.Some? {
      LeadAppend(evs, degs, note.value, deg, t0, tt, grid, mood, rootMidi, intervals, oct, stopHere, stopTicks);
      evs' := evs + [note.value];
      degs' := degs + [deg];
    } else {
      LeadWiden(evs, degs, t0, tt, tt + grid, grid, mood, rootMidi, intervals, oct, stopHere, stopTicks);
      evs' := evs;
      degs' := degs;
    }
  }

  /** The first `count` motif slots of a lead bar, one `LeadStep` each. */
  method LeadSlots(rng: Mulberry32, mood: Mood, count: int, grid: int, d: real, rootMidi: int, intervals: seq<int>,
                   oct: int, t0: int, stopHere: bool, stopTicks: int)
    returns (evs: seq<Event>, ghost degs: seq<int>)
    requires rng.Valid() && ScaleOk(intervals) && 0 <= rootMidi <= 104 && 0 <= oct <= 1
    requires grid == 2 * Sixteenth || grid == 4 * Sixteenth
    requires 0 <= count <= 4
    modifies rng
    ensures rng.Valid() && |evs| <= count
    ensures LeadSoFar(evs, degs, t0, SlotStart(t0, count, grid), grid, mood, rootMidi, intervals, oct, stopHere, stopTicks)
  {
    evs := [];
    degs := [];
    for i := 0 to count
      invariant rng.Valid() && |evs| <= i
      invariant LeadSoFar(evs, degs, t0, SlotStart(t0, i, grid), grid, mood, rootMidi, intervals, oct, stopHere, stopTicks)
    {
      evs, degs := LeadStep(rng, mood, i, grid, d, rootMidi, intervals, oct, t0, stopHere, stopTicks, evs, degs);
    }
  }

  /** The lead of one bar: 3 or 4 motif slots on the lead grid; each slot
      is skipped with probability `0.18 + (1-d)*0.18`, else plays a degree
      drawn from the pool (an octave up for BLADEE), one grid step long
      with probability 0.7 and two otherwise. */
  method EmitLead(rng: Mulberry32, main: Artist, mood: Mood, t0: int, d: real, rootMidi: int, intervals: seq<int>,
                  stopHere: bool, stopTicks: int)
    returns (evs: seq<Event>, ghost degs: seq<int>)
    requires rng.Valid()
    requires ScaleOk(intervals) && 0 <= rootMidi <= 104
    modifies rng
    ensures rng.Valid()
    ensures |evs| <= 4 && |degs| == |evs|
    ensures forall j, k :: 0 <= j < k < |evs| ==> evs[j].t < evs[k].t
    ensures forall k :: 0 <= k < |evs| ==>
      && degs[k] in LeadPool(mood)
      && evs[k].n == DegreeToMidi(rootMidi, intervals, degs[k], if main == Bladee then 1 else 0)
    ensures forall e :: e in evs ==> IsLeadNote(e, t0, t0 + 4 * LeadGrid(main), LeadGrid(main), stopHere, stopTicks)
    ensures forall e :: e in evs ==> (e.t - t0) % LeadGrid(main) == 0
  {
    var grid := LeadGrid(main);
    var three := Chance(rng, 0.5);
    var count := if three then 3 else 4;
    var oct := if main == Bladee then 1 else 0;
    evs, degs := LeadSlots(rng, mood, count, grid, d, rootMidi, intervals, oct, t0, stopHere, stopTicks);
    SlotBounds(count - 1, grid);
    SlotStartIs(t0, count, grid);
    LeadWiden(evs, degs, t0, SlotStart(t0, count, grid), t0 + 4 * grid, grid, mood, rootMidi, intervals, oct, stopHere, stopTicks);
    LeadSoFarMeans(evs, degs, t0, t0 + 4 * grid, grid, mood, rootMidi, intervals, oct, stopHere, stopTicks);
  }

  // ------------------------------------------------------------ the song

  /** Whether layer `id` plays in a bar with flags `l`. */
  predicate LayerOn(id: TrackId, l: Layers)
  {
    match id
    case Pad => l.pad
    case Lead => l.lead
    case Bell => l.bell
    case Bass => l.bass
    case KickTrack => l.kick
    case SnareTrack => l.snare
    case Hats => l.hats
  }

  /** What every event of track `id` satisfies in the rendered song:
      - it is a well-formed MIDI event at a non-negative tick;
      - pad chords start on a bar line, last the whole bar and are the
        one layer the stop does not silence;
      - a hat roll hit (the only hat of length 30) belongs to a bar whose
        hats are on and may spill up to half a bar past its end;
      - every other event lies in a bar where its layer is on and outside
        the stop window;
      - a bass note lasts at least six sixteenths. */
  predicate TrackOk(plan: Plan, id: TrackId, e: Event)
    requires PlanShaped(plan)
  {
    && WellFormed(e) && 0 <= e.t
    && if id == Hats && e.d == RollHitLength then
         && RollStart(0) <= e.t && (e.t - RollStart(0)) / Bar < plan.bars
         && plan.layers[(e.t - RollStart(0)) / Bar].hats
       else
         && e.t < plan.bars * Bar && LayerOn(id, plan.layers[e.t / Bar])
         && (id == Pad ==> e.t % Bar == 0 && e.d == Bar)
         && (id == Bass ==> e.d >= 6 * Sixteenth)
         && (id != Pad ==> !InStopWindow(plan, e.t))
  }

  /** The events a layer places in bar `bar` under the bar's own stop test
      are events of its track in the song. */
  lemma BarEventsOk(plan: Plan, bar: nat, id: TrackId, seg: seq<Event>)
    requires PlanShaped(plan) && bar < plan.bars && id != Pad && LayerOn(id, plan.layers[bar])
    requires id == Hats ==> forall e :: e in seg ==> e.d != RollHitLength
    requires id == Bass ==> forall e :: e in seg ==> e.d >= 6 * Sixteenth
    requires forall e :: e in seg ==> WellFormed(e) && InBarUnmuted(e, bar * Bar, StopHere(plan, bar), StopTicksAt(plan, bar))
    ensures forall e :: e in seg ==> TrackOk(plan, id, e)
  {
    forall e | e in seg ensures TrackOk(plan, id, e) {
      InBarOutsideWindow(plan, bar, e, StopHere(plan, bar), StopTicksAt(plan, bar));
    }
  }

  lemma PadEventsOk(plan: Plan, bar: nat, seg: seq<Event>)
    requires PlanShaped(plan) && bar < plan.bars && plan.layers[bar].pad
    requires forall e :: e in seg ==> WellFormed(e) && e.t == bar * Bar && e.d == Bar
    ensures forall e :: e in seg ==> TrackOk(plan, Pad, e)
  {
  }

  lemma HatEventsOk(plan: Plan, bar: nat, seg: seq<Event>, grid: int)
    requires PlanShaped(plan) && bar < plan.bars && plan.layers[bar].hats
    requires grid == Sixteenth || grid == 2 * Sixteenth || grid == 4 * Sixteenth
    requires forall e :: e in seg ==> WellFormed(e) && !Muted(StopHere(plan, bar), StopTicksAt(plan, bar), bar * Bar, e.t)
    requires forall e :: e in seg ==>
      || (e.d == grid / 2 && InBarUnmuted(e, bar * Bar, StopHere(plan, bar), StopTicksAt(plan, bar)))
      || (e.d == RollHitLength && RollStart(bar * Bar) <= e.t < RollStart(bar * Bar) + RollSpan)
    ensures forall e :: e in seg ==> TrackOk(plan, Hats, e)
  {
    forall e | e in seg ensures TrackOk(plan, Hats, e) {
      if e.d == RollHitLength {
        assert (e.t - RollStart(0)) / Bar == bar;
      } else {
        InBarOutsideWindow(plan, bar, e, StopHere(plan, bar), StopTicksAt(plan, bar));
      }
    }
  }

  /** The drums of one bar: the snare, the kick of the bar's section cell
      (a fresh draw only when the section has no stored cell), the hats. */
  method RenderDrums(rng: Mulberry32, plan: Plan, bar: nat, snareBeats: seq<int>, sectionKick: map<string, string>)
    returns (kick: seq<Event>, snare: seq<Event>, hats: seq<Event>, kickOffsets: seq<int>)
    requires rng.Valid() && PlanShaped(plan) && bar < plan.bars
    requires forall i :: 0 <= i < |snareBeats| ==> 1 <= snareBeats[i] <= 4
    requires forall name :: name in sectionKick ==> IsCell(sectionKick[name])
    modifies rng
    ensures rng.Valid()
    ensures forall e :: e in kick ==> TrackOk(plan, KickTrack, e)
    ensures forall e :: e in snare ==> TrackOk(plan, SnareTrack, e)
    ensures forall e :: e in hats ==> TrackOk(plan, Hats, e)
    ensures forall j :: 0 <= j < |kickOffsets| ==> 0 <= kickOffsets[j] < Bar
    ensures !plan.layers[bar].kick ==> kickOffsets == []
    ensures plan.layers[bar].kick && plan.layers[bar].section in sectionKick ==>
      kickOffsets == PatternOffsets(sectionKick[plan.layers[bar].section])
    ensures plan.layers[bar].section in sectionKick ==> kick == KickBarOf(plan, sectionKick, bar)
  {
    var layer := plan.layers[bar];
    var d := plan.density[bar];
    var t0 := bar * Bar;
    var stopHere := plan.stop.Some? && plan.stop.value.bar == bar + 1;
    var stopTicks := if stopHere then Round(plan.stop.value.beats * (Beat as real)) else 0;
    assert stopHere == StopHere(plan, bar) && stopTicks == StopTicksAt(plan, bar);

    snare := [];
    if layer.snare {
      snare := EmitSnare(rng, snareBeats, t0, stopHere, stopTicks);
      BarEventsOk(plan, bar, SnareTrack, snare);
    }

    kick, kickOffsets := RenderKick(rng, plan, bar, sectionKick);

    hats := [];
    if layer.hats {
      var grid := HatGrid(plan.mainArtist);
      hats := EmitHats(rng, grid, t0, d, stopHere, stopTicks,
                       plan.mood == Rushed || plan.mainArtist == EsdeeKid || plan.mainArtist == FimiGuerrero);
      HatEventsOk(plan, bar, hats, grid);
    }
  }

  /** `sectionKick.get(layer.section) || pickKickPattern(...)`: the stored
      cell of the section, or a freshly drawn one when the section has none
      (drawn even when the kick is off). */
  method KickCell(rng: Mulberry32, main: Artist, section: string, sectionKick: map<string, string>)
    returns (secPat: string)
    requires rng.Valid()
    requires forall name :: name in sectionKick ==> IsCell(sectionKick[name])
    modifies rng
    ensures rng.Valid() && IsCell(secPat)
    ensures section in sectionKick ==> secPat == sectionKick[section] && rng.history == old(rng.history)
    ensures section !in sectionKick ==>
      Drew(old(rng.history), rng.history, 1) && secPat == KickBank(main)[RandInt(rng.history[|old(rng.history)|], 0, 2)]
  {
    if section in sectionKick {
      secPat := sectionKick[section];
    } else {
      secPat := PickKickPattern(rng, main);
    }
  }

  method RenderKick(rng: Mulberry32, plan: Plan, bar: nat, sectionKick: map<string, string>)
    returns (kick: seq<Event>, kickOffsets: seq<int>)
    requires rng.Valid() && PlanShaped(plan) && bar < plan.bars
    requires forall name :: name in sectionKick ==> IsCell(sectionKick[name])
    modifies rng
    ensures rng.Valid()
    ensures forall e :: e in kick ==> TrackOk(plan, KickTrack, e)
    ensures forall j :: 0 <= j < |kickOffsets| ==> 0 <= kickOffsets[j] < Bar
    ensures !plan.layers[bar].kick ==> kickOffsets == []
    ensures plan.layers[bar].kick && plan.layers[bar].section in sectionKick ==>
      kickOffsets == PatternOffsets(sectionKick[plan.layers[bar].section])
    ensures plan.layers[bar].section in sectionKick ==> kick == KickBarOf(plan, sectionKick, bar)
  {
    var layer := plan.layers[bar];
    var secPat := KickCell(rng, plan.mainArtist, layer.section, sectionKick);
    kickOffsets := [];
    if layer.kick {
      kickOffsets := StepsToOffsets(secPat);
    }
    kick := EmitKick(bar * Bar, kickOffsets, StopHere(plan, bar), StopTicksAt(plan, bar));
    if layer.kick {
      BarEventsOk(plan, bar, KickTrack, kick);
    }
  }

  /** The bass layer of bar `bar` of the plan, at the bar's stop. */
  method BarBass(rng: Mulberry32, plan: Plan, bar: nat, kickOffsets: seq<int>, intervals: seq<int>)
    returns (bass: seq<Event>)
    requires rng.Valid() && PlanShaped(plan) && bar < plan.bars && plan.layers[bar].bass
    requires ScaleOk(intervals)
    requires forall j :: 0 <= j < |kickOffsets| ==> 0 <= kickOffsets[j] < Bar
    modifies rng
    ensures rng.Valid()
    ensures forall e :: e in bass ==> TrackOk(plan, Bass, e)
    ensures forall e :: e in bass ==>
      e.d >= 6 * Sixteenth && (e.t - bar * Bar in kickOffsets || e.t - bar * Bar in [0, 2 * Beat])
    ensures forall k, l :: 0 <= k < l < |bass| ==> bass[k].t < bass[l].t
    ensures FallbackBass(bass, bar * Bar, kickOffsets, StopHere(plan, bar), StopTicksAt(plan, bar))
  {
    ghost var hits, at;
    bass, hits, at := EmitBass(rng, kickOffsets, plan.mood, bar * Bar, 36 + plan.root, intervals,
                               StopHere(plan, bar), StopTicksAt(plan, bar));
    BassTrackOk(plan, bar, bass, bar * Bar, StopHere(plan, bar), StopTicksAt(plan, bar));
  }

  /** Bass notes that start inside the bar outside its stop and last at
      least six sixteenths meet the bass track's invariant. */
  lemma BassTrackOk(plan: Plan, bar: nat, bass: seq<Event>, t0: int, stopHere: bool, stopTicks: int)
    requires PlanShaped(plan) && bar < plan.bars && plan.layers[bar].bass
    requires t0 == bar * Bar && stopHere == StopHere(plan, bar) && stopTicks == StopTicksAt(plan, bar)
    requires forall e :: e in bass ==> WellFormed(e) && InBarUnmuted(e, t0, stopHere, stopTicks)
    requires forall e :: e in bass ==> e.d >= 6 * Sixteenth
    ensures forall e :: e in bass ==> TrackOk(plan, Bass, e)
  {
    BarEventsOk(plan, bar, Bass, bass);
  }

  /** The tonal layers of one bar: bass, pad, bell and lead, in that order. */
  method RenderTonal(rng: Mulberry32, plan: Plan, bar: nat, kickOffsets: seq<int>, intervals: seq<int>)
    returns (bass: seq<Event>, pad: seq<Event>, bell: seq<Event>, lead: seq<Event>)
    requires rng.Valid() && PlanShaped(plan) && bar < plan.bars
    requires ScaleOk(intervals)
    requires forall j :: 0 <= j < |kickOffsets| ==> 0 <= kickOffsets[j] < Bar
    modifies rng
    ensures rng.Valid()
    ensures forall e :: e in bass ==> TrackOk(plan, Bass, e)
    ensures forall e :: e in bass ==>
      e.d >= 6 * Sixteenth && (e.t - bar * Bar in kickOffsets || e.t - bar * Bar in [0, 2 * Beat])
    ensures forall k, l :: 0 <= k < l < |bass| ==> bass[k].t < bass[l].t
    ensures plan.layers[bar].bass ==>
      FallbackBass(bass, bar * Bar, kickOffsets, StopHere(plan, bar), StopTicksAt(plan, bar))
    ensures !plan.layers[bar].bass ==> bass == []
    ensures forall e :: e in pad ==> TrackOk(plan, Pad, e)
    ensures forall e :: e in bell ==> TrackOk(plan, Bell, e)
    ensures forall e :: e in lead ==> TrackOk(plan, Lead, e)
  {
    var layer := plan.layers[bar];
    var d := plan.density[bar];
    var t0 := bar * Bar;
    var stopHere := plan.stop.Some? && plan.stop.value.bar == bar + 1;
    var stopTicks := if stopHere then Round(plan.stop.value.beats * (Beat as real)) else 0;
    assert stopHere == StopHere(plan, bar) && stopTicks == StopTicksAt(plan, bar);
    var rootMidi := 60 + plan.root;
    var rootBass := 36 + plan.root;

    bass := [];
    if layer.bass {
      bass := BarBass(rng, plan, bar, kickOffsets, intervals);
    }
    pad := [];
    if layer.pad {
      ghost var chordDeg;
      pad, chordDeg := EmitPad(rng, plan.mainArtist, t0, d, rootMidi, intervals);
      PadEventsOk(plan, bar, pad);
    }
    bell := [];
    if layer.bell {
      bell := EmitBell(rng, t0, d, rootMidi, intervals, stopHere, stopTicks);
      BarEventsOk(plan, bar, Bell, bell);
    }
    lead := [];
    if layer.lead {
      ghost var degs;
      lead, degs := EmitLead(rng, plan.mainArtist, plan.mood, t0, d, rootMidi, intervals, stopHere, stopTicks);
      BarEventsOk(plan, bar, Lead, lead);
    }
  }

  /** Bass note `e` starts on a hit of its bar: the downbeat, beat 3, or
      an offset of the bar's kick cell when the kick plays. */
  predicate BassOnHit(plan: Plan, kicks: map<string, string>, e: Event)
    requires PlanShaped(plan)
  {
    && 0 <= e.t < plan.bars * Bar
    && BarHit(plan, kicks, e.t / Bar, e.t % Bar)
  }

  /** The bass of bar `bar`, placed on its hits, starts on hits of the song. */
  lemma BassBarOnHit(plan: Plan, kicks: map<string, string>, bar: nat, kickOffsets: seq<int>, seg: seq<Event>)
    requires PlanShaped(plan) && bar < plan.bars && AllNamed(plan, kicks)
    requires forall j :: 0 <= j < |kickOffsets| ==> 0 <= kickOffsets[j] < Bar
    requires !plan.layers[bar].kick ==> kickOffsets == []
    requires plan.layers[bar].kick && plan.layers[bar].section in kicks ==>
      kickOffsets == PatternOffsets(kicks[plan.layers[bar].section])
    requires forall e :: e in seg ==> e.t - bar * Bar in kickOffsets || e.t - bar * Bar in [0, 2 * Beat]
    ensures forall e :: e in seg ==> BassOnHit(plan, kicks, e)
  {
    forall e | e in seg ensures BassOnHit(plan, kicks, e) {
      BassNoteOnHit(plan, kicks, bar, kickOffsets, e);
    }
  }

  /** One bass note of bar `bar`, placed on one of its hits. */
  lemma BassNoteOnHit(plan: Plan, kicks: map<string, string>, bar: nat, kickOffsets: seq<int>, e: Event)
    requires PlanShaped(plan) && bar < plan.bars && AllNamed(plan, kicks)
    requires forall j :: 0 <= j < |kickOffsets| ==> 0 <= kickOffsets[j] < Bar
    requires !plan.layers[bar].kick ==> kickOffsets == []
    requires plan.layers[bar].kick && plan.layers[bar].section in kicks ==>
      kickOffsets == PatternOffsets(kicks[plan.layers[bar].section])
    requires e.t - bar * Bar in kickOffsets || e.t - bar * Bar in [0, 2 * Beat]
    ensures BassOnHit(plan, kicks, e)
  {
    var off := e.t - bar * Bar;
    OffsetInBar(kickOffsets, off);
    TickInBar(e.t, bar, off, plan.bars);
    assert BarHit(plan, kicks, bar, off) by {
      if off != 0 && off != 2 * Beat {
        assert off in kickOffsets && plan.layers[bar].kick && plan.layers[bar].section in kicks;
      }
    }
    BarHitOnHit(plan, kicks, e, bar, off);
  }

  /** Offset `off` is a hit of bar `b`: the downbeat, beat 3, or a step
      of the bar's kick cell when the kick plays. */
  predicate BarHit(plan: Plan, kicks: map<string, string>, b: nat, off: int)
    requires b < |plan.layers|
  {
    || off == 0 || off == 2 * Beat
    || (plan.layers[b].kick && plan.layers[b].section in kicks
        && off in PatternOffsets(kicks[plan.layers[b].section]))
  }

  /** A note at a hit `off` ticks into bar `bar` is on a hit of the song. */
  lemma BarHitOnHit(plan: Plan, kicks: map<string, string>, e: Event, bar: nat, off: int)
    requires PlanShaped(plan) && bar < plan.bars
    requires e.t / Bar == bar && e.t % Bar == off && 0 <= e.t < plan.bars * Bar
    requires BarHit(plan, kicks, bar, off)
    ensures BassOnHit(plan, kicks, e)
  {
  }

  /** A hit offset lies inside the bar. */
  lemma OffsetInBar(kickOffsets: seq<int>, off: int)
    requires forall j :: 0 <= j < |kickOffsets| ==> 0 <= kickOffsets[j] < Bar
    requires off in kickOffsets || off in [0, 2 * Beat]
    ensures 0 <= off < Bar
  {
    if off in kickOffsets {
      var j :| 0 <= j < |kickOffsets| && kickOffsets[j] == off;
    }
  }

  /** A tick `off` into bar `bar` lies in that bar of a song of `bars` bars. */
  lemma TickInBar(t: int, bar: nat, off: int, bars: nat)
    requires off == t - bar * Bar && 0 <= off < Bar && bar < bars
    ensures t / Bar == bar && t % Bar == off && 0 <= t < bars * Bar
  {
    assert bar * Bar + Bar <= bars * Bar by {
      assert (bars - bar) * Bar >= Bar;
    }
  }

  /** All events of `s` belong to track `id`. */
  predicate AllOk(plan: Plan, id: TrackId, s: seq<Event>)
    requires PlanShaped(plan)
  {
    forall e :: e in s ==> TrackOk(plan, id, e)
  }

  /** The loop over the bars, appending each bar's events to the tracks. */
  method RenderBars(rng: Mulberry32, plan: Plan, snareBeats: seq<int>, sectionKick: map<string, string>)
    returns (pad: seq<Event>, lead: seq<Event>, bell: seq<Event>, bass: seq<Event>,
             kick: seq<Event>, snare: seq<Event>, hats: seq<Event>)
    requires rng.Valid() && PlanShaped(plan)
    requires forall i :: 0 <= i < |snareBeats| ==> 1 <= snareBeats[i] <= 4
    requires forall name :: name in sectionKick ==> IsCell(sectionKick[name])
    modifies rng
    ensures rng.Valid()
    ensures AllOk(plan, Pad, pad) && AllOk(plan, Lead, lead) && AllOk(plan, Bell, bell) && AllOk(plan, Bass, bass)
    ensures AllOk(plan, KickTrack, kick) && AllOk(plan, SnareTrack, snare) && AllOk(plan, Hats, hats)
    ensures AllNamed(plan, sectionKick) ==> kick == KickTrackOf(plan, sectionKick, plan.bars)
    ensures AllNamed(plan, sectionKick) ==> forall e :: e in bass ==> BassOnHit(plan, sectionKick, e)
  {
    var intervals := ScaleIntervals(plan.scale);
    pad, lead, bell, bass, kick, snare, hats := [], [], [], [], [], [], [];
    for bar := 0 to plan.bars
      invariant rng.Valid()
      invariant AllOk(plan, Pad, pad) && AllOk(plan, Lead, lead) && AllOk(plan, Bell, bell) && AllOk(plan, Bass, bass)
      invariant AllOk(plan, KickTrack, kick) && AllOk(plan, SnareTrack, snare) && AllOk(plan, Hats, hats)
      invariant AllNamed(plan, sectionKick) ==> kick == KickTrackOf(plan, sectionKick, bar)
      invariant AllNamed(plan, sectionKick) ==> forall e :: e in bass ==> BassOnHit(plan, sectionKick, e)
    {
      var k, sn, h, kickOffsets := RenderDrums(rng, plan, bar, snareBeats, sectionKick);
      var ba, pa, be, le := RenderTonal(rng, plan, bar, kickOffsets, intervals);
      if AllNamed(plan, sectionKick) {
        BassBarOnHit(plan, sectionKick, bar, kickOffsets, ba);
      }
      pad, lead, bell, bass := pad + pa, lead + le, bell + be, bass + ba;
      kick, snare, hats := kick + k, snare + sn, hats + h;
    }
  }

  /** `tracks[k].sort((a, b) => a.t - b.t)` for every track. */
  function SortTracks(ts: Tracks): Tracks
  {
    Tracks(SortBy(ts.pad, StartTick), SortBy(ts.lead, StartTick), SortBy(ts.bell, StartTick),
           SortBy(ts.bass, StartTick), SortBy(ts.kick, StartTick), SortBy(ts.snare, StartTick),
           SortBy(ts.hats, StartTick))
  }

  lemma GetSorted(ts: Tracks, id: TrackId)
    ensures Get(SortTracks(ts), id) == SortBy(Get(ts, id), StartTick)
  {
  }

  /** After the sort every track is in tick order and holds the events
      that were generated for it. */
  lemma SortTracksSpec(ts: Tracks)
    ensures forall id :: SortedBy(Get(SortTracks(ts), id), StartTick)
    ensures forall id :: multiset(Get(SortTracks(ts), id)) == multiset(Get(ts, id))
  {
    forall id ensures SortedBy(Get(SortTracks(ts), id), StartTick) && multiset(Get(SortTracks(ts), id)) == multiset(Get(ts, id)) {
      GetSorted(ts, id);
    }
  }

  /** The track facts of every track survive the sort. */
  lemma SortedTracksOk(plan: Plan, ts: Tracks)
    requires PlanShaped(plan) && forall id :: AllOk(plan, id, Get(ts, id))
    ensures forall id :: AllOk(plan, id, Get(SortTracks(ts), id))
  {
    forall id ensures AllOk(plan, id, Get(SortTracks(ts), id)) {
      GetSorted(ts, id);
      SortedOk(plan, id, Get(ts, id));
    }
  }

  /** Sorting keeps every event in its track, so the track facts survive it. */
  lemma SortedOk(plan: Plan, id: TrackId, s: seq<Event>)
    requires PlanShaped(plan) && AllOk(plan, id, s)
    ensures AllOk(plan, id, SortBy(s, StartTick))
  {
    forall e | e in SortBy(s, StartTick) ensures TrackOk(plan, id, e) {
      SortByMembers(s, StartTick, e);
    }
  }

  /** The section cells of a fresh stream: each name holds the cell of
      the draw at its last section's position. */
  method SongKicks(rng: Mulberry32, secs: seq<Section>, main: Artist) returns (kicks: map<string, string>)
    requires rng.Valid() && rng.history == []
    modifies rng
    ensures rng.Valid() && rng.seed == old(rng.seed)
    ensures kicks.Keys == SectionNames(secs)
    ensures forall name :: name in kicks ==> IsCell(kicks[name])
    ensures forall name :: name in kicks ==>
      kicks[name] == KickBank(main)[RandInt(Draw(rng.seed, LastNamed(secs, name)), 0, 2)]
  {
    ghost var picks;
    kicks, picks := PickSectionKicks(rng, secs, main);
    forall name | name in kicks
      ensures kicks[name] == KickBank(main)[RandInt(Draw(rng.seed, LastNamed(secs, name)), 0, 2)]
    {
      var i := LastNamed(secs, name);
      HistoryIsStream(rng, i);
      assert kicks[name] == picks[i] == KickBank(main)[RandInt(rng.history[0 + i], 0, 2)];
    }
  }

  /** `buildSong`. The renderer's stream is seeded with `seed ^ 0xA11CE`.
      One kick cell is drawn per section, then FENG's snare placement,
      then the bars in order; each track is finally sorted by start tick.
      `raw` holds the tracks as generated, before the sort, and `kicks`
      the section cells. */
  method BuildSong(plan: Plan) returns (song: Song, ghost raw: Tracks, ghost kicks: map<string, string>)
    requires PlanShaped(plan)
    ensures song.seed == plan.seed && song.bpm == plan.bpm && song.root == plan.root && song.scale == plan.scale
    ensures song.bars == plan.bars && song.sketch == plan.sketch && song.mood == plan.mood
    ensures song.artists == plan.artists && song.mainArtist == plan.mainArtist && song.plan == plan
    ensures song.tracks == SortTracks(raw)
    ensures forall id :: SortedBy(Get(song.tracks, id), StartTick)
    ensures forall id :: multiset(Get(song.tracks, id)) == multiset(Get(raw, id))
    ensures forall id :: AllOk(plan, id, Get(song.tracks, id))
    ensures kicks.Keys == SectionNames(plan.sections)
    ensures forall name :: name in kicks ==> IsCell(kicks[name])
    ensures forall name :: name in kicks ==>
      kicks[name] == KickBank(plan.mainArtist)[RandInt(Draw(plan.seed ^ RenderSalt, LastNamed(plan.sections, name)), 0, 2)]
    ensures AllNamed(plan, kicks) ==> song.tracks.kick == KickTrackOf(plan, kicks, plan.bars)
    ensures AllNamed(plan, kicks) ==> forall e :: e in song.tracks.bass ==> BassOnHit(plan, kicks, e)
  {
    var rng := new Mulberry32(plan.seed ^ RenderSalt);
    var sectionKick := SongKicks(rng, plan.sections, plan.mainArtist);
    kicks := sectionKick;
    var snareBeats := [2, 4];
    if plan.mainArtist == Feng {
      var third := Chance(rng, 0.35);
      if third {
        snareBeats := [3];
      }
    }
    var pad, lead, bell, bass, kick, snare, hats := RenderBars(rng, plan, snareBeats, sectionKick);
    var generated := Tracks(pad, lead, bell, bass, kick, snare, hats);
    raw := generated;
    var tracks := SortTracks(generated);
    assert forall id :: AllOk(plan, id, Get(generated, id));
    SortedTracksOk(plan, generated);
    SortTracksSpec(generated);
    if AllNamed(plan, sectionKick) {
      SortBySorted(kick, StartTick);
      forall e | e in tracks.bass ensures BassOnHit(plan, kicks, e) {
        SortByMembers(bass, StartTick, e);
      }
    }
    song := Song(plan.seed, plan.bpm, plan.root, plan.scale, plan.bars, plan.sketch, plan.mood,
                 plan.artists, plan.mainArtist, plan, tracks);
  }

  // ------------------------------------------------------- song properties

  /** The events `evs` moved `dt` ticks later. */
  function Shift(evs: seq<Event>, dt: int): seq<Event>
  {
    if evs == [] then [] else [evs[0].(t := evs[0].t + dt)] + Shift(evs[1..], dt)
  }

  /** Moving a bar's unstopped kick hits from bar `b1` to bar `b2`. */
  lemma {:induction false} KickFromShift(b1: int, b2: int, offsets: seq<int>, i: nat)
    requires i <= |offsets|
    requires IsOffsets(offsets)
    ensures KickFrom(b2 * Bar, offsets, i, false, 0) == Shift(KickFrom(b1 * Bar, offsets, i, false, 0), b2 * Bar - b1 * Bar)
    decreases |offsets| - i
  {
    if i < |offsets| {
      KickFromShift(b1, b2, offsets, i + 1);
      var rest := KickFrom(b1 * Bar, offsets, i + 1, false, 0);
      var e := DrumEvent(b1 * Bar + offsets[i], Sixteenth, KickNote, 120);
      assert KickFrom(b1 * Bar, offsets, i, false, 0) == [e] + rest;
      assert ([e] + rest)[1..] == rest;
    }
  }

  /** A bar that is not the stop bar and has its kick layer on plays its
      section's cell unmuted. */
  lemma KickBarOfUnstopped(plan: Plan, kicks: map<string, string>, b: nat, p: string)
    requires b < |plan.layers| && plan.layers[b].section in kicks
    requires kicks[plan.layers[b].section] == p
    requires !StopHere(plan, b) && plan.layers[b].kick
    ensures KickBarOf(plan, kicks, b) == KickFrom(b * Bar, PatternOffsets(p), 0, false, 0)
  {
    assert StopTicksAt(plan, b) == 0;
  }

  /** Cohesion: two bars of the same section, neither of them the stop
      bar, play the same kick hits, one a whole number of bars after the other. */
  lemma SameSectionSameKick(plan: Plan, kicks: map<string, string>, b1: nat, b2: nat)
    requires AllNamed(plan, kicks) && b1 < |plan.layers| && b2 < |plan.layers|
    requires plan.layers[b1].section == plan.layers[b2].section
    requires plan.layers[b1].kick == plan.layers[b2].kick
    requires !StopHere(plan, b1) && !StopHere(plan, b2)
    ensures KickBarOf(plan, kicks, b2) == Shift(KickBarOf(plan, kicks, b1), b2 * Bar - b1 * Bar)
  {
    if plan.layers[b1].kick {
      var p := kicks[plan.layers[b1].section];
      KickBarOfUnstopped(plan, kicks, b1, p);
      KickBarOfUnstopped(plan, kicks, b2, p);
      KickFromShift(b1, b2, PatternOffsets(p), 0);
    }
  }

  /** The hit-stop: in the stop window only the pad (never silenced) and
      the spill of the previous bar's hat roll can sound. */
  lemma StopWindowSilence(plan: Plan, id: TrackId, e: Event)
    requires PlanShaped(plan) && TrackOk(plan, id, e) && InStopWindow(plan, e.t)
    ensures id == Pad || (id == Hats && e.d == RollHitLength)
  {
  }

  /** A song's kick, snare, bass, bell and lead are silent throughout the
      stop window. */
  lemma SongStopSilence(plan: Plan, song: Song, id: TrackId, e: Event)
    requires PlanShaped(plan) && AllOk(plan, id, Get(song.tracks, id))
    requires id != Pad && id != Hats && e in Get(song.tracks, id)
    ensures !InStopWindow(plan, e.t)
  {
  }
}
