/** The song-section table (`buildSketchSections`) and the facts about how
    its sections tile the bars of a song. */
module Sections {

  /** A named span of bars with a base intensity. */
  datatype Section = Section(name: string, startBar: nat, bars: nat, intensity: real)

  /** The structural templates a song can follow. */
  datatype Sketch = Loop | TeaseDrop | Aaba | BuildDrop

  /** Bar `b` lies in section `s`. */
  predicate Covers(s: Section, b: int)
  {
    s.startBar <= b < s.startBar + s.bars
  }

  /** The sections are non-empty, start at bar 0, each starts where the
      previous one ends, and the last ends at bar `bars`. */
  predicate Tiles(secs: seq<Section>, bars: nat)
  {
    && |secs| > 0
    && secs[0].startBar == 0
    && (forall i :: 0 <= i < |secs| ==> secs[i].bars >= 1)
    && (forall i :: 0 <= i < |secs| - 1 ==> secs[i + 1].startBar == secs[i].startBar + secs[i].bars)
    && secs[|secs| - 1].startBar + secs[|secs| - 1].bars == bars
  }

  /** The fixed section table. Four bars or fewer give one "A" section;
      eight bars have their own table; every other length uses the
      sixteen-bar table. */
  function BuildSketchSections(sketch: Sketch, bars: nat): (r: seq<Section>)
    ensures |r| >= 1
    ensures bars <= 4 ==> |r| == 1 && r[0].name == "A" && r[0].startBar == 0 && r[0].bars == bars
    ensures (1 <= bars <= 4 || bars == 8 || bars == 16) ==> Tiles(r, bars)
    ensures forall i :: 0 <= i < |r| ==> 0.0 < r[i].intensity < 1.0
  {
    if bars <= 4 then [Section("A", 0, bars, 0.85)]
    else if bars == 8 then EightBarTable(sketch)
    else SixteenBarTable(sketch)
  }

  /** The eight-bar table. */
  function EightBarTable(sketch: Sketch): (r: seq<Section>)
    ensures |r| >= 1 && Tiles(r, 8)
    ensures forall i :: 0 <= i < |r| ==> 0.0 < r[i].intensity < 1.0
  {
    match sketch
    case TeaseDrop => [Section("INTRO", 0, 2, 0.35), Section("DROP", 2, 6, 0.90)]
    case Aaba => [Section("A", 0, 2, 0.70), Section("A", 2, 2, 0.75), Section("B", 4, 2, 0.85), Section("A", 6, 2, 0.78)]
    case BuildDrop => [Section("BUILD", 0, 4, 0.45), Section("DROP", 4, 4, 0.92)]
    case Loop => [Section("LOOP", 0, 8, 0.82)]
  }

  /** The sixteen-bar table, also used for every length other than 1-4 and 8. */
  function SixteenBarTable(sketch: Sketch): (r: seq<Section>)
    ensures |r| >= 1 && Tiles(r, 16)
    ensures forall i :: 0 <= i < |r| ==> 0.0 < r[i].intensity < 1.0
  {
    match sketch
    case TeaseDrop =>
      [Section("INTRO", 0, 2, 0.28), Section("DROP1", 2, 6, 0.88), Section("BREAK", 8, 2, 0.35), Section("DROP2", 10, 6, 0.94)]
    case Aaba => [Section("A", 0, 4, 0.72), Section("A", 4, 4, 0.76), Section("B", 8, 4, 0.88), Section("A", 12, 4, 0.78)]
    case BuildDrop => [Section("BUILD", 0, 6, 0.40), Section("DROP", 6, 6, 0.92), Section("OUT", 12, 4, 0.72)]
    case Loop => [Section("LOOP", 0, 8, 0.82), Section("LOOP2", 8, 8, 0.85)]
  }

  /** `sections.find(...)`: the index of the first section covering bar
      `b`, at or after index `k`, or -1 when there is none. */
  function FindFrom(secs: seq<Section>, b: int, k: nat): (i: int)
    requires k <= |secs|
    ensures i == -1 || k <= i < |secs|
    ensures i >= 0 ==> Covers(secs[i], b) && forall j :: k <= j < i ==> !Covers(secs[j], b)
    ensures i == -1 ==> forall j :: k <= j < |secs| ==> !Covers(secs[j], b)
    decreases |secs| - k
  {
    if k == |secs| then -1
    else if Covers(secs[k], b) then k
    else FindFrom(secs, b, k + 1)
  }

  /** The section bar `b` belongs to: the first one covering it, or the
      first section of all when none does (`|| sections[0]`). */
  function SectionOf(secs: seq<Section>, b: int): (s: Section)
    requires |secs| > 0
    ensures s in secs
  {
    var i := FindFrom(secs, b, 0);
    if i >= 0 then secs[i] else secs[0]
  }

  /** In a tiling, a later section starts no earlier than where an earlier one ends. */
  lemma {:induction false} TilesOrdered(secs: seq<Section>, bars: nat, i: nat, j: nat)
    requires Tiles(secs, bars) && i < j < |secs|
    ensures secs[i].startBar + secs[i].bars <= secs[j].startBar
    decreases j - i
  {
    if j > i + 1 {
      TilesOrdered(secs, bars, i, j - 1);
    }
  }

  /** In a tiling, every section ends at or before bar `bars`. */
  lemma {:induction false} TilesBounded(secs: seq<Section>, bars: nat, i: nat)
    requires Tiles(secs, bars) && i < |secs|
    ensures secs[i].startBar + secs[i].bars <= bars
  {
    if i < |secs| - 1 {
      TilesOrdered(secs, bars, i, |secs| - 1);
    }
  }

  /** In a tiling, each bar of [0, bars) is covered by exactly one section,
      which `FindFrom` finds, and no bar outside that range is covered. */
  lemma {:induction false} TilesCoverOnce(secs: seq<Section>, bars: nat, b: int)
    requires Tiles(secs, bars)
    ensures 0 <= b < bars <==> FindFrom(secs, b, 0) >= 0
    ensures 0 <= b < bars ==> forall j :: 0 <= j < |secs| && Covers(secs[j], b) ==> j == FindFrom(secs, b, 0)
  {
    var i := FindFrom(secs, b, 0);
    if 0 <= b < bars {
      var k := CoveringIndex(secs, bars, b, |secs| - 1);
      assert i >= 0;
      forall j | 0 <= j < |secs| && Covers(secs[j], b) ensures j == i {
        if j < i {
        } else if i < j {
          TilesOrdered(secs, bars, i, j);
        }
      }
    }
    if i >= 0 {
      TilesBounded(secs, bars, i);
    }
  }

  /** A bar below the end of section `k` of a tiling is covered by one of
      the sections up to `k`. */
  lemma {:induction false} CoveringIndex(secs: seq<Section>, bars: nat, b: int, k: nat) returns (i: nat)
    requires Tiles(secs, bars) && k < |secs|
    requires 0 <= b < secs[k].startBar + secs[k].bars
    ensures i <= k && Covers(secs[i], b)
  {
    if b >= secs[k].startBar {
      i := k;
    } else {
      i := CoveringIndex(secs, bars, b, k - 1);
    }
  }

  /** The eight-bar "aaba" sketch is A(0,2), A(2,2), B(4,2), A(6,2). */
  lemma AabaEightBars()
    ensures var r := BuildSketchSections(Aaba, 8);
      && |r| == 4
      && r[0].name == "A" && r[0].startBar == 0 && r[0].bars == 2
      && r[1].name == "A" && r[1].startBar == 2 && r[1].bars == 2
      && r[2].name == "B" && r[2].startBar == 4 && r[2].bars == 2
      && r[3].name == "A" && r[3].startBar == 6 && r[3].bars == 2
  {
  }
}
