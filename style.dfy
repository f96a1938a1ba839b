/** Timing constants, the artist and mood identities, the per-artist
    tables (tempo ranges, stop/pad/bell probabilities, kick banks, hat
    grids) and the scale model. */
module Style {

  // MIDI timing: 480 pulses per quarter note, 4/4 bars.
  const PPQ: int := 480
  const Beat: int := 480
  const Sixteenth: int := 120
  const Bar: int := 1920

  datatype Artist = TwoHollis | Fakemink | EsdeeKid | Feng | Bladee | FimiGuerrero | KenCarson

  datatype Mood = Drop | TeaseDrop | HitStop | Floaty | PunchyLoop | Rushed | Dark

  /** The identifier each artist has in the program's tables. */
  function ArtistId(a: Artist): string
  {
    match a
    case TwoHollis => "2HOLLIS"
    case Fakemink => "FAKEMINK"
    case EsdeeKid => "ESDEEKID"
    case Feng => "FENG"
    case Bladee => "BLADEE"
    case FimiGuerrero => "FIMIGUERRERO"
    case KenCarson => "KEN CARSON"
  }

  /** The identifier of each mood. */
  function MoodId(m: Mood): string
  {
    match m
    case Drop => "DROP"
    case TeaseDrop => "TEASE_DROP"
    case HitStop => "HIT_STOP"
    case Floaty => "FLOATY"
    case PunchyLoop => "PUNCHY_LOOP"
    case Rushed => "RUSHED"
    case Dark => "DARK"
  }

  /** One row of the artist priors table. */
  datatype Prior = Prior(tempoLo: int, tempoHi: int, stopProb: real, padChance: real, bellChance: real)

  function Priors(a: Artist): (p: Prior)
    ensures 140 <= p.tempoLo < p.tempoHi <= 195
    ensures 0.0 < p.stopProb < 1.0 && 0.0 < p.padChance < 1.0 && 0.0 < p.bellChance < 1.0
  {
    match a
    case KenCarson => Prior(160, 185, 0.55, 0.10, 0.18)
    case EsdeeKid => Prior(168, 195, 0.45, 0.06, 0.10)
    case FimiGuerrero => Prior(165, 195, 0.60, 0.08, 0.12)
    case TwoHollis => Prior(150, 176, 0.18, 0.42, 0.25)
    case Bladee => Prior(140, 170, 0.12, 0.55, 0.45)
    case Feng => Prior(145, 172, 0.22, 0.50, 0.18)
    case Fakemink => Prior(155, 182, 0.30, 0.18, 0.30)
  }

  /** A 16-step kick cell: 'x' marks a hit, '-' a rest. */
  predicate IsCell(p: string)
  {
    |p| == 16 && p[0] == 'x' && forall i :: 0 <= i < |p| ==> p[i] == 'x' || p[i] == '-'
  }

  /** The artist's kick bank: three 16-step cells, each with a hit on step 0. */
  function KickBank(a: Artist): (bank: seq<string>)
    ensures |bank| == 3
    ensures forall i :: 0 <= i < |bank| ==> IsCell(bank[i])
  {
    match a
    case KenCarson => ["x---x--x----x---", "x---x---x---x---", "x---x--x-x--x---"]
    case EsdeeKid => ["x-x-xx--x-x-xx--", "x--xxx--x--xxx--", "x-x-xx-xx-x-xx--"]
    case FimiGuerrero => ["x--xx---x--xx---", "x---x-xx----x-x-", "x--xx--x-x--x---"]
    case Fakemink => ["x---x--x---x----", "x--x----x--x--x-", "x---x-x----x-x--"]
    case TwoHollis => ["x-------x-------", "x---x-----------", "x-------x---x---"]
    case Bladee => ["x-------x-------", "x---------------", "x-----------x---"]
    case Feng => ["x---------------", "x-------x-------", "x-----------x---"]
  }

  /** The spacing of the artist's hi-hat grid, in ticks. */
  function HatGrid(a: Artist): (g: int)
    ensures g == Sixteenth || g == 2 * Sixteenth || g == 4 * Sixteenth
  {
    match a
    case KenCarson => Sixteenth * 2
    case EsdeeKid => Sixteenth
    case FimiGuerrero => Sixteenth * 2
    case Fakemink => Sixteenth * 2
    case TwoHollis => Sixteenth * 4
    case Bladee => Sixteenth * 4
    case Feng => Sixteenth * 4
  }

  datatype Scale = Natural | Harmonic | Phrygian

  /** The seven semitone offsets of a minor-family scale. */
  function ScaleIntervals(mode: Scale): (r: seq<int>)
    ensures |r| == 7 && r[0] == 0
    ensures forall i, j :: 0 <= i < j < 7 ==> r[i] < r[j]
    ensures forall i :: 0 <= i < 7 ==> 0 <= r[i] <= 11
    ensures r[2] == 3 && r[3] == 5 && r[4] == 7 && r[5] == 8
  {
    match mode
    case Harmonic => [0, 2, 3, 5, 7, 8, 11]
    case Phrygian => [0, 1, 3, 5, 7, 8, 10]
    case Natural => [0, 2, 3, 5, 7, 8, 10]
  }

  /** `degreeToMidi`: scale degree 1..7 above `rootMidi`, shifted by `oct` octaves. */
  function DegreeToMidi(rootMidi: int, intervals: seq<int>, deg: int, oct: int): (n: int)
    requires |intervals| == 7 && 1 <= deg
    requires forall i :: 0 <= i < 7 ==> 0 <= intervals[i] <= 11
    ensures rootMidi + oct * 12 <= n <= rootMidi + oct * 12 + 11
  {
    rootMidi + intervals[(deg - 1) % 7] + oct * 12
  }
}
