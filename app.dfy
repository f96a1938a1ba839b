/** `generate`: one press of GENERATE plans a beat from a seed, renders it
    and writes it as a MIDI file. The seed is a parameter, so the model has
    no clock or random source of its own. */
module App {
  import opened Style
  import opened Rng
  import opened Sections
  import opened Planner
  import opened Renderer
  import opened Midi
  import opened MidiWriter

  /** Plan, song and file of one generation. Because every bar of a planned
      beat belongs to a named section, every kick bar plays its section's
      stored cell and every bass note lands on a bar start, the half bar or
      a kick hit, with no condition left on the kick map. */
  method Generate(seed: bv32, cfg: Config) returns (plan: Plan, song: Song, bytes: seq<Byte>, ghost kicks: map<string, string>)
    requires |cfg.artists| > 0
    ensures PlanShaped(plan) && plan.seed == seed && plan.artists == cfg.artists && plan.bars == cfg.bars
    ensures plan.sections == BuildSketchSections(cfg.sketch, cfg.bars)
    ensures song.plan == plan && song.bpm == plan.bpm && song.bars == cfg.bars
    ensures bytes == MidiFile(song)
    ensures kicks.Keys == SectionNames(plan.sections)
    ensures forall name :: name in kicks ==>
      kicks[name] == KickBank(plan.mainArtist)[RandInt(Draw(seed ^ RenderSalt, LastNamed(plan.sections, name)), 0, 2)]
    ensures AllNamed(plan, kicks)
    ensures song.tracks.kick == KickTrackOf(plan, kicks, plan.bars)
    ensures forall e :: e in song.tracks.bass ==> BassOnHit(plan, kicks, e)
  {
    ghost var xs;
    plan, xs := PlanBeat(seed, cfg);
    ghost var raw;
    song, raw, kicks := BuildSong(plan);
    PlannedSectionsNamed(plan, kicks);
    bytes := BuildMidi(song);
  }
}
