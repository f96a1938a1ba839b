# DIGI MIDI-GEN core in Dafny

DIGI MIDI-GEN turns a 32-bit seed and a handful of settings into a short
beat and writes it as a Standard MIDI File. It runs as a pipeline of four
parts, and this project models each one:

- **Generator.** `mulberry32` is a seeded pseudo-random generator: a 32-bit
  counter that advances by `0x6D2B79F5` on each call and is mixed into a
  value in [0, 1).
  - In `rng.dfy` it is a class whose field `t` is the closure's counter,
    plus the helpers `clamp`, `chance`, `randInt`, `lerp` and `Math.round`.
- **Planner.** `planBeat` draws from the generator seeded with the song seed. It picks:
  - the tempo, scale and root;
  - the table of song sections (`sections.dfy`);
  - a per-bar density curve;
  - a per-bar schedule of which layers play (kick, snare, hats, bass, lead, pad, bell);
  - an optional stop, which mutes the start of one bar.

  The artist tables it reads live in `style.dfy`; the planner itself is in `planner.dfy`.
- **Renderer.** `buildSong` draws from a second stream, seeded with `seed ^ 0xA11CE`.
  - In a per-bar loop it fills seven event lists: PAD, LEAD, BELL, BASS, KICK, SNARE, HATS.
  - Then it sorts each list by start tick (`renderer.dfy`).
  - The sort is `Array.prototype.sort`: it is stable, and here it is a stable insertion sort (`sorting.dfy`).
- **MIDI writer.** `buildMidi` writes a format-1 file:
  - an `MThd` header;
  - a tempo track holding the time signature, the tempo, a title and End of Track;
  - one `MTrk` chunk per entry of `TRACKS`. Each holds a name, a program change (melodic tracks only), and delta-timed note-on/note-off messages sorted by tick.

  `midi.dfy` has the byte-level pieces: `u32be`, `u16be`, `strBytes`, `vlq`,
  `chunk` and the track-event encoding. `midi_writer.dfy` assembles the file.

`app.dfy` chains the four as the GENERATE button does: `planBeat`, then `buildSong`, then `buildMidi`.

Each writer comes with a reader of what it writes, and the round trip is proved:
- every VLQ reads back as its value;
- every chunk reads back as its tag, its data and what follows it;
- every track reads back as its name, its program and its messages at their absolute ticks;
- the whole file reads back as format 1, eight tracks, 480 ticks per quarter, and the data of each track.

The loops of the source (`vlq`, `stepsToOffsets`, `resolveRoot`, the
density loop, the per-bar loop of `buildSong`, the event and delta loops of
`buildMidi`) are methods with loop invariants. Each one is proved equal to,
or to satisfy, a specification function, and the properties are proved about that function.

The model follows what the code does in a few places where a reader might expect otherwise:
- **PAD is never muted.** The pad chords at the bar start are written even in the stop bar.
- **Hat rolls spill.** The hat roll of a bar starts one beat before the bar line and spans eight sixteenths, so its last hits start up to 420 ticks into the next bar, or past the end of the song. They are not muted by the next bar's stop.
- **Bass can overrun the bar line.** The bass duration is clamped from below to 720 ticks even when that crosses the bar line.
- **Title bullets.** `strBytes` keeps only the low byte of each character code, so the bullet `•` (U+2022) in the tempo track's title is written as `0x22`.
- **One-byte name lengths.** A name's length is written in one byte.
- **Tempo of 0.** `Math.round(60000000 / 0)` would be infinite, and `>>>` turns that into 0.
  - The planner's integer tempos all lie in [60, 220], so the model never meets this case. A tempo box that parses to `NaN` does reach it in the source (see "Left out").

## Model

| member | source | states |
|---|---|---|
| Rng.Unit | app.js:178 | a 32-bit output divided by 2^32 lies in [0, 1) |
| Rng.Draw | app.js:173-179 | value number i of the stream of a seed is the mixed state after i+1 increments, and lies in [0, 1) |
| Rng.DrewThen | app.js:173-179 | k draws followed by j draws are k+j draws from the first history |
| Rng.StateAfterShift | app.js:174 | j increments followed by k increments are j+k increments: the stream depends only on the current state |
| Rng.RenderSeedDiffers | app.js:443 | the renderer's seed `seed ^ 0xA11CE` is never the planner's seed |
| Rng.Mulberry32.constructor | app.js:171-172 | a new generator holds the seed as its counter and has drawn nothing |
| Rng.Mulberry32.Next | app.js:173-179 | one call adds `0x6D2B79F5` modulo 2^32 to the counter, returns a value in [0, 1) and records it as the next value of the seed's stream |
| Rng.HistoryIsStream | app.js:171-179 | the values a generator has returned are exactly the mulberry32 stream of its seed, so the same seed gives the same values |
| Rng.Clamp | app.js:181 | the result lies in [a, b] when a <= b, is n when n is already inside, and is a when a > b |
| Rng.ClampInt | app.js:181 | `clamp` on integers: inside [a, b] when a <= b, n when n is inside, never below a, and always one of a, b, n |
| Rng.Lerp | app.js:184 | for t in [0, 1] the result lies between a and b, and it is below b when t < 1 and a < b |
| Rng.Round | app.js:390 | `Math.round` rounds half up: the result is within one half of x |
| Rng.RandInt | app.js:183 | `randInt` of a draw in [0, 1) lies in [a, b] |
| Rng.Chance | app.js:182 | `chance` takes exactly one draw and hits exactly when that draw is below p |
| Rng.DrawInt | app.js:183 | `randInt` takes exactly one draw and returns `randInt` of that draw |
| Style.Priors | app.js:136-144 | every artist's tempo range lies in [140, 195] with its lower end below its upper end, and its stop, pad and bell probabilities lie in (0, 1) |
| Style.KickBank | app.js:88-124 | every artist has three kick cells, each sixteen steps of `x` and `-` with a hit on step 0 |
| Style.HatGrid | app.js:126-134 | the hi-hat grid is one, two or four sixteenths |
| Style.ScaleIntervals | app.js:205-209 | each scale is seven strictly increasing semitone offsets in [0, 11], starting at 0, with the minor third, fourth, fifth and minor sixth in common |
| Style.DegreeToMidi | app.js:210-213 | a scale degree lands in the octave that starts at `rootMidi + 12*oct` |
| Sections.BuildSketchSections | app.js:322-349 | there is at least one section; up to four bars give the single section A(0, bars); for 1-4, 8 and 16 bars the sections are contiguous from bar 0 and cover the song exactly; every intensity lies in (0, 1) |
| Sections.FindFrom | app.js:412 | `sections.find` from position k: the first section covering bar b, or -1 and then none covers it |
| Sections.SectionOf | app.js:412 | `find(...) \|\| sections[0]` is always one of the sections |
| Sections.EightBarTable | app.js:324-334 | each eight-bar sketch table is contiguous from bar 0, covers exactly eight bars, and has intensities in (0, 1) |
| Sections.SixteenBarTable | app.js:336-348 | each sixteen-bar sketch table is contiguous from bar 0, covers exactly sixteen bars, and has intensities in (0, 1) |
| Sections.TilesOrdered | app.js:322-349 | in a section table that tiles the song, every section ends before any later one starts |
| Sections.TilesBounded | app.js:322-349 | in a tiling every section ends by the last bar |
| Sections.TilesCoverOnce | app.js:322-349 | a tiling covers bar b if and only if 0 <= b < bars, and then by exactly one section |
| Sections.AabaEightBars | app.js:329-330 | eight bars of AABA are A(0,2), A(2,2), B(4,2), A(6,2) |
| Planner.ResolveBpm | app.js:389-392 | one draw is always taken; the artist tempo is the rounded lerp of that draw over the artist's range and lies in that range; a fixed or manual tempo replaces it, clamped to [60, 220]; the result is always in [60, 220] |
| Planner.ResolveScale | app.js:351-358 | the history grows by exactly the values `ScaleOf` reads from the old position on, and the returned scale is the one `ScaleOf` picks from them: none for an explicit scale, otherwise one to three |
| Planner.GuardedChance | app.js:355-356 | `guard && chance(rng, p)` reads one value when the guard holds and none otherwise, and hits exactly when the guard holds and that value is below p |
| Planner.HarmonicRead | app.js:355 | a dark setting whose first value is below 0.55 gives harmonic minor after one value |
| Planner.NaturalRead | app.js:355-356 | a missed or skipped dark draw followed by a floaty hit below 0.45 gives natural minor after the values read |
| Planner.LastRead | app.js:355-357 | when neither guarded draw hits, the next value gives phrygian exactly when it is below 0.25, natural otherwise |
| Planner.ScaleOf | app.js:351-358 | `resolveScale` on the stream: an explicit scale reads nothing; otherwise one to three values; harmonic only for dark settings after one value, and for dark settings exactly when the first value is below 0.55; phrygian only when the last value read is below 0.25; three values exactly for a setting that is dark and floaty and misses both guarded draws |
| Planner.LastScaleDraw | app.js:357 | the last draw gives phrygian exactly on a hit, natural otherwise |
| Planner.ScaleOfLonger | app.js:351-358 | values after the ones read do not change the scale or the count |
| Planner.RootWeights | app.js:363-365 | twelve root weights, each in [1, 1.9] |
| Planner.PickWeighted | app.js:366-369 | the loop `r -= w[i]` stops at the first index whose running sum reaches r, and returns 0 when none does |
| Planner.PickRoot | app.js:366-369 | exactly one draw x; the root is the first pitch class whose running weight sum reaches x times the total weight |
| Planner.ResolveRoot | app.js:360-370 | a picked key is returned without a draw; otherwise exactly one draw x, and the root is the first pitch class whose running weight sum reaches x times the total weight |
| Planner.PositiveSum | app.js:366 | weights of at least 1 have a total of at least their count |
| Planner.Ramp | app.js:405-406 | the ramped, clamped intensity of a section lies in [0.12, 0.98] |
| Planner.DensityAt | app.js:400-408 | the density the nested loop leaves at a bar lies in [0.12, 0.98] |
| Planner.DensityCurve | app.js:399-408 | the loop produces one density per bar, each equal to the last write of a section that covers the bar, 0.7 when none does |
| Planner.DensityOfOnlyCover | app.js:401-407 | when exactly one section covers a bar, the bar's density is that section's ramp |
| Planner.DensityOfTiling | app.js:400-408 | for a tiling, every bar's density is the ramp of the section that covers it |
| Planner.LayerFlags | app.js:413-429 | kick never plays in INTRO or BUILD bars; snare, bass and bell never play in BREAK bars; pad always plays in INTRO, BUILD and BREAK bars and for BLADEE, 2HOLLIS and FENG, and whenever the pad draw hits; bell only plays when the bell draw hits |
| Planner.LayerFlagsFollowRule | app.js:413-429 | every layer set the schedule builds follows the density thresholds, the section exceptions and the artist overrides |
| Planner.LayerSchedule | app.js:411-430 | two draws per bar (pad, then bell), and each bar's layers are the layer rule of its section, its density and those two draws |
| Planner.StopProb | app.js:433 | the stop probability lies in [0.05, 0.85] |
| Planner.StopPolicy | app.js:433-434 | one draw; there is a stop exactly when the draw is below the stop probability, in bar `min(8, bars)`, for one beat under HIT_STOP and half a beat otherwise |
| Planner.PlanBars | app.js:399-430 | exactly two draws per bar; one density in [0.12, 0.98] per bar, the one the section loop leaves; bar b's layers are the layer rule of its section and density applied to the draws at positions 2b (pad) and 2b+1 (bell) from the old position, so they name the bar's section and follow the layer rule |
| Planner.PlanBeat | app.js:384-437 | the plan carries the seed, the first selected artist, the settings and the section table; `xs`, value i of the seed's own stream at each i, is read in order tempo, scale, root, two values per bar, stop; an artist tempo is the rounded lerp of value 0 over the artist's range; a fixed or manual tempo is clamped to [60, 220]; the scale is `ScaleOf` of the values after the tempo; an automatic root is the weighted pick of the value after the scale's; bar b's layers come from the values at 2b and 2b+1 after the root's; there is a stop exactly when the last value is below the stop probability, in bar `min(8, bars)` with the mood's length |
| Planner.PlanTies | app.js:384-437 | the tempo, scale, root, layer and stop facts about each step's history hold of the planner's final history at the positions counted from the values each step read |
| Planner.PlanStream | app.js:384-437 | each step's history is a prefix of the final one: the tempo value is value 0, the scale reads the same values, the root's value and the layer values sit at `RootPos` and `LayerPos`, and the stop value is the last |
| Planner.LayersFromStream | app.js:411-430 | the per-bar layers read from one history are the ones read from another that agrees on the per-bar values |
| Sorting.Insert | app.js:561 | inserting into a sorted list keeps it sorted and adds exactly the new element |
| Sorting.SortBy | app.js:561 | the sort is sorted by the key and is a permutation of its input |
| Sorting.InsertWithKey | app.js:561 | insertion puts the new element after every element of the same key |
| Sorting.SortByStable | app.js:561 | the sort is stable: the elements of each key keep their input order |
| Sorting.SortBySorted | app.js:509 | sorting a sorted list changes nothing |
| Sorting.SortByMembers | app.js:561 | sorting keeps exactly the elements it was given |
| Sorting.Distinct | app.js:509 | `[...new Set(s)]` has the same members as s and no repeats |
| Sorting.DistinctIncreasing | app.js:509 | a strictly increasing list is its own set of distinct elements |
| Renderer.NoteEvent | app.js:439 | `addNote` keeps tick, pitch and velocity, and the duration is at least 1 (exactly d when d >= 1) |
| Renderer.DrumEvent | app.js:440 | `addDrum` keeps tick, pitch and velocity, and the duration is at least 1 (exactly d when d >= 1) |
| Renderer.StopTicks | app.js:463 | a stop of half a beat mutes 240 ticks, a stop of one beat 480 |
| Renderer.InBarOutsideWindow | app.js:462-463 | an event the bar keeps starts inside that bar and outside the song's stop window |
| Renderer.OffsetsFrom | app.js:377-381 | the offsets are strictly increasing multiples of 120 inside the bar, none before step i |
| Renderer.OffsetsFromHits | app.js:377-381 | every offset is 120 times an `x` step of the cell, and every `x` step from i on gives an offset |
| Renderer.StepsToOffsets | app.js:377-381 | the loop returns the offsets of the `x` steps of the pattern |
| Renderer.CellStartsOnDownbeat | app.js:377-381 | every kick cell's first offset is 0 |
| Renderer.KickFrom | app.js:478-482 | kick events are kick hits of the bar, in tick order, none inside the mute window |
| Renderer.EmitKick | app.js:477-482 | the kick loop emits exactly the kicks of the pattern in the bar, minus the muted ones |
| Renderer.KickBarOf | app.js:476-482 | the kicks of a bar lie inside the bar and are sorted |
| Renderer.KickTrackOf | app.js:456-482 | the kick track of the first n bars lies in [0, n bars) and is sorted |
| Renderer.PickKickPattern | app.js:372-375 | one draw chooses entry `randInt(0, 2)` of the artist's kick bank, which is a kick cell |
| Renderer.LastNamed | app.js:452 | the position of the last section of a name, or -1 when there is none |
| Renderer.NamesSnoc | app.js:452 | one more iteration of `sectionKick.set` adds the section's name, and makes that section the last of its name |
| Renderer.PickSectionKicks | app.js:451-452 | exactly one draw per section, and section i's pick is entry `randInt(0, 2)` of draw i in the artist's kick bank; the map has exactly the section names as keys, and each name holds the pick of its last section |
| Renderer.KickMapSpec | app.js:451-452 | setting `name -> pick` for the sections in order leaves exactly the section names as keys, each holding the pick of the last section of that name |
| Renderer.KickMapSnoc | app.js:452 | one more `sectionKick.set` updates the map at that section's name and nowhere else |
| Renderer.SongKicks | app.js:443-452 | on a fresh generator, each section name holds the kick-bank entry chosen by value number `LastNamed` of the seed's stream, the draw of the last section of that name |
| Renderer.PlannedSectionsNamed | app.js:476 | every bar's section is a key of the map, so the fallback draw never happens |
| Renderer.EmitSnare | app.js:466-473 | only snare and clap hits, each on one of the given snare beats of the bar and not muted; a snare on every unmuted snare beat, and a clap only where that snare is |
| Renderer.HatGridHits | app.js:487-491 | every hat of the grid loop is on a grid step of the bar, half a step long, velocity 55-100, outside the mute window |
| Renderer.HatRoll | app.js:493-498 | every roll hit is on a 32nd-note step of the span starting one beat before the bar line, 30 ticks long, velocity 60-110, outside the mute window; each of the sixteen hits `RollHit(k)` the stop leaves is there; when the stop is at most three beats long all sixteen are there, in order |
| Renderer.EmitHats | app.js:485-500 | grid hats of half the grid length with velocity 55-100 on grid steps inside the bar, or roll hits of 30 ticks with velocity 60-110 on 32nd-note steps of the roll span; none starts in the mute window; no roll unless the bar is roll-eligible |
| Renderer.NearBeatThree | app.js:506 | the candidates are exactly the kick offsets in [840, 1560] |
| Renderer.SustainLength | app.js:513-514 | a bass note lasts at least six sixteenths; exactly to the next hit (or the bar line) when that is at least six sixteenths away and within the bar; exactly six sixteenths when the next hit or the bar line is closer |
| Renderer.DedupSortIncreasing | app.js:509 | de-duplicating and sorting an increasing list gives it back |
| Renderer.UniqueSorted | app.js:509 | `[...new Set(hits)].sort()` of increasing hits is the hits |
| Renderer.NoneNearBeatThreeEmpty | app.js:506-508 | the candidate list is empty exactly when no kick offset lies in [840, 1560] |
| Renderer.BassHits | app.js:504-509 | one or two increasing hits in the bar, each a kick offset or 0 or 960, starting at 0 when the kick does; with no candidate, no draw and the hits are [0] when the kick plays on the downbeat and [0, 960] otherwise; with candidates, exactly one draw x, the last hit is candidate `randInt(0, n-1)` of x, and there are two hits exactly when the kick plays on the downbeat |
| Renderer.BassNote | app.js:512-522 | one bass note on hit i with the sustain length and the mood's degree, a well-formed MIDI note |
| Renderer.EmitBass | app.js:503-524 | the hits of `BassHits`; one note per hit that the stop does not silence, in hit order, each a bass note of its hit (its sustain, the root or the mood's other degree), inside the bar; the notes last at least six sixteenths, start on a hit and come in increasing ticks; with no candidate the fallback hits sound: the downbeat and beat 3 two beats each, or the downbeat for the whole bar when the kick plays there |
| Renderer.BassNotes | app.js:511-523 | the hit loop: exactly the hits the stop leaves get a note, in hit order, each the bass note of its hit |
| Renderer.BassFinish | app.js:503-523 | after the hit loop the notes are placed on the hits, sorted, and the fallback hits sound |
| Renderer.BassHitSounds | app.js:511-522 | a hit the stop leaves has a note starting on it with its sustain length |
| Renderer.FallbackBassSounds | app.js:508-522 | without a candidate, the hits [0, 960] get two-beat notes and the hit [0] a whole-bar note, unless silenced by the stop |
| Renderer.EmitPad | app.js:527-535 | root and fifth of a chord on degree 1, 4 or 6, plus its third unless it is omitted (always for 2HOLLIS and FENG), all a full bar long from the bar start, velocity 30-70 |
| Renderer.EmitBell | app.js:538-543 | at most one bell note, on beat 1.5 or 2.5, three sixteenths long, degree 5 or 3 two octaves up, velocity 55-95, not muted |
| Renderer.LeadGrid | app.js:547 | the lead grid is two sixteenths for ESDEEKID and FIMIGUERRERO and four otherwise |
| Renderer.LeadPool | app.js:551 | the degree pool has at least five degrees, each in 1-7 |
| Renderer.LeadPitch | app.js:551-553 | a lead pitch is a degree of the pool in the chosen octave, and a valid MIDI pitch |
| Renderer.LeadSlot | app.js:550-556 | a slot's note, if any, starts on the slot, uses a pool degree and is never in the mute window |
| Renderer.LeadAppend | app.js:554-556 | a note on the current slot extends the lead placed so far |
| Renderer.LeadWiden | app.js:549-557 | a lead placed before one slot is placed before any later one |
| Renderer.LeadSoFarMeans | app.js:549-557 | the lead placed so far is in increasing ticks, on grid steps, each note on a pool degree in the chosen octave |
| Renderer.EmitLead | app.js:546-558 | at most four lead notes in increasing ticks, each on a pool degree (an octave up for BLADEE), on a step of the lead grid, and a lead note of the bar |
| Renderer.RenderDrums | app.js:461-500 | the kick, snare and hat events of a bar meet their tracks' invariants; without a kick layer there are no kick offsets, with one they are the offsets of the section's cell; the bar's kicks are those of its section's cell |
| Renderer.RenderKick | app.js:475-482 | the bar's kicks meet the kick invariant and are the kicks of its section's cell; the kick offsets are that cell's offsets when the kick plays and empty otherwise |
| Renderer.BassPlacement | app.js:504-523 | bass notes placed on increasing hits that are kick offsets, 0 or 960 last at least six sixteenths, start on such a hit and come in increasing ticks |
| Renderer.BarBass | app.js:503-523 | the bass of a bar with the bass layer: notes meeting the bass track's invariant, on the bar start, beat 3 or a kick offset, in increasing ticks, at least six sixteenths long, with the fallback hits sounding when no kick is near beat 3 |
| Renderer.BassTrackOk | app.js:503-523 | bass notes inside the bar, outside its stop and at least six sixteenths long meet the bass track's invariant |
| Renderer.RenderTonal | app.js:502-558 | the bass, pad, bell and lead events of a bar meet their tracks' invariants; no bass without the bass layer; every bass note lasts at least six sixteenths and starts on the bar start, beat 3 or a kick offset of the bar, in increasing ticks; with the bass layer and no kick near beat 3 the fallback hits sound |
| Renderer.BassBarOnHit | app.js:476-523 | a bar's bass notes that start on its hits start, in song ticks, on the bar start, beat 3 or a hit of the bar's kick cell |
| Renderer.RenderBars | app.js:456-559 | every event of every track meets its track's invariant; the kick track is the section kicks bar by bar, and every bass note starts on a bar start, a beat 3 or a kick hit of its bar |
| Renderer.GetSorted | app.js:561 | each sorted track is the stable sort of the raw one |
| Renderer.SortTracksSpec | app.js:561 | after the post-pass every track is sorted by tick and is a permutation of what was appended |
| Renderer.SortedTracksOk | app.js:561 | sorting keeps every track's invariant |
| Renderer.BuildSong | app.js:442-576 | the song carries the plan's fields; every track is sorted, a permutation of what the bar loop appended, and meets its invariant; the kick map has every section name, each holding the kick-bank entry of draw `LastNamed` of the stream of `seed ^ 0xA11CE`; the kick track is the section kicks bar by bar, and every bass note starts on a bar start, a beat 3 or a kick hit |
| Renderer.KickFromShift | app.js:478-481 | the kicks of one pattern in two unstopped bars differ only by the bars' distance |
| Renderer.SameSectionSameKick | app.js:451-482 | two unstopped bars of the same section with the same kick layer have the same kicks, shifted |
| Renderer.StopWindowSilence | app.js:462-557 | an event meeting its track's invariant that starts in the stop window is a pad chord or a hat-roll hit |
| Renderer.SongStopSilence | app.js:462-561 | no kick, snare, bass, bell or lead event of the song starts in the stop window |
| App.Generate | app.js:974-979 | one generation: the plan of the seed and settings, its song and that song's MIDI file; every bar's section has a kick cell, so the kick track is the section kicks bar by bar and every bass note starts on a bar start, a beat 3 or a kick hit, with nothing assumed about the kick map |
| Midi.U32be | app.js:579 | `u32be` is four bytes |
| Midi.U16be | app.js:580 | `u16be` is two bytes |
| Midi.U32RoundTrip | app.js:579 | the big-endian value of `u32be(n)` is n modulo 2^32 |
| Midi.U32Wrap | app.js:579 | `u32be` sees n only modulo 2^32 |
| Midi.U32Onto | app.js:579 | every four bytes are `u32be` of their big-endian value |
| Midi.U16RoundTrip | app.js:580 | the big-endian value of `u16be(n)` is n modulo 2^16 |
| Midi.U16Onto | app.js:580 | every two bytes are `u16be` of their big-endian value |
| Midi.StrBytes | app.js:581 | one byte per character |
| Midi.StrBytesLatin1 | app.js:581 | for character codes below 256 the bytes give the string back |
| Midi.VlqHigh | app.js:586 | the leading groups all carry the continuation bit, and there are none exactly when nothing is left above the low seven bits |
| Midi.Vlq | app.js:582-588 | the last byte is below 0x80 and every earlier byte is at least 0x80 |
| Midi.VlqZero | app.js:582-588 | zero is the single byte 0 |
| Midi.VlqLoop | app.js:582-588 | the shifting loop produces `Vlq(n)` |
| Midi.VlqLength | app.js:582-588 | for 0 <= n < 2^32 the encoding is one to five bytes |
| Midi.VlqMinimal | app.js:582-588 | a longer encoding never starts with 0x80, and the first byte is 0 exactly for n = 0 |
| Midi.VlqValue | app.js:582-588 | folding `acc*128 + (b & 0x7F)` over the bytes gives n back |
| Midi.VlqRead | app.js:582-588 | a VLQ reader reads n back and leaves exactly what follows |
| Midi.Chunk | app.js:589 | a chunk is four bytes longer than its tag and data |
| Midi.ChunkRoundTrip | app.js:589 | a chunk reads back as its tag, its data and exactly what follows |
| Midi.MTrkChunks | app.js:602 | one `MTrk` chunk per track data |
| Midi.MTrkRoundTrip | app.js:627-631 | the flattened `MTrk` chunks read back as one (tag, data) entry per track |
| Midi.Messages | app.js:612-617 | two messages per event |
| Midi.MessagesAt | app.js:613-617 | messages 2k and 2k+1 are the note-on at t and the note-off at t+d of event k |
| Midi.MessagesWellFormed | app.js:614-616 | for events whose start and end ticks are below 2^32, every message is a three-byte note-on or note-off with seven-bit data, at a tick in [0, 2^32) |
| Midi.CollectMessages | app.js:612-617 | the event loop produces exactly the note-on/note-off messages |
| Midi.WriteEvents | app.js:620-625 | the delta loop produces the delta-timed encoding of the messages |
| Midi.EndOfTrackRead | app.js:626 | End of Track reads back as the end of the messages |
| Midi.EventsRoundTrip | app.js:620-626 | for note messages sorted by tick below 2^32, reading the deltas back gives every message at its absolute tick: the running sums of the deltas are the ticks |
| MidiWriter.TrackIndex | app.js:76-84 | every track id appears in `TRACKS` exactly once |
| MidiWriter.TrackTableChannels | app.js:76-84 | channels and programs fit their fields, the drum tracks are exactly those on channel 9, names are shorter than 256 |
| MidiWriter.NameMeta | app.js:607 | the name event is four bytes longer than the name |
| MidiWriter.ProgramChange | app.js:608-610 | there is a program change exactly for the tracks that are not drums |
| MidiWriter.WriteName | app.js:607 | the name event of the track |
| MidiWriter.WriteProgram | app.js:608-610 | the program change, or nothing for drums |
| MidiWriter.WriteNotes | app.js:612-625 | the delta-timed encoding of the sorted note messages |
| MidiWriter.WriteEnd | app.js:626 | End of Track at delta 0 |
| MidiWriter.WriteTrack | app.js:605-626 | the loop body produces the track data |
| MidiWriter.ParseNamed | app.js:607 | a name event reads back as the name, followed by the rest |
| MidiWriter.SortedMessagesFit | app.js:612-618 | the sorted messages of a track whose ticks fit are note messages in tick order |
| MidiWriter.MessagesRoundTrip | app.js:606-626 | a track of sorted note messages reads back as its name, its program and exactly those messages |
| MidiWriter.TrackRoundTrip | app.js:604-627 | a track reads back as its name, a program change only if it is not a drum track, and its notes as sorted note-on/note-off messages |
| MidiWriter.EncodeEventsLength | app.js:620-625 | each message takes at most eight bytes |
| MidiWriter.TrackDataLength | app.js:606-626 | a track's data is at most 16 bytes per note plus 266 |
| MidiWriter.TempoBytes | app.js:598 | the tempo takes three bytes |
| MidiWriter.TempoBytesValue | app.js:598 | the three bytes hold the tempo modulo 2^24 |
| MidiWriter.QuotientRange | app.js:597 | for 60-220 BPM, 60000000/bpm lies in (272727, 1000000] |
| MidiWriter.TempoInRange | app.js:597-598 | for 60-220 BPM the tempo lies in [272727, 1000000] and fits three bytes without loss |
| MidiWriter.TempoGivesBpm | app.js:597 | for 60-220 BPM, reading the tempo back as `round(60000000/mpqn)` gives the BPM |
| MidiWriter.Digits | app.js:599 | the decimal text of a number is at least one digit |
| MidiWriter.DigitsRoundTrip | app.js:599 | the decimal text reads back as the number and has no leading zero |
| MidiWriter.DigitsLength | app.js:599 | a number below 10^k has at most k digits |
| MidiWriter.BulletByte | app.js:581 | the bullet of the title is written as the byte 0x22 |
| MidiWriter.IdLengths | app.js:49-67 | artist identifiers have at most 12 characters, mood identifiers at most 11 |
| MidiWriter.TitleLength | app.js:599-600 | for 60-220 BPM and fewer than a million bars the title fits the one-byte length |
| MidiWriter.TempoDataLength | app.js:595-601 | the tempo track is 23 bytes longer than its title |
| MidiWriter.TempoLayout | app.js:595-601 | the tempo track layout reads back as 4/4, the three tempo bytes and the name |
| MidiWriter.TempoRoundTrip | app.js:594-601 | the tempo track reads back as 4/4, `round(60000000/bpm)` and the title |
| MidiWriter.TrackDatas | app.js:592-628 | there are eight track datas: the tempo track and the seven tracks |
| MidiWriter.HeaderData | app.js:630 | the header data is six bytes |
| MidiWriter.WriteTempo | app.js:594-602 | the pushes produce the tempo track |
| MidiWriter.WriteTracks | app.js:604-628 | the loop over `TRACKS` produces one `MTrk` chunk per track, in table order |
| MidiWriter.PrependChunks | app.js:602-627 | the tempo chunk followed by the track chunks are the chunks of all track datas |
| MidiWriter.WriteFile | app.js:630-631 | the header chunk followed by the flattened track chunks |
| MidiWriter.BuildMidi | app.js:591-632 | `buildMidi` produces the file of the song |
| MidiWriter.TrackDatasFit | app.js:589 | for a writable song every chunk's data is shorter than 2^32 |
| MidiWriter.MidiHeader | app.js:630 | the file starts `MThd`, length 6, format 1, 8 tracks, 480 ticks per quarter |
| MidiWriter.FileRoundTrip | app.js:630-631 | any set of track datas that fit read back as format 1, their number of tracks, 480 ticks per quarter, and the datas |
| MidiWriter.MidiFileRoundTrip | app.js:591-632 | the file of a writable song reads back as format 1, 8 tracks, 480 ticks per quarter, and the tempo track followed by the seven tracks |
| MidiWriter.SongTrackRoundTrip | app.js:604-627 | every track of the file reads back as its name, its program (none for drums) and the song's notes of that track as sorted note messages |
| MidiWriter.SongTrackMessages | app.js:612-618 | whatever their order, a track's messages are exactly a note-on and a note-off per note |

## Left out

- The page around the core is not modelled: DOM, settings panel, labels, audio preview, canvas, track list, download, clipboard. They only display or play what the core produces.
- `randomSeed` reads `crypto`, so the seed is an input. `fileName` and `noteName` only format text for the page.
- The global `state` and the tempo input boxes become the `Config` record. `parseInt(value || "170")` is already applied: the fixed and manual tempos arrive as integers.
- A tempo box that does not parse as a number is not modelled. `parseInt("abc")` and `parseInt(" ")` (a blank box is not empty, so `|| "170"` does not apply) give `NaN` (app.js:391-392). `NaN` passes through `clamp`, so the source writes the tempo bytes `00 00 00` and the title reads "NaN BPM". The `Config` fields are integers, so the model has no such input.
- Artists, moods, sketches and scales are enumerations. The fallbacks for an unknown name are unreachable from the page and not modelled: `ARTIST_PRIORS[main] || ...`, `KICK_BANK[artist] || ...`, `HAT_GRID[...] || ...`.
- Probabilities, densities and velocity formulas are reals. IEEE double rounding is not modelled.
  - `Math.round` and `Math.floor` are exact on reals.
  - `t|0`, `n|0` and `v|0` in `addNote` and `addDrum` are the identity on the integer values the renderer passes.
  - Their 32-bit wrap beyond 2^31 ticks is not modelled.
- Rng.Mulberry32.Next: the closure's `t` is a double that grows without bound, while the model keeps `t` modulo 2^32. Every use of it goes through `Math.imul` or `>>>`, so only that residue matters.
- `charCodeAt` returns UTF-16 code units, while Dafny characters are Unicode scalar values. The two agree on every character the titles and track names hold.
- Rendering:
  - `Array.prototype.sort` is a library call. It is modelled as the stable insertion sort `SortBy`, which returns a new sequence rather than sorting in place.
  - The `Map` of section kicks is a Dafny `map`, and `new Set` is `Distinct`.
- MidiWriter.MidiFileRoundTrip: the round trips hold for writable songs only: ticks below 2^32, fewer than 0x0F000000 notes per track, under a million bars, tempo in [60, 220]. Outside those bounds the source wraps silently. `BuildMidi` models that wrap (every field is reduced the way `>>>`, `&` and `Uint8Array` do) but nothing is proved about reading such files back.
- MidiWriter.TempoRoundTrip: stated for the planner's tempo range [60, 220] only.
- Rng and draw positions:
  - Renderer.EmitSnare, EmitHats, EmitPad, EmitBell and EmitLead keep the generator valid, but do not state how many draws they take.
  - Renderer.EmitBass: states the draw of `BassHits` exactly, but not the position of the one draw per hit that picks each note's degree.
  - Renderer.BuildSong therefore ties the kick map to exact positions in the renderer's stream (one draw per section, from the first value), but ties the events of the bar loop only to the plan, the kick map and the track invariants.
