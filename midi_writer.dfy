/** `buildMidi`: the song written as a format-1 Standard MIDI File with a
    tempo track and one track per entry of the track table. */
module MidiWriter {
  import opened Style
  import opened Rng
  import opened Sorting
  import opened Planner
  import opened Renderer
  import opened Midi

  // --------------------------------------------------------- track table

  /** One entry of `TRACKS`. The drum tracks have no program; `prog` is 0
      for them and is never written. */
  datatype TrackInfo = TrackInfo(id: TrackId, name: string, ch: int, drum: bool, prog: int)

  const TrackTable: seq<TrackInfo> := [
    TrackInfo(Pad, "PAD/CHORD", 0, false, 89),
    TrackInfo(Lead, "LEAD", 1, false, 81),
    TrackInfo(Bell, "BELL", 2, false, 10),
    TrackInfo(Bass, "808/BASS", 3, false, 38),
    TrackInfo(KickTrack, "KICK", 9, true, 0),
    TrackInfo(SnareTrack, "SNARE/CLAP", 9, true, 0),
    TrackInfo(Hats, "HATS", 9, true, 0)
  ]

  /** The position of a track in the table: every track id appears, once. */
  function TrackIndex(id: TrackId): (r: nat)
    ensures r < |TrackTable| && TrackTable[r].id == id
    ensures forall j :: 0 <= j < |TrackTable| && TrackTable[j].id == id ==> j == r
  {
    match id
    case Pad => 0
    case Lead => 1
    case Bell => 2
    case Bass => 3
    case KickTrack => 4
    case SnareTrack => 5
    case Hats => 6
  }

  /** The melodic tracks use channels 0-3 and a program; the drums share
      channel 9 (the General MIDI percussion channel) and have none. */
  lemma TrackTableChannels(i: nat)
    requires i < |TrackTable|
    ensures 0 <= TrackTable[i].ch < 16 && 0 <= TrackTable[i].prog < 128
    ensures TrackTable[i].drum <==> TrackTable[i].ch == 9
    ensures |TrackTable[i].name| < 256
  {
  }

  // -------------------------------------------------------------- tracks

  /** The track name meta event `FF 03`, its length in one byte (the
      array of numbers is turned into a `Uint8Array`, which keeps the low
      eight bits). */
  function NameMeta(name: string): (r: seq<Byte>)
    ensures |r| == 4 + |name|
  {
    Vlq(0) + [0xFF, 0x03, |name| % 256] + StrBytes(name)
  }

  /** The bytes of the program change `Cn pp` of a melodic track. */
  function ProgramOf(tr: TrackInfo): seq<Byte>
  {
    [0xC0 + tr.ch % 16, tr.prog % 128]
  }

  /** A program change after a zero delta, for melodic tracks only. */
  function ProgramChange(tr: TrackInfo): (r: seq<Byte>)
    ensures tr.drum <==> r == []
  {
    if tr.drum then [] else Vlq(0) + ProgramOf(tr)
  }

  /** `events.sort((a, b) => a.t - b.t)` over the note messages. */
  function SortedMessages(evs: seq<Event>, ch: int): seq<Message>
  {
    SortBy(Messages(evs, ch), MsgTick)
  }

  /** The data of the `MTrk` chunk of one track. */
  function TrackData(tr: TrackInfo, evs: seq<Event>): seq<Byte>
  {
    NameMeta(tr.name) + ProgramChange(tr) + EncodeEvents(SortedMessages(evs, tr.ch), 0) + EndOfTrack()
  }

  /** The body of the loop over `TRACKS`. */
  method WriteTrack(tr: TrackInfo, evs: seq<Event>) returns (data: seq<Byte>)
    ensures data == TrackData(tr, evs)
  {
    var meta := WriteName(tr.name);
    var pc := WriteProgram(tr);
    var body := WriteNotes(evs, tr.ch);
    var eot := WriteEnd();
    data := meta + pc + body + eot;
  }

  /** The track name meta event at delta 0. */
  method WriteName(name: string) returns (meta: seq<Byte>)
    ensures meta == NameMeta(name)
  {
    var v := VlqLoop(0);
    meta := v + [0xFF, 0x03, |name| % 256] + StrBytes(name);
  }

  /** The program change at delta 0, skipped for the drum tracks. */
  method WriteProgram(tr: TrackInfo) returns (pc: seq<Byte>)
    ensures pc == ProgramChange(tr)
  {
    pc := [];
    if !tr.drum {
      var v := VlqLoop(0);
      pc := v + ProgramOf(tr);
    }
  }

  /** The note messages of the channel, sorted by tick, delta-timed. */
  method WriteNotes(evs: seq<Event>, ch: int) returns (body: seq<Byte>)
    ensures body == EncodeEvents(SortedMessages(evs, ch), 0)
  {
    var events := CollectMessages(evs, ch);
    events := SortBy(events, MsgTick);
    body := WriteEvents(events);
  }

  /** The End of Track meta event at delta 0. */
  method WriteEnd() returns (eot: seq<Byte>)
    ensures eot == EndOfTrack()
  {
    var v := VlqLoop(0);
    eot := v + [0xFF, 0x2F, 0x00];
  }

  /** What a reader of a track's data finds: its name, the program change
      bytes if there is one, and the messages up to End of Track. */
  datatype TrackView = TrackView(name: seq<Byte>, program: seq<Byte>, msgs: seq<Message>)

  /** A reader of the track data this writer produces: a name meta event,
      then the rest of the track. */
  function ParseTrack(b: seq<Byte>): Option<TrackView>
  {
    if |b| < 4 || b[..3] != [0, 0xFF, 0x03] || |b| - 4 < b[3] as int then None
    else
      var len: int := b[3];
      var t := b[4..];
      ParseBody(t[..len], t[len..])
  }

  /** After the name: an optional program change at delta 0, then the
      delta-timed events up to End of Track. */
  function ParseBody(name: seq<Byte>, r: seq<Byte>): Option<TrackView>
  {
    var hasProgram := |r| >= 3 && r[0] == 0 && 0xC0 <= r[1] < 0xD0;
    var program := if hasProgram then r[1..3] else [];
    var evs := if hasProgram then r[3..] else r;
    match ReadEvents(evs, 0)
    case None => None
    case Some(ms) => Some(TrackView(name, program, ms))
  }

  /** The name meta event reads back as the name, followed by the rest. */
  lemma ParseNamed(name: string, r: seq<Byte>)
    requires |name| < 256
    ensures ParseTrack(NameMeta(name) + r) == ParseBody(StrBytes(name), r)
  {
    VlqZero();
    var h: seq<Byte> := [0, 0xFF, 0x03, |name|];
    var t := StrBytes(name) + r;
    assert NameMeta(name) == h + StrBytes(name);
    SeqAssociate(h, StrBytes(name), r);
    AppendSplit(h, t);
    AppendSplit(StrBytes(name), r);
    assert (h + t)[..3] == [0, 0xFF, 0x03];
  }

  /** A program change at delta 0 is recognised and the events follow it. */
  lemma ParseProgram(name: seq<Byte>, p: seq<Byte>, es: seq<Byte>)
    requires |p| == 2 && 0xC0 <= p[0] < 0xD0
    ensures ParseBody(name, [0] + p + es)
      == match ReadEvents(es, 0)
         case None => None
         case Some(ms) => Some(TrackView(name, p, ms))
  {
    var r := [0] + p + es;
    assert r[1..3] == p;
    assert r[3..] == es;
  }

  /** Without a program change the events start right after the name. */
  lemma ParseNoProgram(name: seq<Byte>, es: seq<Byte>)
    requires |es| >= 2 && (es[0] == 0 ==> !(0xC0 <= es[1] < 0xD0))
    ensures ParseBody(name, es)
      == match ReadEvents(es, 0)
         case None => None
         case Some(ms) => Some(TrackView(name, [], ms))
  {
  }

  /** An event stream that starts with a zero delta continues with a note
      or meta status, never with a program change. */
  lemma EventsHead(msgs: seq<Message>, lastT: int)
    requires 0 <= lastT
    requires |msgs| > 0 ==> NoteMessage(msgs[0]) && lastT <= msgs[0].t < Two32
    ensures var r := EncodeEvents(msgs, lastT) + EndOfTrack();
      |r| >= 2 && (r[0] == 0 ==> !(0xC0 <= r[1] < 0xD0))
  {
    VlqZero();
    if msgs == [] {
      assert EncodeEvents(msgs, lastT) + EndOfTrack() == [0, 0xFF, 0x2F, 0x00];
    } else {
      var dt := msgs[0].t - lastT;
      assert Max0(dt) == dt;
      EncodeHead(msgs, lastT);
      HeadByte(dt, msgs[0].bytes, EncodeEvents(msgs[1..], msgs[0].t) + EndOfTrack());
    }
  }

  /** A delta and a note message: a zero first byte is followed by the status. */
  lemma HeadByte(dt: int, bytes: seq<Byte>, tail: seq<Byte>)
    requires 0 <= dt < Two32 && |bytes| == 3 && 0x80 <= bytes[0] < 0xA0
    ensures var r := Vlq(dt) + (bytes + tail);
      |r| >= 2 && (r[0] == 0 ==> !(0xC0 <= r[1] < 0xD0))
  {
    VlqMinimal(dt);
    VlqZero();
    var r := Vlq(dt) + (bytes + tail);
    assert r[0] == Vlq(dt)[0];
    if r[0] == 0 {
      assert r == [0] + (bytes + tail);
      assert r[1] == bytes[0];
    }
  }

  /** Note messages in tick order, each tick fitting 32 bits: what the
      track reader reads back exactly. */
  predicate NoteStream(ms: seq<Message>)
  {
    SortedBy(ms, MsgTick) && forall i :: 0 <= i < |ms| ==> NoteMessage(ms[i]) && 0 <= ms[i].t < Two32
  }

  /** The sorted messages of a track whose ticks fit are note messages at
      ticks in [0, 2^32), in order. */
  lemma SortedMessagesFit(evs: seq<Event>, ch: int)
    requires TicksFit(evs)
    ensures NoteStream(SortedMessages(evs, ch))
  {
    var ms := SortedMessages(evs, ch);
    MessagesWellFormed(evs, ch);
    forall i | 0 <= i < |ms| ensures NoteMessage(ms[i]) && 0 <= ms[i].t < Two32 {
      SortByMembers(Messages(evs, ch), MsgTick, ms[i]);
    }
  }

  /** Reading a written track gives back its name, the program change of a
      melodic track (none for a drum track) and the note messages sorted
      by tick. */
  lemma TrackRoundTrip(tr: TrackInfo, evs: seq<Event>)
    requires |tr.name| < 256 && TicksFit(evs)
    ensures ParseTrack(TrackData(tr, evs))
      == Some(TrackView(StrBytes(tr.name), if tr.drum then [] else ProgramOf(tr), SortedMessages(evs, tr.ch)))
  {
    SortedMessagesFit(evs, tr.ch);
    MessagesRoundTrip(tr, SortedMessages(evs, tr.ch));
  }

  /** `TrackRoundTrip` for any sorted note messages. */
  lemma MessagesRoundTrip(tr: TrackInfo, ms: seq<Message>)
    requires |tr.name| < 256
    requires NoteStream(ms)
    ensures ParseTrack(NameMeta(tr.name) + ProgramChange(tr) + EncodeEvents(ms, 0) + EndOfTrack())
      == Some(TrackView(StrBytes(tr.name), if tr.drum then [] else ProgramOf(tr), ms))
  {
    Associate4(NameMeta(tr.name), ProgramChange(tr), EncodeEvents(ms, 0), EndOfTrack());
    ParseNamed(tr.name, ProgramChange(tr) + (EncodeEvents(ms, 0) + EndOfTrack()));
    BodyRoundTrip(tr, ms);
  }

  /** What follows the name reads back as the program and the messages. */
  lemma BodyRoundTrip(tr: TrackInfo, ms: seq<Message>)
    requires NoteStream(ms)
    ensures ParseBody(StrBytes(tr.name), ProgramChange(tr) + (EncodeEvents(ms, 0) + EndOfTrack()))
      == Some(TrackView(StrBytes(tr.name), if tr.drum then [] else ProgramOf(tr), ms))
  {
    var es := EncodeEvents(ms, 0) + EndOfTrack();
    if tr.drum {
      assert ProgramChange(tr) + es == es;
      DrumBody(StrBytes(tr.name), ms);
    } else {
      MelodicBody(StrBytes(tr.name), ProgramOf(tr), ms);
    }
  }

  /** A drum track: the events follow the name directly. */
  lemma DrumBody(name: seq<Byte>, ms: seq<Message>)
    requires NoteStream(ms)
    ensures ParseBody(name, EncodeEvents(ms, 0) + EndOfTrack()) == Some(TrackView(name, [], ms))
  {
    EventsRoundTrip(ms, 0);
    EventsHead(ms, 0);
    ParseNoProgram(name, EncodeEvents(ms, 0) + EndOfTrack());
  }

  /** A melodic track: the program change, then the events. */
  lemma MelodicBody(name: seq<Byte>, p: seq<Byte>, ms: seq<Message>)
    requires |p| == 2 && 0xC0 <= p[0] < 0xD0
    requires NoteStream(ms)
    ensures ParseBody(name, Vlq(0) + p + (EncodeEvents(ms, 0) + EndOfTrack())) == Some(TrackView(name, p, ms))
  {
    EventsRoundTrip(ms, 0);
    VlqZero();
    ParseProgram(name, p, EncodeEvents(ms, 0) + EndOfTrack());
  }

  /** Each note message takes at most eight bytes: a delta of at most
      five and three message bytes. */
  lemma {:induction false} EncodeEventsLength(msgs: seq<Message>, lastT: int)
    requires 0 <= lastT
    requires forall i :: 0 <= i < |msgs| ==> NoteMessage(msgs[i]) && 0 <= msgs[i].t < Two32
    ensures |EncodeEvents(msgs, lastT)| <= 8 * |msgs|
    decreases |msgs|
  {
    if msgs != [] {
      var dt := Max0(msgs[0].t - lastT);
      VlqLength(dt);
      assert forall i :: 0 <= i < |msgs[1..]| ==> msgs[1..][i] == msgs[i + 1];
      EncodeEventsLength(msgs[1..], msgs[0].t);
    }
  }

  /** A track takes at most sixteen bytes per note plus a fixed overhead. */
  lemma TrackDataLength(tr: TrackInfo, evs: seq<Event>)
    requires |tr.name| < 256 && TicksFit(evs)
    ensures |TrackData(tr, evs)| <= 16 * |evs| + 266
  {
    SortedMessagesFit(evs, tr.ch);
    EncodeEventsLength(SortedMessages(evs, tr.ch), 0);
  }

  // ---------------------------------------------------------- tempo track

  /** The time signature meta event `FF 58`: 4/4, 24 clocks per click,
      eight 32nd notes per quarter. */
  const TimeSignature: seq<Byte> := [0xFF, 0x58, 0x04, 0x04, 0x02, 0x18, 0x08]

  /** `Math.round(60000000 / bpm)`, microseconds per quarter note. A tempo
      of 0 divides to Infinity, which the later `>>>` turns into 0. */
  function Mpqn(bpm: int): int
  {
    if bpm == 0 then 0 else Round(60000000.0 / bpm as real)
  }

  /** `(m>>>16)&255, (m>>>8)&255, m&255`. `>>>` first reduces `m` modulo
      2^32, which leaves these low 24 bits as they are. */
  function TempoBytes(m: int): (r: seq<Byte>)
    ensures |r| == 3
  {
    [(m / 0x1_0000) % 256, (m / 256) % 256, m % 256]
  }

  /** The 24-bit big-endian value of three bytes. */
  function U24Value(b: seq<Byte>): int
    requires |b| == 3
  {
    (b[0] as int) * 0x1_0000 + (b[1] as int) * 256 + b[2] as int
  }

  /** The three tempo bytes hold `m` modulo 2^24. */
  lemma TempoBytesValue(m: int)
    ensures U24Value(TempoBytes(m)) == m % 0x100_0000
  {
    HighDigit(m);
    MiddleDigit(m);
    LowDigit(m);
    U24Digits(m % 0x100_0000);
  }

  /** The top tempo byte of `m` is the top byte of `m` modulo 2^24. */
  lemma HighDigit(m: int)
    ensures (m / 0x1_0000) % 256 == (m % 0x100_0000) / 0x1_0000
  {
    var r, q := m % 0x100_0000, m / 0x100_0000;
    assert m == q * 0x100_0000 + r;
    assert m / 0x1_0000 == q * 256 + r / 0x1_0000;
  }

  /** The middle tempo byte of `m` is the middle byte of `m` modulo 2^24. */
  lemma MiddleDigit(m: int)
    ensures (m / 256) % 256 == ((m % 0x100_0000) / 256) % 256
  {
    var r, q := m % 0x100_0000, m / 0x100_0000;
    var y := r / 256;
    var w, z := y / 256, y % 256;
    DivMod256(m, q * 0x1_0000 + y, r % 256);
    DivMod256(m / 256, q * 256 + w, z);
  }

  /** Quotient and remainder by 256 are determined by any decomposition. */
  lemma DivMod256(x: int, a: int, z: int)
    requires x == a * 256 + z && 0 <= z < 256
    ensures x / 256 == a && x % 256 == z
  {
  }

  /** The low tempo byte of `m` is the low byte of `m` modulo 2^24. */
  lemma LowDigit(m: int)
    ensures m % 256 == (m % 0x100_0000) % 256
  {
    var r, q := m % 0x100_0000, m / 0x100_0000;
    assert m == q * 0x100_0000 + r;
  }

  /** A 24-bit value is the sum of its three bytes. */
  lemma U24Digits(r: int)
    requires 0 <= r < 0x100_0000
    ensures (r / 0x1_0000) * 0x1_0000 + ((r / 256) % 256) * 256 + r % 256 == r
  {
    var a := r / 256;
    assert r == a * 256 + r % 256;
    assert a == (a / 256) * 256 + a % 256;
    assert a / 256 == r / 0x1_0000;
  }

  /** Multiplying by a non-negative real keeps the order. */
  lemma MulMono(a: real, b: real, c: real)
    requires 0.0 <= a && b <= c
    ensures a * b <= a * c
  {
  }

  /** The exact quotient `60000000 / bpm` over the planner's range. */
  lemma QuotientRange(bpm: int)
    requires 60 <= bpm <= 220
    ensures var q := 60000000.0 / bpm as real; 272727.0 < q <= 1000000.0
  {
    var x := bpm as real;
    var q := 60000000.0 / x;
    assert q * x == 60000000.0;
    MulMono(q, x, 220.0);
    MulMono(q, 60.0, x);
  }

  /** Over the tempo range the planner produces, 60 to 220 BPM, the tempo
      fits the three bytes without loss. */
  lemma TempoInRange(bpm: int)
    requires 60 <= bpm <= 220
    ensures 272727 <= Mpqn(bpm) <= 1000000
    ensures U24Value(TempoBytes(Mpqn(bpm))) == Mpqn(bpm)
  {
    QuotientRange(bpm);
    TempoBytesValue(Mpqn(bpm));
  }

  /** Reading the tempo back as `60000000 / mpqn`, rounded, gives `bpm`
      again over the planner's range. */
  lemma TempoGivesBpm(bpm: int)
    requires 60 <= bpm <= 220
    ensures Mpqn(bpm) > 0 && Round(60000000.0 / Mpqn(bpm) as real) == bpm
  {
    TempoInRange(bpm);
    MpqnNear(bpm);
    NearReciprocal(bpm as real, Mpqn(bpm) as real);
    RoundNear(60000000.0 / Mpqn(bpm) as real, bpm);
  }

  /** `Mpqn` is the exact quotient rounded: within one half of it. */
  lemma MpqnNear(bpm: int)
    requires bpm > 0
    ensures var q := 60000000.0 / bpm as real; q - 0.5 < Mpqn(bpm) as real <= q + 0.5
  {
  }

  /** An exact real quotient times its divisor. */
  lemma DivMul(c: real, x: real)
    requires x != 0.0
    ensures (c / x) * x == c
  {
  }

  /** `Math.round` of a real within one half of an integer `n` is `n`. */
  lemma RoundNear(y: real, n: int)
    requires -0.5 < y - n as real < 0.5
    ensures Round(y) == n
  {
  }

  /** If `m` is within one half of `60000000/x`, for `x` in [60, 220] and
      `m > 220`, then `60000000/m` is within one half of `x`. */
  lemma NearReciprocal(x: real, m: real)
    requires 60.0 <= x <= 220.0 && m > 220.0
    requires 60000000.0 / x - 0.5 < m <= 60000000.0 / x + 0.5
    ensures -0.5 < 60000000.0 / m - x < 0.5
  {
    var q := 60000000.0 / x;
    var y := 60000000.0 / m;
    DivMul(60000000.0, x);
    DivMul(60000000.0, m);
    var d := y - x;
    var e := q - m;
    Distrib(y, x, m);
    Distrib(q, m, x);
    assert d * m == e * x;
    MulMono(x, e, 0.5);
    MulMono(x, -0.5, e);
    assert x * e <= x * 0.5 <= 110.0;
    assert x * e >= x * -0.5 >= -110.0;
    assert -110.0 <= d * m <= 110.0;
    RatioBound(d, m);
  }

  lemma Distrib(a: real, b: real, c: real)
    ensures (a - b) * c == a * c - b * c
  {
  }

  /** A number whose product with `m > 220` is at most 110 in size is
      within one half of 0. */
  lemma RatioBound(d: real, m: real)
    requires m > 220.0 && -110.0 <= d * m <= 110.0
    ensures -0.5 < d < 0.5
  {
    if d >= 0.5 {
      MulMono(m, 0.5, d);
    }
    if d <= -0.5 {
      MulMono(m, d, -0.5);
    }
  }

  // ---------------------------------------------------------------- title

  /** `String(n)` for a natural number: decimal digits, no leading zero. */
  function Digits(n: nat): (r: string)
    ensures |r| >= 1 && forall i :: 0 <= i < |r| ==> '0' <= r[i] <= '9'
    decreases n
  {
    var d := (('0' as int) + n % 10) as char;
    if n < 10 then [d] else Digits(n / 10) + [d]
  }

  /** The value of a string of decimal digits. */
  function DigitsValue(s: string): int
  {
    if s == [] then 0 else DigitsValue(s[..|s| - 1]) * 10 + ((s[|s| - 1] as int) - ('0' as int))
  }

  /** The decimal text of a number reads back as the number. */
  lemma {:induction false} DigitsRoundTrip(n: nat)
    ensures DigitsValue(Digits(n)) == n
    ensures |Digits(n)| == 1 || Digits(n)[0] != '0'
    decreases n
  {
    var d := (('0' as int) + n % 10) as char;
    if n >= 10 {
      DigitsRoundTrip(n / 10);
      var s := Digits(n / 10) + [d];
      assert s[..|s| - 1] == Digits(n / 10);
      assert s[0] == Digits(n / 10)[0];
    }
  }

  /** 10 to the power `k`. */
  function Pow10(k: nat): (r: nat)
    ensures r >= 1
  {
    if k == 0 then 1 else 10 * Pow10(k - 1)
  }

  /** Numbers below 10^k take at most k digits. */
  lemma {:induction false} DigitsLength(n: nat, k: nat)
    requires 1 <= k && n < Pow10(k)
    ensures |Digits(n)| <= k
    decreases k
  {
    if n >= 10 {
      DigitsLength(n / 10, k - 1);
    }
  }

  /** `${n}` for an integer. */
  function Decimal(n: int): string
  {
    if n < 0 then "-" + Digits(-n) else Digits(n)
  }

  /** The tempo track's name: artist, mood, tempo and length, separated by
      bullets (U+2022). */
  function Title(song: Song): string
  {
    "DIGI MIDI-GEN \U{2022} " + ArtistId(song.mainArtist) + " \U{2022} " + MoodId(song.mood)
      + " \U{2022} " + Decimal(song.bpm) + " BPM \U{2022} " + Decimal(song.bars) + " bars"
  }

  /** `strBytes` keeps the low byte of each code, so every bullet of the
      title is written as `0x22`, the code of a double quote. */
  lemma BulletByte()
    ensures StrBytes("\U{2022}") == [0x22]
  {
  }

  /** The title of a song of the planner's tempo range and under a million
      bars fits the one-byte length of the name event. */
  lemma TitleLength(song: Song)
    requires 60 <= song.bpm <= 220 && song.bars < 1000000
    ensures |Title(song)| < 256
  {
    assert Pow10(6) == 1000000;
    DigitsLength(song.bpm, 6);
    DigitsLength(song.bars, 6);
    IdLengths(song.mainArtist, song.mood);
  }

  /** The longest artist and mood identifiers. */
  lemma IdLengths(a: Artist, m: Mood)
    ensures |ArtistId(a)| <= 12 && |MoodId(m)| <= 11
  {
  }

  /** The tempo track: time signature, tempo, name, End of Track. */
  function TempoData(song: Song): seq<Byte>
  {
    Vlq(0) + TimeSignature + Vlq(0) + [0xFF, 0x51, 0x03] + TempoBytes(Mpqn(song.bpm))
      + NameMeta(Title(song)) + EndOfTrack()
  }

  lemma TempoDataLength(song: Song)
    ensures |TempoData(song)| == 23 + |Title(song)|
  {
  }

  /** What a reader of the tempo track finds. */
  datatype TempoView = TempoView(timeSig: seq<Byte>, mpqn: int, title: seq<Byte>)

  /** A reader of the fixed layout of the tempo track. */
  function ParseTempo(b: seq<Byte>): Option<TempoView>
  {
    if |b| < 19 || b[..4] != [0, 0xFF, 0x58, 0x04] || b[8..12] != [0, 0xFF, 0x51, 0x03]
       || b[15..18] != [0, 0xFF, 0x03] || |b| != 19 + b[18] as int + 4
       || b[19 + b[18] as int..] != [0, 0xFF, 0x2F, 0x00]
    then None
    else Some(TempoView(b[4..8], U24Value(b[12..15]), b[19..19 + b[18] as int]))
  }

  /** The tempo track reads back as 4/4, the song's tempo and its title. */
  lemma TempoRoundTrip(song: Song)
    requires 60 <= song.bpm <= 220 && song.bars < 1000000
    ensures ParseTempo(TempoData(song)) == Some(TempoView([4, 2, 0x18, 8], Mpqn(song.bpm), StrBytes(Title(song))))
  {
    TitleLength(song);
    TempoInRange(song.bpm);
    var tb := TempoBytes(Mpqn(song.bpm));
    TempoLayout(tb, Title(song));
  }

  /** The fixed layout of the tempo track, for any three tempo bytes and
      any name of less than 256 characters. */
  lemma TempoLayout(tb: seq<Byte>, name: string)
    requires |tb| == 3 && |name| < 256
    ensures ParseTempo(Vlq(0) + TimeSignature + Vlq(0) + [0xFF, 0x51, 0x03] + tb + NameMeta(name) + EndOfTrack())
      == Some(TempoView([4, 2, 0x18, 8], U24Value(tb), StrBytes(name)))
  {
    VlqZero();
    var head := [0, 0xFF, 0x58, 0x04, 0x04, 0x02, 0x18, 0x08, 0, 0xFF, 0x51, 0x03];
    var nm := StrBytes(name);
    assert Vlq(0) + TimeSignature + Vlq(0) + [0xFF, 0x51, 0x03] == head;
    var r := [0, 0xFF, 0x03, |nm|] + (nm + [0, 0xFF, 0x2F, 0x00]);
    assert NameMeta(name) + EndOfTrack() == r;
    SeqAssociate(head + tb, NameMeta(name), EndOfTrack());
    TempoFields(head, tb, nm);
  }

  /** The fields of the tempo track at their fixed offsets. */
  lemma TempoFields(head: seq<Byte>, tb: seq<Byte>, nm: seq<Byte>)
    requires head == [0, 0xFF, 0x58, 0x04, 0x04, 0x02, 0x18, 0x08, 0, 0xFF, 0x51, 0x03]
    requires |tb| == 3 && |nm| < 256
    ensures ParseTempo(head + tb + ([0, 0xFF, 0x03, |nm|] + (nm + [0, 0xFF, 0x2F, 0x00])))
      == Some(TempoView([4, 2, 0x18, 8], U24Value(tb), nm))
  {
    var r := [0, 0xFF, 0x03, |nm|] + (nm + [0, 0xFF, 0x2F, 0x00]);
    var b := head + tb + r;
    AppendSplit(head + tb, r);
    AppendSplit(head, tb);
    assert |b| == 19 + |nm| + 4;
    assert b[..4] == head[..4] == [0, 0xFF, 0x58, 0x04];
    assert b[4..8] == head[4..8] == [4, 2, 0x18, 8];
    assert b[8..12] == head[8..12] == [0, 0xFF, 0x51, 0x03];
    assert b[12..15] == tb;
    assert b[15..18] == r[..3] == [0, 0xFF, 0x03];
    assert b[18] == r[3] == |nm|;
    AppendSplit([0, 0xFF, 0x03, |nm|], nm + [0, 0xFF, 0x2F, 0x00]);
    AppendSplit(nm, [0, 0xFF, 0x2F, 0x00]);
    assert b[19..19 + |nm|] == r[4..4 + |nm|] == nm;
    assert b[19 + |nm|..] == r[4 + |nm|..] == [0, 0xFF, 0x2F, 0x00];
  }

  // ----------------------------------------------------------------- file

  /** The data of every `MTrk` chunk: the tempo track, then the tracks of
      the table in its order. */
  function TrackDatas(song: Song): (r: seq<seq<Byte>>)
    ensures |r| == 1 + |TrackTable|
  {
    [TempoData(song)] + DataOfTracks(song, TrackTable)
  }

  /** The data of each track of `tracks`, in order. */
  function DataOfTracks(song: Song, tracks: seq<TrackInfo>): (r: seq<seq<Byte>>)
    ensures |r| == |tracks|
  {
    MapSeq(tr => TrackDataOf(song, tr), tracks)
  }

  /** `f` applied to each element of `xs`, in order. */
  function MapSeq<A, B>(f: A -> B, xs: seq<A>): (r: seq<B>)
    ensures |r| == |xs| && forall i :: 0 <= i < |xs| ==> r[i] == f(xs[i])
  {
    seq(|xs|, i requires 0 <= i < |xs| => f(xs[i]))
  }

  /** Mapping one more element appends its image. */
  lemma MapSnoc<A, B>(f: A -> B, xs: seq<A>, k: nat)
    requires k < |xs|
    ensures MapSeq(f, xs[..k + 1]) == MapSeq(f, xs[..k]) + [f(xs[k])]
  {
    assert forall i :: 0 <= i < k ==> xs[..k + 1][i] == xs[..k][i];
  }

  /** The `MThd` data: format 1, the number of tracks, ticks per quarter. */
  function HeaderData(n: int): (r: seq<Byte>)
    ensures |r| == 6
  {
    U16be(1) + U16be(n) + U16be(PPQ)
  }

  /** The header chunk followed by one `MTrk` chunk per track data. */
  function FileOf(ds: seq<seq<Byte>>): seq<Byte>
  {
    Chunk("MThd", HeaderData(|ds|)) + Flatten(MTrkChunks(ds))
  }

  /** The bytes `buildMidi` returns. */
  function MidiFile(song: Song): seq<Byte>
  {
    FileOf(TrackDatas(song))
  }

  /** The pushes that build the tempo track `t0`. */
  method WriteTempo(song: Song) returns (t0: seq<Byte>)
    ensures t0 == TempoData(song)
  {
    var v := VlqLoop(0);
    t0 := v + TimeSignature;
    var mpqn := Mpqn(song.bpm);
    v := VlqLoop(0);
    t0 := t0 + v + [0xFF, 0x51, 0x03] + TempoBytes(mpqn);
    var name := Title(song);
    v := VlqLoop(0);
    var meta := v + [0xFF, 0x03, |name| % 256] + StrBytes(name);
    assert meta == NameMeta(name);
    t0 := t0 + meta;
    v := VlqLoop(0);
    var eot := v + [0xFF, 0x2F, 0x00];
    assert eot == EndOfTrack();
    t0 := t0 + eot;
  }

  /** The data of the track `tr` of the song. */
  function TrackDataOf(song: Song, tr: TrackInfo): seq<Byte>
  {
    TrackData(tr, Get(song.tracks, tr.id))
  }

  /** The loop over `TRACKS`: one `MTrk` chunk per entry, in order. */
  method WriteTracks(song: Song, tracks: seq<TrackInfo>) returns (chunks: seq<seq<Byte>>)
    ensures chunks == MTrkChunks(DataOfTracks(song, tracks))
  {
    chunks := [];
    for k := 0 to |tracks|
      invariant chunks == MTrkChunks(DataOfTracks(song, tracks[..k]))
    {
      var tr := tracks[k];
      var data := WriteTrack(tr, Get(song.tracks, tr.id));
      ChunksSnoc(song, tracks, k);
      chunks := chunks + [Chunk("MTrk", data)];
    }
    assert tracks[..|tracks|] == tracks;
  }

  /** The chunks of the first `k + 1` tracks: those of the first `k`, then track `k`'s. */
  lemma ChunksSnoc(song: Song, tracks: seq<TrackInfo>, k: nat)
    requires k < |tracks|
    ensures MTrkChunks(DataOfTracks(song, tracks[..k + 1]))
      == MTrkChunks(DataOfTracks(song, tracks[..k])) + [Chunk("MTrk", TrackDataOf(song, tracks[k]))]
  {
    DataSnoc(song, tracks, k);
    MTrkSnoc(DataOfTracks(song, tracks[..k]), TrackDataOf(song, tracks[k]));
  }

  /** The datas of the first `k + 1` tracks: those of the first `k`, then track `k`'s. */
  lemma DataSnoc(song: Song, tracks: seq<TrackInfo>, k: nat)
    requires k < |tracks|
    ensures DataOfTracks(song, tracks[..k + 1]) == DataOfTracks(song, tracks[..k]) + [TrackDataOf(song, tracks[k])]
  {
    MapSnoc(tr => TrackDataOf(song, tr), tracks, k);
  }

  /** One more data, one more chunk. */
  lemma MTrkSnoc(ds: seq<seq<Byte>>, d: seq<Byte>)
    ensures MTrkChunks(ds + [d]) == MTrkChunks(ds) + [Chunk("MTrk", d)]
  {
    assert forall i :: 0 <= i < |ds| ==> (ds + [d])[i] == ds[i];
  }

  /** `buildMidi`: the tempo track, the loop over `TRACKS`, the header. */
  method BuildMidi(song: Song) returns (bytes: seq<Byte>)
    ensures bytes == MidiFile(song)
  {
    ghost var ds := TrackDatas(song);
    var t0 := WriteTempo(song);
    var chunks := WriteTracks(song, TrackTable);
    var trks := [Chunk("MTrk", t0)] + chunks;
    PrependChunks(t0, DataOfTracks(song, TrackTable), chunks);
    bytes := WriteFile(trks);
    assert bytes == FileOf(ds);
  }

  /** The chunk of `d0` in front of chunks of `ds` are the chunks of `[d0] + ds`. */
  lemma PrependChunks(d0: seq<Byte>, ds: seq<seq<Byte>>, chunks: seq<seq<Byte>>)
    requires chunks == MTrkChunks(ds)
    ensures [Chunk("MTrk", d0)] + chunks == MTrkChunks([d0] + ds)
  {
    var trks := [Chunk("MTrk", d0)] + chunks;
    forall i | 0 <= i < |trks| ensures trks[i] == Chunk("MTrk", ([d0] + ds)[i]) {
      if i > 0 {
        assert trks[i] == chunks[i - 1];
      }
    }
  }

  /** The header, then the track chunks flattened. */
  method WriteFile(trks: seq<seq<Byte>>) returns (bytes: seq<Byte>)
    ensures bytes == Chunk("MThd", HeaderData(|trks|)) + Flatten(trks)
  {
    var header := Chunk("MThd", U16be(1) + U16be(|trks|) + U16be(PPQ));
    bytes := header + Flatten(trks);
  }

  /** What a reader of the whole file finds. */
  datatype MidiView = MidiView(format: int, ntrks: int, division: int, tracks: seq<seq<Byte>>)

  /** A reader of a file: an `MThd` chunk of six bytes, then `MTrk`
      chunks up to the end. */
  function ReadMidi(b: seq<Byte>): Option<MidiView>
  {
    match ReadChunk(b)
    case None => None
    case Some((tag, hd, rest)) =>
      if tag != StrBytes("MThd") || |hd| != 6 then None
      else
        match ReadChunks(rest)
        case None => None
        case Some(cs) =>
          if forall i :: 0 <= i < |cs| ==> cs[i].0 == StrBytes("MTrk")
          then Some(MidiView(U16Value(hd[..2]), U16Value(hd[2..4]), U16Value(hd[4..]),
                             seq(|cs|, i requires 0 <= i < |cs| => cs[i].1)))
          else None
  }

  /** The conditions under which the file reads back: the planner's tempo
      range, fewer than a million bars, and tracks whose ticks and lengths
      fit the 32-bit fields of the format. */
  predicate Writable(song: Song)
  {
    && 60 <= song.bpm <= 220 && song.bars < 1000000
    && forall id :: TicksFit(Get(song.tracks, id)) && |Get(song.tracks, id)| < 0x0F00_0000
  }

  /** Every chunk's data is shorter than 2^32 bytes. */
  lemma TrackDatasFit(song: Song)
    requires Writable(song)
    ensures forall i :: 0 <= i < |TrackDatas(song)| ==> |TrackDatas(song)[i]| < Two32
  {
    var ts := DataOfTracks(song, TrackTable);
    TitleLength(song);
    TempoDataLength(song);
    forall k | 0 <= k < |ts| ensures |ts[k]| < Two32 {
      TrackAtLength(song, k);
    }
    assert TrackDatas(song) == [TempoData(song)] + ts;
  }

  /** `TrackDatasFit` for the track at position `k`. */
  lemma TrackAtLength(song: Song, k: nat)
    requires Writable(song) && k < |TrackTable|
    ensures |DataOfTracks(song, TrackTable)[k]| < Two32
  {
    var tr := TrackTable[k];
    TrackTableChannels(k);
    assert TicksFit(Get(song.tracks, tr.id)) && |Get(song.tracks, tr.id)| < 0x0F00_0000;
    TrackDataLength(tr, Get(song.tracks, tr.id));
  }

  /** The first fourteen bytes: `MThd`, length 6, format 1, eight tracks,
      480 ticks per quarter note. */
  lemma MidiHeader(song: Song)
    ensures MidiFile(song)[..14] == [0x4D, 0x54, 0x68, 0x64, 0, 0, 0, 6, 0, 1, 0, 8, 0x01, 0xE0]
  {
    HeaderBytes(TrackDatas(song));
  }

  /** The header chunk of a file of eight tracks. */
  lemma HeaderBytes(ds: seq<seq<Byte>>)
    requires |ds| == 8
    ensures FileOf(ds)[..14] == [0x4D, 0x54, 0x68, 0x64, 0, 0, 0, 6, 0, 1, 0, 8, 0x01, 0xE0]
  {
    var hd := HeaderData(8);
    assert hd == [0, 1, 0, 8, 0x01, 0xE0];
    assert U32be(6) == [0, 0, 0, 6];
    assert StrBytes("MThd") == [0x4D, 0x54, 0x68, 0x64];
    var h := Chunk("MThd", hd);
    assert h == [0x4D, 0x54, 0x68, 0x64] + [0, 0, 0, 6] + hd;
    assert FileOf(ds)[..14] == h;
  }

  /** Reading the file back gives format 1, one chunk per track data with
      the count in the header, 480 ticks per quarter note, and the data
      of each track as written. */
  lemma MidiFileRoundTrip(song: Song)
    requires Writable(song)
    ensures ReadMidi(MidiFile(song)) == Some(MidiView(1, 1 + |TrackTable|, PPQ, TrackDatas(song)))
  {
    TrackDatasFit(song);
    FileRoundTrip(TrackDatas(song));
  }

  /** The file layout reads back for any track data that fit the format. */
  lemma FileRoundTrip(ds: seq<seq<Byte>>)
    requires |ds| < 0x1_0000 && forall i :: 0 <= i < |ds| ==> |ds[i]| < Two32
    ensures ReadMidi(FileOf(ds)) == Some(MidiView(1, |ds|, PPQ, ds))
  {
    var hd := HeaderData(|ds|);
    ChunkRoundTrip("MThd", hd, Flatten(MTrkChunks(ds)));
    MTrkRoundTrip(ds);
    HeaderFields(|ds|);
    var cs := MTrkEntries(ds);
    assert seq(|cs|, i requires 0 <= i < |cs| => cs[i].1) == ds;
  }

  /** The header fields read back as format 1, `n` tracks and 480 ticks. */
  lemma HeaderFields(n: int)
    requires 0 <= n < 0x1_0000
    ensures var hd := HeaderData(n);
      U16Value(hd[..2]) == 1 && U16Value(hd[2..4]) == n && U16Value(hd[4..]) == PPQ
  {
    var hd := HeaderData(n);
    U16RoundTrip(1);
    U16RoundTrip(n);
    U16RoundTrip(PPQ);
    assert hd[..2] == U16be(1) && hd[2..4] == U16be(n) && hd[4..] == U16be(PPQ);
  }

  /** Every note track of the file reads back as the track's name, its
      program change (none on the drum channel) and the song's notes of that
      track as note-on/note-off messages sorted by tick. */
  lemma SongTrackRoundTrip(song: Song, id: TrackId)
    requires Writable(song)
    ensures var tr := TrackTable[TrackIndex(id)];
      ParseTrack(TrackDatas(song)[1 + TrackIndex(id)])
        == Some(TrackView(StrBytes(tr.name), if tr.drum then [] else ProgramOf(tr),
                          SortedMessages(Get(song.tracks, id), tr.ch)))
  {
    var k := TrackIndex(id);
    assert TrackDatas(song)[1 + k] == TrackDataOf(song, TrackTable[k]);
    TrackAtRoundTrip(song, k);
  }

  /** `SongTrackRoundTrip` by position in the table. */
  lemma TrackAtRoundTrip(song: Song, k: nat)
    requires Writable(song) && k < |TrackTable|
    ensures var tr := TrackTable[k];
      ParseTrack(TrackDataOf(song, TrackTable[k]))
        == Some(TrackView(StrBytes(tr.name), if tr.drum then [] else ProgramOf(tr),
                          SortedMessages(Get(song.tracks, tr.id), tr.ch)))
  {
    var tr := TrackTable[k];
    TrackTableChannels(k);
    assert TicksFit(Get(song.tracks, tr.id));
    TrackRoundTrip(tr, Get(song.tracks, tr.id));
  }

  /** The messages of a track are exactly a note-on and a note-off per note
      of the song, whatever their order in the file. */
  lemma SongTrackMessages(song: Song, id: TrackId)
    ensures var ch := TrackTable[TrackIndex(id)].ch;
      multiset(SortedMessages(Get(song.tracks, id), ch)) == multiset(Messages(Get(song.tracks, id), ch))
  {
  }
}
