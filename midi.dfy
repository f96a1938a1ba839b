/** The Standard MIDI File writer: fixed-width big-endian integers,
    variable-length quantities, chunks, the tempo track and one track per
    instrument, written as format 1 with 480 ticks per quarter note. */
module Midi {
  import opened Style
  import opened Rng
  import opened Sorting
  import opened Planner
  import opened Renderer

  /** One element of the final `Uint8Array`. */
  type Byte = x: int | 0 <= x < 256

  const Two32: int := 0x1_0000_0000

  // ------------------------------------------------ fixed-width integers

  /** `u32be`: the four bytes of `n >>> 0`, most significant first. */
  function U32be(n: int): (r: seq<Byte>)
    ensures |r| == 4
  {
    [(n / 0x100_0000) % 256, (n / 0x1_0000) % 256, (n / 256) % 256, n % 256]
  }

  /** The number four big-endian bytes stand for. */
  function U32Value(b: seq<Byte>): int
    requires |b| == 4
  {
    (b[0] as int) * 0x100_0000 + (b[1] as int) * 0x1_0000 + (b[2] as int) * 256 + b[3] as int
  }

  /** `u16be`: the low sixteen bits of `n`, most significant byte first. */
  function U16be(n: int): (r: seq<Byte>)
    ensures |r| == 2
  {
    [(n / 256) % 256, n % 256]
  }

  function U16Value(b: seq<Byte>): int
    requires |b| == 2
  {
    (b[0] as int) * 256 + b[1] as int
  }

  /** Reading back a 32-bit big-endian number gives `n` modulo 2^32 (the `>>> 0`). */
  lemma U32RoundTrip(n: int)
    ensures U32Value(U32be(n)) == n % Two32
  {
    U32Wrap(n);
    Recombine(n % Two32);
  }

  /** `u32be` only sees the low 32 bits of its argument. */
  lemma U32Wrap(n: int)
    ensures U32be(n) == U32be(n % Two32)
  {
    WrapByte3(n);
    WrapByte2(n);
    WrapByte1(n);
    WrapByte0(n);
  }

  /** Adding a multiple of 256 leaves the low byte unchanged. */
  lemma ModAdd256(j: int, x: int)
    ensures (j * 256 + x) % 256 == x % 256
  {
  }

  lemma WrapByte0(n: int)
    ensures n % 256 == (n % Two32) % 256
  {
    var k, m := n / Two32, n % Two32;
    assert n == (k * 0x100_0000) * 256 + m;
    ModAdd256(k * 0x100_0000, m);
  }

  lemma WrapByte3(n: int)
    ensures (n / 0x100_0000) % 256 == ((n % Two32) / 0x100_0000) % 256
  {
    var k, m := n / Two32, n % Two32;
    var x := m / 0x100_0000;
    assert m == x * 0x100_0000 + m % 0x100_0000;
    assert n == (k * 256 + x) * 0x100_0000 + m % 0x100_0000;
    assert n / 0x100_0000 == k * 256 + x;
    ModAdd256(k, x);
  }

  lemma WrapByte2(n: int)
    ensures (n / 0x1_0000) % 256 == ((n % Two32) / 0x1_0000) % 256
  {
    var k, m := n / Two32, n % Two32;
    var x := m / 0x1_0000;
    assert m == x * 0x1_0000 + m % 0x1_0000;
    assert n == (k * 0x1_0000 + x) * 0x1_0000 + m % 0x1_0000;
    assert n / 0x1_0000 == k * 0x1_0000 + x;
    ModAdd256(k * 256, x);
  }

  lemma WrapByte1(n: int)
    ensures (n / 256) % 256 == ((n % Two32) / 256) % 256
  {
    var k, m := n / Two32, n % Two32;
    var x := m / 256;
    assert m == x * 256 + m % 256;
    assert n == (k * 0x100_0000 + x) * 256 + m % 256;
    assert n / 256 == k * 0x100_0000 + x;
    ModAdd256(k * 0x1_0000, x);
  }

  lemma Recombine(m: int)
    requires 0 <= m < Two32
    ensures (m / 0x100_0000) * 0x100_0000 + ((m / 0x1_0000) % 256) * 0x1_0000 + ((m / 256) % 256) * 256 + m % 256 == m
  {
    var a, b := m / 256, m / 0x1_0000;
    assert m == a * 256 + m % 256;
    assert b == a / 256;
    assert a == b * 256 + a % 256;
    assert m / 0x100_0000 == b / 256;
    assert b == (m / 0x100_0000) * 256 + b % 256;
  }

  /** Every four bytes are the encoding of the number they stand for. */
  lemma U32Onto(b: seq<Byte>)
    requires |b| == 4
    ensures U32be(U32Value(b)) == b
  {
    var v := U32Value(b);
    assert v / 256 == (b[0] as int) * 0x1_0000 + (b[1] as int) * 256 + b[2] as int;
    assert v / 0x1_0000 == (b[0] as int) * 256 + b[1] as int;
    assert v / 0x100_0000 == b[0] as int;
  }

  lemma U16RoundTrip(n: int)
    ensures U16Value(U16be(n)) == n % 0x1_0000
  {
  }

  lemma U16Onto(b: seq<Byte>)
    requires |b| == 2
    ensures U16be(U16Value(b)) == b
  {
  }

  // ------------------------------------------------------------- strings

  /** `strBytes`: each character's code, keeping its low eight bits. */
  function StrBytes(s: string): (r: seq<Byte>)
    ensures |r| == |s|
  {
    seq(|s|, i requires 0 <= i < |s| => (s[i] as int) % 256)
  }

  /** The characters with the given codes, the inverse for 8-bit text. */
  function Chars(b: seq<Byte>): string
  {
    seq(|b|, i requires 0 <= i < |b| => b[i] as char)
  }

  /** Text whose characters all have 8-bit codes survives the conversion. */
  lemma StrBytesLatin1(s: string)
    requires forall i :: 0 <= i < |s| ==> (s[i] as int) < 256
    ensures Chars(StrBytes(s)) == s
  {
  }

  // ------------------------------------------------- variable-length quantities

  /** The seven-bit groups of `m` above the lowest one, most significant
      first, each with the continuation bit set. */
  function VlqHigh(m: nat): (r: seq<Byte>)
    ensures forall i :: 0 <= i < |r| ==> r[i] >= 0x80
    ensures m == 0 <==> r == []
  {
    if m == 0 then [] else VlqHigh(m / 128) + [m % 128 + 0x80]
  }

  /** `vlq(n)`: `n >>> 0` in groups of seven bits, most significant first;
      every byte but the last has the continuation bit set. */
  function Vlq(n: int): (r: seq<Byte>)
    ensures |r| >= 1 && r[|r| - 1] < 0x80
    ensures forall i :: 0 <= i < |r| - 1 ==> r[i] >= 0x80
  {
    var v := n % Two32;
    VlqHigh(v / 128) + [v % 128]
  }

  /** Zero is the single byte 0. */
  lemma VlqZero()
    ensures Vlq(0) == [0]
  {
  }

  /** `vlq`: the loop that shifts out seven bits at a time and puts each
      group in front. */
  method VlqLoop(n: int) returns (bytes: seq<Byte>)
    ensures bytes == Vlq(n)
  {
    var v := n % Two32;
    bytes := [v % 128];
    v := v / 128;
    while v != 0
      invariant 0 <= v
      invariant VlqHigh(v) + bytes == Vlq(n)
      decreases v
    {
      assert VlqHigh(v) == VlqHigh(v / 128) + [v % 128 + 0x80];
      bytes := [v % 128 + 0x80] + bytes;
      v := v / 128;
    }
  }

  /** 128 to the power `k`. */
  function Pow128(k: nat): (r: nat)
    ensures r >= 1
  {
    if k == 0 then 1 else 128 * Pow128(k - 1)
  }

  lemma {:induction false} VlqHighLength(m: nat, k: nat)
    requires m < Pow128(k)
    ensures |VlqHigh(m)| <= k
  {
    if m > 0 {
      assert k > 0;
      VlqHighLength(m / 128, k - 1);
    }
  }

  /** A number of 2^32 or less takes one to five bytes. */
  lemma VlqLength(n: int)
    requires 0 <= n < Two32
    ensures 1 <= |Vlq(n)| <= 5
  {
    assert Pow128(4) == 0x1000_0000;
    VlqHighLength(n / 128, 4);
  }

  /** The most significant group of a non-zero number is not zero. */
  lemma {:induction false} VlqHighLead(m: nat)
    requires m > 0
    ensures VlqHigh(m)[0] > 0x80
  {
    if m / 128 > 0 {
      VlqHighLead(m / 128);
      assert VlqHigh(m) == VlqHigh(m / 128) + [m % 128 + 0x80];
    }
  }

  /** A quantity of more than one byte never starts with `0x80`, and a
      quantity starting with 0 is the single byte of 0. */
  lemma VlqMinimal(n: int)
    requires 0 <= n < Two32
    ensures |Vlq(n)| > 1 ==> Vlq(n)[0] != 0x80
    ensures Vlq(n)[0] == 0 <==> n == 0
  {
    if n / 128 > 0 {
      VlqHighLead(n / 128);
    }
  }

  /** The left fold `acc * 128 + (b & 0x7F)` over the bytes, from `acc`. */
  function FoldFrom(acc: int, b: seq<Byte>): int
    decreases |b|
  {
    if b == [] then acc else FoldFrom(acc * 128 + b[0] % 128, b[1..])
  }

  /** The value a reader obtains from the seven-bit groups of `m`, starting
      from `acc`. */
  function Acc(acc: int, m: nat): int
    decreases m
  {
    if m == 0 then acc else Acc(acc, m / 128) * 128 + m % 128
  }

  lemma {:induction false} AccZero(m: nat)
    ensures Acc(0, m) == m
    decreases m
  {
    if m > 0 {
      AccZero(m / 128);
    }
  }

  lemma {:induction false} FoldAppend(acc: int, a: seq<Byte>, b: seq<Byte>)
    ensures FoldFrom(acc, a + b) == FoldFrom(FoldFrom(acc, a), b)
    decreases |a|
  {
    if a == [] {
      assert a + b == b;
    } else {
      assert (a + b)[0] == a[0] && (a + b)[1..] == a[1..] + b;
      FoldAppend(acc * 128 + a[0] % 128, a[1..], b);
    }
  }

  lemma {:induction false} FoldHigh(acc: int, m: nat)
    ensures FoldFrom(acc, VlqHigh(m)) == Acc(acc, m)
    decreases m
  {
    if m > 0 {
      var d := m % 128 + 0x80;
      FoldHigh(acc, m / 128);
      FoldAppend(acc, VlqHigh(m / 128), [d]);
      FoldOne(Acc(acc, m / 128), d);
    }
  }

  /** Folding `acc * 128 + (b & 0x7F)` over `vlq(n)` gives back `n`. */
  lemma VlqValue(n: int)
    requires 0 <= n < Two32
    ensures FoldFrom(0, Vlq(n)) == n
  {
    var h, lo := VlqHigh(n / 128), n % 128;
    BelowModulus(n, Two32);
    assert Vlq(n) == h + [lo];
    FoldAppend(0, h, [lo]);
    FoldHigh(0, n / 128);
    AccZero(n / 128);
    FoldOne(n / 128, lo);
  }

  /** Folding a single byte. */
  lemma FoldOne(acc: int, x: Byte)
    ensures FoldFrom(acc, [x]) == acc * 128 + x % 128
  {
    assert [x][1..] == [];
  }

  /** A number below the modulus is its own remainder. */
  lemma BelowModulus(n: int, k: int)
    requires 0 <= n < k
    ensures n % k == n
  {
  }

  /** A reader of one quantity: continuation bytes, then a final byte
      below `0x80`; the value and the bytes after it. */
  function ReadVlq(b: seq<Byte>, acc: int): (r: Option<(int, seq<Byte>)>)
    ensures r.Some? ==> |r.value.1| < |b|
    decreases |b|
  {
    if b == [] then None
    else if b[0] < 0x80 then Some((acc * 128 + b[0], b[1..]))
    else
      match ReadVlq(b[1..], acc * 128 + b[0] - 0x80)
      case None => None
      case Some(p) => Some(p)
  }

  lemma {:induction false} ReadHigh(m: nat, tail: seq<Byte>, acc: int)
    ensures ReadVlq(VlqHigh(m) + tail, acc) == ReadVlq(tail, Acc(acc, m))
    decreases m
  {
    if m == 0 {
      assert VlqHigh(m) + tail == tail;
    } else {
      var h, d := VlqHigh(m / 128), m % 128 + 0x80;
      assert VlqHigh(m) == h + [d];
      assert VlqHigh(m) + tail == h + ([d] + tail);
      ReadHigh(m / 128, [d] + tail, acc);
      var a := Acc(acc, m / 128);
      assert ([d] + tail)[0] == d && ([d] + tail)[1..] == tail;
      assert ReadVlq([d] + tail, a) == ReadVlq(tail, a * 128 + d - 0x80);
      assert a * 128 + d - 0x80 == Acc(acc, m);
    }
  }

  /** Reading a quantity back from the front of a stream gives `n` and
      leaves exactly what follows it. */
  lemma VlqRead(n: int, rest: seq<Byte>)
    requires 0 <= n < Two32
    ensures ReadVlq(Vlq(n) + rest, 0) == Some((n, rest))
  {
    assert Vlq(n) + rest == VlqHigh(n / 128) + ([n % 128] + rest);
    ReadHigh(n / 128, [n % 128] + rest, 0);
    AccZero(n / 128);
    assert ([n % 128] + rest)[1..] == rest;
  }

  // -------------------------------------------------------------- chunks

  /** `chunk(type, data)`: the tag, the data length as `u32be`, the data. */
  function Chunk(tag: string, data: seq<Byte>): (r: seq<Byte>)
    ensures |r| == |tag| + 4 + |data|
  {
    StrBytes(tag) + U32be(|data|) + data
  }

  /** A reader of one chunk: the four tag bytes, the data its length field
      announces, and the bytes after it. */
  function ReadChunk(b: seq<Byte>): (r: Option<(seq<Byte>, seq<Byte>, seq<Byte>)>)
    ensures r.Some? ==> |r.value.2| < |b|
  {
    if |b| < 8 then None
    else
      var len := U32Value(b[4..8]);
      if |b| - 8 < len then None
      else Some((b[..4], b[8..8 + len], b[8 + len..]))
  }

  /** A chunk with a four-character tag and less than 4 GiB of data reads
      back as its tag, its data and exactly what follows it. */
  lemma ChunkRoundTrip(tag: string, data: seq<Byte>, rest: seq<Byte>)
    requires |tag| == 4 && |data| < Two32
    ensures ReadChunk(Chunk(tag, data) + rest) == Some((StrBytes(tag), data, rest))
  {
    U32RoundTrip(|data|);
    ChunkParts(StrBytes(tag), U32be(|data|), data, rest);
  }

  /** A tag, a length field holding the data's length, the data and a rest
      read back as the tag, the data and the rest. */
  lemma ChunkParts(t: seq<Byte>, n: seq<Byte>, d: seq<Byte>, r: seq<Byte>)
    requires |t| == 4 && |n| == 4 && U32Value(n) == |d|
    ensures ReadChunk(t + n + d + r) == Some((t, d, r))
  {
    ChunkFields(t, n, d, r);
  }

  /** Where the tag, the length, the data and the rest sit in a chunk. */
  lemma ChunkFields(t: seq<Byte>, n: seq<Byte>, d: seq<Byte>, r: seq<Byte>)
    requires |t| == 4 && |n| == 4
    ensures var b := t + n + d + r;
      b[..4] == t && b[4..8] == n && b[8..8 + |d|] == d && b[8 + |d|..] == r
  {
  }

  /** Reads chunks until the bytes run out. */
  function ReadChunks(b: seq<Byte>): Option<seq<(seq<Byte>, seq<Byte>)>>
    decreases |b|
  {
    if b == [] then Some([])
    else
      match ReadChunk(b)
      case None => None
      case Some((tag, data, rest)) =>
        match ReadChunks(rest)
        case None => None
        case Some(cs) => Some([(tag, data)] + cs)
  }

  /** `trks.flat()`. */
  function Flatten(cs: seq<seq<Byte>>): seq<Byte>
  {
    if cs == [] then [] else cs[0] + Flatten(cs[1..])
  }

  /** One `MTrk` chunk per track's data. */
  function MTrkChunks(ds: seq<seq<Byte>>): (r: seq<seq<Byte>>)
    ensures |r| == |ds|
  {
    seq(|ds|, i requires 0 <= i < |ds| => Chunk("MTrk", ds[i]))
  }

  /** What a reader of the track chunks sees: tag `MTrk` and each data. */
  function MTrkEntries(ds: seq<seq<Byte>>): seq<(seq<Byte>, seq<Byte>)>
  {
    seq(|ds|, i requires 0 <= i < |ds| => (StrBytes("MTrk"), ds[i]))
  }

  lemma {:induction false} MTrkRoundTrip(ds: seq<seq<Byte>>)
    requires forall i :: 0 <= i < |ds| ==> |ds[i]| < Two32
    ensures ReadChunks(Flatten(MTrkChunks(ds))) == Some(MTrkEntries(ds))
    decreases |ds|
  {
    if ds != [] {
      var cs := MTrkChunks(ds);
      assert cs[1..] == MTrkChunks(ds[1..]);
      MTrkRoundTrip(ds[1..]);
      ChunkRoundTrip("MTrk", ds[0], Flatten(cs[1..]));
      assert MTrkEntries(ds) == [(StrBytes("MTrk"), ds[0])] + MTrkEntries(ds[1..]);
    }
  }

  // ------------------------------------------------------------ messages

  /** A channel message at absolute tick `t`. */
  datatype Message = Message(t: int, bytes: seq<Byte>)

  function MsgTick(m: Message): int { m.t }

  /** Note-on `9n`, with the pitch and velocity cut to seven bits. */
  function NoteOn(e: Event, ch: int): Message
  {
    Message(e.t, [0x90 + ch % 16, e.n % 128, e.v % 128])
  }

  /** Note-off `8n` at the end of the note, velocity 0. */
  function NoteOff(e: Event, ch: int): Message
  {
    Message(e.t + e.d, [0x80 + ch % 16, e.n % 128, 0])
  }

  /** The messages of a track before sorting: a note-on and a note-off per
      event, in event order. */
  function Messages(evs: seq<Event>, ch: int): (r: seq<Message>)
    ensures |r| == 2 * |evs|
  {
    if evs == [] then []
    else Messages(evs[..|evs| - 1], ch) + [NoteOn(evs[|evs| - 1], ch), NoteOff(evs[|evs| - 1], ch)]
  }

  /** Event `k` contributes messages `2k` (its note-on) and `2k+1` (its note-off). */
  lemma {:induction false} MessagesAt(evs: seq<Event>, ch: int, k: nat)
    requires k < |evs|
    ensures Messages(evs, ch)[2 * k] == NoteOn(evs[k], ch)
    ensures Messages(evs, ch)[2 * k + 1] == NoteOff(evs[k], ch)
  {
    var init := evs[..|evs| - 1];
    if k < |evs| - 1 {
      assert init[k] == evs[k];
      MessagesAt(init, ch, k);
    }
  }

  /** A note message: three bytes with a note-off or note-on status. */
  predicate NoteMessage(m: Message)
  {
    |m.bytes| == 3 && 0x80 <= m.bytes[0] < 0xA0
  }

  /** Every note starts and ends at a tick in [0, 2^32). */
  predicate TicksFit(evs: seq<Event>)
  {
    forall e :: e in evs ==> 0 <= e.t < Two32 && 0 <= e.t + e.d < Two32
  }

  lemma {:induction false} MessagesWellFormed(evs: seq<Event>, ch: int)
    requires TicksFit(evs)
    ensures forall m :: m in Messages(evs, ch) ==> NoteMessage(m) && 0 <= m.t < Two32
  {
    if evs != [] {
      var init := evs[..|evs| - 1];
      var e := evs[|evs| - 1];
      assert forall x :: x in init ==> x in evs;
      MessagesWellFormed(init, ch);
      assert e in evs;
      forall m | m in Messages(evs, ch) ensures NoteMessage(m) && 0 <= m.t < Two32 {
        if m !in Messages(init, ch) {
          assert m == NoteOn(e, ch) || m == NoteOff(e, ch);
        }
      }
    }
  }

  /** The events loop of `buildMidi`: a note-on and a note-off per event. */
  method CollectMessages(evs: seq<Event>, ch: int) returns (events: seq<Message>)
    ensures events == Messages(evs, ch)
  {
    events := [];
    for i := 0 to |evs|
      invariant events == Messages(evs[..i], ch)
    {
      assert evs[..i + 1][..i] == evs[..i];
      events := events + [NoteOn(evs[i], ch), NoteOff(evs[i], ch)];
    }
    assert evs[..|evs|] == evs;
  }

  /** `Math.max(0, x)`. */
  function Max0(x: int): int { if x < 0 then 0 else x }

  /** The delta loop: each message preceded by the ticks since the
      previous one (never negative), starting from tick `lastT`. */
  function EncodeEvents(msgs: seq<Message>, lastT: int): seq<Byte>
  {
    if msgs == [] then []
    else Vlq(Max0(msgs[0].t - lastT)) + msgs[0].bytes + EncodeEvents(msgs[1..], msgs[0].t)
  }

  /** The loop with `lastT` that writes the sorted messages. */
  method WriteEvents(msgs: seq<Message>) returns (data: seq<Byte>)
    ensures data == EncodeEvents(msgs, 0)
  {
    data := [];
    var lastT := 0;
    for i := 0 to |msgs|
      invariant data + EncodeEvents(msgs[i..], lastT) == EncodeEvents(msgs, 0)
    {
      var v := VlqLoop(Max0(msgs[i].t - lastT));
      EncodeStep(msgs, i, lastT);
      SeqAssociate(data, v + msgs[i].bytes, EncodeEvents(msgs[i + 1..], msgs[i].t));
      data := data + (v + msgs[i].bytes);
      lastT := msgs[i].t;
    }
    assert msgs[|msgs|..] == [];
    assert data + [] == data;
  }

  /** One message of the delta loop. */
  lemma EncodeStep(msgs: seq<Message>, i: nat, lastT: int)
    requires i < |msgs|
    ensures EncodeEvents(msgs[i..], lastT)
      == (Vlq(Max0(msgs[i].t - lastT)) + msgs[i].bytes) + EncodeEvents(msgs[i + 1..], msgs[i].t)
  {
    assert msgs[i..][0] == msgs[i];
    assert msgs[i..][1..] == msgs[i + 1..];
  }

  /** The first message of a stream, split off with End of Track behind. */
  lemma EncodeHead(msgs: seq<Message>, lastT: int)
    requires |msgs| > 0
    ensures EncodeEvents(msgs, lastT) + EndOfTrack()
      == Vlq(Max0(msgs[0].t - lastT)) + (msgs[0].bytes + (EncodeEvents(msgs[1..], msgs[0].t) + EndOfTrack()))
  {
    var v := Vlq(Max0(msgs[0].t - lastT));
    var e := EncodeEvents(msgs[1..], msgs[0].t);
    assert EncodeEvents(msgs, lastT) == v + msgs[0].bytes + e;
    Associate4(v, msgs[0].bytes, e, EndOfTrack());
  }

  /** Regrouping four concatenated byte strings. */
  lemma Associate4(a: seq<Byte>, b: seq<Byte>, c: seq<Byte>, d: seq<Byte>)
    ensures a + b + c + d == a + (b + (c + d))
  {
  }

  /** The two halves of a concatenation. */
  lemma AppendSplit(a: seq<Byte>, b: seq<Byte>)
    ensures (a + b)[..|a|] == a && (a + b)[|a|..] == b
  {
  }

  /** End of Track, `FF 2F 00`, after a zero delta. */
  function EndOfTrack(): seq<Byte>
  {
    Vlq(0) + [0xFF, 0x2F, 0x00]
  }

  /** A reader of the messages of a track, up to and including End of
      Track: each delta is added to the running tick. */
  function ReadEvents(b: seq<Byte>, lastT: int): Option<seq<Message>>
    decreases |b|
  {
    match ReadVlq(b, 0)
    case None => None
    case Some((dt, r)) =>
      if |r| > 0 && r[0] == 0xFF then
        if dt == 0 && r == [0xFF, 0x2F, 0x00] then Some([]) else None
      else if |r| < 3 then None
      else
        match ReadEvents(r[3..], lastT + dt)
        case None => None
        case Some(ms) => Some([Message(lastT + dt, r[..3])] + ms)
  }

  /** One step of the reader: the delta from `lastT` to `t`, then a note message. */
  lemma ReadEventsStep(lastT: int, t: int, bytes: seq<Byte>, tail: seq<Byte>)
    requires 0 <= t - lastT < Two32 && |bytes| == 3 && 0x80 <= bytes[0] < 0xA0
    ensures ReadEvents(Vlq(t - lastT) + (bytes + tail), lastT)
      == match ReadEvents(tail, t)
         case None => None
         case Some(ms) => Some([Message(t, bytes)] + ms)
  {
    VlqRead(t - lastT, bytes + tail);
    assert (bytes + tail)[0] == bytes[0];
    assert (bytes + tail)[..3] == bytes;
    assert (bytes + tail)[3..] == tail;
    assert lastT + (t - lastT) == t;
  }

  /** The end-of-track event alone reads back as no messages. */
  lemma EndOfTrackRead(lastT: int)
    ensures ReadEvents(EndOfTrack(), lastT) == Some([])
  {
    VlqRead(0, [0xFF, 0x2F, 0x00]);
  }

  /** Reading the events back gives the messages that were written, for
      note messages sorted by tick, starting no earlier than `lastT`: the
      prefix sums of the written deltas are the messages' ticks, so a sorted
      list of note messages, all at ticks in [lastT, 2^32), is read back
      exactly. */
  lemma {:induction false} EventsRoundTrip(msgs: seq<Message>, lastT: int)
    requires 0 <= lastT
    requires SortedBy(msgs, MsgTick)
    requires forall i :: 0 <= i < |msgs| ==> NoteMessage(msgs[i]) && lastT <= msgs[i].t < Two32
    ensures ReadEvents(EncodeEvents(msgs, lastT) + EndOfTrack(), lastT) == Some(msgs)
    decreases |msgs|
  {
    if msgs == [] {
      EndOfTrackRead(lastT);
      assert EncodeEvents(msgs, lastT) + EndOfTrack() == EndOfTrack();
    } else {
      var m := msgs[0];
      var rest := msgs[1..];
      assert SortedBy(rest, MsgTick) by {
        forall i, j | 0 <= i < j < |rest| ensures rest[i].t <= rest[j].t {
          assert rest[i] == msgs[i + 1] && rest[j] == msgs[j + 1];
        }
      }
      forall i | 0 <= i < |rest| ensures NoteMessage(rest[i]) && m.t <= rest[i].t < Two32 {
        assert rest[i] == msgs[i + 1];
        assert MsgTick(msgs[0]) <= MsgTick(msgs[i + 1]);
      }
      EventsRoundTrip(rest, m.t);
      EventsCons(msgs, lastT);
    }
  }

  /** The step of `EventsRoundTrip`: one message in front of messages that
      already read back. */
  lemma EventsCons(msgs: seq<Message>, lastT: int)
    requires 0 <= lastT && |msgs| > 0 && NoteMessage(msgs[0]) && lastT <= msgs[0].t < Two32
    requires ReadEvents(EncodeEvents(msgs[1..], msgs[0].t) + EndOfTrack(), msgs[0].t) == Some(msgs[1..])
    ensures ReadEvents(EncodeEvents(msgs, lastT) + EndOfTrack(), lastT) == Some(msgs)
  {
    var m := msgs[0];
    var rest := msgs[1..];
    var tail := EncodeEvents(rest, m.t) + EndOfTrack();
    assert Max0(m.t - lastT) == m.t - lastT;
    EncodeHead(msgs, lastT);
    ReadsBackCons(EncodeEvents(msgs, lastT) + EndOfTrack(), lastT, m.t, m.bytes, tail, rest);
    assert msgs == [Message(m.t, m.bytes)] + rest;
  }

  /** `ReadEventsStep` for a tail that reads back. */
  lemma ReadsBackCons(b: seq<Byte>, lastT: int, t: int, bytes: seq<Byte>, tail: seq<Byte>, rest: seq<Message>)
    requires 0 <= t - lastT < Two32 && |bytes| == 3 && 0x80 <= bytes[0] < 0xA0
    requires b == Vlq(t - lastT) + (bytes + tail) && ReadEvents(tail, t) == Some(rest)
    ensures ReadEvents(b, lastT) == Some([Message(t, bytes)] + rest)
  {
    ReadEventsStep(lastT, t, bytes, tail);
  }
}
