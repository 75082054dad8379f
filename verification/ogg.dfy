/**
  The Ogg/Opus writer of voicemail/ogg.go and the parser of services/tts.go (RFC 3533
  sections 5 and 6, RFC 7845 sections 3 to 5), and the length-prefixed frame storage.
 */
module Ogg {
  import opened Options
  import opened OggCrc

  type Bytes = seq<Byte>

  // ---- Little-endian numbers ----

  /** The low k bytes of v. */
  function LittleEndian(v: nat, k: nat): (b: Bytes)
    ensures |b| == k
    decreases k
  {
    if k == 0 then [] else [(v % 256) as Byte] + LittleEndian(v / 256, k - 1)
  }

  function Number(b: Bytes): nat {
    if b == [] then 0 else (b[0] as int) + 256 * Number(b[1..])
  }

  function Power256(k: nat): (p: nat)
    ensures p > 0
  {
    if k == 0 then 1 else 256 * Power256(k - 1)
  }

  lemma {:induction false} NumberOfBytes(v: nat, k: nat)
    ensures v < Power256(k) ==> Number(LittleEndian(v, k)) == v
    ensures Number(LittleEndian(v, k)) < Power256(k)
    decreases k
  {
    if k > 0 {
      ByteInt(v % 256);
      NumberOfBytes(v / 256, k - 1);
    }
  }

  lemma {:induction false} BytesOfNumber(b: Bytes)
    ensures LittleEndian(Number(b), |b|) == b
    decreases |b|
  {
    if b != [] {
      BytesOfNumber(b[1..]);
      IntByte(b[0]);
      LowDigit(b[0] as int, Number(b[1..]));
    }
  }

  lemma {:induction false} LowDigit(d: int, v: int)
    requires 0 <= d < 256
    ensures (d + 256 * v) % 256 == d && (d + 256 * v) / 256 == v
  {}

  lemma {:induction false} WordSize()
    ensures Power256(4) == 0x1_0000_0000
  {
    assert Power256(1) == 256;
    assert Power256(2) == 65536;
    assert Power256(3) == 0x100_0000;
  }

  /** The four bytes of a checksum. */
  function WordBytes4(w: Word): Bytes {
    [(w & 0xff) as Byte, ((w >> 8) & 0xff) as Byte, ((w >> 16) & 0xff) as Byte, ((w >> 24) & 0xff) as Byte]
  }

  // ---- Frame storage ----

  function Serialize(frames: seq<Bytes>): Bytes {
    if frames == [] then [] else LittleEndian(|frames[0]|, 4) + frames[0] + Serialize(frames[1..])
  }

  function Deserialize(data: Bytes): seq<Bytes>
    decreases |data|
  {
    if |data| < 4 then []
    else
      var n := Number(data[..4]);
      if 4 + n > |data| then [] else [data[4..4 + n]] + Deserialize(data[4 + n..])
  }

  method SerializeFrames(frames: seq<Bytes>) returns (out: Bytes)
    ensures out == Serialize(frames)
  {
    hide Serialize, LittleEndian;
    out := [];
    var i := 0;
    assert frames[0..] == frames;
    while i < |frames|
      invariant 0 <= i <= |frames| && out + Serialize(frames[i..]) == Serialize(frames)
    {
      SerializeStep(frames[i..]);
      assert frames[i..][1..] == frames[i + 1..];
      out := out + LittleEndian(|frames[i]|, 4) + frames[i];
      i := i + 1;
    }
    assert frames[i..] == [];
    SerializeNone();
  }

  lemma {:induction false} SerializeStep(frames: seq<Bytes>)
    requires frames != []
    ensures Serialize(frames) == LittleEndian(|frames[0]|, 4) + frames[0] + Serialize(frames[1..])
  {}

  lemma {:induction false} SerializeNone()
    ensures Serialize([]) == []
  {}

  method DeserializeFrames(data: Bytes) returns (frames: seq<Bytes>)
    ensures frames == Deserialize(data)
  {
    hide Deserialize, Number;
    frames := [];
    var offset := 0;
    assert data[0..] == data;
    while offset + 4 <= |data|
      invariant 0 <= offset <= |data| && frames + Deserialize(data[offset..]) == Deserialize(data)
    {
      DeserializeStep(data, offset);
      var n := Number(data[offset..offset + 4]);
      offset := offset + 4;
      if offset + n > |data| {
        return;
      }
      frames := frames + [data[offset..offset + n]];
      offset := offset + n;
    }
    DeserializeShort(data[offset..]);
  }

  lemma {:induction false} DeserializeStep(data: Bytes, offset: nat)
    requires offset + 4 <= |data|
    ensures var n := Number(data[offset..offset + 4]);
            Deserialize(data[offset..]) ==
              if offset + 4 + n > |data| then []
              else [data[offset + 4..offset + 4 + n]] + Deserialize(data[offset + 4 + n..])
  {
    hide Number;
    var rest := data[offset..];
    assert rest[..4] == data[offset..offset + 4];
    var n := Number(rest[..4]);
    if offset + 4 + n <= |data| {
      assert data[offset + 4..offset + 4 + n] == rest[4..4 + n] && data[offset + 4 + n..] == rest[4 + n..];
    }
  }

  lemma {:induction false} DeserializeShort(data: Bytes)
    requires |data| < 4
    ensures Deserialize(data) == []
  {}

  ghost predicate Storable(frames: seq<Bytes>) {
    forall i | 0 <= i < |frames| :: |frames[i]| < 0x1_0000_0000
  }

  lemma {:induction false} DeserializeFirst(f: Bytes, rest: Bytes)
    requires |f| < 0x1_0000_0000
    ensures Deserialize(LittleEndian(|f|, 4) + f + rest) == [f] + Deserialize(rest)
  {
    WordSize();
    NumberOfBytes(|f|, 4);
    var data := LittleEndian(|f|, 4) + f + rest;
    assert data[..4] == LittleEndian(|f|, 4) && data[4..4 + |f|] == f && data[4 + |f|..] == rest;
  }

  lemma {:induction false} FramesRestored(frames: seq<Bytes>)
    requires Storable(frames)
    ensures Deserialize(Serialize(frames)) == frames
    decreases |frames|
  {
    if frames != [] {
      DeserializeFirst(frames[0], Serialize(frames[1..]));
      FramesRestored(frames[1..]);
    }
  }

  /** A longer frame is stored with its length cut to 32 bits and comes back as something else. */
  lemma {:induction false} FramesLost(frames: seq<Bytes>)
    requires Deserialize(Serialize(frames)) == frames
    ensures Storable(frames)
    decreases |frames|
  {
    if frames != [] {
      var f, rest := frames[0], Serialize(frames[1..]);
      var data := LittleEndian(|f|, 4) + f + rest;
      WordSize();
      NumberOfBytes(|f|, 4);
      assert data[..4] == LittleEndian(|f|, 4);
      assert |f| == Number(data[..4]);
      DeserializeFirst(f, rest);
      assert Deserialize(rest) == Deserialize(data)[1..];
      FramesLost(frames[1..]);
    }
  }

  /** Storing frames loses nothing exactly when every frame is shorter than 2^32 bytes. */
  lemma {:induction false} StorageRoundTrip(frames: seq<Bytes>)
    ensures Deserialize(Serialize(frames)) == frames <==> Storable(frames)
  {
    if Storable(frames) {
      FramesRestored(frames);
    } else if Deserialize(Serialize(frames)) == frames {
      FramesLost(frames);
    }
  }

  /** Whatever is read back from stored data, damaged or not, is where it was. */
  lemma {:induction false} ReadBackIsPrefix(data: Bytes)
    ensures Serialize(Deserialize(data)) <= data
    decreases |data|
  {
    hide Number, LittleEndian, Serialize, Deserialize;
    SerializeNone();
    if |data| < 4 {
      DeserializeShort(data);
    } else {
      DeserializeStep(data, 0);
      assert data[0..] == data && data[0..4] == data[..4];
      var n := Number(data[..4]);
      if 4 + n <= |data| {
        ReadBackIsPrefix(data[4 + n..]);
        BytesOfNumber(data[..4]);
        SerializeStep(Deserialize(data));
        assert Deserialize(data)[1..] == Deserialize(data[4 + n..]);
        assert data == data[..4] + data[4..4 + n] + data[4 + n..];
      }
    }
  }

  // ---- Pages ----

  const CAPTURE: Bytes := [0x4f, 0x67, 0x67, 0x53]  // "OggS"

  /** The segment table of an n-byte packet: 255s, and a shorter segment that ends it. */
  function Lacing(n: nat): Bytes {
    if n >= 255 then [255] + Lacing(n - 255) else [n as Byte]
  }

  datatype Packet = Packet(body: Bytes, flags: Byte, granule: nat)

  /** A page up to its checksum. */
  function Front(p: Packet, serial: nat, seqNo: nat): (b: Bytes)
    ensures |b| == 22 && b[..4] == CAPTURE
  {
    CAPTURE + [0, p.flags] + LittleEndian(p.granule, 8) + LittleEndian(serial, 4) + LittleEndian(seqNo, 4)
  }

  /** A page from the segment count on. */
  function Back(body: Bytes): Bytes {
    [(|Lacing(|body|)| % 256) as Byte] + Lacing(|body|) + body
  }

  /** A page as it goes out, given its checksum field. */
  function PageWith(p: Packet, serial: nat, seqNo: nat, crc: Bytes): Bytes {
    Front(p, serial, seqNo) + crc + Back(p.body)
  }

  const NO_CRC: Bytes := [0, 0, 0, 0]

  function Page(p: Packet, serial: nat, seqNo: nat): Bytes {
    PageWith(p, serial, seqNo, WordBytes4(Crc(PageWith(p, serial, seqNo, NO_CRC))))
  }

  predicate TooLarge(body: Bytes) {
    |body| >= 255 * 255
  }

  lemma {:induction false} LacingLength(n: nat)
    ensures |Lacing(n)| == n / 255 + 1
    decreases n
  {
    if n >= 255 {
      LacingLength(n - 255);
    }
  }

  lemma {:induction false} PageLayout(p: Packet, serial: nat, seqNo: nat, crc: Bytes)
    requires |crc| == 4
    ensures var page := PageWith(p, serial, seqNo, crc);
            && |page| == 26 + |Back(p.body)| && page[..4] == CAPTURE && page[22..26] == crc
            && page[26..] == Back(p.body)
            && page[..22] + NO_CRC + page[26..] == PageWith(p, serial, seqNo, NO_CRC)
  {
    var front := Front(p, serial, seqNo);
    hide Front, Back;
    assert (front + crc + Back(p.body))[..22] == front;
  }

  /** Section 6 of RFC 3533: with bytes 22 to 25 set to zero, a page has the checksum stored there. */
  lemma {:induction false} PageChecks(p: Packet, serial: nat, seqNo: nat)
    ensures var page := Page(p, serial, seqNo);
            |page| >= 26 && page[22..26] == WordBytes4(Crc(page[..22] + NO_CRC + page[26..]))
  {
    hide Crc;
    PageLayout(p, serial, seqNo, WordBytes4(Crc(PageWith(p, serial, seqNo, NO_CRC))));
    hide PageWith;
  }

  /** The pages of a packet sequence; empty packets get none. */
  function Pages(packets: seq<Packet>, serial: nat, seqNo: nat): Bytes
    decreases |packets|
  {
    if packets == [] then []
    else if packets[0].body == [] then Pages(packets[1..], serial, seqNo)
    else Page(packets[0], serial, seqNo) + Pages(packets[1..], serial, seqNo + 1)
  }

  const SERIAL := 0x4f43_4e31  // "OCN1"

  class OggWriter {
    var buf: Bytes
    const serial: nat
    var seqNo: nat
    const table: array<Word>

    ghost predicate Valid()
      reads this, table
    {
      IsTable(table[..])
    }

    constructor (serial: nat, table: array<Word>)
      requires IsTable(table[..])
      ensures Valid() && buf == [] && seqNo == 0 && this.serial == serial && this.table == table
    {
      this.buf, this.serial, this.seqNo, this.table := [], serial, 0, table;
    }

    /** One packet on one page of its own. */
    method WritePage(packet: Bytes, flags: Byte, granule: nat) returns (ok: bool)
      requires Valid()
      modifies this
      ensures Valid()
      ensures ok <==> !TooLarge(packet)
      ensures packet == [] || !ok ==> buf == old(buf) && seqNo == old(seqNo)
      ensures packet != [] && ok ==>
        buf == old(buf) + Page(Packet(packet, flags, granule), serial, old(seqNo)) && seqNo == old(seqNo) + 1
    {
      hide Crc, IsTable;
      if |packet| == 0 {
        return true;
      }
      var segs := BuildLacing(|packet|);
      LacingLength(|packet|);
      if |segs| > 255 {
        return false;
      }
      ghost var p := Packet(packet, flags, granule);
      var page := CAPTURE + [0, flags] + LittleEndian(granule, 8) + LittleEndian(serial, 4) + LittleEndian(seqNo, 4)
                  + NO_CRC + [|segs| as Byte] + segs + packet;
      assert page == PageWith(p, serial, seqNo, NO_CRC) by { SamePage(p, serial, seqNo, segs); }
      var crc := ComputeCrc(table, page);
      SetCrc(p, serial, seqNo, WordBytes4(crc));
      buf := buf + (page[..22] + WordBytes4(crc) + page[26..]);
      seqNo := seqNo + 1;
      ok := true;
    }
  }

  lemma {:induction false} SamePage(p: Packet, serial: nat, seqNo: nat, segs: Bytes)
    requires segs == Lacing(|p.body|) && |segs| < 256
    ensures CAPTURE + [0, p.flags] + LittleEndian(p.granule, 8) + LittleEndian(serial, 4) + LittleEndian(seqNo, 4)
            + NO_CRC + [|segs| as Byte] + segs + p.body == PageWith(p, serial, seqNo, NO_CRC)
  {}

  lemma {:induction false} SetCrc(p: Packet, serial: nat, seqNo: nat, crc: Bytes)
    requires |crc| == 4
    ensures var page := PageWith(p, serial, seqNo, NO_CRC);
            |page| >= 26 && page[..22] + crc + page[26..] == PageWith(p, serial, seqNo, crc)
  {}

  lemma {:induction false} Remainder(k: nat, r: nat)
    requires r < 255
    ensures (255 * k + r) % 255 == r
  {}

  method BuildLacing(n: nat) returns (segs: Bytes)
    requires n > 0
    ensures segs == Lacing(n)
  {
    segs := [];
    var rem := n;
    ghost var k, last: nat := 0, 0;
    while rem > 0
      invariant 0 <= rem <= n && last < 255
      invariant n == 255 * k + rem + last && (rem > 0 ==> last == 0)
      invariant if rem > 0 then segs + Lacing(rem) == Lacing(n)
                else if last == 0 then segs + [0] == Lacing(n) else segs == Lacing(n)
    {
      if rem >= 255 {
        segs := segs + [255];
        rem := rem - 255;
        k := k + 1;
      } else {
        segs := segs + [rem as Byte];
        last := rem;
        rem := 0;
      }
    }
    Remainder(k, last);
    if n % 255 == 0 {
      segs := segs + [0];
    }
  }

  // ---- The whole stream ----

  const OPUS_HEAD: Bytes := [0x4f, 0x70, 0x75, 0x73, 0x48, 0x65, 0x61, 0x64]  // "OpusHead"
  const OPUS_TAGS: Bytes := [0x4f, 0x70, 0x75, 0x73, 0x54, 0x61, 0x67, 0x73]  // "OpusTags"
  const OPUS_TAG: Bytes := [0x4f, 0x70, 0x75, 0x73, 0x54, 0x61, 0x67]         // "OpusTag", as the parser has it

  const FRAME_SIZE := 960

  function IdHeader(): Bytes {
    OPUS_HEAD + [1, 1] + LittleEndian(0, 2) + LittleEndian(48000, 4) + LittleEndian(0, 2) + [0]
  }

  function CommentHeader(): Bytes {
    OPUS_TAGS + LittleEndian(3, 4) + [0x4f, 0x43, 0x4e] + [0, 0, 0, 0]
  }

  /** The audio packets from frame i on: one packet a frame, the last one flagged as the end of the stream. */
  function Audio(frames: seq<Bytes>, i: nat): seq<Packet>
    requires i <= |frames|
    decreases |frames| - i
  {
    if i == |frames| then []
    else [Packet(frames[i], if i == |frames| - 1 then 4 else 0, (i + 1) * FRAME_SIZE)] + Audio(frames, i + 1)
  }

  /** The stream BuildOgg writes. */
  function Stream(frames: seq<Bytes>): Bytes {
    Page(Packet(IdHeader(), 2, 0), SERIAL, 0) + Page(Packet(CommentHeader(), 0, 0), SERIAL, 1)
      + Pages(Audio(frames, 0), SERIAL, 2)
  }

  lemma {:induction false} HeadersFit()
    ensures |IdHeader()| == 19 && |CommentHeader()| == 19
  {}

  lemma {:induction false} AudioStep(frames: seq<Bytes>, i: nat, seqNo: nat)
    requires i < |frames|
    ensures var p := Packet(frames[i], if i == |frames| - 1 then 4 else 0, (i + 1) * FRAME_SIZE);
            Pages(Audio(frames, i), SERIAL, seqNo) ==
              if frames[i] == [] then Pages(Audio(frames, i + 1), SERIAL, seqNo)
              else Page(p, SERIAL, seqNo) + Pages(Audio(frames, i + 1), SERIAL, seqNo + 1)
  {
    hide Page;
    assert Audio(frames, i)[1..] == Audio(frames, i + 1);
  }

  lemma {:induction false} AudioDone(frames: seq<Bytes>, seqNo: nat)
    ensures Pages(Audio(frames, |frames|), SERIAL, seqNo) == []
  {}

  /** Fails exactly when some frame has 255 * 255 bytes or more. */
  method BuildOgg(frames: seq<Bytes>, table: array<Word>) returns (r: Option<Bytes>)
    requires IsTable(table[..])
    ensures r == if exists i | 0 <= i < |frames| :: TooLarge(frames[i]) then None else Some(Stream(frames))
  {
    hide Crc, IsTable, Page, Pages, Audio, IdHeader, CommentHeader;
    HeadersFit();
    var w := new OggWriter(SERIAL, table);
    var ok := w.WritePage(IdHeader(), 2, 0);
    ok := w.WritePage(CommentHeader(), 0, 0);
    var i := 0;
    while i < |frames|
      invariant 0 <= i <= |frames| && w.Valid() && w.serial == SERIAL
      invariant forall k | 0 <= k < i :: !TooLarge(frames[k])
      invariant w.buf + Pages(Audio(frames, i), SERIAL, w.seqNo) == Stream(frames)
    {
      AudioStep(frames, i, w.seqNo);
      ok := w.WritePage(frames[i], if i == |frames| - 1 then 4 else 0, (i + 1) * FRAME_SIZE);
      if !ok {
        return None;
      }
      i := i + 1;
    }
    AudioDone(frames, w.seqNo);
    assert w.buf + [] == w.buf;
    return Some(w.buf);
  }

  // ---- The parser ----

  function Sum(segs: Bytes): nat {
    if segs == [] then 0 else (segs[0] as int) + Sum(segs[1..])
  }

  /** What becomes of one packet: headers and empty packets are skipped. */
  function Kept(packet: Bytes, tag: Bytes): seq<Bytes> {
    if |packet| >= 8 && packet[..8] == OPUS_HEAD then []
    else if |packet| >= 8 && packet[..8] == tag then []
    else if |packet| > 0 then [packet]
    else []
  }

  /** The packets that end on a page, len bytes of the first one already seen. */
  function Packets(segs: Bytes, body: Bytes, len: nat, tag: Bytes): seq<Bytes>
    requires len + Sum(segs) == |body|
    decreases |segs|
  {
    if segs == [] then []
    else
      var more := len + segs[0] as int;
      if segs[0] < 255 then Kept(body[..more], tag) + Packets(segs[1..], body[more..], 0, tag)
      else Packets(segs[1..], body, more, tag)
  }

  /** Where the page at the front of data ends, if it is all there. */
  function PageEnd(data: Bytes): Option<nat> {
    if |data| < 27 || 27 + data[26] as int > |data| then None
    else
      var end := 27 + data[26] as int + Sum(data[27..27 + data[26] as int]);
      if end > |data| then None else Some(end)
  }

  /** The frames of a stream; a page that does not start with the capture pattern is an error, a cut one the end. */
  function Parse(data: Bytes, tag: Bytes): Option<seq<Bytes>>
    decreases |data|
  {
    if |data| < 27 then Some([])
    else if data[..4] != CAPTURE then None
    else if PageEnd(data).None? then Some([])
    else
      var n, end := data[26] as int, PageEnd(data).value;
      Prepend(Packets(data[27..27 + n], data[27 + n..end], 0, tag), Parse(data[end..], tag))
  }

  function Prepend(frames: seq<Bytes>, rest: Option<seq<Bytes>>): Option<seq<Bytes>> {
    if rest.None? then None else Some(frames + rest.value)
  }

  lemma {:induction false} PrependMore(a: seq<Bytes>, b: seq<Bytes>, rest: Option<seq<Bytes>>)
    ensures Prepend(a, Prepend(b, rest)) == Prepend(a + b, rest) && Prepend([], rest) == rest
      && Prepend(a, Some([])) == Some(a)
  {
    assert a + [] == a;
    if rest.Some? {
      assert a + (b + rest.value) == a + b + rest.value;
      assert [] + rest.value == rest.value;
    }
  }

  lemma {:induction false} ParsePage(data: Bytes, tag: Bytes)
    requires |data| >= 27 && data[..4] == CAPTURE && PageEnd(data).Some?
    ensures var n, end := data[26] as int, PageEnd(data).value;
            Parse(data, tag) == Prepend(Packets(data[27..27 + n], data[27 + n..end], 0, tag), Parse(data[end..], tag))
  {}

  lemma {:induction false} ParseEnd(data: Bytes, tag: Bytes)
    ensures |data| < 27 || (data[..4] == CAPTURE && PageEnd(data).None?) ==> Parse(data, tag) == Some([])
    ensures |data| >= 27 && data[..4] != CAPTURE ==> Parse(data, tag) == None
  {}

  method ParseOggOpus(data: Bytes, tag: Bytes) returns (r: Option<seq<Bytes>>)
    ensures r == Parse(data, tag)
  {
    hide Parse, Prepend;
    var frames := [];
    var offset := 0;
    assert data[0..] == data;
    PrependMore([], [], Parse(data, tag));
    while offset < |data|
      invariant 0 <= offset <= |data|
      invariant Prepend(frames, Parse(data[offset..], tag)) == Parse(data, tag)
      decreases |data| - offset
    {
      PrependMore(frames, [], Some([]));
      PrependNone(frames);
      var page := ReadPage(data, offset, tag);
      match page
      case Cut => return Some(frames);
      case Bad => return None;
      case Whole(more, next) =>
        PrependMore(frames, more, Parse(data[next..], tag));
        frames := frames + more;
        offset := next;
    }
    assert data[offset..] == [];
    ParseEnd([], tag);
    PrependMore(frames, [], Some([]));
    return Some(frames);
  }

  datatype PageRead = Cut | Bad | Whole(frames: seq<Bytes>, next: nat)

  /** The page at an offset: cut off, not a page, or its packets and where the next one starts. */
  method ReadPage(data: Bytes, offset: nat, tag: Bytes) returns (page: PageRead)
    requires offset < |data|
    ensures page.Cut? ==> Parse(data[offset..], tag) == Some([])
    ensures page.Bad? ==> Parse(data[offset..], tag) == None
    ensures page.Whole? ==>
              && offset < page.next <= |data|
              && Parse(data[offset..], tag) == Prepend(page.frames, Parse(data[page.next..], tag))
  {
    hide Packets, Kept, Parse, Prepend, Sum;
    ghost var rest := data[offset..];
    if offset + 27 > |data| {
      ParseEnd(rest, tag);
      return Cut;
    }
    RestOf(data, offset, 0, 0);
    if data[offset..offset + 4] != CAPTURE {
      ParseEnd(rest, tag);
      return Bad;
    }
    var n := data[offset + 26] as int;
    var start := offset + 27 + n;
    if start > |data| {
      CutPage(rest, n, tag);
      return Cut;
    }
    RestOf(data, offset, n, 0);
    var segs := data[offset + 27..start];
    var size := SumOf(segs);
    if start + size > |data| {
      CutPage(rest, n, tag);
      return Cut;
    }
    RestOf(data, offset, n, size);
    WholePage(rest, n, size, tag);
    var frames := PagePackets(segs, data[start..start + size], tag);
    return Whole(frames, start + size);
  }

  lemma {:induction false} CutPage(rest: Bytes, n: nat, tag: Bytes)
    requires |rest| >= 27 && rest[..4] == CAPTURE && n == rest[26] as int
    requires 27 + n > |rest| || 27 + n + Sum(rest[27..27 + n]) > |rest|
    ensures Parse(rest, tag) == Some([])
  {}

  lemma {:induction false} WholePage(rest: Bytes, n: nat, size: nat, tag: Bytes)
    requires |rest| >= 27 && rest[..4] == CAPTURE && n == rest[26] as int
    requires 27 + n + size <= |rest| && size == Sum(rest[27..27 + n])
    ensures Parse(rest, tag)
         == Prepend(Packets(rest[27..27 + n], rest[27 + n..27 + n + size], 0, tag), Parse(rest[27 + n + size..], tag))
  {}

  lemma {:induction false} PrependNone(frames: seq<Bytes>)
    ensures Prepend(frames, None) == None
  {}

  method SumOf(segs: Bytes) returns (n: nat)
    ensures n == Sum(segs)
  {
    n := 0;
    var i := 0;
    assert segs[0..] == segs;
    while i < |segs|
      invariant 0 <= i <= |segs| && n + Sum(segs[i..]) == Sum(segs)
    {
      assert segs[i..][1..] == segs[i + 1..];
      n := n + segs[i] as int;
      i := i + 1;
    }
  }

  /** The packets on one page; packetStart and packetLen as in the source. */
  method PagePackets(segs: Bytes, body: Bytes, tag: Bytes) returns (frames: seq<Bytes>)
    requires Sum(segs) == |body|
    ensures frames == Packets(segs, body, 0, tag)
  {
    hide Kept, Packets;
    frames := [];
    var packetStart, packetLen := 0, 0;
    var i := 0;
    assert segs[0..] == segs && body[0..] == body;
    while i < |segs|
      invariant 0 <= i <= |segs| && 0 <= packetStart && 0 <= packetLen
      invariant packetStart + packetLen + Sum(segs[i..]) == |body|
      invariant frames + Packets(segs[i..], body[packetStart..], packetLen, tag) == Packets(segs, body, 0, tag)
    {
      PacketsStep(segs[i..], body, packetStart, packetLen, tag);
      assert segs[i..][1..] == segs[i + 1..];
      packetLen := packetLen + segs[i] as int;
      if segs[i] < 255 {
        var packetEnd := packetStart + packetLen;
        frames := frames + Kept(body[packetStart..packetEnd], tag);
        packetStart := packetEnd;
        packetLen := 0;
      }
      i := i + 1;
    }
    PacketsDone(body[packetStart..], packetLen, tag);
  }

  lemma {:induction false} PacketsStep(segs: Bytes, body: Bytes, start: nat, len: nat, tag: Bytes)
    requires segs != [] && start + len + Sum(segs) == |body|
    ensures var more := len + segs[0] as int;
            && Sum(segs) == segs[0] as int + Sum(segs[1..])
            && Packets(segs, body[start..], len, tag)
               == if segs[0] < 255 then
                    Kept(body[start..start + more], tag) + Packets(segs[1..], body[start + more..], 0, tag)
                  else Packets(segs[1..], body[start..], more, tag)
  {
    hide Kept;
    var more := len + segs[0] as int;
    assert body[start..][..more] == body[start..start + more] && body[start..][more..] == body[start + more..];
  }

  lemma {:induction false} PacketsDone(body: Bytes, len: nat, tag: Bytes)
    requires len == |body|
    ensures Packets([], body, len, tag) == []
  {}

  // ---- Printing and parsing ----

  lemma {:induction false} LacingSum(n: nat)
    ensures Sum(Lacing(n)) == n
    decreases n
  {
    if n >= 255 {
      LacingSum(n - 255);
      assert Lacing(n)[1..] == Lacing(n - 255);
      assert (255 as Byte) as int == 255;
    } else {
      ByteInt(n);
    }
  }

  /** The segments of one packet give back that packet. */
  lemma {:induction false} LacedPacket(n: nat, body: Bytes, len: nat, tag: Bytes)
    requires len + n == |body| && len + Sum(Lacing(n)) == |body|
    ensures Packets(Lacing(n), body, len, tag) == Kept(body, tag)
    decreases n
  {
    hide Kept;
    if n >= 255 {
      LacingSum(n - 255);
      assert Lacing(n)[1..] == Lacing(n - 255);
      assert (255 as Byte) as int == 255;
      LacedPacket(n - 255, body, len + 255, tag);
    } else {
      ByteInt(n);
      ByteBelow(n);
      assert body[..len + n] == body;
      assert Packets([], body[len + n..], 0, tag) == [];
      assert Lacing(n)[1..] == [];
    }
  }

  lemma {:induction false} ByteBelow(n: int)
    requires 0 <= n < 255
    ensures (n as Byte) < 255
  {
    ByteInt(n);
    if (n as Byte) == 255 {
      assert false;
    }
  }

  /** A page parses to what its packet is kept as. */
  lemma {:induction false} ParsePrinted(p: Packet, seqNo: nat, rest: Bytes, tag: Bytes)
    requires !TooLarge(p.body)
    ensures Parse(Page(p, SERIAL, seqNo) + rest, tag) == Prepend(Kept(p.body, tag), Parse(rest, tag))
  {
    hide Crc, Kept, Parse, Packets;
    var crc := WordBytes4(Crc(PageWith(p, SERIAL, seqNo, NO_CRC)));
    PageLayout(p, SERIAL, seqNo, crc);
    var page := PageWith(p, SERIAL, seqNo, crc);
    hide PageWith;
    BackLayout(p.body);
    ParseOne(page, p.body, rest, tag);
  }

  lemma {:induction false} BackLayout(body: Bytes)
    requires !TooLarge(body)
    ensures var back, n := Back(body), |Lacing(|body|)|;
            n < 256 && back[0] as int == n && |back| == 1 + n + |body| && back[1..1 + n] == Lacing(|body|)
              && back[1 + n..] == body
  {
    LacingLength(|body|);
    ByteInt(|Lacing(|body|)|);
  }

  lemma {:induction false} Slice(data: Bytes, from: nat, to: nat, i: nat, j: nat)
    requires from <= to <= |data| && i <= j <= to - from
    ensures data[from + i..from + j] == data[from..to][i..j]
  {
    var a, b := data[from + i..from + j], data[from..to][i..j];
    assert |a| == |b|;
    forall k | 0 <= k < |a| ensures a[k] == b[k] {
      assert a[k] == data[from + i + k] == data[from..to][i + k] == b[k];
    }
  }

  /** The rest of the data from an offset, as the loop indexes it. */
  lemma {:induction false} RestOf(data: Bytes, offset: nat, n: nat, size: nat)
    requires offset + 27 + n + size <= |data|
    ensures var rest := data[offset..];
            && rest[..4] == data[offset..offset + 4] && rest[26] == data[offset + 26]
            && rest[27..27 + n] == data[offset + 27..offset + 27 + n]
            && rest[27 + n..27 + n + size] == data[offset + 27 + n..offset + 27 + n + size]
            && rest[27 + n + size..] == data[offset + 27 + n + size..]
  {
    assert data[offset..] == data[offset..|data|];
    Slice(data, offset, |data|, 0, 4);
    Slice(data, offset, |data|, 27, 27 + n);
    Slice(data, offset, |data|, 27 + n, 27 + n + size);
  }

  lemma {:induction false} ParseOne(page: Bytes, body: Bytes, rest: Bytes, tag: Bytes)
    requires !TooLarge(body) && |page| == 26 + |Back(body)| && page[..4] == CAPTURE && page[26..] == Back(body)
    ensures Parse(page + rest, tag) == Prepend(Kept(body, tag), Parse(rest, tag))
  {
    hide Kept, Parse, Packets, Back, Lacing;
    BackLayout(body);
    var n, data := |Lacing(|body|)|, page + rest;
    LacingSum(|body|);
    assert data[..4] == CAPTURE && data[|page|..] == rest;
    assert data[26..|page|] == page[26..];
    Slice(data, 26, |page|, 0, 1);
    Slice(data, 26, |page|, 1, 1 + n);
    Slice(data, 26, |page|, 1 + n, |page| - 26);
    assert data[26] == data[26..|page|][0];
    ParsePage(data, tag);
    LacedPacket(|body|, body, 0, tag);
  }

  /** What the frames of a stream come back as. */
  function AllKept(frames: seq<Bytes>, tag: Bytes): seq<Bytes> {
    if frames == [] then [] else Kept(frames[0], tag) + AllKept(frames[1..], tag)
  }

  lemma {:induction false} AudioParses(frames: seq<Bytes>, i: nat, seqNo: nat, tag: Bytes)
    requires i <= |frames| && forall k | 0 <= k < |frames| :: !TooLarge(frames[k])
    ensures Parse(Pages(Audio(frames, i), SERIAL, seqNo), tag) == Some(AllKept(frames[i..], tag))
    decreases |frames| - i
  {
    hide Page, Parse, Pages, Audio, Kept;
    if i == |frames| {
      AudioDone(frames, seqNo);
      ParseEnd([], tag);
    } else {
      AudioStep(frames, i, seqNo);
      assert frames[i..][1..] == frames[i + 1..];
      var p := Packet(frames[i], if i == |frames| - 1 then 4 else 0, (i + 1) * FRAME_SIZE);
      if frames[i] == [] {
        AudioParses(frames, i + 1, seqNo, tag);
        KeptNone(tag);
        assert [] + AllKept(frames[i + 1..], tag) == AllKept(frames[i + 1..], tag);
      } else {
        AudioParses(frames, i + 1, seqNo + 1, tag);
        ParsePrinted(p, seqNo, Pages(Audio(frames, i + 1), SERIAL, seqNo + 1), tag);
      }
    }
  }

  lemma {:induction false} KeptNone(tag: Bytes)
    ensures Kept([], tag) == []
  {}

  /** The id header is skipped; the comment header only if the tag is the one it starts with. */
  lemma {:induction false} HeadersKept(tag: Bytes)
    ensures Kept(IdHeader(), tag) == [] && !TooLarge(IdHeader()) && !TooLarge(CommentHeader())
    ensures Kept(CommentHeader(), OPUS_TAGS) == [] && Kept(CommentHeader(), OPUS_TAG) == [CommentHeader()]
  {
    assert IdHeader()[..8] == OPUS_HEAD;
    assert CommentHeader()[..8] == OPUS_TAGS;
    assert OPUS_TAGS[4] != OPUS_HEAD[4];
    assert |CommentHeader()[..8]| != |OPUS_TAG|;
  }

  /**
    Parsing what BuildOgg wrote. With the literal the parser has, seven characters against eight bytes, the
    comment header comes back as a first frame; with all eight it would be the kept frames alone.
   */
  lemma {:induction false} PrintParse(frames: seq<Bytes>)
    requires forall k | 0 <= k < |frames| :: !TooLarge(frames[k])
    ensures Parse(Stream(frames), OPUS_TAG) == Some([CommentHeader()] + AllKept(frames, OPUS_TAG))
    ensures Parse(Stream(frames), OPUS_TAGS) == Some(AllKept(frames, OPUS_TAGS))
  {
    PrintParseWith(frames, OPUS_TAG);
    PrintParseWith(frames, OPUS_TAGS);
    HeadersKept(OPUS_TAG);
    HeadersKept(OPUS_TAGS);
    hide Parse, Stream, AllKept, CommentHeader;
    assert [] + AllKept(frames, OPUS_TAGS) == AllKept(frames, OPUS_TAGS);
  }

  lemma {:induction false} PrintParseWith(frames: seq<Bytes>, tag: Bytes)
    requires forall k | 0 <= k < |frames| :: !TooLarge(frames[k])
    ensures Parse(Stream(frames), tag) == Some(Kept(CommentHeader(), tag) + AllKept(frames, tag))
  {
    HeadersKept(tag);
    hide Page, Parse, Pages, Audio, Kept, IdHeader, CommentHeader;
    var audio := Pages(Audio(frames, 0), SERIAL, 2);
    var h, c := Packet(IdHeader(), 2, 0), Packet(CommentHeader(), 0, 0);
    AudioParses(frames, 0, 2, tag);
    assert frames[0..] == frames;
    ParsePrinted(c, 1, audio, tag);
    ParsePrinted(h, 0, Page(c, SERIAL, 1) + audio, tag);
    assert Page(h, SERIAL, 0) + (Page(c, SERIAL, 1) + audio) == Stream(frames);
    PrependMore([], [], Parse(Page(c, SERIAL, 1) + audio, tag));
  }

  predicate Headed(frame: Bytes, magic: Bytes) {
    |frame| >= 8 && frame[..8] == magic
  }

  /** Frames that look like no header and are not empty come back untouched, in order. */
  lemma {:induction false} PlainFramesKept(frames: seq<Bytes>, tag: Bytes)
    ensures AllKept(frames, tag) == frames
      <==> forall k | 0 <= k < |frames| :: frames[k] != [] && !Headed(frames[k], OPUS_HEAD) && !Headed(frames[k], tag)
    ensures |AllKept(frames, tag)| <= |frames|
    decreases |frames|
  {
    if frames != [] {
      PlainFramesKept(frames[1..], tag);
      var f := frames[0];
      if f != [] && !Headed(f, OPUS_HEAD) && !Headed(f, tag) {
        assert Kept(f, tag) == [f];
        assert frames == [f] + frames[1..];
        assert AllKept(frames, tag)[1..] == AllKept(frames[1..], tag);
      } else {
        assert Kept(f, tag) == [];
        assert AllKept(frames, tag) == AllKept(frames[1..], tag);
      }
    }
  }
}
