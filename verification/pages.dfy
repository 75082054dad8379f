/**
  What a reader of the Ogg stream finds in its pages (section 6 of RFC 3533; sections 5.1 and 5.2 of RFC 7845).
 */
module OggPages {
  import opened Options
  import opened OggCrc
  import opened Ogg

  /** The fields of a page, read off its bytes. */
  datatype Fields = Fields(version: Byte, flags: Byte, granule: nat, serial: nat, seqNo: nat, body: Bytes)

  function FieldsOf(page: Bytes): Fields
    requires |page| >= 27 && 27 + page[26] as int <= |page|
  {
    Fields(page[4], page[5], Number(page[6..14]), Number(page[14..18]), Number(page[18..22]),
           page[27 + page[26] as int..])
  }

  /** The pages of a stream, one after another. */
  function ReadAll(data: Bytes): seq<Fields>
    decreases |data|
  {
    if PageEnd(data).None? then []
    else
      var end := PageEnd(data).value;
      [FieldsOf(data[..end])] + ReadAll(data[end..])
  }

  /** What a packet on page seqNo should be read as. */
  function Expected(flags: Byte, granule: nat, seqNo: nat, body: Bytes): Fields {
    Fields(0, flags, granule % Power256(8), 0x4f43_4e31, seqNo % Power256(4), body)
  }

  lemma {:induction false} NumberRead(v: nat, k: nat)
    ensures Number(LittleEndian(v, k)) == v % Power256(k)
    decreases k
  {
    if k > 0 {
      ByteInt(v % 256);
      NumberRead(v / 256, k - 1);
      var p := Power256(k - 1);
      Digits256(v, p);
      assert LittleEndian(v, k)[1..] == LittleEndian(v / 256, k - 1);
    }
  }

  lemma {:induction false} Digits256(v: nat, p: nat)
    requires p > 0
    ensures v % (256 * p) == v % 256 + 256 * (v / 256 % p)
  {
    var q, r := v / 256 / p, v / 256 % p;
    assert v == 256 * (p * q + r) + v % 256;
    assert v == 256 * p * q + (256 * r + v % 256);
    assert 256 * r + v % 256 < 256 * p;
    Mod(v, 256 * p, q, 256 * r + v % 256);
  }

  lemma {:induction false} Mod(v: nat, m: nat, q: nat, r: nat)
    requires m > 0 && v == m * q + r && r < m
    ensures v % m == r
  {
    var d := v / m - q;
    assert v == m * (v / m) + v % m;
    assert m * d == r - v % m;
    assert d > 0 ==> m * d >= m;
    assert d < 0 ==> m * d + m <= 0;
  }

  lemma {:induction false} SerialFits()
    ensures SERIAL % Power256(4) == SERIAL && Power256(4) == 0x1_0000_0000
  {
    WordSize();
  }

  // ---- One page ----

  /** A printed page reads as its packet, with its place in the stream. */
  lemma {:induction false} PageReads(p: Packet, seqNo: nat, rest: Bytes)
    requires !TooLarge(p.body)
    ensures var page := Page(p, SERIAL, seqNo);
            && PageEnd(page + rest) == Some(|page|) && |page| >= 27 && 27 + page[26] as int <= |page|
            && page[..4] == CAPTURE && FieldsOf(page) == Expected(p.flags, p.granule, seqNo, p.body)
  {
    hide Crc, Number, LittleEndian, Lacing, Sum, Power256, PageEnd, PageWith, Front, Back;
    var page := Page(p, SERIAL, seqNo);
    PageParts(p, seqNo, WordBytes4(Crc(PageWith(p, SERIAL, seqNo, NO_CRC))));
    BackLayout(p.body);
    LacingSum(|p.body|);
    var n := |Lacing(|p.body|)|;
    assert page[26] == page[26..][0] && page[26..|page|] == page[26..];
    Slice(page, 26, |page|, 1 + n, |page| - 26);
    Slice(page, 26, |page|, 1, 1 + n);
    EndOfPage(page, rest, n);
    FrontFields(p, seqNo);
    FrontRead(page, Front(p, SERIAL, seqNo));
    NumberRead(p.granule, 8);
    NumberRead(SERIAL, 4);
    NumberRead(seqNo, 4);
    SerialFits();
  }

  lemma {:induction false} PageParts(p: Packet, seqNo: nat, crc: Bytes)
    requires |crc| == 4
    ensures var page := PageWith(p, SERIAL, seqNo, crc);
            && |page| == 26 + |Back(p.body)| && page[..4] == CAPTURE && page[26..] == Back(p.body)
            && page[..22] == Front(p, SERIAL, seqNo)
  {
    PageLayout(p, SERIAL, seqNo, crc);
    hide Front, Back;
    assert PageWith(p, SERIAL, seqNo, crc) == Front(p, SERIAL, seqNo) + (crc + Back(p.body));
  }

  lemma {:induction false} FrontRead(page: Bytes, front: Bytes)
    requires |page| >= 26 && |front| == 22 && page[..22] == front
    ensures page[4] == front[4] && page[5] == front[5] && page[6..14] == front[6..14] && page[14..18] == front[14..18]
      && page[18..22] == front[18..22]
  {
    Slice(page, 0, 22, 6, 14);
    Slice(page, 0, 22, 14, 18);
    Slice(page, 0, 22, 18, 22);
    assert page[4] == page[..22][4] && page[5] == page[..22][5];
  }

  lemma {:induction false} EndOfPage(page: Bytes, rest: Bytes, n: nat)
    requires |page| >= 27 + n && page[26] as int == n && 27 + n + Sum(page[27..27 + n]) == |page|
    ensures PageEnd(page + rest) == Some(|page|)
  {
    hide Sum;
    assert (page + rest)[27..27 + n] == page[27..27 + n];
  }

  lemma {:induction false} FrontFields(p: Packet, seqNo: nat)
    ensures var front := Front(p, SERIAL, seqNo);
            && front[4] == 0 && front[5] == p.flags && front[6..14] == LittleEndian(p.granule, 8)
            && front[14..18] == LittleEndian(SERIAL, 4) && front[18..22] == LittleEndian(seqNo, 4)
  {
    hide LittleEndian;
  }

  // ---- The whole stream ----

  /** The frames from the i-th on, on pages from seqNo on: an empty frame has no page. */
  function Marks(frames: seq<Bytes>, i: nat, seqNo: nat): seq<Fields>
    requires i <= |frames|
    decreases |frames| - i
  {
    if i == |frames| then []
    else if frames[i] == [] then Marks(frames, i + 1, seqNo)
    else [Expected(if i == |frames| - 1 then 4 else 0, (i + 1) * FRAME_SIZE, seqNo, frames[i])]
           + Marks(frames, i + 1, seqNo + 1)
  }

  lemma {:induction false} ReadOne(page: Bytes, rest: Bytes)
    requires |page| >= 27 && 27 + page[26] as int <= |page| && PageEnd(page + rest) == Some(|page|)
    ensures ReadAll(page + rest) == [FieldsOf(page)] + ReadAll(rest)
  {
    hide FieldsOf;
    assert (page + rest)[..|page|] == page && (page + rest)[|page|..] == rest;
  }

  lemma {:induction false} AudioReads(frames: seq<Bytes>, i: nat, seqNo: nat)
    requires i <= |frames| && forall k | 0 <= k < |frames| :: !TooLarge(frames[k])
    ensures ReadAll(Pages(Audio(frames, i), SERIAL, seqNo)) == Marks(frames, i, seqNo)
    decreases |frames| - i
  {
    hide Page, Pages, Audio, FieldsOf, Expected;
    if i == |frames| {
      AudioDone(frames, seqNo);
    } else {
      AudioStep(frames, i, seqNo);
      if frames[i] == [] {
        AudioReads(frames, i + 1, seqNo);
      } else {
        var p := Packet(frames[i], if i == |frames| - 1 then 4 else 0, (i + 1) * FRAME_SIZE);
        var rest := Pages(Audio(frames, i + 1), SERIAL, seqNo + 1);
        AudioReads(frames, i + 1, seqNo + 1);
        PageReads(p, seqNo, rest);
        ReadOne(Page(p, SERIAL, seqNo), rest);
        hide ReadAll;
      }
    }
  }

  /** The two headers, and then a page for each frame that is not empty, in order. */
  lemma {:induction false} StreamReads(frames: seq<Bytes>)
    requires forall k | 0 <= k < |frames| :: !TooLarge(frames[k])
    ensures ReadAll(Stream(frames))
         == [Expected(2, 0, 0, IdHeader()), Expected(0, 0, 1, CommentHeader())] + Marks(frames, 0, 2)
  {
    HeadersFit();
    hide Page, Pages, Audio, FieldsOf, Expected, IdHeader, CommentHeader, ReadAll, Marks;
    var h, c := Packet(IdHeader(), 2, 0), Packet(CommentHeader(), 0, 0);
    var audio := Pages(Audio(frames, 0), SERIAL, 2);
    AudioReads(frames, 0, 2);
    PageReads(c, 1, audio);
    ReadOne(Page(c, SERIAL, 1), audio);
    var rest := Page(c, SERIAL, 1) + audio;
    PageReads(h, 0, rest);
    ReadOne(Page(h, SERIAL, 0), rest);
    assert Stream(frames) == Page(h, SERIAL, 0) + rest;
  }

  lemma {:induction false} MarksAt(frames: seq<Bytes>, i: nat, seqNo: nat, k: nat)
    requires i + k < |frames| && forall j | i <= j < |frames| :: frames[j] != []
    ensures |Marks(frames, i, seqNo)| == |frames| - i
    ensures Marks(frames, i, seqNo)[k]
         == Expected(if i + k == |frames| - 1 then 4 else 0, (i + k + 1) * FRAME_SIZE, seqNo + k, frames[i + k])
    decreases |frames| - i
  {
    hide Expected;
    if i + 1 < |frames| {
      MarksAt(frames, i + 1, seqNo + 1, if k > 0 then k - 1 else 0);
    } else {
      assert Marks(frames, i + 1, seqNo + 1) == [];
    }
  }

  /**
    So a reader finds, on page k + 2 of any recording without empty frames, frame k, with the time at which it ends, in
    samples at 48 kHz, and the end of the stream marked on the last one.
   */
  lemma {:induction false} FramePages(frames: seq<Bytes>, k: nat)
    requires (forall j | 0 <= j < |frames| :: !TooLarge(frames[j]) && frames[j] != []) && k < |frames|
    ensures var pages := ReadAll(Stream(frames));
            && |pages| == |frames| + 2
            && pages[0] == Expected(2, 0, 0, IdHeader()) && pages[1] == Expected(0, 0, 1, CommentHeader())
            && pages[k + 2] == Expected(if k + 1 == |frames| then 4 else 0, 960 * (k + 1), k + 2, frames[k])
  {
    hide ReadAll, Stream, Marks, IdHeader, CommentHeader, Expected;
    StreamReads(frames);
    MarksAt(frames, 0, 2, k);
  }

  // ---- The headers ----

  lemma {:induction false} Powers()
    ensures Power256(2) == 65536 && Power256(4) == 0x1_0000_0000
  {
    assert Power256(1) == 256;
    WordSize();
  }

  /** Section 5.1 of RFC 7845: mono, no pre-skip, 48 kHz, no gain, one stream. */
  lemma {:induction false} IdHeaderFields()
    ensures var h := IdHeader();
            && |h| == 19 && h[..8] == OPUS_HEAD && h[8] == 1 && h[9] == 1
            && Number(h[10..12]) == 0 && Number(h[12..16]) == 48000 && Number(h[16..18]) == 0 && h[18] == 0
  {
    hide Number, LittleEndian, IdHeader, Power256;
    Powers();
    NumberOfBytes(0, 2);
    NumberOfBytes(48000, 4);
    IdHeaderParts();
  }

  lemma {:induction false} IdHeaderParts()
    ensures var h := IdHeader();
            && |h| == 19 && h[..8] == OPUS_HEAD && h[8] == 1 && h[9] == 1 && h[10..12] == LittleEndian(0, 2)
            && h[12..16] == LittleEndian(48000, 4) && h[16..18] == LittleEndian(0, 2) && h[18] == 0
  {
    hide LittleEndian;
  }

  /** Section 5.2 of RFC 7845: a vendor string of the length given, "OCN", and no comments. */
  lemma {:induction false} CommentHeaderFields()
    ensures var h := CommentHeader();
            && |h| == 19 && h[..8] == OPUS_TAGS && Number(h[8..12]) == 3 && h[12..15] == [0x4f, 0x43, 0x4e]
            && Number(h[15..]) == 0
  {
    hide Number, CommentHeader, Power256, LittleEndian;
    Powers();
    NumberOfBytes(3, 4);
    NumberOfBytes(0, 4);
    NoComments();
    CommentHeaderParts();
  }

  lemma {:induction false} NoComments()
    ensures LittleEndian(0, 4) == [0, 0, 0, 0]
  {
    assert LittleEndian(0, 1) == [0] && LittleEndian(0, 2) == [0, 0] && LittleEndian(0, 3) == [0, 0, 0];
  }

  lemma {:induction false} CommentHeaderParts()
    ensures var h := CommentHeader();
            && |h| == 19 && h[..8] == OPUS_TAGS && h[8..12] == LittleEndian(3, 4) && h[12..15] == [0x4f, 0x43, 0x4e]
            && h[15..] == [0, 0, 0, 0]
  {
    hide LittleEndian;
  }
}
