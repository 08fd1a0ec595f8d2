/** The `.canon` file format (canon_format.h) and what reading it back gives
    (canon_reader.h), on byte sequences. */
module CanonFormat {

  type Byte = x: int | 0 <= x < 256

  const MAGIC: seq<Byte> := [66, 80, 84, 67]
  const SCHEMA_VERSION: nat := 1
  const TEMPLATE_FAMILY: nat := 1
  const FILE_HEADER_BYTES: nat := 96
  const RECORD_HEADER_BYTES: nat := 11
  const MAX_PAYLOAD: nat := 65535

  // --- Little-endian integers -----------------------------------------------------------

  function Pow256(width: nat): nat {
    if width == 0 then 1 else 256 * Pow256(width - 1)
  }

  function Encode(n: nat, width: nat): (bytes: seq<Byte>)
    ensures |bytes| == width
    decreases width
  {
    if width == 0 then [] else [n % 256] + Encode(n / 256, width - 1)
  }

  function Decode(bytes: seq<Byte>): nat {
    if bytes == [] then 0 else bytes[0] + 256 * Decode(bytes[1..])
  }

  lemma {:induction false} DecodeEncode(n: nat, width: nat)
    requires n < Pow256(width)
    ensures Decode(Encode(n, width)) == n
    decreases width
  {
    if width > 0 {
      assert Encode(n, width)[1..] == Encode(n / 256, width - 1);
      DecodeEncode(n / 256, width - 1);
    }
  }

  lemma {:induction false} EncodeDecode(bytes: seq<Byte>)
    ensures Decode(bytes) < Pow256(|bytes|)
    ensures Encode(Decode(bytes), |bytes|) == bytes
  {
    if bytes != [] {
      EncodeDecode(bytes[1..]);
      var n := Decode(bytes);
      assert n % 256 == bytes[0] && n / 256 == Decode(bytes[1..]);
      assert bytes == [bytes[0]] + bytes[1..];
    }
  }

  lemma {:induction false} Widths()
    ensures Pow256(2) == 65536 && Pow256(4) == 4294967296 && Pow256(8) == 18446744073709551616
  {
    assert Pow256(1) == 256;
    assert Pow256(3) == 16777216;
    assert Pow256(5) == 256 * Pow256(4) && Pow256(6) == 256 * Pow256(5) && Pow256(7) == 256 * Pow256(6);
  }

  // --- File header --------------------------------------------------------------------------

  datatype Header = Header(
    magic: seq<Byte>,
    schema: nat,
    family: nat,
    venue: Byte,
    flags: Byte,
    date: nat,
    kind: seq<Byte>,
    sha: seq<Byte>,
    reserved: seq<Byte>)

  /** The fields fit their widths. */
  predicate HeaderFits(h: Header) {
    && |h.magic| == 4 && h.schema < Pow256(2) && h.family < Pow256(2) && h.date < Pow256(4)
    && |h.kind| == 16 && |h.sha| == 40 && |h.reserved| == 26
  }

  function HeaderBytes(h: Header): seq<Byte> {
    h.magic + Encode(h.schema, 2) + Encode(h.family, 2) + [h.venue, h.flags] + Encode(h.date, 4)
    + h.kind + h.sha + h.reserved
  }

  function HeaderOf(b: seq<Byte>): Header
    requires |b| == FILE_HEADER_BYTES
  {
    Header(b[0..4], Decode(b[4..6]), Decode(b[6..8]), b[8], b[9], Decode(b[10..14]), b[14..30], b[30..70], b[70..96])
  }

  lemma {:induction false} HeaderRoundTrip(h: Header)
    requires HeaderFits(h)
    ensures |HeaderBytes(h)| == FILE_HEADER_BYTES
    ensures HeaderOf(HeaderBytes(h)) == h
  {
    hide Encode, Decode, Pow256;
    var b := HeaderBytes(h);
    DecodeEncode(h.schema, 2);
    DecodeEncode(h.family, 2);
    DecodeEncode(h.date, 4);
    assert b[0..4] == h.magic && b[4..6] == Encode(h.schema, 2) && b[6..8] == Encode(h.family, 2);
    assert b[8] == h.venue && b[9] == h.flags && b[10..14] == Encode(h.date, 4);
    assert b[14..30] == h.kind && b[30..70] == h.sha && b[70..96] == h.reserved;
  }

  lemma {:induction false} HeaderReRead(b: seq<Byte>)
    requires |b| == FILE_HEADER_BYTES
    ensures HeaderFits(HeaderOf(b)) && HeaderBytes(HeaderOf(b)) == b
  {
    hide Encode, Decode, Pow256;
    EncodeDecode(b[4..6]);
    EncodeDecode(b[6..8]);
    EncodeDecode(b[10..14]);
    assert b[8..10] == [b[8], b[9]];
    assert b == b[0..4] + b[4..6] + b[6..8] + b[8..10] + b[10..14] + b[14..30] + b[30..70] + b[70..96];
  }

  predicate Accepts(h: Header) {
    h.magic == MAGIC && h.schema <= SCHEMA_VERSION && h.family == TEMPLATE_FAMILY
  }

  /** A reader accepts the file: it has a whole header, of this format. */
  predicate Readable(file: seq<Byte>) {
    |file| >= FILE_HEADER_BYTES && Accepts(HeaderOf(file[..FILE_HEADER_BYTES]))
  }

  // --- Records --------------------------------------------------------------------------------

  datatype Record = Record(ts: nat, event: Byte, sbe: seq<Byte>)

  /** The record fits its length and time fields. */
  predicate Fits(r: Record) {
    r.ts < Pow256(8) && |r.sbe| <= MAX_PAYLOAD
  }

  predicate AllFit(rs: seq<Record>) {
    forall i :: 0 <= i < |rs| ==> Fits(rs[i])
  }

  function RecordHeader(r: Record): (b: seq<Byte>)
    ensures |b| == RECORD_HEADER_BYTES
  {
    Encode(r.ts, 8) + [r.event] + Encode(|r.sbe|, 2)
  }

  function RecordBytes(r: Record): seq<Byte> {
    RecordHeader(r) + r.sbe
  }

  function RecordsBytes(rs: seq<Record>): seq<Byte> {
    if rs == [] then [] else RecordBytes(rs[0]) + RecordsBytes(rs[1..])
  }

  /** Payload length announced by a record header. */
  function Announced(b: seq<Byte>): nat
    requires |b| >= RECORD_HEADER_BYTES
  {
    Decode(b[9..11])
  }

  /** A whole record starts the bytes. */
  predicate Whole(b: seq<Byte>) {
    |b| >= RECORD_HEADER_BYTES && |b| >= RECORD_HEADER_BYTES + Announced(b)
  }

  function RecordOf(b: seq<Byte>): Record
    requires Whole(b)
  {
    Record(Decode(b[0..8]), b[8], b[RECORD_HEADER_BYTES..RECORD_HEADER_BYTES + Announced(b)])
  }

  /** Everything a reader returns until it first returns nothing. */
  function ReadAll(b: seq<Byte>): seq<Record>
    decreases |b|
  {
    if !Whole(b) then [] else [RecordOf(b)] + ReadAll(b[RECORD_HEADER_BYTES + Announced(b)..])
  }

  lemma {:induction false} ReadFirst(r: Record, tail: seq<Byte>)
    requires Fits(r)
    ensures var b := RecordBytes(r) + tail;
            Whole(b) && RecordOf(b) == r && RECORD_HEADER_BYTES + Announced(b) == |RecordBytes(r)|
            && b[|RecordBytes(r)|..] == tail
  {
    hide Encode, Decode, Pow256;
    Widths();
    var b := RecordBytes(r) + tail;
    DecodeEncode(r.ts, 8);
    DecodeEncode(|r.sbe|, 2);
    assert b[0..8] == Encode(r.ts, 8) && b[8] == r.event && b[9..11] == Encode(|r.sbe|, 2);
    assert b[11..11 + |r.sbe|] == r.sbe;
  }

  /** What was written is read back. */
  lemma {:induction false} RoundTrip(rs: seq<Record>)
    requires AllFit(rs)
    ensures ReadAll(RecordsBytes(rs)) == rs
  {
    hide RecordBytes, RecordOf, Whole, Announced, Fits;
    if rs == [] {
      NothingWhole();
    } else {
      assert forall i :: 0 <= i < |rs[1..]| ==> rs[1..][i] == rs[i + 1];
      ReadFirst(rs[0], RecordsBytes(rs[1..]));
      RoundTrip(rs[1..]);
    }
  }

  lemma {:induction false} NothingWhole()
    ensures ReadAll([]) == []
  {
  }

  /** Whatever the bytes: what is read, written again, is how they begin, and it
      fits. */
  lemma {:induction false} ReadIsPrefix(b: seq<Byte>)
    ensures AllFit(ReadAll(b)) && RecordsBytes(ReadAll(b)) <= b
    decreases |b|
  {
    hide Encode, Decode, Pow256;
    if Whole(b) {
      var n := RECORD_HEADER_BYTES + Announced(b);
      Widths();
      EncodeDecode(b[0..8]);
      EncodeDecode(b[9..11]);
      var r := RecordOf(b);
      assert b[..n] == b[0..8] + [b[8]] + b[9..11] + b[11..n];
      assert RecordBytes(r) == b[..n];
      ReadIsPrefix(b[n..]);
      assert ReadAll(b)[1..] == ReadAll(b[n..]);
      assert b == b[..n] + b[n..];
    }
  }

  // --- Truncation --------------------------------------------------------------------------------

  /** How many leading records fit whole into `k` bytes. */
  function Complete(rs: seq<Record>, k: nat): (m: nat)
    ensures m <= |rs|
  {
    if rs == [] || |RecordBytes(rs[0])| > k then 0 else 1 + Complete(rs[1..], k - |RecordBytes(rs[0])|)
  }

  /** `Complete` is the longest prefix that fits. */
  lemma {:induction false} CompleteIsLongest(rs: seq<Record>, k: nat)
    ensures var m := Complete(rs, k);
            |RecordsBytes(rs[..m])| <= k && (m < |rs| ==> |RecordsBytes(rs[..m + 1])| > k)
  {
    hide RecordBytes;
    var m := Complete(rs, k);
    if rs == [] {
    } else if |RecordBytes(rs[0])| > k {
      assert rs[..1] == [rs[0]] && rs[..1][1..] == [];
    } else {
      CompleteIsLongest(rs[1..], k - |RecordBytes(rs[0])|);
      assert rs[..m][1..] == rs[1..][..m - 1];
      if m < |rs| { assert rs[..m + 1][1..] == rs[1..][..m]; }
    }
  }

  lemma {:induction false} CutIsNotWhole(r: Record, tail: seq<Byte>, k: nat)
    requires Fits(r) && k < |RecordBytes(r)|
    ensures !Whole((RecordBytes(r) + tail)[..k])
  {
    hide Encode, Decode, Pow256;
    ReadFirst(r, tail);
    var b := RecordBytes(r) + tail;
    if k >= RECORD_HEADER_BYTES { assert b[..k][9..11] == b[9..11]; }
  }

  /** A file cut anywhere reads as its longest prefix of complete records. */
  lemma {:induction false} Truncated(rs: seq<Record>, k: nat)
    requires AllFit(rs) && k <= |RecordsBytes(rs)|
    ensures ReadAll(RecordsBytes(rs)[..k]) == rs[..Complete(rs, k)]
  {
    hide RecordBytes, RecordOf, Whole, Announced, Fits;
    if rs == [] {
      NothingWhole();
    } else {
      var n, tail := |RecordBytes(rs[0])|, RecordsBytes(rs[1..]);
      if k < n {
        CutIsNotWhole(rs[0], tail, k);
      } else {
        assert forall i :: 0 <= i < |rs[1..]| ==> rs[1..][i] == rs[i + 1];
        ReadFirst(rs[0], tail[..k - n]);
        assert RecordsBytes(rs)[..k] == RecordBytes(rs[0]) + tail[..k - n];
        Truncated(rs[1..], k - n);
        assert rs[..Complete(rs, k)] == [rs[0]] + rs[1..][..Complete(rs[1..], k - n)];
      }
    }
  }

  lemma {:induction false} BytesAppend(a: seq<Record>, b: seq<Record>)
    ensures RecordsBytes(a + b) == RecordsBytes(a) + RecordsBytes(b)
  {
    hide RecordBytes;
    if a == [] {
      assert a + b == b;
    } else {
      assert (a + b)[1..] == a[1..] + b;
      BytesAppend(a[1..], b);
    }
  }

  lemma {:induction false} BytesSnoc(rs: seq<Record>, r: Record)
    ensures RecordsBytes(rs + [r]) == RecordsBytes(rs) + RecordBytes(r)
  {
    hide RecordBytes;
    BytesAppend(rs, [r]);
    assert [r][1..] == [] && RecordBytes(r) + [] == RecordBytes(r);
  }
}
