/** Where everything stands in a `.canon` file, byte by byte (canon_format.h). */
module CanonLayout {
  import opened CanonFormat
  import opened CanonFiles

  /** `n` shifted right by `i` bytes. */
  function Shifted(n: nat, i: nat): nat {
    if i == 0 then n else Shifted(n / 256, i - 1)
  }

  /** Little-endian: byte i of a number is what is left of it after i shifts. */
  lemma {:induction false} ByteAt(n: nat, width: nat, i: nat)
    requires i < width
    ensures Encode(n, width)[i] == Shifted(n, i) % 256
    decreases width
  {
    if i > 0 { ByteAt(n / 256, width - 1, i - 1); }
  }

  /** The bytes from `at` are a number of this width, least byte first. */
  predicate Holds(b: seq<Byte>, at: nat, n: nat, width: nat) {
    at + width <= |b| && forall i :: 0 <= i < width ==> b[at + i] == Shifted(n, i) % 256
  }

  lemma {:induction false} EncodeHolds(b: seq<Byte>, at: nat, n: nat, width: nat)
    requires at + width <= |b| && b[at..at + width] == Encode(n, width)
    ensures Holds(b, at, n, width)
  {
    hide Encode, Shifted;
    forall i | 0 <= i < width ensures b[at + i] == Shifted(n, i) % 256 {
      ByteAt(n, width, i);
      assert b[at..at + width][i] == b[at + i];
    }
  }

  /** The bytes from `at` are this text, cut or padded with zeros to its size. */
  predicate HoldsText(b: seq<Byte>, at: nat, text: seq<Byte>, size: nat) {
    at + size <= |b| && forall i :: 0 <= i < size ==> b[at + i] == if i < |text| then text[i] else 0
  }

  lemma {:induction false} PaddedHolds(b: seq<Byte>, at: nat, text: seq<Byte>, size: nat)
    requires at + size <= |b| && b[at..at + size] == Padded(text, size)
    ensures HoldsText(b, at, text, size)
  {
    forall i | 0 <= i < size ensures b[at + i] == if i < |text| then text[i] else 0 {
      assert b[at..at + size][i] == b[at + i];
    }
  }

  /** The 96 bytes of a file's header: BPTC, schema 1, family 1, venue, no flags,
      the date, the producer's kind and revision, and zeros. */
  lemma {:induction false} HeaderLayout(c: Config, rs: seq<Record>)
    ensures var b := FileOf(c, rs);
            && |b| >= 96 && b[96..] == RecordsBytes(rs)
            && b[0..4] == [66, 80, 84, 67]
            && Holds(b, 4, 1, 2) && Holds(b, 6, 1, 2) && b[8] == c.venue && b[9] == 0
            && Holds(b, 10, c.date, 4)
            && HoldsText(b, 14, c.kind, 16) && HoldsText(b, 30, c.sha, 40) && HoldsText(b, 70, [], 26)
  {
    hide Encode, Padded, RecordsBytes, Holds, HoldsText;
    var b, h := FileOf(c, rs), HeaderFor(c);
    HeaderParts(h, RecordsBytes(rs));
    EncodeHolds(b, 4, 1, 2);
    EncodeHolds(b, 6, 1, 2);
    EncodeHolds(b, 10, c.date, 4);
    PaddedHolds(b, 14, c.kind, 16);
    PaddedHolds(b, 30, c.sha, 40);
    PaddedHolds(b, 70, [], 26);
  }

  lemma {:induction false} HeaderParts(h: Header, tail: seq<Byte>)
    requires |h.magic| == 4 && |h.kind| == 16 && |h.sha| == 40 && |h.reserved| == 26
    ensures var b := HeaderBytes(h) + tail;
            && |HeaderBytes(h)| == 96 && b[96..] == tail
            && b[0..4] == h.magic && b[4..6] == Encode(h.schema, 2) && b[6..8] == Encode(h.family, 2)
            && b[8] == h.venue && b[9] == h.flags && b[10..14] == Encode(h.date, 4)
            && b[14..30] == h.kind && b[30..70] == h.sha && b[70..96] == h.reserved
  {
    hide Encode;
  }

  /** A record: time, event, length, and that many bytes. */
  lemma {:induction false} RecordLayout(r: Record)
    ensures var b := RecordBytes(r);
            && |b| == 11 + |r.sbe| && Holds(b, 0, r.ts, 8) && b[8] == r.event && Holds(b, 9, |r.sbe|, 2)
            && b[11..] == r.sbe
  {
    hide Encode, Holds;
    var b := RecordBytes(r);
    assert b[0..8] == Encode(r.ts, 8) && b[9..11] == Encode(|r.sbe|, 2);
    EncodeHolds(b, 0, r.ts, 8);
    EncodeHolds(b, 9, |r.sbe|, 2);
  }

  /** A reader accepts a file if and only if it has 96 bytes that begin with BPTC,
      with a schema of at most 1 and family 1. */
  lemma {:induction false} ReadableIff(file: seq<Byte>)
    ensures Readable(file)
            <==> |file| >= 96 && file[0..4] == [66, 80, 84, 67]
                 && file[4] as int + 256 * file[5] as int <= 1 && file[6] as int + 256 * file[7] as int == 1
  {
    if |file| >= 96 {
      var b := file[..96];
      assert b[0..4] == file[0..4] && b[4..6] == [file[4], file[5]] && b[6..8] == [file[6], file[7]];
      DecodeTwo(file[4], file[5]);
      DecodeTwo(file[6], file[7]);
    }
  }

  lemma {:induction false} DecodeTwo(low: Byte, high: Byte)
    ensures Decode([low, high]) == low as int + 256 * high as int
  {
    assert [low, high][1..] == [high] && [high][1..] == [] && Decode([]) == 0;
  }
}
