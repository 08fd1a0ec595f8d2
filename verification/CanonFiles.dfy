/** The buffered writer (canon_writer.cpp) and the sequential reader
    (canon_reader.h) of `.canon` files. A file is the sequence of its bytes. */
module CanonFiles {
  import opened Orders
  import opened CanonFormat

  datatype Config = Config(kind: seq<Byte>, sha: seq<Byte>, venue: Byte, date: nat, bufferBytes: nat)

  const DEFAULT_BUFFER: nat := 1048576

  /** A text field of fixed size: cut, then padded with zeros. */
  function Padded(text: seq<Byte>, size: nat): (field: seq<Byte>)
    ensures |field| == size
    ensures forall i :: 0 <= i < size ==> field[i] == if i < |text| then text[i] else 0
  {
    seq(size, i requires 0 <= i < size => if i < |text| then text[i] else 0)
  }

  /** The text of a padded field: everything before the trailing zeros. */
  function TextOf(field: seq<Byte>): seq<Byte> {
    if field == [] || field[|field| - 1] != 0 then field else TextOf(field[..|field| - 1])
  }

  function Cut(text: seq<Byte>, size: nat): seq<Byte> {
    if |text| <= size then text else text[..size]
  }

  lemma {:induction false} TextOfPadded(text: seq<Byte>, zeros: seq<Byte>)
    requires forall i :: 0 <= i < |zeros| ==> zeros[i] == 0
    ensures TextOf(text + zeros) == TextOf(text)
  {
    if zeros == [] {
      assert text + zeros == text;
    } else {
      TextOfPadded(text, zeros[..|zeros| - 1]);
      assert (text + zeros)[..|text + zeros| - 1] == text + zeros[..|zeros| - 1];
    }
  }

  lemma {:induction false} TextIsPrefix(field: seq<Byte>)
    ensures TextOf(field) <= field
    ensures TextOf(field) == [] || TextOf(field)[|TextOf(field)| - 1] != 0
    ensures TextOf(field) == field <==> field == [] || field[|field| - 1] != 0
  {
    if field != [] && field[|field| - 1] == 0 { TextIsPrefix(field[..|field| - 1]); }
  }

  /** What is read back from a padded field is what of the text fits it, and it
      is the text itself if and only if the text fits and does not end in a
      zero. */
  lemma {:induction false} PaddedReadsBack(text: seq<Byte>, size: nat)
    ensures TextOf(Padded(text, size)) == TextOf(Cut(text, size))
    ensures TextOf(Padded(text, size)) == text
            <==> |text| <= size && (text == [] || text[|text| - 1] != 0)
  {
    var cut, field := Cut(text, size), Padded(text, size);
    assert field == cut + field[|cut|..];
    TextOfPadded(cut, field[|cut|..]);
    TextIsPrefix(cut);
  }

  function HeaderFor(c: Config): Header {
    Header(MAGIC, SCHEMA_VERSION, TEMPLATE_FAMILY, c.venue, 0, c.date, Padded(c.kind, 16), Padded(c.sha, 40),
           Padded([], 26))
  }

  /** A file that holds these records. */
  function FileOf(c: Config, rs: seq<Record>): seq<Byte> {
    HeaderBytes(HeaderFor(c)) + RecordsBytes(rs)
  }

  class Writer {
    const config: Config
    const buffer: array<Byte>
    var bufferPos: nat
    var file: seq<Byte>
    var isOpen: bool
    var eventsWritten: nat
    var bytesWritten: nat
    /** The events accepted since the file was opened. */
    ghost var events: seq<Record>

    ghost predicate BufferOk()
      reads this
    {
      buffer.Length > 0 && bufferPos <= buffer.Length
    }

    /** What is in the file and what is still in the buffer. */
    ghost function Contents(): seq<Byte>
      requires BufferOk()
      reads this, buffer
    {
      file + buffer[..bufferPos]
    }

    /** While the file is open, file and buffer together are the header and the
        encodings of the accepted events. */
    ghost predicate Valid()
      reads this, buffer
    {
      && BufferOk()
      && AllFit(events)
      && (isOpen ==> Contents() == FileOf(config, events))
      && (!isOpen ==> bufferPos == 0)
    }

    constructor (config: Config)
      ensures Valid() && !isOpen && events == [] && file == [] && fresh(buffer)
      ensures this.config == config && eventsWritten == 0 && bytesWritten == 0
      ensures buffer.Length == if config.bufferBytes == 0 then DEFAULT_BUFFER else config.bufferBytes
    {
      this.config := config;
      var n := if config.bufferBytes == 0 then DEFAULT_BUFFER else config.bufferBytes;
      buffer := new Byte[n];
      bufferPos, file, isOpen := 0, [], false;
      eventsWritten, bytesWritten := 0, 0;
      events := [];
    }

    /** Starts the file with its header. An open file is left alone. */
    method Open() returns (ok: bool)
      requires Valid()
      modifies this`file, this`isOpen, this`bytesWritten, this`events
      ensures Valid() && ok && isOpen
      ensures old(isOpen) ==> file == old(file) && events == old(events) && bytesWritten == old(bytesWritten)
      ensures !old(isOpen) ==> file == FileOf(config, []) && events == []
    {
      if isOpen { return true; }
      file := HeaderBytes(HeaderFor(config));
      bytesWritten := bytesWritten + |file|;
      isOpen := true;
      events := [];
      assert RecordsBytes([]) == [] && buffer[..0] == [];
      return true;
    }

    method FlushBuffer()
      requires BufferOk()
      modifies this`file, this`bufferPos
      ensures BufferOk() && bufferPos == 0 && file == Contents() == old(Contents())
    {
      if bufferPos > 0 {
        file := file + buffer[..bufferPos];
        bufferPos := 0;
      }
      assert buffer[..0] == [];
    }

    /** Copies bytes into the free part of the buffer. */
    method Put(bytes: seq<Byte>)
      requires BufferOk() && bufferPos + |bytes| <= buffer.Length
      modifies this`bufferPos, buffer
      ensures BufferOk() && bufferPos == old(bufferPos) + |bytes|
      ensures Contents() == old(Contents()) + bytes
    {
      forall i | 0 <= i < |bytes| {
        buffer[bufferPos + i] := bytes[i];
      }
      ghost var kept := old(buffer[..bufferPos]);
      bufferPos := bufferPos + |bytes|;
      assert buffer[..bufferPos] == kept + bytes;
    }

    /** Appends a record: to the buffer, after a flush if it has no room left,
        or straight to the file if it is larger than the whole buffer. */
    method Append(header: seq<Byte>, sbe: seq<Byte>)
      requires BufferOk()
      modifies this`file, this`bufferPos, buffer
      ensures BufferOk() && Contents() == old(Contents()) + (header + sbe)
    {
      var total := |header| + |sbe|;
      if bufferPos + total > buffer.Length {
        FlushBuffer();
        if total > buffer.Length {
          assert buffer[..bufferPos] == [];
          file := file + header;
          if |sbe| > 0 { file := file + sbe; }
          assert file + [] == old(Contents()) + (header + sbe);
          return;
        }
      }
      Put(header);
      if |sbe| > 0 {
        Put(sbe);
      }
    }

    /** Appends an event, unless the file is not open or the payload is too
        long for its length field. */
    method WriteEvent(ts: nat, event: Byte, sbe: seq<Byte>) returns (ok: bool)
      requires Valid() && ts < Pow256(8)
      modifies this`file, this`bufferPos, this`eventsWritten, this`bytesWritten, this`events, buffer
      ensures Valid()
      ensures ok <==> isOpen && |sbe| <= MAX_PAYLOAD
      ensures events == if ok then old(events) + [Record(ts, event, sbe)] else old(events)
      ensures Contents() == if ok then old(Contents()) + RecordBytes(Record(ts, event, sbe)) else old(Contents())
      ensures eventsWritten == old(eventsWritten) + if ok then 1 else 0
      ensures bytesWritten == old(bytesWritten) + if ok then |RecordBytes(Record(ts, event, sbe))| else 0
    {
      hide HeaderBytes, RecordsBytes, RecordHeader, Encode, Pow256;
      if !isOpen { return false; }
      if |sbe| > MAX_PAYLOAD { return false; }
      ghost var r := Record(ts, event, sbe);
      var rh := RecordHeader(Record(ts, event, sbe));
      Append(rh, sbe);
      eventsWritten := eventsWritten + 1;
      bytesWritten := bytesWritten + |rh| + |sbe|;
      BytesSnoc(events, r);
      events := events + [r];
      return true;
    }

    method Flush()
      requires Valid()
      modifies this`file, this`bufferPos
      ensures Valid() && (isOpen ==> file == FileOf(config, events))
      ensures !isOpen ==> file == old(file)
    {
      if !isOpen { return; }
      FlushBuffer();
    }

    /** After closing, the file holds the header and exactly the accepted
        events. */
    method Close()
      requires Valid()
      modifies this`file, this`bufferPos, this`isOpen
      ensures Valid() && !isOpen
      ensures old(isOpen) ==> file == FileOf(config, events)
      ensures !old(isOpen) ==> file == old(file)
    {
      if !isOpen { return; }
      FlushBuffer();
      isOpen := false;
    }
  }

  class Reader {
    const file: seq<Byte>
    var pos: nat
    var openOk: bool
    var header: Option<Header>

    ghost predicate Valid()
      reads this
    {
      && pos <= |file|
      && (openOk <==> Readable(file))
      && (openOk ==> pos >= FILE_HEADER_BYTES && header == Some(HeaderOf(file[..FILE_HEADER_BYTES])))
    }

    /** What the reader will still return. */
    ghost function Rest(): seq<Record>
      requires Valid()
      reads this
    {
      if openOk then ReadAll(file[pos..]) else []
    }

    constructor (file: seq<Byte>)
      ensures Valid() && this.file == file
      ensures openOk ==> Rest() == ReadAll(file[FILE_HEADER_BYTES..])
    {
      this.file := file;
      pos, openOk, header := 0, false, None;
      new;
      if |file| < FILE_HEADER_BYTES {
        pos := |file|;
        return;
      }
      pos := FILE_HEADER_BYTES;
      var h := HeaderOf(file[0..FILE_HEADER_BYTES]);
      header := Some(h);
      if h.magic != MAGIC { return; }
      if h.schema > SCHEMA_VERSION { return; }
      if h.family != TEMPLATE_FAMILY { return; }
      openOk := true;
    }

    /** The next record, or nothing at the end of the file or of its complete
        records. */
    method Next() returns (r: Option<Record>)
      requires Valid()
      modifies this`pos
      ensures Valid()
      ensures r.Some? ==> old(Rest()) == [r.value] + Rest()
      ensures r.None? ==> old(Rest()) == [] == Rest()
    {
      hide HeaderOf, Accepts, Decode;
      if !openOk { return None; }
      var b := file[pos..];
      if |b| < RECORD_HEADER_BYTES {
        pos := |file|;
        return None;
      }
      pos := pos + RECORD_HEADER_BYTES;
      var len := Announced(b);
      var sbe := file[pos..];
      if len > 0 && |sbe| < len {
        pos := |file|;
        return None;
      }
      pos := pos + len;
      assert file[pos..] == b[RECORD_HEADER_BYTES + len..];
      assert sbe[..len] == b[RECORD_HEADER_BYTES..RECORD_HEADER_BYTES + len];
      return Some(Record(Decode(b[0..8]), b[8], sbe[..len]));
    }
  }

  lemma {:induction false} HeaderForFits(c: Config)
    requires c.date < Pow256(4)
    ensures HeaderFits(HeaderFor(c)) && Accepts(HeaderFor(c))
  {
    Widths();
  }

  /** A finished file is readable and reads back as exactly the accepted
      events; cut anywhere after its header, as the longest prefix of events
      that are still whole. */
  lemma {:induction false} FileReadsBack(c: Config, rs: seq<Record>, k: nat)
    requires AllFit(rs) && c.date < Pow256(4)
    requires FILE_HEADER_BYTES <= k <= |FileOf(c, rs)|
    ensures var file := FileOf(c, rs);
            && Readable(file) && HeaderOf(file[..FILE_HEADER_BYTES]) == HeaderFor(c)
            && ReadAll(file[FILE_HEADER_BYTES..]) == rs
            && Readable(file[..k])
            && ReadAll(file[..k][FILE_HEADER_BYTES..]) == rs[..Complete(rs, k - FILE_HEADER_BYTES)]
  {
    hide HeaderBytes, HeaderOf, HeaderFor, HeaderFits, Accepts, RecordsBytes, Pow256, Complete, ReadAll;
    var file, n := FileOf(c, rs), FILE_HEADER_BYTES;
    HeaderForFits(c);
    HeaderRoundTrip(HeaderFor(c));
    RoundTrip(rs);
    Truncated(rs, k - n);
    CutParts(HeaderBytes(HeaderFor(c)), RecordsBytes(rs), k);
  }

  /** A cut past the header leaves the header whole. */
  lemma {:induction false} CutParts(header: seq<Byte>, body: seq<Byte>, k: nat)
    requires |header| <= k <= |header| + |body|
    ensures var file, n := header + body, |header|;
            && file[..n] == header == file[..k][..n]
            && file[n..] == body && file[..k][n..] == body[..k - n]
  {
  }

  /** Cut inside its header, the file is refused. */
  lemma {:induction false} CutHeaderRefused(file: seq<Byte>, k: nat)
    requires k < FILE_HEADER_BYTES && k <= |file|
    ensures !Readable(file[..k])
  {
  }

  /** A finished file, cut anywhere, is readable exactly if its header is whole. */
  lemma {:induction false} CutReadableIff(c: Config, rs: seq<Record>, k: nat)
    requires AllFit(rs) && c.date < Pow256(4) && k <= |FileOf(c, rs)|
    ensures Readable(FileOf(c, rs)[..k]) <==> k >= FILE_HEADER_BYTES
  {
    hide Readable, FileOf, AllFit, Pow256, Complete, ReadAll;
    if k >= FILE_HEADER_BYTES { FileReadsBack(c, rs, k); } else { CutHeaderRefused(FileOf(c, rs), k); }
  }
}
