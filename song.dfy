/** One track being extracted from the disc into its own WAV file: the file
    holds the 44-byte header and then the raw CD-DA audio extracted so far.
    The disc drive is an oracle: a raw read either succeeds or fails, and a
    sector's audio is a fixed function of its LSN. */
module Songs {
  import opened Wav

  /** Bytes in one raw CD-DA sector (libcdio's `CDIO_CD_FRAMESIZE_RAW`). */
  const FRAME_SIZE_RAW: nat := 2352

  /** Sectors requested by one raw read. */
  const BURST: nat := 52

  type Sector = s: seq<Byte> | |s| == FRAME_SIZE_RAW witness seq(2352, i => 0)

  /** The disc drive as the extraction sees it: whether a raw read of
      `count` sectors at an LSN succeeds, and the audio of every sector. */
  datatype Drive = Drive(readOk: (int, nat) -> bool, sector: int -> Sector)

  datatype Failure = SectorRead | InvalidCd | TocRead | IndexOutOfRange

  /** Success or the error (or panic) that ends the extraction worker. */
  datatype Status = Ok | Err(failure: Failure)

  /** The audio of the sectors `lo` (included) to `hi` (excluded). */
  function Audio(d: Drive, lo: int, hi: int): seq<Byte>
    decreases hi - lo
  {
    if lo >= hi then [] else d.sector(lo) + Audio(d, lo + 1, hi)
  }

  lemma {:induction false} AudioLength(d: Drive, lo: int, hi: int)
    ensures |Audio(d, lo, hi)| == (if lo <= hi then FRAME_SIZE_RAW * (hi - lo) else 0)
    decreases hi - lo
  {
    if lo < hi {
      AudioLength(d, lo + 1, hi);
    }
  }

  /** Extracting `a..b` and then `b..c` gives the audio of `a..c`. */
  lemma {:induction false} AudioSplit(d: Drive, a: int, b: int, c: int)
    requires a <= b <= c
    ensures Audio(d, a, b) + Audio(d, b, c) == Audio(d, a, c)
    decreases b - a
  {
    if a < b {
      AudioSplit(d, a + 1, b, c);
      calc {
        Audio(d, a, b) + Audio(d, b, c);
        (d.sector(a) + Audio(d, a + 1, b)) + Audio(d, b, c);
        d.sector(a) + (Audio(d, a + 1, b) + Audio(d, b, c));
        Audio(d, a, c);
      }
    }
  }

  /** A raw read of `count` sectors at `lsn` (`cdio_read_audio_sectors`). */
  function ReadAudioSectors(d: Drive, lsn: int, count: nat): (r: Option<seq<Byte>>)
    ensures r.Some? <==> d.readOk(lsn, count)
    ensures r.Some? ==> r.value == Audio(d, lsn, lsn + count)
    ensures r.Some? ==> |r.value| == FRAME_SIZE_RAW * count
  {
    AudioLength(d, lsn, lsn + count);
    if d.readOk(lsn, count) then Some(Audio(d, lsn, lsn + count)) else None
  }

  /** The `data` chunk size declared for the sector range `start..end`: the
      raw frame size times the sector count, in wrapping 32-bit arithmetic
      as the source's `as u32` cast and `u32` product. */
  function DataLength(start: int, end: int): (n: U32)
    ensures 0 <= end - start && FRAME_SIZE_RAW * (end - start) < U32_MODULUS ==>
      n == FRAME_SIZE_RAW * (end - start)
  {
    (FRAME_SIZE_RAW * ((end - start) % U32_MODULUS)) % U32_MODULUS
  }

  /** Sectors one burst reads and advances by: a full burst, or what is left
      of the track. */
  function BurstSize(curr: int, end: int): (n: nat)
    requires curr < end
    ensures 1 <= n <= BURST && curr + n <= end
    ensures n < BURST ==> curr + n == end
  {
    if end - curr < BURST then end - curr else BURST
  }

  /** Where one read pass stops, and whether it stopped on a failed read. */
  datatype Pass = Pass(cursor: int, failed: bool)

  /** The read loop from `curr` towards `end`: `changed(k)` is the changed
      flag as read before the `k`-th burst of the pass. */
  function Run(d: Drive, changed: nat -> bool, k: nat, curr: int, end: int): (p: Pass)
    ensures curr <= p.cursor
    ensures curr <= end ==> p.cursor <= end
    ensures curr >= end ==> p == Pass(curr, false)
    decreases end - curr
  {
    if curr >= end || changed(k) then Pass(curr, false)
    else if !d.readOk(curr, BurstSize(curr, end)) then Pass(curr, true)
    else Run(d, changed, k + 1, curr + BurstSize(curr, end), end)
  }

  /** One burst of a pass: a failed read stops it where it is; a successful
      one moves on to the next burst. */
  lemma RunStep(d: Drive, changed: nat -> bool, k: nat, curr: int, end: int)
    requires curr < end && !changed(k)
    ensures !d.readOk(curr, BurstSize(curr, end)) ==> Run(d, changed, k, curr, end) == Pass(curr, true)
    ensures d.readOk(curr, BurstSize(curr, end)) ==>
      Run(d, changed, k, curr, end) == Run(d, changed, k + 1, curr + BurstSize(curr, end), end)
  {
  }

  /** A pass stops short of the end of the track only on a failed read, or
      because the changed flag was seen raised. */
  lemma {:induction false} RunStops(d: Drive, changed: nat -> bool, k: nat, curr: int, end: int)
    ensures Run(d, changed, k, curr, end).failed ==>
      Run(d, changed, k, curr, end).cursor < end
      && !d.readOk(Run(d, changed, k, curr, end).cursor, BurstSize(Run(d, changed, k, curr, end).cursor, end))
    ensures !Run(d, changed, k, curr, end).failed && Run(d, changed, k, curr, end).cursor < end ==>
      exists j :: k <= j && changed(j)
    decreases end - curr
  {
    if curr < end && !changed(k) && d.readOk(curr, BurstSize(curr, end)) {
      RunStops(d, changed, k + 1, curr + BurstSize(curr, end), end);
    }
  }

  /** With a drive that never fails and a flag that is never raised, a pass
      runs to the end of the track. */
  lemma {:induction false} RunCompletes(d: Drive, changed: nat -> bool, k: nat, curr: int, end: int)
    requires forall lsn, count :: d.readOk(lsn, count)
    requires forall j :: !changed(j)
    ensures Run(d, changed, k, curr, end) == Pass(if curr <= end then end else curr, false)
    decreases end - curr
  {
    if curr < end {
      RunCompletes(d, changed, k + 1, curr + BurstSize(curr, end), end);
    }
  }

  /** An interrupted pass followed by an uninterrupted one extracts exactly
      the audio of an uninterrupted pass: the whole track, once. */
  lemma ResumeMatchesUninterrupted(d: Drive, changed: nat -> bool, start: int, end: int)
    requires start <= end
    requires forall lsn, count :: d.readOk(lsn, count)
    ensures !Run(d, changed, 0, start, end).failed
    ensures Run(d, j => false, 0, start, end) == Pass(end, false)
    ensures Run(d, j => false, 0, Run(d, changed, 0, start, end).cursor, end) == Pass(end, false)
    ensures Audio(d, start, Run(d, changed, 0, start, end).cursor)
      + Audio(d, Run(d, changed, 0, start, end).cursor, end) == Audio(d, start, end)
  {
    var c1 := Run(d, changed, 0, start, end).cursor;
    RunStops(d, changed, 0, start, end);
    RunCompletes(d, j => false, 0, start, end);
    RunCompletes(d, j => false, 0, c1, end);
    AudioSplit(d, start, c1, end);
  }

  /** A track file made of `header` and then the audio of the track's
      sectors from `start` up to where extraction got: the end of the track
      once `ended`, otherwise `start + offset`. An `offset` that is not 0
      is inside the track. */
  ghost predicate Extracted(file: seq<Byte>, header: seq<Byte>, d: Drive, start: int, end: int, offset: int, ended: bool) {
    0 <= offset && (offset > 0 ==> start + offset < end)
    && |header| == HEADER_SIZE
    && file == header + Audio(d, start, if ended then end else start + offset)
  }

  /** What one read pass leaves behind: the file, the stored offset, the
      completion flag, and the status returned. */
  datatype Extraction = Extraction(file: seq<Byte>, offset: int, ended: bool, status: Status)

  /** One read pass over a track `start..end` whose file is `file`, resuming
      at `start + offset`: the audio of every burst read is appended; a
      failed read stops with an error and leaves offset and flag alone; a
      pass reaching the end marks the track complete; an interrupted pass
      stores the sectors extracted so far, counted from `start`. */
  function ReadOutcome(d: Drive, changed: nat -> bool, file: seq<Byte>, start: int, end: int, offset: int, ended: bool): (x: Extraction)
    ensures x.status.Err? <==> Run(d, changed, 0, start + offset, end).failed
    ensures x.status.Err? ==> x.status == Err(SectorRead) && x.offset == offset && x.ended == ended
    ensures x.status.Ok? && !x.ended ==> start + x.offset < end
  {
    var p := Run(d, changed, 0, start + offset, end);
    var appended := file + Audio(d, start + offset, p.cursor);
    if p.failed then Extraction(appended, offset, ended, Err(SectorRead))
    else if p.cursor >= end then Extraction(appended, offset, true, Ok)
    else Extraction(appended, p.cursor - start, ended, Ok)
  }

  /** A successful pass over an unfinished, well-formed file leaves a
      well-formed file: complete when the pass reached the end of the track,
      otherwise extracted up to the new offset. */
  lemma ReadKeepsExtracted(d: Drive, changed: nat -> bool, file: seq<Byte>, header: seq<Byte>, start: int, end: int, offset: int)
    requires Extracted(file, header, d, start, end, offset, false)
    ensures var x := ReadOutcome(d, changed, file, start, end, offset, false);
      x.status.Ok? ==> Extracted(x.file, header, d, start, end, x.offset, x.ended)
  {
    var p := Run(d, changed, 0, start + offset, end);
    AudioSplit(d, start, start + offset, p.cursor);
  }

  /** One track being extracted. */
  class Song {
    const trackId: nat
    const startLsn: int
    const endLsn: int
    /** Sectors already extracted, counted from `startLsn`, when the last pass
        was interrupted. */
    var offset: int
    /** All sectors of the track have been extracted. */
    var ended: bool
    /** The contents of the track's file. */
    var file: seq<Byte>
    /** The header the constructor wrote at the start of the file. */
    ghost const header: seq<Byte>

    /** The header declares the data size of the whole sector range. */
    ghost predicate Headed() {
      header == Header(DataLength(startLsn, endLsn))
    }

    /** The file is the header for the whole track followed by the track's
        audio up to the end of the track once `ended`, otherwise up to
        `startLsn + offset`, in order and without gaps or repeats. */
    ghost predicate Valid(d: Drive)
      reads this
    {
      Extracted(file, header, d, startLsn, endLsn, offset, ended)
    }

    /** The file holds only the header for the whole sector range, and
        nothing has been extracted yet. */
    ghost predicate Blank()
      reads this
    {
      offset == 0 && !ended && file == Header(DataLength(startLsn, endLsn))
    }

    /** Creates the track's file holding only the header. */
    constructor (trackId: nat, range: (int, int))
      ensures this.trackId == trackId && startLsn == range.0 && endLsn == range.1
      ensures offset == 0 && !ended
      ensures file == Header(DataLength(range.0, range.1))
      ensures Headed() && forall d :: Valid(d)
    {
      this.trackId := trackId;
      startLsn, endLsn := range.0, range.1;
      offset, ended := 0, false;
      file := [];
      header := Header(DataLength(range.0, range.1));
      new;
      WriteWavHeader(DataLength(range.0, range.1));
    }

    /** Writes the header, field by field. */
    method WriteWavHeader(bytes: U32)
      modifies this`file
      ensures file == old(file) + Header(bytes)
    {
      var h := RIFF_ID;
      h := h + Le32(RiffSize(bytes));
      h := h + WAVE_ID;
      h := h + FMT_ID;
      h := h + Le32(FMT_CHUNK_SIZE);
      h := h + Le16(FORMAT_PCM);
      h := h + Le16(CHANNELS);
      h := h + Le32(SAMPLE_RATE);
      h := h + Le32(BYTE_RATE);
      h := h + Le16(BLOCK_ALIGN);
      h := h + Le16(BIT_DEPTH);
      h := h + DATA_ID;
      h := h + Le32(bytes);
      file := file + h;
    }

    /** The burst loop of a pass: from `from`, reads and appends bursts until
        the end of the track, a failed read, or a raised changed flag. */
    method Bursts(d: Drive, changed: nat -> bool, from: int) returns (p: Pass)
      modifies this`file
      ensures p == Run(d, changed, 0, from, endLsn)
      ensures file == old(file) + Audio(d, from, p.cursor)
    {
      var curr := from;
      var k: nat := 0;
      while curr < endLsn && !changed(k)
        invariant from <= curr
        invariant Run(d, changed, k, curr, endLsn) == Run(d, changed, 0, from, endLsn)
        invariant file == old(file) + Audio(d, from, curr)
        decreases endLsn - curr
      {
        var n := BurstSize(curr, endLsn);
        var buf := ReadAudioSectors(d, curr, n);
        RunStep(d, changed, k, curr, endLsn);
        if buf.None? {
          return Pass(curr, true);
        }
        AudioSplit(d, from, curr, curr + n);
        assert file + buf.value == old(file) + (Audio(d, from, curr) + Audio(d, curr, curr + n));
        file := file + buf.value;
        curr := curr + n;
        k := k + 1;
      }
      return Pass(curr, false);
    }

    /** Extracts bursts from where the last pass stopped until the track ends,
        a read fails, or the changed flag is seen raised. */
    method Read(d: Drive, changed: nat -> bool) returns (r: Status)
      modifies this`offset, this`ended, this`file
      ensures Extraction(file, offset, ended, r)
        == ReadOutcome(d, changed, old(file), startLsn, endLsn, old(offset), old(ended))
    {
      var p := Bursts(d, changed, startLsn + offset);
      if p.failed {
        return Err(SectorRead);
      }
      if p.cursor >= endLsn {
        ended := true;
      } else {
        offset := p.cursor - startLsn;
      }
      r := Ok;
    }
  }

  /** A track whose file is valid and complete holds the header and then
      exactly the audio of its sector range: as many data bytes as the
      header declares whenever that count fits in 32 bits. */
  lemma CompleteFile(s: Song, d: Drive)
    requires s.Valid(d) && s.Headed() && s.ended && s.startLsn <= s.endLsn
    ensures s.file == Header(DataLength(s.startLsn, s.endLsn)) + Audio(d, s.startLsn, s.endLsn)
    ensures |s.file| == HEADER_SIZE + FRAME_SIZE_RAW * (s.endLsn - s.startLsn)
    ensures FRAME_SIZE_RAW * (s.endLsn - s.startLsn) < U32_MODULUS ==>
      |s.file| == HEADER_SIZE + DataLength(s.startLsn, s.endLsn)
  {
    AudioLength(d, s.startLsn, s.endLsn);
  }

  // The read loop as the source writes it. The cursor advances by
  // `(end - curr) % 52 + 1` after each 52-sector burst (both operands are
  // positive there, so Rust's `%` agrees with Dafny's), and an interrupted
  // pass stores the absolute cursor in `offset`, which the next pass adds to
  // the start LSN again.

  /** The source's cursor advance after a burst. */
  function AsWrittenAdvance(curr: int, end: int): (n: int)
    requires curr < end
    ensures 1 <= n <= BURST
    ensures end - curr == BURST ==> n == 1
    ensures curr + n != end && (curr + n > end ==> curr + n == end + 1)
  {
    (end - curr) % BURST + 1
  }

  /** Bursts read by one as-written pass and where its cursor stops, with
      every read succeeding and the changed flag first seen raised before
      burst number `budget`. */
  datatype AsWrittenPass = AsWrittenPass(bursts: nat, cursor: int)

  function AsWrittenLoop(curr: int, end: int, budget: nat): (p: AsWrittenPass)
    ensures p.bursts <= budget && curr <= p.cursor
    ensures curr < end ==> p.cursor != end && p.cursor <= end + 1
    ensures p.bursts == 0 <==> curr >= end || budget == 0
    decreases budget
  {
    if curr < end && budget > 0 then
      var p := AsWrittenLoop(curr + AsWrittenAdvance(curr, end), end, budget - 1);
      AsWrittenPass(p.bursts + 1, p.cursor)
    else
      AsWrittenPass(0, curr)
  }

  /** What one as-written `read` call leaves behind. */
  datatype AsWrittenSong = AsWrittenSong(offset: int, ended: bool, sectorsAppended: nat)

  function AsWrittenRead(start: int, end: int, offset: int, ended: bool, budget: nat): (s: AsWrittenSong)
    ensures s.sectorsAppended % BURST == 0
    ensures start + offset < end && budget > 0 ==> s.sectorsAppended > 0
  {
    var p := AsWrittenLoop(start + offset, end, budget);
    if p.cursor >= end then AsWrittenSong(offset, true, BURST * p.bursts)
    else AsWrittenSong(p.cursor, ended, BURST * p.bursts)
  }

  /** A 100-sector track read without interruption: two 52-sector bursts,
      104 sectors appended although the header declares 100. */
  lemma AsWrittenOverreads()
    ensures AsWrittenRead(100, 200, 0, false, 10) == AsWrittenSong(0, true, 104)
  {
    assert AsWrittenAdvance(100, 200) == 49;
    assert AsWrittenAdvance(149, 200) == 52;
    assert AsWrittenLoop(201, 200, 8) == AsWrittenPass(0, 201);
    assert AsWrittenLoop(149, 200, 9) == AsWrittenPass(1, 201);
  }

  /** The same track interrupted after one burst: the stored offset is the
      absolute LSN 149, so the next pass starts at LSN 249, past the end, and
      marks the track complete with 52 of its 100 sectors extracted. */
  lemma AsWrittenResumeSkips()
    ensures AsWrittenRead(100, 200, 0, false, 1) == AsWrittenSong(149, false, 52)
    ensures AsWrittenRead(100, 200, 149, false, 10) == AsWrittenSong(149, true, 0)
  {
    assert AsWrittenAdvance(100, 200) == 49;
    assert AsWrittenLoop(149, 200, 0) == AsWrittenPass(0, 149);
  }
}
