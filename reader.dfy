/** The extraction worker: it opens the disc, pairs the table of contents
    into one sector range per track, and keeps a cache of at most two track
    files (the one playing and the one after it), extracting them burst by
    burst while the player's action asks for playback. */
module Readers {
  import opened Actions
  import opened Wav
  import opened Songs
  import opened State

  /** libcdio's `CDIO_INVALID_TRACK`. */
  const INVALID_TRACK: nat := 0xFF

  /** libcdio's `CDIO_CDROM_LEADOUT_TRACK`: the lead-out, which ends the last
      track. The table of contents has room for entries 0 to this number. */
  const LEADOUT_TRACK: nat := 0xAA

  /** The disc's table of contents as libcdio reports it: first and last
      track numbers, the track count, whether reading the MSF address of a
      table entry succeeds, and the LSN each entry converts to. */
  datatype Toc = Toc(firstTrack: U8, lastTrack: U8, tracks: U8, msfOk: nat -> bool, lsn: nat -> int)

  /** What one iteration of the worker loop ended with. `Waited` means the
      worker consumed a pending wake. `Blocked` means the worker waits on the
      wake channel, which is empty: it stays there until the control surface
      changes the action. */
  datatype Step = Continue | Waited | Stopped | Blocked | Failed(failure: Failure)

  predicate InvalidDisc(toc: Toc) {
    toc.firstTrack == INVALID_TRACK || toc.lastTrack == INVALID_TRACK
  }

  /** Every track entry the table of contents can hold was read. */
  predicate TracksRead(toc: Toc) {
    forall t :: toc.firstTrack <= t <= toc.lastTrack && t <= LEADOUT_TRACK ==> toc.msfOk(t)
  }

  /** The track numbers run past the last entry of the table of contents. */
  predicate TocOverflows(toc: Toc) {
    toc.firstTrack <= toc.lastTrack && toc.lastTrack > LEADOUT_TRACK
  }

  /** The sector ranges as the source pairs them: entries `first` up to
      `last - 1` (excluded), each ending where the next entry starts. */
  function AsWrittenSongSectors(toc: Toc): (r: seq<(int, int)>)
    ensures |r| == if toc.firstTrack + 1 < toc.lastTrack then toc.lastTrack - 1 - toc.firstTrack else 0
    ensures forall k :: 0 <= k < |r| ==> r[k] == (toc.lsn(toc.firstTrack + k), toc.lsn(toc.firstTrack + k + 1))
  {
    var n := if toc.firstTrack + 1 < toc.lastTrack then toc.lastTrack - 1 - toc.firstTrack else 0;
    seq(n, k requires 0 <= k < n => (toc.lsn(toc.firstTrack + k), toc.lsn(toc.firstTrack + k + 1)))
  }

  /** The end of track `t`: the start of the next track, or the lead-out
      after the last one. */
  function TrackEnd(toc: Toc, t: nat): int {
    if t == toc.lastTrack then toc.lsn(LEADOUT_TRACK) else toc.lsn(t + 1)
  }

  /** One sector range per track from `first` to `last`, the last one
      ending at the lead-out. */
  function SongSectors(toc: Toc): (r: seq<(int, int)>)
    ensures |r| == if toc.firstTrack <= toc.lastTrack then toc.lastTrack - toc.firstTrack + 1 else 0
  {
    var n := if toc.firstTrack <= toc.lastTrack then toc.lastTrack - toc.firstTrack + 1 else 0;
    seq(n, k requires 0 <= k < n => (toc.lsn(toc.firstTrack + k), TrackEnd(toc, toc.firstTrack + k)))
  }

  /** The pairing as written leaves out the last two tracks of the disc: on
      a single-track disc it is empty, so `song_sectors[0]` panics. */
  lemma AsWrittenSectorsMissLastTwo(toc: Toc)
    requires toc.firstTrack <= toc.lastTrack
    ensures |AsWrittenSongSectors(toc)| == if toc.lastTrack - toc.firstTrack >= 2 then |SongSectors(toc)| - 2 else 0
    ensures toc.firstTrack == toc.lastTrack ==> |AsWrittenSongSectors(toc)| == 0 && |SongSectors(toc)| == 1
  {
  }

  /** The pairing gives every track of the disc a range, in order: track
      `first + k` starts at its own entry, ends where track `first + k + 1`
      starts, and the last one ends at the lead-out. */
  lemma {:induction false} SongSectorsCover(toc: Toc)
    requires toc.firstTrack <= toc.lastTrack
    ensures |SongSectors(toc)| == toc.lastTrack - toc.firstTrack + 1
    ensures forall k :: 0 <= k < |SongSectors(toc)| ==> SongSectors(toc)[k].0 == toc.lsn(toc.firstTrack + k)
    ensures forall k :: 0 <= k < |SongSectors(toc)| - 1 ==> SongSectors(toc)[k].1 == SongSectors(toc)[k + 1].0
    ensures SongSectors(toc)[|SongSectors(toc)| - 1].1 == toc.lsn(LEADOUT_TRACK)
  {
    var r := SongSectors(toc);
    forall k | 0 <= k < |r|
      ensures r[k] == (toc.lsn(toc.firstTrack + k), TrackEnd(toc, toc.firstTrack + k))
    {
    }
    forall k | 0 <= k < |r| - 1
      ensures r[k].1 == r[k + 1].0
    {
      assert r[k].1 == TrackEnd(toc, toc.firstTrack + k) == toc.lsn(toc.firstTrack + k + 1);
    }
  }

  /** Where the two slots of the track cache end up when `handle` prepares
      to play a track: the first `drop` cached tracks are removed, and files
      for the tracks `created` are created and appended. `OutOfRange` is one of
      the source's index panics. */
  datatype CachePlan = Plan(drop: nat, created: seq<nat>) | OutOfRange

  /** The cache plan for playing `track` with cached track numbers `cached`,
      a disc of `tracks` tracks and `known` sector ranges. */
  function PlanLoad(cached: seq<nat>, track: nat, tracks: nat, known: nat): (p: CachePlan)
    requires |cached| >= 1
    ensures p.Plan? ==> p.drop <= |cached|
  {
    if track == cached[0] then Plan(0, [])
    else if |cached| < 2 then OutOfRange  // `songs[1]`
    else
      var promote := track == cached[1];
      if !promote && !(1 <= track <= known) then OutOfRange  // `song_sectors[track - 1]`
      else
        var drop := if promote then 1 else |cached|;
        var head := if promote then [] else [track];
        if track + 1 < tracks then
          if track + 1 > known then OutOfRange  // `song_sectors[next_track_id - 1]`
          else Plan(drop, head + [track + 1])
        else Plan(drop, head)
  }

  /** The cached track numbers after a plan is carried out. */
  function Reloaded(cached: seq<nat>, p: CachePlan): seq<nat>
    requires p.Plan? && p.drop <= |cached|
  {
    cached[p.drop..] + p.created
  }

  /** A cache of the track playing, possibly followed by the track after it. */
  predicate Consecutive(ids: seq<nat>) {
    1 <= |ids| <= 2 && (|ids| == 2 ==> ids[1] == ids[0] + 1)
  }

  /** Once a plan succeeds, the track to play is at the head of the cache,
      the cache stays consecutive, and the track after it is cached exactly
      when it is below the track count. */
  lemma LoadPlaysTrack(cached: seq<nat>, track: nat, tracks: nat, known: nat)
    requires Consecutive(cached)
    ensures var p := PlanLoad(cached, track, tracks, known);
      p.Plan? ==>
        && Consecutive(Reloaded(cached, p))
        && Reloaded(cached, p)[0] == track
        && (track != cached[0] ==> (|Reloaded(cached, p)| == 2 <==> track + 1 < tracks))
  {
  }

  /** Preparing to play a track twice in a row does nothing the second time. */
  lemma LoadIdempotent(cached: seq<nat>, track: nat, tracks: nat, known: nat)
    requires Consecutive(cached)
    ensures var p := PlanLoad(cached, track, tracks, known);
      p.Plan? ==> PlanLoad(Reloaded(cached, p), track, tracks, known) == Plan(0, [])
  {
    LoadPlaysTrack(cached, track, tracks, known);
  }

  /** Moving on to the cached next track keeps its file (with whatever was
      already extracted) instead of creating it again. */
  lemma LoadReusesNext(t: nat, tracks: nat, known: nat)
    ensures var p := PlanLoad([t, t + 1], t + 1, tracks, known);
      p.Plan? ==> p.drop == 1 && Reloaded([t, t + 1], p)[0] == t + 1
    ensures PlanLoad([t, t + 1], t + 1, tracks, known).OutOfRange? <==> t + 2 < tracks && t + 2 > known
  {
  }

  /** With a single cached track, asking for any other track reaches
      `songs[1]` and panics: going back from the last reachable track
      (whose successor is never cached) is one such case. */
  lemma LoadFromSingleSlotPanics(t: nat, track: nat, tracks: nat, known: nat)
    requires track != t
    ensures PlanLoad([t], track, tracks, known) == OutOfRange
  {
  }

  /** With a range for every track, a consecutive cache of two and a track
      of the disc, preparing to play it never panics. */
  lemma LoadWithinDisc(cached: seq<nat>, track: nat, tracks: nat)
    requires |cached| == 2 && Consecutive(cached) && 1 <= track <= tracks
    ensures PlanLoad(cached, track, tracks, tracks).Plan?
  {
  }

  /** One cached track as `read_cd` sees it: its sector range and how far
      its extraction got. */
  datatype Slot = Slot(start: int, end: int, file: seq<Byte>, offset: int, ended: bool)

  /** A track file just created over `start..end`: only the header. */
  function BlankSlot(start: int, end: int): Slot {
    Slot(start, end, Header(DataLength(start, end)), 0, false)
  }

  /** What one `read_cd` call leaves behind: the cached tracks, whether a
      read failed, and whether it then waits for a change of action. */
  datatype CdPass = CdPass(slots: seq<Slot>, failed: bool, waits: bool)

  /** One `read_cd` call over the cached tracks `slots`: a pass over the
      first track unless it is complete, then, when that pass completed it
      and a second track is cached, a pass over the second one. It waits
      when the last track it looked at is complete. */
  function ReadCdOutcome(d: Drive, changed0: nat -> bool, changed1: nat -> bool, slots: seq<Slot>): (x: CdPass)
    requires |slots| >= 1
    ensures |x.slots| == |slots|
    ensures forall i :: 0 <= i < |slots| ==> x.slots[i].start == slots[i].start && x.slots[i].end == slots[i].end
    ensures slots[0].ended ==> x == CdPass(slots, false, true)
    ensures x.waits ==> !x.failed && x.slots[0].ended
    ensures x.failed <==>
      && !slots[0].ended
      && (|| Run(d, changed0, 0, slots[0].start + slots[0].offset, slots[0].end).failed
          || (|slots| == 2 && x.slots[0].ended
              && Run(d, changed1, 0, slots[1].start + slots[1].offset, slots[1].end).failed))
    ensures |slots| == 2 && !x.slots[0].ended ==> x.slots[1] == slots[1]
  {
    if slots[0].ended then CdPass(slots, false, true)
    else
      var x0 := ReadOutcome(d, changed0, slots[0].file, slots[0].start, slots[0].end, slots[0].offset, false);
      var s0 := Slot(slots[0].start, slots[0].end, x0.file, x0.offset, x0.ended);
      if x0.status.Err? then CdPass([s0] + slots[1..], true, false)
      else if x0.ended && |slots| == 2 then
        var x1 := ReadOutcome(d, changed1, slots[1].file, slots[1].start, slots[1].end, slots[1].offset, slots[1].ended);
        var s1 := Slot(slots[1].start, slots[1].end, x1.file, x1.offset, x1.ended);
        CdPass([s0, s1], x1.status.Err?, x1.status.Ok? && x1.ended)
      else CdPass([s0] + slots[1..], false, x0.ended)
  }

  /** With a drive that never fails and flags that are never raised, one
      `read_cd` call over an unfinished first track completes every cached
      track and then waits. */
  lemma ReadCdCompletes(d: Drive, changed0: nat -> bool, changed1: nat -> bool, slots: seq<Slot>)
    requires 1 <= |slots| <= 2 && !slots[0].ended
    requires forall lsn, count :: d.readOk(lsn, count)
    requires forall j :: !changed0(j) && !changed1(j)
    ensures var x := ReadCdOutcome(d, changed0, changed1, slots);
      !x.failed && x.waits && forall i :: 0 <= i < |slots| ==> x.slots[i].ended
  {
    RunCompletes(d, changed0, 0, slots[0].start + slots[0].offset, slots[0].end);
    if |slots| == 2 {
      RunCompletes(d, changed1, 0, slots[1].start + slots[1].offset, slots[1].end);
    }
  }

  /** The track file `s` as a slot. */
  ghost function SlotOf(s: Song): Slot
    reads s
  {
    Slot(s.startLsn, s.endLsn, s.file, s.offset, s.ended)
  }

  /** The track files `ss` as slots. */
  ghost function SlotsOf(ss: seq<Song>): (r: seq<Slot>)
    reads ss
    ensures |r| == |ss|
    ensures forall i :: 0 <= i < |ss| ==> r[i] == SlotOf(ss[i])
    decreases |ss|
  {
    if ss == [] then [] else [SlotOf(ss[0])] + SlotsOf(ss[1..])
  }

  /** The track numbers of the files `ss`. */
  function IdsOf(ss: seq<Song>): (r: seq<nat>)
    ensures |r| == |ss|
    ensures forall i :: 0 <= i < |ss| ==> r[i] == ss[i].trackId
  {
    if ss == [] then [] else [ss[0].trackId] + IdsOf(ss[1..])
  }

  /** The slots of freshly created files over the ranges of `ss`. */
  function BlankSlotsOf(ss: seq<Song>): (r: seq<Slot>)
    ensures |r| == |ss|
    ensures forall i :: 0 <= i < |ss| ==> r[i] == BlankSlot(ss[i].startLsn, ss[i].endLsn)
  {
    if ss == [] then [] else [BlankSlot(ss[0].startLsn, ss[0].endLsn)] + BlankSlotsOf(ss[1..])
  }

  /** The cache `now` starts with the files of `before` after its first
      `drop`, the same objects in the same order. */
  predicate Kept(now: seq<Song>, before: seq<Song>, drop: nat) {
    && drop <= |before| && |before| - drop <= |now|
    && now[..|before| - drop] == before[drop..]
  }

  /** The states of the tracks `now` right after a load that dropped the
      first `drop` of the tracks whose states were `before`: the kept ones
      as they were, the new ones blank. */
  function AfterLoad(before: seq<Slot>, drop: nat, now: seq<Song>): (r: seq<Slot>)
    requires drop <= |before| <= |now| + drop
    ensures |r| == |now|
  {
    before[drop..] + BlankSlotsOf(now[|before| - drop..])
  }

  /** The step the worker returns after a pass `x`, with `wakes` wakes
      pending before it: a read error on failure, otherwise going on while
      a cached track is unfinished, and waiting (consuming a wake) or
      blocking once none is. */
  predicate Reports(r: Step, x: CdPass, wakes: nat)
  {
    && (r.Failed? <==> x.failed)
    && (r.Failed? ==> r == Failed(SectorRead))
    && (r.Continue? <==> !x.failed && !x.waits)
    && (r.Waited? <==> x.waits && wakes > 0)
    && (r.Blocked? <==> x.waits && wakes == 0)
  }


  /** The extraction worker's state. */
  class Reader {
    const drive: Drive
    /** The sector range of each track, track `t` at index `t - 1`. */
    const songSectors: seq<(int, int)>
    const tracks: U8
    /** The control state shared with the control surface and the player. */
    const state: PlayerState
    /** The track cache: the track to play, then possibly the next one. */
    var songs: seq<Song>

    /** The cached track numbers. */
    function TrackIds(): (ids: seq<nat>)
      reads this
      ensures |ids| == |songs|
      ensures forall i :: 0 <= i < |songs| ==> ids[i] == songs[i].trackId
    {
      IdsOf(songs)
    }

    /** `s` is a well-formed file of one of the disc's tracks, over that
        track's sector range. */
    ghost predicate Loaded(s: Song)
      reads s
    {
      s.Valid(drive) && s.Headed()
      && 1 <= s.trackId <= |songSectors| && (s.startLsn, s.endLsn) == songSectors[s.trackId - 1]
    }

    /** The cached files after the first `|old(songs)| - drop` were
        created since the old state. */
    twostate predicate Renewed(drop: nat)
      reads this
    {
      forall i :: 0 <= |old(songs)| - drop <= i < |songs| ==> fresh(songs[i])
    }

    /** One or two well-formed track files for consecutive tracks; the
        second one is complete only once the first one is. */
    ghost predicate Valid()
      reads this, songs
    {
      && 1 <= |songs| <= 2
      && Loaded(songs[0])
      && (|songs| == 2 ==> Loaded(songs[1]) && songs[1].trackId == songs[0].trackId + 1 && (songs[1].ended ==> songs[0].ended))
    }

    /** A worker over a freshly opened disc: creates the files of track 1
        and, when the disc has more than one track, track 2, and publishes
        the track count in the shared state. */
    constructor (drive: Drive, songSectors: seq<(int, int)>, tracks: U8, state: PlayerState)
      requires state.Valid()
      requires |songSectors| >= if tracks > 1 then 2 else 1
      modifies state
      ensures this.drive == drive && this.songSectors == songSectors && this.tracks == tracks
      ensures this.state == state
      ensures Valid() && state.Valid()
      ensures TrackIds() == if tracks > 1 then [1, 2] else [1]
      ensures forall i :: 0 <= i < |songs| ==> fresh(songs[i]) && songs[i].Blank()
      ensures state.totalTracks == tracks && state.action == old(state.action)
      ensures state.stateChanged == old(state.stateChanged) && state.pendingWakes == old(state.pendingWakes)
    {
      var first := new Song(1, songSectors[0]);
      var cache := [first];
      if tracks > 1 {
        var second := new Song(2, songSectors[1]);
        cache := cache + [second];
      }
      state.totalTracks := tracks;
      this.drive := drive;
      this.songSectors := songSectors;
      this.tracks := tracks;
      this.state := state;
      this.songs := cache;
    }

    /** Creates the file of track `id` over its sector range and appends it
        to the cache; a track without a range is an index panic. */
    method Push(id: nat) returns (r: Status)
      modifies this
      ensures r.Err? <==> !(1 <= id <= |songSectors|)
      ensures r.Err? ==> r == Err(IndexOutOfRange) && songs == old(songs)
      ensures r.Ok? ==>
        && |songs| == |old(songs)| + 1 && songs[..|old(songs)|] == old(songs)
        && TrackIds() == old(TrackIds()) + [id]
        && fresh(songs[|old(songs)|]) && songs[|old(songs)|].trackId == id
        && Loaded(songs[|old(songs)|]) && songs[|old(songs)|].Blank()
    {
      if !(1 <= id <= |songSectors|) {
        return Err(IndexOutOfRange);
      }
      var s := new Song(id, songSectors[id - 1]);
      songs := songs + [s];
      r := Ok;
    }

    /** Prepares the cache to play `track`: nothing to do when it is cached
        first; the cached next track is moved to the front; otherwise the
        cache is emptied and the track's file created. The track after it is
        then created too when it is below the track count. */
    method LoadTrack(track: nat) returns (r: Status)
      requires Valid()
      modifies this
      ensures var p := PlanLoad(old(TrackIds()), track, tracks, |songSectors|);
        && (r.Err? <==> p.OutOfRange?)
        && (r.Err? ==> r == Err(IndexOutOfRange))
        && (p.Plan? ==>
          && Valid()
          && TrackIds() == Reloaded(old(TrackIds()), p)
          && Kept(songs, old(songs), p.drop)
          && Renewed(p.drop)
          && (forall i :: |old(songs)| - p.drop <= i < |songs| ==> songs[i].Blank()))
    {
      r := Ok;
      if track != songs[0].trackId {
        if |songs| < 2 {
          r := Err(IndexOutOfRange);  // `songs[1]`
        } else {
          if track == songs[1].trackId {
            songs := songs[1..];
          } else {
            songs := [];
            r := Push(track);
          }
          var next := track + 1;
          if r.Ok? && next < tracks {
            r := Push(next);
          }
        }
      }
    }

    /** After a load that kept the tracks of `old(songs)` from `drop` on,
        unchanged, and added blank ones, the cached tracks are `AfterLoad`
        of the ones before. */
    twostate lemma LoadedSlots(drop: nat)
      requires Kept(songs, old(songs), drop)
      requires forall i :: 0 <= i < |old(songs)| ==> unchanged(old(songs)[i])
      requires forall i :: |old(songs)| - drop <= i < |songs| ==> songs[i].Blank()
      ensures drop <= |old(SlotsOf(songs))| <= |songs| + drop
      ensures SlotsOf(songs) == AfterLoad(old(SlotsOf(songs)), drop, songs)
    {
      forall i | 0 <= i < |songs|
        ensures SlotsOf(songs)[i] == AfterLoad(old(SlotsOf(songs)), drop, songs)[i]
      {
        if i < |old(songs)| - drop {
          assert songs[i] == old(songs)[i + drop];
        }
      }
    }

    /** Where a step leaves the worker, given `wakes` pending wakes before
        it: the shared state is valid; the wake count drops by one exactly
        on `Waited`, which needs a pending wake, and `Blocked` happens only
        with none; the worker waits or blocks only once the first cached
        track is complete and goes on only while a cached track is
        unfinished; the cache is valid unless a read failed. */
    ghost predicate Settled(r: Step, wakes: nat)
      reads this, songs, state
    {
      && state.Valid()
      && !r.Stopped?
      && state.pendingWakes == (if r.Waited? then wakes - 1 else wakes)
      && (r.Waited? ==> wakes > 0)
      && (r.Blocked? ==> wakes == 0)
      && (!r.Failed? ==> Valid())
      && (r.Waited? || r.Blocked? ==> |songs| >= 1 && songs[0].ended)
      && (r.Continue? ==> |songs| >= 1 && (!songs[0].ended || (|songs| == 2 && !songs[1].ended)))
    }

    /** The reads of `read_cd`: a pass over the first cached track unless
        it is complete, then a pass over the second one when the first pass
        completed the first track. */
    method Extract(changed0: nat -> bool, changed1: nat -> bool) returns (failed: bool, waits: bool)
      requires Valid()
      modifies songs
      ensures var x := ReadCdOutcome(drive, changed0, changed1, old(SlotsOf(songs)));
        SlotsOf(songs) == x.slots && failed == x.failed && waits == x.waits
      ensures !failed ==> Valid()
      ensures waits ==> songs[0].ended
      ensures !failed && !waits ==> !songs[0].ended || (|songs| == 2 && !songs[1].ended)
    {
      ghost var before := SlotsOf(songs);
      failed := false;
      waits := songs[0].ended;
      if !waits {
        ghost var file, offset := songs[0].file, songs[0].offset;
        var s := songs[0].Read(drive, changed0);
        failed := s.Err?;
        waits := songs[0].ended;
        if !failed {
          ReadKeepsExtracted(drive, changed0, file, songs[0].header, songs[0].startLsn, songs[0].endLsn, offset);
          if waits && |songs| == 2 {
            ghost var file1, offset1 := songs[1].file, songs[1].offset;
            s := songs[1].Read(drive, changed1);
            failed := s.Err?;
            waits := !failed && songs[1].ended;
            if !failed {
              ReadKeepsExtracted(drive, changed1, file1, songs[1].header, songs[1].startLsn, songs[1].endLsn, offset1);
            }
          }
        } else {
          waits := false;
        }
      }
      assert SlotsOf(songs) == ReadCdOutcome(drive, changed0, changed1, before).slots;
    }

    /** Extracts the first cached track, and once it is complete the second;
        waits for a change of action when the last track it looked at is
        complete. */
    method ReadCd(changed0: nat -> bool, changed1: nat -> bool, ghost before: seq<Slot>) returns (r: Step)
      requires Valid() && state.Valid()
      requires SlotsOf(songs) == before
      modifies songs, state
      ensures state.action == old(state.action) && state.stateChanged == old(state.stateChanged)
      ensures state.totalTracks == old(state.totalTracks)
      ensures var x := ReadCdOutcome(drive, changed0, changed1, before);
        SlotsOf(songs) == x.slots && Reports(r, x, old(state.pendingWakes))
      ensures Settled(r, old(state.pendingWakes))
    {
      var failed, ended := Extract(changed0, changed1);
      if failed {
        r := Failed(SectorRead);
      } else if !ended {
        r := Continue;
      } else if state.pendingWakes > 0 {
        state.WaitForChange();
        r := Waited;
      } else {
        r := Blocked;
      }
    }

    /** What the `Play` arm did with `track`, given the cached track
        numbers `ids`, the files `before`, their states `slots` and the
        number of pending wakes `wakes` before it: it panicked with an
        index error exactly when `PlanLoad` does; otherwise the cache
        follows the plan, the kept files are the same objects, and the
        tracks hold the outcome of one `read_cd` pass over the loaded
        tracks, which `r` reports. */
    ghost predicate Played(r: Step, track: nat, changed0: nat -> bool, changed1: nat -> bool,
                           ids: seq<nat>, before: seq<Song>, slots: seq<Slot>, wakes: nat)
      requires |ids| >= 1
      reads this, songs
    {
      var p := PlanLoad(ids, track, tracks, |songSectors|);
      && (r == Failed(IndexOutOfRange) <==> p.OutOfRange?)
      && (r != Failed(IndexOutOfRange) ==>
        && p.Plan?
        && TrackIds() == Reloaded(ids, p)
        && Kept(songs, before, p.drop)
        && |songs| >= 1 && |slots| == |before|
        && var x := ReadCdOutcome(drive, changed0, changed1, AfterLoad(slots, p.drop, songs));
          SlotsOf(songs) == x.slots && Reports(r, x, wakes))
    }

    /** The `Play` arm of the worker loop: prepares the cache for `track`,
        then extracts. */
    method PlayTrack(track: nat, changed0: nat -> bool, changed1: nat -> bool) returns (r: Step)
      requires Valid() && state.Valid()
      modifies this, songs, state
      ensures state.action == old(state.action) && state.stateChanged == old(state.stateChanged)
      ensures state.totalTracks == old(state.totalTracks)
      ensures Played(r, track, changed0, changed1, old(TrackIds()), old(songs), old(SlotsOf(songs)), old(state.pendingWakes))
      ensures r != Failed(IndexOutOfRange) ==> Renewed(PlanLoad(old(TrackIds()), track, tracks, |songSectors|).drop)
      ensures !r.Failed? ==> TrackIds()[0] == track
      ensures Settled(r, old(state.pendingWakes))
    {
      ghost var ids := TrackIds();
      var s := LoadTrack(track);
      if s.Err? {
        r := Failed(s.failure);
      } else {
        ghost var p := PlanLoad(ids, track, tracks, |songSectors|);
        LoadPlaysTrack(ids, track, tracks, |songSectors|);
        LoadedSlots(p.drop);
        r := ReadCd(changed0, changed1, AfterLoad(old(SlotsOf(songs)), p.drop, songs));
      }
    }

    /** One iteration of the worker loop: clears the changed flag and acts
        on the current action. `Stop` ends the loop; `Pause` waits for a
        change; `Play` prepares the cache and extracts. */
    method Handle(changed0: nat -> bool, changed1: nat -> bool) returns (r: Step)
      requires Valid() && state.Valid()
      modifies this, songs, state
      ensures !state.stateChanged && state.Valid()
      ensures state.action == old(state.action) && state.totalTracks == old(state.totalTracks)
      ensures r.Stopped? <==> old(state.action).Stop?
      ensures !old(state.action).Play? ==> songs == old(songs) && unchanged(songs)
      ensures state.pendingWakes == if r.Waited? then old(state.pendingWakes) - 1 else old(state.pendingWakes)
      ensures r.Waited? ==> old(state.pendingWakes) > 0
      ensures r.Blocked? ==> old(state.pendingWakes) == 0
      ensures old(state.action).Pause? ==>
        && (r.Blocked? <==> old(state.pendingWakes) == 0)
        && (r.Waited? <==> old(state.pendingWakes) > 0)
      ensures old(state.action).Play? ==>
        Played(r, old(state.action).track, changed0, changed1,
               old(TrackIds()), old(songs), old(SlotsOf(songs)), old(state.pendingWakes))
      ensures old(state.action).Play? ==>
        r != Failed(IndexOutOfRange) ==> Renewed(PlanLoad(old(TrackIds()), old(state.action).track, tracks, |songSectors|).drop)
      ensures old(state.action).Play? && !r.Failed? ==> TrackIds()[0] == old(state.action).track
      ensures old(state.action).Play? ==> Settled(r, old(state.pendingWakes))
      ensures r.Continue? ==> old(state.action).Play?
      ensures old(state.action).Stop? ==> Valid()
      ensures old(state.action).Pause? ==> Valid()
    {
      state.stateChanged := false;
      var action := state.action;
      match action
      case Stop =>
        r := Stopped;
      case Play(track) =>
        assert TrackIds() == old(TrackIds()) && SlotsOf(songs) == old(SlotsOf(songs));
        r := PlayTrack(track, changed0, changed1);
      case Pause(_) =>
        if state.pendingWakes > 0 {
          state.WaitForChange();
          r := Waited;
        } else {
          r := Blocked;
        }
    }
  }

  /** Reads the MSF address of every track entry from `first` to `last`,
      then of the lead-out, stopping at the first failure. */
  method ReadToc(toc: Toc) returns (r: Status)
    ensures !TracksRead(toc) ==> r == Err(TocRead)
    ensures TracksRead(toc) && TocOverflows(toc) ==> r == Err(IndexOutOfRange)
    ensures TracksRead(toc) && !TocOverflows(toc) ==> (r == Ok <==> toc.msfOk(LEADOUT_TRACK))
    ensures r.Err? ==> r.failure == TocRead || r.failure == IndexOutOfRange
  {
    var t: nat := toc.firstTrack;
    while t <= toc.lastTrack
      invariant toc.firstTrack <= t
      invariant t <= toc.lastTrack + 1 || t == toc.firstTrack
      invariant forall u :: toc.firstTrack <= u < t ==> u <= LEADOUT_TRACK && toc.msfOk(u)
      decreases toc.lastTrack + 1 - t
    {
      if t > LEADOUT_TRACK {
        return Err(IndexOutOfRange);  // `toc.get_mut(current_track).unwrap()`
      }
      if !toc.msfOk(t) {
        return Err(TocRead);
      }
      t := t + 1;
    }
    if toc.firstTrack <= toc.lastTrack {
      assert toc.msfOk(toc.lastTrack);
    }
    if !toc.msfOk(LEADOUT_TRACK) {
      return Err(TocRead);
    }
    r := Ok;
  }

  /** Opens the disc: checks the track numbers, reads the table of contents,
      pairs it into sector ranges, creates the files of track 1 and (when
      there is more than one track) track 2, and publishes the track count
      in the shared state. */
  method Open(toc: Toc, drive: Drive, state: PlayerState) returns (reader: Reader?, r: Status)
    requires state.Valid()
    modifies state
    ensures r.Ok? <==> reader != null
    ensures InvalidDisc(toc) ==> r == Err(InvalidCd)
    ensures !InvalidDisc(toc) && !TracksRead(toc) ==> r == Err(TocRead)
    ensures !InvalidDisc(toc) && TracksRead(toc) && TocOverflows(toc) ==> r == Err(IndexOutOfRange)
    ensures r.Ok? <==>
      && !InvalidDisc(toc) && TracksRead(toc) && !TocOverflows(toc) && toc.msfOk(LEADOUT_TRACK)
      && |SongSectors(toc)| >= (if toc.tracks > 1 then 2 else 1)
    ensures r.Err? ==> unchanged(state)
    ensures reader != null ==>
      && fresh(reader) && reader.Valid() && state.Valid()
      && reader.state == state && reader.drive == drive && reader.tracks == toc.tracks
      && reader.songSectors == SongSectors(toc)
      && reader.TrackIds() == (if toc.tracks > 1 then [1, 2] else [1])
      && (forall i :: 0 <= i < |reader.songs| ==> fresh(reader.songs[i]) && reader.songs[i].Blank())
      && state.totalTracks == toc.tracks && state.action == old(state.action)
      && state.stateChanged == old(state.stateChanged) && state.pendingWakes == old(state.pendingWakes)
  {
    reader := null;
    if toc.firstTrack == INVALID_TRACK || toc.lastTrack == INVALID_TRACK {
      r := Err(InvalidCd);
    } else {
      r := ReadToc(toc);
      if r.Ok? {
        var sectors := SongSectors(toc);
        if |sectors| < (if toc.tracks > 1 then 2 else 1) {
          r := Err(IndexOutOfRange);  // `song_sectors[0]` or `song_sectors[1]`
        } else {
          reader := new Reader(drive, sectors, toc.tracks, state);
        }
      }
    }
  }
}
