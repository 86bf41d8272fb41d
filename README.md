# raspi-cd-player: control state and CD extraction

This project models the core of raspi-cd-player, a Raspberry Pi CD player. The core has two parts.

- **The shared control state** (`src/state.rs`). It holds the requested action (`Play(track)`, `Pause(track)` or `Stop`), the "changed" flag and the track count. It also holds a bounded wake channel of two messages. The control surface changes the action through `change_action`, `next_track`, `prev_track` and `handle_request`. The workers block on `wait_for_change`.
- **The extraction worker** (`src/read_cd.rs`). It opens the disc, reads the table of contents and pairs consecutive entries into sector ranges. It keeps a cache of at most two track files: the track playing, and the one after it. Each file starts with a 44-byte RIFF/WAVE header. The worker appends raw CD-DA audio to it in bursts of 52 sectors. A pass stops when the track ends, a read fails, or the changed flag is raised. An interrupted pass stores an offset, and the next pass starts from it.

Four parts of `src/read_cd.rs` do not do what they evidently intend; "## Findings" lists them. They are the byte rate in the header, the cursor advance after a burst, the offset an interrupted pass stores, and the number of sector ranges. For each one the model has two halves: members named `AsWritten…` model the code as written and exhibit the discrepancy; the other members model the corrected behaviour, and the rest of the model (`Song`, `Reader`, `Open`) is built on the corrected halves. The rows below say which members are corrected halves.

Modules:

- `Actions` (action.dfy): the action and its validity against a track count.
- `State` (state.dfy): the requests, the pure effect of each request, and the class `PlayerState`. The wake channel is a counter bounded by its capacity of two.
- `Wav` (wav.dfy): little-endian fields, the header and a reader for it.
- `Songs` (song.dfy): the disc drive as an oracle, the read loop as a function, and the class `Song`. It also holds the read loop as the source writes it.
- `Readers` (reader.dfy): the table of contents, the sector-range pairing, the cache plan, the class `Reader`, `ReadToc` and `Open`.

The disc drive is a value `Drive`. It says whether a raw read of `count` sectors at an LSN succeeds, and it gives the audio of every sector. The changed flag, as a pass sees it before its `k`-th burst, is a function `changed: nat -> bool`. The table of contents is a value `Toc`. It gives the first and last track numbers, the track count, whether reading each entry's MSF address succeeds, and the LSN of each entry.

Blocking on an empty wake channel is not modelled as waiting. Where the source would block with no wake pending, the worker returns `Blocked`. Panics (an index out of range, `todo!()`) become error values: `Err(IndexOutOfRange)`, `Failed(IndexOutOfRange)` and `Unimplemented`.

## Model

| member | source | states |
|---|---|---|
| State.NextAction | src/state.rs:51-65 | The next action is `Play(track + 1)` exactly when `track + 1` is below the track count, and `Stop` otherwise. |
| State.PrevAction | src/state.rs:67-76 | The previous action always plays. It goes to `track - 1` from track 2 upwards and stays on `track` below that. |
| State.Toggled | src/state.rs:80-86 | Toggling keeps the track and swaps `Play` and `Pause`. |
| State.Respond | src/state.rs:78-100 | A request hits `todo!()` exactly for the two seeks and for a toggle while stopped. It changes nothing exactly for `None`, `Quit`, and next/previous while stopped. |
| State.ToggleTwice | src/state.rs:80-86 | Toggling twice gives back the original action. |
| State.PrevUndoesNext | src/state.rs:51-76 | From track `t >= 1` with `t + 1` below the count, next and then previous gives `Play(t)`. |
| State.NextUndoesPrev | src/state.rs:51-76 | From track `t` with `2 <= t` below the count, previous and then next gives `Play(t)`. |
| State.RespondKeepsValid | src/state.rs:78-100 | Starting from an action whose track lies in `1..totalTracks`, every installed action keeps it there. |
| State.AdvanceStops | src/state.rs:51-65 | From track `t`, `n >= 1` ends of track in a row with `t + n >= totalTracks` reach `Stop`. |
| State.AdvanceVisitsInOrder | src/state.rs:51-65 | From track `t`, the `k`-th end of track plays `t + k` while that is below the count. The last track reached is `totalTracks - 1`. |
| State.PlayerState.constructor | src/state.rs:29-37 | A new state plays track 1, is not changed, has 0 tracks and an empty channel. |
| State.PlayerState.TrySend | src/state.rs:47-48 | A send succeeds exactly when the channel is below capacity. A full channel drops the message. |
| State.PlayerState.WaitForChange | src/state.rs:38-42 | Waiting consumes one pending wake. |
| State.PlayerState.ChangeAction | src/state.rs:44-49 | Installs the action and raises the changed flag. The channel ends up full. The track count is kept. |
| State.PlayerState.NextTrack | src/state.rs:51-65 | Installs `NextAction` of the current track through `change_action`. On `Stop` nothing changes. |
| State.PlayerState.PrevTrack | src/state.rs:67-76 | Installs `PrevAction` of the current track through `change_action`. On `Stop` nothing changes. |
| State.PlayerState.HandleRequest | src/state.rs:78-100 | The result is `Unimplemented` exactly when `Respond` says `todo!()`. The state changes exactly when `Respond` installs an action, and then it holds that action with the flag raised and the channel full. |
| Wav.Le16Decodes | src/read_cd.rs:102-107 | Reading a 16-bit little-endian field back gives the value written. |
| Wav.Le32Decodes | src/read_cd.rs:96-111 | Reading a 32-bit little-endian field back gives the value written. |
| Wav.ParseLayout | src/read_cd.rs:93-111 | Reading back a header written with any byte rate finds the four chunk identifiers in place. Each numeric field reads as the value written. |
| Wav.RiffSize | src/read_cd.rs:96 | The RIFF size field is the data size plus 36 when that fits in 32 bits. Otherwise it is that sum wrapped once. |
| Wav.Layout | src/read_cd.rs:93-111 | The header is 44 bytes. It starts with `RIFF` and the RIFF size, holds the byte rate at bytes 28-31, and ends with the data size. |
| Wav.AsWrittenHeader | src/read_cd.rs:93-111 | The header as the source writes it is 44 bytes, ends with the data size, and holds 88200 at the byte-rate field. |
| Wav.Header | src/read_cd.rs:84-111 | Corrected half of the byte-rate finding: the same header with 176400 at the byte-rate field. |
| Wav.HeaderDeclares | src/read_cd.rs:84-116 | The header written declares the data size. Its RIFF size is the file size minus 8 when that fits in 32 bits. Its format fields are coherent: block align times 8 is channels times bit depth, and the byte rate is the sample rate times the block align. |
| Wav.AsWrittenHeaderIncoherent | src/read_cd.rs:89 | The header as written declares a byte rate of 88200, which breaks the byte-rate rule. |
| Wav.HeadersDifferInByteRateOnly | src/read_cd.rs:89-105 | The header as written and the corrected one agree outside bytes 28-31 and differ in those bytes. |
| Songs.ReadAudioSectors | src/read_cd.rs:55-65 | A raw read succeeds exactly when the drive allows it. It then returns the audio of the sectors requested, 2352 bytes per sector, the size of the source's buffer. |
| Songs.DataLength | src/read_cd.rs:42 | The declared data size is 2352 bytes per sector whenever that fits in 32 bits. The body wraps the cast and the product as 32-bit arithmetic does; the contract states only the case that fits. |
| Songs.BurstSize | src/read_cd.rs:49-67 | Corrected half of the advance finding (the source advances by `(end - curr) % 52 + 1`). A burst reads between 1 and 52 sectors and never passes the end of the track. A short burst ends exactly at the end of the track. |
| Songs.Run | src/read_cd.rs:54-69 | The loop with the corrected advance. The cursor of a pass never moves back and never passes the end of the track. A pass that starts at or past the end reads nothing. |
| Songs.RunStep | src/read_cd.rs:54-68 | A failed burst stops the pass where it is. A successful burst moves on to the next one. |
| Songs.RunStops | src/read_cd.rs:54-69 | A pass stops short of the end only after a failed read at its cursor, or after seeing the changed flag raised. |
| Songs.RunCompletes | src/read_cd.rs:54-69 | With no failed read and no raised flag, a pass reaches the end of the track. |
| Songs.ResumeMatchesUninterrupted | src/read_cd.rs:48-82 | With a drive that never fails, an interrupted pass followed by an uninterrupted one reaches the end. Together they extract the audio of the whole track exactly once. |
| Songs.ReadOutcome | src/read_cd.rs:48-82 | Corrected half of the offset finding: the stored offset counts from the start of the track (the source stores the absolute LSN). A pass returns an error exactly when a read fails, and then keeps the offset and the completion flag. A pass that succeeds but does not complete the track leaves a cursor inside it. |
| Songs.ReadKeepsExtracted | src/read_cd.rs:48-82 | A successful pass over a well-formed, unfinished file leaves a well-formed file. That file is the header followed by the track's audio up to the new offset, or up to the end of the track once it is complete. |
| Songs.Song.constructor | src/read_cd.rs:28-46 | A new track file holds only the header for its whole sector range, with offset 0 and not complete. The header carries the corrected byte rate (the source writes 88200). |
| Songs.Song.WriteWavHeader | src/read_cd.rs:84-116 | Appends the header for the given data size, field by field in the source's order, with the corrected byte rate of 176400 (the source writes 88200). |
| Songs.Song.Bursts | src/read_cd.rs:51-69 | The burst loop with the corrected advance. It stops where `Run` says. It appends exactly the audio of the sectors from the start to that cursor. |
| Songs.Song.Read | src/read_cd.rs:48-82 | The file, offset, completion flag and status after a pass are exactly `ReadOutcome` of the state before it, with the corrected offset. |
| Songs.CompleteFile | src/read_cd.rs:28-82 | A complete, well-formed track file is the header followed by exactly the audio of its sector range. Its length is the header size plus the data size declared, whenever that fits in 32 bits. |
| Songs.AsWrittenAdvance | src/read_cd.rs:67 | The advance as written is between 1 and 52 sectors, and only 1 sector when exactly 52 are left. It never lands on the end of the track, and when it passes the end it lands one sector past it. |
| Songs.AsWrittenLoop | src/read_cd.rs:54-69 | The burst count of the loop as written is bounded by the budget. Starting inside the track, the cursor never stops exactly at its end: it stops inside the track or exactly one sector past the end. |
| Songs.AsWrittenRead | src/read_cd.rs:48-82 | A pass as written appends a whole number of 52-sector buffers, and at least one when the track is unfinished. |
| Songs.AsWrittenOverreads | src/read_cd.rs:67-68 | A 100-sector track read as written appends 104 sectors. |
| Songs.AsWrittenResumeSkips | src/read_cd.rs:71-77 | A 100-sector track interrupted after one burst stores offset 149. The next pass then marks it complete with 52 sectors extracted. |
| Readers.AsWrittenSongSectors | src/read_cd.rs:182-189 | The pairing as written has `last - 1 - first` ranges. Range `k` runs from entry `first + k` to entry `first + k + 1`. |
| Readers.SongSectors | src/read_cd.rs:182-189 | The corrected pairing has one range per track from `first` to `last`. |
| Readers.AsWrittenSectorsMissLastTwo | src/read_cd.rs:182-198 | The pairing as written has two ranges fewer than there are tracks, and none on a disc with one or two tracks. |
| Readers.SongSectorsCover | src/read_cd.rs:149-189 | The corrected ranges start at each track's own entry and follow each other without gaps. The last one ends at the lead-out. |
| Readers.PlanLoad | src/read_cd.rs:243-263 | A successful plan never drops more tracks than are cached. |
| Readers.LoadPlaysTrack | src/read_cd.rs:243-263 | After a successful plan, the track to play heads a cache of consecutive tracks. When the cache changed, the next track is cached exactly when it is below the track count. |
| Readers.LoadIdempotent | src/read_cd.rs:243-263 | Preparing the same track a second time plans nothing. |
| Readers.LoadReusesNext | src/read_cd.rs:246-247 | Moving on to the cached next track keeps its file. The move panics exactly when the track after it is below the count but has no range. |
| Readers.LoadFromSingleSlotPanics | src/read_cd.rs:244-246 | With one cached track, asking for any other track reaches `songs[1]` and panics. |
| Readers.LoadWithinDisc | src/read_cd.rs:243-263 | With a range for every track and two cached tracks, preparing any track of the disc never panics. |
| Readers.ReadCdOutcome | src/read_cd.rs:273-293 | A `read_cd` call keeps every track's range. It does nothing and waits when the first cached track is complete. It fails exactly when the pass over the first track fails, or when that pass completed it, a second track is cached and the pass over that one fails. It touches the second track only after completing the first, and waits only without a failure and with the first track complete. |
| Readers.ReadCdCompletes | src/read_cd.rs:273-293 | With a drive that never fails and a flag never raised, one call over an unfinished first track completes every cached track and then waits. |
| Readers.Reader.constructor | src/read_cd.rs:191-210 | Creates the files of track 1 and, with more than one track, track 2, each fresh, holding only the header for its range, at offset 0 and unfinished. Sets the shared track count and changes nothing else in the state. |
| Readers.Reader.Push | src/read_cd.rs:252-261 | Appending track `id` fails with an index panic exactly when it has no range. Otherwise it appends one fresh, well-formed file for that track, holding only the header for its range, at offset 0 and unfinished. |
| Readers.Reader.LoadTrack | src/read_cd.rs:242-263 | The result panics exactly when `PlanLoad` does. Otherwise the cached tracks are the `Reloaded` plan, the kept files are the same objects in the same order, and each new file is fresh and holds only the header for its range, at offset 0 and unfinished. |
| Readers.Reader.Extract | src/read_cd.rs:274-285 | The reads of `read_cd` leave the files exactly as `ReadCdOutcome` says. They fail exactly when it says so and wait exactly when it says so. Without a failure the cache stays valid; waiting means the first track is complete, and going on means a cached track is unfinished. |
| Readers.Reader.ReadCd | src/read_cd.rs:273-293 | The cached files end up exactly as `ReadCdOutcome` says for the cache before the call. The result is `Failed(SectorRead)` exactly when one of its passes failed, and no other failure. Otherwise the worker goes on (`Continue`) exactly when it does not wait. When it waits it consumes a wake (`Waited`, one wake fewer) if one is pending and returns `Blocked` if none is. The action, the flag and the track count are kept. |
| Readers.Reader.PlayTrack | src/read_cd.rs:241-265 | The `Play` arm panics with an index error exactly when `PlanLoad` does. Otherwise the cached tracks are the `Reloaded` plan, the kept files are the same objects, and the new files are fresh. The files then end up as `ReadCdOutcome` says for the cache right after the load (the kept tracks as they were, the new ones header-only), and the result is `Failed(SectorRead)` exactly when a pass of that call failed. Unless a read failed, the cache is valid with the played track first. The wake rule of `ReadCd` holds. |
| Readers.Reader.Handle | src/read_cd.rs:232-267 | One loop iteration clears the changed flag. It stops exactly on `Stop`. The wake count drops by one exactly on `Waited`, and is otherwise unchanged, on `Stop` too. On `Pause` it consumes a wake if one is pending and is blocked if none is. On `Play` it carries all of `PlayTrack`'s clauses: the index panic exactly when `PlanLoad` panics, the `Reloaded` cache, the `ReadCdOutcome` of the cache after the load, `Failed(SectorRead)` exactly when a pass failed, and validity with the played track first unless a read failed. On `Stop` and `Pause` the cache is untouched and stays valid. |
| Readers.ReadToc | src/read_cd.rs:149-161 | Reading the table of contents fails with a read error when an entry cannot be read. It panics when the track numbers pass the last table entry. Otherwise it succeeds exactly when the lead-out can be read. |
| Readers.Open | src/read_cd.rs:134-211 | Opening fails on an invalid track number, on a table-of-contents error, or when the disc has too few ranges; in those cases the state is unchanged. Otherwise it returns a valid worker over the corrected ranges, with header-only files for tracks 1 and 2 (or only 1) and the track count published. |

## Left out

- Device discovery and setup (`get_drive`, `cdio_open`, `cdio_set_speed`) are not modelled. The drive and the table of contents are given to `Open` as values.
- `cdio_get_num_tracks` is taken as an independent field of the table of contents. It is not tied to `first` and `last`.
- File creation and write failures (`File::create`, `write_all`, `flush`) are not modelled. A file is its byte sequence, and appending always succeeds. `Drop` for `Song`, which removes the file, is not modelled either.
- The `Mutex`/`RwLock` locking and the other threads are not modelled. The changed flag a pass sees is a parameter, and so is the action a worker iteration sees.
- Readers.Reader.Handle: models one iteration of the unbounded worker loop. Repeating it depends on the other threads.
- Readers.Reader.ReadCd: blocking on an empty wake channel is the `Blocked` result, not waiting.
- State.PlayerState.WaitForChange: requires a pending wake. The case where the source blocks is handled by its callers as above.
- Integer widths in debug builds are not modelled. The model does not panic where the source panics on overflow: the `u8` track arithmetic (`track + 1`, `track - 1` on track 0) and the `u32` products in the header sizes. `DataLength` and `RiffSize` wrap as a release build does.
- `main.rs` and `play_song.rs` (the control surface, the playback worker and the audio output) are not part of this model. The bound of two on the wake channel comes from `src/main.rs:94`.
- Readers.ReadToc: also reads the MSF address of the lead-out entry, which the corrected pairing needs. The source loop reads only `first..=last`.
- Readers.Open: succeeds only when the lead-out entry can be read, through `ReadToc`; the source never reads it.

## Findings

| source | as written | input that shows it | evidently intended | confidence | as-written member | corrected member |
|---|---|---|---|---|---|---|
| src/read_cd.rs:89 | `BYTERATE = SAMPLERATE * BITDEPTH / 8` = 88200 | any track: the header declares 2 channels of 16 bits at 44100 Hz, which is 176400 bytes per second | `SAMPLERATE * CHANNELS * BITDEPTH / 8` = 176400 | high, not executed | Wav.AsWrittenHeaderIncoherent | Wav.HeaderDeclares |
| src/read_cd.rs:67 | after each 52-sector read, `curr += (end_lsn - curr) % 52 + 1` | a 100-sector track at LSN 100..200: bursts at 100 and 149 append 104 sectors while the header declares 100 | advance by the sectors read, `min(52, end_lsn - curr)`, and read no more than are left | high, not executed | Songs.AsWrittenOverreads | Songs.Song.Bursts |
| src/read_cd.rs:76 | `self.offset = curr` stores the absolute LSN, and the next pass starts at `start_lsn + offset` | the same track interrupted after one burst: offset 149, and the next pass starts at LSN 249 and marks the track complete with 52 sectors | store `curr - start_lsn` | high, not executed | Songs.AsWrittenResumeSkips | Songs.ReadKeepsExtracted |
| src/read_cd.rs:182-189 | `(first_track..last_track - 1)` gives `last - 1 - first` ranges | a single-track disc: no range, so `song_sectors[0]` panics; on any disc the last two tracks have no range | one range per track from `first` to `last`, the last ending at the lead-out (the table of contents is sized `0xAA + 1` to hold it) | medium, not executed | Readers.AsWrittenSectorsMissLastTwo | Readers.SongSectorsCover |
