# CavBot: what its protocols keep

A Dafny model of the parts of CavBot (a Discord bot in Go) that decide things
with no network in the decision, with proofs of what they promise over every
input and every run.

Each module follows a part of the bot:

- **Recording tracks.** `OggCrc`, `OggPages`, `OggStreams` and `OggWriter` are
  the Ogg writer and reader byte for byte, `OpusTracks` and `OpusTrack` place a
  speaker's packets by a wrapping RTP clock against the wall clock, and
  `RecordingRecovery` and `CrashRecovery` read the files back after a shutdown or
  a crash.
- **Temp voice channels.** `SpawnSweep` and `SpawnRecord` are the spawns beside
  the restart sweep, with `SweepJudgement` and `SpawnNumbers` what a sweep makes
  of each channel and the per-hub numbers; `DeleteDelay`, `DelayWaits` and
  `DeleteDelayRuntime` are the waits of emptied channels, `AccessChange`,
  `AccessOutcomes`, `AccessChangeSections` and `LetIn` the locks, unlocks and let-ins,
  `PermissionList` and `LockList` a lock's permission list, and `RankLadder`,
  `Handover` and `HandoverPlan` the ranks, the election and the handovers.
- **Foxhole actions.** `FoxholeRun` is the run that reports after every member
  and can be cut off and retried, `FoxholeWholeRun` one that nothing goes wrong in,
  `FoxholeRule` the one-action-at-a-time rule.
- **Member list.** `MemberList`, `MemberListWaits` and `MemberListTracker` count the parts of the
  gateway's answer under stall, refusal and late waits.
- **Recorder allocation.** `RecorderAllocation`, `RecorderChecks` and `RecorderRuntime` are the
  recordings that count and the enders that race for them.
- **Paged replies.** `PagedReplies` is the greedy page layout.

Two kinds of file go together. A specification file has the state as a value,
the steps as functions and the theorems over runs. Beside it a class or methods
have the source's own form, fields updated in place and loops, each proved to
take the specified step. For the member list tracker, the spawn record, the
delete delays, the access changes and the one-action rule a `Replay` method
drives the class by the events of any run and ends with the run's own state, so
what is proved of runs is proved of the fields. A section the source runs under
its mutex is one step. A call outside it (Discord, the store, the disk) is its
sending and, later, an answer that may be anything. A deferred call is a step of
its own, so a panic may come between any two. A timer that was stopped may
already be waiting for the mutex, so where the source guards against that the
model lets any timer ever set go off; a gap's limit timer, whose one run matters,
runs once. Times are integers, and a pointer compared for identity is a number
never used twice.

What a run may assume of the outside is in the `Possible` predicate of its
module, and nowhere else. `MemberLists`: a guild value the state has lost never
comes back, and Discord numbers the parts of one answer below one count.
`SpawnSweeps`: Discord's new channels have new IDs, and a store call that
answers success was applied. `DeleteDelays`: a stored row is listed once.
`FoxholeRuns`: the member list a run reads may lag but shows nobody done who is
not, nobody else changes the planned roles, and members may leave but not come
back. `RecorderAllocations` and `FoxholeRules`: nothing of the kind.

Where the code does not keep what it is for, a lemma shows the run and a theorem
says exactly when it does. A panic in a report's end write gives the rule back
before the report has ended (`FoxholeRules.PanickedEndGivesBack`). A gap told of
past its limit, before the recording counts, is not cut short
(`RecorderAllocations.ToldLateRunsOn`). A page flushed past a shutdown makes the
recovered stop later than the shutdown (`RecordingRecoveries.FlushedPastStop`).
A member list read that a GUILD_CREATE overtakes is of the list before it
(`MemberLists.OvertakenRead`). Somebody the record did not have inside who leaves
a waiting channel starts its wait over and leaves the old timer armed
(`DelayWaits.ArmedTimersAreTheWaits`). A sweep restores clashing numbers
(`SpawnSweeps.ClashingRowsAreTracked`), a lock opens a channel to strangers when
@everyone moderates it (`PermissionLists.EveryoneAsModerator`), and a packet
over 65,024 bytes spoils its page (`OggStreams.LongPacketIsLost`).

`dafny verify dfyconfig.toml` checks the whole project.

## Model

| member | source | states |
|---|---|---|
| `Bytes.LittleEndianRoundTrip` | commands/recording_ogg.go:123-128 | A number of up to n bytes survives being put in a header field and read back |
| `OggCrc.FeedIsRemainder` | commands/recording_ogg.go:199-208 | Shifting a message through the 32-bit register bit by bit gives the remainder of polynomial long division by 0x04c11db7 of the message times x^32, for every message |
| `OggCrc.ShiftLinear` | commands/recording_ogg.go:188-197 | The register's shift step is linear over XOR, which is why a table of 256 entries is enough |
| `OggCrc.FeedByteIsShift` | commands/recording_ogg.go:188-197 | Feeding a byte's eight bits is XORing it into the register's top byte and shifting eight times |
| `OggCrc.BuildTable` | commands/recording_ogg.go:188-197 | The table's loops give each byte its eight-step shift |
| `OggCrc.TableStep` | commands/recording_ogg.go:203-208 | One step of the table method is eight bits of the register |
| `OggCrc.OggCrc` | commands/recording_ogg.go:203-208 | The table-driven loop continues the register over any bytes from any state |
| `OggCrc.PageChecksum` | commands/recording_ogg.go:128-128 | The two calls, header then body, give the polynomial remainder of the page as one message (section 6 of RFC 3533) |
| `OggPages.ParseEncoded` | commands/recording_ogg.go:119-135 | A strict reader that checks the capture pattern, version, segment count and checksum reads an encoded page back field for field, whatever follows it |
| `OggPages.ParseAllEncoded` | commands/recording_ogg.go:119-135 | A run of encoded pages reads back as just those pages |
| `OggPages.OggStreamEnd` | commands/recording_ogg.go:141-165 | Over any bytes, the reading loop finds what reading page by page from the front finds: the granule position of the last page whole there, 0 before any, stopping at what is no page |
| `OggPages.WholePagesIsMost` | commands/recording_ogg.go:141-165 | The pages counted whole in a prefix are the most that fit: they fit, and the next one does not |
| `OggPages.CutShortEndsAtLastWholePage` | commands/recording_ogg.go:141-175 | Encoded pages cut after any byte read as long as the last page wholly inside says |
| `OggStreams.LacingEndsPacket` | commands/recording_ogg.go:178-184 | A packet's lacing values end it: undone by sections 5 and 6 of RFC 3533 they give the packet's own bytes and leave none open |
| `OggStreams.RunAppends` | commands/recording_ogg.go:75-95 | Any sequence of writes and flushes appends exactly the packets written to those the pages and the page being filled already hold |
| `OggStreams.CloseKeeps` | commands/recording_ogg.go:104-117 | Closing moves the pending packets into the last page and loses none |
| `OggStreams.StreamMarks` | commands/recording_ogg.go:45-135 | In a whole stream only the first page is marked as its start and only the last as its end |
| `OggStreams.StreamHoldsPackets` | commands/recording_ogg.go:75-135 | Splitting the pages of any stream by their lacing values gives back the two header packets and then exactly the packets written, in order and byte for byte; no packet runs across two pages, and the pages are numbered from 0 without a gap |
| `OggStreams.RoundTrip` | commands/recording_ogg.go:75-135 | A strict reader gets the written pages back from the bytes if and only if every packet is at most 65,024 bytes, the 255 lacing values a page's header can count |
| `OggStreams.PagesGoOutFull` | commands/recording_ogg.go:75-86 | With no flush between them packets share pages as far as they fit: no page goes out while the packet that opens the next one had room in it |
| `OggStreams.LongPacketIsLost` | commands/recording_ogg.go:178-184 | A stream with one packet of 65,025 bytes is not read back |
| `OggStreams.RunInStep` | commands/recording_ogg.go:75-95 | While the writer runs, granule positions never fall and the page written out last ends no later than the packets written |
| `OggStreams.CloseEnds` | commands/recording_ogg.go:104-116 | The last page ends at the end asked for, or where the page before it ended when that is later, and granule positions never fall |
| `OggStreams.CrashTruncation` | commands/recording_ogg.go:45-65 | Of every stream, closed or not, cut after any byte, the reader returns the granule position of the last page wholly in it, and 0 while no audio page is |
| `OggWriters.ComputeLacing` | commands/recording_ogg.go:178-184 | The lacing loop gives size/255 values of 255 and then size mod 255 |
| `OggWriters.OggWriter.constructor` | commands/recording_ogg.go:45-65 | A new writer has written its two header pages, numbered 0 and 1, and holds nothing |
| `OggWriters.OggWriter.WritePage` | commands/recording_ogg.go:119-135 | A page is handed on with its checksum put in, and the page number moves on by one |
| `OggWriters.OggWriter.SealedHeader` | commands/recording_ogg.go:119-129 | The header is built with a zero checksum field and then sealed with the CRC of header and body |
| `OggWriters.OggWriter.FillHeader` | commands/recording_ogg.go:120-127 | Each field lies where section 6 of RFC 3533 puts it |
| `OggWriters.OggWriter.WritePacket` | commands/recording_ogg.go:75-86 | The writer's new state is the one the stream specification gives: a full page goes out first, then the packet and its samples join the page being filled |
| `OggWriters.OggWriter.Flush` | commands/recording_ogg.go:89-94 | Only a page with packets goes out |
| `OggWriters.OggWriter.CloseAt` | commands/recording_ogg.go:104-107 | The last page goes out marked as the end, at the end asked for but not before the last page's end |
| `OggWriters.OggWriter.Emit` | commands/recording_ogg.go:111-117 | The page being filled goes out at the clock, and a new empty one begins where it ended |
| `OpusTracks.ClockIsTotal` | commands/recording_tracks.go:143-164 | The track's clock is the sum of its packets' lengths while that is below the clock's width |
| `OpusTracks.LiveStaysWithin` | commands/recording_tracks.go:143-164 | However a run of frames goes, its track stays within a bound that grows with the frames, so the 64-bit clock does not wrap over any recording |
| `OpusTracks.PlacementBound` | commands/recording_tracks.go:143-164 | After any run of frames and flushes, with wrapping 32-bit timestamps and SSRC changes, the next frame kept starts at most 96,959 samples before its arrival, and one with silence put in front of it at most 96,000 after |
| `OpusTracks.RtpPlaces` | commands/recording_tracks.go:146-155 | A frame d samples on from the one expected goes d samples on across the timestamp's wrap while that is within 2 s of its arrival; one behind the track is dropped |
| `OpusTracks.InOrderFramesAbut` | commands/recording_tracks.go:143-164 | A frame whose timestamp follows another's without a loss is written right behind it |
| `OpusTracks.TrackEnds` | commands/recording_tracks.go:170-177 | An ended track's granule positions never fall, its last page ends at the stop or where the last flushed page ended when that is later, never past the samples written, and what is trimmed comes off the last page alone (section 4.4 of RFC 7845) |
| `OpusTracks.EndedFileReads` | commands/recording_tracks.go:170-177 | The ended track's file, read back, runs to the stop or to the last page flushed before it |
| `OpusTracks.FlushedOnAFrame` | commands/recording_tracks.go:143-164 | Of whatever packets, the last page out ends on a multiple of the shortest Opus frame, 2.5 ms, while the clock does not wrap |
| `OpusTracks.FramesArePlaced` | commands/recording_tracks.go:143-164 | After any run, a frame is dropped if and only if it is on the SSRC heard last with its 32-bit timestamp behind the one expected; any other is written, as far on as its timestamp says while that is within 2 s of its arrival, else, or on a new SSRC, by the wall clock: it starts less than 20 ms before its arrival, or at the track's end when that is later |
| `OpusTracks.PacketLasts` | commands/recording_ogg.go:212-237 | A packet lasts as many frames as its code says, each as long as its configuration says (section 3 of RFC 6716) |
| `OpusTrackFiles.TrackFile.Write` | commands/recording_tracks.go:143-164 | One packet put to the track's stream |
| `OpusTrackFiles.TrackFile.Place` | commands/recording_tracks.go:143-164 | The loop of silence frames and the packet leave the track in the state the placement specification gives, drops included |
| `OpusTrackFiles.TrackFile.Flush` | commands/recording_tracks.go:212-218 | The page being filled goes out |
| `OpusTrackFiles.TrackFile.End` | commands/recording_tracks.go:170-177 | The loop fills with silence to the end asked for, adds a packet when none is pending, and closes the stream there |
| `RecordingRecoveries.SampleTimeRoundTrip` | commands/recording_tracks.go:130-132 | A time turned into a sample and back, as the shutdown and the recovery do, is less than one sample early, and no 64-bit number overflows under the cap of 6 hours |
| `RecordingRecoveries.RecordKeeps` | commands/recording_tracks.go:86-126 | Over any run of frames and flushes, every speaker's track stays within a bound that grows with the frames, and its packets each fit a page |
| `RecordingRecoveries.TracksAreTheirOwn` | commands/recording_tracks.go:86-126 | Each speaker has a track once they are heard, and it is the run of their own frames and of the flushes since, whoever else speaks |
| `RecordingRecoveries.SilentHoldsNoAudio` | commands/recording_recovery.go:137-146 | Of a stream cut after any of its bytes, a file is removed as silent if and only if every page wholly in it ends at 0 |
| `CrashRecoveries.CrashKeepsWhatWasFlushed` | commands/recording_recovery.go:97-104 | A track flushed in any recording and read back after a crash, with the bytes that flush had written and any number of those written since on disk, runs at least as long as it was at the flush, and with none since just as long |
| `CrashRecoveries.ListedAsRead` | commands/recording_recovery.go:125-154 | Recovery lists exactly the speakers of the readable tracks, their track lost if and only if it is silent, and removes exactly the silent tracks it can |
| `CrashRecoveries.EachErrorCounts` | commands/recording_recovery.go:133-152 | It counts one error for each track that cannot be read and each silent one that cannot be removed, and no other |
| `RecordingRecoveries.KeepAudioTracks` | commands/recording_recovery.go:125-154 | The directory loop lists every speaker with a readable track, marks exactly those with no audio and removes them, counts the unreadable and the unremovable, and returns the longest kept track's length; a missing directory is nobody heard, and one that cannot be listed one error |
| `RecordingRecoveries.FileRuns` | commands/recording_tracks.go:220-230 | A track closed at the stop reads as the stop's sample or the last page flushed past it |
| `RecordingRecoveries.ShutdownThenRecovery` | commands/recording_recovery.go:99-104 | After any frames and flushes, files closed by a shutdown give the recovery back the shutdown's time to within one sample if and only if no page flushed before had run past it, of any recording whose length in nanoseconds 64 bits hold (some 53 hours) |
| `RecordingRecoveries.FlushedPastStop` | commands/recording_recovery.go:99-104 | A packet of 20 ms heard at the start and flushed at once, then a shutdown at 0: recovery gives 20 ms |
| `PagedReplies.RenderCoversLast` | commands/paged_reply.go:192-200 | A page is at least as long as its last line alone would be |
| `PagedReplies.RenderSuffix` | commands/paged_reply.go:192-200 | A page that starts at a later line and ends at the same one is no longer |
| `PagedReplies.RenderOpens` | commands/paged_reply.go:192-200 | A page opens with its first line's heading |
| `PagedReplies.PagedDescriptions` | commands/paged_reply.go:163-190 | The pages keep every line whole and in order; Discord takes them all, at most 4096 bytes each and 6000 with the title and footer, if and only if it takes each line alone under its heading, and no order-preserving split it takes has fewer pages |
| `MemberLists.NeverGivesUp` | commands/member_list.go:322-332 | Over any run, while the list is partial and the state holds the guild, a wait is pending whose end sends a request with a nonce never used before, and one that turns the list late unless it is late already |
| `MemberLists.CompleteIsAllTold` | commands/member_list.go:338-354 | Over any run, the flag is set if and only if every part of the request in flight has been told of, whatever the order, repeats and stale parts |
| `MemberLists.CompleteMeansComplete` | commands/member_list.go:467-494 | Whatever runs between a read's two sections, it says complete if and only if the state at the second holds the guild copied at the first and every part of the request in flight had arrived by the first; then the state held that guild value all along, the request followed the last GUILD_CREATE before the copy, and all its parts are in the guild value read |
| `MemberLists.CompleteStaysCurrent` | commands/member_list.go:467-494 | Such a read is of the list the tracker has when it returns if and only if no handler of the guild's GUILD_CREATE ran between the sections; else the tracker is at a later request |
| `MemberLists.OvertakenRead` | commands/member_list.go:467-494 | A run in which the handler does run between, and the read says complete of a list the tracker has given up |
| `MemberListWaits.ReadSays` | commands/member_list.go:467-494 | What any read answers, by the events alone: no guild while none is held; arriving with nothing counted while the guild held is not the one asked about; else how many parts of the request in flight were told of at the copy and of how many, when the bot asks again after the last refusal, and whether the list was complete, found late since its GUILD_CREATE, refused, or arriving |
| `MemberListWaits.OnlyTheWaitInForceAsks` | commands/member_list.go:322-332 | After any run, a wait that goes off asks again if and only if a part is missing, the guild asked about is held, and the wait is the pending refusal's or, with none pending, the stall wait last started |
| `MemberListWaits.ReplacedWaitsDoNothing` | commands/member_list.go:394-433 | A stall wait made before a part, a refusal or a request, a refusal's made before a request, and a late wait made before a GUILD_CREATE change nothing whenever they go off later in any run |
| `MemberListWaits.ArmedWaitsAreInForce` | commands/member_list.go:400-413 | After any run, the waits armed are at most the stall wait last started, while a part is missing, the refusal's, while one is pending, and the last GUILD_CREATE's late wait, each with its own stop function kept |
| `MemberLists.KeepsLastEntryOfEach` | commands/member_list.go:268-285 | Each user's last entry is kept and no other of theirs, and entries without a user all stay, in order |
| `MemberLists.KeepLastEntryPerMember` | commands/member_list.go:268-285 | The two loops return those entries, the early return of the unchanged list included |
| `MemberListTrackers.MemberList.StopStallLocked` | commands/member_list.go:407-413 | The stall wait is stopped and its number moves on |
| `MemberListTrackers.MemberList.WaitForPartLocked` | commands/member_list.go:400-404 | The stall wait starts over under a new number |
| `MemberListTrackers.MemberList.ClearCountLocked` | commands/member_list.go:293-303 | A new nonce, an empty count, and no refusal's wait |
| `MemberListTrackers.MemberList.StartRequestLocked` | commands/member_list.go:292-306 | A new request: the count cleared and the stall wait started |
| `MemberListTrackers.MemberList.GuildCreated` | commands/member_list.go:236-258 | Another guild's event changes nothing; the guild's own takes the state's guild, its members trimmed to one entry each, a new episode with its late wait, and a new request |
| `MemberListTrackers.MemberList.AskAgain` | commands/member_list.go:322-332 | A new request only while the list is partial, the wait holds and the state holds the guild |
| `MemberListTrackers.MemberList.ChunkArrived` | commands/member_list.go:338-357 | A part of the request in flight is counted by its index, and the last completes the list; any other is ignored |
| `MemberListTrackers.MemberList.Refused` | commands/member_list.go:373-390 | A refusal of the request in flight ends its stall wait and sets the wait to ask again |
| `MemberListTrackers.MemberList.Retry` | commands/member_list.go:394-396 | The refusal's wait asks again unless another request has gone out |
| `MemberListTrackers.MemberList.Stalled` | commands/member_list.go:417-419 | The stall wait asks again unless it was replaced or a refusal is pending |
| `MemberListTrackers.MemberList.LateCheck` | commands/member_list.go:425-432 | The list turns late when its episode's list is still partial and the guild held |
| `MemberListTrackers.MemberList.Copy` | commands/member_list.go:467-479 | The count copied under the lock, with the status of a partial list in its order of precedence |
| `MemberListTrackers.Read` | commands/member_list.go:481-514 | What the read makes of the count copied and the guild the state holds then, and the entries it lists when complete |
| `MemberListTrackers.Replay` | commands/member_list.go:236-433 | The handlers and waits, called in place as any run calls them, keep the tracker's fields as the run has them, so the theorems over runs are of the fields |
| `RankLadders.NewRankLadder` | commands/rank_ladder.go:64-91 | The loop gives each role to its most senior rank, an empty role to none, over the code's 29 ranks |
| `RankLadders.RankRolePlace` | commands/rank_ladder.go:149-157 | The loop finds the least place among the role IDs |
| `RankLadders.SeniorityIsFirstRankHeld` | commands/rank_ladder.go:139-169 | A member's seniority is the first rank of the ladder whose role they hold, none with the Discharged role; a Cav member is exactly a holder of a rank role without it |
| `RankLadders.MayDrop` | commands/rank_ladder.go:193-203 | The loop says whether the next ladder has a new Discharged role or takes a role's place away |
| `RankLadders.WhenSomeoneDrops` | commands/rank_ladder.go:185-203 | Some set of roles is dropped by a save if and only if a rank role that is not the Discharged role loses its place, or stays while the save sets another Discharged role |
| `RankLadders.WhenMayDropIsExact` | commands/rank_ladder.go:189-203 | The warning is exact unless the Discharged role is itself a rank role or no rank has a role |
| `Handovers.LowerUserIDIsNumeric` | commands/temp_vc.go:1762-1767 | Comparing by length and then as strings is comparing the decimal numbers, and different IDs are different numbers |
| `Handovers.ElectOwner` | commands/temp_vc.go:1743-1755 | The loop over the occupants in any order picks the least by rank and then by number, and nobody when none is ranked |
| `Handovers.OneWinner` | commands/temp_vc.go:1743-1755 | There is one such occupant, so every iteration order elects the same |
| `Ownerships.SaveAppliesTheRule` | commands/temp_vc.go:1024-1044 | After a save, every channel with somebody inside is its present Cav member owner's or the rule's choice, and has no owner only when no Cav member is confirmed inside |
| `Ownerships.SecondSaveHandsOverNone` | commands/temp_vc.go:975-991 | Saving the same ladder again with the same cache hands over no channel |
| `Ownerships.ReconciledOnce` | commands/temp_vc.go:1673-1697 | A voice event's handover settles: applied again to the same record and snapshot it changes nothing |
| `Ownerships.Ownership.ElectPresentOwner` | commands/temp_vc.go:1726-1737 | The election runs over the recorded occupants the snapshot shows inside |
| `Ownerships.Ownership.RankHandoverPlan` | commands/temp_vc.go:1024-1044 | The loop plans exactly the channels whose owner does not keep them and whose elected owner differs, and none when the guild is missing |
| `Ownerships.Ownership.RankRolesHandovers` | commands/temp_vc.go:996-1001 | The count is the size of that plan on the same cache |
| `Ownerships.Ownership.SetOwner` | commands/temp_vc.go:1701-1707 | An owner is recorded, or none for empty |
| `Ownerships.Ownership.CarryOut` | commands/temp_vc.go:981-987 | Every planned channel takes its owner and is handed over once, in the order of the channel IDs |
| `Ownerships.Ownership.ApplyRankRoles` | commands/temp_vc.go:975-991 | A save hands over exactly the channels the preview counts on the same cache, each once and in the order of the channel IDs, and no other owner changes |
| `Ownerships.Ownership.ReconcileOwner` | commands/temp_vc.go:1673-1697 | A present owner keeps the channel; otherwise the rule names its owner; an untracked channel, one about to be deleted or a missing guild changes nothing |
| `PermissionLists.WhoConnects` | commands/temp_vc_lock.go:354-398 | After a lock, of those who are no administrator, exactly these connect: guests, members their own overwrite allows, and, of those it does not deny, holders of a moderator role |
| `PermissionLists.StrangersStopped` | commands/temp_vc_lock.go:354-398 | The lock stops a member with no role and no overwrite if and only if @everyone is not a moderator role |
| `PermissionLists.EveryoneAsModerator` | commands/temp_vc_lock.go:354-398 | With @everyone as a moderator role, a lock lets in a stranger whom the channel kept out before it |
| `PermissionLists.OtherPermissionsKept` | commands/temp_vc_lock.go:365-368 | Nobody gains or loses any permission other than Connect by a lock |
| `PermissionLists.LockMarks` | commands/temp_vc_lock.go:370-398 | Entry by entry: who is allowed, who denied, who untouched, which entries are added and with which bits |
| `PermissionLists.GuestAddGivesConnectAlone` | commands/temp_vc_guest.go:96-118 | A guest add gives the member Connect in the channel and changes nobody's other permissions; made again it sends nothing |
| `LockLists.CopyOverwrites` | commands/temp_vc_lock.go:418-425 | The copy has the same values in new objects |
| `LockLists.EnsureEntry` | commands/temp_vc_lock.go:376-384 | The entry found by ID, or a new one appended |
| `LockLists.DenyLockBits` | commands/temp_vc_lock.go:402-405 | One entry denies Connect; no other entry of the list changes |
| `LockLists.AllowLockBits` | commands/temp_vc_lock.go:409-412 | One entry allows Connect; no other entry of the list changes |
| `LockLists.IndexByID` | commands/temp_vc_lock.go:372-375 | The loop maps each ID to its last entry |
| `LockLists.DenyOtherRoles` | commands/temp_vc_lock.go:385-389 | Every role entry but the moderator roles' is denied in place |
| `LockLists.AllowIDs` | commands/temp_vc_lock.go:391-396 | Each ID's entry is allowed in place, added when missing |
| `LockLists.LockOverwrites` | commands/temp_vc_lock.go:370-398 | The list built in place on copies is the specified one, all of new objects, and the input is not modified |
| `AccessChanges.OneChangeAtATime` | commands/temp_vc_lock.go:99-145 | Over any run, two threads in an access change are never on one channel |
| `AccessChanges.AddsAnsweredBeforeEdits` | commands/temp_vc_lock.go:122-145 | Over any run, when a lock's or an unlock's edit goes out, every guest add of a let-in or a held join sent before it on the channel has been answered |
| `AccessChanges.ChangeEndsUnlockedOrHandedOn` | commands/temp_vc_lock.go:129-145 | Over any run, when a change ends the channel is unlocked, or every join it held was handed to the guest adds and, unless the channel was gone, answered or skipped |
| `AccessChanges.JoinsAreHeldOrAdded` | commands/temp_vc_guest.go:42-59 | After any run, members who join a tracked channel are held by the access change in flight on it or, with none, added at once if and only if it is locked |
| `AccessChanges.TurnsHandOn` | commands/temp_vc_lock.go:129-145 | After any run, a turn of a change's end on a locked channel hands on all the joins held, each once; with none held, or unlocked, it ends the change |
| `AccessOutcomes.LockedByLastEdit` | commands/temp_vc_lock.go:303-317 | Over any run, from any moment on with nothing but access changes since, a channel tracked still is locked if and only if the last edit Discord accepted since was a lock's, or none was and it was locked before; one gone since is not locked |
| `AccessOutcomes.EditsTurnTheLock` | commands/temp_vc_lock.go:163-274 | Over any run, while a change is under way its channel is locked as it was when the change was decided on, so each edit is a lock of an unlocked channel or an unlock of a locked one |
| `AccessOutcomes.EachPickIsDecided` | commands/temp_vc_let_in.go:166-180 | Over any run, a let-in that comes to its end has decided every member picked, in order, unless the channel was gone |
| `AccessOutcomes.GoneWasHeard` | commands/temp_vc_guest.go:125-131 | Over any run, a change counts its channel gone only after Discord said so to a change of that channel |
| `AccessOutcomes.UntrackedWhenGone` | commands/temp_vc_lock.go:303-309 | In a change, a channel loses its tracking if and only if Discord says it is gone, and its lock with it |
| `AccessOutcomes.LockWithAJoin` | commands/temp_vc_lock.go:163-232 | A run of a lock from beginning to end: a member joins while its edit is out, and gets their guest add after it |
| `AccessChangeSections.AccessRuntime.IdleChannelLocked` | commands/temp_vc_lock.go:99-113 | The wait loop asks the caller's rule afresh at each look, waits while its channel has a change in flight, and ends at the first look that is refused or finds the channel idle, the record being as that look found it |
| `AccessChangeSections.AccessRuntime.BeginWhenIdle` | commands/temp_vc_lock.go:247-274 | An access change begins on the record of the idle look itself, so nothing comes between |
| `AccessChangeSections.AccessRuntime.CommitLockEdit` | commands/temp_vc_lock.go:310-317 | An accepted edit locks or unlocks a channel tracked still |
| `AccessChangeSections.AccessRuntime.UntrackLocked` | commands/temp_vc.go:1820-1828 | A channel gone loses its tracking and its lock |
| `AccessChangeSections.Replay` | commands/temp_vc_lock.go:92-145 | The sections, called in place as any run calls them, keep the record's fields as the run has them, so the theorems over runs are of the fields |
| `AccessChangeSections.AccessRuntime.BeginAccessChangeLocked` | commands/temp_vc_lock.go:118-120 | The change is marked with no joins |
| `AccessChangeSections.AccessRuntime.JoinGuestsLocked` | commands/temp_vc_guest.go:42-59 | Joins are held by a change in flight, added at once on a locked channel, and else dropped |
| `AccessChangeSections.AccessRuntime.EndAccessChangeTurn` | commands/temp_vc_lock.go:129-145 | One turn of the drain: the joins held on a locked channel, or the end of the change |
| `LetIns.EachDecidedOnce` | commands/temp_vc_let_in.go:166-180 | A member picked, however often, is in the result exactly once, and nobody else is |
| `LetIns.EachDecidedRightly` | commands/temp_vc_let_in.go:187-221 | A picked member is let in if and only if their first pick is resolved, of no bot, and Discord took their guest add, and each other outcome has its one cause; nobody else is named |
| `LetIns.GoneWhenAnAddSaysSo` | commands/temp_vc_let_in.go:166-221 | The let-in fails as a whole if and only if Discord says the channel is gone to the guest add of some member's first pick, resolved and of no bot |
| `LetIns.LetInEach` | commands/temp_vc_let_in.go:166-180 | The loop decides each picked member by their first pick, and fails as a whole if and only if Discord says the channel is gone |
| `LetIns.LetInOne` | commands/temp_vc_let_in.go:187-221 | Bots, members who cannot see the channel and guests are skipped, in that order of checks; failures are failed; the rest are let in |
| `SpawnSweeps.NoSpawnLost` | commands/temp_vc.go:1269-1512 | Over any interleaving of commits, row writes, settles, deletes, handovers and sweeps, a channel the record ever tracked is tracked still at its number and hub, unless it was deleted, its spawn's row write failed, or a sweep's snapshot did not show it with no spawn of it in flight |
| `SpawnSweeps.UnsettledSpawnsAreLeftAlone` | commands/temp_vc.go:1356-1361 | A channel whose spawn has not settled is never judged gone by a sweep, and its tracking is kept as it is |
| `SpawnSweeps.NumbersAreDistinct` | commands/temp_vc.go:2295-2330 | Over any run whose sweeps list rows that do not clash, the numbers of a hub's live channels and of its creates in flight are pairwise distinct |
| `SpawnSweeps.RebuildKeepsNumbers` | commands/temp_vc.go:1356-1378 | A rebuild keeps the numbers distinct if and only if the rows it tracks do not clash with each other, the spawns kept or the reservations |
| `SpawnSweeps.ClashingRowsAreTracked` | commands/temp_vc.go:1356-1378 | A new process whose store lists two channels of a hub under one number tracks both under it at its first sweep |
| `SpawnNumbers.ReservesLeastFree` | commands/temp_vc.go:2295-2330 | Over any run, clashes or not, a spawn reserves the least positive number that no live channel of its hub has and no create in flight of the hub waits for |
| `SpawnNumbers.NextNumberExists` | commands/temp_vc.go:2295-2310 | There is exactly one such number, at most one more than the live channels and the creates in flight |
| `SweepJudgements.InFlightIsUnsettled` | commands/temp_vc.go:1487-1513 | Over any run, a channel is marked in flight if and only if a spawn of it has not settled, or settled during the sweep active now |
| `SweepJudgements.RebuildJudges` | commands/temp_vc.go:1333-1378 | Over any run, a rebuild leaves a channel with a spawn unsettled, or settled during the sweep, as it was; of the others it tracks exactly those whose row was listed and whom the snapshot shows, at the row's place, and queues the row of each listed and not shown for deletion |
| `SweepJudgements.TrackedByItsHistory` | commands/temp_vc.go:1820-1828 | Over any run, a channel is tracked if and only if a spawn created it or a rebuild restored it, and since then neither Discord said it was gone nor a rebuild that judged it missed it; and its row is to go if and only if Discord said so or a rebuild judged it gone |
| `SpawnRecords.SpawnRecord.NextChannelIndexLocked` | commands/temp_vc.go:2295-2310 | The search ends at the least positive number the hub has not in use, within its live channels and reservations plus one |
| `SpawnRecords.SpawnRecord.ReserveChannelIndexLocked` | commands/temp_vc.go:2314-2321 | That number is reserved |
| `SpawnRecords.SpawnRecord.ReleaseChannelIndexLocked` | commands/temp_vc.go:2325-2330 | The reservation alone ends |
| `SpawnRecords.SpawnRecord.CommitSpawn` | commands/temp_vc.go:2075-2090 | The channel is tracked at its place, its reservation ended and its spawn in flight, in one section |
| `SpawnRecords.SpawnRecord.UntrackLocked` | commands/temp_vc.go:1820-1828 | The channel's tracking goes |
| `SpawnRecords.SpawnRecord.SettleSpawn` | commands/temp_vc.go:1502-1513 | A spawn settles at once, or is kept in flight while a sweep is active |
| `SpawnRecords.SpawnRecord.FinishSweep` | commands/temp_vc.go:1487-1495 | The spawns settled meanwhile leave, and no other |
| `SpawnRecords.SpawnRecord.KeepSpawnsInFlightLocked` | commands/temp_vc.go:1444-1481 | The loop keeps the tracked spawns in flight alone, and counts them |
| `SpawnRecords.SpawnRecord.RebuildLocked` | commands/temp_vc.go:1356-1378 | The row loop tracks the spawns in flight and the rows of channels shown, and judges the rest gone |
| `SpawnRecords.Replay` | commands/temp_vc.go:1269-1512 | The sections, called in place as any run calls them, keep the record's fields as the run has them, so the theorems over runs are of the fields |
| `DeleteDelays.WaitsAreOfEmptyChannels` | commands/temp_vc_delay.go:19-97 | Over any run, a wait is of a tracked channel with nobody in it, under an armed timer of its own, due exactly when the hub's delay as it stands now is over |
| `DeleteDelays.PassingTimerIsDue` | commands/temp_vc_delay.go:129-139 | A timer that passes its check finds its channel empty in the record without a break since the wait's start, and the delay as it stands now fully over |
| `DeleteDelays.StaleTimerStaysStale` | commands/temp_vc_delay.go:125-135 | A timer whose wait was cancelled or replaced after the first k events of any run is stale after all of them, and changes nothing whenever it goes off |
| `DelayWaits.EmptyingStartsTheWait` | commands/temp_vc.go:1559-1571 | After any run, a move that leaves nobody in a tracked channel whose hub has a delete delay leaves it a wait from that moment, under an armed timer due when the delay is over; any other leave starts none |
| `DelayWaits.WaitGoesOn` | commands/temp_vc_delay.go:19-97 | Over any run, a wait goes on until a join, an untrack, a sweep or its own timer ends it, from the same moment while nobody the record did not have inside leaves |
| `DelayWaits.ArmedTimersAreTheWaits` | commands/temp_vc_delay.go:58-65 | Over any run, a timer still armed is its channel's own wait's, unless somebody the record did not have inside left the channel while that wait ran, which alone replaces a wait without stopping its timer |
| `DelayWaits.OccupantsAreThoseInside` | commands/temp_vc.go:1559-1571 | Over any run, from any moment on, a tracked channel's occupants are those its moves and evictions since leave inside |
| `DelayWaits.JoinEndsTheWait` | commands/temp_vc.go:1559-1571 | After any run, a member who joins a tracked channel is inside and its wait is over |
| `DelayWaits.LocksAreOfTracked` | commands/temp_vc.go:1820-1828 | Over any run, only tracked channels are locked |
| `DeleteDelays.ReconnectKeepsTheStart` | commands/temp_vc_delay.go:67-87 | A reconnect's sweep of a channel still empty keeps when its wait started |
| `DeleteDelays.ReconnectKeepsTheLock` | commands/temp_vc_lock.go:446-456 | A channel tracked before a sweep keeps the record's lock, whatever its row says |
| `DeleteDelays.RebuildSweeps` | commands/temp_vc.go:1333-1408 | What a rebuild leaves of each channel: a spawn in flight untouched, a row's channel as the snapshot shows it with its lock and wait, any other dropped |
| `DeleteDelayRuntimes.DelayRuntime.DeleteDelayLocked` | commands/temp_vc_delay.go:29-35 | The hub's delay as it is now, 0 when its row is gone |
| `DeleteDelayRuntimes.DelayRuntime.ScheduleDeleteLocked` | commands/temp_vc_delay.go:91-95 | A new wait and timer, due the delay after the channel emptied |
| `DeleteDelayRuntimes.DelayRuntime.StartDeleteWaitLocked` | commands/temp_vc_delay.go:58-65 | A wait from now, or none for a delay of 0 |
| `DeleteDelayRuntimes.DelayRuntime.CancelDeleteWaitLocked` | commands/temp_vc_delay.go:115-123 | The wait and its timer go |
| `DeleteDelayRuntimes.DelayRuntime.HandleMove` | commands/temp_vc.go:1559-1571 | A voice move: the leave may start a wait, the join cancels one |
| `DeleteDelayRuntimes.DelayRuntime.UntrackLocked` | commands/temp_vc.go:1820-1828 | The wait is cancelled and the tracking goes |
| `DeleteDelayRuntimes.DelayRuntime.RetimeDeleteWaitsLocked` | commands/temp_vc_delay.go:103-111 | The loop times exactly the hub's waits again, each from when its channel emptied |
| `DeleteDelayRuntimes.DelayRuntime.ApplyHub` | commands/temp_vc.go:929-934 | A saved delay re-times the hub's waits |
| `DeleteDelayRuntimes.DelayRuntime.RemoveHub` | commands/temp_vc.go:941-949 | A removed hub's waits are re-timed to a delay of 0 |
| `DeleteDelayRuntimes.DelayRuntime.DeleteWaitOver` | commands/temp_vc_delay.go:129-139 | Only the channel's own wait is ended |
| `DeleteDelayRuntimes.DelayRuntime.KeepSpawnsInFlightLocked` | commands/temp_vc.go:1444-1481 | Only the spawns in flight are kept, and the loop stops every other wait's timer |
| `DeleteDelayRuntimes.DelayRuntime.RestoreLockLocked` | commands/temp_vc_lock.go:446-456 | The record's lock for a channel tracked before, else the row's |
| `DeleteDelayRuntimes.DelayRuntime.SweepDeleteWaitLocked` | commands/temp_vc_delay.go:76-87 | A wait kept from its start, started from now, or none for a delay of 0 |
| `DeleteDelayRuntimes.DelayRuntime.RebuildLocked` | commands/temp_vc.go:1333-1408 | The row loop makes the rebuilt record |
| `DeleteDelayRuntimes.DelayRuntime.CommitSpawn` | commands/temp_vc.go:2080-2083 | A spawn's channel is tracked with its creator as its occupant |
| `DeleteDelayRuntimes.DelayRuntime.EvictCreator` | commands/temp_vc.go:2159-2162 | The creator leaves the occupancy before the compensating delete |
| `DeleteDelayRuntimes.DelayRuntime.UntrackDeleted` | commands/temp_vc.go:1929-1932 | A deleted channel's wait and tracking go |
| `DeleteDelayRuntimes.Replay` | commands/temp_vc_delay.go:19-139 | The sections, called in place as any run calls them, keep the record's fields as the run has them, so the theorems over runs are of the fields |
| `FoxholeRuns.ChangeEach` | commands/foxhole_runtime.go:1224-1261 | The loop writes a checkpoint after every member it reaches, each the report that far, and ends done if and only if nobody is left |
| `FoxholeRuns.ReachMember` | commands/foxhole_runtime.go:1233-1256 | One member is named afresh, then skipped for the list's reason or changed as Discord answers |
| `FoxholeRuns.AwaitList` | commands/foxhole_runtime.go:1314-1341 | A Stop pressed by then ends the run, a ready list comes back at once, and otherwise the first of a Stop, the pause's limit and a ready list decides |
| `FoxholeRuns.CheckpointDividesThePlan` | commands/foxhole_runtime.go:1224-1261 | At every checkpoint changed, skipped, failed and not attempted divide the plan, each member once and in the plan's order, after those skipped before the start, and progress counts them |
| `FoxholeRuns.FatesCover` | commands/foxhole_runtime.go:1238-1256 | Each member reached has one fate and is in that fate's list as often as they were reached with it, and in no other |
| `FoxholeRuns.ReachWritesDown` | commands/foxhole_runtime.go:1233-1256 | The member reached is added once, to the end of one list, under the name the list shows now, with the skip's reason or the refusal's words and no other |
| `FoxholeRuns.HoldsReached` | commands/foxhole_runtime.go:675-703 | Over any run of cut-offs, restarts, failed, panicking or late report writes and retries of whichever reports, every stored report's misses name every planned member who is in the server and not yet as the action wants them |
| `FoxholeRuns.RetriesConverge` | commands/foxhole_runtime.go:876-927 | Once any stored report missed nobody, or its retry would change nobody, each member still in the server has exactly the roles one uninterrupted run leaves them, however often runs were cut off or writes failed |
| `FoxholeRuns.UninterruptedReachesTheGoal` | commands/foxhole_runtime.go:1224-1261 | One run that nothing interrupts puts each planned role right and changes no other |
| `FoxholeWholeRuns.WholeRunReachesTheGoal` | commands/foxhole_runtime.go:1224-1280 | A run whose every list is the server's own, with every change accepted, can happen and leaves the server one uninterrupted run leaves; its report's changed are exactly the planned members in the server and not as the action wants them when reached, and each skipped has the reason the server gave: not in it, or already holding, or not holding |
| `FoxholeWholeRuns.RetryWhileSomebodyIsLeft` | commands/foxhole_runtime.go:876-927 | After any run of cut-offs, restarts and retries, a Retry of a stored report over the server's own list starts if and only if no action runs, the report has ended, and some planned member in the server is still not as the action wants them |
| `FoxholeRuns.RunsEnd` | commands/foxhole_runtime.go:1198-1218 | Over any run, an end write that lands ends the stored report as the run's memory has it, one not answered is kept to try again, and the process's run is over |
| `FoxholeRuns.LateEndEnds` | commands/foxhole_runtime.go:1198-1218 | An end written late ends the report as the action left it, unless something ended it before |
| `FoxholeRuns.RestartEndsAll` | commands/foxhole_runtime.go:675-703 | A restart leaves no report running, and each missed and changed exactly whom it had |
| `FoxholeRuns.RetriesStart` | commands/foxhole_runtime.go:876-953 | A Retry stores a report of its own of every member the one retried missed and nobody else, and leaves the other reports as they were |
| `FoxholeRuns.PurgeLeavesNoHolder` | commands/foxhole_runtime.go:768-772 | Once any report of a purge and its retries missed nobody, or its retry would change nobody, the purge has left its scope's roles on no member in the server |
| `FoxholeRuns.PurgePlan` | commands/foxhole_runtime.go:1077-1093 | The loops plan each role's holders, role by role in the scope's order |
| `FoxholeRuns.RetryPlan` | commands/foxhole_runtime.go:945-953 | The loop plans the members missed, in order, under the names the list shows |
| `FoxholeRules.ActionsRunAlone` | commands/foxhole_runtime.go:553-605 | Over any run, a page action never runs beside another page action or a role-changing command |
| `FoxholeRules.ClaimsReleasedOnce` | commands/foxhole_runtime.go:963-1218 | Whatever panics come between the deferred calls of the start and of the run, each claim is given back at most once, by the action that made it, and exactly once when both goroutines are over; no panic leaves the run's |
| `FoxholeRules.ReleasedAfterEndWrite` | commands/foxhole_runtime.go:973-982 | Over any run of errors and panics, an action that wrote a report gives the rule back only after its end write returned or panicked, and with no return if and only if it panicked |
| `FoxholeRules.PanickedEndGivesBack` | commands/foxhole_runtime.go:1198-1218 | A run whose end write panics: the rule is free with the report not ended, and the next action may start |
| `FoxholeRules.GoroutinesEnd` | commands/foxhole_runtime.go:963-1218 | After any run, an action's goroutines have a step to take until they are over and at most eleven in all, whatever errors and panics come |
| `FoxholeRules.PanicsGoTheirWay` | commands/foxhole_runtime.go:963-1218 | Over any run, a panic of an action's start leaves the start, and one of its run stops at the run's recover |
| `FoxholeRules.StopIsTheFirstPressers` | commands/foxhole_runtime.go:564-637 | Over any run, the rule names the running action's report once it is written, and its Stop is the first presser's of that report's |
| `FoxholeRules.TheRuleIsTakenWhenFree` | commands/foxhole_runtime.go:553-605 | After any run, a command may start if and only if no action has the rule, and an action may take it if and only if nothing has it |
| `FoxholeRules.FoxholeRuntime.Claim` | commands/foxhole_runtime.go:553-561 | Taken only when no action and no command has the rule |
| `FoxholeRules.FoxholeRuntime.Started` | commands/foxhole_runtime.go:564-568 | The running action's report is recorded |
| `FoxholeRules.FoxholeRuntime.StartCommand` | commands/foxhole_runtime.go:584-605 | Taken beside other commands, refused while an action runs |
| `FoxholeRules.FoxholeRuntime.EndCommand` | commands/foxhole_runtime.go:600-604 | The command's own hold ends |
| `FoxholeRules.FoxholeRuntime.Stop` | commands/foxhole_runtime.go:625-637 | Only the action running with that report is stopped, and its first presser is kept |
| `FoxholeRules.FoxholeRuntime.Release` | commands/foxhole_runtime.go:654-658 | The rule is free of the action |
| `FoxholeRules.Replay` | commands/foxhole_runtime.go:553-658 | The sections, called in place as any run calls them, keep the rule's fields as the run has them, so the theorems over runs are of the fields |
| `RecorderAllocations.OneRecordingCounts` | commands/recording.go:601-653 | Over any run, two recordings that count share neither channel nor recorder |
| `RecorderAllocations.TakenOnce` | commands/recording.go:459-502 | Over any race of stops, timers, gaps, channel checks and the shutdown, a recording is taken by one ender at most, and its flag says whether it was |
| `RecorderChecks.ChecksEndTheRightOnes` | commands/recording_stops.go:101-141 | Over any run, a check ends a live recording for its recorder if and only if some check of it saw the recorder inside, the recorder is not inside now, and no check of it was told of a new leave of its own in the last 10 s; else for its channel if and only if nobody there is neither a recorder nor a bot; and it lives on otherwise |
| `RecorderChecks.LiveHaveHumans` | commands/recording_stops.go:101-141 | After a check, every recording still live has a human in its channel |
| `RecorderChecks.LiveUntilTaken` | commands/recording.go:459-515 | After any run, a live recording lives on through any event that does not take it, and a member's stop, a timer and the shutdown each take it for their own reason |
| `RecorderChecks.FailedStartsFree` | commands/recording.go:299-400 | After any run, a start that fails after its join leaves, and then its recorder and its channel are free |
| `RecorderChecks.StoppedRecordingsFree` | commands/recording.go:507-533 | After any run, a recording a member, a timer or a check takes leaves, and then its recorder and its channel are free |
| `RecorderChecks.CutShortsFree` | commands/recording_gap.go:104-142 | After any run, a recording its gap's limit cuts short has no gap any more, and its recorder and its channel are free at once |
| `RecorderAllocations.ReleaseFreesItsOwn` | commands/recording.go:689-711 | Freeing a recorder never frees it of another, later recording |
| `RecorderAllocations.CutShortAfterTheLimit` | commands/recording_gap.go:104-116 | A gap's timer cuts its recording short if and only if the recording is live and the gap's start was heard with no end in that recording since; then no ender took it before, and the gap started a limit ago or more |
| `RecorderAllocations.RunningGapIsTimed` | commands/recording_gap.go:75-116 | Over any run, the gap running in a live recording has its limit timer still to run if and only if that timer did not run before the recording counted, and once the limit is over such a timer may run and cuts the recording short |
| `RecorderAllocations.TimerRunsOnce` | commands/recording_gap.go:84-86 | A gap's limit timer that has run does not run again |
| `RecorderAllocations.ToldLateRunsOn` | commands/recording_gap.go:75-116 | A recording starts to receive, its gap is told of once the limit is over, the timer runs, and the recording goes live: the gap runs on with no timer left |
| `RecorderAllocations.EndedGapStaysEnded` | commands/recording_gap.go:75-116 | A gap that has ended, or whose recording a stop has taken, after the first k events of any run is so after all of them, and its timer cuts nothing short whenever it goes off |
| `RecorderRuntimes.ChoiceFits` | commands/recording.go:601-647 | A recorder reserved is free and not out, an offline one only when no online one is free; a channel is refused as recorded if and only if it is; recording is off only when every recorder is out and free; and a refusal for want of a recorder names exactly the channels the busy ones record |
| `RecorderRuntimes.RecordingRuntime.ReserveRecorder` | commands/recording.go:613-647 | The loops refuse a recorded channel first, then reserve the first free online recorder, else the first free offline one, else name the channels recorded |
| `RecorderRuntimes.RecordingRuntime.ReserveLocked` | commands/recording.go:651-653 | The recorder is busy with a recording whose join is about to go out |
| `RecorderRuntimes.RecordingRuntime.Stop` | commands/recording.go:426-464 | The loop finds the recording of the invoker's channel if they may stop it, else one of their own, else refuses, and takes it |
| `RecorderRuntimes.RecordingRuntime.AutoStop` | commands/recording_stops.go:61-71 | A timer takes a recording that counts and that no stop has |
| `RecorderRuntimes.RecordingRuntime.GapStarted` | commands/recording_gap.go:78-87 | The gap runs from the moment told of, unless one runs or a stop has the recording |
| `RecorderRuntimes.RecordingRuntime.GapEnded` | commands/recording_gap.go:90-97 | The gap running ends, unless a stop has the recording |
| `RecorderRuntimes.RecordingRuntime.GapLimitReached` | commands/recording_gap.go:104-116 | The recording is taken and its recorder freed only if that gap still runs in it |
| `RecorderRuntimes.RecordingRuntime.CheckOne` | commands/recording_stops.go:117-140 | One recording judged: seen, left on its own and to be checked again, or with no human |
| `RecorderRuntimes.RecordingRuntime.CheckChannels` | commands/recording_stops.go:101-141 | The loop judges every live recording at one moment and takes exactly those its rule ends, each for its reason, and has checked again just those whose recorder left on its own since |

## Left out

- Write errors in the Ogg writer: a failed track is abandoned, so the stream theorems are of writes that go through.
- OggStreams.RoundTrip: packets over 65,024 bytes break the page's one-byte segment count, and the theorem says exactly that.
- OpusTrackFiles.TrackFile.Place: the class takes the 64-bit granule position and the wall clock as the source does, wrap included; the bounds over runs hold while the clock is far below its width, which `LiveStaysWithin` shows of any recording under 6 hours.
- RecordingRecoveries.SampleTimeRoundTrip: `samplesAt` goes through a float in the source; here it is the exact integer quotient, rounded toward zero.
- RecordingRecoveries.RecordKeeps: the map from speakers to tracks is a value, so opening, failing and closing a file, and the track objects' aliasing, are not modelled.
- OpusTracks.PlacementBound: of runs of up to 2^30 frames and flushes with arrivals within 2^48 samples (some 180 years) of the recording's start, which every recording under the 6-hour cap is; past that the 64-bit clock could wrap.
- The 32-bit FNV hash that gives a track its serial is modelled; nothing rests on its having no collisions.
- MemberLists.CompleteMeansComplete: how discordgo applies a part to its members is not part of this model; the theorem says which guild value each part went to. Counters of 64 bits are unbounded here.
- MemberListTrackers.MemberList.GuildCreated: sending the request, which follows the section, is left out.
- MemberListTrackers.Read: the connection flag beside the list is left out, and of an entry only its user is kept.
- Ownerships.Ownership.ApplyRankRoles: the handovers' row writes and notices are left out.
- Ownerships.Ownership.CarryOut: the row each handover writes is left out.
- PermissionLists.WhoConnects: administrators, who pass every overwrite, are not asked about.
- A join into an already locked channel with no access change in flight: its guest add goes out at once, outside any change, and an unlock may overtake it, so `AccessChanges.AddsAnsweredBeforeEdits` is of let-ins and held joins alone.
- LetIns.LetInEach: what Discord answers is a function of the member, each being asked once; the visibility check itself is discordgo's.
- SpawnSweeps.NoSpawnLost: the occupants and owners a sweep restores are in `DeleteDelays` and `Ownerships`; the two records are proved apart.
- SpawnSweeps.NumbersAreDistinct: numbers of channels whose hub row is gone are not promised distinct, and a sweep that lists clashing rows is shown to break the promise exactly then.
- DeleteDelays.PassingTimerIsDue: said at the token check; the source drops the mutex before the guarded delete, which checks again.
- SpawnRecords.SpawnRecord.CommitSpawn: the occupant and owner set in the same section are in `DeleteDelayRuntimes` and `Ownerships`, the records being proved apart.
- SpawnRecords.SpawnRecord.UntrackLocked: the wait, occupants, lock and owner that go with it are in `DeleteDelayRuntimes` and `Ownerships`; renames are left out.
- SpawnRecords.SpawnRecord.KeepSpawnsInFlightLocked: the other maps kept are in `DeleteDelayRuntimes`, and the owners are left out.
- DeleteDelayRuntimes.DelayRuntime.UntrackLocked: owners, numbers and renames are left out, numbers being in `SpawnRecords`.
- DeleteDelayRuntimes.DelayRuntime.RebuildLocked: owners, numbers, handovers and guest adds of the row loop are left out, numbers being in `SpawnRecords`.
- DeleteDelayRuntimes.DelayRuntime.ApplyHub: hubs are keyed by their row ID; a hub channel registered again under another row without its removal is not modelled.
- DeleteDelayRuntimes.DelayRuntime.RemoveHub: hubs are keyed by their row ID here too.
- FoxholeRuns.ChangeEach: what is read and answered comes from a function of the turn, each reading as `AwaitList` gives it; the records' name refresh and clearing an approval at a removal are left out.
- FoxholeRuns.ReachMember: the records' name refresh and clearing an approval at a removal are left out.
- FoxholeRuns.PurgePlan: the order within a role is the list's, where the source sorts by display name; the plans of the other actions are left out, and the theorems about runs are of any plan.
- FoxholeRuns.RetriesConverge: of a purge, a re-add and a roster add with no other action on the same roles in between.
- RecorderRuntimes.RecordingRuntime.Stop: which of several recordings the invoker started is taken depends on map order in the source, and any of them fits here.
- FoxholeRules.ReleasedAfterEndWrite: an end write that returns may have failed for good, and then goes on in the background, which `FoxholeRuns` has.
- Discord's REST and gateway plumbing, discordgo's locking, the store, the voice adapter, ffmpeg, disk space, file deletion, slash command handlers, reply texts, notices, telemetry and the panel: foreign calls and text, which appear only as answers and snapshots.
- Report commands, renames, knock channels, message truncation and CustomID parsing: they would only add easier members.
