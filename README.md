# OOGMediaPlayer playback engine, modelled in Dafny

This project models the core of OOGMediaPlayer, an iOS background-music player.

- **Playback control (`Control`, `Navigation`).** `MediaPlayerControl` keeps a two-level play list: albums, each holding tracks. It keeps a cursor (`currentIndexPath`), a loop mode (`none`, `order`, `album`, `single`, `shuffle`), a shuffle hint, a play history and a player status.
  - It answers "which slot comes next / before" for each loop mode, over the list of *valid* slots. A slot is valid when its track is not paid.
  - It corrects the cursor and the hint when albums are inserted, removed or replaced.
  - It runs the `toPlay` flow: an optional stop, the delegate's `shouldPlay` answer, preparing the track, a check that no later request took over, then history and `play()`.
- **Local playback (`Local`).** `LocalAudioPlayerProvider` adds an audio engine.
  - It keeps a queue of tracks whose files are being fetched, and broadcasts per-track statuses to every track sharing an id.
  - It prepares a track in two halves around the awaited file lookup.
  - `play()` may fade the volume in.
- **Tracks (`Audio`).**
  - `AudioModel` carries status observers and download-progress observers. Each observer answers whether it stays registered.
  - `getLocalFileUrl` resolves a track's file: a valid cache entry, or a download that is written to the cache and indexed by URL.
  - The download loop reports progress through a throttle (`Download`).
- **Settings and the provider (`Settings`, `Provider`).** These are the player's saved settings: favourites, loop designations and the storage key. `OOGAudioPlayerProvider` applies them:
  - it syncs the settings;
  - it chooses where to resume;
  - it switches into a designated loop;
  - it sets the cache flag on every track.
- **Conversions and file paths (`Conversion`, `FileItems`, `BgmFilePath`, `Oog106FilePath`, `ApiDefines`, `BgmPlanType`, `Downloadable`).**
  - The API's album DTO becomes a database entity, and the entity becomes the player's album model.
  - The cache file locations.
  - The API lookup tables.

## How the model is organised

Modelling choices:
- Classes whose fields the core updates stay classes, and those fields are updated in place: the control, both providers, the tracks (`AudioModel`), the settings, the download request and the file store.
- `AudioAlbumModel` is a Swift class, but the core never updates an album after building it, so it is a value (`datatype`) here. Its tracks are still shared objects.
- `MediaPlayerControl.swift` and `MediaPlayerControl+IndexPath.swift` hold the same navigation and lookup code. It is modelled once, and the rows below cite whichever file holds the function in question.
- Swift inheritance becomes composition: a `LocalAudioPlayerProvider` holds its `MediaPlayerControl` as `control`, and an `OOGAudioPlayerProvider` holds its local player as `local`.
- Each overridden method is modelled at the level that overrides it.
- Work that the source sends to the main queue is modelled as if it ran at once, in program order.

Outside inputs:
- An awaited asynchronous step is split into the method that runs up to the `await` and the method that resumes after it. The awaited answer is an input.
- Randomness (`Int.random`) is an input `roll`, reduced into range.
- The file system, the `UserDefaults` cache index and the network are inputs or a `FileStore` object.

Behaviours of the source that the model keeps as they are written:
- `insert(section:_:)` moves the cursor only when it lies strictly after the insertion point, so a cursor in the album at that point ends up naming a track of the inserted album. The shuffle hint, by contrast, moves for `>=`. This is stated by `Control.CursorAtInsertionPointStays`.
- `LocalAudioPlayerProvider.stop()` drops the cursor. `toPlay` calls it before asking the delegate, so the delegate is always asked with `current == nil`. This is stated by `Local.LocalAudioPlayerProvider.ToPlay`.
- `play()` while the engine is already playing tells every copy of the current track (each track sharing its `resId`) `error`, and changes nothing else.
- In album loop, `resumePlay` resumes at the last played track when it lies in the designated album, even when that track is not valid. This is stated by `Provider.ResumeTargetInList`.
- `playDesignatedLoopSongIfNeeds` compares the current track's `resId` with the designated song id.
- Neither album conversion copies a song's `id`, so converted tracks have `id` 0. Favourites and loop designations are keyed on `id`; lookups by position are keyed on `resId`.
- `removeDownloadProgressObserver` removes the entry keyed by the track itself, not the observer passed in.
- `getPreviousIndexPath` in mode `none` wraps from the first valid slot to the last, as `order` does.
- The `.all` play-type parameters keep only the first component's value, because all three components use the same key.

## Model

| member | source | states |
|---|---|---|
| Navigation.AlbumAt | OOGMediaPlayer/Sources/Core/MediaPlayerControl.swift:421-426 | an album exactly for a section inside the list, and it is that album |
| Navigation.IsValidIndexPath | OOGMediaPlayer/Sources/Core/MediaPlayerControl+IndexPath.swift:147-156 | a slot is in range when its section is inside the list and its row inside that album; `MediaAt` answers exactly for these slots |
| Navigation.IsValidMedia | OOGMediaPlayer/Sources/Core/MediaPlayerControl.swift:638-641 | a slot holds a valid track when it is in range and its track is not paid; `ValidListFacts` proves the valid list holds exactly these slots |
| Navigation.IsExistsValidMedia | OOGMediaPlayer/Sources/Core/MediaPlayerControl.swift:449-451 | some album holds a valid track; `ExistsIffNonEmpty` proves this is the same as a non-empty valid list |
| Navigation.MediaAt | OOGMediaPlayer/Sources/Core/MediaPlayerControl.swift:428-446 | a track exactly for a position inside the list (section and row in range), and it is the track at that slot |
| Navigation.IsLastIndexPathInItems | OOGMediaPlayer/Sources/Core/MediaPlayerControl.swift:454-465 | true exactly when there is a cursor and it is the last row of the last album; the argument plays no part |
| Navigation.ValidRowsFacts | OOGMediaPlayer/Sources/Core/MediaPlayerControl.swift:634-643 | the valid rows of an album prefix are exactly its valid slots, in strictly increasing row order |
| Navigation.ValidAtFacts | OOGMediaPlayer/Sources/Core/MediaPlayerControl.swift:634-643 | `getValidMediaIndexPaths(at:)` holds exactly the valid slots of that album, sorted, and nothing for a section outside the list |
| Navigation.ValidMediaIndexPathsAt | OOGMediaPlayer/Sources/Core/MediaPlayerControl+IndexPath.swift:215-224 | one album's valid slots in row order, and none for a section outside the list; characterised by `ValidAtFacts` |
| Navigation.ValidMediaIndexPaths | OOGMediaPlayer/Sources/Core/MediaPlayerControl+IndexPath.swift:206-213 | the per-album lists joined in section order; `ValidListFacts` proves it is exactly the valid slots, sorted |
| Navigation.SortedConcat | OOGMediaPlayer/Sources/Core/MediaPlayerControl.swift:625-630 | joining two sorted lists, each entirely before the other, stays sorted |
| Navigation.ValidPrefixFacts | OOGMediaPlayer/Sources/Core/MediaPlayerControl.swift:625-630 | the valid slots of the first n albums are exactly the valid slots with section below n, sorted by (section, row) |
| Navigation.ValidPrefixSound | OOGMediaPlayer/Sources/Core/MediaPlayerControl.swift:625-630 | every slot listed for the first n albums is valid and has section below n |
| Navigation.ValidPrefixComplete | OOGMediaPlayer/Sources/Core/MediaPlayerControl.swift:625-630 | every valid slot with section below n is listed |
| Navigation.ValidPrefixMember | OOGMediaPlayer/Sources/Core/MediaPlayerControl.swift:625-630 | a slot is listed for the first n albums exactly when it is valid with section below n |
| Navigation.ValidListFacts | OOGMediaPlayer/Sources/Core/MediaPlayerControl.swift:625-630 | `getValidMediaIndexPaths()` holds exactly the valid slots, each inside the list, strictly sorted by (section, row) |
| Navigation.ExistsIffNonEmpty | OOGMediaPlayer/Sources/Core/MediaPlayerControl.swift:449-451 | `isExistsValidMedia` holds exactly when the valid-slot list is non-empty |
| Navigation.FirstIndexOf | OOGMediaPlayer/Sources/Core/MediaPlayerControl.swift:533 | `firstIndex(of:)`: a found index holds the position and no earlier index does; nil exactly when it is absent |
| Navigation.IndexOrZero | OOGMediaPlayer/Sources/Core/MediaPlayerControl.swift:533 | the answer is 0 or an index inside the list, so it can always be stepped from |
| Navigation.StepForward | OOGMediaPlayer/Sources/Core/MediaPlayerControl+IndexPath.swift:122-128 | the step always lands on a member of the list; with wrap-around a non-empty list always gives a step; without it the step is nil exactly from the last index |
| Navigation.StepBackward | OOGMediaPlayer/Sources/Core/MediaPlayerControl+IndexPath.swift:58-64 | the step always lands on a member of the list, and is nil exactly for an empty list |
| Navigation.SortedIndex | OOGMediaPlayer/Sources/Core/MediaPlayerControl.swift:533 | in a strictly sorted list each entry is found at its own index |
| Navigation.ForwardThenBack | OOGMediaPlayer/Sources/Core/MediaPlayerControl.swift:529-538 | in a sorted list with wrap-around, a step back after a step forward returns to the start |
| Navigation.BackThenForward | OOGMediaPlayer/Sources/Core/MediaPlayerControl.swift:588-597 | in a sorted list with wrap-around, a step forward after a step back returns to the start |
| Navigation.StepRoundTrip | OOGMediaPlayer/Sources/Core/MediaPlayerControl.swift:529-597 | both round trips, for any member of a sorted list |
| Navigation.RandomValid | OOGMediaPlayer/Sources/Core/MediaPlayerControl+IndexPath.swift:194-204 | the pick is nil exactly when the valid list is empty, and otherwise a member of it |
| Navigation.GetNext | OOGMediaPlayer/Sources/Core/MediaPlayerControl+IndexPath.swift:83-141 | nil when no track is valid; otherwise a valid slot, except that single mode repeats the cursor and shuffle takes the preset hint; always some slot without a cursor and in single, order and shuffle modes |
| Navigation.GetPrevious | OOGMediaPlayer/Sources/Core/MediaPlayerControl+IndexPath.swift:20-76 | nil when no track is valid; otherwise a valid slot, except that single mode repeats the cursor; only album mode can find nothing while a valid track exists |
| Navigation.RandomValidFacts | OOGMediaPlayer/Sources/Core/MediaPlayerControl.swift:613-622 | the random pick is a valid slot, and it is nil exactly when no valid slot exists |
| Navigation.RandomValidReachesAll | OOGMediaPlayer/Sources/Core/MediaPlayerControl.swift:613-622 | every valid slot can be drawn by some roll |
| Navigation.NoValidMediaStops | OOGMediaPlayer/Sources/Core/MediaPlayerControl.swift:494-499 | with no valid track both directions give nil, whatever the mode and cursor |
| Navigation.NoCursorStartsAtFirst | OOGMediaPlayer/Sources/Core/MediaPlayerControl.swift:501-504 | with no cursor both directions give the first valid slot |
| Navigation.SingleRepeats | OOGMediaPlayer/Sources/Core/MediaPlayerControl.swift:507-509 | `single` returns the cursor in both directions while a valid track exists |
| Navigation.OrderWraps | OOGMediaPlayer/Sources/Core/MediaPlayerControl.swift:588-597 | `order` never stops while a valid track exists; it lands on valid slots and wraps last to first going forward and first to last going back |
| Navigation.NoLoopStopsAtEnd | OOGMediaPlayer/Sources/Core/MediaPlayerControl.swift:599-607 | `none` going forward is nil exactly at the last valid slot; going back it still wraps to the last |
| Navigation.AlbumStaysInSection | OOGMediaPlayer/Sources/Core/MediaPlayerControl.swift:574-586 | `album` lands on a valid slot of the cursor's album, is nil exactly when that album has none, and wraps inside the album |
| Navigation.OrderRoundTrip | OOGMediaPlayer/Sources/Core/MediaPlayerControl.swift:529-597 | in `order`, next then previous (and previous then next) returns to a valid cursor |
| Navigation.AlbumRoundTrip | OOGMediaPlayer/Sources/Core/MediaPlayerControl.swift:515-586 | in `album`, next then previous (and the reverse) returns to a valid cursor inside its album |
| Navigation.AbsentCursorCountsAsFirst | OOGMediaPlayer/Sources/Core/MediaPlayerControl.swift:591-597 | a cursor missing from the valid list counts as index 0: `order` moves to the second valid slot, or to the first when there is only one |
| Navigation.ShuffleUsesHint | OOGMediaPlayer/Sources/Core/MediaPlayerControl.swift:570-572 | `shuffle` forward takes the preset hint when there is one, otherwise a random valid slot |
| Navigation.FirstRow | OOGMediaPlayer/Sources/Core/MediaPlayerControl.swift:475 | the first row whose track has the id; nil exactly when no row has it |
| Navigation.FirstPositionFrom | OOGMediaPlayer/Sources/Core/MediaPlayerControl.swift:473-480 | a found position holds the id and lies in an album at or after the start, no earlier album holds the id, and nil means no album from the start holds it |
| Navigation.FirstPositionFacts | OOGMediaPlayer/Sources/Core/MediaPlayerControl.swift:473-480 | `indexPathOf(mediaID:)` is the first slot with the id in (section, row) order, nil exactly when no track has the id |
| Navigation.FirstPositionOf | OOGMediaPlayer/Sources/Core/MediaPlayerControl.swift:473-480 | the slot `indexPathOf(mediaID:)` answers; `FirstPositionFacts` proves it is the first slot with the id in (section, row) order, nil exactly when no track has it |
| Navigation.PositionsUpToFacts | OOGMediaPlayer/Sources/Core/MediaPlayerControl.swift:483-491 | over the first n albums, one entry per album holding the id, at that album's first such row, in section order |
| Navigation.PositionsUpToSections | OOGMediaPlayer/Sources/Core/MediaPlayerControl.swift:483-491 | the positions found over the first n albums have sections below n, strictly increasing |
| Navigation.PositionsUpToMember | OOGMediaPlayer/Sources/Core/MediaPlayerControl.swift:483-491 | a slot is found exactly when its album is among the first n and it is that album's first row holding the id |
| Navigation.PositionListFacts | OOGMediaPlayer/Sources/Core/MediaPlayerControl.swift:483-491 | `indexPathListOf(mediaId:)` lists, for each album holding the id, its first row with it, sorted by section |
| Navigation.PositionListOf | OOGMediaPlayer/Sources/Core/MediaPlayerControl.swift:483-491 | the list `indexPathListOf(mediaId:)` answers; `PositionListFacts` and `PositionListStartsWithFirst` prove it holds one first-row entry per album with the id, sorted by section, headed by `FirstPositionOf` |
| Navigation.PositionListStartsWithFirst | OOGMediaPlayer/Sources/Core/MediaPlayerControl.swift:473-491 | the list is empty exactly when `indexPathOf` is nil, and otherwise starts with it |
| Control.DelegateChoice | OOGMediaPlayer/Sources/Core/MediaPlayerControl.swift:334-337 | without a delegate the request itself, otherwise exactly the delegate's answer |
| Control.ResIdOf | OOGMediaPlayer/Sources/Core/MediaPlayerControl.swift:366 | the `resId` of an optional track, nil for no track; the superseded check compares these |
| Control.CursorAfterInsert | OOGMediaPlayer/Sources/Core/MediaPlayerControl.swift:224-231 | the cursor moves one album down only when its section is strictly after the insertion point; `CursorInsertKeepsTrack` and `CursorAtInsertionPointStays` state what it then names |
| Control.HintAfterInsert | OOGMediaPlayer/Sources/Core/MediaPlayerControl.swift:233-236 | the hint moves one album down when its section is at or after the insertion point; `HintInsertKeepsTrack` proves it still names its track |
| Control.CursorAfterRemove | OOGMediaPlayer/Sources/Core/MediaPlayerControl.swift:247-254 | the cursor moves one album up only when its section is after the removed one; `RemoveKeepsTracks` proves it still names its track unless it was in the removed album |
| Control.HintAfterRemove | OOGMediaPlayer/Sources/Core/MediaPlayerControl.swift:256-264 | a hint in the removed album is dropped and one after it moves up; `RemoveKeepsTracks` covers it |
| Control.HintAfterReload | OOGMediaPlayer/Sources/Core/MediaPlayerControl.swift:206-213 | a hint in the reloaded album is dropped, one after it is redrawn at random; `ReloadHintFacts` states when it survives |
| Control.InsertAlbum | OOGMediaPlayer/Sources/Core/MediaPlayerControl.swift:238 | one album longer; albums before k are unchanged, the new album is at k, later ones shift down one |
| Control.RemoveAlbum | OOGMediaPlayer/Sources/Core/MediaPlayerControl.swift:266 | one album shorter; albums before k are unchanged, later ones shift up one |
| Control.HintInsertKeepsTrack | OOGMediaPlayer/Sources/Core/MediaPlayerControl.swift:233-238 | after an insertion the corrected shuffle hint names the same track as before |
| Control.CursorInsertKeepsTrack | OOGMediaPlayer/Sources/Core/MediaPlayerControl.swift:224-238 | after an insertion the cursor names the same track, unless it was in the album at the insertion point |
| Control.CursorAtInsertionPointStays | OOGMediaPlayer/Sources/Core/MediaPlayerControl.swift:224-238 | a cursor in the album at the insertion point is not moved and then names a slot of the inserted album |
| Control.RemoveKeepsTracks | OOGMediaPlayer/Sources/Core/MediaPlayerControl.swift:247-266 | after a removal the cursor and the hint name their old tracks, unless they were in the removed album; a hint there is dropped |
| Control.ReloadHintFacts | OOGMediaPlayer/Sources/Core/MediaPlayerControl.swift:206-215 | replacing album k keeps a hint before k, drops one inside k, and redraws one after k among the valid slots of the old list |
| Control.MediaPlayerControl.constructor | OOGMediaPlayer/Sources/Core/MediaPlayerControl.swift:116-142 | the declared defaults: enabled, stopped, `order` mode, next direction, no cursor, hint, history or items |
| Control.MediaPlayerControl.CurrentItem | OOGMediaPlayer/Sources/Core/MediaPlayerControl.swift:162-168 | a track exactly when there is a cursor inside the list, and it is the track under the cursor |
| Control.MediaPlayerControl.GetHistoryLastItem | OOGMediaPlayer/Sources/Core/MediaPlayerControl.swift:157-159 | a track exactly when the history is non-empty, and it is the latest entry's track |
| Control.MediaPlayerControl.IsSuperseded | OOGMediaPlayer/Sources/Core/MediaPlayerControl.swift:366-370 | a later request took over when the cursor's track id differs from the id at the prepared slot; `AlreadyToPlay` goes on exactly when it does not |
| Control.MediaPlayerControl.IndexPathOf | OOGMediaPlayer/Sources/Core/MediaPlayerControl.swift:473-480 | the scanning loop returns the first slot with the id in (section, row) order |
| Control.MediaPlayerControl.IndexPathListOf | OOGMediaPlayer/Sources/Core/MediaPlayerControl.swift:483-491 | the scanning loop returns one entry per album holding the id, its first row with it |
| Control.MediaPlayerControl.ResetCurrentIndexBy | OOGMediaPlayer/Sources/Core/MediaPlayerControl.swift:152-154 | the cursor becomes the first slot holding the track's `resId`, or nil |
| Control.MediaPlayerControl.ReloadData | OOGMediaPlayer/Sources/Core/MediaPlayerControl.swift:179-198 | history cleared, items replaced, a present hint redrawn from the new list, and the cursor relocated to the first slot of the track it named, or left as it was when it named none |
| Control.MediaPlayerControl.Reload | OOGMediaPlayer/Sources/Core/MediaPlayerControl.swift:201-216 | a section outside the list changes nothing; otherwise the album is replaced, the hint corrected as `ReloadHintFacts` states and the cursor left alone |
| Control.MediaPlayerControl.Insert | OOGMediaPlayer/Sources/Core/MediaPlayerControl.swift:219-239 | a section past the end changes nothing; otherwise the album is inserted, the cursor moved down when strictly after it and the hint when at or after it |
| Control.MediaPlayerControl.Remove | OOGMediaPlayer/Sources/Core/MediaPlayerControl.swift:242-267 | a section outside the list changes nothing; otherwise the album is removed, the cursor moved up when after it, the hint dropped when in it and moved up when after it |
| Control.MediaPlayerControl.PresetNextIndexPathForShuffleLoop | OOGMediaPlayer/Sources/Core/MediaPlayerControl.swift:270-272 | the hint becomes the given slot |
| Control.MediaPlayerControl.PresetRandomNextIndexPathForShuffleLoop | OOGMediaPlayer/Sources/Core/MediaPlayerControl.swift:275-278 | the hint and the answer are the random draw, a valid slot, nil exactly when none exists |
| Control.MediaPlayerControl.UpdateNextIndexPathForShuffleLoop | OOGMediaPlayer/Sources/Core/MediaPlayerControl.swift:281-286 | the hint becomes the argument |
| Control.MediaPlayerControl.SetStatus | OOGMediaPlayer/Sources/Core/MediaPlayerControl.swift:411-416 | the status becomes the argument |
| Control.MediaPlayerControl.PlayError | OOGMediaPlayer/Sources/Core/MediaPlayerControl.swift:400-407 | the status becomes `error` exactly when the failing slot is the cursor; the delegate, when present, receives the report |
| Control.MediaPlayerControl.PrepareToPlayItem | OOGMediaPlayer/Sources/Core/MediaPlayerControl.swift:384-386 | the status becomes `prepareToPlay` |
| Control.MediaPlayerControl.Play | OOGMediaPlayer/Sources/Core/MediaPlayerControl.swift:388-390 | the status becomes `playing` |
| Control.MediaPlayerControl.Pause | OOGMediaPlayer/Sources/Core/MediaPlayerControl.swift:392-394 | the status becomes `paused` |
| Control.MediaPlayerControl.Stop | OOGMediaPlayer/Sources/Core/MediaPlayerControl.swift:396-398 | the status becomes `stoped` |
| Control.MediaPlayerControl.BeginPlayNext | OOGMediaPlayer/Sources/Core/MediaPlayerControl.swift:289-297 | direction `next`; the target is `getNextMediaIndexPath`; without one `noInvalidItem` is reported at no slot, otherwise the hint is dropped |
| Control.MediaPlayerControl.BeginPlayPrevious | OOGMediaPlayer/Sources/Core/MediaPlayerControl.swift:302-308 | direction `previous`; the target is `getPreviousIndexPath`; without one `noInvalidItem` is reported; the hint is kept |
| Control.MediaPlayerControl.ResolveTarget | OOGMediaPlayer/Sources/Core/MediaPlayerControl.swift:334-344 | the answer is the delegate's choice; the cursor moves to it, or `noInvalidItem` is reported at no slot when there is none |
| Control.MediaPlayerControl.ToPlay | OOGMediaPlayer/Sources/Core/MediaPlayerControl.swift:319-344 | disabled: `isNotEnable` at the request and nothing else; enabled: stop when a cursor exists, then the delegate is asked with the old cursor and its answer becomes the cursor |
| Control.MediaPlayerControl.PlayNext | OOGMediaPlayer/Sources/Core/MediaPlayerControl.swift:289-347 | direction `next`. No next slot: `noInvalidItem` at no slot, with cursor, hint and status unchanged. Disabled: the hint is dropped and `isNotEnable` is reported at the slot, which sets `error` when it is the cursor. Otherwise the hint is dropped, a cursor means status `stoped`, and the delegate's answer becomes the cursor or `noInvalidItem` is reported |
| Control.MediaPlayerControl.PlayPrevious | OOGMediaPlayer/Sources/Core/MediaPlayerControl.swift:302-347 | direction `previous`, the hint kept. No previous slot: `noInvalidItem` at no slot with nothing else changed. Disabled: `isNotEnable` at the slot. Otherwise a cursor means status `stoped`, and the delegate's answer becomes the cursor or `noInvalidItem` is reported |
| Control.MediaPlayerControl.PlayAt | OOGMediaPlayer/Sources/Core/MediaPlayerControl.swift:313-316 | direction `specified`; the requested slot goes to `toPlay` whatever the loop mode |
| Control.MediaPlayerControl.AlreadyToPlay | OOGMediaPlayer/Sources/Core/MediaPlayerControl.swift:363-380 | goes on exactly when the cursor's track id equals the id at the prepared slot, and then logs that track in the history when it exists |
| Control.MediaPlayerControl.RunPlayTask | OOGMediaPlayer/Sources/Core/MediaPlayerControl.swift:349-358 | prepare, then play exactly when no later request took over; the status ends `playing` or stays `prepareToPlay` |
| Local.FadeDecision | OOGMediaPlayer/Sources/Core/LocalAudioPlayerProvider.swift:212-232 | `none` never fades in, `each` always does, `once` only while the faded flag is clear |
| Local.Ramps | OOGMediaPlayer/Sources/Core/LocalAudioPlayerProvider.swift:212-232 | whether `play()` starts from silence and fades in; `FadeDecision` proves `none` never does, `each` always does and `once` only while the faded flag is clear |
| Local.FlattenSlots | OOGMediaPlayer/Sources/Core/LocalAudioPlayerProvider.swift:270 | the flattened track list holds the track of every slot and nothing else |
| Local.WithId | OOGMediaPlayer/Sources/Core/LocalAudioPlayerProvider.swift:270 | the filtered list keeps exactly the tracks with the id, in order |
| Local.WithoutId | OOGMediaPlayer/Sources/Core/LocalAudioPlayerProvider.swift:128 | no track with the id remains, and every other track does |
| Local.WithoutIdDistributes | OOGMediaPlayer/Sources/Core/LocalAudioPlayerProvider.swift:128 | removal works piecewise over a concatenation, so the kept tracks keep their order |
| Local.WithoutAbsentId | OOGMediaPlayer/Sources/Core/LocalAudioPlayerProvider.swift:128 | removing an id no track has leaves the queue unchanged |
| Local.ContainsId | OOGMediaPlayer/Sources/Core/LocalAudioPlayerProvider.swift:120 | true exactly when some queued track has the id |
| Local.LocalAudioPlayerProvider.constructor | OOGMediaPlayer/Sources/Core/LocalAudioPlayerProvider.swift:82-113 | the declared defaults: no engine, no fading, not faded, volume 1, empty queue, over a default control |
| Local.LocalAudioPlayerProvider.IsIndexPathInPreparingQueue | OOGMediaPlayer/Sources/Core/LocalAudioPlayerProvider.swift:116-121 | true exactly when the slot holds a track whose id is queued |
| Local.LocalAudioPlayerProvider.AppendToPreparingQueue | OOGMediaPlayer/Sources/Core/LocalAudioPlayerProvider.swift:123-125 | the track is appended to the queue |
| Local.LocalAudioPlayerProvider.RemoveFromPreparingQueue | OOGMediaPlayer/Sources/Core/LocalAudioPlayerProvider.swift:127-129 | every queued track with the id is removed |
| Local.LocalAudioPlayerProvider.ResetFadedFlag | OOGMediaPlayer/Sources/Core/LocalAudioPlayerProvider.swift:90-92 | the faded flag is cleared |
| Local.LocalAudioPlayerProvider.SetItemStatus | OOGMediaPlayer/Sources/Core/LocalAudioPlayerProvider.swift:276-289 | every track sharing the item's id is told the status (its observers notified), and no other track changes |
| Local.LocalAudioPlayerProvider.SetCurrentItemStatus | OOGMediaPlayer/Sources/Core/LocalAudioPlayerProvider.swift:264-274 | without a current track nothing changes; otherwise the tracks sharing its id end as if told once, the repeats changing nothing further |
| Local.LocalAudioPlayerProvider.Stop | OOGMediaPlayer/Sources/Core/LocalAudioPlayerProvider.swift:254-259 | status `stoped`, engine stopped, the old current track's copies told `stoped`, cursor dropped |
| Local.LocalAudioPlayerProvider.Pause | OOGMediaPlayer/Sources/Core/LocalAudioPlayerProvider.swift:192-196 | status `paused`, engine paused, the current track's copies told `paused` |
| Local.LocalAudioPlayerProvider.Play | OOGMediaPlayer/Sources/Core/LocalAudioPlayerProvider.swift:199-251 | already playing: the current track's copies, every track sharing its `resId`, are told `error` and nothing else changes; otherwise status `playing`, the track told `playing`, the engine plays, the fade-in follows the mode and the faded flag is set |
| Local.LocalAudioPlayerProvider.ToPlay | OOGMediaPlayer/Sources/Core/LocalAudioPlayerProvider.swift:131-133 | as the control's `toPlay`, except that the stop drops the cursor, so the delegate is asked with no current slot |
| Local.LocalAudioPlayerProvider.PlayNext | OOGMediaPlayer/Sources/Core/MediaPlayerControl.swift:289-347 | `playNext` with this class's stop. No next slot: `noInvalidItem`, nothing else changes. Disabled: `isNotEnable` at the slot, tracks untouched. Otherwise the current tracks are told `stoped`, the cursor is dropped, and the delegate's answer (asked with no cursor) becomes the cursor or `noInvalidItem` is reported with no cursor left |
| Local.LocalAudioPlayerProvider.PlayPrevious | OOGMediaPlayer/Sources/Core/MediaPlayerControl.swift:302-347 | `playPrevious` with this class's stop: the same three outcomes as `PlayNext`, over the previous slot and keeping the hint |
| Local.LocalAudioPlayerProvider.PlayAt | OOGMediaPlayer/Sources/Core/MediaPlayerControl.swift:313-316 | `play(indexPath:)` with this class's stop: the delegate's choice for the slot becomes the cursor |
| Local.LocalAudioPlayerProvider.AudioPlayerDidFinishPlaying | OOGMediaPlayer/Sources/Core/LocalAudioPlayerProvider.swift:294-297 | status `finished`, then `playNext`'s three outcomes; `finished` stays unless the disabled path marks the cursor `error` or the stop marks it `stoped` |
| Local.LocalAudioPlayerProvider.AudioPlayerDecodeErrorDidOccur | OOGMediaPlayer/Sources/Core/LocalAudioPlayerProvider.swift:299-302 | status `error` |
| Local.LocalAudioPlayerProvider.PlayTaskStart | OOGMediaPlayer/Sources/Core/LocalAudioPlayerProvider.swift:136-158 | `currentItemIsNil` without a current track, `alreadyBeenPreparing` (tracks told `stoped`) when queued, else the track is queued and told `downloading`; a failure reaches `playError` |
| Local.LocalAudioPlayerProvider.PlayTaskFinish | OOGMediaPlayer/Sources/Core/LocalAudioPlayerProvider.swift:158-190 | plays exactly when the resumed preparation passes; then the track is told `prepareToPlay` then `playing`, logged in the history, and the engine plays; otherwise the error reaches `playError` |
| Local.LocalAudioPlayerProvider.PrepareStart | OOGMediaPlayer/Sources/Core/LocalAudioPlayerProvider.swift:136-155 | status `prepareToPlay`, then the three guard outcomes with their queue and track statuses |
| Local.LocalAudioPlayerProvider.PrepareResume | OOGMediaPlayer/Sources/Core/LocalAudioPlayerProvider.swift:158-189 | a lookup error passes through with nothing changed; otherwise the track leaves the queue, is told `prepareToPlay`, and the checks follow with their outcome, statuses and engine |
| Local.LocalAudioPlayerProvider.CheckPrepared | OOGMediaPlayer/Sources/Core/LocalAudioPlayerProvider.swift:165-189 | superseded: told `stoped`, `operationExpired`; a non-file URL: told `error`, `fileUrlInvalid`; a load failure passes through with no status; otherwise an engine is created, and a failed `prepareToPlay` tells `error` |
| Local.LocalAudioPlayerProvider.AlreadyToPlay | OOGMediaPlayer/Sources/Core/MediaPlayerControl.swift:363-380 | goes on exactly when no later request took over; then the history entry is logged and this class's `play()` runs with its two outcomes; otherwise nothing changes |
| Audio.Surviving | OOGMediaPlayer/Sources/OOGAudioPlayer/DataModel/AudioModel.swift:61-67 | exactly the observers that answer true stay, each under its key with its own closure |
| Audio.SurvivingIdempotent | OOGMediaPlayer/Sources/OOGAudioPlayer/DataModel/AudioModel.swift:61-67 | notifying the same value twice keeps the same observers as once |
| Audio.SurvivingWithout | OOGMediaPlayer/Sources/OOGAudioPlayer/DataModel/AudioModel.swift:54-67 | unregistering an observer and notifying the others commute |
| Audio.Notify | OOGMediaPlayer/Sources/OOGAudioPlayer/DataModel/AudioModel.swift:59-68 | the last status told is stored, observers only leave, and no other field changes |
| Audio.NotifyAppend | OOGMediaPlayer/Sources/OOGAudioPlayer/DataModel/AudioModel.swift:59-68 | telling one status list then another is telling their concatenation |
| Audio.NotifyRepeat | OOGMediaPlayer/Sources/OOGAudioPlayer/DataModel/AudioModel.swift:59-68 | telling the same status twice in a row equals telling it once |
| Audio.AudioModel.constructor | OOGMediaPlayer/Sources/OOGAudioPlayer/DataModel/AudioModel.swift:12-48 | the metadata as given; status idle, cache on, no observers, nothing downloaded |
| Audio.AudioModel.IsValid | OOGMediaPlayer/Sources/OOGAudioPlayer/DataModel/AudioModel.swift:111-113 | a track is valid exactly when it is not paid; `Conversion.DtoValidity` ties this to the API code |
| Audio.AudioModel.CacheHit | OOGMediaPlayer/Sources/OOGAudioPlayer/DataModel/AudioModel.swift:124-135 | a URL, the cache flag on, an indexed cache entry and valid data on disk; `GetLocalFileUrl` returns the cached file exactly then |
| Audio.AudioModel.FileName | OOGMediaPlayer/Sources/OOGAudioPlayer/DataModel/AudioModel.swift:107-109 | the music name, or "" when there is none |
| Audio.AudioModel.ObserveStatusChanged | OOGMediaPlayer/Sources/OOGAudioPlayer/DataModel/AudioModel.swift:50-52 | the observer's closure is registered under its key |
| Audio.AudioModel.RemoveStatusObserver | OOGMediaPlayer/Sources/OOGAudioPlayer/DataModel/AudioModel.swift:54-56 | the observer is no longer registered; the others are kept |
| Audio.AudioModel.SetNewPlayerStatus | OOGMediaPlayer/Sources/OOGAudioPlayer/DataModel/AudioModel.swift:59-68 | the status is stored and only the observers answering true stay |
| Audio.AudioModel.ObserveDownloadProgress | OOGMediaPlayer/Sources/OOGAudioPlayer/DataModel/AudioModel.swift:78-80 | the progress closure is registered under its key |
| Audio.AudioModel.RemoveDownloadProgressObserver | OOGMediaPlayer/Sources/OOGAudioPlayer/DataModel/AudioModel.swift:82-84 | the entry keyed by the track itself is removed, whatever observer is passed |
| Audio.AudioModel.UpdateFileProgress | OOGMediaPlayer/Sources/OOGAudioPlayer/DataModel/AudioModel.swift:86-92 | the progress is stored and only the observers answering true stay |
| Audio.AudioModel.GetLocalFileUrl | OOGMediaPlayer/Sources/OOGAudioPlayer/DataModel/AudioModel.swift:123-170 | no URL: `MediaUrlIsNil`; a valid cache entry: its path and `downloaded`; an unparsable URL: `MediaUrlInvalid`; else a new request, and on success the data is written to the track's cache file and indexed by URL, so the cache then serves it |
| Audio.AudioModel.DownloadTarget | OOGMediaPlayer/Sources/OOGAudioPlayer/DataModel/AudioModel.swift:162 | the cache file `FileItem.bgm(fileName)` a download is written to; `GetLocalFileUrl` ensures a successful download is stored there and indexed under the URL, and `BgmFilePath.BgmPlacement` places it in the cache root's media directory |
| Download.SessionFetchDataInProgress | OOGMediaPlayer/Sources/OOGAudioPlayer/DownloadRequest.swift:108-154 | the returned data is the whole stream, and the progress reports are exactly the throttled counts, none without a handler |
| Download.ReportsIncrease | OOGMediaPlayer/Sources/OOGAudioPlayer/DownloadRequest.swift:123-148 | every reported count lies in 1..n and the reports strictly increase |
| Download.ReportsPassThrottle | OOGMediaPlayer/Sources/OOGAudioPlayer/DownloadRequest.swift:132-139 | each report passed the throttle test against the report before it |
| Download.ShouldCallback | OOGMediaPlayer/Sources/OOGAudioPlayer/DownloadRequest.swift:132-137 | the throttle test: more bytes than the granularity since the last report, or exactly the expected length; `ReportsPassThrottle` proves every report passed it |
| Download.Reports | OOGMediaPlayer/Sources/OOGAudioPlayer/DownloadRequest.swift:123-140 | the counts the loop reports as bytes arrive one by one; `SessionFetchDataInProgress` proves the loop reports exactly these, and `ReportsIncrease`, `UnreportedTail`, `FinalReportIsLength` and `EveryByteReported` state their properties |
| Download.UnreportedTail | OOGMediaPlayer/Sources/OOGAudioPlayer/DownloadRequest.swift:132-139 | the bytes not yet reported never exceed the granularity |
| Download.FinalReportIsLength | OOGMediaPlayer/Sources/OOGAudioPlayer/DownloadRequest.swift:134 | when exactly the expected length arrives, the last report is that length |
| Download.EveryByteReported | OOGMediaPlayer/Sources/OOGAudioPlayer/DownloadRequest.swift:132-134 | with granularity 0 the reports are 1, 2, ..., n |
| Download.DownloadRequest.constructor | OOGMediaPlayer/Sources/OOGAudioPlayer/DownloadRequest.swift:27-34 | a request for the URL with no task yet |
| Download.DownloadRequest.FetchDataInProgress | OOGMediaPlayer/Sources/OOGAudioPlayer/DownloadRequest.swift:36-84 | the task is recorded, the data is the whole stream, and the reports are the throttled counts |
| Downloadable.ProgressPredicates | OOGMediaPlayer/Sources/OOGAudioPlayer/Downloadable.swift:17-29 | `isDownloaded` and `isDownloading` pick out exactly their own case and are never true together |
| Downloadable.FileDownloadProgress.IsDownloaded | OOGMediaPlayer/Sources/OOGAudioPlayer/Downloadable.swift:17-22 | the `downloaded` case; `ProgressPredicates` proves it holds for exactly that case and never with `isDownloading` |
| Downloadable.FileDownloadProgress.IsDownloading | OOGMediaPlayer/Sources/OOGAudioPlayer/Downloadable.swift:24-29 | the `downloading` case; `ProgressPredicates` proves it holds for exactly that case, whatever its fraction |
| Downloadable.HolderAgrees | OOGMediaPlayer/Sources/OOGAudioPlayer/Downloadable.swift:50-57 | the protocol extension's `isDownloading` agrees with the enum's |
| Downloadable.HolderIsDownloading | OOGMediaPlayer/Sources/OOGAudioPlayer/Downloadable.swift:50-57 | the protocol extension's `isDownloading` on a holder's progress; `HolderAgrees` proves it equals the enum's own predicate |
| FileItems.FileDirectory.AsString | OOGMediaPlayer/Sources/OOGAudioPlayer/FileManagement/FileItem/Directory/FileDirectory.swift:20-24 | the result starts with "/", and it is the string itself when that already does |
| FileItems.FileItem.AsFilePathString | OOGMediaPlayer/Sources/OOGAudioPlayer/FileManagement/FileItem/FileItem.swift:32-35 | root, directory, a slash and the file name; `PathComposition` states the composition |
| FileItems.FileItem.IsDataValid | OOGMediaPlayer/Sources/OOGAudioPlayer/FileManagement/FileItem/FileItem.swift:77-80 | the file exists with a size above zero |
| FileItems.FileItem.FileSize | OOGMediaPlayer/Sources/OOGAudioPlayer/FileManagement/FileItem/FileItem.swift:72-74 | the file's size, or 0 when it cannot be read; `DiskReadMatchesValidity` proves it is 0 for a missing file and that validity means exactly a present, non-empty file |
| FileItems.FileItem.GetDataFromDisk | OOGMediaPlayer/Sources/OOGAudioPlayer/FileManagement/FileItem/FileItem.swift:55-62 | the contents when the file exists and is not empty; `DiskReadMatchesValidity` proves it succeeds exactly when the data is valid |
| FileItems.AsStringIdempotent | OOGMediaPlayer/Sources/OOGAudioPlayer/FileManagement/FileItem/Directory/FileDirectory.swift:20-24 | normalising twice is normalising once |
| FileItems.PathComposition | OOGMediaPlayer/Sources/OOGAudioPlayer/FileManagement/FileItem/FileItem.swift:32-41 | the full path is the root path followed by the relative path, which starts with "/" |
| FileItems.FileItem.AsFileRelativePathString | OOGMediaPlayer/Sources/OOGAudioPlayer/FileManagement/FileItem/FileItem.swift:38-41 | the normalised directory, "/" and the name; `PathComposition` proves it starts with "/" and the full path is the root path followed by it |
| FileItems.DiskReadMatchesValidity | OOGMediaPlayer/Sources/OOGAudioPlayer/FileManagement/FileItem/FileItem.swift:55-80 | `getDataFromDisk` returns data exactly when `isDataValid`, and it is the file's content |
| FileItems.FileStore.constructor | OOGMediaPlayer/Source/OOGAudioPlayer/FileManagement/FileItem/FileItem+UserDefault.swift:13-29 | a store over the given files and cache index |
| FileItems.FileStore.GetCache | OOGMediaPlayer/Source/OOGAudioPlayer/FileManagement/FileItem/FileItem+UserDefault.swift:13-23 | the item stored under the key, nil exactly when there is none |
| FileItems.FileStore.Write | OOGMediaPlayer/Sources/OOGAudioPlayer/FileManagement/FileItem/FileItem.swift:49-52 | the file at the item's path holds the data; other files are kept |
| FileItems.FileStore.StoreFilePath | OOGMediaPlayer/Source/OOGAudioPlayer/FileManagement/FileItem/FileItem+UserDefault.swift:26-29 | the key now maps to the item; other keys are kept |
| ApiDefines.Domain | OOGMediaPlayer/Sources/OOGAudioPlayer/API/Defines/ApiDefines.swift:27-37 | the host for each scheme; `DomainsDistinct` proves the four differ |
| ApiDefines.PathFor | OOGMediaPlayer/Sources/OOGAudioPlayer/API/Defines/ApiDefines.swift:40-45 | the one playlist path for every play type; `PathIsConstant` states it |
| ApiDefines.DomainsDistinct | OOGMediaPlayer/Sources/OOGAudioPlayer/API/Defines/ApiDefines.swift:27-37 | each scheme's domain ends with the API root, and different schemes reach different hosts |
| ApiDefines.PathIsConstant | OOGMediaPlayer/Sources/OOGAudioPlayer/API/Defines/ApiDefines.swift:40-45 | the playlist path is the same for every play type |
| ApiDefines.ParameterIsDescription | OOGMediaPlayer/Sources/OOGAudioPlayer/API/Defines/ApiDefines.swift:54-74 | the parameters have the single key "playType", whose value is the type's description |
| ApiDefines.AsParameter | OOGMediaPlayer/Sources/OOGAudioPlayer/API/Defines/ApiDefines.swift:54-63 | the request parameters for a play type; `ParameterIsDescription` proves they are the single key "playType" with the type's description as value |
| ApiDefines.Description | OOGMediaPlayer/Sources/OOGAudioPlayer/API/Defines/ApiDefines.swift:65-74 | the display name of each play type; `ParameterIsDescription` ties it to the parameters |
| BgmPlanType.MergeKeepingFirst | OOGMediaPlayer/Source/OOGAudioPlayer/API/Parameters/BgmPlanType.swift:27-30 | keys of both maps; a key already present keeps its value, and a new key takes the merged value |
| BgmPlanType.FoldKeys | OOGMediaPlayer/Source/OOGAudioPlayer/API/Parameters/BgmPlanType.swift:27-30 | the fold's keys are the start's keys and every component's keys |
| BgmPlanType.FoldKeepsFirst | OOGMediaPlayer/Source/OOGAudioPlayer/API/Parameters/BgmPlanType.swift:27-30 | a key already present is never overwritten by later merges |
| BgmPlanType.SingleEntry | OOGMediaPlayer/Source/OOGAudioPlayer/API/Parameters/BgmPlanType.swift:17-26 | each concrete case yields exactly one "playType" entry |
| BgmPlanType.AllIsFirstComponent | OOGMediaPlayer/Source/OOGAudioPlayer/API/Parameters/BgmPlanType.swift:17-32 | `.all` yields the union of the components' keys and keeps only the first component's value |
| BgmPlanType.AsParameter | OOGMediaPlayer/Source/OOGAudioPlayer/API/Parameters/BgmPlanType.swift:17-32 | the request parameters for a play type, `.all` folding its three components; `SingleEntry`, `FoldKeys` and `AllIsFirstComponent` prove one "playType" entry per concrete case and that `.all` keeps the first component's value |
| BgmFilePath.DirectoriesAreNormalised | OOGMediaPlayer/Sources/OOGAudioPlayer/FileManagement/BGM+FilePath.swift:12-14 | the two directory constants are already absolute and differ |
| BgmFilePath.BgmPlacement | OOGMediaPlayer/Sources/OOGAudioPlayer/FileManagement/BGM+FilePath.swift:24-26 | a track file keeps its name, under the cache root's media directory |
| BgmFilePath.Bgm | OOGMediaPlayer/Sources/OOGAudioPlayer/FileManagement/BGM+FilePath.swift:24-26 | a downloaded track's cache file; `BgmPlacement` proves it keeps the name, under the cache root's media directory |
| BgmFilePath.CacheFileNames | OOGMediaPlayer/Sources/OOGAudioPlayer/FileManagement/BGM+FilePath.swift:31-47 | each play type has its own ".json" file in the album-list directory |
| BgmFilePath.CacheFileName | OOGMediaPlayer/Sources/OOGAudioPlayer/FileManagement/BGM+FilePath.swift:31-40 | the cache file name of each play type; `CacheFileNames` proves each ends in ".json" and no two types share one |
| BgmFilePath.BgmAlbumListJson | OOGMediaPlayer/Sources/OOGAudioPlayer/FileManagement/BGM+FilePath.swift:45-47 | where a play type's album list is cached; `CacheFileNames` proves it lies in the album-list directory under the type's own name |
| Oog106FilePath.NatToString | OOGMediaPlayer/Sources/OOGAudioPlayer/FileManagement/OOG106+FilePath.swift:21 | a non-empty string of decimal digits |
| Oog106FilePath.DigitCharInjective | OOGMediaPlayer/Sources/OOGAudioPlayer/FileManagement/OOG106+FilePath.swift:21 | different digits render differently |
| Oog106FilePath.SingleDigit | OOGMediaPlayer/Sources/OOGAudioPlayer/FileManagement/OOG106+FilePath.swift:21 | one digit exactly for numbers below ten |
| Oog106FilePath.MinusSign | OOGMediaPlayer/Sources/OOGAudioPlayer/FileManagement/OOG106+FilePath.swift:21 | a leading minus sign exactly for negative numbers |
| Oog106FilePath.NatToStringInjective | OOGMediaPlayer/Sources/OOGAudioPlayer/FileManagement/OOG106+FilePath.swift:21 | different naturals render differently |
| Oog106FilePath.IntToStringInjective | OOGMediaPlayer/Sources/OOGAudioPlayer/FileManagement/OOG106+FilePath.swift:21 | different integers render differently |
| Oog106FilePath.PlayListItems | OOGMediaPlayer/Sources/OOGAudioPlayer/FileManagement/OOG106+FilePath.swift:20-29 | both items use the cache root and the name "playListId_<id>.json", in their own directories |
| Oog106FilePath.PlayListFileNameInjective | OOGMediaPlayer/Sources/OOGAudioPlayer/FileManagement/OOG106+FilePath.swift:20-29 | different play-list ids never share a cache file |
| Oog106FilePath.PlayListFileName | OOGMediaPlayer/Sources/OOGAudioPlayer/FileManagement/OOG106+FilePath.swift:21 | "playListId_", the id in decimal and ".json"; `PlayListFileNameInjective` proves distinct ids give distinct names |
| Oog106FilePath.BgmPlayList | OOGMediaPlayer/Sources/OOGAudioPlayer/FileManagement/OOG106+FilePath.swift:20-22 | a play list's track file; `PlayListItems` proves it lies under the cache root's media directory with that name |
| Oog106FilePath.BgmAlbumListJsonPlayList | OOGMediaPlayer/Sources/OOGAudioPlayer/FileManagement/OOG106+FilePath.swift:27-29 | a play list's album-list file; `PlayListItems` proves it has the same name in the album-list directory |
| Oog106FilePath.PlayListFileNameExample | OOGMediaPlayer/Sources/OOGAudioPlayer/FileManagement/OOG106+FilePath.swift:20-22 | ids 42 and -7 render as "playListId_42.json" and "playListId_-7.json" |
| Settings.RemoveAll | OOGMediaPlayer/Sources/OOGAudioPlayer/Player/Setting/OOGAudioPlayerSettings.swift:100 | the id is gone and every other id stays |
| Settings.RemoveAllDistributes | OOGMediaPlayer/Sources/OOGAudioPlayer/Player/Setting/OOGAudioPlayerSettings.swift:100 | removal works piecewise over a concatenation, so the ids that stay keep their order |
| Settings.RemoveAbsent | OOGMediaPlayer/Sources/OOGAudioPlayer/Player/Setting/OOGAudioPlayerSettings.swift:100 | removing an absent id changes nothing |
| Settings.RemoveAllKeepsNoDuplicates | OOGMediaPlayer/Sources/OOGAudioPlayer/Player/Setting/OOGAudioPlayerSettings.swift:92-102 | removal keeps a list free of duplicates |
| Settings.FirstSongWithId | OOGMediaPlayer/Sources/OOGAudioPlayer/Player/Setting/OOGAudioPlayerSettings.swift:112 | a found song has the id and no earlier song does; nil exactly when none has it |
| Settings.SelectFavorites | OOGMediaPlayer/Sources/OOGAudioPlayer/Player/Setting/OOGAudioPlayerSettings.swift:110-115 | one song per favourite id that some song carries, in favourite order; characterised by `SelectFavoritesFacts` |
| Settings.SelectFavoritesFacts | OOGMediaPlayer/Sources/OOGAudioPlayer/Player/Setting/OOGAudioPlayerSettings.swift:110-115 | one song per favourite id some song carries, in the favourites' order, each the first song with that id |
| Settings.KeyValue | OOGMediaPlayer/Sources/OOGAudioPlayer/Player/Setting/OOGAudioPlayerSettings.swift:146-148 | the key is the fixed prefix, the scheme and ".settings" |
| Settings.KeyValueInjective | OOGMediaPlayer/Sources/OOGAudioPlayer/Player/Setting/OOGAudioPlayerSettings.swift:146-148 | different schemes use different keys |
| Settings.OOGAudioPlayerSettings.constructor | OOGMediaPlayer/Sources/OOGAudioPlayer/Player/Setting/OOGAudioPlayerSettings.swift:39-73 | the given values; no favourites, loop mode `none`, no loop designation |
| Settings.OOGAudioPlayerSettings.LoadScheme | OOGMediaPlayer/Sources/OOGAudioPlayer/Player/Setting/OOGAudioPlayerSettings.swift:79-86 | the stored record when one decodes, otherwise new settings for the scheme with player and cache on at volume 1 |
| Settings.OOGAudioPlayerSettings.SetFavorite | OOGMediaPlayer/Sources/OOGAudioPlayer/Player/Setting/OOGAudioPlayerSettings.swift:92-108 | afterwards the song is a favourite exactly when asked; adding appends only a new id, removing drops every occurrence keeping the order; no duplicate is introduced |
| Settings.OOGAudioPlayerSettings.SelectFavoriteSongs | OOGMediaPlayer/Sources/OOGAudioPlayer/Player/Setting/OOGAudioPlayerSettings.swift:110-115 | each selected song is the first song with a favourite id, one per present id, in favourites order |
| Settings.OOGAudioPlayerSettings.IsFavorite | OOGMediaPlayer/Sources/OOGAudioPlayer/Player/Setting/OOGAudioPlayerSettings.swift:88-90 | the song's `id` is in the favourite list; `SetFavorite` makes it hold or fail as asked |
| Settings.OOGAudioPlayerSettings.IsLoop | OOGMediaPlayer/Sources/OOGAudioPlayer/Player/Setting/OOGAudioPlayerSettings.swift:120-122 | the song's `id` is the designated single-loop id; `SetDesignatedSongLoop` makes it hold |
| Settings.OOGAudioPlayerSettings.SetDesignatedSongLoop | OOGMediaPlayer/Sources/OOGAudioPlayer/Player/Setting/OOGAudioPlayerSettings.swift:124-126 | the designated song id becomes the song's id, or nil; `isLoop` then holds for exactly that song's id |
| Settings.OOGAudioPlayerSettings.RemoveDesignatedSongLoop | OOGMediaPlayer/Sources/OOGAudioPlayer/Player/Setting/OOGAudioPlayerSettings.swift:128-130 | no song is designated |
| Settings.OOGAudioPlayerSettings.SetDesignatedAlbumLoop | OOGMediaPlayer/Sources/OOGAudioPlayer/Player/Setting/OOGAudioPlayerSettings.swift:136-138 | the designated album id becomes the album's id, or nil |
| Settings.OOGAudioPlayerSettings.IsAlbumLoop | OOGMediaPlayer/Sources/OOGAudioPlayer/Player/Setting/OOGAudioPlayerSettings.swift:132-134 | the album's id is the designated album id; `SetDesignatedAlbumLoop` proves that afterwards it holds for exactly the designated album |
| Provider.FirstAlbumIndex | OOGMediaPlayer/Sources/OOGAudioPlayer/Player/OOGAudioPlayerProvider+Settings.swift:58 | the first album with the id (and, when asked, with tracks); nil exactly when there is none |
| Provider.FirstValidRow | OOGMediaPlayer/Sources/OOGAudioPlayer/Player/OOGAudioPlayerProvider+Settings.swift:67 | the first valid row; nil exactly when the album has no valid track |
| Provider.FirstValidRowHeadsValidList | OOGMediaPlayer/Sources/OOGAudioPlayer/Player/OOGAudioPlayerProvider+Settings.swift:67-71 | that row heads the album's list of valid slots, and both are empty together |
| Provider.ResumeTarget | OOGMediaPlayer/Sources/OOGAudioPlayer/Player/OOGAudioPlayerProvider+Settings.swift:40-79 | the three-level priority: designated song in single loop, the designated album in album loop, else the last played valid track; properties in `ResumeTargetInList`, `InvalidLoopSongCancels`, `AlbumLoopStaysInAlbum` |
| Provider.ResumeTargetInList | OOGMediaPlayer/Sources/OOGAudioPlayer/Player/OOGAudioPlayerProvider+Settings.swift:40-88 | the resumed slot lies in the list; outside album loop it holds a valid track, and in album loop only the last played track can be invalid |
| Provider.InvalidLoopSongCancels | OOGMediaPlayer/Sources/OOGAudioPlayer/Player/OOGAudioPlayerProvider+Settings.swift:45-52 | a designated single-loop song that is present but invalid cancels the resumption |
| Provider.AlbumLoopStaysInAlbum | OOGMediaPlayer/Sources/OOGAudioPlayer/Player/OOGAudioPlayerProvider+Settings.swift:56-72 | album loop resumes inside the first designated album with tracks, and does resume when that album has a valid track |
| Provider.DesignatedLoopTarget | OOGMediaPlayer/Sources/OOGAudioPlayer/Player/OOGAudioPlayerProvider+Settings.swift:100-123 | the slot to switch to for the designated song or album; properties in `DesignatedLoopTargetFacts` |
| Provider.DesignatedLoopTargetFacts | OOGMediaPlayer/Sources/OOGAudioPlayer/Player/OOGAudioPlayerProvider+Settings.swift:100-123 | a switch lands in the list: in single loop on a track with the designated `resId`, in album loop on row 0 of an album with the designated id; no switch while the current track or album already has it |
| Provider.OOGAudioPlayerProvider.constructor | OOGMediaPlayer/Sources/OOGAudioPlayer/Player/OOGAudioPlayerProvider.swift:10-19 | a provider over an empty list, using the cache |
| Provider.OOGAudioPlayerProvider.CurrentAlbum | OOGMediaPlayer/Sources/OOGAudioPlayer/Player/OOGAudioPlayerProvider.swift:22-28 | an album exactly when the cursor's section is in the list, and it is that album |
| Provider.OOGAudioPlayerProvider.CurrentAlbumHoldsCurrentSong | OOGMediaPlayer/Sources/OOGAudioPlayer/Player/OOGAudioPlayerProvider.swift:22-33 | a current song implies a current album that lists it |
| Provider.OOGAudioPlayerProvider.AlbumList | OOGMediaPlayer/Sources/OOGAudioPlayer/Player/OOGAudioPlayerProvider.swift:12-14 | the control's albums; the model's items are typed albums, so the cast cannot fail and the `?? []` fallback is not modelled; `GetAlbum` and `GetSong` are stated over it |
| Provider.OOGAudioPlayerProvider.CurrentSong | OOGMediaPlayer/Sources/OOGAudioPlayer/Player/OOGAudioPlayerProvider.swift:30-33 | the control's current track; `CurrentAlbumHoldsCurrentSong` proves a current song lies in the current album |
| Provider.OOGAudioPlayerProvider.GetAlbum | OOGMediaPlayer/Sources/OOGAudioPlayer/Player/OOGAudioPlayerProvider.swift:36-41 | the same answer as the control's `album(at:)` |
| Provider.OOGAudioPlayerProvider.GetSong | OOGMediaPlayer/Sources/OOGAudioPlayer/Player/OOGAudioPlayerProvider.swift:44-53 | the same answer as the control's `media(at:)` |
| Provider.OOGAudioPlayerProvider.UpdateSongsUseCacheState | OOGMediaPlayer/Sources/OOGAudioPlayer/Player/OOGAudioPlayerProvider.swift:55-61 | every track of every album gets the flag, and nothing else about any track changes |
| Provider.OOGAudioPlayerProvider.SetIsUseCache | OOGMediaPlayer/Sources/OOGAudioPlayer/Player/OOGAudioPlayerProvider.swift:17-19 | the flag is stored and every track gets it |
| Provider.OOGAudioPlayerProvider.SyncSettings | OOGMediaPlayer/Sources/OOGAudioPlayer/Player/OOGAudioPlayerProvider+Settings.swift:15-25 | cache flag (on every track), volume, loop mode and enable flag copied; the cursor moves to the saved track's first slot when it is in the list, else stays |
| Provider.OOGAudioPlayerProvider.ResumePlay | OOGMediaPlayer/Sources/OOGAudioPlayer/Player/OOGAudioPlayerProvider+Settings.swift:40-88 | the slot chosen by the settings' priority order, and true exactly when there is one |
| Provider.OOGAudioPlayerProvider.PlayIfExists | OOGMediaPlayer/Sources/OOGAudioPlayer/Player/OOGAudioPlayerProvider+Settings.swift:91-97 | found exactly when some track has the `resId`, and the slot is its first position |
| Provider.OOGAudioPlayerProvider.PlayDesignatedLoopSongIfNeeds | OOGMediaPlayer/Sources/OOGAudioPlayer/Player/OOGAudioPlayerProvider+Settings.swift:100-123 | the slot to switch to so that play stays in the designated loop, as `DesignatedLoopTargetFacts` describes |
| Conversion.AsAlbumEntity | OOGMediaPlayer/Sources/OOGAudioPlayer/API/ResponseModel/AudioAlbumDTO.swift:66-94 | album metadata copied, paid exactly for code 1, not a favourite, one entity per song in order with its metadata and `id` 0, none for a missing list |
| Conversion.AsAlbumModel | OOGMediaPlayer/Sources/OOGAudioPlayer/Database/Entity/AudioAlbumEntity.swift:64-91 | album metadata copied and one new, distinct track per entity, in order, with the entity's metadata, `id` 0 and the initial track state |
| Conversion.DtoValidity | OOGMediaPlayer/Sources/OOGAudioPlayer/API/ResponseModel/AudioAlbumDTO.swift:76-90 | a converted song is a valid track exactly when its code is not 1, and it keeps its `resId` with `id` 0 |
| Conversion.AsMediaEntity | OOGMediaPlayer/Sources/OOGAudioPlayer/API/ResponseModel/AudioAlbumDTO.swift:76-89 | the entity built for one song; `AsAlbumEntity` ensures every entity carries its song's metadata with `id` 0 and paid exactly for code 1, and `DtoValidity` proves the converted track is valid exactly when the code is not 1 |

## Left out

- The audio engine (`AVAudioPlayer`): only whether it exists and plays is modelled. Current time, duration, rate and the volume ramp's timing are not.
- The floating-point volume, progress fractions and `percentComplete` are not modelled. The download throttle's granularity, `Int(length * 0.002)`, is an input.
- Dispatch queues, `Task` scheduling and notifications are not modelled. Work sent to the main queue is taken to run at once, in program order. Interleavings of concurrent play tasks are modelled only through the superseded check.
- Delegate callbacks other than `shouldPlay` and `playAt:error:` are not modelled: `willPlay`, `startPlaying` and `statusDidChanged` carry no state.
- Logging is not modelled.
- `AudioAlbumModel` is a value, not an object: two holders of the same Swift album would see each other's changes to its fields or to its `mediaList` array. The core never makes such changes, so the model does not capture that aliasing.
- The time stamp of a `HistoryItem` is not modelled. It comes from the clock and plays no part in any decision.
- Local.LocalAudioPlayerProvider.SetCurrentItemStatus: observer closures are modelled as stateless functions of the status. The source calls `setItemStatus` once per slot that holds the current id, so each observer runs once per such slot. The model states the end state, which equals telling the status once. It does not capture the side effects of the repeated calls, such as user-interface updates.
- Status and progress observer closures see the new value only. The track they are also given is the track that holds them, so that argument is implicit.
- `toPlay(indexPath:playAutomaticly:)` and `load(indexPath:autoPlay:)` are not part of this model. `ResumePlay`, `PlayIfExists` and `PlayDesignatedLoopSongIfNeeds` therefore return the slot they would hand to them.
- `save()`, JSON coding and `UserDefaults` persistence are not modelled. `LoadScheme` takes the decoded record as an input.
- Root-directory lookup is an input (`RootPaths`).
- Networking is not modelled: URL parsing, the HTTP transfer and `cancel`/`cancelFileDownload`. They are inputs or left out. The plain `download(url:)` helper is not modelled.
- `removeDataFromDisk`, `asFilePathUrl` and file-attribute reads other than the size are not modelled.
- Write failures are not modelled.
- Index paths use `nat`, so negative sections and rows, which Swift would trap on, are not represented.
- Audio.AudioModel.GetLocalFileUrl: does not model the progress callback's updates during the transfer (`downloading(percent)`, then `downloaded` when finished). After a download the contract states the initial `downloading(0.0)` update only.
- `LoopMode.userInterfaceDisplay` and `PlayerStatus.description` are not modelled. They are display strings.
