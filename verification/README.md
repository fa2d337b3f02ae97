# Conference track scheduler, modelled in Dafny

This project models the talk scheduler of `src/helpers/track-manager.ts`.

**What the scheduler does.** A `TrackManager` receives talks one at a time.
- Each talk has a title and a duration: a number of minutes, or `"lightning"`, which counts as 5 minutes.
- `addTalk` places each talk into a session of a conference track.
- Every track has two sessions:
  - a morning session holding 180 minutes from 09:00;
  - an afternoon session holding 240 minutes from 13:00.
- The manager keeps the list of sessions that still have free minutes.

**How `addTalk` places a talk.**
1. It sorts the open sessions by free minutes and takes the first one with room: the best fit.
2. When no open session has room, it appends a new track and opens both of its sessions. The talk then goes into the new morning session if it fits there, otherwise into the new afternoon session.
3. When the talk fits in neither, it throws.
4. The talk is stamped with the session's cursor, printed as `hh:mmA`. The cursor then advances, and the session's free minutes shrink.
5. A session with no free minutes left is spliced out of the open list.

**Read-only projections.**
- `timeline` lists a track's events, including synthetic "slot left" entries, Lunch and the networking event.
- `networkingStart` computes when networking starts.
- `timelineLog` renders every track's timeline as text lines.

**Modules**, one file each.
- `wrappers.dfy` (`Wrappers`): `Option` and `Result`.
- `clock.dfy` (`Clock`): clock times as minutes since midnight.
  - The two formats the source prints: moment's `hh:mmA` and `HH:mm`.
  - Parsers that read those texts back.
  - JavaScript string order on the `HH:mm` text.
  - Decimal printing of numbers.
- `tracks.dfy` (`Tracks`): talks, sessions and tracks as values.
  - The session invariant: free minutes, cursor and start times agree with the talks.
  - `networkingStart`, `timeline` and `timelineLog`.
- `scheduler.dfy` (`Scheduler`): the scheduler state, the best-fit step `AddTalkSpec`, and the invariants and guarantees of that step.
  - The state is the tracks plus the open list of session references.
  - `AddTalkSpec` is a function on that state.
  - `Run` replays any sequence of calls.
- `manager.dfy` (`Manager`): the `TrackManager` class.
  - It has the fields `tracks` and `availableSessions`.
  - Its `AddTalk` method updates them in place with loops for `find` and `indexOf`.
  - The method is proved to leave exactly the state `AddTalkSpec` describes.
- `regression.dfy` (`Regression`): the scenarios of `src/helpers/track-manager.test.ts`, replayed on the model. This includes every allocated time and the full 26-line timeline log.

Two details of the networking event follow the code rather than the plain reading "the later of 16:00 and the end of the afternoon":
- **`networkingStart`'s format.** When the afternoon cursor is not later than 16:00, `networkingStart` returns the literal text "16:00" in 24-hour form. Otherwise it returns the cursor in `hh:mmA` form (`Tracks.NetworkingStartIsLater`).
- **The timeline's networking time.** The timeline always shows the networking event at "05:00PM", whatever `networkingStart` computes. `Tracks.NetworkingShownAtStart` proves the two agree exactly when the afternoon session is full.

Sessions are named by a reference (track index, morning or afternoon) instead of being shared objects. The open list therefore holds references into `tracks`. In the source, `tracks` and `availableSessions` alias the same session objects; the references play that role.

## Model

| member | source | states |
|---|---|---|
| Manager.TrackManager.constructor | src/helpers/track-manager.ts:77-80 | a new manager has no tracks and no open sessions, and satisfies the invariant |
| Manager.TrackManager.AddTalk | src/helpers/track-manager.ts:86-126 | the fields and the result (placed talk or thrown error) are exactly those of the best-fit step `AddTalkSpec`, and the invariant is kept |
| Manager.TrackManager.PlaceTalk | src/helpers/track-manager.ts:108-123 | recording the talk at the session's cursor, shrinking its free minutes, advancing the cursor, and splicing a full session out leaves exactly the state `Place` describes |
| Manager.FindFitting | src/helpers/track-manager.ts:93-95 | the loop returns the index of the first session with room, or none when no session has room |
| Manager.FindPosition | src/helpers/track-manager.ts:119-120 | the loop returns the position of the first occurrence, or -1 when absent |
| Manager.TrackManager.TimelineLog | src/helpers/track-manager.ts:132-152 | the log has one header line per track, a separator between tracks, Lunch and networking per track, and one line per talk |
| Tracks.NewTrackOk | src/helpers/track-manager.ts:42-53 | a new track satisfies the session invariant: 180 free minutes from 09:00 and 240 from 13:00, with no talks |
| Tracks.NewTrack | src/helpers/track-manager.ts:41-53 | definition; its properties are stated by Tracks.NewTrackOk and Scheduler.RemainingWithinCapacity |
| Tracks.Record | src/helpers/track-manager.ts:113-115 | definition; its properties are stated by Tracks.RecordKeepsSessionOk, Tracks.RecordKeepsTrackOk and Tracks.TalkStartsAt |
| Tracks.NetworkingStart | src/helpers/track-manager.ts:54-59 | definition; its properties are stated by Tracks.NetworkingStartIsLater, Tracks.NetworkingStartAtFive and Tracks.NetworkingShownAtStart |
| Tracks.RemainingSlotToTimelineEvent | src/helpers/track-manager.ts:34-39 | definition; its properties are stated by Tracks.SlotLeftStartsOnTime and Tracks.ShownSlotLeft |
| Tracks.Timeline | src/helpers/track-manager.ts:61-74 | definition; its properties are stated by Tracks.SessionMinutes, Tracks.SessionTiles, Tracks.TimelineTilesSessions and Tracks.ShownTimeline |
| Tracks.EventLine | src/helpers/track-manager.ts:139-147 | definition; its properties are stated by Tracks.EventLines and Tracks.DurationSuffixReadsBack |
| Tracks.TrackLines | src/helpers/track-manager.ts:133-151 | definition; its properties are stated by Tracks.TrackLinesStart and Tracks.TrackLinesAre |
| Tracks.TimelineLog | src/helpers/track-manager.ts:132-152 | definition; its properties are stated by Tracks.TimelineLogLength, Tracks.TimelineLogPrefix, Tracks.TimelineLogStep and Tracks.TimelineLogHeader |
| Tracks.CostSumPrefix | src/helpers/track-manager.ts:87-88 | the minutes taken by the first talks grow with the prefix, by exactly the next talk's cost (5 for lightning) |
| Tracks.TalkStartsAt | src/helpers/track-manager.ts:108-111 | in a well-formed session, each talk's allocated time prints the session start plus the minutes of the talks before it |
| Tracks.AllocatedMinutesIncrease | src/helpers/track-manager.ts:108-115 | start minutes of later talks are no earlier, strictly later after a talk of positive length, and stay within the day |
| Tracks.AllocatedTimesIncrease | src/helpers/track-manager.ts:108-115 | each allocated time prints its talk's start time of day; a later talk in the session starts never earlier, and later after a talk of positive length |
| Tracks.RecordKeepsSessionOk | src/helpers/track-manager.ts:113-115 | recording a talk at the cursor keeps the session invariant: free minutes equal capacity minus talk minutes, and cursor equals start plus talk minutes |
| Tracks.RecordKeepsTrackOk | src/helpers/track-manager.ts:113-115 | recording a talk in one session keeps the whole track well formed |
| Tracks.NetworkingStartIsLater | src/helpers/track-manager.ts:54-59 | comparing the `HH:mm` text with "16:00" as strings yields the afternoon cursor, printed `hh:mmA`, when it is later than 16:00, and otherwise "16:00" |
| Tracks.NetworkingStartAtFive | src/helpers/track-manager.ts:54-59 | for an afternoon ending by 17:00, networkingStart is "05:00PM" exactly when the afternoon ends at 17:00 |
| Tracks.NetworkingShownAtStart | src/helpers/track-manager.ts:54-74 | the fixed "05:00PM" shown in the timeline equals the computed networkingStart exactly when the afternoon session is full |
| Tracks.TalkEvents | src/helpers/track-manager.ts:62-68 | each placed talk becomes one timeline event, in order |
| Tracks.TalkEventsMinutes | src/helpers/track-manager.ts:62-68 | the talk events take as many minutes as the talks |
| Tracks.EventsMinutesAppend | src/helpers/track-manager.ts:61-74 | minutes of events add up over appended events |
| Tracks.TalkEventsPrefixMinutes | src/helpers/track-manager.ts:62-68 | the first i talk events take as long as the first i talks |
| Tracks.TalkEventStartsOnTime | src/helpers/track-manager.ts:62-68 | every talk event starts where the events before it end |
| Tracks.SlotLeftStartsOnTime | src/helpers/track-manager.ts:34-39 | the "slot left" event is stamped with the session's cursor, where the talks end |
| Tracks.SessionMinutes | src/helpers/track-manager.ts:34-74 | a session's talks plus its "slot left" event take exactly the session's capacity |
| Tracks.SessionTiles | src/helpers/track-manager.ts:34-74 | a session's events fill it from start to end with no gap, each starting where the previous ends |
| Tracks.TimelineTilesSessions | src/helpers/track-manager.ts:61-74 | the timeline is the morning events, Lunch, the afternoon events and the networking event; each half-day tiles its session from 09:00 or 13:00 |
| Tracks.ShownAppend | src/helpers/track-manager.ts:138 | filtering out "slot left" entries distributes over concatenation |
| Tracks.ShownTalkEvents | src/helpers/track-manager.ts:138 | filtering keeps every talk event |
| Tracks.ShownOne | src/helpers/track-manager.ts:138 | filtering one entry drops it exactly when it is a "slot left" entry |
| Tracks.ShownSlotLeft | src/helpers/track-manager.ts:34-39 | a session's "slot left" event never reaches the log |
| Tracks.ShownTimeline | src/helpers/track-manager.ts:61-74 | the filtered timeline is the morning talks in placement order, then Lunch, then the afternoon talks, then the networking event |
| Tracks.DurationSuffixReadsBack | src/helpers/track-manager.ts:140-146 | the suffix is empty exactly for no duration or 0; it is " lightning" for lightning talks, and " N" then "min" for N minutes, with N read back from its digits |
| Tracks.EventLines | src/helpers/track-manager.ts:138-147 | one log line per event, each formatted from its event |
| Tracks.EventLinesAppend | src/helpers/track-manager.ts:138-147 | lines of concatenated events are the concatenated lines |
| Tracks.TrackLinesStart | src/helpers/track-manager.ts:136-137 | a track's lines open with ">" unless it is the first, then "> Track n:" |
| Tracks.TrackLinesAre | src/helpers/track-manager.ts:133-151 | a track's lines are the separator unless it is the first, its header, its morning talks, Lunch, its afternoon talks and the networking event |
| Tracks.TalkCountAppend | src/helpers/track-manager.ts:98 | appending a track adds its talks to the total count |
| Tracks.TalkCountUpdate | src/helpers/track-manager.ts:113 | replacing one track changes the total count by the difference in its talks |
| Tracks.HeldAppend | src/helpers/track-manager.ts:97-98 | appending a track adds its talks to the talks held |
| Tracks.HeldUpdate | src/helpers/track-manager.ts:113 | replacing one track swaps its talks for the new track's in the talks held |
| Tracks.AppendHeld | src/helpers/track-manager.ts:113 | a session that gains one talk adds exactly that talk to its track's talks |
| Tracks.TimelineLogLength | src/helpers/track-manager.ts:132-152 | the log has 4 lines per track, less one for the first track's missing separator, plus one per talk |
| Tracks.TimelineLogPrefix | src/helpers/track-manager.ts:133-151 | the log of the first k tracks is a prefix of the whole log, since the reduce only appends |
| Tracks.TimelineLogStep | src/helpers/track-manager.ts:133-151 | the log of k+1 tracks is the log of k tracks followed by track k's lines |
| Tracks.TimelineLogHeader | src/helpers/track-manager.ts:136-137 | the block of track k starts with ">" then "> Track k+1:" when k > 0; the log starts with "> Track 1:" |
| Clock.Digit | src/helpers/track-manager.ts:32 | a digit character stands for its value |
| Clock.Pad2Digits | src/helpers/track-manager.ts:32 | a zero-padded two-digit text reads back as its number |
| Clock.Format12 | src/helpers/track-manager.ts:32 | definition; its properties are stated by Clock.Parse12Format12, Clock.Format12Injective, Clock.Format12Meridiem, Clock.Format12Of and Clock.FiveInTheAfternoon |
| Clock.Format24 | src/helpers/track-manager.ts:55-57 | definition; its properties are stated by Clock.Format24Order and Clock.Format24Of1600 |
| Clock.TimeOfDay | src/helpers/track-manager.ts:115 | moment's clock wraps at midnight, so the time of day is below 24 hours |
| Clock.Hour12 | src/helpers/track-manager.ts:32 | the 12-hour clock shows hours 1 to 12 |
| Clock.Parse12 | src/helpers/track-manager.ts:32 | a parsed `hh:mmA` text is a time of day |
| Clock.TimeOfDaySplit | src/helpers/track-manager.ts:32 | a time of day is its hour times 60 plus its minute |
| Clock.Parse12Format12 | src/helpers/track-manager.ts:110 | every printed `hh:mmA` time has 7 characters and reads back as the time of day it prints |
| Clock.Format12Injective | src/helpers/track-manager.ts:110 | distinct times of day print differently |
| Clock.Format12Meridiem | src/helpers/track-manager.ts:110 | the meridiem is "AM" before noon and "PM" from noon on |
| Clock.Format12Of | src/helpers/track-manager.ts:110 | the printed form of hour h and minute m is the zero-padded 12-hour hour, ":", the zero-padded minute and the meridiem |
| Clock.LexLessPad2 | src/helpers/track-manager.ts:55-56 | two-digit texts compare as strings the way their numbers compare |
| Clock.HourMinuteOrder | src/helpers/track-manager.ts:55-56 | times of day are ordered by hour, then by minute |
| Clock.Format24Order | src/helpers/track-manager.ts:55-56 | comparing `HH:mm` texts as JavaScript strings is comparing the times of day |
| Clock.Format24Of1600 | src/helpers/track-manager.ts:31 | 16:00 prints as "16:00" |
| Clock.FiveInTheAfternoon | src/helpers/track-manager.ts:72 | 17:00 prints as "05:00PM" |
| Clock.NatToString | src/helpers/track-manager.ts:143 | a duration prints as decimal digits with no leading zero |
| Clock.ParseNatToString | src/helpers/track-manager.ts:143 | the printed duration reads back as the number |
| Scheduler.Insert | src/helpers/track-manager.ts:91 | inserting keeps every entry and adds the new one |
| Scheduler.SortByRemaining | src/helpers/track-manager.ts:91 | sorting keeps exactly the same entries |
| Scheduler.InsertKeepsSorted | src/helpers/track-manager.ts:91 | insertion into a list ordered by free minutes keeps it ordered |
| Scheduler.SortIsSorted | src/helpers/track-manager.ts:91 | the sorted open list is ordered by free minutes, fewest first, and is a permutation of the list |
| Scheduler.InsertNoDuplicates | src/helpers/track-manager.ts:91 | inserting an absent session keeps the list duplicate free |
| Scheduler.SortNoDuplicates | src/helpers/track-manager.ts:91 | sorting keeps the list duplicate free |
| Scheduler.FirstFit | src/helpers/track-manager.ts:93-95 | the result is none exactly when no session has room; otherwise it is the first index with room |
| Scheduler.FirstFitIsBestFit | src/helpers/track-manager.ts:91-95 | on the sorted list, the first session with room has the fewest free minutes among those with room |
| Scheduler.IndexOf | src/helpers/track-manager.ts:120 | indexOf gives the first occurrence, or -1 exactly when absent |
| Scheduler.SpliceOne | src/helpers/track-manager.ts:119-122 | definition; its properties are stated by Scheduler.SpliceOutRemoves |
| Scheduler.Grow | src/helpers/track-manager.ts:97-100 | definition; its properties are stated by Scheduler.GrowKeepsTracksOk, Scheduler.GrowKeepsOpenSet and Scheduler.GrowExtends |
| Scheduler.Place | src/helpers/track-manager.ts:108-123 | definition; its properties are stated by Scheduler.PlaceIsPlacedIn, Scheduler.PlaceKeepsTracksOk, Scheduler.PlaceKeepsOpenSet, Scheduler.PlaceCountsOne, Scheduler.PlaceHoldsOne and Scheduler.PlaceExtends |
| Scheduler.PlaceInNewTrack | src/helpers/track-manager.ts:96-106 | definition; its properties are stated by Scheduler.PlaceInNewTrackIsPlacedIn, Scheduler.PlaceInNewTrackKeepsOldTracks, Scheduler.PlaceInNewTrackKeepsTracksOk, Scheduler.PlaceInNewTrackKeepsOpenSet and Scheduler.PlaceInNewTrackExtends |
| Scheduler.AddTalkSpec | src/helpers/track-manager.ts:86-126 | definition; its properties are stated by Scheduler.AddTalkKeepsConsistent, Scheduler.AddTalkPicksBestFit, Scheduler.AddTalkOpensTrack, Scheduler.AddTalkFailsIffTooLong, Scheduler.AddTalkCountsOne, Scheduler.AddTalkHoldsOne and Scheduler.AddTalkOnlyAdds |
| Scheduler.SpliceOutRemoves | src/helpers/track-manager.ts:118-123 | splicing at indexOf removes exactly the full session, keeps the others, and shortens the list by one |
| Scheduler.PlaceIsPlacedIn | src/helpers/track-manager.ts:108-115 | placing records the talk at the session's cursor as its last talk, takes its minutes off and advances the cursor; every other session is unchanged |
| Scheduler.SortKeepsOpenSet | src/helpers/track-manager.ts:91 | sorting keeps the open-set invariant |
| Scheduler.GrowKeepsTracksOk | src/helpers/track-manager.ts:97-98 | appending a new track keeps every track well formed |
| Scheduler.GrowKeepsOpenSet | src/helpers/track-manager.ts:97-100 | opening the new track's two sessions keeps the open list exactly the sessions with room, each once |
| Scheduler.UpdateKeepsAllTracksOk | src/helpers/track-manager.ts:113-115 | replacing one track by a well-formed one keeps all tracks well formed |
| Scheduler.PlaceKeepsTracksOk | src/helpers/track-manager.ts:108-115 | placing a talk keeps every track well formed |
| Scheduler.PlaceKeepsOpenSet | src/helpers/track-manager.ts:114-123 | a session leaves the open list exactly when placing fills it |
| Scheduler.PlaceInGrownKeepsTracksOk | src/helpers/track-manager.ts:96-115 | placing in the new track keeps every track well formed |
| Scheduler.PlaceInNewTrackKeepsTracksOk | src/helpers/track-manager.ts:96-115 | the new-track branch keeps every track well formed |
| Scheduler.PlaceInNewTrackKeepsOpenSet | src/helpers/track-manager.ts:96-123 | the new-track branch keeps the open-set invariant, including when it throws |
| Scheduler.AddTalkKeepsTracksOk | src/helpers/track-manager.ts:86-126 | every call keeps every session's free minutes at capacity minus its talks' minutes, never negative |
| Scheduler.AddTalkKeepsOpenSet | src/helpers/track-manager.ts:80-126 | every call keeps the open list as exactly the sessions with free minutes, each once |
| Scheduler.AddTalkKeepsConsistent | src/helpers/track-manager.ts:80-126 | every call, placing or throwing, keeps the whole invariant |
| Scheduler.SortedFitsAtIndex | src/helpers/track-manager.ts:91 | an open session with room appears in the sorted list with room |
| Scheduler.SortedEntryIsOpen | src/helpers/track-manager.ts:91 | every sorted entry is an open session |
| Scheduler.AddTalkPicksBestFit | src/helpers/track-manager.ts:91-115 | when an open session has room, the talk goes into an open session with the fewest free minutes among those with room, and no track is added |
| Scheduler.PlaceInNewTrackIsPlacedIn | src/helpers/track-manager.ts:96-115 | in a new track, the talk goes to the morning session if at most 180 minutes, else to the afternoon if at most 240, else the call throws |
| Scheduler.PlaceInNewTrackKeepsOldTracks | src/helpers/track-manager.ts:97-98 | the new-track branch keeps every earlier track and appends exactly one |
| Scheduler.AddTalkOpensTrack | src/helpers/track-manager.ts:96-106 | when nothing fits, one track is appended with both sessions opened; the talk goes to the morning session if at most 180 minutes, else to the afternoon if at most 240, else the call throws and leaves the empty track |
| Scheduler.RemainingWithinCapacity | src/helpers/track-manager.ts:42-53 | a session never has more free minutes than its capacity |
| Scheduler.AddTalkFailsIffTooLong | src/helpers/track-manager.ts:104-105 | a call throws exactly when the talk needs more than 240 minutes |
| Scheduler.PlaceCountsOne | src/helpers/track-manager.ts:113 | placing adds exactly one talk in total |
| Scheduler.AddTalkCountsOne | src/helpers/track-manager.ts:113 | a successful call adds exactly one talk in total; a throwing one adds none |
| Scheduler.PlaceHoldsOne | src/helpers/track-manager.ts:108-113 | placing adds the returned talk, with the submitted title and duration, and nothing else to the talks held |
| Scheduler.AddTalkHoldsOne | src/helpers/track-manager.ts:86-126 | a successful call adds exactly the talk it returns, carrying the submitted title and duration, to the talks held; a throwing call adds none |
| Scheduler.ExtendsTrans | src/helpers/track-manager.ts:96-123 | growth of the tracks composes over calls |
| Scheduler.PlaceExtends | src/helpers/track-manager.ts:108-123 | placing removes no talk and gives no minutes back |
| Scheduler.GrowExtends | src/helpers/track-manager.ts:97-98 | appending a track keeps the earlier ones |
| Scheduler.PlaceInNewTrackExtends | src/helpers/track-manager.ts:96-123 | the new-track branch removes no talk and gives no minutes back |
| Scheduler.AddTalkOnlyAdds | src/helpers/track-manager.ts:96-123 | no call removes a track or a talk, or gives minutes back; a session that left the open list never returns |
| Scheduler.Run | src/helpers/track-manager.ts:86-126 | after any sequence of calls from a new manager the invariant holds; the tracks hold exactly the multiset of talks the successful calls returned, so as many talks as successful calls, and each returned talk carries the title and duration submitted in its call |
| Regression.OpenListLength | src/helpers/track-manager.ts:80 | under the invariant, the open list is as long as the set of sessions with free minutes |
| Regression.LogOfTwo | src/helpers/track-manager.ts:133-151 | the log of two tracks is the first track's lines then the second's |
| Regression.CreatesTrack | src/helpers/track-manager.test.ts:3-10 | a new manager has no tracks; its first talk opens one |
| Regression.SessionsHoldManyTalks | src/helpers/track-manager.test.ts:12-29 | two talks go to the morning and the next three to the afternoon of one track |
| Regression.UsesAllSpaces | src/helpers/track-manager.test.ts:31-78 | the morning keeps 10 minutes, the afternoon fills up, a 210-minute talk opens track 2's afternoon, and a 10-minute talk then takes the morning's last 10 minutes |
| Regression.FullSessionsLeave | src/helpers/track-manager.test.ts:80-100 | two sessions are open, then filling the morning leaves only the afternoon open |
| Regression.AllocatedTimes | src/helpers/track-manager.test.ts:102-196 | the thirteen allocated times, and networkingStart "05:00PM" of the full first track |
| Regression.PrintsTimeline | src/helpers/track-manager.test.ts:199-323 | after nineteen talks the timeline log is the expected 26 lines |

## Left out

- The moment library. Clock times are minutes since midnight. The calendar date a Moment carries is dropped, and a cursor past midnight wraps into the next day, which moment's formatting also does.
- JavaScript `Array.sort` is modelled as an insertion sort by free minutes (`Scheduler.SortByRemaining`) that keeps sessions with equal free minutes in their existing order. `Array.prototype.sort` is stable since ECMAScript 2019, and the comparator at line 91 (difference of free minutes) is consistent, so the model yields the same order as the source. Stability itself is not stated as a lemma; the best-fit property that is proved holds for any order among equal sessions.
- Shared session objects between `tracks` and `availableSessions` are replaced by session references, so aliasing is not modelled.
- The thrown `Error` is a `Failure(TalkTooLong)` result. The state the call changed before throwing is kept, as in the code: the empty new track and its two open sessions remain.
- Durations are `Fixed(n)` with `n` a natural number, or `Lightning`. Negative, fractional and string minutes are not modelled. The form that feeds them (src/TrackView.tsx) is not part of this model.
- The React components (src/App.tsx, src/components/EventItem.tsx, src/TrackView.tsx) and the DOM test are not part of this model.
- The "slot left" event's title (session type followed by " slot left to be filled") is modelled. It never reaches the log, so no lemma states more than that.
