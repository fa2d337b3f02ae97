/** The scheduler: the tracks created so far and the list of sessions still
    open for talks, the best-fit step that places one talk, and the
    invariants that step keeps. */
module Scheduler {
  import opened Wrappers
  import opened Clock
  import opened Tracks

  /** Names one session: which track, and which half of it. The open list
      holds these references, so a session has one home, in its track. */
  datatype SessionRef = SessionRef(track: nat, kind: SessionType)

  /** "Talk minutes exceeds morning or afternoon slots". */
  datatype AddError = TalkTooLong

  datatype State = State(tracks: seq<Track>, open: seq<SessionRef>)

  /** What one call leaves behind: the new state, and either the placed talk
      or the error it throws (the state changes made before the throw stay). */
  datatype Outcome = Outcome(state: State, result: Result<ProcessedTalk, AddError>)

  /** Free minutes of a referenced session; a reference past the last track
      names nothing, which has none. */
  function Remaining(tracks: seq<Track>, r: SessionRef): nat {
    if r.track < |tracks| then SessionOf(tracks[r.track], r.kind).remainingSlot else 0
  }

  predicate Fits(tracks: seq<Track>, r: SessionRef, minutes: nat) {
    r.track < |tracks| && Remaining(tracks, r) >= minutes
  }

  predicate NoDuplicates(open: seq<SessionRef>) {
    forall i, j :: 0 <= i < j < |open| ==> open[i] != open[j]
  }

  /** Every track is well formed, and the open list holds, once each, exactly
      the sessions that still have free minutes. */
  ghost predicate Consistent(s: State) {
    AllTracksOk(s.tracks) && OpenSetOk(s)
  }

  ghost predicate AllTracksOk(tracks: seq<Track>) {
    forall t :: 0 <= t < |tracks| ==> TrackOk(tracks[t])
  }

  /** The open list holds, once each, exactly the sessions with free minutes. */
  ghost predicate OpenSetOk(s: State) {
    && NoDuplicates(s.open)
    && forall r :: r in s.open <==> Remaining(s.tracks, r) > 0
  }

  // ---------------------------------------------------------------------
  // sorting the open list by free minutes

  predicate SortedByRemaining(tracks: seq<Track>, open: seq<SessionRef>) {
    forall i, j :: 0 <= i < j < |open| ==> Remaining(tracks, open[i]) <= Remaining(tracks, open[j])
  }

  /** Puts r before the first entry with at least as many free minutes. */
  function Insert(tracks: seq<Track>, r: SessionRef, open: seq<SessionRef>): (l: seq<SessionRef>)
    ensures multiset(l) == multiset(open) + multiset{r}
  {
    if open == [] || Remaining(tracks, r) <= Remaining(tracks, open[0]) then [r] + open
    else
      assert open == [open[0]] + open[1..];
      [open[0]] + Insert(tracks, r, open[1..])
  }

  /** The open list ordered by free minutes, fewest first. */
  function SortByRemaining(tracks: seq<Track>, open: seq<SessionRef>): (l: seq<SessionRef>)
    ensures multiset(l) == multiset(open)
  {
    if open == [] then []
    else
      assert open == [open[0]] + open[1..];
      Insert(tracks, open[0], SortByRemaining(tracks, open[1..]))
  }

  lemma {:induction false} InsertKeepsSorted(tracks: seq<Track>, r: SessionRef, open: seq<SessionRef>)
    requires SortedByRemaining(tracks, open)
    ensures var l := Insert(tracks, r, open);
            && SortedByRemaining(tracks, l)
            && l[0] == (if open == [] || Remaining(tracks, r) <= Remaining(tracks, open[0]) then r else open[0])
  {
    if open != [] && Remaining(tracks, r) > Remaining(tracks, open[0]) {
      var rest := Insert(tracks, r, open[1..]);
      InsertKeepsSorted(tracks, r, open[1..]);
      assert Remaining(tracks, open[0]) <= Remaining(tracks, rest[0]);
      var l := [open[0]] + rest;
      forall i, j | 0 <= i < j < |l|
        ensures Remaining(tracks, l[i]) <= Remaining(tracks, l[j])
      {
        assert l[j] == rest[j - 1];
        if i > 0 {
          assert l[i] == rest[i - 1];
        } else if j > 1 {
          assert Remaining(tracks, rest[0]) <= Remaining(tracks, rest[j - 1]);
        }
      }
    }
  }

  /** Sorting yields the same entries, fewest free minutes first. */
  lemma {:induction false} SortIsSorted(tracks: seq<Track>, open: seq<SessionRef>)
    ensures SortedByRemaining(tracks, SortByRemaining(tracks, open))
    ensures multiset(SortByRemaining(tracks, open)) == multiset(open)
  {
    if open != [] {
      SortIsSorted(tracks, open[1..]);
      InsertKeepsSorted(tracks, open[0], SortByRemaining(tracks, open[1..]));
    }
  }

  lemma {:induction false} InsertNoDuplicates(tracks: seq<Track>, r: SessionRef, open: seq<SessionRef>)
    requires NoDuplicates(open) && r !in open
    ensures NoDuplicates(Insert(tracks, r, open))
  {
    if open != [] && Remaining(tracks, r) > Remaining(tracks, open[0]) {
      var rest := Insert(tracks, r, open[1..]);
      assert r !in open[1..];
      InsertNoDuplicates(tracks, r, open[1..]);
      assert open[0] !in open[1..];
      assert open[0] !in multiset(rest);
      var l := [open[0]] + rest;
      forall i, j | 0 <= i < j < |l|
        ensures l[i] != l[j]
      {
        assert l[j] == rest[j - 1];
        if i > 0 {
          assert l[i] == rest[i - 1];
        }
      }
    }
  }

  lemma {:induction false} SortNoDuplicates(tracks: seq<Track>, open: seq<SessionRef>)
    requires NoDuplicates(open)
    ensures NoDuplicates(SortByRemaining(tracks, open))
  {
    if open != [] {
      SortNoDuplicates(tracks, open[1..]);
      assert open[0] !in open[1..];
      assert open[0] !in multiset(SortByRemaining(tracks, open[1..]));
      InsertNoDuplicates(tracks, open[0], SortByRemaining(tracks, open[1..]));
    }
  }

  // ---------------------------------------------------------------------
  // searching the open list

  /** Index of the first entry that has room for the given minutes. */
  function FirstFit(tracks: seq<Track>, open: seq<SessionRef>, minutes: nat): (r: Option<nat>)
    ensures r.None? <==> forall i :: 0 <= i < |open| ==> !Fits(tracks, open[i], minutes)
    ensures r.Some? ==> && r.value < |open| && Fits(tracks, open[r.value], minutes)
                        && forall i :: 0 <= i < r.value ==> !Fits(tracks, open[i], minutes)
  {
    if open == [] then None
    else
      var n := |open| - 1;
      match FirstFit(tracks, open[..n], minutes)
      case Some(i) => Some(i)
      case None => if Fits(tracks, open[n], minutes) then Some(n) else None
  }

  /** On a list sorted by free minutes, the first entry with room has the
      fewest free minutes of all entries with room: it is the best fit. */
  lemma FirstFitIsBestFit(tracks: seq<Track>, open: seq<SessionRef>, minutes: nat)
    requires SortedByRemaining(tracks, open)
    ensures var r := FirstFit(tracks, open, minutes);
            r.Some? ==> forall j :: 0 <= j < |open| && Fits(tracks, open[j], minutes) ==>
                          Remaining(tracks, open[r.value]) <= Remaining(tracks, open[j])
  {
  }

  /** Position of the first occurrence of r, or -1 when r is absent. */
  function IndexOf(open: seq<SessionRef>, r: SessionRef): (k: int)
    ensures r in open ==> 0 <= k < |open| && open[k] == r && r !in open[..k]
    ensures r !in open ==> k == -1
  {
    if open == [] then -1
    else if open[0] == r then 0
    else
      var k := IndexOf(open[1..], r);
      if k == -1 then -1
      else
        assert open[..k + 1] == [open[0]] + open[1..][..k];
        k + 1
  }

  /** JavaScript's splice(start, 1): a negative start counts from the end. */
  function SpliceOne(open: seq<SessionRef>, start: int): (l: seq<SessionRef>)
  {
    var at := if start < 0 then (if |open| + start < 0 then 0 else |open| + start)
              else (if start > |open| then |open| else start);
    if at < |open| then open[..at] + open[at + 1..] else open
  }

  /** Splicing out the first occurrence of r removes r and only r. */
  lemma SpliceOutRemoves(open: seq<SessionRef>, r: SessionRef)
    requires NoDuplicates(open) && r in open
    ensures var l := SpliceOne(open, IndexOf(open, r));
            && NoDuplicates(l) && |l| == |open| - 1
            && forall x :: x in l <==> x in open && x != r
  {
    var k := IndexOf(open, r);
    var l := SpliceOne(open, k);
    assert l == open[..k] + open[k + 1..];
    forall x | x in open && x != r
      ensures x in l
    {
      var i :| 0 <= i < |open| && open[i] == x;
      if i < k {
        assert l[i] == x;
      } else {
        assert l[i - 1] == x;
      }
    }
    forall i, j | 0 <= i < j < |l|
      ensures l[i] != l[j]
    {
      var i' := if i < k then i else i + 1;
      var j' := if j < k then j else j + 1;
      assert l[i] == open[i'] && l[j] == open[j'];
    }
  }

  // ---------------------------------------------------------------------
  // one addTalk step

  /** The two sessions of the track at the given index, morning first. */
  function NewRefs(index: nat): seq<SessionRef> {
    [SessionRef(index, Morning), SessionRef(index, Afternoon)]
  }

  /** Appends a new track and opens both of its sessions. */
  function Grow(s: State): State {
    State(s.tracks + [NewTrack()], s.open + NewRefs(|s.tracks|))
  }

  /** Records the talk at the session's cursor, takes its minutes off the
      session and moves the cursor on; a session left with no free minutes is
      spliced out of the open list at the position indexOf reports. */
  function Place(s: State, r: SessionRef, talk: Talk): Outcome
    requires Fits(s.tracks, r, Cost(talk.duration))
  {
    var before := SessionOf(s.tracks[r.track], r.kind);
    var p := ProcessedTalk(talk.title, talk.duration, Format12(before.lastTalkEnd));
    var after := Record(before, p);
    var tracks := s.tracks[r.track := WithSession(s.tracks[r.track], r.kind, after)];
    var open := if after.remainingSlot == 0 then SpliceOne(s.open, IndexOf(s.open, r)) else s.open;
    Outcome(State(tracks, open), Success(p))
  }

  /** addTalk: sort the open list by free minutes and place the talk in the
      first session with room; when there is none, append a new track, open
      both its sessions and place the talk in the first of them with room,
      or fail when neither has. */
  function AddTalkSpec(s: State, talk: Talk): Outcome {
    var minutes := Cost(talk.duration);
    var sorted := State(s.tracks, SortByRemaining(s.tracks, s.open));
    match FirstFit(sorted.tracks, sorted.open, minutes)
    case Some(i) => Place(sorted, sorted.open[i], talk)
    case None =>
      PlaceInNewTrack(sorted, talk)
  }

  /** Appends a new track, opens both its sessions, and searches the two,
      morning first; throws when neither has room. */
  function PlaceInNewTrack(s: State, talk: Talk): Outcome {
    var minutes := Cost(talk.duration);
    var grown := Grow(s);
    var morning, afternoon := SessionRef(|s.tracks|, Morning), SessionRef(|s.tracks|, Afternoon);
    if Fits(grown.tracks, morning, minutes) then Place(grown, morning, talk)
    else if Fits(grown.tracks, afternoon, minutes) then Place(grown, afternoon, talk)
    else Outcome(grown, Failure(TalkTooLong))
  }

  /** The talk went into session r of the given tracks: it was printed at the
      session's cursor, the session gained it as its last talk, lost its
      minutes and moved its cursor on, and no other session changed. */
  ghost predicate PlacedIn(tracks: seq<Track>, o: Outcome, r: SessionRef, talk: Talk) {
    && r.track < |tracks| == |o.state.tracks|
    && (forall q :: q != r && q.track < |tracks| ==>
          SessionOf(o.state.tracks[q.track], q.kind) == SessionOf(tracks[q.track], q.kind))
    && var before := SessionOf(tracks[r.track], r.kind);
       var after := SessionOf(o.state.tracks[r.track], r.kind);
       var minutes := Cost(talk.duration);
       && minutes <= before.remainingSlot
       && o.result == Success(ProcessedTalk(talk.title, talk.duration, Format12(before.lastTalkEnd)))
       && after.talks == before.talks + [o.result.value]
       && after.remainingSlot == before.remainingSlot - minutes
       && after.lastTalkEnd == before.lastTalkEnd + minutes
  }

  lemma PlaceIsPlacedIn(s: State, r: SessionRef, talk: Talk)
    requires Fits(s.tracks, r, Cost(talk.duration))
    ensures PlacedIn(s.tracks, Place(s, r, talk), r, talk)
  {
  }

  // ---------------------------------------------------------------------
  // the invariant

  lemma SortKeepsOpenSet(s: State)
    requires OpenSetOk(s)
    ensures OpenSetOk(State(s.tracks, SortByRemaining(s.tracks, s.open)))
  {
    SortNoDuplicates(s.tracks, s.open);
    var sorted := SortByRemaining(s.tracks, s.open);
    forall r
      ensures r in sorted <==> r in s.open
    {
      assert r in sorted <==> r in multiset(sorted);
      assert r in s.open <==> r in multiset(s.open);
    }
  }

  lemma GrowKeepsTracksOk(s: State)
    requires AllTracksOk(s.tracks)
    ensures AllTracksOk(Grow(s).tracks)
  {
    var g := Grow(s);
    forall t | 0 <= t < |g.tracks|
      ensures TrackOk(g.tracks[t])
    {
      if t < |s.tracks| {
        assert g.tracks[t] == s.tracks[t];
      } else {
        NewTrackOk(g.tracks[t]);
      }
    }
  }

  lemma GrowKeepsOpenSet(s: State)
    requires OpenSetOk(s)
    ensures OpenSetOk(Grow(s))
  {
    var g := Grow(s);
    var n := |s.tracks|;
    forall r
      ensures r in g.open <==> Remaining(g.tracks, r) > 0
    {
      if r.track < n {
        assert g.tracks[r.track] == s.tracks[r.track];
        assert r !in NewRefs(n);
      } else if r.track == n {
        assert r == SessionRef(n, Morning) || r == SessionRef(n, Afternoon);
        assert g.open[|s.open|] == SessionRef(n, Morning);
        assert g.open[|s.open| + 1] == SessionRef(n, Afternoon);
      }
    }
    forall i, j | 0 <= i < j < |g.open|
      ensures g.open[i] != g.open[j]
    {
      if i < |s.open| && j >= |s.open| {
        assert s.open[i] in s.open;
      }
    }
  }

  lemma UpdateKeepsAllTracksOk(tracks: seq<Track>, i: nat, t: Track)
    requires AllTracksOk(tracks) && i < |tracks| && TrackOk(t)
    ensures AllTracksOk(tracks[i := t])
  {
  }

  lemma PlaceKeepsTracksOk(s: State, r: SessionRef, talk: Talk)
    requires AllTracksOk(s.tracks) && Fits(s.tracks, r, Cost(talk.duration))
    ensures AllTracksOk(Place(s, r, talk).state.tracks)
  {
    var t := s.tracks[r.track];
    var before := SessionOf(t, r.kind);
    var p := ProcessedTalk(talk.title, talk.duration, Format12(before.lastTalkEnd));
    assert TrackOk(t);
    RecordKeepsTrackOk(t, r.kind, p);
    UpdateKeepsAllTracksOk(s.tracks, r.track, WithSession(t, r.kind, Record(before, p)));
  }

  lemma PlaceKeepsOpenSet(s: State, r: SessionRef, talk: Talk)
    requires OpenSetOk(s) && r in s.open && Fits(s.tracks, r, Cost(talk.duration))
    ensures OpenSetOk(Place(s, r, talk).state)
  {
    var o := Place(s, r, talk);
    PlaceIsPlacedIn(s, r, talk);
    forall q | q != r
      ensures Remaining(o.state.tracks, q) == Remaining(s.tracks, q)
    {
    }
    if Remaining(o.state.tracks, r) == 0 {
      SpliceOutRemoves(s.open, r);
    }
  }

  lemma PlaceInGrownKeepsTracksOk(s: State, talk: Talk)
    requires AllTracksOk(Grow(s).tracks)
    ensures AllTracksOk(PlaceInNewTrack(s, talk).state.tracks)
  {
    var grown := Grow(s);
    var morning, afternoon := SessionRef(|s.tracks|, Morning), SessionRef(|s.tracks|, Afternoon);
    if Fits(grown.tracks, morning, Cost(talk.duration)) {
      PlaceKeepsTracksOk(grown, morning, talk);
    } else if Fits(grown.tracks, afternoon, Cost(talk.duration)) {
      PlaceKeepsTracksOk(grown, afternoon, talk);
    }
  }

  lemma PlaceInNewTrackKeepsTracksOk(s: State, talk: Talk)
    requires AllTracksOk(s.tracks)
    ensures AllTracksOk(PlaceInNewTrack(s, talk).state.tracks)
  {
    GrowKeepsTracksOk(s);
    PlaceInGrownKeepsTracksOk(s, talk);
  }

  lemma PlaceInNewTrackKeepsOpenSet(s: State, talk: Talk)
    requires OpenSetOk(s)
    ensures OpenSetOk(PlaceInNewTrack(s, talk).state)
  {
    var grown := Grow(s);
    var morning, afternoon := SessionRef(|s.tracks|, Morning), SessionRef(|s.tracks|, Afternoon);
    GrowKeepsOpenSet(s);
    assert grown.open[|s.open|] == morning && grown.open[|s.open| + 1] == afternoon;
    if Fits(grown.tracks, morning, Cost(talk.duration)) {
      PlaceKeepsOpenSet(grown, morning, talk);
    } else if Fits(grown.tracks, afternoon, Cost(talk.duration)) {
      PlaceKeepsOpenSet(grown, afternoon, talk);
    }
  }

  lemma AddTalkKeepsTracksOk(s: State, talk: Talk)
    requires AllTracksOk(s.tracks)
    ensures AllTracksOk(AddTalkSpec(s, talk).state.tracks)
  {
    var sorted := State(s.tracks, SortByRemaining(s.tracks, s.open));
    match FirstFit(sorted.tracks, sorted.open, Cost(talk.duration)) {
      case Some(i) =>
        PlaceKeepsTracksOk(sorted, sorted.open[i], talk);
      case None =>
        PlaceInNewTrackKeepsTracksOk(sorted, talk);
    }
  }

  lemma AddTalkKeepsOpenSet(s: State, talk: Talk)
    requires OpenSetOk(s)
    ensures OpenSetOk(AddTalkSpec(s, talk).state)
  {
    var sorted := State(s.tracks, SortByRemaining(s.tracks, s.open));
    SortKeepsOpenSet(s);
    match FirstFit(sorted.tracks, sorted.open, Cost(talk.duration)) {
      case Some(i) =>
        PlaceKeepsOpenSet(sorted, sorted.open[i], talk);
      case None =>
        PlaceInNewTrackKeepsOpenSet(sorted, talk);
    }
  }

  /** Every call keeps the invariant, whether it places the talk or throws. */
  lemma AddTalkKeepsConsistent(s: State, talk: Talk)
    requires Consistent(s)
    ensures Consistent(AddTalkSpec(s, talk).state)
  {
    AddTalkKeepsTracksOk(s, talk);
    AddTalkKeepsOpenSet(s, talk);
  }

  // ---------------------------------------------------------------------
  // what one call does

  lemma SortedFitsAtIndex(s: State, q: SessionRef, minutes: nat) returns (k: nat)
    requires OpenSetOk(s) && q in s.open && Remaining(s.tracks, q) >= minutes
    ensures var sorted := SortByRemaining(s.tracks, s.open);
            k < |sorted| && sorted[k] == q && Fits(s.tracks, sorted[k], minutes)
  {
    var sorted := SortByRemaining(s.tracks, s.open);
    assert q in multiset(s.open);
    assert q in multiset(sorted);
    k :| 0 <= k < |sorted| && sorted[k] == q;
  }

  lemma SortedEntryIsOpen(s: State, k: nat)
    requires k < |SortByRemaining(s.tracks, s.open)|
    ensures SortByRemaining(s.tracks, s.open)[k] in s.open
  {
    var sorted := SortByRemaining(s.tracks, s.open);
    assert sorted[k] in multiset(sorted);
  }

  /** When some open session has room, the talk goes into one of them with the
      fewest free minutes among those with room, and no track is added. */
  lemma AddTalkPicksBestFit(s: State, talk: Talk)
    requires OpenSetOk(s)
    requires exists q :: q in s.open && Remaining(s.tracks, q) >= Cost(talk.duration)
    ensures var o := AddTalkSpec(s, talk);
            exists r :: && r in s.open && PlacedIn(s.tracks, o, r, talk)
                        && forall q :: q in s.open && Remaining(s.tracks, q) >= Cost(talk.duration) ==>
                             Remaining(s.tracks, r) <= Remaining(s.tracks, q)
  {
    var minutes := Cost(talk.duration);
    var sorted := SortByRemaining(s.tracks, s.open);
    SortIsSorted(s.tracks, s.open);
    var q0 :| q0 in s.open && Remaining(s.tracks, q0) >= minutes;
    var k0 := SortedFitsAtIndex(s, q0, minutes);
    var i := FirstFit(s.tracks, sorted, minutes).value;
    var r := sorted[i];
    FirstFitIsBestFit(s.tracks, sorted, minutes);
    SortedEntryIsOpen(s, i);
    PlaceIsPlacedIn(State(s.tracks, sorted), r, talk);
    forall q | q in s.open && Remaining(s.tracks, q) >= minutes
      ensures Remaining(s.tracks, r) <= Remaining(s.tracks, q)
    {
      var k := SortedFitsAtIndex(s, q, minutes);
    }
  }

  /** The talk placed in a new track, seen from the tracks before the call. */
  lemma PlaceInNewTrackIsPlacedIn(s: State, talk: Talk)
    ensures var o := PlaceInNewTrack(s, talk); var n := |s.tracks|; var minutes := Cost(talk.duration);
            var grown := s.tracks + [NewTrack()];
            && (minutes <= Capacity(Morning) ==> PlacedIn(grown, o, SessionRef(n, Morning), talk))
            && (Capacity(Morning) < minutes <= Capacity(Afternoon) ==>
                  PlacedIn(grown, o, SessionRef(n, Afternoon), talk))
            && (minutes > Capacity(Afternoon) ==> o == Outcome(Grow(s), Failure(TalkTooLong)))
  {
    var g := Grow(s);
    var n := |s.tracks|;
    assert g.tracks[n] == NewTrack();
    if Cost(talk.duration) <= Capacity(Morning) {
      PlaceIsPlacedIn(g, SessionRef(n, Morning), talk);
    } else if Cost(talk.duration) <= Capacity(Afternoon) {
      PlaceIsPlacedIn(g, SessionRef(n, Afternoon), talk);
    }
  }

  lemma PlaceInNewTrackKeepsOldTracks(s: State, talk: Talk)
    ensures var o := PlaceInNewTrack(s, talk);
            |o.state.tracks| == |s.tracks| + 1 && o.state.tracks[..|s.tracks|] == s.tracks
  {
    var g := Grow(s);
    var n := |s.tracks|;
    assert g.tracks[..n] == s.tracks;
  }

  /** When no open session has room, a new track is appended after the others
      and both its sessions are opened; the talk goes into its morning when it
      needs at most 180 minutes, else into its afternoon when it needs at most
      240, and otherwise the call throws and the new empty track remains. */
  lemma AddTalkOpensTrack(s: State, talk: Talk)
    requires forall q :: q in s.open ==> Remaining(s.tracks, q) < Cost(talk.duration)
    ensures var o := AddTalkSpec(s, talk); var n := |s.tracks|; var minutes := Cost(talk.duration);
            var grown := s.tracks + [NewTrack()];
            && |o.state.tracks| == n + 1 && o.state.tracks[..n] == s.tracks
            && (minutes <= Capacity(Morning) ==> PlacedIn(grown, o, SessionRef(n, Morning), talk))
            && (Capacity(Morning) < minutes <= Capacity(Afternoon) ==>
                  PlacedIn(grown, o, SessionRef(n, Afternoon), talk))
            && (minutes > Capacity(Afternoon) ==>
                  && o.result == Failure(TalkTooLong) && o.state.tracks == grown
                  && SessionRef(n, Morning) in o.state.open && SessionRef(n, Afternoon) in o.state.open)
  {
    var minutes := Cost(talk.duration);
    var sorted := State(s.tracks, SortByRemaining(s.tracks, s.open));
    forall k | 0 <= k < |sorted.open|
      ensures !Fits(s.tracks, sorted.open[k], minutes)
    {
      SortedEntryIsOpen(s, k);
    }
    assert AddTalkSpec(s, talk) == PlaceInNewTrack(sorted, talk);
    PlaceInNewTrackIsPlacedIn(sorted, talk);
    PlaceInNewTrackKeepsOldTracks(sorted, talk);
    assert Grow(sorted).open[|sorted.open|] == SessionRef(|s.tracks|, Morning);
    assert Grow(sorted).open[|sorted.open| + 1] == SessionRef(|s.tracks|, Afternoon);
  }

  /** An open session never has more free minutes than its capacity, so never
      more than 240. */
  lemma RemainingWithinCapacity(s: State, q: SessionRef)
    requires AllTracksOk(s.tracks) && q.track < |s.tracks|
    ensures Remaining(s.tracks, q) <= Capacity(q.kind) <= Capacity(Afternoon)
  {
    assert TrackOk(s.tracks[q.track]);
    assert SessionOk(SessionOf(s.tracks[q.track], q.kind), q.kind);
  }

  /** A call throws exactly when the talk needs more than 240 minutes. */
  lemma AddTalkFailsIffTooLong(s: State, talk: Talk)
    requires Consistent(s)
    ensures AddTalkSpec(s, talk).result.Failure? <==> Cost(talk.duration) > Capacity(Afternoon)
  {
    var minutes := Cost(talk.duration);
    if q :| q in s.open && Remaining(s.tracks, q) >= minutes {
      AddTalkPicksBestFit(s, talk);
      RemainingWithinCapacity(s, q);
    } else {
      AddTalkOpensTrack(s, talk);
    }
  }

  /** Placing a talk adds one talk to one session and leaves the rest. */
  lemma PlaceCountsOne(s: State, r: SessionRef, talk: Talk)
    requires Fits(s.tracks, r, Cost(talk.duration))
    ensures TalkCount(Place(s, r, talk).state.tracks) == TalkCount(s.tracks) + 1
  {
    var t := s.tracks[r.track];
    var before := SessionOf(t, r.kind);
    var p := ProcessedTalk(talk.title, talk.duration, Format12(before.lastTalkEnd));
    var t' := WithSession(t, r.kind, Record(before, p));
    TalkCountUpdate(s.tracks, r.track, t');
    assert TrackTalks(t') == TrackTalks(t) + 1;
  }

  /** A call that succeeds adds exactly one talk overall; one that throws adds
      none. */
  lemma AddTalkCountsOne(s: State, talk: Talk)
    ensures var o := AddTalkSpec(s, talk);
            TalkCount(o.state.tracks) == TalkCount(s.tracks) + (if o.result.Success? then 1 else 0)
  {
    var minutes := Cost(talk.duration);
    var sorted := State(s.tracks, SortByRemaining(s.tracks, s.open));
    match FirstFit(sorted.tracks, sorted.open, minutes)
    case Some(i) =>
      PlaceCountsOne(sorted, sorted.open[i], talk);
    case None =>
      var g := Grow(sorted);
      TalkCountAppend(s.tracks, NewTrack());
      if Fits(g.tracks, SessionRef(|s.tracks|, Morning), minutes) {
        PlaceCountsOne(g, SessionRef(|s.tracks|, Morning), talk);
      } else if Fits(g.tracks, SessionRef(|s.tracks|, Afternoon), minutes) {
        PlaceCountsOne(g, SessionRef(|s.tracks|, Afternoon), talk);
      }
  }

  /** Placing adds the returned talk, and only it, to the talks held. */
  lemma PlaceHoldsOne(s: State, r: SessionRef, talk: Talk)
    requires Fits(s.tracks, r, Cost(talk.duration))
    ensures var o := Place(s, r, talk);
            && o.result.Success? && Held(o.state.tracks) == Held(s.tracks) + multiset{o.result.value}
            && o.result.value.title == talk.title && o.result.value.duration == talk.duration
  {
    var t := s.tracks[r.track];
    var before := SessionOf(t, r.kind);
    var p := ProcessedTalk(talk.title, talk.duration, Format12(before.lastTalkEnd));
    var t' := WithSession(t, r.kind, Record(before, p));
    assert Place(s, r, talk).state.tracks == s.tracks[r.track := t'];
    assert Place(s, r, talk).result == Success(p);
    HeldUpdate(s.tracks, r.track, t');
    AppendHeld(t, r.kind, Record(before, p), p);
    CancelRight(Held(s.tracks[r.track := t']), Held(s.tracks) + multiset{p}, TrackHeld(t));
  }

  /** A call that succeeds adds the talk it returns, with the submitted title
      and duration, to the talks held; one that throws adds none. */
  lemma AddTalkHoldsOne(s: State, talk: Talk)
    ensures var o := AddTalkSpec(s, talk);
            && Held(o.state.tracks) == Held(s.tracks) + (if o.result.Success? then multiset{o.result.value} else multiset{})
            && (o.result.Success? ==> o.result.value.title == talk.title && o.result.value.duration == talk.duration)
  {
    var minutes := Cost(talk.duration);
    var sorted := State(s.tracks, SortByRemaining(s.tracks, s.open));
    match FirstFit(sorted.tracks, sorted.open, minutes)
    case Some(i) =>
      PlaceHoldsOne(sorted, sorted.open[i], talk);
    case None =>
      var g := Grow(sorted);
      HeldAppend(s.tracks, NewTrack());
      assert TrackHeld(NewTrack()) == multiset{};
      assert Held(g.tracks) == Held(s.tracks);
      if Fits(g.tracks, SessionRef(|s.tracks|, Morning), minutes) {
        PlaceHoldsOne(g, SessionRef(|s.tracks|, Morning), talk);
      } else if Fits(g.tracks, SessionRef(|s.tracks|, Afternoon), minutes) {
        PlaceHoldsOne(g, SessionRef(|s.tracks|, Afternoon), talk);
      }
  }

  /** The later tracks keep every earlier track, every talk already placed,
      and give no session minutes back. */
  ghost predicate Extends(before: seq<Track>, after: seq<Track>) {
    && |before| <= |after|
    && forall q: SessionRef :: q.track < |before| ==>
         && SessionOf(before[q.track], q.kind).talks <= SessionOf(after[q.track], q.kind).talks
         && Remaining(after, q) <= Remaining(before, q)
  }

  lemma ExtendsTrans(a: seq<Track>, b: seq<Track>, c: seq<Track>)
    requires Extends(a, b) && Extends(b, c)
    ensures Extends(a, c)
  {
    forall q: SessionRef | q.track < |a|
      ensures SessionOf(a[q.track], q.kind).talks <= SessionOf(c[q.track], q.kind).talks
    {
      var x, y, z := SessionOf(a[q.track], q.kind).talks, SessionOf(b[q.track], q.kind).talks,
                     SessionOf(c[q.track], q.kind).talks;
      assert y[..|x|] == x && z[..|y|] == y;
      assert z[..|x|] == y[..|x|];
    }
  }

  lemma PlaceExtends(s: State, r: SessionRef, talk: Talk)
    requires Fits(s.tracks, r, Cost(talk.duration))
    ensures Extends(s.tracks, Place(s, r, talk).state.tracks)
  {
    PlaceIsPlacedIn(s, r, talk);
  }

  lemma GrowExtends(s: State)
    ensures Extends(s.tracks, Grow(s).tracks)
  {
    var g := Grow(s);
    forall q: SessionRef | q.track < |s.tracks|
      ensures g.tracks[q.track] == s.tracks[q.track]
    {
    }
  }

  lemma PlaceInNewTrackExtends(s: State, talk: Talk)
    ensures Extends(s.tracks, PlaceInNewTrack(s, talk).state.tracks)
  {
    var minutes := Cost(talk.duration);
    var g := Grow(s);
    var morning, afternoon := SessionRef(|s.tracks|, Morning), SessionRef(|s.tracks|, Afternoon);
    GrowExtends(s);
    if Fits(g.tracks, morning, minutes) {
      PlaceExtends(g, morning, talk);
      ExtendsTrans(s.tracks, g.tracks, PlaceInNewTrack(s, talk).state.tracks);
    } else if Fits(g.tracks, afternoon, minutes) {
      PlaceExtends(g, afternoon, talk);
      ExtendsTrans(s.tracks, g.tracks, PlaceInNewTrack(s, talk).state.tracks);
    }
  }

  /** No call removes a track, takes a talk out of a session or gives a
      session minutes back; so a session that has left the open list never
      returns to it. */
  lemma AddTalkOnlyAdds(s: State, talk: Talk)
    requires OpenSetOk(s)
    ensures var o := AddTalkSpec(s, talk);
            && Extends(s.tracks, o.state.tracks)
            && forall q: SessionRef :: q.track < |s.tracks| && q !in s.open ==> q !in o.state.open
  {
    var o := AddTalkSpec(s, talk);
    var sorted := State(s.tracks, SortByRemaining(s.tracks, s.open));
    match FirstFit(sorted.tracks, sorted.open, Cost(talk.duration)) {
      case Some(i) =>
        PlaceExtends(sorted, sorted.open[i], talk);
      case None =>
        PlaceInNewTrackExtends(sorted, talk);
    }
    AddTalkKeepsOpenSet(s, talk);
    forall q: SessionRef | q.track < |s.tracks| && q !in s.open
      ensures q !in o.state.open
    {
      assert Remaining(o.state.tracks, q) <= Remaining(s.tracks, q);
    }
  }

  // ---------------------------------------------------------------------
  // a sequence of calls

  /** The state after submitting the talks in order to a new scheduler, and
      what each call returned. */
  datatype Replay = Replay(state: State, results: seq<Result<ProcessedTalk, AddError>>)

  function Successes(results: seq<Result<ProcessedTalk, AddError>>): nat {
    if results == [] then 0
    else Successes(results[..|results| - 1]) + (if results[|results| - 1].Success? then 1 else 0)
  }

  /** The talks the successful calls returned. */
  function Placed(results: seq<Result<ProcessedTalk, AddError>>): multiset<ProcessedTalk> {
    if results == [] then multiset{}
    else Placed(results[..|results| - 1])
         + (if results[|results| - 1].Success? then multiset{results[|results| - 1].value} else multiset{})
  }

  /** Each successful call returned the talk submitted in that call. */
  predicate Echoes(talks: seq<Talk>, results: seq<Result<ProcessedTalk, AddError>>) {
    |results| == |talks|
    && forall i :: 0 <= i < |talks| && results[i].Success? ==>
         results[i].value.title == talks[i].title && results[i].value.duration == talks[i].duration
  }

  lemma EchoesStep(talks: seq<Talk>, results: seq<Result<ProcessedTalk, AddError>>, talk: Talk,
                   result: Result<ProcessedTalk, AddError>)
    requires Echoes(talks, results)
    requires result.Success? ==> result.value.title == talk.title && result.value.duration == talk.duration
    ensures Echoes(talks + [talk], results + [result])
  {
    var ts, rs := talks + [talk], results + [result];
    forall i | 0 <= i < |ts| && rs[i].Success?
      ensures rs[i].value.title == ts[i].title && rs[i].value.duration == ts[i].duration
    {
      if i < |talks| {
        assert rs[i] == results[i] && ts[i] == talks[i];
      }
    }
  }

  /** One more call, for the last of the talks, keeps the replay's talks and
      results in step. */
  lemma ReplayStep(prev: Replay, o: Outcome, talks: seq<Talk>)
    requires talks != []
    requires Held(prev.state.tracks) == Placed(prev.results) && Echoes(talks[..|talks| - 1], prev.results)
    requires Held(o.state.tracks)
             == Held(prev.state.tracks) + (if o.result.Success? then multiset{o.result.value} else multiset{})
    requires var talk := talks[|talks| - 1];
             o.result.Success? ==> o.result.value.title == talk.title && o.result.value.duration == talk.duration
    ensures Held(o.state.tracks) == Placed(prev.results + [o.result])
    ensures Echoes(talks, prev.results + [o.result])
  {
    var n := |talks| - 1;
    var results := prev.results + [o.result];
    assert results[..|results| - 1] == prev.results;
    EchoesStep(talks[..n], prev.results, talks[n], o.result);
    assert talks[..n] + [talks[n]] == talks;
  }

  /** However many talks are submitted, the invariant holds throughout, and
      the tracks hold exactly the talks the successful calls returned, each
      with the title and duration submitted in that call. */
  function Run(talks: seq<Talk>): (r: Replay)
    ensures Consistent(r.state) && |r.results| == |talks|
    ensures TalkCount(r.state.tracks) == Successes(r.results)
    ensures Held(r.state.tracks) == Placed(r.results) && Echoes(talks, r.results)
  {
    if talks == [] then Replay(State([], []), [])
    else
      var n := |talks| - 1;
      var prev := Run(talks[..n]);
      var o := AddTalkSpec(prev.state, talks[n]);
      var results := prev.results + [o.result];
      assert Consistent(o.state) && TalkCount(o.state.tracks) == Successes(results) by {
        AddTalkKeepsConsistent(prev.state, talks[n]);
        AddTalkCountsOne(prev.state, talks[n]);
        assert results[..|results| - 1] == prev.results;
      }
      assert Held(o.state.tracks) == Placed(results) && Echoes(talks, results) by {
        AddTalkHoldsOne(prev.state, talks[n]);
        ReplayStep(prev, o, talks);
      }
      Replay(o.state, results)
  }
}
