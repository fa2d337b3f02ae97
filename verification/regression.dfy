/** The scenarios of the scheduler's own test suite, replayed on the model.
    Each scenario submits its talks in order to a new scheduler; the facts it
    checks follow from the best-fit and new-track lemmas, one step at a time. */
module Regression {
  import opened Wrappers
  import opened Clock
  import opened Tracks
  import opened Scheduler

  /** The talk as placed at the given clock text. */
  function Booked(talk: Talk, time: string): ProcessedTalk {
    ProcessedTalk(talk.title, talk.duration, time)
  }

  /** The talk as placed at the given minute of the day. */
  function At(talk: Talk, minutes: nat): ProcessedTalk {
    Booked(talk, Format12(minutes))
  }

  /** The tracks once the talk is recorded at the cursor of session r. */
  function Put(tracks: seq<Track>, r: SessionRef, talk: Talk): seq<Track>
    requires Fits(tracks, r, Cost(talk.duration))
  {
    var before := SessionOf(tracks[r.track], r.kind);
    tracks[r.track := WithSession(tracks[r.track], r.kind, Record(before, At(talk, before.lastTalkEnd)))]
  }

  lemma PlacedInIsPut(tracks: seq<Track>, o: Outcome, r: SessionRef, talk: Talk)
    requires PlacedIn(tracks, o, r, talk)
    ensures Fits(tracks, r, Cost(talk.duration))
    ensures o.state.tracks == Put(tracks, r, talk)
    ensures o.result == Success(At(talk, SessionOf(tracks[r.track], r.kind).lastTalkEnd))
  {
    var expected := Put(tracks, r, talk);
    forall t | 0 <= t < |expected|
      ensures o.state.tracks[t] == expected[t]
    {
      var qm, qa := SessionRef(t, Morning), SessionRef(t, Afternoon);
      if qm != r {
        assert SessionOf(o.state.tracks[qm.track], qm.kind) == SessionOf(tracks[qm.track], qm.kind);
      }
      if qa != r {
        assert SessionOf(o.state.tracks[qa.track], qa.kind) == SessionOf(tracks[qa.track], qa.kind);
      }
      assert SessionOf(o.state.tracks[t], Morning) == SessionOf(expected[t], Morning);
      assert SessionOf(o.state.tracks[t], Afternoon) == SessionOf(expected[t], Afternoon);
    }
  }

  /** When one session with room has strictly fewer free minutes than every
      other session with room, the talk goes there. */
  lemma StepInto(s: State, talk: Talk, r: SessionRef)
    requires OpenSetOk(s) && Cost(talk.duration) > 0 && Fits(s.tracks, r, Cost(talk.duration))
    requires forall q: SessionRef :: q != r && Fits(s.tracks, q, Cost(talk.duration)) ==>
               Remaining(s.tracks, q) > Remaining(s.tracks, r)
    ensures var o := AddTalkSpec(s, talk);
            && o.state.tracks == Put(s.tracks, r, talk)
            && o.result == Success(At(talk, SessionOf(s.tracks[r.track], r.kind).lastTalkEnd))
            && OpenSetOk(o.state)
  {
    var o := AddTalkSpec(s, talk);
    AddTalkKeepsOpenSet(s, talk);
    assert r in s.open;
    AddTalkPicksBestFit(s, talk);
    var r' :| r' in s.open && PlacedIn(s.tracks, o, r', talk)
              && forall q :: q in s.open && Remaining(s.tracks, q) >= Cost(talk.duration) ==>
                   Remaining(s.tracks, r') <= Remaining(s.tracks, q);
    assert r' == r;
    PlacedInIsPut(s.tracks, o, r, talk);
  }

  /** When no session has room, the talk opens a new track, in its morning
      when it needs at most 180 minutes and in its afternoon otherwise. */
  lemma StepNewTrack(s: State, talk: Talk)
    requires OpenSetOk(s) && Cost(talk.duration) <= Capacity(Afternoon)
    requires forall q: SessionRef :: Remaining(s.tracks, q) < Cost(talk.duration)
    ensures var o := AddTalkSpec(s, talk);
            var r := SessionRef(|s.tracks|, if Cost(talk.duration) <= Capacity(Morning) then Morning else Afternoon);
            && Fits(s.tracks + [NewTrack()], r, Cost(talk.duration))
            && o.state.tracks == Put(s.tracks + [NewTrack()], r, talk)
            && o.result == Success(At(talk, StartTime(r.kind)))
            && OpenSetOk(o.state)
  {
    var o := AddTalkSpec(s, talk);
    var grown := s.tracks + [NewTrack()];
    var r := SessionRef(|s.tracks|, if Cost(talk.duration) <= Capacity(Morning) then Morning else Afternoon);
    AddTalkKeepsOpenSet(s, talk);
    AddTalkOpensTrack(s, talk);
    PlacedInIsPut(grown, o, r, talk);
    assert grown[|s.tracks|] == NewTrack();
  }

  lemma {:induction false} DistinctCount(a: seq<SessionRef>, x: SessionRef)
    requires NoDuplicates(a)
    ensures multiset(a)[x] == if x in a then 1 else 0
  {
    if a != [] {
      var n := |a| - 1;
      assert a == a[..n] + [a[n]];
      DistinctCount(a[..n], x);
    }
  }

  /** The open list is as long as any duplicate-free list of the sessions
      with free minutes. */
  lemma OpenListLength(s: State, l: seq<SessionRef>)
    requires OpenSetOk(s) && NoDuplicates(l)
    requires forall q :: q in l <==> Remaining(s.tracks, q) > 0
    ensures |s.open| == |l|
  {
    forall x
      ensures multiset(s.open)[x] == multiset(l)[x]
    {
      DistinctCount(s.open, x);
      DistinctCount(l, x);
    }
    assert multiset(s.open) == multiset(l);
    assert |multiset(s.open)| == |s.open|;
    assert |multiset(l)| == |l|;
  }

  lemma LogOfTwo(tracks: seq<Track>)
    requires |tracks| == 2
    ensures TimelineLog(tracks) == TrackLines(0, tracks[0]) + TrackLines(1, tracks[1])
  {
    var first := tracks[..1];
    assert tracks[..|tracks| - 1] == first && first[..0] == [];
    assert TimelineLog(first) == [] + TrackLines(0, tracks[0]);
    assert [] + TrackLines(0, tracks[0]) == TrackLines(0, tracks[0]);
  }

  // ---------------------------------------------------------------------
  // a first talk opens the first track

  const HelloTalk1 := Talk("Some Hello World", Lightning)

  const HelloTracks1 :=
    [Track(Session([Booked(HelloTalk1, "09:00AM")], 175, 545),
           Session([], 240, 780))]

  lemma HelloFacts1()
    ensures forall q: SessionRef :: Remaining([], q) < 5
  {
  }

  lemma HelloPut1()
    ensures Put([] + [NewTrack()], SessionRef(0, Morning), HelloTalk1) == HelloTracks1
  {
    ClockText540();
    var p := Put([] + [NewTrack()], SessionRef(0, Morning), HelloTalk1);
    assert p[0].morning == HelloTracks1[0].morning;
  }

  lemma HelloStep1(s: State)
    requires OpenSetOk(s) && s.tracks == []
    ensures var o := AddTalkSpec(s, HelloTalk1);
            && o.state.tracks == HelloTracks1 && OpenSetOk(o.state)
            && o.result == Success(Booked(HelloTalk1, "09:00AM"))
  {
    HelloFacts1();
    HelloPut1();
    ClockText540();
    StepNewTrack(s, HelloTalk1);
  }

  lemma HelloPart1(s0: State, o1: Outcome)
    requires s0.tracks == [] && s0.open == []
    requires o1 == AddTalkSpec(s0, HelloTalk1)
    ensures o1.state.tracks == HelloTracks1 && OpenSetOk(o1.state)
  {
    assert OpenSetOk(s0);
    HelloStep1(s0);
  }

  /** A new scheduler has no tracks; its first talk opens one. */
  lemma CreatesTrack(s0: State, o1: Outcome)
    requires s0.tracks == [] && s0.open == []
    requires o1 == AddTalkSpec(s0, HelloTalk1)
    ensures |s0.tracks| == 0 && |o1.state.tracks| == 1
  {
    HelloPart1(s0, o1);
  }

  // ---------------------------------------------------------------------
  // a session holds several talks

  const MultiTalk1 := Talk("talk one (half of morning)", Fixed(90))
  const MultiTalk2 := Talk("talk two (almost consumes remaining morning talks)", Fixed(80))
  const MultiTalk3 := Talk("Should be forced into afternoon", Fixed(30))
  const MultiTalk4 := Talk("Should go into afternoon", Fixed(30))
  const MultiTalk5 := Talk("Third afternoon talk", Fixed(40))

  const MultiTracks1 :=
    [Track(Session([Booked(MultiTalk1, "09:00AM")], 90, 630),
           Session([], 240, 780))]

  const MultiTracks2 :=
    [Track(Session([Booked(MultiTalk1, "09:00AM"), Booked(MultiTalk2, "10:30AM")], 10, 710),
           Session([], 240, 780))]

  const MultiTracks3 :=
    [Track(Session([Booked(MultiTalk1, "09:00AM"), Booked(MultiTalk2, "10:30AM")], 10, 710),
           Session([Booked(MultiTalk3, "01:00PM")], 210, 810))]

  const MultiTracks4 :=
    [Track(Session([Booked(MultiTalk1, "09:00AM"), Booked(MultiTalk2, "10:30AM")], 10, 710),
           Session([Booked(MultiTalk3, "01:00PM"), Booked(MultiTalk4, "01:30PM")], 180, 840))]

  const MultiTracks5 :=
    [Track(Session([Booked(MultiTalk1, "09:00AM"), Booked(MultiTalk2, "10:30AM")], 10, 710),
           Session([Booked(MultiTalk3, "01:00PM"), Booked(MultiTalk4, "01:30PM"), Booked(MultiTalk5, "02:00PM")], 140, 880))]

  lemma MultiFacts1()
    ensures forall q: SessionRef :: Remaining([], q) < 90
  {
  }

  lemma MultiPut1()
    ensures Put([] + [NewTrack()], SessionRef(0, Morning), MultiTalk1) == MultiTracks1
  {
    ClockText540();
    var p := Put([] + [NewTrack()], SessionRef(0, Morning), MultiTalk1);
    assert p[0].morning == MultiTracks1[0].morning;
  }

  lemma MultiStep1(s: State)
    requires OpenSetOk(s) && s.tracks == []
    ensures var o := AddTalkSpec(s, MultiTalk1);
            && o.state.tracks == MultiTracks1 && OpenSetOk(o.state)
            && o.result == Success(Booked(MultiTalk1, "09:00AM"))
  {
    MultiFacts1();
    MultiPut1();
    ClockText540();
    StepNewTrack(s, MultiTalk1);
  }

  lemma MultiFacts2()
    ensures Fits(MultiTracks1, SessionRef(0, Morning), 80)
    ensures forall q: SessionRef :: q != SessionRef(0, Morning) && Fits(MultiTracks1, q, 80) ==>
              Remaining(MultiTracks1, q) > Remaining(MultiTracks1, SessionRef(0, Morning))
  {
  }

  lemma MultiPut2()
    ensures Put(MultiTracks1, SessionRef(0, Morning), MultiTalk2) == MultiTracks2
  {
    ClockText630();
    var p := Put(MultiTracks1, SessionRef(0, Morning), MultiTalk2);
    assert p[0].morning == MultiTracks2[0].morning;
  }

  lemma MultiStep2(s: State)
    requires OpenSetOk(s) && s.tracks == MultiTracks1
    ensures var o := AddTalkSpec(s, MultiTalk2);
            && o.state.tracks == MultiTracks2 && OpenSetOk(o.state)
            && o.result == Success(Booked(MultiTalk2, "10:30AM"))
  {
    MultiFacts2();
    MultiPut2();
    ClockText630();
    StepInto(s, MultiTalk2, SessionRef(0, Morning));
  }

  lemma MultiFacts3()
    ensures Fits(MultiTracks2, SessionRef(0, Afternoon), 30)
    ensures forall q: SessionRef :: q != SessionRef(0, Afternoon) && Fits(MultiTracks2, q, 30) ==>
              Remaining(MultiTracks2, q) > Remaining(MultiTracks2, SessionRef(0, Afternoon))
  {
  }

  lemma MultiPut3()
    ensures Put(MultiTracks2, SessionRef(0, Afternoon), MultiTalk3) == MultiTracks3
  {
    ClockText780();
    var p := Put(MultiTracks2, SessionRef(0, Afternoon), MultiTalk3);
    assert p[0].afternoon == MultiTracks3[0].afternoon;
  }

  lemma MultiStep3(s: State)
    requires OpenSetOk(s) && s.tracks == MultiTracks2
    ensures var o := AddTalkSpec(s, MultiTalk3);
            && o.state.tracks == MultiTracks3 && OpenSetOk(o.state)
            && o.result == Success(Booked(MultiTalk3, "01:00PM"))
  {
    MultiFacts3();
    MultiPut3();
    ClockText780();
    StepInto(s, MultiTalk3, SessionRef(0, Afternoon));
  }

  lemma MultiFacts4()
    ensures Fits(MultiTracks3, SessionRef(0, Afternoon), 30)
    ensures forall q: SessionRef :: q != SessionRef(0, Afternoon) && Fits(MultiTracks3, q, 30) ==>
              Remaining(MultiTracks3, q) > Remaining(MultiTracks3, SessionRef(0, Afternoon))
  {
  }

  lemma MultiPut4()
    ensures Put(MultiTracks3, SessionRef(0, Afternoon), MultiTalk4) == MultiTracks4
  {
    ClockText810();
    var p := Put(MultiTracks3, SessionRef(0, Afternoon), MultiTalk4);
    assert p[0].afternoon == MultiTracks4[0].afternoon;
  }

  lemma MultiStep4(s: State)
    requires OpenSetOk(s) && s.tracks == MultiTracks3
    ensures var o := AddTalkSpec(s, MultiTalk4);
            && o.state.tracks == MultiTracks4 && OpenSetOk(o.state)
            && o.result == Success(Booked(MultiTalk4, "01:30PM"))
  {
    MultiFacts4();
    MultiPut4();
    ClockText810();
    StepInto(s, MultiTalk4, SessionRef(0, Afternoon));
  }

  lemma MultiFacts5()
    ensures Fits(MultiTracks4, SessionRef(0, Afternoon), 40)
    ensures forall q: SessionRef :: q != SessionRef(0, Afternoon) && Fits(MultiTracks4, q, 40) ==>
              Remaining(MultiTracks4, q) > Remaining(MultiTracks4, SessionRef(0, Afternoon))
  {
  }

  lemma MultiPut5()
    ensures Put(MultiTracks4, SessionRef(0, Afternoon), MultiTalk5) == MultiTracks5
  {
    ClockText840();
    var p := Put(MultiTracks4, SessionRef(0, Afternoon), MultiTalk5);
    assert p[0].afternoon == MultiTracks5[0].afternoon;
  }

  lemma MultiStep5(s: State)
    requires OpenSetOk(s) && s.tracks == MultiTracks4
    ensures var o := AddTalkSpec(s, MultiTalk5);
            && o.state.tracks == MultiTracks5 && OpenSetOk(o.state)
            && o.result == Success(Booked(MultiTalk5, "02:00PM"))
  {
    MultiFacts5();
    MultiPut5();
    ClockText840();
    StepInto(s, MultiTalk5, SessionRef(0, Afternoon));
  }

  lemma MultiPart1(s0: State, o1: Outcome, o2: Outcome)
    requires s0.tracks == [] && s0.open == []
    requires o1 == AddTalkSpec(s0, MultiTalk1)
    requires o2 == AddTalkSpec(o1.state, MultiTalk2)
    ensures o1.state.tracks == MultiTracks1 && OpenSetOk(o1.state)
    ensures o2.state.tracks == MultiTracks2 && OpenSetOk(o2.state)
  {
    assert OpenSetOk(s0);
    MultiStep1(s0);
    MultiStep2(o1.state);
  }

  lemma MultiPart2(s: State, o3: Outcome, o4: Outcome)
    requires OpenSetOk(s) && s.tracks == MultiTracks2
    requires o3 == AddTalkSpec(s, MultiTalk3)
    requires o4 == AddTalkSpec(o3.state, MultiTalk4)
    ensures o3.state.tracks == MultiTracks3 && OpenSetOk(o3.state)
    ensures o4.state.tracks == MultiTracks4 && OpenSetOk(o4.state)
  {
    MultiStep3(s);
    MultiStep4(o3.state);
  }

  lemma MultiPart3(s: State, o5: Outcome)
    requires OpenSetOk(s) && s.tracks == MultiTracks4
    requires o5 == AddTalkSpec(s, MultiTalk5)
    ensures o5.state.tracks == MultiTracks5 && OpenSetOk(o5.state)
  {
    MultiStep5(s);
  }

  /** Two talks fill most of the morning; the next three, too long for what
      is left of it, share the afternoon. */
  lemma SessionsHoldManyTalks(s0: State, o1: Outcome, o2: Outcome, o3: Outcome, o4: Outcome, o5: Outcome)
    requires s0.tracks == [] && s0.open == []
    requires o1 == AddTalkSpec(s0, MultiTalk1)
    requires o2 == AddTalkSpec(o1.state, MultiTalk2)
    requires o3 == AddTalkSpec(o2.state, MultiTalk3)
    requires o4 == AddTalkSpec(o3.state, MultiTalk4)
    requires o5 == AddTalkSpec(o4.state, MultiTalk5)
    ensures |o5.state.tracks| == 1
    ensures |o5.state.tracks[0].morning.talks| == 2 && |o5.state.tracks[0].afternoon.talks| == 3
  {
    MultiPart1(s0, o1, o2);
    MultiPart2(o2.state, o3, o4);
    MultiPart3(o4.state, o5);
  }

  // ---------------------------------------------------------------------
  // full sessions leave the open list

  const FullTalk5 := Talk("Third afternoon talk", Fixed(10))

  const FullTracks5 :=
    [Track(Session([Booked(MultiTalk1, "09:00AM"), Booked(MultiTalk2, "10:30AM"), Booked(FullTalk5, "11:50AM")], 0, 720),
           Session([Booked(MultiTalk3, "01:00PM"), Booked(MultiTalk4, "01:30PM")], 180, 840))]

  lemma FullFacts5()
    ensures Fits(MultiTracks4, SessionRef(0, Morning), 10)
    ensures forall q: SessionRef :: q != SessionRef(0, Morning) && Fits(MultiTracks4, q, 10) ==>
              Remaining(MultiTracks4, q) > Remaining(MultiTracks4, SessionRef(0, Morning))
  {
  }

  lemma FullPut5()
    ensures Put(MultiTracks4, SessionRef(0, Morning), FullTalk5) == FullTracks5
  {
    ClockText710();
    var p := Put(MultiTracks4, SessionRef(0, Morning), FullTalk5);
    assert p[0].morning == FullTracks5[0].morning;
  }

  lemma FullStep5(s: State)
    requires OpenSetOk(s) && s.tracks == MultiTracks4
    ensures var o := AddTalkSpec(s, FullTalk5);
            && o.state.tracks == FullTracks5 && OpenSetOk(o.state)
            && o.result == Success(Booked(FullTalk5, "11:50AM"))
  {
    FullFacts5();
    FullPut5();
    ClockText710();
    StepInto(s, FullTalk5, SessionRef(0, Morning));
  }

  lemma FullOpenFacts()
    ensures forall q: SessionRef :: q in [SessionRef(0, Morning), SessionRef(0, Afternoon)] <==> Remaining(MultiTracks4, q) > 0
    ensures forall q: SessionRef :: q in [SessionRef(0, Afternoon)] <==> Remaining(FullTracks5, q) > 0
  {
  }

  lemma FullOpenLengths(s4: State, s5: State)
    requires OpenSetOk(s4) && s4.tracks == MultiTracks4
    requires OpenSetOk(s5) && s5.tracks == FullTracks5
    ensures |s4.open| == 2
    ensures |s5.open| == 1 && s5.open[0] == SessionRef(0, Afternoon)
  {
    FullOpenFacts();
    OpenListLength(s4, [SessionRef(0, Morning), SessionRef(0, Afternoon)]);
    OpenListLength(s5, [SessionRef(0, Afternoon)]);
    assert s5.open[0] in s5.open;
  }

  /** While both sessions of the first track have room both are open; the
      10-minute talk fills the morning, which then leaves the list. */
  lemma FullSessionsLeave(s0: State, o1: Outcome, o2: Outcome, o3: Outcome, o4: Outcome, o5: Outcome)
    requires s0.tracks == [] && s0.open == []
    requires o1 == AddTalkSpec(s0, MultiTalk1)
    requires o2 == AddTalkSpec(o1.state, MultiTalk2)
    requires o3 == AddTalkSpec(o2.state, MultiTalk3)
    requires o4 == AddTalkSpec(o3.state, MultiTalk4)
    requires o5 == AddTalkSpec(o4.state, FullTalk5)
    ensures |o4.state.open| == 2
    ensures |o5.state.open| == 1 && o5.state.open[0].kind == Afternoon
  {
    MultiPart1(s0, o1, o2);
    MultiPart2(o2.state, o3, o4);
    FullStep5(o4.state);
    FullOpenLengths(o4.state, o5.state);
  }

  // ---------------------------------------------------------------------
  // every space is used

  const SpacesTalk1 := Talk("Takes half of morning", Fixed(90))
  const SpacesTalk2 := Talk("Leaves 10 mins for a small talk", Fixed(80))
  const SpacesTalk3 := Talk("Bigger than remaining morning space left", Fixed(30))
  const SpacesTalk4 := Talk("Take all remaining afternoon space", Fixed(210))
  const SpacesTalk5 := Talk("Go to Track 2 morning session", Fixed(210))
  const SpacesTalk6 := Talk("Should fit into track 1 morning", Fixed(10))

  const SpacesTracks1 :=
    [Track(Session([Booked(SpacesTalk1, "09:00AM")], 90, 630),
           Session([], 240, 780))]

  const SpacesTracks2 :=
    [Track(Session([Booked(SpacesTalk1, "09:00AM"), Booked(SpacesTalk2, "10:30AM")], 10, 710),
           Session([], 240, 780))]

  const SpacesTracks3 :=
    [Track(Session([Booked(SpacesTalk1, "09:00AM"), Booked(SpacesTalk2, "10:30AM")], 10, 710),
           Session([Booked(SpacesTalk3, "01:00PM")], 210, 810))]

  const SpacesTracks4 :=
    [Track(Session([Booked(SpacesTalk1, "09:00AM"), Booked(SpacesTalk2, "10:30AM")], 10, 710),
           Session([Booked(SpacesTalk3, "01:00PM"), Booked(SpacesTalk4, "01:30PM")], 0, 1020))]

  const SpacesTracks5 :=
    [Track(Session([Booked(SpacesTalk1, "09:00AM"), Booked(SpacesTalk2, "10:30AM")], 10, 710),
           Session([Booked(SpacesTalk3, "01:00PM"), Booked(SpacesTalk4, "01:30PM")], 0, 1020)),
     Track(Session([], 180, 540),
           Session([Booked(SpacesTalk5, "01:00PM")], 30, 990))]

  const SpacesTracks6 :=
    [Track(Session([Booked(SpacesTalk1, "09:00AM"), Booked(SpacesTalk2, "10:30AM"), Booked(SpacesTalk6, "11:50AM")], 0, 720),
           Session([Booked(SpacesTalk3, "01:00PM"), Booked(SpacesTalk4, "01:30PM")], 0, 1020)),
     Track(Session([], 180, 540),
           Session([Booked(SpacesTalk5, "01:00PM")], 30, 990))]

  lemma SpacesFacts1()
    ensures forall q: SessionRef :: Remaining([], q) < 90
  {
  }

  lemma SpacesPut1()
    ensures Put([] + [NewTrack()], SessionRef(0, Morning), SpacesTalk1) == SpacesTracks1
  {
    ClockText540();
    var p := Put([] + [NewTrack()], SessionRef(0, Morning), SpacesTalk1);
    assert p[0].morning == SpacesTracks1[0].morning;
  }

  lemma SpacesStep1(s: State)
    requires OpenSetOk(s) && s.tracks == []
    ensures var o := AddTalkSpec(s, SpacesTalk1);
            && o.state.tracks == SpacesTracks1 && OpenSetOk(o.state)
            && o.result == Success(Booked(SpacesTalk1, "09:00AM"))
  {
    SpacesFacts1();
    SpacesPut1();
    ClockText540();
    StepNewTrack(s, SpacesTalk1);
  }

  lemma SpacesFacts2()
    ensures Fits(SpacesTracks1, SessionRef(0, Morning), 80)
    ensures forall q: SessionRef :: q != SessionRef(0, Morning) && Fits(SpacesTracks1, q, 80) ==>
              Remaining(SpacesTracks1, q) > Remaining(SpacesTracks1, SessionRef(0, Morning))
  {
  }

  lemma SpacesPut2()
    ensures Put(SpacesTracks1, SessionRef(0, Morning), SpacesTalk2) == SpacesTracks2
  {
    ClockText630();
    var p := Put(SpacesTracks1, SessionRef(0, Morning), SpacesTalk2);
    assert p[0].morning == SpacesTracks2[0].morning;
  }

  lemma SpacesStep2(s: State)
    requires OpenSetOk(s) && s.tracks == SpacesTracks1
    ensures var o := AddTalkSpec(s, SpacesTalk2);
            && o.state.tracks == SpacesTracks2 && OpenSetOk(o.state)
            && o.result == Success(Booked(SpacesTalk2, "10:30AM"))
  {
    SpacesFacts2();
    SpacesPut2();
    ClockText630();
    StepInto(s, SpacesTalk2, SessionRef(0, Morning));
  }

  lemma SpacesFacts3()
    ensures Fits(SpacesTracks2, SessionRef(0, Afternoon), 30)
    ensures forall q: SessionRef :: q != SessionRef(0, Afternoon) && Fits(SpacesTracks2, q, 30) ==>
              Remaining(SpacesTracks2, q) > Remaining(SpacesTracks2, SessionRef(0, Afternoon))
  {
  }

  lemma SpacesPut3()
    ensures Put(SpacesTracks2, SessionRef(0, Afternoon), SpacesTalk3) == SpacesTracks3
  {
    ClockText780();
    var p := Put(SpacesTracks2, SessionRef(0, Afternoon), SpacesTalk3);
    assert p[0].afternoon == SpacesTracks3[0].afternoon;
  }

  lemma SpacesStep3(s: State)
    requires OpenSetOk(s) && s.tracks == SpacesTracks2
    ensures var o := AddTalkSpec(s, SpacesTalk3);
            && o.state.tracks == SpacesTracks3 && OpenSetOk(o.state)
            && o.result == Success(Booked(SpacesTalk3, "01:00PM"))
  {
    SpacesFacts3();
    SpacesPut3();
    ClockText780();
    StepInto(s, SpacesTalk3, SessionRef(0, Afternoon));
  }

  lemma SpacesFacts4()
    ensures Fits(SpacesTracks3, SessionRef(0, Afternoon), 210)
    ensures forall q: SessionRef :: q != SessionRef(0, Afternoon) && Fits(SpacesTracks3, q, 210) ==>
              Remaining(SpacesTracks3, q) > Remaining(SpacesTracks3, SessionRef(0, Afternoon))
  {
  }

  lemma SpacesPut4()
    ensures Put(SpacesTracks3, SessionRef(0, Afternoon), SpacesTalk4) == SpacesTracks4
  {
    ClockText810();
    var p := Put(SpacesTracks3, SessionRef(0, Afternoon), SpacesTalk4);
    assert p[0].afternoon == SpacesTracks4[0].afternoon;
  }

  lemma SpacesStep4(s: State)
    requires OpenSetOk(s) && s.tracks == SpacesTracks3
    ensures var o := AddTalkSpec(s, SpacesTalk4);
            && o.state.tracks == SpacesTracks4 && OpenSetOk(o.state)
            && o.result == Success(Booked(SpacesTalk4, "01:30PM"))
  {
    SpacesFacts4();
    SpacesPut4();
    ClockText810();
    StepInto(s, SpacesTalk4, SessionRef(0, Afternoon));
  }

  lemma SpacesFacts5()
    ensures forall q: SessionRef :: Remaining(SpacesTracks4, q) < 210
  {
  }

  lemma SpacesPut5()
    ensures Put(SpacesTracks4 + [NewTrack()], SessionRef(1, Afternoon), SpacesTalk5) == SpacesTracks5
  {
    ClockText780();
    var p := Put(SpacesTracks4 + [NewTrack()], SessionRef(1, Afternoon), SpacesTalk5);
    assert p[1].afternoon == SpacesTracks5[1].afternoon;
  }

  lemma SpacesStep5(s: State)
    requires OpenSetOk(s) && s.tracks == SpacesTracks4
    ensures var o := AddTalkSpec(s, SpacesTalk5);
            && o.state.tracks == SpacesTracks5 && OpenSetOk(o.state)
            && o.result == Success(Booked(SpacesTalk5, "01:00PM"))
  {
    SpacesFacts5();
    SpacesPut5();
    ClockText780();
    StepNewTrack(s, SpacesTalk5);
  }

  lemma SpacesFacts6()
    ensures Fits(SpacesTracks5, SessionRef(0, Morning), 10)
    ensures forall q: SessionRef :: q != SessionRef(0, Morning) && Fits(SpacesTracks5, q, 10) ==>
              Remaining(SpacesTracks5, q) > Remaining(SpacesTracks5, SessionRef(0, Morning))
  {
  }

  lemma SpacesPut6()
    ensures Put(SpacesTracks5, SessionRef(0, Morning), SpacesTalk6) == SpacesTracks6
  {
    ClockText710();
    var p := Put(SpacesTracks5, SessionRef(0, Morning), SpacesTalk6);
    assert p[0].morning == SpacesTracks6[0].morning;
  }

  lemma SpacesStep6(s: State)
    requires OpenSetOk(s) && s.tracks == SpacesTracks5
    ensures var o := AddTalkSpec(s, SpacesTalk6);
            && o.state.tracks == SpacesTracks6 && OpenSetOk(o.state)
            && o.result == Success(Booked(SpacesTalk6, "11:50AM"))
  {
    SpacesFacts6();
    SpacesPut6();
    ClockText710();
    StepInto(s, SpacesTalk6, SessionRef(0, Morning));
  }

  lemma SpacesPart1(s0: State, o1: Outcome, o2: Outcome)
    requires s0.tracks == [] && s0.open == []
    requires o1 == AddTalkSpec(s0, SpacesTalk1)
    requires o2 == AddTalkSpec(o1.state, SpacesTalk2)
    ensures o1.state.tracks == SpacesTracks1 && OpenSetOk(o1.state)
    ensures o2.state.tracks == SpacesTracks2 && OpenSetOk(o2.state)
  {
    assert OpenSetOk(s0);
    SpacesStep1(s0);
    SpacesStep2(o1.state);
  }

  lemma SpacesPart2(s: State, o3: Outcome, o4: Outcome)
    requires OpenSetOk(s) && s.tracks == SpacesTracks2
    requires o3 == AddTalkSpec(s, SpacesTalk3)
    requires o4 == AddTalkSpec(o3.state, SpacesTalk4)
    ensures o3.state.tracks == SpacesTracks3 && OpenSetOk(o3.state)
    ensures o4.state.tracks == SpacesTracks4 && OpenSetOk(o4.state)
  {
    SpacesStep3(s);
    SpacesStep4(o3.state);
  }

  lemma SpacesPart3(s: State, o5: Outcome, o6: Outcome)
    requires OpenSetOk(s) && s.tracks == SpacesTracks4
    requires o5 == AddTalkSpec(s, SpacesTalk5)
    requires o6 == AddTalkSpec(o5.state, SpacesTalk6)
    ensures o5.state.tracks == SpacesTracks5 && OpenSetOk(o5.state)
    ensures o6.state.tracks == SpacesTracks6 && OpenSetOk(o6.state)
  {
    SpacesStep5(s);
    SpacesStep6(o5.state);
  }

  /** The morning keeps its last 10 minutes while a second track opens for a
      210-minute talk, and the 10-minute talk that follows takes them. */
  lemma UsesAllSpaces(s0: State, o1: Outcome, o2: Outcome, o3: Outcome, o4: Outcome, o5: Outcome, o6: Outcome)
    requires s0.tracks == [] && s0.open == []
    requires o1 == AddTalkSpec(s0, SpacesTalk1)
    requires o2 == AddTalkSpec(o1.state, SpacesTalk2)
    requires o3 == AddTalkSpec(o2.state, SpacesTalk3)
    requires o4 == AddTalkSpec(o3.state, SpacesTalk4)
    requires o5 == AddTalkSpec(o4.state, SpacesTalk5)
    requires o6 == AddTalkSpec(o5.state, SpacesTalk6)
    ensures |o2.state.tracks| == 1 && |o2.state.tracks[0].morning.talks| == 2
    ensures o2.state.tracks[0].morning.remainingSlot == 10
    ensures |o4.state.tracks| == 1 && |o4.state.tracks[0].afternoon.talks| == 2
    ensures o4.state.tracks[0].afternoon.remainingSlot == 0
    ensures |o5.state.tracks| == 2
    ensures |o5.state.tracks[1].morning.talks| == 0 && |o5.state.tracks[1].afternoon.talks| == 1
    ensures |o6.state.tracks| == 2 && |o6.state.tracks[0].morning.talks| == 3
    ensures o6.state.tracks[0].morning.talks[2].title == "Should fit into track 1 morning"
  {
    SpacesPart1(s0, o1, o2);
    SpacesPart2(o2.state, o3, o4);
    SpacesPart3(o4.state, o5, o6);
  }

  // ---------------------------------------------------------------------
  // allocated times

  const TimesTalk1 := Talk("Writing Fast Tests Against Enterprise Rails", Fixed(60))
  const TimesTalk2 := Talk("Overdoing it in Python", Fixed(45))
  const TimesTalk3 := Talk("Lua for the Masses", Fixed(30))
  const TimesTalk4 := Talk("Ruby Errors from Mismatched Gem Versions", Fixed(45))
  const TimesTalk5 := Talk("Ruby on Rails: Why We Should Move On ", Fixed(60))
  const TimesTalk6 := Talk("Common Ruby Errors", Fixed(45))
  const TimesTalk7 := Talk("Pair Programming vs Noise", Fixed(45))
  const TimesTalk8 := Talk("Programming in the Boondocks of Seattle", Fixed(30))
  const TimesTalk9 := Talk("Ruby vs. Clojure for Back-End Development", Fixed(30))
  const TimesTalk10 := Talk("User Interface CSS in Rails Apps", Fixed(30))
  const TimesTalk11 := Talk("Communicating Over Distance", Fixed(60))
  const TimesTalk12 := Talk("Rails Magic", Fixed(60))
  const TimesTalk13 := Talk("Woah", Fixed(30))

  const TimesTracks1 :=
    [Track(Session([Booked(TimesTalk1, "09:00AM")], 120, 600),
           Session([], 240, 780))]

  const TimesTracks2 :=
    [Track(Session([Booked(TimesTalk1, "09:00AM"), Booked(TimesTalk2, "10:00AM")], 75, 645),
           Session([], 240, 780))]

  const TimesTracks3 :=
    [Track(Session([Booked(TimesTalk1, "09:00AM"), Booked(TimesTalk2, "10:00AM"), Booked(TimesTalk3, "10:45AM")], 45, 675),
           Session([], 240, 780))]

  const TimesTracks4 :=
    [Track(Session([Booked(TimesTalk1, "09:00AM"), Booked(TimesTalk2, "10:00AM"), Booked(TimesTalk3, "10:45AM"), Booked(TimesTalk4, "11:15AM")], 0, 720),
           Session([], 240, 780))]

  const TimesTracks5 :=
    [Track(Session([Booked(TimesTalk1, "09:00AM"), Booked(TimesTalk2, "10:00AM"), Booked(TimesTalk3, "10:45AM"), Booked(TimesTalk4, "11:15AM")], 0, 720),
           Session([Booked(TimesTalk5, "01:00PM")], 180, 840))]

  const TimesTracks6 :=
    [Track(Session([Booked(TimesTalk1, "09:00AM"), Booked(TimesTalk2, "10:00AM"), Booked(TimesTalk3, "10:45AM"), Booked(TimesTalk4, "11:15AM")], 0, 720),
           Session([Booked(TimesTalk5, "01:00PM"), Booked(TimesTalk6, "02:00PM")], 135, 885))]

  const TimesTracks7 :=
    [Track(Session([Booked(TimesTalk1, "09:00AM"), Booked(TimesTalk2, "10:00AM"), Booked(TimesTalk3, "10:45AM"), Booked(TimesTalk4, "11:15AM")], 0, 720),
           Session([Booked(TimesTalk5, "01:00PM"), Booked(TimesTalk6, "02:00PM"), Booked(TimesTalk7, "02:45PM")], 90, 930))]

  const TimesTracks8 :=
    [Track(Session([Booked(TimesTalk1, "09:00AM"), Booked(TimesTalk2, "10:00AM"), Booked(TimesTalk3, "10:45AM"), Booked(TimesTalk4, "11:15AM")], 0, 720),
           Session([Booked(TimesTalk5, "01:00PM"), Booked(TimesTalk6, "02:00PM"), Booked(TimesTalk7, "02:45PM"), Booked(TimesTalk8, "03:30PM")], 60, 960))]

  const TimesTracks9 :=
    [Track(Session([Booked(TimesTalk1, "09:00AM"), Booked(TimesTalk2, "10:00AM"), Booked(TimesTalk3, "10:45AM"), Booked(TimesTalk4, "11:15AM")], 0, 720),
           Session([Booked(TimesTalk5, "01:00PM"), Booked(TimesTalk6, "02:00PM"), Booked(TimesTalk7, "02:45PM"), Booked(TimesTalk8, "03:30PM"), Booked(TimesTalk9, "04:00PM")], 30, 990))]

  const TimesTracks10 :=
    [Track(Session([Booked(TimesTalk1, "09:00AM"), Booked(TimesTalk2, "10:00AM"), Booked(TimesTalk3, "10:45AM"), Booked(TimesTalk4, "11:15AM")], 0, 720),
           Session([Booked(TimesTalk5, "01:00PM"), Booked(TimesTalk6, "02:00PM"), Booked(TimesTalk7, "02:45PM"), Booked(TimesTalk8, "03:30PM"), Booked(TimesTalk9, "04:00PM"), Booked(TimesTalk10, "04:30PM")], 0, 1020))]

  const TimesTracks11 :=
    [Track(Session([Booked(TimesTalk1, "09:00AM"), Booked(TimesTalk2, "10:00AM"), Booked(TimesTalk3, "10:45AM"), Booked(TimesTalk4, "11:15AM")], 0, 720),
           Session([Booked(TimesTalk5, "01:00PM"), Booked(TimesTalk6, "02:00PM"), Booked(TimesTalk7, "02:45PM"), Booked(TimesTalk8, "03:30PM"), Booked(TimesTalk9, "04:00PM"), Booked(TimesTalk10, "04:30PM")], 0, 1020)),
     Track(Session([Booked(TimesTalk11, "09:00AM")], 120, 600),
           Session([], 240, 780))]

  const TimesTracks12 :=
    [Track(Session([Booked(TimesTalk1, "09:00AM"), Booked(TimesTalk2, "10:00AM"), Booked(TimesTalk3, "10:45AM"), Booked(TimesTalk4, "11:15AM")], 0, 720),
           Session([Booked(TimesTalk5, "01:00PM"), Booked(TimesTalk6, "02:00PM"), Booked(TimesTalk7, "02:45PM"), Booked(TimesTalk8, "03:30PM"), Booked(TimesTalk9, "04:00PM"), Booked(TimesTalk10, "04:30PM")], 0, 1020)),
     Track(Session([Booked(TimesTalk11, "09:00AM"), Booked(TimesTalk12, "10:00AM")], 60, 660),
           Session([], 240, 780))]

  const TimesTracks13 :=
    [Track(Session([Booked(TimesTalk1, "09:00AM"), Booked(TimesTalk2, "10:00AM"), Booked(TimesTalk3, "10:45AM"), Booked(TimesTalk4, "11:15AM")], 0, 720),
           Session([Booked(TimesTalk5, "01:00PM"), Booked(TimesTalk6, "02:00PM"), Booked(TimesTalk7, "02:45PM"), Booked(TimesTalk8, "03:30PM"), Booked(TimesTalk9, "04:00PM"), Booked(TimesTalk10, "04:30PM")], 0, 1020)),
     Track(Session([Booked(TimesTalk11, "09:00AM"), Booked(TimesTalk12, "10:00AM"), Booked(TimesTalk13, "11:00AM")], 30, 690),
           Session([], 240, 780))]

  lemma TimesFacts1()
    ensures forall q: SessionRef :: Remaining([], q) < 60
  {
  }

  lemma TimesPut1()
    ensures Put([] + [NewTrack()], SessionRef(0, Morning), TimesTalk1) == TimesTracks1
  {
    ClockText540();
    var p := Put([] + [NewTrack()], SessionRef(0, Morning), TimesTalk1);
    assert p[0].morning == TimesTracks1[0].morning;
  }

  lemma TimesStep1(s: State)
    requires OpenSetOk(s) && s.tracks == []
    ensures var o := AddTalkSpec(s, TimesTalk1);
            && o.state.tracks == TimesTracks1 && OpenSetOk(o.state)
            && o.result == Success(Booked(TimesTalk1, "09:00AM"))
  {
    TimesFacts1();
    TimesPut1();
    ClockText540();
    StepNewTrack(s, TimesTalk1);
  }

  lemma TimesFacts2()
    ensures Fits(TimesTracks1, SessionRef(0, Morning), 45)
    ensures forall q: SessionRef :: q != SessionRef(0, Morning) && Fits(TimesTracks1, q, 45) ==>
              Remaining(TimesTracks1, q) > Remaining(TimesTracks1, SessionRef(0, Morning))
  {
  }

  lemma TimesPut2()
    ensures Put(TimesTracks1, SessionRef(0, Morning), TimesTalk2) == TimesTracks2
  {
    ClockText600();
    var p := Put(TimesTracks1, SessionRef(0, Morning), TimesTalk2);
    assert p[0].morning == TimesTracks2[0].morning;
  }

  lemma TimesStep2(s: State)
    requires OpenSetOk(s) && s.tracks == TimesTracks1
    ensures var o := AddTalkSpec(s, TimesTalk2);
            && o.state.tracks == TimesTracks2 && OpenSetOk(o.state)
            && o.result == Success(Booked(TimesTalk2, "10:00AM"))
  {
    TimesFacts2();
    TimesPut2();
    ClockText600();
    StepInto(s, TimesTalk2, SessionRef(0, Morning));
  }

  lemma TimesFacts3()
    ensures Fits(TimesTracks2, SessionRef(0, Morning), 30)
    ensures forall q: SessionRef :: q != SessionRef(0, Morning) && Fits(TimesTracks2, q, 30) ==>
              Remaining(TimesTracks2, q) > Remaining(TimesTracks2, SessionRef(0, Morning))
  {
  }

  lemma TimesPut3()
    ensures Put(TimesTracks2, SessionRef(0, Morning), TimesTalk3) == TimesTracks3
  {
    ClockText645();
    var p := Put(TimesTracks2, SessionRef(0, Morning), TimesTalk3);
    assert p[0].morning == TimesTracks3[0].morning;
  }

  lemma TimesStep3(s: State)
    requires OpenSetOk(s) && s.tracks == TimesTracks2
    ensures var o := AddTalkSpec(s, TimesTalk3);
            && o.state.tracks == TimesTracks3 && OpenSetOk(o.state)
            && o.result == Success(Booked(TimesTalk3, "10:45AM"))
  {
    TimesFacts3();
    TimesPut3();
    ClockText645();
    StepInto(s, TimesTalk3, SessionRef(0, Morning));
  }

  lemma TimesFacts4()
    ensures Fits(TimesTracks3, SessionRef(0, Morning), 45)
    ensures forall q: SessionRef :: q != SessionRef(0, Morning) && Fits(TimesTracks3, q, 45) ==>
              Remaining(TimesTracks3, q) > Remaining(TimesTracks3, SessionRef(0, Morning))
  {
  }

  lemma TimesPut4()
    ensures Put(TimesTracks3, SessionRef(0, Morning), TimesTalk4) == TimesTracks4
  {
    ClockText675();
    var p := Put(TimesTracks3, SessionRef(0, Morning), TimesTalk4);
    assert p[0].morning == TimesTracks4[0].morning;
  }

  lemma TimesStep4(s: State)
    requires OpenSetOk(s) && s.tracks == TimesTracks3
    ensures var o := AddTalkSpec(s, TimesTalk4);
            && o.state.tracks == TimesTracks4 && OpenSetOk(o.state)
            && o.result == Success(Booked(TimesTalk4, "11:15AM"))
  {
    TimesFacts4();
    TimesPut4();
    ClockText675();
    StepInto(s, TimesTalk4, SessionRef(0, Morning));
  }

  lemma TimesFacts5()
    ensures Fits(TimesTracks4, SessionRef(0, Afternoon), 60)
    ensures forall q: SessionRef :: q != SessionRef(0, Afternoon) && Fits(TimesTracks4, q, 60) ==>
              Remaining(TimesTracks4, q) > Remaining(TimesTracks4, SessionRef(0, Afternoon))
  {
  }

  lemma TimesPut5()
    ensures Put(TimesTracks4, SessionRef(0, Afternoon), TimesTalk5) == TimesTracks5
  {
    ClockText780();
    var p := Put(TimesTracks4, SessionRef(0, Afternoon), TimesTalk5);
    assert p[0].afternoon == TimesTracks5[0].afternoon;
  }

  lemma TimesStep5(s: State)
    requires OpenSetOk(s) && s.tracks == TimesTracks4
    ensures var o := AddTalkSpec(s, TimesTalk5);
            && o.state.tracks == TimesTracks5 && OpenSetOk(o.state)
            && o.result == Success(Booked(TimesTalk5, "01:00PM"))
  {
    TimesFacts5();
    TimesPut5();
    ClockText780();
    StepInto(s, TimesTalk5, SessionRef(0, Afternoon));
  }

  lemma TimesFacts6()
    ensures Fits(TimesTracks5, SessionRef(0, Afternoon), 45)
    ensures forall q: SessionRef :: q != SessionRef(0, Afternoon) && Fits(TimesTracks5, q, 45) ==>
              Remaining(TimesTracks5, q) > Remaining(TimesTracks5, SessionRef(0, Afternoon))
  {
  }

  lemma TimesPut6()
    ensures Put(TimesTracks5, SessionRef(0, Afternoon), TimesTalk6) == TimesTracks6
  {
    ClockText840();
    var p := Put(TimesTracks5, SessionRef(0, Afternoon), TimesTalk6);
    assert p[0].afternoon == TimesTracks6[0].afternoon;
  }

  lemma TimesStep6(s: State)
    requires OpenSetOk(s) && s.tracks == TimesTracks5
    ensures var o := AddTalkSpec(s, TimesTalk6);
            && o.state.tracks == TimesTracks6 && OpenSetOk(o.state)
            && o.result == Success(Booked(TimesTalk6, "02:00PM"))
  {
    TimesFacts6();
    TimesPut6();
    ClockText840();
    StepInto(s, TimesTalk6, SessionRef(0, Afternoon));
  }

  lemma TimesFacts7()
    ensures Fits(TimesTracks6, SessionRef(0, Afternoon), 45)
    ensures forall q: SessionRef :: q != SessionRef(0, Afternoon) && Fits(TimesTracks6, q, 45) ==>
              Remaining(TimesTracks6, q) > Remaining(TimesTracks6, SessionRef(0, Afternoon))
  {
  }

  lemma TimesPut7()
    ensures Put(TimesTracks6, SessionRef(0, Afternoon), TimesTalk7) == TimesTracks7
  {
    ClockText885();
    var p := Put(TimesTracks6, SessionRef(0, Afternoon), TimesTalk7);
    assert p[0].afternoon == TimesTracks7[0].afternoon;
  }

  lemma TimesStep7(s: State)
    requires OpenSetOk(s) && s.tracks == TimesTracks6
    ensures var o := AddTalkSpec(s, TimesTalk7);
            && o.state.tracks == TimesTracks7 && OpenSetOk(o.state)
            && o.result == Success(Booked(TimesTalk7, "02:45PM"))
  {
    TimesFacts7();
    TimesPut7();
    ClockText885();
    StepInto(s, TimesTalk7, SessionRef(0, Afternoon));
  }

  lemma TimesFacts8()
    ensures Fits(TimesTracks7, SessionRef(0, Afternoon), 30)
    ensures forall q: SessionRef :: q != SessionRef(0, Afternoon) && Fits(TimesTracks7, q, 30) ==>
              Remaining(TimesTracks7, q) > Remaining(TimesTracks7, SessionRef(0, Afternoon))
  {
  }

  lemma TimesPut8()
    ensures Put(TimesTracks7, SessionRef(0, Afternoon), TimesTalk8) == TimesTracks8
  {
    ClockText930();
    var p := Put(TimesTracks7, SessionRef(0, Afternoon), TimesTalk8);
    assert p[0].afternoon == TimesTracks8[0].afternoon;
  }

  lemma TimesStep8(s: State)
    requires OpenSetOk(s) && s.tracks == TimesTracks7
    ensures var o := AddTalkSpec(s, TimesTalk8);
            && o.state.tracks == TimesTracks8 && OpenSetOk(o.state)
            && o.result == Success(Booked(TimesTalk8, "03:30PM"))
  {
    TimesFacts8();
    TimesPut8();
    ClockText930();
    StepInto(s, TimesTalk8, SessionRef(0, Afternoon));
  }

  lemma TimesFacts9()
    ensures Fits(TimesTracks8, SessionRef(0, Afternoon), 30)
    ensures forall q: SessionRef :: q != SessionRef(0, Afternoon) && Fits(TimesTracks8, q, 30) ==>
              Remaining(TimesTracks8, q) > Remaining(TimesTracks8, SessionRef(0, Afternoon))
  {
  }

  lemma TimesPut9()
    ensures Put(TimesTracks8, SessionRef(0, Afternoon), TimesTalk9) == TimesTracks9
  {
    ClockText960();
    var p := Put(TimesTracks8, SessionRef(0, Afternoon), TimesTalk9);
    assert p[0].afternoon == TimesTracks9[0].afternoon;
  }

  lemma TimesStep9(s: State)
    requires OpenSetOk(s) && s.tracks == TimesTracks8
    ensures var o := AddTalkSpec(s, TimesTalk9);
            && o.state.tracks == TimesTracks9 && OpenSetOk(o.state)
            && o.result == Success(Booked(TimesTalk9, "04:00PM"))
  {
    TimesFacts9();
    TimesPut9();
    ClockText960();
    StepInto(s, TimesTalk9, SessionRef(0, Afternoon));
  }

  lemma TimesFacts10()
    ensures Fits(TimesTracks9, SessionRef(0, Afternoon), 30)
    ensures forall q: SessionRef :: q != SessionRef(0, Afternoon) && Fits(TimesTracks9, q, 30) ==>
              Remaining(TimesTracks9, q) > Remaining(TimesTracks9, SessionRef(0, Afternoon))
  {
  }

  lemma TimesPut10()
    ensures Put(TimesTracks9, SessionRef(0, Afternoon), TimesTalk10) == TimesTracks10
  {
    ClockText990();
    var p := Put(TimesTracks9, SessionRef(0, Afternoon), TimesTalk10);
    assert p[0].afternoon == TimesTracks10[0].afternoon;
  }

  lemma TimesStep10(s: State)
    requires OpenSetOk(s) && s.tracks == TimesTracks9
    ensures var o := AddTalkSpec(s, TimesTalk10);
            && o.state.tracks == TimesTracks10 && OpenSetOk(o.state)
            && o.result == Success(Booked(TimesTalk10, "04:30PM"))
  {
    TimesFacts10();
    TimesPut10();
    ClockText990();
    StepInto(s, TimesTalk10, SessionRef(0, Afternoon));
  }

  lemma TimesFacts11()
    ensures forall q: SessionRef :: Remaining(TimesTracks10, q) < 60
  {
  }

  lemma TimesPut11()
    ensures Put(TimesTracks10 + [NewTrack()], SessionRef(1, Morning), TimesTalk11) == TimesTracks11
  {
    ClockText540();
    var p := Put(TimesTracks10 + [NewTrack()], SessionRef(1, Morning), TimesTalk11);
    assert p[1].morning == TimesTracks11[1].morning;
  }

  lemma TimesStep11(s: State)
    requires OpenSetOk(s) && s.tracks == TimesTracks10
    ensures var o := AddTalkSpec(s, TimesTalk11);
            && o.state.tracks == TimesTracks11 && OpenSetOk(o.state)
            && o.result == Success(Booked(TimesTalk11, "09:00AM"))
  {
    TimesFacts11();
    TimesPut11();
    ClockText540();
    StepNewTrack(s, TimesTalk11);
  }

  lemma TimesFacts12()
    ensures Fits(TimesTracks11, SessionRef(1, Morning), 60)
    ensures forall q: SessionRef :: q != SessionRef(1, Morning) && Fits(TimesTracks11, q, 60) ==>
              Remaining(TimesTracks11, q) > Remaining(TimesTracks11, SessionRef(1, Morning))
  {
  }

  lemma TimesPut12()
    ensures Put(TimesTracks11, SessionRef(1, Morning), TimesTalk12) == TimesTracks12
  {
    ClockText600();
    var p := Put(TimesTracks11, SessionRef(1, Morning), TimesTalk12);
    assert p[1].morning == TimesTracks12[1].morning;
  }

  lemma TimesStep12(s: State)
    requires OpenSetOk(s) && s.tracks == TimesTracks11
    ensures var o := AddTalkSpec(s, TimesTalk12);
            && o.state.tracks == TimesTracks12 && OpenSetOk(o.state)
            && o.result == Success(Booked(TimesTalk12, "10:00AM"))
  {
    TimesFacts12();
    TimesPut12();
    ClockText600();
    StepInto(s, TimesTalk12, SessionRef(1, Morning));
  }

  lemma TimesFacts13()
    ensures Fits(TimesTracks12, SessionRef(1, Morning), 30)
    ensures forall q: SessionRef :: q != SessionRef(1, Morning) && Fits(TimesTracks12, q, 30) ==>
              Remaining(TimesTracks12, q) > Remaining(TimesTracks12, SessionRef(1, Morning))
  {
  }

  lemma TimesPut13()
    ensures Put(TimesTracks12, SessionRef(1, Morning), TimesTalk13) == TimesTracks13
  {
    ClockText660();
    var p := Put(TimesTracks12, SessionRef(1, Morning), TimesTalk13);
    assert p[1].morning == TimesTracks13[1].morning;
  }

  lemma TimesStep13(s: State)
    requires OpenSetOk(s) && s.tracks == TimesTracks12
    ensures var o := AddTalkSpec(s, TimesTalk13);
            && o.state.tracks == TimesTracks13 && OpenSetOk(o.state)
            && o.result == Success(Booked(TimesTalk13, "11:00AM"))
  {
    TimesFacts13();
    TimesPut13();
    ClockText660();
    StepInto(s, TimesTalk13, SessionRef(1, Morning));
  }

  lemma TimesPart1(s0: State, o1: Outcome, o2: Outcome)
    requires s0.tracks == [] && s0.open == []
    requires o1 == AddTalkSpec(s0, TimesTalk1)
    requires o2 == AddTalkSpec(o1.state, TimesTalk2)
    ensures o1.state.tracks == TimesTracks1 && OpenSetOk(o1.state)
    ensures o2.state.tracks == TimesTracks2 && OpenSetOk(o2.state)
    ensures o1.result == Success(Booked(TimesTalk1, "09:00AM"))
    ensures o2.result == Success(Booked(TimesTalk2, "10:00AM"))
  {
    assert OpenSetOk(s0);
    TimesStep1(s0);
    TimesStep2(o1.state);
  }

  lemma TimesPart2(s: State, o3: Outcome, o4: Outcome, o5: Outcome)
    requires OpenSetOk(s) && s.tracks == TimesTracks2
    requires o3 == AddTalkSpec(s, TimesTalk3)
    requires o4 == AddTalkSpec(o3.state, TimesTalk4)
    requires o5 == AddTalkSpec(o4.state, TimesTalk5)
    ensures o3.state.tracks == TimesTracks3 && OpenSetOk(o3.state)
    ensures o4.state.tracks == TimesTracks4 && OpenSetOk(o4.state)
    ensures o5.state.tracks == TimesTracks5 && OpenSetOk(o5.state)
    ensures o3.result == Success(Booked(TimesTalk3, "10:45AM"))
    ensures o4.result == Success(Booked(TimesTalk4, "11:15AM"))
    ensures o5.result == Success(Booked(TimesTalk5, "01:00PM"))
  {
    TimesStep3(s);
    TimesStep4(o3.state);
    TimesStep5(o4.state);
  }

  lemma TimesPart3(s: State, o6: Outcome, o7: Outcome, o8: Outcome)
    requires OpenSetOk(s) && s.tracks == TimesTracks5
    requires o6 == AddTalkSpec(s, TimesTalk6)
    requires o7 == AddTalkSpec(o6.state, TimesTalk7)
    requires o8 == AddTalkSpec(o7.state, TimesTalk8)
    ensures o6.state.tracks == TimesTracks6 && OpenSetOk(o6.state)
    ensures o7.state.tracks == TimesTracks7 && OpenSetOk(o7.state)
    ensures o8.state.tracks == TimesTracks8 && OpenSetOk(o8.state)
    ensures o6.result == Success(Booked(TimesTalk6, "02:00PM"))
    ensures o7.result == Success(Booked(TimesTalk7, "02:45PM"))
    ensures o8.result == Success(Booked(TimesTalk8, "03:30PM"))
  {
    TimesStep6(s);
    TimesStep7(o6.state);
    TimesStep8(o7.state);
  }

  lemma TimesPart4(s: State, o9: Outcome, o10: Outcome)
    requires OpenSetOk(s) && s.tracks == TimesTracks8
    requires o9 == AddTalkSpec(s, TimesTalk9)
    requires o10 == AddTalkSpec(o9.state, TimesTalk10)
    ensures o9.state.tracks == TimesTracks9 && OpenSetOk(o9.state)
    ensures o10.state.tracks == TimesTracks10 && OpenSetOk(o10.state)
    ensures o9.result == Success(Booked(TimesTalk9, "04:00PM"))
    ensures o10.result == Success(Booked(TimesTalk10, "04:30PM"))
  {
    TimesStep9(s);
    TimesStep10(o9.state);
  }

  lemma TimesPart5(s: State, o11: Outcome, o12: Outcome, o13: Outcome)
    requires OpenSetOk(s) && s.tracks == TimesTracks10
    requires o11 == AddTalkSpec(s, TimesTalk11)
    requires o12 == AddTalkSpec(o11.state, TimesTalk12)
    requires o13 == AddTalkSpec(o12.state, TimesTalk13)
    ensures o11.state.tracks == TimesTracks11 && OpenSetOk(o11.state)
    ensures o12.state.tracks == TimesTracks12 && OpenSetOk(o12.state)
    ensures o13.state.tracks == TimesTracks13 && OpenSetOk(o13.state)
    ensures o11.result == Success(Booked(TimesTalk11, "09:00AM"))
    ensures o12.result == Success(Booked(TimesTalk12, "10:00AM"))
    ensures o13.result == Success(Booked(TimesTalk13, "11:00AM"))
  {
    TimesStep11(s);
    TimesStep12(o11.state);
    TimesStep13(o12.state);
  }

  /** Talks start back to back from 09:00 and from 13:00; a talk that fits
      nowhere opens a second track at 09:00; the networking event of the
      full first track starts when its last talk ends, at 17:00. */
  lemma AllocatedTimes(s0: State, o1: Outcome, o2: Outcome, o3: Outcome, o4: Outcome, o5: Outcome, o6: Outcome, o7: Outcome, o8: Outcome, o9: Outcome, o10: Outcome, o11: Outcome, o12: Outcome, o13: Outcome)
    requires s0.tracks == [] && s0.open == []
    requires o1 == AddTalkSpec(s0, TimesTalk1)
    requires o2 == AddTalkSpec(o1.state, TimesTalk2)
    requires o3 == AddTalkSpec(o2.state, TimesTalk3)
    requires o4 == AddTalkSpec(o3.state, TimesTalk4)
    requires o5 == AddTalkSpec(o4.state, TimesTalk5)
    requires o6 == AddTalkSpec(o5.state, TimesTalk6)
    requires o7 == AddTalkSpec(o6.state, TimesTalk7)
    requires o8 == AddTalkSpec(o7.state, TimesTalk8)
    requires o9 == AddTalkSpec(o8.state, TimesTalk9)
    requires o10 == AddTalkSpec(o9.state, TimesTalk10)
    requires o11 == AddTalkSpec(o10.state, TimesTalk11)
    requires o12 == AddTalkSpec(o11.state, TimesTalk12)
    requires o13 == AddTalkSpec(o12.state, TimesTalk13)
    ensures o1.result.Success? && o1.result.value.allocatedTime == "09:00AM"
    ensures o2.result.Success? && o2.result.value.allocatedTime == "10:00AM"
    ensures o3.result.Success? && o3.result.value.allocatedTime == "10:45AM"
    ensures o4.result.Success? && o4.result.value.allocatedTime == "11:15AM"
    ensures o5.result.Success? && o5.result.value.allocatedTime == "01:00PM"
    ensures o6.result.Success? && o6.result.value.allocatedTime == "02:00PM"
    ensures o7.result.Success? && o7.result.value.allocatedTime == "02:45PM"
    ensures o8.result.Success? && o8.result.value.allocatedTime == "03:30PM"
    ensures o9.result.Success? && o9.result.value.allocatedTime == "04:00PM"
    ensures o10.result.Success? && o10.result.value.allocatedTime == "04:30PM"
    ensures |o10.state.tracks| == 1 && NetworkingStart(o10.state.tracks[0]) == "05:00PM"
    ensures o11.result.Success? && o11.result.value.allocatedTime == "09:00AM"
    ensures o12.result.Success? && o12.result.value.allocatedTime == "10:00AM"
    ensures o13.result.Success? && o13.result.value.allocatedTime == "11:00AM"
  {
    TimesPart1(s0, o1, o2);
    TimesPart2(o2.state, o3, o4, o5);
    TimesPart3(o5.state, o6, o7, o8);
    TimesPart4(o8.state, o9, o10);
    TimesPart5(o10.state, o11, o12, o13);
    FiveInTheAfternoon();
    NetworkingStartIsLater(o10.state.tracks[0]);
  }
  // ---------------------------------------------------------------------
  // the printed timeline

  const GoldenTalk1 := Talk("Writing Fast Tests Against Enterprise Rails", Fixed(60))
  const GoldenTalk2 := Talk("Overdoing it in Python", Fixed(45))
  const GoldenTalk3 := Talk("Lua for the Masses", Fixed(30))
  const GoldenTalk4 := Talk("Ruby Errors from Mismatched Gem Versions", Fixed(45))
  const GoldenTalk5 := Talk("Common Ruby Errors", Fixed(45))
  const GoldenTalk6 := Talk("Rails for Python Developers", Lightning)
  const GoldenTalk7 := Talk("Communicating Over Distance", Fixed(60))
  const GoldenTalk8 := Talk("Accounting-Driven Development ", Fixed(45))
  const GoldenTalk9 := Talk("Woah", Fixed(30))
  const GoldenTalk10 := Talk("Sit Down and Write", Fixed(30))
  const GoldenTalk11 := Talk("Pair Programming vs Noise", Fixed(45))
  const GoldenTalk12 := Talk("Rails Magic", Fixed(60))
  const GoldenTalk13 := Talk("Ruby on Rails: Why We Should Move On", Fixed(60))
  const GoldenTalk14 := Talk("Clojure Ate Scala (on my project)", Fixed(45))
  const GoldenTalk15 := Talk("Programming in the Boondocks of Seattle", Fixed(30))
  const GoldenTalk16 := Talk("Ruby vs. Clojure for Back-End Development", Fixed(30))
  const GoldenTalk17 := Talk("Ruby on Rails Legacy App Maintenance", Fixed(60))
  const GoldenTalk18 := Talk("A World Without HackerNews", Fixed(30))
  const GoldenTalk19 := Talk("User Interface CSS in Rails Apps", Fixed(30))

  const GoldenTracks1 :=
    [Track(Session([Booked(GoldenTalk1, "09:00AM")], 120, 600),
           Session([], 240, 780))]

  const GoldenTracks2 :=
    [Track(Session([Booked(GoldenTalk1, "09:00AM"), Booked(GoldenTalk2, "10:00AM")], 75, 645),
           Session([], 240, 780))]

  const GoldenTracks3 :=
    [Track(Session([Booked(GoldenTalk1, "09:00AM"), Booked(GoldenTalk2, "10:00AM"), Booked(GoldenTalk3, "10:45AM")], 45, 675),
           Session([], 240, 780))]

  const GoldenTracks4 :=
    [Track(Session([Booked(GoldenTalk1, "09:00AM"), Booked(GoldenTalk2, "10:00AM"), Booked(GoldenTalk3, "10:45AM"), Booked(GoldenTalk4, "11:15AM")], 0, 720),
           Session([], 240, 780))]

  const GoldenTracks5 :=
    [Track(Session([Booked(GoldenTalk1, "09:00AM"), Booked(GoldenTalk2, "10:00AM"), Booked(GoldenTalk3, "10:45AM"), Booked(GoldenTalk4, "11:15AM")], 0, 720),
           Session([Booked(GoldenTalk5, "01:00PM")], 195, 825))]

  const GoldenTracks6 :=
    [Track(Session([Booked(GoldenTalk1, "09:00AM"), Booked(GoldenTalk2, "10:00AM"), Booked(GoldenTalk3, "10:45AM"), Booked(GoldenTalk4, "11:15AM")], 0, 720),
           Session([Booked(GoldenTalk5, "01:00PM"), Booked(GoldenTalk6, "01:45PM")], 190, 830))]

  const GoldenTracks7 :=
    [Track(Session([Booked(GoldenTalk1, "09:00AM"), Booked(GoldenTalk2, "10:00AM"), Booked(GoldenTalk3, "10:45AM"), Booked(GoldenTalk4, "11:15AM")], 0, 720),
           Session([Booked(GoldenTalk5, "01:00PM"), Booked(GoldenTalk6, "01:45PM"), Booked(GoldenTalk7, "01:50PM")], 130, 890))]

  const GoldenTracks8 :=
    [Track(Session([Booked(GoldenTalk1, "09:00AM"), Booked(GoldenTalk2, "10:00AM"), Booked(GoldenTalk3, "10:45AM"), Booked(GoldenTalk4, "11:15AM")], 0, 720),
           Session([Booked(GoldenTalk5, "01:00PM"), Booked(GoldenTalk6, "01:45PM"), Booked(GoldenTalk7, "01:50PM"), Booked(GoldenTalk8, "02:50PM")], 85, 935))]

  const GoldenTracks9 :=
    [Track(Session([Booked(GoldenTalk1, "09:00AM"), Booked(GoldenTalk2, "10:00AM"), Booked(GoldenTalk3, "10:45AM"), Booked(GoldenTalk4, "11:15AM")], 0, 720),
           Session([Booked(GoldenTalk5, "01:00PM"), Booked(GoldenTalk6, "01:45PM"), Booked(GoldenTalk7, "01:50PM"), Booked(GoldenTalk8, "02:50PM"), Booked(GoldenTalk9, "03:35PM")], 55, 965))]

  const GoldenTracks10 :=
    [Track(Session([Booked(GoldenTalk1, "09:00AM"), Booked(GoldenTalk2, "10:00AM"), Booked(GoldenTalk3, "10:45AM"), Booked(GoldenTalk4, "11:15AM")], 0, 720),
           Session([Booked(GoldenTalk5, "01:00PM"), Booked(GoldenTalk6, "01:45PM"), Booked(GoldenTalk7, "01:50PM"), Booked(GoldenTalk8, "02:50PM"), Booked(GoldenTalk9, "03:35PM"), Booked(GoldenTalk10, "04:05PM")], 25, 995))]

  const GoldenTracks11 :=
    [Track(Session([Booked(GoldenTalk1, "09:00AM"), Booked(GoldenTalk2, "10:00AM"), Booked(GoldenTalk3, "10:45AM"), Booked(GoldenTalk4, "11:15AM")], 0, 720),
           Session([Booked(GoldenTalk5, "01:00PM"), Booked(GoldenTalk6, "01:45PM"), Booked(GoldenTalk7, "01:50PM"), Booked(GoldenTalk8, "02:50PM"), Booked(GoldenTalk9, "03:35PM"), Booked(GoldenTalk10, "04:05PM")], 25, 995)),
     Track(Session([Booked(GoldenTalk11, "09:00AM")], 135, 585),
           Session([], 240, 780))]

  const GoldenTracks12 :=
    [Track(Session([Booked(GoldenTalk1, "09:00AM"), Booked(GoldenTalk2, "10:00AM"), Booked(GoldenTalk3, "10:45AM"), Booked(GoldenTalk4, "11:15AM")], 0, 720),
           Session([Booked(GoldenTalk5, "01:00PM"), Booked(GoldenTalk6, "01:45PM"), Booked(GoldenTalk7, "01:50PM"), Booked(GoldenTalk8, "02:50PM"), Booked(GoldenTalk9, "03:35PM"), Booked(GoldenTalk10, "04:05PM")], 25, 995)),
     Track(Session([Booked(GoldenTalk11, "09:00AM"), Booked(GoldenTalk12, "09:45AM")], 75, 645),
           Session([], 240, 780))]

  const GoldenTracks13 :=
    [Track(Session([Booked(GoldenTalk1, "09:00AM"), Booked(GoldenTalk2, "10:00AM"), Booked(GoldenTalk3, "10:45AM"), Booked(GoldenTalk4, "11:15AM")], 0, 720),
           Session([Booked(GoldenTalk5, "01:00PM"), Booked(GoldenTalk6, "01:45PM"), Booked(GoldenTalk7, "01:50PM"), Booked(GoldenTalk8, "02:50PM"), Booked(GoldenTalk9, "03:35PM"), Booked(GoldenTalk10, "04:05PM")], 25, 995)),
     Track(Session([Booked(GoldenTalk11, "09:00AM"), Booked(GoldenTalk12, "09:45AM"), Booked(GoldenTalk13, "10:45AM")], 15, 705),
           Session([], 240, 780))]

  const GoldenTracks14 :=
    [Track(Session([Booked(GoldenTalk1, "09:00AM"), Booked(GoldenTalk2, "10:00AM"), Booked(GoldenTalk3, "10:45AM"), Booked(GoldenTalk4, "11:15AM")], 0, 720),
           Session([Booked(GoldenTalk5, "01:00PM"), Booked(GoldenTalk6, "01:45PM"), Booked(GoldenTalk7, "01:50PM"), Booked(GoldenTalk8, "02:50PM"), Booked(GoldenTalk9, "03:35PM"), Booked(GoldenTalk10, "04:05PM")], 25, 995)),
     Track(Session([Booked(GoldenTalk11, "09:00AM"), Booked(GoldenTalk12, "09:45AM"), Booked(GoldenTalk13, "10:45AM")], 15, 705),
           Session([Booked(GoldenTalk14, "01:00PM")], 195, 825))]

  const GoldenTracks15 :=
    [Track(Session([Booked(GoldenTalk1, "09:00AM"), Booked(GoldenTalk2, "10:00AM"), Booked(GoldenTalk3, "10:45AM"), Booked(GoldenTalk4, "11:15AM")], 0, 720),
           Session([Booked(GoldenTalk5, "01:00PM"), Booked(GoldenTalk6, "01:45PM"), Booked(GoldenTalk7, "01:50PM"), Booked(GoldenTalk8, "02:50PM"), Booked(GoldenTalk9, "03:35PM"), Booked(GoldenTalk10, "04:05PM")], 25, 995)),
     Track(Session([Booked(GoldenTalk11, "09:00AM"), Booked(GoldenTalk12, "09:45AM"), Booked(GoldenTalk13, "10:45AM")], 15, 705),
           Session([Booked(GoldenTalk14, "01:00PM"), Booked(GoldenTalk15, "01:45PM")], 165, 855))]

  const GoldenTracks16 :=
    [Track(Session([Booked(GoldenTalk1, "09:00AM"), Booked(GoldenTalk2, "10:00AM"), Booked(GoldenTalk3, "10:45AM"), Booked(GoldenTalk4, "11:15AM")], 0, 720),
           Session([Booked(GoldenTalk5, "01:00PM"), Booked(GoldenTalk6, "01:45PM"), Booked(GoldenTalk7, "01:50PM"), Booked(GoldenTalk8, "02:50PM"), Booked(GoldenTalk9, "03:35PM"), Booked(GoldenTalk10, "04:05PM")], 25, 995)),
     Track(Session([Booked(GoldenTalk11, "09:00AM"), Booked(GoldenTalk12, "09:45AM"), Booked(GoldenTalk13, "10:45AM")], 15, 705),
           Session([Booked(GoldenTalk14, "01:00PM"), Booked(GoldenTalk15, "01:45PM"), Booked(GoldenTalk16, "02:15PM")], 135, 885))]

  const GoldenTracks17 :=
    [Track(Session([Booked(GoldenTalk1, "09:00AM"), Booked(GoldenTalk2, "10:00AM"), Booked(GoldenTalk3, "10:45AM"), Booked(GoldenTalk4, "11:15AM")], 0, 720),
           Session([Booked(GoldenTalk5, "01:00PM"), Booked(GoldenTalk6, "01:45PM"), Booked(GoldenTalk7, "01:50PM"), Booked(GoldenTalk8, "02:50PM"), Booked(GoldenTalk9, "03:35PM"), Booked(GoldenTalk10, "04:05PM")], 25, 995)),
     Track(Session([Booked(GoldenTalk11, "09:00AM"), Booked(GoldenTalk12, "09:45AM"), Booked(GoldenTalk13, "10:45AM")], 15, 705),
           Session([Booked(GoldenTalk14, "01:00PM"), Booked(GoldenTalk15, "01:45PM"), Booked(GoldenTalk16, "02:15PM"), Booked(GoldenTalk17, "02:45PM")], 75, 945))]

  const GoldenTracks18 :=
    [Track(Session([Booked(GoldenTalk1, "09:00AM"), Booked(GoldenTalk2, "10:00AM"), Booked(GoldenTalk3, "10:45AM"), Booked(GoldenTalk4, "11:15AM")], 0, 720),
           Session([Booked(GoldenTalk5, "01:00PM"), Booked(GoldenTalk6, "01:45PM"), Booked(GoldenTalk7, "01:50PM"), Booked(GoldenTalk8, "02:50PM"), Booked(GoldenTalk9, "03:35PM"), Booked(GoldenTalk10, "04:05PM")], 25, 995)),
     Track(Session([Booked(GoldenTalk11, "09:00AM"), Booked(GoldenTalk12, "09:45AM"), Booked(GoldenTalk13, "10:45AM")], 15, 705),
           Session([Booked(GoldenTalk14, "01:00PM"), Booked(GoldenTalk15, "01:45PM"), Booked(GoldenTalk16, "02:15PM"), Booked(GoldenTalk17, "02:45PM"), Booked(GoldenTalk18, "03:45PM")], 45, 975))]

  const GoldenTracks19 :=
    [Track(Session([Booked(GoldenTalk1, "09:00AM"), Booked(GoldenTalk2, "10:00AM"), Booked(GoldenTalk3, "10:45AM"), Booked(GoldenTalk4, "11:15AM")], 0, 720),
           Session([Booked(GoldenTalk5, "01:00PM"), Booked(GoldenTalk6, "01:45PM"), Booked(GoldenTalk7, "01:50PM"), Booked(GoldenTalk8, "02:50PM"), Booked(GoldenTalk9, "03:35PM"), Booked(GoldenTalk10, "04:05PM")], 25, 995)),
     Track(Session([Booked(GoldenTalk11, "09:00AM"), Booked(GoldenTalk12, "09:45AM"), Booked(GoldenTalk13, "10:45AM")], 15, 705),
           Session([Booked(GoldenTalk14, "01:00PM"), Booked(GoldenTalk15, "01:45PM"), Booked(GoldenTalk16, "02:15PM"), Booked(GoldenTalk17, "02:45PM"), Booked(GoldenTalk18, "03:45PM"), Booked(GoldenTalk19, "04:15PM")], 15, 1005))]

  lemma GoldenFacts1()
    ensures forall q: SessionRef :: Remaining([], q) < 60
  {
  }

  lemma GoldenPut1()
    ensures Put([] + [NewTrack()], SessionRef(0, Morning), GoldenTalk1) == GoldenTracks1
  {
    ClockText540();
    var p := Put([] + [NewTrack()], SessionRef(0, Morning), GoldenTalk1);
    assert p[0].morning == GoldenTracks1[0].morning;
  }

  lemma GoldenStep1(s: State)
    requires OpenSetOk(s) && s.tracks == []
    ensures var o := AddTalkSpec(s, GoldenTalk1);
            && o.state.tracks == GoldenTracks1 && OpenSetOk(o.state)
            && o.result == Success(Booked(GoldenTalk1, "09:00AM"))
  {
    GoldenFacts1();
    GoldenPut1();
    ClockText540();
    StepNewTrack(s, GoldenTalk1);
  }

  lemma GoldenFacts2()
    ensures Fits(GoldenTracks1, SessionRef(0, Morning), 45)
    ensures forall q: SessionRef :: q != SessionRef(0, Morning) && Fits(GoldenTracks1, q, 45) ==>
              Remaining(GoldenTracks1, q) > Remaining(GoldenTracks1, SessionRef(0, Morning))
  {
  }

  lemma GoldenPut2()
    ensures Put(GoldenTracks1, SessionRef(0, Morning), GoldenTalk2) == GoldenTracks2
  {
    ClockText600();
    var p := Put(GoldenTracks1, SessionRef(0, Morning), GoldenTalk2);
    assert p[0].morning == GoldenTracks2[0].morning;
  }

  lemma GoldenStep2(s: State)
    requires OpenSetOk(s) && s.tracks == GoldenTracks1
    ensures var o := AddTalkSpec(s, GoldenTalk2);
            && o.state.tracks == GoldenTracks2 && OpenSetOk(o.state)
            && o.result == Success(Booked(GoldenTalk2, "10:00AM"))
  {
    GoldenFacts2();
    GoldenPut2();
    ClockText600();
    StepInto(s, GoldenTalk2, SessionRef(0, Morning));
  }

  lemma GoldenFacts3()
    ensures Fits(GoldenTracks2, SessionRef(0, Morning), 30)
    ensures forall q: SessionRef :: q != SessionRef(0, Morning) && Fits(GoldenTracks2, q, 30) ==>
              Remaining(GoldenTracks2, q) > Remaining(GoldenTracks2, SessionRef(0, Morning))
  {
  }

  lemma GoldenPut3()
    ensures Put(GoldenTracks2, SessionRef(0, Morning), GoldenTalk3) == GoldenTracks3
  {
    ClockText645();
    var p := Put(GoldenTracks2, SessionRef(0, Morning), GoldenTalk3);
    assert p[0].morning == GoldenTracks3[0].morning;
  }

  lemma GoldenStep3(s: State)
    requires OpenSetOk(s) && s.tracks == GoldenTracks2
    ensures var o := AddTalkSpec(s, GoldenTalk3);
            && o.state.tracks == GoldenTracks3 && OpenSetOk(o.state)
            && o.result == Success(Booked(GoldenTalk3, "10:45AM"))
  {
    GoldenFacts3();
    GoldenPut3();
    ClockText645();
    StepInto(s, GoldenTalk3, SessionRef(0, Morning));
  }

  lemma GoldenFacts4()
    ensures Fits(GoldenTracks3, SessionRef(0, Morning), 45)
    ensures forall q: SessionRef :: q != SessionRef(0, Morning) && Fits(GoldenTracks3, q, 45) ==>
              Remaining(GoldenTracks3, q) > Remaining(GoldenTracks3, SessionRef(0, Morning))
  {
  }

  lemma GoldenPut4()
    ensures Put(GoldenTracks3, SessionRef(0, Morning), GoldenTalk4) == GoldenTracks4
  {
    ClockText675();
    var p := Put(GoldenTracks3, SessionRef(0, Morning), GoldenTalk4);
    assert p[0].morning == GoldenTracks4[0].morning;
  }

  lemma GoldenStep4(s: State)
    requires OpenSetOk(s) && s.tracks == GoldenTracks3
    ensures var o := AddTalkSpec(s, GoldenTalk4);
            && o.state.tracks == GoldenTracks4 && OpenSetOk(o.state)
            && o.result == Success(Booked(GoldenTalk4, "11:15AM"))
  {
    GoldenFacts4();
    GoldenPut4();
    ClockText675();
    StepInto(s, GoldenTalk4, SessionRef(0, Morning));
  }

  lemma GoldenFacts5()
    ensures Fits(GoldenTracks4, SessionRef(0, Afternoon), 45)
    ensures forall q: SessionRef :: q != SessionRef(0, Afternoon) && Fits(GoldenTracks4, q, 45) ==>
              Remaining(GoldenTracks4, q) > Remaining(GoldenTracks4, SessionRef(0, Afternoon))
  {
  }

  lemma GoldenPut5()
    ensures Put(GoldenTracks4, SessionRef(0, Afternoon), GoldenTalk5) == GoldenTracks5
  {
    ClockText780();
    var p := Put(GoldenTracks4, SessionRef(0, Afternoon), GoldenTalk5);
    assert p[0].afternoon == GoldenTracks5[0].afternoon;
  }

  lemma GoldenStep5(s: State)
    requires OpenSetOk(s) && s.tracks == GoldenTracks4
    ensures var o := AddTalkSpec(s, GoldenTalk5);
            && o.state.tracks == GoldenTracks5 && OpenSetOk(o.state)
            && o.result == Success(Booked(GoldenTalk5, "01:00PM"))
  {
    GoldenFacts5();
    GoldenPut5();
    ClockText780();
    StepInto(s, GoldenTalk5, SessionRef(0, Afternoon));
  }

  lemma GoldenFacts6()
    ensures Fits(GoldenTracks5, SessionRef(0, Afternoon), 5)
    ensures forall q: SessionRef :: q != SessionRef(0, Afternoon) && Fits(GoldenTracks5, q, 5) ==>
              Remaining(GoldenTracks5, q) > Remaining(GoldenTracks5, SessionRef(0, Afternoon))
  {
  }

  lemma GoldenPut6()
    ensures Put(GoldenTracks5, SessionRef(0, Afternoon), GoldenTalk6) == GoldenTracks6
  {
    ClockText825();
    var p := Put(GoldenTracks5, SessionRef(0, Afternoon), GoldenTalk6);
    assert p[0].afternoon == GoldenTracks6[0].afternoon;
  }

  lemma GoldenStep6(s: State)
    requires OpenSetOk(s) && s.tracks == GoldenTracks5
    ensures var o := AddTalkSpec(s, GoldenTalk6);
            && o.state.tracks == GoldenTracks6 && OpenSetOk(o.state)
            && o.result == Success(Booked(GoldenTalk6, "01:45PM"))
  {
    GoldenFacts6();
    GoldenPut6();
    ClockText825();
    StepInto(s, GoldenTalk6, SessionRef(0, Afternoon));
  }

  lemma GoldenFacts7()
    ensures Fits(GoldenTracks6, SessionRef(0, Afternoon), 60)
    ensures forall q: SessionRef :: q != SessionRef(0, Afternoon) && Fits(GoldenTracks6, q, 60) ==>
              Remaining(GoldenTracks6, q) > Remaining(GoldenTracks6, SessionRef(0, Afternoon))
  {
  }

  lemma GoldenPut7()
    ensures Put(GoldenTracks6, SessionRef(0, Afternoon), GoldenTalk7) == GoldenTracks7
  {
    ClockText830();
    var p := Put(GoldenTracks6, SessionRef(0, Afternoon), GoldenTalk7);
    assert p[0].afternoon == GoldenTracks7[0].afternoon;
  }

  lemma GoldenStep7(s: State)
    requires OpenSetOk(s) && s.tracks == GoldenTracks6
    ensures var o := AddTalkSpec(s, GoldenTalk7);
            && o.state.tracks == GoldenTracks7 && OpenSetOk(o.state)
            && o.result == Success(Booked(GoldenTalk7, "01:50PM"))
  {
    GoldenFacts7();
    GoldenPut7();
    ClockText830();
    StepInto(s, GoldenTalk7, SessionRef(0, Afternoon));
  }

  lemma GoldenFacts8()
    ensures Fits(GoldenTracks7, SessionRef(0, Afternoon), 45)
    ensures forall q: SessionRef :: q != SessionRef(0, Afternoon) && Fits(GoldenTracks7, q, 45) ==>
              Remaining(GoldenTracks7, q) > Remaining(GoldenTracks7, SessionRef(0, Afternoon))
  {
  }

  lemma GoldenPut8()
    ensures Put(GoldenTracks7, SessionRef(0, Afternoon), GoldenTalk8) == GoldenTracks8
  {
    ClockText890();
    var p := Put(GoldenTracks7, SessionRef(0, Afternoon), GoldenTalk8);
    assert p[0].afternoon == GoldenTracks8[0].afternoon;
  }

  lemma GoldenStep8(s: State)
    requires OpenSetOk(s) && s.tracks == GoldenTracks7
    ensures var o := AddTalkSpec(s, GoldenTalk8);
            && o.state.tracks == GoldenTracks8 && OpenSetOk(o.state)
            && o.result == Success(Booked(GoldenTalk8, "02:50PM"))
  {
    GoldenFacts8();
    GoldenPut8();
    ClockText890();
    StepInto(s, GoldenTalk8, SessionRef(0, Afternoon));
  }

  lemma GoldenFacts9()
    ensures Fits(GoldenTracks8, SessionRef(0, Afternoon), 30)
    ensures forall q: SessionRef :: q != SessionRef(0, Afternoon) && Fits(GoldenTracks8, q, 30) ==>
              Remaining(GoldenTracks8, q) > Remaining(GoldenTracks8, SessionRef(0, Afternoon))
  {
  }

  lemma GoldenPut9()
    ensures Put(GoldenTracks8, SessionRef(0, Afternoon), GoldenTalk9) == GoldenTracks9
  {
    ClockText935();
    var p := Put(GoldenTracks8, SessionRef(0, Afternoon), GoldenTalk9);
    assert p[0].afternoon == GoldenTracks9[0].afternoon;
  }

  lemma GoldenStep9(s: State)
    requires OpenSetOk(s) && s.tracks == GoldenTracks8
    ensures var o := AddTalkSpec(s, GoldenTalk9);
            && o.state.tracks == GoldenTracks9 && OpenSetOk(o.state)
            && o.result == Success(Booked(GoldenTalk9, "03:35PM"))
  {
    GoldenFacts9();
    GoldenPut9();
    ClockText935();
    StepInto(s, GoldenTalk9, SessionRef(0, Afternoon));
  }

  lemma GoldenFacts10()
    ensures Fits(GoldenTracks9, SessionRef(0, Afternoon), 30)
    ensures forall q: SessionRef :: q != SessionRef(0, Afternoon) && Fits(GoldenTracks9, q, 30) ==>
              Remaining(GoldenTracks9, q) > Remaining(GoldenTracks9, SessionRef(0, Afternoon))
  {
  }

  lemma GoldenPut10()
    ensures Put(GoldenTracks9, SessionRef(0, Afternoon), GoldenTalk10) == GoldenTracks10
  {
    ClockText965();
    var p := Put(GoldenTracks9, SessionRef(0, Afternoon), GoldenTalk10);
    assert p[0].afternoon == GoldenTracks10[0].afternoon;
  }

  lemma GoldenStep10(s: State)
    requires OpenSetOk(s) && s.tracks == GoldenTracks9
    ensures var o := AddTalkSpec(s, GoldenTalk10);
            && o.state.tracks == GoldenTracks10 && OpenSetOk(o.state)
            && o.result == Success(Booked(GoldenTalk10, "04:05PM"))
  {
    GoldenFacts10();
    GoldenPut10();
    ClockText965();
    StepInto(s, GoldenTalk10, SessionRef(0, Afternoon));
  }

  lemma GoldenFacts11()
    ensures forall q: SessionRef :: Remaining(GoldenTracks10, q) < 45
  {
  }

  lemma GoldenPut11()
    ensures Put(GoldenTracks10 + [NewTrack()], SessionRef(1, Morning), GoldenTalk11) == GoldenTracks11
  {
    ClockText540();
    var p := Put(GoldenTracks10 + [NewTrack()], SessionRef(1, Morning), GoldenTalk11);
    assert p[1].morning == GoldenTracks11[1].morning;
  }

  lemma GoldenStep11(s: State)
    requires OpenSetOk(s) && s.tracks == GoldenTracks10
    ensures var o := AddTalkSpec(s, GoldenTalk11);
            && o.state.tracks == GoldenTracks11 && OpenSetOk(o.state)
            && o.result == Success(Booked(GoldenTalk11, "09:00AM"))
  {
    GoldenFacts11();
    GoldenPut11();
    ClockText540();
    StepNewTrack(s, GoldenTalk11);
  }

  lemma GoldenFacts12()
    ensures Fits(GoldenTracks11, SessionRef(1, Morning), 60)
    ensures forall q: SessionRef :: q != SessionRef(1, Morning) && Fits(GoldenTracks11, q, 60) ==>
              Remaining(GoldenTracks11, q) > Remaining(GoldenTracks11, SessionRef(1, Morning))
  {
  }

  lemma GoldenPut12()
    ensures Put(GoldenTracks11, SessionRef(1, Morning), GoldenTalk12) == GoldenTracks12
  {
    ClockText585();
    var p := Put(GoldenTracks11, SessionRef(1, Morning), GoldenTalk12);
    assert p[1].morning == GoldenTracks12[1].morning;
  }

  lemma GoldenStep12(s: State)
    requires OpenSetOk(s) && s.tracks == GoldenTracks11
    ensures var o := AddTalkSpec(s, GoldenTalk12);
            && o.state.tracks == GoldenTracks12 && OpenSetOk(o.state)
            && o.result == Success(Booked(GoldenTalk12, "09:45AM"))
  {
    GoldenFacts12();
    GoldenPut12();
    ClockText585();
    StepInto(s, GoldenTalk12, SessionRef(1, Morning));
  }

  lemma GoldenFacts13()
    ensures Fits(GoldenTracks12, SessionRef(1, Morning), 60)
    ensures forall q: SessionRef :: q != SessionRef(1, Morning) && Fits(GoldenTracks12, q, 60) ==>
              Remaining(GoldenTracks12, q) > Remaining(GoldenTracks12, SessionRef(1, Morning))
  {
  }

  lemma GoldenPut13()
    ensures Put(GoldenTracks12, SessionRef(1, Morning), GoldenTalk13) == GoldenTracks13
  {
    ClockText645();
    var p := Put(GoldenTracks12, SessionRef(1, Morning), GoldenTalk13);
    assert p[1].morning == GoldenTracks13[1].morning;
  }

  lemma GoldenStep13(s: State)
    requires OpenSetOk(s) && s.tracks == GoldenTracks12
    ensures var o := AddTalkSpec(s, GoldenTalk13);
            && o.state.tracks == GoldenTracks13 && OpenSetOk(o.state)
            && o.result == Success(Booked(GoldenTalk13, "10:45AM"))
  {
    GoldenFacts13();
    GoldenPut13();
    ClockText645();
    StepInto(s, GoldenTalk13, SessionRef(1, Morning));
  }

  lemma GoldenFacts14()
    ensures Fits(GoldenTracks13, SessionRef(1, Afternoon), 45)
    ensures forall q: SessionRef :: q != SessionRef(1, Afternoon) && Fits(GoldenTracks13, q, 45) ==>
              Remaining(GoldenTracks13, q) > Remaining(GoldenTracks13, SessionRef(1, Afternoon))
  {
  }

  lemma GoldenPut14()
    ensures Put(GoldenTracks13, SessionRef(1, Afternoon), GoldenTalk14) == GoldenTracks14
  {
    ClockText780();
    var p := Put(GoldenTracks13, SessionRef(1, Afternoon), GoldenTalk14);
    assert p[1].afternoon == GoldenTracks14[1].afternoon;
  }

  lemma GoldenStep14(s: State)
    requires OpenSetOk(s) && s.tracks == GoldenTracks13
    ensures var o := AddTalkSpec(s, GoldenTalk14);
            && o.state.tracks == GoldenTracks14 && OpenSetOk(o.state)
            && o.result == Success(Booked(GoldenTalk14, "01:00PM"))
  {
    GoldenFacts14();
    GoldenPut14();
    ClockText780();
    StepInto(s, GoldenTalk14, SessionRef(1, Afternoon));
  }

  lemma GoldenFacts15()
    ensures Fits(GoldenTracks14, SessionRef(1, Afternoon), 30)
    ensures forall q: SessionRef :: q != SessionRef(1, Afternoon) && Fits(GoldenTracks14, q, 30) ==>
              Remaining(GoldenTracks14, q) > Remaining(GoldenTracks14, SessionRef(1, Afternoon))
  {
  }

  lemma GoldenPut15()
    ensures Put(GoldenTracks14, SessionRef(1, Afternoon), GoldenTalk15) == GoldenTracks15
  {
    ClockText825();
    var p := Put(GoldenTracks14, SessionRef(1, Afternoon), GoldenTalk15);
    assert p[1].afternoon == GoldenTracks15[1].afternoon;
  }

  lemma GoldenStep15(s: State)
    requires OpenSetOk(s) && s.tracks == GoldenTracks14
    ensures var o := AddTalkSpec(s, GoldenTalk15);
            && o.state.tracks == GoldenTracks15 && OpenSetOk(o.state)
            && o.result == Success(Booked(GoldenTalk15, "01:45PM"))
  {
    GoldenFacts15();
    GoldenPut15();
    ClockText825();
    StepInto(s, GoldenTalk15, SessionRef(1, Afternoon));
  }

  lemma GoldenFacts16()
    ensures Fits(GoldenTracks15, SessionRef(1, Afternoon), 30)
    ensures forall q: SessionRef :: q != SessionRef(1, Afternoon) && Fits(GoldenTracks15, q, 30) ==>
              Remaining(GoldenTracks15, q) > Remaining(GoldenTracks15, SessionRef(1, Afternoon))
  {
  }

  lemma GoldenPut16()
    ensures Put(GoldenTracks15, SessionRef(1, Afternoon), GoldenTalk16) == GoldenTracks16
  {
    ClockText855();
    var p := Put(GoldenTracks15, SessionRef(1, Afternoon), GoldenTalk16);
    assert p[1].afternoon == GoldenTracks16[1].afternoon;
  }

  lemma GoldenStep16(s: State)
    requires OpenSetOk(s) && s.tracks == GoldenTracks15
    ensures var o := AddTalkSpec(s, GoldenTalk16);
            && o.state.tracks == GoldenTracks16 && OpenSetOk(o.state)
            && o.result == Success(Booked(GoldenTalk16, "02:15PM"))
  {
    GoldenFacts16();
    GoldenPut16();
    ClockText855();
    StepInto(s, GoldenTalk16, SessionRef(1, Afternoon));
  }

  lemma GoldenFacts17()
    ensures Fits(GoldenTracks16, SessionRef(1, Afternoon), 60)
    ensures forall q: SessionRef :: q != SessionRef(1, Afternoon) && Fits(GoldenTracks16, q, 60) ==>
              Remaining(GoldenTracks16, q) > Remaining(GoldenTracks16, SessionRef(1, Afternoon))
  {
  }

  lemma GoldenPut17()
    ensures Put(GoldenTracks16, SessionRef(1, Afternoon), GoldenTalk17) == GoldenTracks17
  {
    ClockText885();
    var p := Put(GoldenTracks16, SessionRef(1, Afternoon), GoldenTalk17);
    assert p[1].afternoon == GoldenTracks17[1].afternoon;
  }

  lemma GoldenStep17(s: State)
    requires OpenSetOk(s) && s.tracks == GoldenTracks16
    ensures var o := AddTalkSpec(s, GoldenTalk17);
            && o.state.tracks == GoldenTracks17 && OpenSetOk(o.state)
            && o.result == Success(Booked(GoldenTalk17, "02:45PM"))
  {
    GoldenFacts17();
    GoldenPut17();
    ClockText885();
    StepInto(s, GoldenTalk17, SessionRef(1, Afternoon));
  }

  lemma GoldenFacts18()
    ensures Fits(GoldenTracks17, SessionRef(1, Afternoon), 30)
    ensures forall q: SessionRef :: q != SessionRef(1, Afternoon) && Fits(GoldenTracks17, q, 30) ==>
              Remaining(GoldenTracks17, q) > Remaining(GoldenTracks17, SessionRef(1, Afternoon))
  {
  }

  lemma GoldenPut18()
    ensures Put(GoldenTracks17, SessionRef(1, Afternoon), GoldenTalk18) == GoldenTracks18
  {
    ClockText945();
    var p := Put(GoldenTracks17, SessionRef(1, Afternoon), GoldenTalk18);
    assert p[1].afternoon == GoldenTracks18[1].afternoon;
  }

  lemma GoldenStep18(s: State)
    requires OpenSetOk(s) && s.tracks == GoldenTracks17
    ensures var o := AddTalkSpec(s, GoldenTalk18);
            && o.state.tracks == GoldenTracks18 && OpenSetOk(o.state)
            && o.result == Success(Booked(GoldenTalk18, "03:45PM"))
  {
    GoldenFacts18();
    GoldenPut18();
    ClockText945();
    StepInto(s, GoldenTalk18, SessionRef(1, Afternoon));
  }

  lemma GoldenFacts19()
    ensures Fits(GoldenTracks18, SessionRef(1, Afternoon), 30)
    ensures forall q: SessionRef :: q != SessionRef(1, Afternoon) && Fits(GoldenTracks18, q, 30) ==>
              Remaining(GoldenTracks18, q) > Remaining(GoldenTracks18, SessionRef(1, Afternoon))
  {
  }

  lemma GoldenPut19()
    ensures Put(GoldenTracks18, SessionRef(1, Afternoon), GoldenTalk19) == GoldenTracks19
  {
    ClockText975();
    var p := Put(GoldenTracks18, SessionRef(1, Afternoon), GoldenTalk19);
    assert p[1].afternoon == GoldenTracks19[1].afternoon;
  }

  lemma GoldenStep19(s: State)
    requires OpenSetOk(s) && s.tracks == GoldenTracks18
    ensures var o := AddTalkSpec(s, GoldenTalk19);
            && o.state.tracks == GoldenTracks19 && OpenSetOk(o.state)
            && o.result == Success(Booked(GoldenTalk19, "04:15PM"))
  {
    GoldenFacts19();
    GoldenPut19();
    ClockText975();
    StepInto(s, GoldenTalk19, SessionRef(1, Afternoon));
  }

  lemma GoldenPart1(s0: State, o1: Outcome, o2: Outcome)
    requires s0.tracks == [] && s0.open == []
    requires o1 == AddTalkSpec(s0, GoldenTalk1)
    requires o2 == AddTalkSpec(o1.state, GoldenTalk2)
    ensures o1.state.tracks == GoldenTracks1 && OpenSetOk(o1.state)
    ensures o2.state.tracks == GoldenTracks2 && OpenSetOk(o2.state)
  {
    assert OpenSetOk(s0);
    GoldenStep1(s0);
    GoldenStep2(o1.state);
  }

  lemma GoldenPart2(s: State, o3: Outcome, o4: Outcome, o5: Outcome)
    requires OpenSetOk(s) && s.tracks == GoldenTracks2
    requires o3 == AddTalkSpec(s, GoldenTalk3)
    requires o4 == AddTalkSpec(o3.state, GoldenTalk4)
    requires o5 == AddTalkSpec(o4.state, GoldenTalk5)
    ensures o3.state.tracks == GoldenTracks3 && OpenSetOk(o3.state)
    ensures o4.state.tracks == GoldenTracks4 && OpenSetOk(o4.state)
    ensures o5.state.tracks == GoldenTracks5 && OpenSetOk(o5.state)
  {
    GoldenStep3(s);
    GoldenStep4(o3.state);
    GoldenStep5(o4.state);
  }

  lemma GoldenPart3(s: State, o6: Outcome, o7: Outcome, o8: Outcome)
    requires OpenSetOk(s) && s.tracks == GoldenTracks5
    requires o6 == AddTalkSpec(s, GoldenTalk6)
    requires o7 == AddTalkSpec(o6.state, GoldenTalk7)
    requires o8 == AddTalkSpec(o7.state, GoldenTalk8)
    ensures o6.state.tracks == GoldenTracks6 && OpenSetOk(o6.state)
    ensures o7.state.tracks == GoldenTracks7 && OpenSetOk(o7.state)
    ensures o8.state.tracks == GoldenTracks8 && OpenSetOk(o8.state)
  {
    GoldenStep6(s);
    GoldenStep7(o6.state);
    GoldenStep8(o7.state);
  }

  lemma GoldenPart4(s: State, o9: Outcome, o10: Outcome, o11: Outcome)
    requires OpenSetOk(s) && s.tracks == GoldenTracks8
    requires o9 == AddTalkSpec(s, GoldenTalk9)
    requires o10 == AddTalkSpec(o9.state, GoldenTalk10)
    requires o11 == AddTalkSpec(o10.state, GoldenTalk11)
    ensures o9.state.tracks == GoldenTracks9 && OpenSetOk(o9.state)
    ensures o10.state.tracks == GoldenTracks10 && OpenSetOk(o10.state)
    ensures o11.state.tracks == GoldenTracks11 && OpenSetOk(o11.state)
  {
    GoldenStep9(s);
    GoldenStep10(o9.state);
    GoldenStep11(o10.state);
  }

  lemma GoldenPart5(s: State, o12: Outcome, o13: Outcome, o14: Outcome)
    requires OpenSetOk(s) && s.tracks == GoldenTracks11
    requires o12 == AddTalkSpec(s, GoldenTalk12)
    requires o13 == AddTalkSpec(o12.state, GoldenTalk13)
    requires o14 == AddTalkSpec(o13.state, GoldenTalk14)
    ensures o12.state.tracks == GoldenTracks12 && OpenSetOk(o12.state)
    ensures o13.state.tracks == GoldenTracks13 && OpenSetOk(o13.state)
    ensures o14.state.tracks == GoldenTracks14 && OpenSetOk(o14.state)
  {
    GoldenStep12(s);
    GoldenStep13(o12.state);
    GoldenStep14(o13.state);
  }

  lemma GoldenPart6(s: State, o15: Outcome, o16: Outcome, o17: Outcome)
    requires OpenSetOk(s) && s.tracks == GoldenTracks14
    requires o15 == AddTalkSpec(s, GoldenTalk15)
    requires o16 == AddTalkSpec(o15.state, GoldenTalk16)
    requires o17 == AddTalkSpec(o16.state, GoldenTalk17)
    ensures o15.state.tracks == GoldenTracks15 && OpenSetOk(o15.state)
    ensures o16.state.tracks == GoldenTracks16 && OpenSetOk(o16.state)
    ensures o17.state.tracks == GoldenTracks17 && OpenSetOk(o17.state)
  {
    GoldenStep15(s);
    GoldenStep16(o15.state);
    GoldenStep17(o16.state);
  }

  lemma GoldenPart7(s: State, o18: Outcome, o19: Outcome)
    requires OpenSetOk(s) && s.tracks == GoldenTracks17
    requires o18 == AddTalkSpec(s, GoldenTalk18)
    requires o19 == AddTalkSpec(o18.state, GoldenTalk19)
    ensures o18.state.tracks == GoldenTracks18 && OpenSetOk(o18.state)
    ensures o19.state.tracks == GoldenTracks19 && OpenSetOk(o19.state)
  {
    GoldenStep18(s);
    GoldenStep19(o18.state);
  }

  lemma FixedLines()
    ensures EventLine(Lunch) == "> 12:00PM Lunch"
    ensures EventLine(NetworkingEvent) == "> 05:00PM Networking Event"
    ensures TrackHeader(0) == "> Track 1:" && TrackHeader(1) == "> Track 2:"
  {
  }

  lemma Suffixes()
    ensures DurationSuffix(Some(Fixed(30))) == " 30min"
    ensures DurationSuffix(Some(Fixed(45))) == " 45min"
    ensures DurationSuffix(Some(Fixed(60))) == " 60min"
    ensures DurationSuffix(Some(Lightning)) == " lightning"
  {
  }

  lemma GoldenTrack1Morning(talks: seq<ProcessedTalk>)
    requires talks == [Booked(GoldenTalk1, "09:00AM"), Booked(GoldenTalk2, "10:00AM"), Booked(GoldenTalk3, "10:45AM"), Booked(GoldenTalk4, "11:15AM")]
    ensures EventLines(TalkEvents(talks)) == [
      "> " + "09:00AM" + " " + "Writing Fast Tests Against Enterprise Rails" + " 60min",
      "> " + "10:00AM" + " " + "Overdoing it in Python" + " 45min",
      "> " + "10:45AM" + " " + "Lua for the Masses" + " 30min",
      "> " + "11:15AM" + " " + "Ruby Errors from Mismatched Gem Versions" + " 45min"]
  {
    Suffixes();
  }

  lemma GoldenTrack1Afternoon(talks: seq<ProcessedTalk>)
    requires talks == [Booked(GoldenTalk5, "01:00PM"), Booked(GoldenTalk6, "01:45PM"), Booked(GoldenTalk7, "01:50PM"), Booked(GoldenTalk8, "02:50PM"), Booked(GoldenTalk9, "03:35PM"), Booked(GoldenTalk10, "04:05PM")]
    ensures EventLines(TalkEvents(talks)) == [
      "> " + "01:00PM" + " " + "Common Ruby Errors" + " 45min",
      "> " + "01:45PM" + " " + "Rails for Python Developers" + " lightning",
      "> " + "01:50PM" + " " + "Communicating Over Distance" + " 60min",
      "> " + "02:50PM" + " " + "Accounting-Driven Development " + " 45min",
      "> " + "03:35PM" + " " + "Woah" + " 30min",
      "> " + "04:05PM" + " " + "Sit Down and Write" + " 30min"]
  {
    Suffixes();
  }

  lemma GoldenTrack1Lines(t: Track)
    requires t.morning.talks == [Booked(GoldenTalk1, "09:00AM"), Booked(GoldenTalk2, "10:00AM"), Booked(GoldenTalk3, "10:45AM"), Booked(GoldenTalk4, "11:15AM")]
    requires t.afternoon.talks == [Booked(GoldenTalk5, "01:00PM"), Booked(GoldenTalk6, "01:45PM"), Booked(GoldenTalk7, "01:50PM"), Booked(GoldenTalk8, "02:50PM"), Booked(GoldenTalk9, "03:35PM"), Booked(GoldenTalk10, "04:05PM")]
    ensures TrackLines(0, t) ==
        ["> Track 1:"]
        + (["> " + "09:00AM" + " " + "Writing Fast Tests Against Enterprise Rails" + " 60min",
            "> " + "10:00AM" + " " + "Overdoing it in Python" + " 45min",
            "> " + "10:45AM" + " " + "Lua for the Masses" + " 30min",
            "> " + "11:15AM" + " " + "Ruby Errors from Mismatched Gem Versions" + " 45min"]
           + ["> 12:00PM Lunch"]
           + ["> " + "01:00PM" + " " + "Common Ruby Errors" + " 45min",
              "> " + "01:45PM" + " " + "Rails for Python Developers" + " lightning",
              "> " + "01:50PM" + " " + "Communicating Over Distance" + " 60min",
              "> " + "02:50PM" + " " + "Accounting-Driven Development " + " 45min",
              "> " + "03:35PM" + " " + "Woah" + " 30min",
              "> " + "04:05PM" + " " + "Sit Down and Write" + " 30min"]
           + ["> 05:00PM Networking Event"])
  {
    TrackLinesAre(0, t);
    GoldenTrack1Morning(t.morning.talks);
    GoldenTrack1Afternoon(t.afternoon.talks);
    FixedLines();
  }

  lemma GoldenTrack2Morning(talks: seq<ProcessedTalk>)
    requires talks == [Booked(GoldenTalk11, "09:00AM"), Booked(GoldenTalk12, "09:45AM"), Booked(GoldenTalk13, "10:45AM")]
    ensures EventLines(TalkEvents(talks)) == [
      "> " + "09:00AM" + " " + "Pair Programming vs Noise" + " 45min",
      "> " + "09:45AM" + " " + "Rails Magic" + " 60min",
      "> " + "10:45AM" + " " + "Ruby on Rails: Why We Should Move On" + " 60min"]
  {
    Suffixes();
  }

  lemma GoldenTrack2Afternoon(talks: seq<ProcessedTalk>)
    requires talks == [Booked(GoldenTalk14, "01:00PM"), Booked(GoldenTalk15, "01:45PM"), Booked(GoldenTalk16, "02:15PM"), Booked(GoldenTalk17, "02:45PM"), Booked(GoldenTalk18, "03:45PM"), Booked(GoldenTalk19, "04:15PM")]
    ensures EventLines(TalkEvents(talks)) == [
      "> " + "01:00PM" + " " + "Clojure Ate Scala (on my project)" + " 45min",
      "> " + "01:45PM" + " " + "Programming in the Boondocks of Seattle" + " 30min",
      "> " + "02:15PM" + " " + "Ruby vs. Clojure for Back-End Development" + " 30min",
      "> " + "02:45PM" + " " + "Ruby on Rails Legacy App Maintenance" + " 60min",
      "> " + "03:45PM" + " " + "A World Without HackerNews" + " 30min",
      "> " + "04:15PM" + " " + "User Interface CSS in Rails Apps" + " 30min"]
  {
    Suffixes();
  }

  lemma GoldenTrack2Lines(t: Track)
    requires t.morning.talks == [Booked(GoldenTalk11, "09:00AM"), Booked(GoldenTalk12, "09:45AM"), Booked(GoldenTalk13, "10:45AM")]
    requires t.afternoon.talks == [Booked(GoldenTalk14, "01:00PM"), Booked(GoldenTalk15, "01:45PM"), Booked(GoldenTalk16, "02:15PM"), Booked(GoldenTalk17, "02:45PM"), Booked(GoldenTalk18, "03:45PM"), Booked(GoldenTalk19, "04:15PM")]
    ensures TrackLines(1, t) ==
        [">", "> Track 2:"]
        + (["> " + "09:00AM" + " " + "Pair Programming vs Noise" + " 45min",
            "> " + "09:45AM" + " " + "Rails Magic" + " 60min",
            "> " + "10:45AM" + " " + "Ruby on Rails: Why We Should Move On" + " 60min"]
           + ["> 12:00PM Lunch"]
           + ["> " + "01:00PM" + " " + "Clojure Ate Scala (on my project)" + " 45min",
              "> " + "01:45PM" + " " + "Programming in the Boondocks of Seattle" + " 30min",
              "> " + "02:15PM" + " " + "Ruby vs. Clojure for Back-End Development" + " 30min",
              "> " + "02:45PM" + " " + "Ruby on Rails Legacy App Maintenance" + " 60min",
              "> " + "03:45PM" + " " + "A World Without HackerNews" + " 30min",
              "> " + "04:15PM" + " " + "User Interface CSS in Rails Apps" + " 30min"]
           + ["> 05:00PM Networking Event"])
  {
    TrackLinesAre(1, t);
    GoldenTrack2Morning(t.morning.talks);
    GoldenTrack2Afternoon(t.afternoon.talks);
    FixedLines();
  }

  lemma GoldenLog()
    ensures TimelineLog(GoldenTracks19) ==
        (["> Track 1:"]
        + (["> " + "09:00AM" + " " + "Writing Fast Tests Against Enterprise Rails" + " 60min",
            "> " + "10:00AM" + " " + "Overdoing it in Python" + " 45min",
            "> " + "10:45AM" + " " + "Lua for the Masses" + " 30min",
            "> " + "11:15AM" + " " + "Ruby Errors from Mismatched Gem Versions" + " 45min"]
           + ["> 12:00PM Lunch"]
           + ["> " + "01:00PM" + " " + "Common Ruby Errors" + " 45min",
              "> " + "01:45PM" + " " + "Rails for Python Developers" + " lightning",
              "> " + "01:50PM" + " " + "Communicating Over Distance" + " 60min",
              "> " + "02:50PM" + " " + "Accounting-Driven Development " + " 45min",
              "> " + "03:35PM" + " " + "Woah" + " 30min",
              "> " + "04:05PM" + " " + "Sit Down and Write" + " 30min"]
           + ["> 05:00PM Networking Event"]))
        + ([">", "> Track 2:"]
        + (["> " + "09:00AM" + " " + "Pair Programming vs Noise" + " 45min",
            "> " + "09:45AM" + " " + "Rails Magic" + " 60min",
            "> " + "10:45AM" + " " + "Ruby on Rails: Why We Should Move On" + " 60min"]
           + ["> 12:00PM Lunch"]
           + ["> " + "01:00PM" + " " + "Clojure Ate Scala (on my project)" + " 45min",
              "> " + "01:45PM" + " " + "Programming in the Boondocks of Seattle" + " 30min",
              "> " + "02:15PM" + " " + "Ruby vs. Clojure for Back-End Development" + " 30min",
              "> " + "02:45PM" + " " + "Ruby on Rails Legacy App Maintenance" + " 60min",
              "> " + "03:45PM" + " " + "A World Without HackerNews" + " 30min",
              "> " + "04:15PM" + " " + "User Interface CSS in Rails Apps" + " 30min"]
           + ["> 05:00PM Networking Event"]))
  {
    LogOfTwo(GoldenTracks19);
    GoldenTrack1Lines(GoldenTracks19[0]);
    GoldenTrack2Lines(GoldenTracks19[1]);
  }

  /** Nineteen talks fill two tracks; the log prints each track under its
      header, its talks in order with their times and durations, Lunch and
      the networking event, with a separator line between the tracks. */
  lemma PrintsTimeline(s0: State, o1: Outcome, o2: Outcome, o3: Outcome, o4: Outcome, o5: Outcome, o6: Outcome, o7: Outcome, o8: Outcome, o9: Outcome, o10: Outcome, o11: Outcome, o12: Outcome, o13: Outcome, o14: Outcome, o15: Outcome, o16: Outcome, o17: Outcome, o18: Outcome, o19: Outcome)
    requires s0.tracks == [] && s0.open == []
    requires o1 == AddTalkSpec(s0, GoldenTalk1)
    requires o2 == AddTalkSpec(o1.state, GoldenTalk2)
    requires o3 == AddTalkSpec(o2.state, GoldenTalk3)
    requires o4 == AddTalkSpec(o3.state, GoldenTalk4)
    requires o5 == AddTalkSpec(o4.state, GoldenTalk5)
    requires o6 == AddTalkSpec(o5.state, GoldenTalk6)
    requires o7 == AddTalkSpec(o6.state, GoldenTalk7)
    requires o8 == AddTalkSpec(o7.state, GoldenTalk8)
    requires o9 == AddTalkSpec(o8.state, GoldenTalk9)
    requires o10 == AddTalkSpec(o9.state, GoldenTalk10)
    requires o11 == AddTalkSpec(o10.state, GoldenTalk11)
    requires o12 == AddTalkSpec(o11.state, GoldenTalk12)
    requires o13 == AddTalkSpec(o12.state, GoldenTalk13)
    requires o14 == AddTalkSpec(o13.state, GoldenTalk14)
    requires o15 == AddTalkSpec(o14.state, GoldenTalk15)
    requires o16 == AddTalkSpec(o15.state, GoldenTalk16)
    requires o17 == AddTalkSpec(o16.state, GoldenTalk17)
    requires o18 == AddTalkSpec(o17.state, GoldenTalk18)
    requires o19 == AddTalkSpec(o18.state, GoldenTalk19)
    ensures TimelineLog(o19.state.tracks) ==
        (["> Track 1:"]
        + (["> " + "09:00AM" + " " + "Writing Fast Tests Against Enterprise Rails" + " 60min",
            "> " + "10:00AM" + " " + "Overdoing it in Python" + " 45min",
            "> " + "10:45AM" + " " + "Lua for the Masses" + " 30min",
            "> " + "11:15AM" + " " + "Ruby Errors from Mismatched Gem Versions" + " 45min"]
           + ["> 12:00PM Lunch"]
           + ["> " + "01:00PM" + " " + "Common Ruby Errors" + " 45min",
              "> " + "01:45PM" + " " + "Rails for Python Developers" + " lightning",
              "> " + "01:50PM" + " " + "Communicating Over Distance" + " 60min",
              "> " + "02:50PM" + " " + "Accounting-Driven Development " + " 45min",
              "> " + "03:35PM" + " " + "Woah" + " 30min",
              "> " + "04:05PM" + " " + "Sit Down and Write" + " 30min"]
           + ["> 05:00PM Networking Event"]))
        + ([">", "> Track 2:"]
        + (["> " + "09:00AM" + " " + "Pair Programming vs Noise" + " 45min",
            "> " + "09:45AM" + " " + "Rails Magic" + " 60min",
            "> " + "10:45AM" + " " + "Ruby on Rails: Why We Should Move On" + " 60min"]
           + ["> 12:00PM Lunch"]
           + ["> " + "01:00PM" + " " + "Clojure Ate Scala (on my project)" + " 45min",
              "> " + "01:45PM" + " " + "Programming in the Boondocks of Seattle" + " 30min",
              "> " + "02:15PM" + " " + "Ruby vs. Clojure for Back-End Development" + " 30min",
              "> " + "02:45PM" + " " + "Ruby on Rails Legacy App Maintenance" + " 60min",
              "> " + "03:45PM" + " " + "A World Without HackerNews" + " 30min",
              "> " + "04:15PM" + " " + "User Interface CSS in Rails Apps" + " 30min"]
           + ["> 05:00PM Networking Event"]))
  {
    GoldenPart1(s0, o1, o2);
    GoldenPart2(o2.state, o3, o4, o5);
    GoldenPart3(o5.state, o6, o7, o8);
    GoldenPart4(o8.state, o9, o10, o11);
    GoldenPart5(o11.state, o12, o13, o14);
    GoldenPart6(o14.state, o15, o16, o17);
    GoldenPart7(o17.state, o18, o19);
    GoldenLog();
  }

  lemma ClockText540()
    ensures Format12(540) == "09:00AM"
  {
  }

  lemma ClockText585()
    ensures Format12(585) == "09:45AM"
  {
  }

  lemma ClockText600()
    ensures Format12(600) == "10:00AM"
  {
  }

  lemma ClockText630()
    ensures Format12(630) == "10:30AM"
  {
  }

  lemma ClockText645()
    ensures Format12(645) == "10:45AM"
  {
  }

  lemma ClockText660()
    ensures Format12(660) == "11:00AM"
  {
  }

  lemma ClockText675()
    ensures Format12(675) == "11:15AM"
  {
  }

  lemma ClockText710()
    ensures Format12(710) == "11:50AM"
  {
  }

  lemma ClockText780()
    ensures Format12(780) == "01:00PM"
  {
  }

  lemma ClockText810()
    ensures Format12(810) == "01:30PM"
  {
  }

  lemma ClockText825()
    ensures Format12(825) == "01:45PM"
  {
  }

  lemma ClockText830()
    ensures Format12(830) == "01:50PM"
  {
  }

  lemma ClockText840()
    ensures Format12(840) == "02:00PM"
  {
  }

  lemma ClockText855()
    ensures Format12(855) == "02:15PM"
  {
  }

  lemma ClockText885()
    ensures Format12(885) == "02:45PM"
  {
  }

  lemma ClockText890()
    ensures Format12(890) == "02:50PM"
  {
  }

  lemma ClockText930()
    ensures Format12(930) == "03:30PM"
  {
  }

  lemma ClockText935()
    ensures Format12(935) == "03:35PM"
  {
  }

  lemma ClockText945()
    ensures Format12(945) == "03:45PM"
  {
  }

  lemma ClockText960()
    ensures Format12(960) == "04:00PM"
  {
  }

  lemma ClockText965()
    ensures Format12(965) == "04:05PM"
  {
  }

  lemma ClockText975()
    ensures Format12(975) == "04:15PM"
  {
  }

  lemma ClockText990()
    ensures Format12(990) == "04:30PM"
  {
  }

}
