/** Talks, sessions and tracks as values, and the read-only projections the
    scheduler offers over them: a track's networking start, its timeline of
    events, and the printed log of all tracks. */
module Tracks {
  import opened Wrappers
  import opened Clock

  /** A talk's length: a number of minutes, or the "lightning" sentinel. */
  datatype Duration = Fixed(minutes: nat) | Lightning

  const LightningMinutes: nat := 5

  /** Minutes a talk takes out of a session. */
  function Cost(d: Duration): nat {
    match d
    case Fixed(n) => n
    case Lightning => LightningMinutes
  }

  datatype Talk = Talk(title: string, duration: Duration)

  /** A placed talk: the submitted talk with the clock time it starts at. */
  datatype ProcessedTalk = ProcessedTalk(title: string, duration: Duration, allocatedTime: string)

  datatype SessionType = Morning | Afternoon

  function Capacity(kind: SessionType): nat {
    match kind
    case Morning => 180
    case Afternoon => 240
  }

  /** 09:00 for the morning, 13:00 for the afternoon. */
  function StartTime(kind: SessionType): nat {
    match kind
    case Morning => 9 * MinutesPerHour
    case Afternoon => 13 * MinutesPerHour
  }

  function KindName(kind: SessionType): string {
    match kind
    case Morning => "morning"
    case Afternoon => "afternoon"
  }

  /** One half-day of a track: its talks in placement order, the minutes still
      free, and the clock time at which the next talk would start. */
  datatype Session = Session(talks: seq<ProcessedTalk>, remainingSlot: nat, lastTalkEnd: nat)

  datatype Track = Track(morning: Session, afternoon: Session)

  /** A session as a new track opens it: no talks, full capacity, the cursor
      at the session's start. */
  function FreshSession(kind: SessionType): Session {
    Session([], Capacity(kind), StartTime(kind))
  }

  function NewTrack(): Track {
    Track(FreshSession(Morning), FreshSession(Afternoon))
  }

  function SessionOf(t: Track, kind: SessionType): Session {
    match kind
    case Morning => t.morning
    case Afternoon => t.afternoon
  }

  function WithSession(t: Track, kind: SessionType, s: Session): (r: Track)
    ensures SessionOf(r, kind) == s
    ensures forall other :: other != kind ==> SessionOf(r, other) == SessionOf(t, other)
  {
    match kind
    case Morning => t.(morning := s)
    case Afternoon => t.(afternoon := s)
  }

  /** Total minutes of a sequence of placed talks (lightning talks count 5). */
  function CostSum(talks: seq<ProcessedTalk>): nat {
    if talks == [] then 0 else CostSum(talks[..|talks| - 1]) + Cost(talks[|talks| - 1].duration)
  }

  /** The session invariant: the free minutes are the capacity less what the
      talks take, the cursor is the start time plus what the talks take, and
      every talk starts where the talks before it end. */
  predicate SessionOk(s: Session, kind: SessionType) {
    && s.remainingSlot + CostSum(s.talks) == Capacity(kind)
    && s.lastTalkEnd == StartTime(kind) + CostSum(s.talks)
    && forall i {:trigger AllocatedMinutes(s, kind, i)} :: 0 <= i < |s.talks| ==>
         s.talks[i].allocatedTime == Format12(AllocatedMinutes(s, kind, i))
  }

  predicate TrackOk(t: Track) {
    SessionOk(t.morning, Morning) && SessionOk(t.afternoon, Afternoon)
  }

  /** A new track is well formed. */
  lemma NewTrackOk(t: Track)
    requires t == NewTrack()
    ensures TrackOk(t)
  {
  }

  lemma {:induction false} CostSumPrefix(talks: seq<ProcessedTalk>, i: nat, j: nat)
    requires i <= j <= |talks|
    ensures CostSum(talks[..i]) <= CostSum(talks[..j])
    ensures j == i + 1 ==> CostSum(talks[..j]) == CostSum(talks[..i]) + Cost(talks[i].duration)
    decreases j
  {
    if i < j {
      assert talks[..j][..j - 1] == talks[..j - 1];
      CostSumPrefix(talks, i, j - 1);
    }
  }

  /** Clock time, in minutes since midnight, at which talk i of a session
      starts: the session's start plus what the talks before it take. */
  function AllocatedMinutes(s: Session, kind: SessionType, i: nat): nat
    requires i <= |s.talks|
  {
    StartTime(kind) + CostSum(s.talks[..i])
  }

  /** Each talk of a well-formed session is printed at the clock time it starts. */
  lemma TalkStartsAt(s: Session, kind: SessionType, i: nat)
    requires SessionOk(s, kind) && i < |s.talks|
    ensures s.talks[i].allocatedTime == Format12(AllocatedMinutes(s, kind, i))
  {
  }

  lemma {:induction false} AllocatedMinutesIncrease(s: Session, kind: SessionType, i: nat, j: nat)
    requires SessionOk(s, kind) && i < j < |s.talks|
    ensures AllocatedMinutes(s, kind, i) <= AllocatedMinutes(s, kind, j) < MinutesPerDay
    ensures Cost(s.talks[i].duration) > 0 ==> AllocatedMinutes(s, kind, i) < AllocatedMinutes(s, kind, j)
  {
    CostSumPrefix(s.talks, i, i + 1);
    CostSumPrefix(s.talks, i + 1, j);
    CostSumPrefix(s.talks, j, |s.talks|);
    assert s.talks[..|s.talks|] == s.talks;
  }

  /** Talks of a session are printed at the clock time they start, within the
      day, and start at increasing times: a later talk never starts before an
      earlier one, and strictly after it when the earlier talk takes time. */
  lemma AllocatedTimesIncrease(s: Session, kind: SessionType, i: nat, j: nat)
    requires SessionOk(s, kind) && i < j < |s.talks|
    ensures s.talks[i].allocatedTime == Format12(AllocatedMinutes(s, kind, i))
    ensures s.talks[j].allocatedTime == Format12(AllocatedMinutes(s, kind, j))
    ensures AllocatedMinutes(s, kind, i) <= AllocatedMinutes(s, kind, j) < MinutesPerDay
    ensures Cost(s.talks[i].duration) > 0 ==> AllocatedMinutes(s, kind, i) < AllocatedMinutes(s, kind, j)
  {
    TalkStartsAt(s, kind, i);
    TalkStartsAt(s, kind, j);
    AllocatedMinutesIncrease(s, kind, i, j);
  }

  /** The session after talk p is recorded at its cursor: p becomes its last
      talk, its free minutes drop by p's cost and the cursor moves on by it. */
  function Record(s: Session, p: ProcessedTalk): Session
    requires Cost(p.duration) <= s.remainingSlot
  {
    Session(s.talks + [p], s.remainingSlot - Cost(p.duration), s.lastTalkEnd + Cost(p.duration))
  }

  /** Recording a talk printed at the cursor keeps a session well formed: the
      talk starts where the talks before it end, and the accounts balance. */
  lemma RecordKeepsSessionOk(s: Session, kind: SessionType, p: ProcessedTalk)
    requires SessionOk(s, kind)
    requires p.allocatedTime == Format12(s.lastTalkEnd) && Cost(p.duration) <= s.remainingSlot
    ensures SessionOk(Record(s, p), kind)
  {
    var after := Record(s, p);
    assert after.talks[..|s.talks|] == s.talks;
    assert CostSum(after.talks) == CostSum(s.talks) + Cost(p.duration);
    forall i | 0 <= i < |after.talks|
      ensures after.talks[i].allocatedTime == Format12(AllocatedMinutes(after, kind, i))
    {
      assert after.talks[..i] == s.talks[..i];
      if i < |s.talks| {
        TalkStartsAt(s, kind, i);
        assert AllocatedMinutes(after, kind, i) == AllocatedMinutes(s, kind, i);
      } else {
        assert s.talks[..i] == s.talks;
        assert AllocatedMinutes(after, kind, i) == s.lastTalkEnd;
      }
    }
  }

  lemma RecordKeepsTrackOk(t: Track, kind: SessionType, p: ProcessedTalk)
    requires TrackOk(t)
    requires p.allocatedTime == Format12(SessionOf(t, kind).lastTalkEnd)
    requires Cost(p.duration) <= SessionOf(t, kind).remainingSlot
    ensures TrackOk(WithSession(t, kind, Record(SessionOf(t, kind), p)))
  {
    RecordKeepsSessionOk(SessionOf(t, kind), kind, p);
  }

  // ---------------------------------------------------------------------
  // networkingStart

  const NetworkingEarliestStart: string := "16:00"

  /** The afternoon cursor printed "hh:mmA" when its "HH:mm" text sorts after
      "16:00", and otherwise the literal "16:00". */
  function NetworkingStart(t: Track): string {
    if LexLess(NetworkingEarliestStart, Format24(t.afternoon.lastTalkEnd))
    then Format12(t.afternoon.lastTalkEnd)
    else NetworkingEarliestStart
  }

  /** The networking event starts at the later of 16:00 and the end of the
      afternoon's last talk. */
  lemma NetworkingStartIsLater(t: Track)
    requires t.afternoon.lastTalkEnd < MinutesPerDay
    ensures NetworkingStart(t) ==
              if t.afternoon.lastTalkEnd > 16 * MinutesPerHour
              then Format12(t.afternoon.lastTalkEnd) else "16:00"
  {
    Format24Of1600();
    Format24Order(16 * MinutesPerHour, t.afternoon.lastTalkEnd);
  }

  // ---------------------------------------------------------------------
  // timeline

  /** An entry of a track's timeline; `empty` marks a synthetic "slot left
      to be filled" entry. */
  datatype TimelineEvent = TimelineEvent(title: string, allocatedTime: string,
                                         duration: Option<Duration>, empty: bool)

  const Lunch: TimelineEvent := TimelineEvent("Lunch", "12:00PM", None, false)
  const NetworkingEvent: TimelineEvent := TimelineEvent("Networking Event", "05:00PM", None, false)

  function TalkEvent(p: ProcessedTalk): TimelineEvent {
    TimelineEvent(p.title, p.allocatedTime, Some(p.duration), false)
  }

  function TalkEvents(talks: seq<ProcessedTalk>): (evs: seq<TimelineEvent>)
    ensures |evs| == |talks|
    ensures forall i {:trigger evs[i]} :: 0 <= i < |talks| ==> evs[i] == TalkEvent(talks[i])
  {
    if talks == [] then [] else TalkEvents(talks[..|talks| - 1]) + [TalkEvent(talks[|talks| - 1])]
  }

  /** The unfilled rest of a session, starting at its cursor. */
  function RemainingSlotToTimelineEvent(s: Session, kind: SessionType): TimelineEvent {
    TimelineEvent(KindName(kind) + " slot left to be filled", Format12(s.lastTalkEnd),
                  Some(Fixed(s.remainingSlot)), true)
  }

  function SlotLeft(s: Session, kind: SessionType): seq<TimelineEvent> {
    if s.remainingSlot != 0 then [RemainingSlotToTimelineEvent(s, kind)] else []
  }

  function Timeline(t: Track): seq<TimelineEvent> {
    TalkEvents(t.morning.talks) + SlotLeft(t.morning, Morning) + [Lunch]
    + TalkEvents(t.afternoon.talks) + SlotLeft(t.afternoon, Afternoon) + [NetworkingEvent]
  }

  /** Minutes an event stands for: none for Lunch and the networking event. */
  function EventMinutes(e: TimelineEvent): nat {
    match e.duration
    case None => 0
    case Some(d) => Cost(d)
  }

  function EventsMinutes(evs: seq<TimelineEvent>): nat {
    if evs == [] then 0 else EventsMinutes(evs[..|evs| - 1]) + EventMinutes(evs[|evs| - 1])
  }

  /** The events fill a session exactly: back to back from its start time,
      and together as long as its capacity. */
  predicate Tiles(evs: seq<TimelineEvent>, start: nat, capacity: nat) {
    && EventsMinutes(evs) == capacity
    && forall i {:trigger EventStart(evs, start, i)} :: 0 <= i < |evs| ==>
         evs[i].allocatedTime == Format12(EventStart(evs, start, i))
  }

  /** Clock time at which event i starts if the events run back to back. */
  function EventStart(evs: seq<TimelineEvent>, start: nat, i: nat): nat
    requires i <= |evs|
  {
    start + EventsMinutes(evs[..i])
  }

  lemma {:induction false} TalkEventsMinutes(talks: seq<ProcessedTalk>)
    ensures EventsMinutes(TalkEvents(talks)) == CostSum(talks)
  {
    if talks != [] {
      var evs := TalkEvents(talks);
      assert evs[..|evs| - 1] == TalkEvents(talks[..|talks| - 1]);
      TalkEventsMinutes(talks[..|talks| - 1]);
    }
  }

  lemma EventsMinutesAppend(evs: seq<TimelineEvent>, e: TimelineEvent)
    ensures EventsMinutes(evs + [e]) == EventsMinutes(evs) + EventMinutes(e)
  {
    assert (evs + [e])[..|evs|] == evs;
  }

  lemma TalkEventsPrefixMinutes(talks: seq<ProcessedTalk>, i: nat)
    requires i <= |talks|
    ensures EventsMinutes(TalkEvents(talks)[..i]) == CostSum(talks[..i])
  {
    assert TalkEvents(talks)[..i] == TalkEvents(talks[..i]);
    TalkEventsMinutes(talks[..i]);
  }

  lemma TalkEventStartsOnTime(s: Session, kind: SessionType, evs: seq<TimelineEvent>, i: nat)
    requires SessionOk(s, kind) && i < |s.talks| <= |evs| && evs[..|s.talks|] == TalkEvents(s.talks)
    ensures evs[i].allocatedTime == Format12(EventStart(evs, StartTime(kind), i))
  {
    assert evs[..i] == TalkEvents(s.talks)[..i];
    TalkEventsPrefixMinutes(s.talks, i);
    TalkStartsAt(s, kind, i);
    assert EventStart(evs, StartTime(kind), i) == AllocatedMinutes(s, kind, i);
  }

  lemma SlotLeftStartsOnTime(s: Session, kind: SessionType)
    requires SessionOk(s, kind) && s.remainingSlot != 0
    ensures var evs := TalkEvents(s.talks) + SlotLeft(s, kind);
            evs[|s.talks|].allocatedTime == Format12(EventStart(evs, StartTime(kind), |s.talks|))
  {
    var evs := TalkEvents(s.talks) + SlotLeft(s, kind);
    assert evs[..|s.talks|] == TalkEvents(s.talks);
    TalkEventsMinutes(s.talks);
    assert EventStart(evs, StartTime(kind), |s.talks|) == s.lastTalkEnd;
  }

  lemma SessionMinutes(s: Session, kind: SessionType)
    requires SessionOk(s, kind)
    ensures EventsMinutes(TalkEvents(s.talks) + SlotLeft(s, kind)) == Capacity(kind)
  {
    var talkEvs := TalkEvents(s.talks);
    TalkEventsMinutes(s.talks);
    if s.remainingSlot != 0 {
      EventsMinutesAppend(talkEvs, RemainingSlotToTimelineEvent(s, kind));
    } else {
      assert talkEvs + SlotLeft(s, kind) == talkEvs;
    }
  }

  /** A session's talks followed by its unfilled rest fill it exactly. */
  lemma SessionTiles(s: Session, kind: SessionType)
    requires SessionOk(s, kind)
    ensures Tiles(TalkEvents(s.talks) + SlotLeft(s, kind), StartTime(kind), Capacity(kind))
  {
    var evs := TalkEvents(s.talks) + SlotLeft(s, kind);
    SessionMinutes(s, kind);
    assert evs[..|s.talks|] == TalkEvents(s.talks);
    forall i | 0 <= i < |evs|
      ensures evs[i].allocatedTime == Format12(EventStart(evs, StartTime(kind), i))
    {
      if i < |s.talks| {
        TalkEventStartsOnTime(s, kind, evs, i);
      } else {
        SlotLeftStartsOnTime(s, kind);
      }
    }
  }

  lemma FourParts<T>(m: seq<T>, x: T, a: seq<T>, y: T)
    ensures var all := m + [x] + a + [y];
            && all[..|m|] == m && all[|m|] == x
            && all[|m| + 1..|all| - 1] == a && all[|all| - 1] == y
  {
  }

  /** A well-formed track's timeline is its morning (talks, then any unfilled
      rest), Lunch, its afternoon likewise, then the networking event; each
      half-day's part fills its session from start to end without gap. */
  lemma TimelineTilesSessions(t: Track)
    requires TrackOk(t)
    ensures var evs := Timeline(t);
            var lunchAt := |t.morning.talks| + |SlotLeft(t.morning, Morning)|;
            && lunchAt < |evs| - 1
            && evs[lunchAt] == Lunch && evs[|evs| - 1] == NetworkingEvent
            && Tiles(evs[..lunchAt], StartTime(Morning), Capacity(Morning))
            && Tiles(evs[lunchAt + 1..|evs| - 1], StartTime(Afternoon), Capacity(Afternoon))
  {
    var morning := TalkEvents(t.morning.talks) + SlotLeft(t.morning, Morning);
    var afternoon := TalkEvents(t.afternoon.talks) + SlotLeft(t.afternoon, Afternoon);
    assert Timeline(t) == morning + [Lunch] + afternoon + [NetworkingEvent];
    FourParts(morning, Lunch, afternoon, NetworkingEvent);
    SessionTiles(t.morning, Morning);
    SessionTiles(t.afternoon, Afternoon);
  }

  /** The entries that are not synthetic "slot left" ones. */
  function Shown(evs: seq<TimelineEvent>): seq<TimelineEvent> {
    if evs == [] then []
    else Shown(evs[..|evs| - 1]) + (if evs[|evs| - 1].empty then [] else [evs[|evs| - 1]])
  }

  lemma {:induction false} ShownAppend(a: seq<TimelineEvent>, b: seq<TimelineEvent>)
    ensures Shown(a + b) == Shown(a) + Shown(b)
    decreases |b|
  {
    if b == [] {
      assert a + b == a;
    } else {
      assert (a + b)[..|a + b| - 1] == a + b[..|b| - 1];
      ShownAppend(a, b[..|b| - 1]);
    }
  }

  lemma {:induction false} ShownTalkEvents(talks: seq<ProcessedTalk>)
    ensures Shown(TalkEvents(talks)) == TalkEvents(talks)
  {
    if talks != [] {
      var evs := TalkEvents(talks);
      assert evs[..|evs| - 1] == TalkEvents(talks[..|talks| - 1]);
      ShownTalkEvents(talks[..|talks| - 1]);
    }
  }

  lemma ShownOne(e: TimelineEvent)
    ensures Shown([e]) == if e.empty then [] else [e]
  {
    assert [e][..0] == [];
  }

  lemma ShownStep(x: seq<TimelineEvent>, y: seq<TimelineEvent>, sx: seq<TimelineEvent>, sy: seq<TimelineEvent>)
    requires Shown(x) == sx && Shown(y) == sy
    ensures Shown(x + y) == sx + sy
  {
    ShownAppend(x, y);
  }

  lemma ShownSlotLeft(s: Session, kind: SessionType)
    ensures Shown(SlotLeft(s, kind)) == []
  {
    if s.remainingSlot != 0 {
      ShownOne(RemainingSlotToTimelineEvent(s, kind));
    }
  }

  /** Leaving out the "slot left" entries leaves every talk in placement
      order, with Lunch between the half-days and the networking event last. */
  lemma ShownTimeline(t: Track)
    ensures Shown(Timeline(t)) ==
              TalkEvents(t.morning.talks) + [Lunch] + TalkEvents(t.afternoon.talks) + [NetworkingEvent]
  {
    var m, a := TalkEvents(t.morning.talks), TalkEvents(t.afternoon.talks);
    var sm, sa := SlotLeft(t.morning, Morning), SlotLeft(t.afternoon, Afternoon);
    ShownTalkEvents(t.morning.talks);
    ShownTalkEvents(t.afternoon.talks);
    ShownSlotLeft(t.morning, Morning);
    ShownSlotLeft(t.afternoon, Afternoon);
    ShownOne(Lunch);
    ShownOne(NetworkingEvent);
    ShownStep(m, sm, m, []);
    assert m + [] == m;
    ShownStep(m + sm, [Lunch], m, [Lunch]);
    ShownStep(m + sm + [Lunch], a, m + [Lunch], a);
    ShownStep(m + sm + [Lunch] + a, sa, m + [Lunch] + a, []);
    assert m + [Lunch] + a + [] == m + [Lunch] + a;
    ShownStep(m + sm + [Lunch] + a + sa, [NetworkingEvent], m + [Lunch] + a, [NetworkingEvent]);
  }

  /** An afternoon that ends by 17:00 has its networking event computed at
      05:00PM exactly when it ends at 17:00. */
  lemma NetworkingStartAtFive(t: Track)
    requires t.afternoon.lastTalkEnd <= 17 * MinutesPerHour
    ensures NetworkingStart(t) == "05:00PM" <==> t.afternoon.lastTalkEnd == 17 * MinutesPerHour
  {
    var end := t.afternoon.lastTalkEnd;
    NetworkingStartIsLater(t);
    FiveInTheAfternoon();
    if end != 17 * MinutesPerHour && end > 16 * MinutesPerHour {
      Format12Injective(end, 17 * MinutesPerHour);
    }
  }

  /** The timeline always shows the networking event at 05:00PM; that is
      the time networkingStart computes exactly when the afternoon is full. */
  lemma NetworkingShownAtStart(t: Track)
    requires TrackOk(t)
    ensures NetworkingStart(t) == NetworkingEvent.allocatedTime <==> t.afternoon.remainingSlot == 0
  {
    assert SessionOk(t.afternoon, Afternoon);
    assert t.afternoon.lastTalkEnd + t.afternoon.remainingSlot == 17 * MinutesPerHour;
    NetworkingStartAtFive(t);
  }

  // ---------------------------------------------------------------------
  // timelineLog

  /** " N min", " lightning", or nothing when the duration is absent or 0
      (JavaScript truthiness of the duration). */
  function DurationSuffix(d: Option<Duration>): string {
    match d
    case None => ""
    case Some(Lightning) => " lightning"
    case Some(Fixed(n)) => if n == 0 then "" else " " + NatToString(n) + "min"
  }

  /** The suffix names a duration that can be read back from it. */
  lemma DurationSuffixReadsBack(d: Option<Duration>)
    ensures DurationSuffix(d) == "" <==> d.None? || d == Some(Fixed(0))
    ensures d == Some(Lightning) ==> DurationSuffix(d) == " lightning"
    ensures d.Some? && d.value.Fixed? && d.value.minutes > 0 ==>
              var s := DurationSuffix(d);
              && |s| > 4 && s[0] == ' ' && s[|s| - 3..] == "min"
              && (forall i :: 1 <= i < |s| - 3 ==> IsDigit(s[i]))
              && ParseNat(s[1..|s| - 3]) == d.value.minutes
  {
    if d.Some? && d.value.Fixed? && d.value.minutes > 0 {
      var n := d.value.minutes;
      var s := DurationSuffix(d);
      assert s[1..|s| - 3] == NatToString(n);
      ParseNatToString(n);
    }
  }

  function EventLine(e: TimelineEvent): string {
    "> " + e.allocatedTime + " " + e.title + DurationSuffix(e.duration)
  }

  function EventLines(evs: seq<TimelineEvent>): (lines: seq<string>)
    ensures |lines| == |evs|
    ensures forall i {:trigger lines[i]} :: 0 <= i < |evs| ==> lines[i] == EventLine(evs[i])
  {
    if evs == [] then [] else EventLines(evs[..|evs| - 1]) + [EventLine(evs[|evs| - 1])]
  }

  function TrackHeader(index: nat): string {
    "> Track " + NatToString(index + 1) + ":"
  }

  /** The lines one track adds to the log: a ">" separator unless it is the
      first track, its header, then its shown timeline entries. */
  function TrackLines(index: nat, t: Track): seq<string> {
    (if index != 0 then [">"] else []) + [TrackHeader(index)] + EventLines(Shown(Timeline(t)))
  }

  /** The printed log of all tracks in creation order. */
  function TimelineLog(tracks: seq<Track>): seq<string> {
    if tracks == [] then []
    else TimelineLog(tracks[..|tracks| - 1]) + TrackLines(|tracks| - 1, tracks[|tracks| - 1])
  }

  function TrackTalks(t: Track): nat {
    |t.morning.talks| + |t.afternoon.talks|
  }

  /** Talks placed in all tracks together. */
  function TalkCount(tracks: seq<Track>): nat {
    if tracks == [] then 0 else TalkCount(tracks[..|tracks| - 1]) + TrackTalks(tracks[|tracks| - 1])
  }

  lemma TalkCountAppend(tracks: seq<Track>, t: Track)
    ensures TalkCount(tracks + [t]) == TalkCount(tracks) + TrackTalks(t)
  {
    assert (tracks + [t])[..|tracks|] == tracks;
  }

  /** Replacing one track changes the count by the difference of the two. */
  lemma {:induction false} TalkCountUpdate(tracks: seq<Track>, i: nat, t: Track)
    requires i < |tracks|
    ensures TalkCount(tracks[i := t]) + TrackTalks(tracks[i]) == TalkCount(tracks) + TrackTalks(t)
  {
    var n := |tracks| - 1;
    var u := tracks[i := t];
    if i < n {
      assert u[..n] == tracks[..n][i := t];
      TalkCountUpdate(tracks[..n], i, t);
    } else {
      assert u[..n] == tracks[..n];
    }
  }

  /** The placed talks of one track, morning and afternoon. */
  function TrackHeld(t: Track): multiset<ProcessedTalk> {
    multiset(t.morning.talks) + multiset(t.afternoon.talks)
  }

  /** The placed talks of all tracks together. */
  function Held(tracks: seq<Track>): multiset<ProcessedTalk> {
    if tracks == [] then multiset{} else Held(tracks[..|tracks| - 1]) + TrackHeld(tracks[|tracks| - 1])
  }

  lemma HeldAppend(tracks: seq<Track>, t: Track)
    ensures Held(tracks + [t]) == Held(tracks) + TrackHeld(t)
  {
    assert (tracks + [t])[..|tracks|] == tracks;
  }

  lemma AddAcross<T>(a: multiset<T>, b: multiset<T>, c: multiset<T>, d: multiset<T>, e: multiset<T>)
    requires a + c == d + e
    ensures a + b + c == d + b + e
  {
    forall x ensures (a + b + c)[x] == (d + b + e)[x] {
      assert (a + c)[x] == (d + e)[x];
    }
  }

  lemma CancelRight<T>(x: multiset<T>, y: multiset<T>, c: multiset<T>)
    requires x + c == y + c
    ensures x == y
  {
    forall e ensures x[e] == y[e] {
      assert (x + c)[e] == (y + c)[e];
    }
  }

  /** A session that gains one talk adds it to the track's talks. */
  lemma AppendHeld(t: Track, kind: SessionType, s: Session, p: ProcessedTalk)
    requires s.talks == SessionOf(t, kind).talks + [p]
    ensures TrackHeld(WithSession(t, kind, s)) == TrackHeld(t) + multiset{p}
  {
    var t' := WithSession(t, kind, s);
    var m, a := multiset(t.morning.talks), multiset(t.afternoon.talks);
    if kind == Morning {
      assert t'.morning.talks == t.morning.talks + [p] && t'.afternoon == t.afternoon;
      assert multiset(t'.morning.talks) == m + multiset{p};
      AddAcross(m, multiset{p}, a, m, a);
    } else {
      assert t'.afternoon.talks == t.afternoon.talks + [p] && t'.morning == t.morning;
      assert multiset(t'.afternoon.talks) == a + multiset{p};
    }
  }

  /** Replacing one track swaps its talks for the new track's. */
  lemma {:induction false} HeldUpdate(tracks: seq<Track>, i: nat, t: Track)
    requires i < |tracks|
    ensures Held(tracks[i := t]) + TrackHeld(tracks[i]) == Held(tracks) + TrackHeld(t)
  {
    var n := |tracks| - 1;
    var u := tracks[i := t];
    var last := TrackHeld(tracks[n]);
    assert Held(tracks) == Held(tracks[..n]) + last;
    if i < n {
      assert u[..n] == tracks[..n][i := t] && u[n] == tracks[n];
      assert Held(u) == Held(u[..n]) + last;
      HeldUpdate(tracks[..n], i, t);
      AddAcross(Held(u[..n]), last, TrackHeld(tracks[i]), Held(tracks[..n]), TrackHeld(t));
    } else {
      assert u[..n] == tracks[..n] && u[n] == t;
      assert Held(u) == Held(tracks[..n]) + TrackHeld(t);
    }
  }

  /** One line per talk, plus four per track (header, Lunch, networking event,
      separator) less the first track's separator. */
  lemma {:induction false} TimelineLogLength(tracks: seq<Track>)
    ensures |TimelineLog(tracks)| == (if tracks == [] then 0 else 4 * |tracks| - 1) + TalkCount(tracks)
  {
    if tracks != [] {
      ShownTimeline(tracks[|tracks| - 1]);
      TimelineLogLength(tracks[..|tracks| - 1]);
    }
  }

  /** The log of the first k tracks is a prefix of the log of all tracks. */
  lemma {:induction false} TimelineLogPrefix(tracks: seq<Track>, k: nat)
    requires k <= |tracks|
    ensures TimelineLog(tracks[..k]) <= TimelineLog(tracks)
  {
    if k < |tracks| {
      var init := tracks[..|tracks| - 1];
      assert tracks[..k] == init[..k];
      TimelineLogPrefix(init, k);
      assert TimelineLog(tracks) == TimelineLog(init) + TrackLines(|tracks| - 1, tracks[|tracks| - 1]);
    } else {
      assert tracks[..k] == tracks;
    }
  }

  lemma TrackLinesStart(index: nat, t: Track)
    ensures var lines := TrackLines(index, t);
            && (index == 0 ==> |lines| >= 1 && lines[0] == TrackHeader(0))
            && (index > 0 ==> |lines| >= 2 && lines[0] == ">" && lines[1] == TrackHeader(index))
  {
  }

  lemma {:induction false} EventLinesAppend(a: seq<TimelineEvent>, b: seq<TimelineEvent>)
    ensures EventLines(a + b) == EventLines(a) + EventLines(b)
    decreases |b|
  {
    if b != [] {
      var n := |b| - 1;
      assert (a + b)[..|a + b| - 1] == a + b[..n];
      EventLinesAppend(a, b[..n]);
    } else {
      assert a + b == a;
    }
  }

  /** A track's lines: the separator unless it is the first, its header,
      then its morning talks, Lunch, its afternoon talks and the networking
      event; the "slot left" entries print nothing. */
  lemma TrackLinesAre(index: nat, t: Track)
    ensures TrackLines(index, t) == (if index == 0 then [TrackHeader(0)] else [">", TrackHeader(index)])
              + (EventLines(TalkEvents(t.morning.talks)) + [EventLine(Lunch)]
                 + EventLines(TalkEvents(t.afternoon.talks)) + [EventLine(NetworkingEvent)])
  {
    ShownTimeline(t);
    var m, a := TalkEvents(t.morning.talks), TalkEvents(t.afternoon.talks);
    EventLinesAppend(m + [Lunch] + a, [NetworkingEvent]);
    EventLinesAppend(m + [Lunch], a);
    EventLinesAppend(m, [Lunch]);
    assert EventLines([Lunch]) == [EventLine(Lunch)];
    assert EventLines([NetworkingEvent]) == [EventLine(NetworkingEvent)];
    assert (if index != 0 then [">"] else []) + [TrackHeader(index)]
           == (if index == 0 then [TrackHeader(0)] else [">", TrackHeader(index)]);
  }

  lemma TimelineLogStep(tracks: seq<Track>, k: nat)
    requires k < |tracks|
    ensures TimelineLog(tracks[..k + 1]) == TimelineLog(tracks[..k]) + TrackLines(k, tracks[k])
  {
    assert tracks[..k + 1][..k] == tracks[..k];
  }

  /** Track k (counted from 0) is introduced by a ">" separator exactly when
      it is not the first, followed by its header "> Track k+1:". */
  lemma TimelineLogHeader(tracks: seq<Track>, k: nat)
    requires k < |tracks|
    ensures var log := TimelineLog(tracks);
            var at := |TimelineLog(tracks[..k])|;
            && (k == 0 ==> at == 0 && log[0] == TrackHeader(0))
            && (k > 0 ==> at + 1 < |log| && log[at] == ">" && log[at + 1] == TrackHeader(k))
  {
    TimelineLogPrefix(tracks, k + 1);
    TimelineLogStep(tracks, k);
    TrackLinesStart(k, tracks[k]);
    if k == 0 { assert tracks[..0] == []; }
  }
}
