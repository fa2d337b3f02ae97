/** TrackManager: the object the application holds. It keeps the tracks and
    the open-session list as fields and updates them in place, one talk at a
    time, exactly as the best-fit step of the Scheduler module describes. */
module Manager {
  import opened Wrappers
  import opened Clock
  import opened Tracks
  import opened Scheduler

  /** Array.find with the predicate "has room for the minutes": the index of
      the first session that fits, if any. */
  method FindFitting(tracks: seq<Track>, open: seq<SessionRef>, minutes: nat) returns (found: Option<nat>)
    ensures found == FirstFit(tracks, open, minutes)
  {
    var i := 0;
    while i < |open|
      invariant 0 <= i <= |open|
      invariant forall j :: 0 <= j < i ==> !Fits(tracks, open[j], minutes)
    {
      if Fits(tracks, open[i], minutes) {
        return Some(i);
      }
      i := i + 1;
    }
    return None;
  }

  /** Array.indexOf: the position of the first occurrence, or -1. */
  method FindPosition(open: seq<SessionRef>, r: SessionRef) returns (k: int)
    ensures k == IndexOf(open, r)
  {
    k := 0;
    while k < |open|
      invariant 0 <= k <= |open|
      invariant r !in open[..k]
    {
      if open[k] == r {
        return;
      }
      assert open[..k + 1] == open[..k] + [open[k]];
      k := k + 1;
    }
    assert open[..k] == open;
    k := -1;
  }

  class TrackManager {
    var tracks: seq<Track>
    /** The sessions that still have free minutes, as references into tracks. */
    var availableSessions: seq<SessionRef>

    ghost predicate Valid()
      reads this
    {
      Consistent(State(tracks, availableSessions))
    }

    constructor ()
      ensures Valid()
      ensures tracks == [] && availableSessions == []
    {
      tracks := [];
      availableSessions := [];
    }

    /** addTalk: returns the placed talk, or the error the call throws; the
        fields end as the best-fit step says, and stay consistent. */
    method AddTalk(talk: Talk) returns (result: Result<ProcessedTalk, AddError>)
      requires Valid()
      modifies this
      ensures Valid()
      ensures Outcome(State(tracks, availableSessions), result)
              == AddTalkSpec(old(State(tracks, availableSessions)), talk)
    {
      ghost var before := State(tracks, availableSessions);
      AddTalkKeepsConsistent(before, talk);
      var talkMinutes := Cost(talk.duration);
      availableSessions := SortByRemaining(tracks, availableSessions);
      ghost var sorted := State(tracks, availableSessions);
      var found := FindFitting(tracks, availableSessions, talkMinutes);
      if found.Some? {
        var processedTalk := PlaceTalk(availableSessions[found.value], talk);
        return Success(processedTalk);
      }
      var index := |tracks|;
      tracks := tracks + [NewTrack()];
      var newSessions := NewRefs(index);
      availableSessions := availableSessions + newSessions;
      assert State(tracks, availableSessions) == Grow(sorted);
      var inNew := FindFitting(tracks, newSessions, talkMinutes);
      assert tracks[index] == NewTrack();
      if inNew.None? {
        assert !Fits(tracks, newSessions[0], talkMinutes) && !Fits(tracks, newSessions[1], talkMinutes);
        return Failure(TalkTooLong);
      }
      assert inNew.value == 0 <==> Fits(tracks, SessionRef(index, Morning), talkMinutes);
      var processedTalk := PlaceTalk(newSessions[inNew.value], talk);
      return Success(processedTalk);
    }

    /** The second half of addTalk: records the talk in the chosen session
        and splices the session out of the open list once it is full. */
    method PlaceTalk(fitting: SessionRef, talk: Talk) returns (processedTalk: ProcessedTalk)
      requires Fits(tracks, fitting, Cost(talk.duration))
      modifies this
      ensures Outcome(State(tracks, availableSessions), Success(processedTalk))
              == Place(old(State(tracks, availableSessions)), fitting, talk)
    {
      var talkMinutes := Cost(talk.duration);
      var before := SessionOf(tracks[fitting.track], fitting.kind);
      processedTalk := ProcessedTalk(talk.title, talk.duration, Format12(before.lastTalkEnd));
      var session := Session(before.talks + [processedTalk], before.remainingSlot - talkMinutes,
                             before.lastTalkEnd + talkMinutes);
      assert session == Record(before, processedTalk);
      tracks := tracks[fitting.track := WithSession(tracks[fitting.track], fitting.kind, session)];
      if session.remainingSlot == 0 {
        var k := FindPosition(availableSessions, fitting);
        availableSessions := SpliceOne(availableSessions, k);
      }
    }

    /** timelineLog: one block of lines per track. It only reads the fields. */
    function TimelineLog(): (lines: seq<string>)
      reads this
      ensures |lines| == (if tracks == [] then 0 else 4 * |tracks| - 1) + TalkCount(tracks)
    {
      TimelineLogLength(tracks);
      Tracks.TimelineLog(tracks)
    }
  }
}
