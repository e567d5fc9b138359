/**
 What an endpoint poll does when no candidate is active: the viewport batch first,
 then its stream, then the hot job and its sidecar, all out of one fuel grant.
 */
module LanePoll {
  import opened Engine
  import opened Lanes
  import opened LanesTheorems

  /** One answer while the viewport stream fills a packet; `frames` is fuel spent on frames. */
  datatype StreamReply = StreamReply(frames: nat, failed: bool, emits: bool, childEnds: bool, release: ReleaseReply)

  /** Engine answers to one lane poll, in the order the source asks for them. */
  datatype LaneReply = LaneReply(
    views: seq<ViewReply>, prepareFailure: Option<bool>, streams: seq<StreamReply>,
    hots: seq<HotReply>, encoderOk: bool, sidecarOk: bool, sidecarSpent: nat)

  /** The stream's packet loop: frames cost fuel, an emitted packet ends the poll. */
  function StreamLoop(l: Lanes, fuel: nat, replies: seq<StreamReply>): LaneStep
    decreases |replies|
  {
    if replies == [] then LaneStep(l, Ok(0))
    else
      var reply := replies[0];
      if reply.failed then LaneStep(l, Err(EngineFailure))
      else if reply.frames > fuel then LaneStep(l, Err(InvalidState))
      else if reply.emits then LaneStep(StreamBegins(l), Ok(reply.frames))
      else
        var turn := StreamTurn(l, fuel - reply.frames, reply.childEnds, reply.release);
        var spent := reply.frames + turn.spent;
        if turn.failure.Some? then LaneStep(turn.lanes, Err(turn.failure.value))
        else if !turn.again || spent > fuel then LaneStep(turn.lanes, Ok(spent))
        else
          var rest := StreamLoop(turn.lanes, fuel - spent, replies[1..]);
          if rest.outcome.Err? then rest else LaneStep(rest.lanes, Ok(spent + rest.outcome.value))
  }

  /** Adds the fuel already spent to a later step of the same poll. */
  function After(spent: nat, step: LaneStep): LaneStep {
    if step.outcome.Err? then step else LaneStep(step.lanes, Ok(spent + step.outcome.value))
  }

  function PollSidecar(l: Lanes, left: nat, reply: LaneReply): LaneStep {
    if l.sidecar.None? then LaneStep(l, Ok(0))
    else if !reply.sidecarOk then LaneStep(l, Err(EngineFailure))
    else if reply.sidecarSpent > left then LaneStep(l, Err(InvalidState))
    else LaneStep(l, Ok(reply.sidecarSpent))
  }

  function PollHotLane(l: Lanes, left: nat, retained: Option<Ack>, reply: LaneReply): LaneStep {
    if l.sidecar.Some? then PollSidecar(l, left, reply)
    else
      var hot := PollHot(l, left, retained.Some?, reply.hots);
      if hot.outcome.Err? then hot
      else
        var begun := BeginSidecar(hot.lanes, retained, reply.encoderOk);
        if begun.outcome.Err? then begun
        else if hot.outcome.value > left then LaneStep(begun.lanes, Err(Overdrawn))
        else After(hot.outcome.value, PollSidecar(begun.lanes, left - hot.outcome.value, reply))
  }

  /** From a batch with no poll work left: the pending notice, the stream, or the hot lane. */
  function PollSettled(l: Lanes, left: nat, spent: nat, retained: Option<Ack>, reply: LaneReply): LaneStep {
    if l.viewport.None? && l.unavailable.Some? then LaneStep(TakeUnavailable(l), Ok(0))
    else if l.viewport.Some? && l.viewport.value.BatchReady? then
      var prepared := PrepareStream(l, retained, reply.prepareFailure);
      if prepared.outcome.Err? then prepared
      else if prepared.lanes.viewport.Some? && prepared.lanes.viewport.value.Streaming?
      then StreamLoop(prepared.lanes, left, reply.streams)
      else LaneStep(prepared.lanes, Ok(if spent == 0 then 1 else 0))
    else if l.viewport.Some? && l.viewport.value.Streaming? then StreamLoop(l, left, reply.streams)
    else PollHotLane(l, left, retained, reply)
  }

  /** The lane part of `poll`, with no candidate active. */
  function Poll(l: Lanes, fuel: nat, retained: Option<Ack>, reply: LaneReply): LaneStep {
    if !ViewHasWork(l) then PollSettled(l, fuel, 0, retained, reply)
    else
      var view := PollViewport(l, fuel, retained.Some?, reply.views);
      if view.outcome.Err? || ViewHasWork(view.lanes) || view.outcome.value == fuel then view
      else if view.outcome.value > fuel then LaneStep(view.lanes, Err(Overdrawn))
      else After(view.outcome.value, PollSettled(view.lanes, fuel - view.outcome.value, view.outcome.value, retained, reply))
  }

  // ------------------------------------------------------------------- legality

  predicate LegalStreams(l: Lanes, fuel: nat, replies: seq<StreamReply>)
    decreases |replies|
  {
    replies == [] ||
    var reply := replies[0];
    && reply.frames <= fuel
    && LegalStream(l, fuel - reply.frames, reply.release)
    && var turn := StreamTurn(l, fuel - reply.frames, reply.childEnds, reply.release);
       reply.frames + turn.spent <= fuel ==> LegalStreams(turn.lanes, fuel - reply.frames - turn.spent, replies[1..])
  }

  predicate LegalHotLane(l: Lanes, left: nat, retained: Option<Ack>, reply: LaneReply) {
    && (l.sidecar.None? ==> LegalHotLoop(l, left, retained.Some?, reply.hots))
    && var hot := PollHot(l, left, retained.Some?, reply.hots);
       reply.sidecarSpent <= (if l.sidecar.None? && hot.outcome.Ok? && hot.outcome.value <= left
                              then left - hot.outcome.value else left)
  }

  predicate LegalSettled(l: Lanes, left: nat, retained: Option<Ack>, reply: LaneReply) {
    && LegalStreams(PrepareStream(l, retained, reply.prepareFailure).lanes, left, reply.streams)
    && LegalHotLane(l, left, retained, reply)
  }

  predicate LegalPoll(l: Lanes, fuel: nat, retained: Option<Ack>, reply: LaneReply) {
    var view := PollViewport(l, fuel, retained.Some?, reply.views);
    if !ViewHasWork(l) then LegalSettled(l, fuel, retained, reply)
    else
      && LegalViewLoop(l, fuel, retained.Some?, reply.views)
      && (view.outcome.Ok? && view.outcome.value <= fuel ==>
            LegalSettled(view.lanes, fuel - view.outcome.value, retained, reply))
  }

  // --------------------------------------------------------------------- minting

  function MintedSettled(l: Lanes, left: nat, retained: Option<Ack>, reply: LaneReply, id: nat): nat {
    if l.viewport.None? && l.unavailable.None? && l.sidecar.None?
    then MintedHotLoop(l, left, retained.Some?, reply.hots, id) else 0
  }

  /** Hot and leaf jobs that one lane poll creates. */
  function MintedPoll(l: Lanes, fuel: nat, retained: Option<Ack>, reply: LaneReply, id: nat): nat {
    if !ViewHasWork(l) then MintedSettled(l, fuel, retained, reply, id)
    else
      var view := PollViewport(l, fuel, retained.Some?, reply.views);
      (if fuel == 0 then 0 else MintedViewLoop(l, fuel, retained.Some?, reply.views, id))
      + (if view.outcome.Err? || ViewHasWork(view.lanes) || view.outcome.value >= fuel then 0
         else MintedSettled(view.lanes, fuel - view.outcome.value, retained, reply, id))
  }

  // ---------------------------------------------------------------- what it keeps

  /** A lane poll keeps the invariant, freshness and every fate, and stays within its grant. */
  ghost predicate Within(l: Lanes, s: LaneStep, fuel: nat, retained: Option<Ack>, minted: nat, id: nat) {
    && GoodStep(l, s.lanes, retained, minted, id)
    && (s.outcome.Ok? ==> s.outcome.value <= fuel)
    && (s.outcome.Err? ==> s.outcome.error == EngineFailure || s.outcome.error == InvalidAuthority)
  }

  lemma {:induction false} StreamLoopWithin(l: Lanes, fuel: nat, retained: Option<Ack>, replies: seq<StreamReply>, id: nat)
    requires Inv(l) && Fresh(l, retained) && LegalStreams(l, fuel, replies)
    ensures Within(l, StreamLoop(l, fuel, replies), fuel, retained, 0, id)
    decreases |replies|
  {
    hide StreamTurn, LegalStream, Inv, Fresh, Fate, NothingNew, StreamBegins;
    if replies != [] {
      var reply := replies[0];
      var turn := StreamTurn(l, fuel - reply.frames, reply.childEnds, reply.release);
      StreamTurnGood(l, fuel - reply.frames, reply.childEnds, reply.release, id);
      StreamEdgesGood(l, retained, id);
      NothingNewStaysFresh(l, turn.lanes, retained);
      StreamLoopWithin(turn.lanes, fuel - reply.frames - turn.spent, retained, replies[1..], id);
    }
  }

  lemma HotLaneWithin(l: Lanes, left: nat, retained: Option<Ack>, reply: LaneReply, id: nat)
    requires Inv(l) && Fresh(l, retained) && LegalHotLane(l, left, retained, reply)
    ensures Within(l, PollHotLane(l, left, retained, reply), left, retained,
                   if l.sidecar.None? then MintedHotLoop(l, left, retained.Some?, reply.hots, id) else 0, id)
  {
    hide PollHot, BeginSidecar, Inv, Fresh, Fate, NothingNew, LegalHotLoop, MintedHotLoop;
    if l.sidecar.None? {
      var hot := PollHot(l, left, retained.Some?, reply.hots);
      HotPollWithinGrant(l, left, retained.Some?, reply.hots, id);
      NothingNewStaysFresh(l, hot.lanes, retained);
      BeginSidecarGood(hot.lanes, retained, reply.encoderOk, id);
    }
  }

  lemma SettledWithin(l: Lanes, left: nat, spent: nat, retained: Option<Ack>, reply: LaneReply, id: nat)
    requires Inv(l) && Fresh(l, retained) && LegalSettled(l, left, retained, reply) && left > 0 && !ViewHasWork(l)
    ensures Within(l, PollSettled(l, left, spent, retained, reply), left, retained,
                   MintedSettled(l, left, retained, reply, id), id)
  {
    hide StreamLoop, PollHotLane, LegalHotLane, LegalStreams, MintedHotLoop, Fresh, Fate;
    HotLaneWithin(l, left, retained, reply, id);
    var prepared := PrepareStream(l, retained, reply.prepareFailure);
    PrepareStreamGood(l, retained, reply.prepareFailure, id);
    StreamLoopWithin(prepared.lanes, left, retained, reply.streams, id);
    StreamEdgesGood(l, retained, id);
  }

  lemma BatchHasBase(l: Lanes, retained: Option<Ack>)
    requires Fresh(l, retained) && l.viewport.Some? && ViewBase(l.viewport.value).Some?
    ensures retained.Some?
  {
  }

  /**
   The lane poll as a whole: from every fresh state and over every legal sequence
   of engine answers it reports no more than its grant, fails only when the
   engine does, publishes nothing stale, and loses or duplicates no engine root.
   */
  lemma PollWithin(l: Lanes, fuel: nat, retained: Option<Ack>, reply: LaneReply, id: nat)
    requires Inv(l) && Fresh(l, retained) && LegalPoll(l, fuel, retained, reply) && fuel > 0
    ensures Within(l, Poll(l, fuel, retained, reply), fuel, retained, MintedPoll(l, fuel, retained, reply, id), id)
  {
    hide PollViewport, PollSettled, LegalViewLoop, LegalSettled, MintedViewLoop, MintedSettled, Inv, Fresh, Fate, NothingNew;
    if !ViewHasWork(l) {
      SettledWithin(l, fuel, 0, retained, reply, id);
    } else {
      var view := PollViewport(l, fuel, retained.Some?, reply.views);
      if ViewBase(l.viewport.value).Some? {
        BatchHasBase(l, retained);
      }
      ViewPollWithinGrant(l, fuel, retained.Some?, reply.views, id);
      NothingNewStaysFresh(l, view.lanes, retained);
      if view.outcome.Ok? && !ViewHasWork(view.lanes) && view.outcome.value < fuel {
        SettledWithin(view.lanes, fuel - view.outcome.value, view.outcome.value, retained, reply, id);
      }
    }
  }
}
