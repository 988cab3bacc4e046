/** A response body as the client consumes it: what each poll passes on, and what the recorder has
    handed over once the body was polled, failed, ended and dropped in any order. */
module ResponseStream {
  import opened Common
  import opened ByteSearch
  import opened TraceRecording

  datatype StreamEvent =
    | Arrived(bytes: seq<Byte>, elapsed: nat, growth: Growth)
    | Broke(elapsed: nat)
    | Ended(elapsed: nat)
    | Idle
    | Dropped(elapsed: nat)

  datatype Item = Bytes(bytes: seq<Byte>) | StreamError | EndOfBody | NotReady

  predicate Ending(event: StreamEvent) {
    event.Broke? || event.Ended? || event.Dropped?
  }

  datatype StreamState = StreamState(recording: Recording, handed: seq<Handoff>)

  /** The error the body itself reports when it ends by this event. */
  function ReportedError(s: Recording, event: StreamEvent, errorClass: string): Option<string> {
    if event.Broke? then Some(errorClass)
    else if event.Dropped? && !s.terminalSeen then Some(DISCONNECTED)
    else None
  }

  function Stepped(s: StreamState, event: StreamEvent, errorClass: string): StreamState {
    match event
    case Idle => s
    case Arrived(bytes, elapsed, growth) => s.(recording := Observed(s.recording, bytes, elapsed, growth))
    case _ =>
      var error := ReportedError(s.recording, event, errorClass);
      StreamState(Finished(s.recording, error), s.handed + HandedOver(s.recording, event.elapsed, error))
  }

  /** The candidate's health flag, shared by every request that pinned the same route. */
  class Health {
    var healthy: bool

    constructor ()
      ensures healthy
    {
      healthy := true;
    }
  }

  class UpstreamBody {
    const recorder: TraceRecorder?
    const candidateHealth: Health?
    const streamErrorClass: string

    constructor (recorder: TraceRecorder?, candidateHealth: Health?, streamErrorClass: string)
      ensures this.recorder == recorder && this.candidateHealth == candidateHealth
      ensures this.streamErrorClass == streamErrorClass
    {
      this.recorder, this.candidateHealth, this.streamErrorClass := recorder, candidateHealth, streamErrorClass;
    }

    ghost function Recorders(): set<object?>
      reads this, recorder
    {
      if recorder == null then {} else {recorder, recorder.records}
    }

    ghost function State(): StreamState
      requires recorder != null && recorder.records != null
      reads this, recorder, recorder.records
    {
      StreamState(recorder.Snapshot(), recorder.records.handed)
    }

    /** One poll: the chunk goes to the client unchanged whatever the recorder makes of it. */
    method PollNext(event: StreamEvent) returns (item: Item)
      requires !event.Dropped?
      modifies Recorders(), candidateHealth
      ensures event.Arrived? ==> item == Bytes(event.bytes)
      ensures event.Broke? <==> item == StreamError
      ensures event.Ended? <==> item == EndOfBody
      ensures event.Idle? <==> item == NotReady
      ensures candidateHealth != null ==>
                candidateHealth.healthy == (old(candidateHealth.healthy) && !event.Broke?)
      ensures recorder != null ==> recorder.records == old(recorder.records)
      ensures recorder != null && recorder.records != null ==>
                State() == Stepped(old(State()), event, streamErrorClass)
    {
      match event
      case Arrived(bytes, elapsed, growth) =>
        if recorder != null {
          recorder.Observe(bytes, elapsed, growth);
        }
        item := Bytes(bytes);
      case Broke(elapsed) =>
        if candidateHealth != null {
          candidateHealth.healthy := false;
        }
        if recorder != null {
          recorder.Finish(elapsed, Some(streamErrorClass));
        }
        item := StreamError;
      case Ended(elapsed) =>
        if recorder != null {
          recorder.Finish(elapsed, None);
        }
        item := EndOfBody;
      case Idle =>
        item := NotReady;
    }

    method Drop(elapsed: nat)
      modifies Recorders()
      ensures recorder != null ==> recorder.records == old(recorder.records)
      ensures recorder != null && recorder.records != null ==>
                State() == Stepped(old(State()), Dropped(elapsed), streamErrorClass)
    {
      if recorder != null {
        var error := if recorder.terminalSeen then None else Some(DISCONNECTED);
        recorder.Finish(elapsed, error);
      }
    }
  }

  // ---------------------------------------------------------------- whole histories

  function Replay(init: StreamState, history: seq<StreamEvent>, errorClass: string): StreamState {
    if history == [] then init
    else Stepped(Replay(init, history[..|history| - 1], errorClass), history[|history| - 1], errorClass)
  }

  predicate Open(history: seq<StreamEvent>) {
    forall i :: 0 <= i < |history| ==> !Ending(history[i])
  }

  function FirstEnding(history: seq<StreamEvent>): (k: nat)
    requires !Open(history)
    ensures k < |history| && Ending(history[k]) && Open(history[..k])
  {
    if Ending(history[0]) then 0
    else
      assert exists i :: 1 <= i < |history| && Ending(history[i]) && history[i] == history[1..][i - 1];
      var rest := FirstEnding(history[1..]);
      assert forall i :: 0 < i < 1 + rest ==> history[i] == history[1..][..rest][i - 1];
      1 + rest
  }

  /** Everything the upstream sent, chunk boundaries forgotten. */
  function Received(history: seq<StreamEvent>): seq<Byte> {
    if history == [] then []
    else
      var last := history[|history| - 1];
      Received(history[..|history| - 1]) + if last.Arrived? then last.bytes else []
  }

  function FirstByteTime(history: seq<StreamEvent>): Option<nat> {
    if history == [] then None
    else
      var before, last := FirstByteTime(history[..|history| - 1]), history[|history| - 1];
      if before.None? && last.Arrived? && last.bytes != [] then Some(last.elapsed) else before
  }

  predicate Carries(event: StreamEvent) {
    event.Arrived? && event.bytes != []
  }

  /** What the response buffer has grown to if every chunk was kept. */
  function ResponseAllocation(history: seq<StreamEvent>): nat {
    if history == [] then 0
    else
      var before, last := ResponseAllocation(history[..|history| - 1]), history[|history| - 1];
      if !Carries(last) then before
      else
        var slack := last.growth.responseSlack;
        Reserved(before, |Received(history)|, if slack.Some? then slack.value else 0)
  }

  /** What the tail buffer has grown to: it stops growing once a marker was received. */
  function TailAllocation(protocol: Option<seq<seq<Byte>>>, history: seq<StreamEvent>): nat {
    if history == [] || protocol.None? then 0
    else
      var before, last := TailAllocation(protocol, history[..|history| - 1]), history[|history| - 1];
      if !Carries(last) || ContainsAny(protocol.value, Received(history)) then before
      else Reserved(before, Min(|Received(history)|, TailLimit(protocol.value)), last.growth.tailSlack)
  }

  /** Whether the chunk that ends this history could still be kept with all before it. */
  predicate Fits(init: Recording, history: seq<StreamEvent>)
    requires history != [] && Carries(history[|history| - 1])
  {
    var total := |Received(history)|;
    && total <= Min(init.responseLimit, USIZE_MAX)
    && (total > ResponseAllocation(history[..|history| - 1]) ==>
          history[|history| - 1].growth.responseSlack.Some?)
    && Min(Footprint(init) + ResponseAllocation(history) + TailAllocation(init.protocol, history), USIZE_MAX)
       <= init.recordLimit
  }

  predicate GaveUp(init: Recording, history: seq<StreamEvent>) {
    history != []
    && (GaveUp(init, history[..|history| - 1])
        || (Carries(history[|history| - 1]) && !Fits(init, history)))
  }

  /** Whether the record queue refuses the capture of a body of which every chunk was kept. */
  predicate OverTraceLimit(init: Recording, history: seq<StreamEvent>) {
    && init.traceLimit.Some?
    && (var bytes := TraceBytes(CatalogMemory(init.catalog), init.headers, RequestLength(init.request),
                                ResponseAllocation(history));
        Min(bytes, USIZE_MAX) > init.traceLimit.value)
  }

  predicate SawMarker(protocol: Option<seq<seq<Byte>>>, bytes: seq<Byte>) {
    protocol.Some? && ContainsAny(protocol.value, bytes)
  }

  /** A recorder as the proxy builds it, before any byte arrived. */
  predicate Fresh(s: Recording) {
    && s.catalog.Some? && s.catalog.value.responseBytes == 0 && s.firstByte.None?
    && s.response == [] && s.responseCapacity == 0
    && !s.oversized && !s.terminalSeen && s.tail == [] && s.tailCapacity == 0
  }

  /** Why a stream that ended by this event is not a whole response, if it is not. */
  function ExpectedError(protocol: Option<seq<seq<Byte>>>, received: seq<Byte>, ending: StreamEvent,
                         errorClass: string): Option<string> {
    if ending.Broke? then Some(errorClass)
    else if SawMarker(protocol, received) then None
    else if ending.Dropped? then Some(DISCONNECTED)
    else if protocol.Some? then Some(STREAM_INCOMPLETE)
    else None
  }

  /** The record a stream deserves, told from what was received before it ended and nothing else. */
  function ExpectedRecord(init: Recording, before: seq<StreamEvent>, ending: StreamEvent, errorClass: string): Handoff
    requires Fresh(init) && init.traceLimit.Some? && Ending(ending)
  {
    var received := Received(before);
    var error := ExpectedError(init.protocol, received, ending, errorClass);
    var catalog := init.catalog.value.(
      responseBytes := Min(|received|, U64_MAX),
      ttftMs := FirstByteTime(before),
      completionMs := Some(ending.elapsed),
      errorClass := if error.Some? then error else init.catalog.value.errorClass);
    if error.Some? then Observation(catalog, Interrupted)
    else if !init.selected then Observation(catalog, NotSelected)
    else if GaveUp(init, before) || OverTraceLimit(init, before) then Observation(catalog, Oversized)
    else Capture(catalog, init.headers, if init.request.Some? then init.request.value else [], received)
  }

  // ---------------------------------------------------------------- what every prefix keeps

  predicate SameSettings(init: Recording, s: Recording) {
    && s.traceLimit == init.traceLimit && s.responseLimit == init.responseLimit
    && s.recordLimit == init.recordLimit && s.selected == init.selected && s.protocol == init.protocol
  }

  /** The detector: seen exactly if a marker was received, and otherwise the tail is the last bytes. */
  predicate TracksTerminal(init: Recording, history: seq<StreamEvent>, s: Recording) {
    && s.terminalSeen == SawMarker(init.protocol, Received(history))
    && s.tail == (if init.protocol.Some? && !s.terminalSeen
                  then Suffix(Received(history), TailLimit(init.protocol.value)) else [])
    && s.tailCapacity == TailAllocation(init.protocol, history)
  }

  predicate TracksCatalog(init: Recording, history: seq<StreamEvent>, s: Recording) {
    && s.firstByte == FirstByteTime(history)
    && init.catalog.Some?
    && s.catalog == Some(init.catalog.value.(responseBytes := Min(|Received(history)|, U64_MAX)))
  }

  predicate TracksBuffer(init: Recording, history: seq<StreamEvent>, s: Recording) {
    && s.oversized == (init.selected && GaveUp(init, history))
    && (s.oversized ==> s == MarkedOversized(s))
    && (!s.oversized ==>
          && s.request == init.request && s.headers == init.headers
          && s.response == (if init.selected then Received(history) else [])
          && s.responseCapacity == (if init.selected then ResponseAllocation(history) else 0))
  }

  predicate Tracks(init: Recording, history: seq<StreamEvent>, s: Recording) {
    && SameSettings(init, s)
    && TracksTerminal(init, history, s)
    && TracksCatalog(init, history, s)
    && TracksBuffer(init, history, s)
  }

  lemma TerminalStep(init: Recording, history: seq<StreamEvent>, s: Recording, noted: Recording)
    requires history != [] && history[|history| - 1].Arrived?
    requires SameSettings(init, s) && TracksTerminal(init, history[..|history| - 1], s)
    requires noted.protocol == s.protocol && noted.terminalSeen == s.terminalSeen
    requires noted.tail == s.tail && noted.tailCapacity == s.tailCapacity
    ensures var last := history[|history| - 1];
            TracksTerminal(init, history, TerminalObserved(noted, last.bytes, last.growth.tailSlack))
  {
    var before, last := history[..|history| - 1], history[|history| - 1];
    var total, bytes := Received(before), last.bytes;
    assert Received(history) == total + bytes;
    if init.protocol.Some? {
      var markers := init.protocol.value;
      if bytes == [] {
        assert total + bytes == total;
      } else if ContainsAny(markers, total) {
        ContainsAnyMonotone(markers, total, bytes);
      } else {
        TailSufficesForAll(markers, total, bytes);
        SuffixAppend(total, bytes, TailLimit(markers));
      }
    }
  }

  lemma BufferStep(init: Recording, history: seq<StreamEvent>, s: Recording)
    requires Fresh(init) && history != [] && history[|history| - 1].Arrived?
    requires SameSettings(init, s) && TracksBuffer(init, history[..|history| - 1], s)
    requires CatalogMemory(s.catalog) == CatalogMemory(init.catalog)
    requires s.tailCapacity == TailAllocation(init.protocol, history)
    ensures var last := history[|history| - 1];
            TracksBuffer(init, history, Buffered(s, last.bytes, last.growth.responseSlack))
  {
    var before, last := history[..|history| - 1], history[|history| - 1];
    assert Received(history) == Received(before) + last.bytes;
    if last.bytes == [] {
      assert Received(before) + last.bytes == Received(before);
    }
  }

  lemma TerminalFrame(s: Recording, bytes: seq<Byte>, slack: nat)
    ensures var r := TerminalObserved(s, bytes, slack);
            r == s.(terminalSeen := r.terminalSeen, tail := r.tail, tailCapacity := r.tailCapacity)
  {
  }

  lemma BufferFrame(s: Recording, bytes: seq<Byte>, slack: Option<nat>)
    ensures var r := Buffered(s, bytes, slack);
            r == s.(oversized := r.oversized, request := r.request, headers := r.headers,
                    response := r.response, responseCapacity := r.responseCapacity)
  {
  }

  lemma CatalogStep(init: Recording, history: seq<StreamEvent>, s: Recording)
    requires history != [] && history[|history| - 1].Arrived?
    requires TracksCatalog(init, history[..|history| - 1], s)
    ensures var last := history[|history| - 1];
            TracksCatalog(init, history, Noted(s, last.bytes, last.elapsed))
  {
  }

  lemma ArrivalStep(init: Recording, history: seq<StreamEvent>, s: Recording)
    requires Fresh(init) && history != [] && history[|history| - 1].Arrived?
    requires Tracks(init, history[..|history| - 1], s)
    ensures var last := history[|history| - 1];
            Tracks(init, history, Observed(s, last.bytes, last.elapsed, last.growth))
  {
    var last := history[|history| - 1];
    var noted := Noted(s, last.bytes, last.elapsed);
    var watched := TerminalObserved(noted, last.bytes, last.growth.tailSlack);
    var final := Buffered(watched, last.bytes, last.growth.responseSlack);
    CatalogStep(init, history, s);
    TerminalStep(init, history, s, noted);
    TerminalFrame(noted, last.bytes, last.growth.tailSlack);
    BufferStep(init, history, watched);
    BufferFrame(watched, last.bytes, last.growth.responseSlack);
    assert TracksTerminal(init, history, final) && TracksCatalog(init, history, final);
  }

  lemma IdleStep(init: Recording, history: seq<StreamEvent>, s: Recording)
    requires history != [] && history[|history| - 1].Idle?
    requires Tracks(init, history[..|history| - 1], s)
    ensures Tracks(init, history, s)
  {
    assert Received(history) == Received(history[..|history| - 1]);
  }

  /** While the stream is open, the recorder's state is a function of what was received. */
  lemma {:induction false} OpenStreamTracks(init: Recording, history: seq<StreamEvent>, errorClass: string)
    requires Fresh(init) && Open(history)
    ensures Replay(StreamState(init, []), history, errorClass).handed == []
    ensures Tracks(init, history, Replay(StreamState(init, []), history, errorClass).recording)
  {
    if history == [] {
      if init.protocol.Some? {
        EmptyHoldsNoMarker(init.protocol.value);
      }
    } else {
      var before, last := history[..|history| - 1], history[|history| - 1];
      OpenStreamTracks(init, before, errorClass);
      var s := Replay(StreamState(init, []), before, errorClass).recording;
      if last.Arrived? {
        ArrivalStep(init, history, s);
      } else {
        IdleStep(init, history, s);
      }
    }
  }

  lemma EmptyHoldsNoMarker(markers: seq<seq<Byte>>)
    ensures !ContainsAny(markers, [])
  {
  }

  /** Once the catalog is gone nothing more is ever handed over. */
  lemma {:induction false} NothingAfterTheRecord(s: StreamState, history: seq<StreamEvent>, errorClass: string)
    requires s.recording.catalog.None?
    ensures Replay(s, history, errorClass).recording.catalog.None?
    ensures Replay(s, history, errorClass).handed == s.handed
  {
    if history != [] {
      NothingAfterTheRecord(s, history[..|history| - 1], errorClass);
    }
  }

  lemma {:induction false} ReplaySplits(s: StreamState, a: seq<StreamEvent>, b: seq<StreamEvent>, errorClass: string)
    ensures Replay(s, a + b, errorClass) == Replay(Replay(s, a, errorClass), b, errorClass)
  {
    if b == [] {
      assert a + b == a;
    } else {
      ReplaySplits(s, a, b[..|b| - 1], errorClass);
      assert (a + b)[..|a + b| - 1] == a + b[..|b| - 1];
    }
  }

  lemma RecordMatches(init: Recording, before: seq<StreamEvent>, ending: StreamEvent, s: Recording,
                      errorClass: string)
    requires Fresh(init) && init.traceLimit.Some? && Ending(ending) && Tracks(init, before, s)
    ensures HandedOver(s, ending.elapsed, ReportedError(s, ending, errorClass))
            == [ExpectedRecord(init, before, ending, errorClass)]
  {
  }

  lemma FirstEndingDecides(init: Recording, before: seq<StreamEvent>, ending: StreamEvent, after: seq<StreamEvent>,
                           errorClass: string)
    requires Fresh(init) && init.traceLimit.Some? && Open(before) && Ending(ending)
    ensures Replay(StreamState(init, []), before + [ending] + after, errorClass).handed
            == [ExpectedRecord(init, before, ending, errorClass)]
  {
    OpenStreamTracks(init, before, errorClass);
    assert (before + [ending])[..|before|] == before;
    ReplaySplits(StreamState(init, []), before + [ending], after, errorClass);
    var atEnd := Replay(StreamState(init, []), before, errorClass);
    RecordMatches(init, before, ending, atEnd.recording, errorClass);
    NothingAfterTheRecord(Stepped(atEnd, ending, errorClass), after, errorClass);
  }

  /** Over every history, nothing is handed over while the stream is open, and exactly one record,
      decided at the first ending, once it has ended, however often it is polled or dropped after. */
  lemma ExactlyOneRecord(init: Recording, history: seq<StreamEvent>, errorClass: string)
    requires Fresh(init) && init.traceLimit.Some?
    ensures var handed := Replay(StreamState(init, []), history, errorClass).handed;
            if Open(history) then handed == []
            else var k := FirstEnding(history);
                 handed == [ExpectedRecord(init, history[..k], history[k], errorClass)]
  {
    if Open(history) {
      OpenStreamTracks(init, history, errorClass);
    } else {
      var k := FirstEnding(history);
      FirstEndingDecides(init, history[..k], history[k], history[k + 1..], errorClass);
      assert history[..k] + [history[k]] + history[k + 1..] == history;
    }
  }

  /** The record is a full capture exactly if the request was selected, every chunk fitted, the record queue
      takes a capture of that size, no transport error ended the stream, and it either ended cleanly as a
      plain body or showed its marker. */
  lemma FullCaptureExactly(init: Recording, history: seq<StreamEvent>, errorClass: string)
    requires Fresh(init) && init.traceLimit.Some? && !Open(history)
    ensures var k := FirstEnding(history);
            var before, ending := history[..k], history[k];
            var handed := Replay(StreamState(init, []), history, errorClass).handed;
            && |handed| == 1
            && (handed[0].Capture? <==>
                  && init.selected && !GaveUp(init, before) && !OverTraceLimit(init, before) && !ending.Broke?
                  && (SawMarker(init.protocol, Received(before)) || (ending.Ended? && init.protocol.None?)))
            && (handed[0].Capture? ==> handed[0].response == Received(before))
  {
    ExactlyOneRecord(init, history, errorClass);
  }

  lemma {:induction false} KeptBodyFits(init: Recording, history: seq<StreamEvent>)
    requires Received(history) != [] && !GaveUp(init, history)
    ensures Min(Footprint(init) + ResponseAllocation(history), USIZE_MAX) <= init.recordLimit
  {
    var before := history[..|history| - 1];
    if !Carries(history[|history| - 1]) {
      assert Received(before) == Received(history);
      KeptBodyFits(init, before);
    }
  }

  /** With one limit for the recorder and the queue, as the gateway configures them, the queue's check can
      only refuse a body that never brought a byte: every other one met the same limit on arrival. */
  lemma OnlyEmptyBodiesMeetTheQueueLimit(init: Recording, history: seq<StreamEvent>)
    requires Fresh(init) && init.traceLimit == Some(init.recordLimit) && !GaveUp(init, history)
    ensures OverTraceLimit(init, history) <==>
            Received(history) == [] && Min(Footprint(init), USIZE_MAX) > init.recordLimit
  {
    if Received(history) != [] {
      KeptBodyFits(init, history);
    } else {
      NothingAllocated(history);
    }
  }

  lemma {:induction false} NothingAllocated(history: seq<StreamEvent>)
    requires Received(history) == []
    ensures ResponseAllocation(history) == 0
  {
    if history != [] {
      NothingAllocated(history[..|history| - 1]);
    }
  }

  /** So a selected request that alone is over the limit, answered with an empty plain body, is recorded as
      oversized though no chunk was ever refused. */
  lemma EmptyAnswerToLargeRequest(init: Recording, elapsed: nat, errorClass: string)
    requires Fresh(init) && init.selected && init.protocol.None? && init.traceLimit == Some(init.recordLimit)
    requires Min(Footprint(init), USIZE_MAX) > init.recordLimit
    ensures var handed := Replay(StreamState(init, []), [Ended(elapsed)], errorClass).handed;
            |handed| == 1 && handed[0].Observation? && handed[0].state == Oversized
    ensures !GaveUp(init, [])
  {
    var history := [Ended(elapsed)];
    ExactlyOneRecord(init, history, errorClass);
    assert FirstEnding(history) == 0;
    OnlyEmptyBodiesMeetTheQueueLimit(init, []);
  }

  /** The detector's answer depends on the bytes, not on how they were cut into chunks. */
  lemma ChunkingIsInvisible(init: Recording, a: seq<StreamEvent>, b: seq<StreamEvent>, errorClass: string)
    requires Fresh(init) && Open(a) && Open(b) && Received(a) == Received(b)
    ensures var sa := Replay(StreamState(init, []), a, errorClass).recording;
            var sb := Replay(StreamState(init, []), b, errorClass).recording;
            sa.terminalSeen == sb.terminalSeen && sa.tail == sb.tail
              == (if init.protocol.Some? && !sa.terminalSeen
                  then Suffix(Received(a), TailLimit(init.protocol.value)) else [])
  {
    OpenStreamTracks(init, a, errorClass);
    OpenStreamTracks(init, b, errorClass);
  }

  // ---------------------------------------------------------------- memory

  /** What the response buffer may hold: nothing, or a response within both byte limits. */
  predicate WithinLimits(s: Recording) {
    && |s.response| <= s.responseCapacity
    && (s.oversized ==> s == MarkedOversized(s))
    && (s.responseCapacity > 0 ==>
          s.selected && |s.response| <= s.responseLimit && Min(Footprint(s), USIZE_MAX) <= s.recordLimit)
  }

  lemma BufferKeepsLimits(s: Recording, bytes: seq<Byte>, slack: Option<nat>)
    requires |s.response| <= s.responseCapacity && (s.oversized ==> s == MarkedOversized(s))
    requires bytes == [] ==> WithinLimits(s)
    requires !s.selected ==> s.responseCapacity == 0
    ensures var after := Buffered(s, bytes, slack);
            && WithinLimits(after)
            && (bytes != [] && after.selected && !after.oversized ==>
                  |after.response| <= after.responseLimit && Min(Footprint(after), USIZE_MAX) <= after.recordLimit)
  {
  }

  /** Every event keeps the limits, also after the record was handed over; and once a chunk with bytes was
      observed, a selected recorder has either given up and is empty, or is within both limits. */
  lemma LimitsKept(s: StreamState, event: StreamEvent, errorClass: string)
    requires WithinLimits(s.recording)
    ensures var after := Stepped(s, event, errorClass).recording;
            && WithinLimits(after) && SameSettings(s.recording, after)
            && (Carries(event) && after.selected ==>
                  if after.oversized then after == MarkedOversized(after)
                  else |after.response| <= after.responseLimit && Min(Footprint(after), USIZE_MAX) <= after.recordLimit)
  {
    if event.Arrived? {
      var noted := Noted(s.recording, event.bytes, event.elapsed);
      var watched := TerminalObserved(noted, event.bytes, event.growth.tailSlack);
      TerminalFrame(noted, event.bytes, event.growth.tailSlack);
      if event.bytes == [] {
        assert Footprint(watched) == Footprint(s.recording);
      }
      BufferKeepsLimits(watched, event.bytes, event.growth.responseSlack);
      BufferFrame(watched, event.bytes, event.growth.responseSlack);
    } else {
      assert Footprint(Stepped(s, event, errorClass).recording) <= Footprint(s.recording);
    }
  }
}
