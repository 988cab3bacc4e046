/** The recorder that watches a response body go past: it looks for the end-of-stream marker with a
    bounded tail, buffers the response under two byte limits, and hands over one record. */
module TraceRecording {
  import opened Common
  import opened ByteSearch

  /** The byte strings whose appearance ends a well-formed event stream. */
  function Markers(endpoint: RouteEndpoint): seq<seq<Byte>> {
    match endpoint
    case ChatCompletions => [Ascii("data: [DONE]")]
    case ResponsesApi =>
      [Ascii("event: response.completed"), Ascii("event: response.failed"), Ascii("event: response.incomplete")]
  }

  /** An owned string: what counts against memory is its allocation, not its length. */
  datatype OwnedText = OwnedText(contents: Text, capacity: nat)

  datatype ContentHeaders = ContentHeaders(
    requestType: Option<OwnedText>,
    requestEncoding: Option<OwnedText>,
    responseType: Option<OwnedText>,
    responseEncoding: Option<OwnedText>)

  const NO_HEADERS := ContentHeaders(None, None, None, None)

  datatype Catalog = Catalog(
    memoryBytes: nat,
    responseBytes: nat,
    errorClass: Option<string>,
    ttftMs: Option<nat>,
    completionMs: Option<nat>)

  datatype CaptureState = Interrupted | Oversized | NotSelected

  datatype Handoff =
    | Observation(catalog: Catalog, state: CaptureState)
    | Capture(catalog: Catalog, headers: ContentHeaders, request: seq<Byte>, response: seq<Byte>)

  /** What the allocator answers if a buffer has to grow: a refusal (only the response buffer asks
      in a way that can be refused), or some slack beyond what was asked for. */
  datatype Growth = Growth(responseSlack: Option<nat>, tailSlack: nat)

  function Reserved(capacity: nat, needed: nat, slack: nat): (r: nat)
    ensures r >= needed && r >= capacity
  {
    if needed <= capacity then capacity else needed + slack
  }

  /** The recorder's fields, as one value. `traceLimit` is the record queue's own limit, absent when there is
      no queue. `protocol` holds the markers of the stream's protocol and
      is absent when the response is not an event stream; any set of markers will do. */
  datatype Recording = Recording(
    traceLimit: Option<nat>,
    catalog: Option<Catalog>,
    firstByte: Option<nat>,
    request: Option<seq<Byte>>,
    headers: ContentHeaders,
    response: seq<Byte>,
    responseCapacity: nat,
    responseLimit: nat,
    recordLimit: nat,
    selected: bool,
    oversized: bool,
    protocol: Option<seq<seq<Byte>>>,
    terminalSeen: bool,
    tail: seq<Byte>,
    tailCapacity: nat)

  function TextCapacity(text: Option<OwnedText>): nat {
    if text.Some? then text.value.capacity else 0
  }

  function CatalogMemory(catalog: Option<Catalog>): nat {
    if catalog.Some? then catalog.value.memoryBytes else 0
  }

  function RequestLength(request: Option<seq<Byte>>): nat {
    if request.Some? then |request.value| else 0
  }

  function HeadersMemory(headers: ContentHeaders): nat {
    TextCapacity(headers.requestType) + TextCapacity(headers.requestEncoding)
    + TextCapacity(headers.responseType) + TextCapacity(headers.responseEncoding)
  }

  /** The memory a recording holds, without saturation. */
  function Footprint(s: Recording): nat {
    CatalogMemory(s.catalog) + RequestLength(s.request) + s.responseCapacity + s.tailCapacity + HeadersMemory(s.headers)
  }

  /** What a capture counts for with the record queue, which does not know the tail buffer. */
  function TraceBytes(catalogMemory: nat, headers: ContentHeaders, requestLength: nat, responseCapacity: nat): nat {
    catalogMemory + requestLength + responseCapacity + HeadersMemory(headers)
  }

  /** The record queue takes a capture, or an observation in its place if the capture is over its limit. */
  function Queued(limit: nat, catalog: Catalog, headers: ContentHeaders, request: seq<Byte>, response: seq<Byte>,
                  responseCapacity: nat): Handoff
  {
    if Min(TraceBytes(catalog.memoryBytes, headers, |request|, responseCapacity), USIZE_MAX) > limit
    then Observation(catalog, Oversized)
    else Capture(catalog, headers, request, response)
  }

  function MarkedOversized(s: Recording): Recording {
    s.(oversized := true, request := None, headers := NO_HEADERS, response := [], responseCapacity := 0)
  }

  /** Terminal detection in its simple form: search the whole of what is remembered plus the chunk. */
  function TerminalObserved(s: Recording, bytes: seq<Byte>, tailSlack: nat): Recording {
    if s.protocol.None? || s.terminalSeen || bytes == [] then s
    else
      var markers := s.protocol.value;
      var window := s.tail + bytes;
      if ContainsAny(markers, window) then s.(terminalSeen := true, tail := [])
      else
        var tail := Suffix(window, TailLimit(markers));
        s.(tail := tail, tailCapacity := Reserved(s.tailCapacity, |tail|, tailSlack))
  }

  function Buffered(s: Recording, bytes: seq<Byte>, slack: Option<nat>): Recording {
    var needed := |s.response| + |bytes|;
    if bytes == [] || !s.selected || s.oversized then s
    else if needed > Min(s.responseLimit, USIZE_MAX) || (needed > s.responseCapacity && slack.None?) then
      MarkedOversized(s)
    else
      var extra := if slack.Some? then slack.value else 0;
      var grown := s.(responseCapacity := Reserved(s.responseCapacity, needed, extra));
      if Min(Footprint(grown), USIZE_MAX) > s.recordLimit then MarkedOversized(s)
      else grown.(response := s.response + bytes)
  }

  function Counted(catalog: Option<Catalog>, bytes: nat): Option<Catalog> {
    if catalog.None? then None
    else Some(catalog.value.(responseBytes := Min(catalog.value.responseBytes + bytes, U64_MAX)))
  }

  function Noted(s: Recording, bytes: seq<Byte>, elapsed: nat): Recording {
    s.(firstByte := if bytes != [] && s.firstByte.None? then Some(elapsed) else s.firstByte,
       catalog := Counted(s.catalog, |bytes|))
  }

  function Observed(s: Recording, bytes: seq<Byte>, elapsed: nat, growth: Growth): Recording {
    var noted := Noted(s, bytes, elapsed);
    Buffered(TerminalObserved(noted, bytes, growth.tailSlack), bytes, growth.responseSlack)
  }

  const STREAM_INCOMPLETE := "upstream_stream_incomplete"
  const DISCONNECTED := "downstream_disconnected"

  /** The error a record carries: the one that ended it, or an event stream cut before its marker. */
  function FinalError(s: Recording, error: Option<string>): Option<string> {
    if error.Some? then error
    else if s.protocol.Some? && !s.terminalSeen then Some(STREAM_INCOMPLETE)
    else None
  }

  function FinalCatalog(s: Recording, catalog: Catalog, elapsed: nat, error: Option<string>): Catalog {
    var timed := catalog.(ttftMs := s.firstByte, completionMs := Some(elapsed));
    if error.Some? then timed.(errorClass := error) else timed
  }

  function Record(s: Recording, limit: nat, catalog: Catalog, elapsed: nat, error: Option<string>): Handoff {
    var final := FinalCatalog(s, catalog, elapsed, FinalError(s, error));
    if FinalError(s, error).Some? then Observation(final, Interrupted)
    else if s.oversized then Observation(final, Oversized)
    else if s.selected then
      Queued(limit, final, s.headers, if s.request.Some? then s.request.value else [], s.response, s.responseCapacity)
    else Observation(final, NotSelected)
  }

  /** What one call of finish hands over. */
  function HandedOver(s: Recording, elapsed: nat, error: Option<string>): seq<Handoff> {
    if s.catalog.None? || s.traceLimit.None? then []
    else [Record(s, s.traceLimit.value, s.catalog.value, elapsed, error)]
  }

  function Finished(s: Recording, error: Option<string>): Recording {
    if s.catalog.None? then s
    else if s.traceLimit.None? || FinalError(s, error).Some? || s.oversized || !s.selected then s.(catalog := None)
    else s.(catalog := None, request := None, headers := NO_HEADERS, response := [], responseCapacity := 0)
  }

  /** The record queue, seen only as the list of what it was handed. */
  class Records {
    const maxTraceBytes: nat
    var handed: seq<Handoff>

    constructor (maxTraceBytes: nat)
      ensures this.maxTraceBytes == maxTraceBytes && handed == []
    {
      this.maxTraceBytes, handed := maxTraceBytes, [];
    }

    method TryObserve(catalog: Catalog, state: CaptureState)
      modifies this
      ensures handed == old(handed) + [Observation(catalog, state)]
    {
      handed := handed + [Observation(catalog, state)];
    }

    /** Take a capture; one that is over the limit leaves only its catalog behind. */
    method TryCapture(catalog: Catalog, headers: ContentHeaders, request: seq<Byte>, response: seq<Byte>,
                      responseCapacity: nat)
      modifies this
      ensures handed == old(handed)
                        + [Queued(maxTraceBytes, catalog, headers, request, response, responseCapacity)]
    {
      var bytes := SaturatingAdd(SaturatingAdd(catalog.memoryBytes, |request|), responseCapacity);
      bytes := SaturatingAdd(bytes, TextCapacity(headers.requestType));
      bytes := SaturatingAdd(bytes, TextCapacity(headers.requestEncoding));
      bytes := SaturatingAdd(bytes, TextCapacity(headers.responseType));
      bytes := SaturatingAdd(bytes, TextCapacity(headers.responseEncoding));
      if bytes > maxTraceBytes {
        TryObserve(catalog, Oversized);
        return;
      }
      handed := handed + [Capture(catalog, headers, request, response)];
    }
  }

  function TraceLimit(records: Records?): Option<nat> {
    if records == null then None else Some(records.maxTraceBytes)
  }

  class TraceRecorder {
    var records: Records?
    var catalog: Option<Catalog>
    var firstByte: Option<nat>
    var request: Option<seq<Byte>>
    var headers: ContentHeaders
    var response: seq<Byte>
    var responseCapacity: nat
    const responseLimit: nat
    const recordLimit: nat
    const selected: bool
    var oversized: bool
    const protocol: Option<seq<seq<Byte>>>
    var terminalSeen: bool
    var tail: seq<Byte>
    var tailCapacity: nat

    ghost function Snapshot(): Recording
      reads this
    {
      Recording(TraceLimit(records), catalog, firstByte, request, headers, response, responseCapacity, responseLimit,
                recordLimit, selected, oversized, protocol, terminalSeen, tail, tailCapacity)
    }

    constructor (records: Records?, catalog: Catalog, request: Option<seq<Byte>>, headers: ContentHeaders,
                 responseLimit: nat, recordLimit: nat, selected: bool, protocol: Option<seq<seq<Byte>>>)
      ensures this.records == records
      ensures Snapshot() == Recording(TraceLimit(records), Some(catalog), None, request, headers, [], 0, responseLimit,
                                      recordLimit, selected, false, protocol, false, [], 0)
    {
      this.records, this.catalog, this.firstByte := records, Some(catalog), None;
      this.request, this.headers, this.response, this.responseCapacity := request, headers, [], 0;
      this.responseLimit, this.recordLimit, this.selected := responseLimit, recordLimit, selected;
      this.oversized, this.protocol, this.terminalSeen := false, protocol, false;
      this.tail, this.tailCapacity := [], 0;
    }

    method Observe(bytes: seq<Byte>, elapsed: nat, growth: Growth)
      modifies this
      ensures Snapshot() == Observed(old(Snapshot()), bytes, elapsed, growth)
      ensures records == old(records)
    {
      if bytes != [] && firstByte.None? {
        firstByte := Some(elapsed);
      }
      if catalog.Some? {
        var counted := Min(catalog.value.responseBytes + |bytes|, U64_MAX);
        catalog := Some(catalog.value.(responseBytes := counted));
      }
      assert Snapshot() == Noted(old(Snapshot()), bytes, elapsed);
      ObserveStreamTerminal(bytes, growth.tailSlack);
      Buffer(bytes, growth.responseSlack);
    }

    /** The second half of observe: keep the chunk, or give up on keeping anything. */
    method Buffer(bytes: seq<Byte>, slack: Option<nat>)
      modifies this`oversized, this`request, this`headers, this`response, this`responseCapacity
      ensures Snapshot() == Buffered(old(Snapshot()), bytes, slack)
    {
      if bytes == [] || !selected || oversized {
        return;
      }
      var responseBytes := CheckedAdd(|response|, |bytes|);
      if responseBytes.None? {
        MarkOversized();
        return;
      }
      if responseBytes.value > responseLimit {
        MarkOversized();
        return;
      }
      if |bytes| > responseCapacity - |response| {
        if slack.None? {
          MarkOversized();
          return;
        }
        responseCapacity := responseBytes.value + slack.value;
      }
      if CaptureMemoryBytes() > recordLimit {
        MarkOversized();
        return;
      }
      response := response + bytes;
    }

    /** The code searches the chunk alone, then at most a marker's length across the boundary; it is
        proved to decide the same thing as searching everything remembered plus the chunk. */
    method ObserveStreamTerminal(bytes: seq<Byte>, tailSlack: nat)
      modifies this`terminalSeen, this`tail, this`tailCapacity
      ensures Snapshot() == TerminalObserved(old(Snapshot()), bytes, tailSlack)
    {
      if protocol.None? {
        return;
      }
      if terminalSeen || bytes == [] {
        return;
      }
      var markers := protocol.value;
      var tailLimit := TailLimit(markers);
      BoundarySearchSufficesForAll(markers, tail, bytes);
      if ContainsAny(markers, bytes) {
        terminalSeen, tail := true, [];
        return;
      }
      if tail != [] {
        var prefixLength := Min(|bytes|, tailLimit);
        var boundary := tail + bytes[..prefixLength];
        if ContainsAny(markers, boundary) {
          terminalSeen, tail := true, [];
          return;
        }
      } else {
        assert tail + bytes == bytes;
      }
      TailRefresh(tail, bytes, tailLimit);
      if |bytes| >= tailLimit {
        tail := bytes[|bytes| - tailLimit..];
      } else {
        var oldStart := Max(|tail| - (tailLimit - |bytes|), 0);
        tail := tail[oldStart..] + bytes;
      }
      tailCapacity := Reserved(tailCapacity, |tail|, tailSlack);
    }

    function CaptureMemoryBytes(): (bytes: nat)
      reads this
      ensures bytes == Min(Footprint(Snapshot()), USIZE_MAX)
    {
      var base := SaturatingAdd(CatalogMemory(catalog), RequestLength(request));
      var buffers := SaturatingAdd(SaturatingAdd(base, responseCapacity), tailCapacity);
      var requested :=
        SaturatingAdd(SaturatingAdd(buffers, TextCapacity(headers.requestType)), TextCapacity(headers.requestEncoding));
      var answered := SaturatingAdd(requested, TextCapacity(headers.responseType));
      SaturatingAdd(answered, TextCapacity(headers.responseEncoding))
    }

    method MarkOversized()
      modifies this`oversized, this`request, this`headers, this`response, this`responseCapacity
      ensures Snapshot() == MarkedOversized(old(Snapshot()))
    {
      oversized := true;
      request, headers := None, NO_HEADERS;
      response, responseCapacity := [], 0;
    }

    method Finish(elapsed: nat, error: Option<string>)
      modifies this, records
      ensures Snapshot() == Finished(old(Snapshot()), error)
      ensures records == old(records)
      ensures records != null ==>
                records.handed == old(records.handed) + HandedOver(old(Snapshot()), elapsed, error)
    {
      if catalog.None? {
        return;
      }
      var taken := catalog.value;
      catalog := None;
      taken := taken.(ttftMs := firstByte, completionMs := Some(elapsed));
      var errorClass := error;
      if errorClass.None? && protocol.Some? && !terminalSeen {
        errorClass := Some(STREAM_INCOMPLETE);
      }
      if errorClass.Some? {
        taken := taken.(errorClass := errorClass);
      }
      if records == null {
        return;
      }
      if errorClass.Some? {
        records.TryObserve(taken, Interrupted);
      } else if oversized {
        records.TryObserve(taken, Oversized);
      } else if selected {
        var captured := if request.Some? then request.value else [];
        records.TryCapture(taken, headers, captured, response, responseCapacity);
        request, headers, response, responseCapacity := None, NO_HEADERS, [], 0;
      } else {
        records.TryObserve(taken, NotSelected);
      }
    }
  }
}
