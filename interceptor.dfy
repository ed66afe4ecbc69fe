/**
 * The unary server interceptor: one call wrapped with the five measurements.
 *
 * The instruments' Add/Record calls append to one measurement log (MeterLog).
 * The clock, the handler, payload sizing (proto.Size on a proto.Message),
 * error-to-status extraction and the parsing of the full method name are
 * inputs of the model.
 */
module Interceptor {
  import opened Wrappers
  import opened Registration

  /** gRPC status codes. */
  datatype Code =
    | OK | Canceled | Unknown | InvalidArgument | DeadlineExceeded | NotFound
    | AlreadyExists | PermissionDenied | ResourceExhausted | FailedPrecondition
    | Aborted | OutOfRange | Unimplemented | Internal | Unavailable | DataLoss
    | Unauthenticated

  /** An error returned by a handler: one carrying a gRPC status, or any other error. */
  datatype RpcError = StatusError(code: Code, message: string) | PlainError(message: string)

  /** status.FromError followed by Code(): the carried code, or Unknown for a plain error. */
  function StatusFromError(e: RpcError): Code {
    match e
    case StatusError(c, _) => c
    case PlainError(_) => Unknown
  }

  /** The outcome code of a call: OK when the handler returned no error. */
  function OutcomeCode(err: Option<RpcError>): (c: Code)
    ensures c == OK <==> err.None? || (err.value.StatusError? && err.value.code == OK)
    ensures c == Unknown <==> err.Some? && (err.value.PlainError? || err.value.code == Unknown)
    ensures err.Some? && err.value.StatusError? ==> c == err.value.code
  {
    if err.None? then OK else StatusFromError(err.value)
  }

  /** A key/value attribute derived from the full method name (rpc.service, rpc.method). */
  datatype Attr = Attr(key: string, value: string)

  /** A label on a measurement: a method attribute or the status-code attribute. */
  datatype Label = MethodLabel(attr: Attr) | StatusLabel(code: Code)

  /** The labels of the method attributes, in order. */
  function MethodLabels(attrs: seq<Attr>): (ls: seq<Label>)
    ensures |ls| == |attrs|
    ensures forall i :: 0 <= i < |ls| ==> ls[i] == MethodLabel(attrs[i])
  {
    seq(|attrs|, i requires 0 <= i < |attrs| => MethodLabel(attrs[i]))
  }

  /** No label of `ls` is a status label. */
  predicate NoStatusLabel(ls: seq<Label>) {
    forall i :: 0 <= i < |ls| ==> !ls[i].StatusLabel?
  }

  /** One measurement: an Add of a delta to a counter or a Record of a value. */
  datatype Event = Event(instrument: Instrument, value: int, labels: seq<Label>)

  /** The measurements the instruments have received, oldest first; only ever appended to. */
  class MeterLog {
    var events: seq<Event>

    constructor ()
      ensures events == []
    {
      events := [];
    }

    /** Int64UpDownCounter.Add. */
    method Add(instrument: Instrument, incr: int, labels: seq<Label>)
      requires instrument.descriptor.kind == UpDownCounter
      modifies this
      ensures events == old(events) + [Event(instrument, incr, labels)]
    {
      events := events + [Event(instrument, incr, labels)];
    }

    /** Int64ValueRecorder.Record. */
    method Record(instrument: Instrument, value: int, labels: seq<Label>)
      requires instrument.descriptor.kind == ValueRecorder
      modifies this
      ensures events == old(events) + [Event(instrument, value, labels)]
    {
      events := events + [Event(instrument, value, labels)];
    }
  }

  /** `[e]` when `e` is addressed to `instrument`, otherwise nothing. */
  function Only(e: Event, instrument: Instrument): seq<Event> {
    if e.instrument == instrument then [e] else []
  }

  /** The subsequence of `events` addressed to `instrument`. */
  function EventsOf(events: seq<Event>, instrument: Instrument): (r: seq<Event>)
    ensures |r| <= |events|
    ensures forall k :: 0 <= k < |r| ==> r[k].instrument == instrument
  {
    if events == [] then []
    else Only(events[0], instrument) + EventsOf(events[1..], instrument)
  }

  /** Appending to the log appends to each instrument's own history. */
  lemma {:induction false} EventsOfAppend(a: seq<Event>, b: seq<Event>, instrument: Instrument)
    ensures EventsOf(a + b, instrument) == EventsOf(a, instrument) + EventsOf(b, instrument)
  {
    if a == [] {
      assert a + b == b;
    } else {
      assert (a + b)[1..] == a[1..] + b;
      EventsOfAppend(a[1..], b, instrument);
    }
  }

  /** A one-event log holds that event in its instrument's history only. */
  lemma EventsOfSingleton(e: Event, instrument: Instrument)
    ensures EventsOf([e], instrument) == Only(e, instrument)
  {
  }

  // Go's int64 and time.Duration (nanoseconds).
  const MinInt64: int := -0x8000_0000_0000_0000
  const MaxInt64: int := 0x7fff_ffff_ffff_ffff
  type Int64 = x: int | -0x8000_0000_0000_0000 <= x <= 0x7fff_ffff_ffff_ffff

  const NanosPerMilli: int := 1_000_000

  /**
   * time.Since(start) read at `end`: the difference of two monotonic clock
   * readings, saturated at the bounds of a Duration.
   */
  function Since(start: Int64, end: Int64): (d: Int64)
    ensures MinInt64 <= end - start <= MaxInt64 ==> d == end - start
    ensures end - start > MaxInt64 ==> d == MaxInt64
    ensures end - start < MinInt64 ==> d == MinInt64
    ensures (d > 0 <==> end > start) && (d == 0 <==> end == start)
  {
    var diff := end - start;
    if diff > MaxInt64 then MaxInt64
    else if diff < MinInt64 then MinInt64
    else diff
  }

  /** Duration.Milliseconds: whole milliseconds, truncated toward zero. */
  function Milliseconds(d: Int64): (ms: Int64)
    ensures d >= 0 ==> 0 <= ms && ms * NanosPerMilli <= d < (ms + 1) * NanosPerMilli
    ensures d < 0 ==> ms <= 0 && (ms - 1) * NanosPerMilli < d <= ms * NanosPerMilli
  {
    if d >= 0 then d / NanosPerMilli else -((-(d as int)) / NanosPerMilli)
  }

  /** The latency recorded for a call that started at `start` and whose handler returned at `end`. */
  function LatencyMillis(start: Int64, end: Int64): (ms: Int64)
    ensures end >= start ==> ms >= 0
    ensures end >= start && end - start <= MaxInt64 ==> ms == (end - start) / NanosPerMilli
    ensures end - start > MaxInt64 ==> ms == MaxInt64 / NanosPerMilli
  {
    Milliseconds(Since(start, end))
  }

  /** What the interceptor emits before calling the handler. */
  function PreCallEvents(mr: MetricsReporter, labels: seq<Label>, reqSize: Option<nat>): seq<Event> {
    [Event(mr.receivedCounter, 1, labels)]
      + (if reqSize.Some? then [Event(mr.receivedBytes, reqSize.value, labels)] else [])
  }

  /** What the interceptor emits after the handler returns; every label set ends with the status. */
  function PostCallEvents(mr: MetricsReporter, labels: seq<Label>, code: Code, latencyMs: int, respSize: Option<nat>): seq<Event> {
    var full := labels + [StatusLabel(code)];
    [Event(mr.sentCounter, 1, full), Event(mr.latency, latencyMs, full)]
      + (if respSize.Some? then [Event(mr.sentBytes, respSize.value, full)] else [])
  }

  /** What the interceptor emits for one call. */
  function CallEvents(mr: MetricsReporter, labels: seq<Label>, reqSize: Option<nat>, code: Code, latencyMs: int, respSize: Option<nat>): seq<Event> {
    PreCallEvents(mr, labels, reqSize) + PostCallEvents(mr, labels, code, latencyMs, respSize)
  }

  /** Appending five pieces of a log appends to each instrument's history piece by piece. */
  lemma EventsOfFive(a: seq<Event>, b: seq<Event>, c: seq<Event>, d: seq<Event>, e: seq<Event>, i: Instrument)
    ensures EventsOf(a + b + c + d + e, i)
      == EventsOf(a, i) + EventsOf(b, i) + EventsOf(c, i) + EventsOf(d, i) + EventsOf(e, i)
  {
    EventsOfAppend(a + b + c + d, e, i);
    EventsOfAppend(a + b + c, d, i);
    EventsOfAppend(a + b, c, i);
    EventsOfAppend(a, b, i);
  }

  /** The history of an optional measurement: the measurement if present and addressed to `i`. */
  lemma EventsOfOptional(present: bool, e: Event, i: Instrument)
    ensures EventsOf(if present then [e] else [], i) == if present then Only(e, i) else []
  {
  }

  /** One instrument's share of a call's events, measurement by measurement. */
  lemma CallEventsOf(mr: MetricsReporter, labels: seq<Label>, reqSize: Option<nat>, code: Code, latencyMs: int, respSize: Option<nat>, i: Instrument)
    ensures var full := labels + [StatusLabel(code)];
      EventsOf(CallEvents(mr, labels, reqSize, code, latencyMs, respSize), i)
      == Only(Event(mr.receivedCounter, 1, labels), i)
        + (if reqSize.Some? then Only(Event(mr.receivedBytes, reqSize.value, labels), i) else [])
        + Only(Event(mr.sentCounter, 1, full), i)
        + Only(Event(mr.latency, latencyMs, full), i)
        + (if respSize.Some? then Only(Event(mr.sentBytes, respSize.value, full), i) else [])
  {
    var full := labels + [StatusLabel(code)];
    var rcE, scE, latE := Event(mr.receivedCounter, 1, labels), Event(mr.sentCounter, 1, full), Event(mr.latency, latencyMs, full);
    var rbE := Event(mr.receivedBytes, if reqSize.Some? then reqSize.value else 0, labels);
    var sbE := Event(mr.sentBytes, if respSize.Some? then respSize.value else 0, full);
    var rb := if reqSize.Some? then [rbE] else [];
    var sb := if respSize.Some? then [sbE] else [];
    assert CallEvents(mr, labels, reqSize, code, latencyMs, respSize) == [rcE] + rb + [scE] + [latE] + sb;
    EventsOfFive([rcE], rb, [scE], [latE], sb, i);
    EventsOfSingleton(rcE, i);
    EventsOfSingleton(scE, i);
    EventsOfSingleton(latE, i);
    EventsOfOptional(reqSize.Some?, rbE, i);
    EventsOfOptional(respSize.Some?, sbE, i);
  }

  /**
   * Per instrument, one call emits: one received-count add of 1 and (only for a
   * sized request) one received-bytes record of its size, both with the method
   * labels; one sent-count add of 1, one latency record and (only for a sized
   * response) one sent-bytes record of its size, all with the method labels plus
   * the status label.
   */
  lemma CallEmissions(mr: MetricsReporter, labels: seq<Label>, reqSize: Option<nat>, code: Code, latencyMs: int, respSize: Option<nat>)
    requires mr.Valid()
    ensures var evs, full := CallEvents(mr, labels, reqSize, code, latencyMs, respSize), labels + [StatusLabel(code)];
      && EventsOf(evs, mr.receivedCounter) == [Event(mr.receivedCounter, 1, labels)]
      && EventsOf(evs, mr.receivedBytes) == (if reqSize.Some? then [Event(mr.receivedBytes, reqSize.value, labels)] else [])
      && EventsOf(evs, mr.sentCounter) == [Event(mr.sentCounter, 1, full)]
      && EventsOf(evs, mr.latency) == [Event(mr.latency, latencyMs, full)]
      && EventsOf(evs, mr.sentBytes) == (if respSize.Some? then [Event(mr.sentBytes, respSize.value, full)] else [])
  {
    ValidReporterHandlesDistinct(mr);
    CallEventsOf(mr, labels, reqSize, code, latencyMs, respSize, mr.receivedCounter);
    CallEventsOf(mr, labels, reqSize, code, latencyMs, respSize, mr.receivedBytes);
    CallEventsOf(mr, labels, reqSize, code, latencyMs, respSize, mr.sentCounter);
    CallEventsOf(mr, labels, reqSize, code, latencyMs, respSize, mr.latency);
    CallEventsOf(mr, labels, reqSize, code, latencyMs, respSize, mr.sentBytes);
  }

  /** Every measurement of a call goes to one of the reporter's five instruments. */
  lemma CallEventsOnlyReporterInstruments(mr: MetricsReporter, labels: seq<Label>, reqSize: Option<nat>, code: Code, latencyMs: int, respSize: Option<nat>)
    ensures var evs := CallEvents(mr, labels, reqSize, code, latencyMs, respSize);
      forall k :: 0 <= k < |evs| ==> evs[k].instrument in mr.Instruments()
  {
  }

  /** Received-side measurements carry exactly the method labels and no status label. */
  lemma ReceivedSideLabels(mr: MetricsReporter, attrs: seq<Attr>, reqSize: Option<nat>)
    ensures forall e :: e in PreCallEvents(mr, MethodLabels(attrs), reqSize) ==>
      e.labels == MethodLabels(attrs) && NoStatusLabel(e.labels)
  {
  }

  /**
   * Sent-side measurements carry the method labels followed by exactly one
   * status label, the call's outcome code.
   */
  lemma SentSideLabels(mr: MetricsReporter, attrs: seq<Attr>, code: Code, latencyMs: int, respSize: Option<nat>)
    ensures forall e :: e in PostCallEvents(mr, MethodLabels(attrs), code, latencyMs, respSize) ==>
      && |e.labels| == |attrs| + 1
      && e.labels[..|attrs|] == MethodLabels(attrs)
      && NoStatusLabel(e.labels[..|attrs|])
      && e.labels[|attrs|] == StatusLabel(code)
  {
  }

  /** A handler's reply: the response value and the error (None for nil). */
  datatype Reply<V> = Reply(resp: V, err: Option<RpcError>)

  /**
   * One invocation of the interceptor returned by UnaryServerInterceptor: it
   * measures the request, calls the handler, measures the reply and returns
   * the handler's response and error untouched.
   */
  method UnaryServerInterceptor<V>(
    log: MeterLog, mr: MetricsReporter,
    parseFullMethod: string -> seq<Attr>, trySize: V -> Option<nat>,
    fullMethod: string, req: V, handler: V -> Reply<V>, start: Int64, end: Int64)
    returns (resp: V, err: Option<RpcError>)
    requires mr.Valid()
    modifies log
    ensures resp == handler(req).resp && err == handler(req).err
    ensures var labels := MethodLabels(parseFullMethod(fullMethod));
      log.events == old(log.events)
        + PreCallEvents(mr, labels, trySize(req))
        + PostCallEvents(mr, labels, OutcomeCode(err), LatencyMillis(start, end), trySize(resp))
    ensures var labels := MethodLabels(parseFullMethod(fullMethod));
      var full := labels + [StatusLabel(OutcomeCode(err))];
      && EventsOf(log.events, mr.receivedCounter) == EventsOf(old(log.events), mr.receivedCounter) + [Event(mr.receivedCounter, 1, labels)]
      && EventsOf(log.events, mr.sentCounter) == EventsOf(old(log.events), mr.sentCounter) + [Event(mr.sentCounter, 1, full)]
      && EventsOf(log.events, mr.latency) == EventsOf(old(log.events), mr.latency) + [Event(mr.latency, LatencyMillis(start, end), full)]
      && EventsOf(log.events, mr.receivedBytes) == EventsOf(old(log.events), mr.receivedBytes)
        + (if trySize(req).Some? then [Event(mr.receivedBytes, trySize(req).value, labels)] else [])
      && EventsOf(log.events, mr.sentBytes) == EventsOf(old(log.events), mr.sentBytes)
        + (if trySize(resp).Some? then [Event(mr.sentBytes, trySize(resp).value, full)] else [])
  {
    var attributes := MethodLabels(parseFullMethod(fullMethod));
    ghost var labels := attributes;
    log.Add(mr.receivedCounter, 1, attributes);
    var reqSize := trySize(req);
    if reqSize.Some? {
      log.Record(mr.receivedBytes, reqSize.value, attributes);
    }
    ghost var atHandler := log.events;
    assert atHandler == old(log.events) + PreCallEvents(mr, labels, reqSize);

    var code := OK;
    var reply := handler(req);
    resp, err := reply.resp, reply.err;
    var latency := Since(start, end);
    if err.Some? {
      code := StatusFromError(err.value);
    }
    assert code == OutcomeCode(err);

    attributes := attributes + [StatusLabel(code)];
    log.Add(mr.sentCounter, 1, attributes);
    log.Record(mr.latency, Milliseconds(latency), attributes);
    var respSize := trySize(resp);
    if respSize.Some? {
      log.Record(mr.sentBytes, respSize.value, attributes);
    }
    assert log.events == atHandler + PostCallEvents(mr, labels, code, Milliseconds(latency), respSize);

    ghost var call := CallEvents(mr, labels, reqSize, code, Milliseconds(latency), respSize);
    assert log.events == old(log.events) + call;
    CallEmissions(mr, labels, reqSize, code, Milliseconds(latency), respSize);
    EventsOfAppend(old(log.events), call, mr.receivedCounter);
    EventsOfAppend(old(log.events), call, mr.sentCounter);
    EventsOfAppend(old(log.events), call, mr.latency);
    EventsOfAppend(old(log.events), call, mr.receivedBytes);
    EventsOfAppend(old(log.events), call, mr.sentBytes);
  }
}
