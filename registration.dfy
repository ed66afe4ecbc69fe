/**
 * Registration of the five gRPC server instruments (NewMetricsReporter).
 *
 * The OpenTelemetry meter is abstracted as an oracle that, for each instrument
 * descriptor it is asked to create, either hands back an opaque handle or fails
 * with a cause. Registration asks for the five instruments in a fixed order and
 * stops at the first failure.
 */
module Registration {
  import opened Wrappers

  // Metric names reported by the MetricsReporter.
  const ServerMsgReceivedCounter: string := "grpc.server.msg.received.total"
  const ServerMsgReceivedBytes: string := "grpc.server.msg.received.bytes"
  const ServerMsgSentCounter: string := "grpc.server.msg.sent.total"
  const ServerMsgSentBytes: string := "grpc.server.msg.sent.bytes"
  const ServerLatencyMilliseconds: string := "grpc.server.latency.milliseconds"

  /** The two instrument kinds the reporter uses: int64 up/down counters and int64 value recorders. */
  datatype Kind = UpDownCounter | ValueRecorder

  /** What is asked of the meter: a name, a kind and a description. */
  datatype Descriptor = Descriptor(name: string, kind: Kind, description: string)

  const ReceivedCounterDesc: Descriptor :=
    Descriptor(ServerMsgReceivedCounter, UpDownCounter, "Total number of messages received on the server")
  const ReceivedBytesDesc: Descriptor :=
    Descriptor(ServerMsgReceivedBytes, ValueRecorder, "Number of bytes received by the server")
  const SentCounterDesc: Descriptor :=
    Descriptor(ServerMsgSentCounter, UpDownCounter, "Total number of messages sent by the server")
  const SentBytesDesc: Descriptor :=
    Descriptor(ServerMsgSentBytes, ValueRecorder, "Number of bytes sent by the server")
  const LatencyDesc: Descriptor :=
    Descriptor(ServerLatencyMilliseconds, ValueRecorder, "Latency recorded by the server to handle a gRPC request")

  /** The order in which registration asks the meter for the instruments. */
  const Descriptors: seq<Descriptor> :=
    [ReceivedCounterDesc, ReceivedBytesDesc, SentCounterDesc, SentBytesDesc, LatencyDesc]

  /** The underlying error a meter reports when it cannot create an instrument. */
  datatype Cause = Cause(message: string)

  /** A meter: creates the described instrument and returns its handle, or fails. */
  type Meter = Descriptor -> Result<nat, Cause>

  /** An instrument handle: the descriptor it was created from and the meter's handle. */
  datatype Instrument = Instrument(descriptor: Descriptor, handle: nat)

  /** The error of a failed registration: the metric that failed, wrapping the meter's cause. */
  datatype RegistrationError = RegistrationError(metric: string, cause: Cause)

  /** The five instrument handles, one per field. */
  datatype MetricsReporter = MetricsReporter(
    receivedCounter: Instrument,
    receivedBytes: Instrument,
    sentCounter: Instrument,
    sentBytes: Instrument,
    latency: Instrument)
  {
    /** The handles in field order. */
    function Instruments(): seq<Instrument> {
      [receivedCounter, receivedBytes, sentCounter, sentBytes, latency]
    }

    /** Each field holds an instrument created from its own descriptor. */
    predicate Valid() {
      && receivedCounter.descriptor == ReceivedCounterDesc
      && receivedBytes.descriptor == ReceivedBytesDesc
      && sentCounter.descriptor == SentCounterDesc
      && sentBytes.descriptor == SentBytesDesc
      && latency.descriptor == LatencyDesc
    }
  }

  /** Asks the meter for one instrument; a failure is wrapped with the metric's name. */
  function Register(meter: Meter, d: Descriptor): Result<Instrument, RegistrationError> {
    match meter(d)
    case Success(h) => Success(Instrument(d, h))
    case Failure(c) => Failure(RegistrationError(d.name, c))
  }

  /**
   * Reference definition of where registration stops: the index of the first
   * descriptor of `descs` the meter fails on, if any.
   */
  function FirstFailure(meter: Meter, descs: seq<Descriptor>): (k: Option<nat>)
    ensures k.Some? ==> k.value < |descs| && meter(descs[k.value]).Failure?
    ensures k.Some? ==> forall j :: 0 <= j < k.value ==> meter(descs[j]).Success?
    ensures k.None? <==> forall j :: 0 <= j < |descs| ==> meter(descs[j]).Success?
  {
    if descs == [] then None
    else if meter(descs[0]).Failure? then Some(0)
    else match FirstFailure(meter, descs[1..])
      case None => None
      case Some(k) => Some(k + 1)
  }

  /** Creates the five instruments in order, failing fast on the first that cannot be created. */
  function NewMetricsReporter(meter: Meter): (r: Result<MetricsReporter, RegistrationError>)
    ensures r.Success? ==> r.value.Valid()
    ensures r.Failure? ==> r.error.metric in {
      ServerMsgReceivedCounter, ServerMsgReceivedBytes, ServerMsgSentCounter,
      ServerMsgSentBytes, ServerLatencyMilliseconds }
  {
    var receivedCounter :- Register(meter, ReceivedCounterDesc);
    var receivedBytes :- Register(meter, ReceivedBytesDesc);
    var sentCounter :- Register(meter, SentCounterDesc);
    var sentBytes :- Register(meter, SentBytesDesc);
    var latency :- Register(meter, LatencyDesc);
    Success(MetricsReporter(receivedCounter, receivedBytes, sentCounter, sentBytes, latency))
  }

  /** The successive tails of the registration order, one per unrolling of FirstFailure. */
  lemma DescriptorTails()
    ensures Descriptors[0] == ReceivedCounterDesc && Descriptors[1..][0] == ReceivedBytesDesc
    ensures Descriptors[1..][1..][0] == SentCounterDesc
    ensures Descriptors[1..][1..][1..][0] == SentBytesDesc
    ensures Descriptors[1..][1..][1..][1..][0] == LatencyDesc
    ensures Descriptors[1..][1..][1..][1..][1..] == []
  {
  }

  /**
   * If the k-th instrument (in registration order) is the first the meter cannot
   * create, registration returns no reporter and an error naming that instrument
   * and wrapping the meter's cause.
   */
  lemma RegistrationFailsFast(meter: Meter)
    requires FirstFailure(meter, Descriptors).Some?
    ensures var k := FirstFailure(meter, Descriptors).value;
      NewMetricsReporter(meter) == Failure(RegistrationError(Descriptors[k].name, meter(Descriptors[k]).error))
  {
    DescriptorTails();
  }

  /**
   * If the meter creates all five instruments, registration succeeds and each
   * field of the reporter holds the handle created for its own descriptor.
   */
  lemma RegistrationSucceeds(meter: Meter)
    requires FirstFailure(meter, Descriptors).None?
    ensures NewMetricsReporter(meter).Success?
    ensures forall i :: 0 <= i < |Descriptors| ==>
      NewMetricsReporter(meter).value.Instruments()[i] == Instrument(Descriptors[i], meter(Descriptors[i]).value)
  {
    DescriptorTails();
  }

  /**
   * Instruments after the first failing one are never asked for: any two meters
   * that give the same answers up to and including that failure give the same result.
   */
  lemma RegistrationIgnoresLaterAnswers(m1: Meter, m2: Meter, k: nat)
    requires k < |Descriptors|
    requires forall j :: 0 <= j <= k ==> m1(Descriptors[j]) == m2(Descriptors[j])
    requires m1(Descriptors[k]).Failure?
    ensures NewMetricsReporter(m1) == NewMetricsReporter(m2)
    ensures NewMetricsReporter(m1).Failure?
  {
    var f1, f2 := FirstFailure(m1, Descriptors), FirstFailure(m2, Descriptors);
    assert f1.Some? && f1.value <= k;
    assert m2(Descriptors[f1.value]).Failure?;
    assert f2.Some? && f2.value <= f1.value;
    assert m1(Descriptors[f2.value]).Failure?;
    assert f1 == f2;
    RegistrationFailsFast(m1);
    RegistrationFailsFast(m2);
  }

  /** The five instrument names are pairwise distinct, so a valid reporter's handles are too. */
  lemma ValidReporterHandlesDistinct(mr: MetricsReporter)
    requires mr.Valid()
    ensures forall i, j :: 0 <= i < j < 5 ==> mr.Instruments()[i] != mr.Instruments()[j]
  {
  }
}
