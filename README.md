# otelgrpc server metrics, modelled in Dafny

This project models the metrics core of the OpenTelemetry gRPC instrumentation
(`instrumentation/google.golang.org/grpc/otelgrpc/grpcmetric.go`):

- **Registration** (`registration.dfy`, module `Registration`): `NewMetricsReporter`
  asks a meter for five instruments in a fixed order. These are the up/down counters
  `grpc.server.msg.received.total` and `grpc.server.msg.sent.total`, and the value
  recorders `grpc.server.msg.received.bytes`, `grpc.server.msg.sent.bytes` and
  `grpc.server.latency.milliseconds`. It stops at the first instrument the meter cannot
  create. The meter is an oracle `Descriptor -> Result<nat, Cause>`: it returns an
  opaque handle or a cause. The result is `Result<MetricsReporter, RegistrationError>`.
  A `RegistrationError` carries the failing metric's name and wraps the meter's cause.
  `FirstFailure` is an independent reference definition of where registration stops.
- **Interception** (`interceptor.dfy`, module `Interceptor`): one call of the interceptor
  that `UnaryServerInterceptor` returns. The instruments' `Add`/`Record` calls append
  `Event(instrument, value, labels)` to a `MeterLog` object, an append-only log.
  Everything else the call depends on is a parameter:
  - the handler is a function `V -> Reply<V>`;
  - payload sizing is `trySize: V -> Option<nat>`;
  - the method-attribute parser is `parseFullMethod: string -> seq<Attr>`;
  - the two monotonic clock readings are `start` and `end`, in int64 nanoseconds.

  The events of one call are `PreCallEvents` (emitted before the handler runs) followed
  by `PostCallEvents`. `PreCallEvents` takes nothing the handler produces.
- `wrappers.dfy` holds the `Option` and `Result` types.

Integer behaviour follows Go. `time.Since` saturates at the int64 bounds of a `Duration`,
as Go's `Time.Sub` does for monotonic readings. `Duration.Milliseconds` truncates toward
zero; `Milliseconds` models this explicitly, because Dafny's `/` is Euclidean.

Latency is never negative when the end reading is not before the start reading
(`LatencyMillis`); a duration beyond the int64 range is recorded as `MaxInt64 / 1_000_000`.

Two calls with the same inputs produce two identical, independent sets of measurements.
This follows from `UnaryServerInterceptor`'s postcondition: the events appended are a
function of the call's inputs alone. No separate member states it.

## Model

| member | source | states |
|---|---|---|
| Registration.NewMetricsReporter | instrumentation/google.golang.org/grpc/otelgrpc/grpcmetric.go:36-95 | A returned reporter holds, in each field, an instrument created from that field's own descriptor. An error names one of the five metrics. |
| Registration.FirstFailure | instrumentation/google.golang.org/grpc/otelgrpc/grpcmetric.go:43-86 | Reference definition: the index of the first descriptor the meter fails on, with every earlier one created. It is None exactly when the meter creates them all. |
| Registration.DescriptorTails | instrumentation/google.golang.org/grpc/otelgrpc/grpcmetric.go:43-86 | Registration order: received count, received bytes, sent count, sent bytes, latency. |
| Registration.RegistrationFailsFast | instrumentation/google.golang.org/grpc/otelgrpc/grpcmetric.go:39-86 | If the k-th instrument is the first the meter fails on, the result is an error and no reporter. The error names the k-th metric and wraps the meter's cause for it. |
| Registration.RegistrationSucceeds | instrumentation/google.golang.org/grpc/otelgrpc/grpcmetric.go:43-94 | If the meter creates all five, registration succeeds. Field i holds the handle the meter returned for descriptor i, in the fixed order. |
| Registration.RegistrationIgnoresLaterAnswers | instrumentation/google.golang.org/grpc/otelgrpc/grpcmetric.go:48-86 | Instruments after the first failure are never asked for. Meters that agree up to and including that failure give the same error. |
| Registration.ValidReporterHandlesDistinct | instrumentation/google.golang.org/grpc/otelgrpc/grpcmetric.go:15-31 | The five instruments of a registered reporter are pairwise distinct, because their metric names are. |
| Interceptor.OutcomeCode | instrumentation/google.golang.org/grpc/otelgrpc/grpcmetric.go:117-124 | The code is OK iff there is no error or the error carries OK. It is Unknown iff the error is plain or carries Unknown. Otherwise it is the carried code. |
| Interceptor.MeterLog.Add | instrumentation/google.golang.org/grpc/otelgrpc/grpcmetric.go:111 | A counter add appends exactly one event (instrument, delta, labels) to the log. |
| Interceptor.MeterLog.Record | instrumentation/google.golang.org/grpc/otelgrpc/grpcmetric.go:114 | A recorder record appends exactly one event (instrument, value, labels) to the log. |
| Interceptor.Since | instrumentation/google.golang.org/grpc/otelgrpc/grpcmetric.go:119 | The elapsed duration is end - start, saturated at the int64 bounds. It has the same sign as end - start. |
| Interceptor.Milliseconds | instrumentation/google.golang.org/grpc/otelgrpc/grpcmetric.go:129 | Whole milliseconds, truncated toward zero: ms * 10^6 <= d < (ms + 1) * 10^6 for d >= 0, mirrored for d < 0. |
| Interceptor.LatencyMillis | instrumentation/google.golang.org/grpc/otelgrpc/grpcmetric.go:119-129 | The recorded latency is >= 0 when end >= start. Without saturation it equals (end - start) / 1_000_000. |
| Interceptor.CallEmissions | instrumentation/google.golang.org/grpc/otelgrpc/grpcmetric.go:109-133 | One call adds 1 to received count and to sent count exactly once, and records latency exactly once. It records received/sent bytes exactly when the request/response has a size, with that size. Received-side events carry the method labels; sent-side events carry the method labels plus the status label. |
| Interceptor.CallEventsOnlyReporterInstruments | instrumentation/google.golang.org/grpc/otelgrpc/grpcmetric.go:111-133 | Every event a call emits goes to one of the reporter's five instruments. |
| Interceptor.ReceivedSideLabels | instrumentation/google.golang.org/grpc/otelgrpc/grpcmetric.go:108-115 | The events emitted before the handler carry exactly the method labels and no status label. |
| Interceptor.SentSideLabels | instrumentation/google.golang.org/grpc/otelgrpc/grpcmetric.go:126-133 | The events emitted after the handler carry the method labels followed by exactly one status label, the call's outcome code. |
| Interceptor.UnaryServerInterceptor | instrumentation/google.golang.org/grpc/otelgrpc/grpcmetric.go:99-137 | Returns exactly the handler's (resp, err). Appends to the log the pre-call events (request only), then the post-call events (outcome code, truncated latency, response size). Per instrument, the log grows by exactly the call's measurements. |

## Left out

- The OpenTelemetry metric API and SDK are left out: `meterProvider.Meter(instrumentationName)`, instrument creation, aggregation and export. They are foreign; the meter is an oracle over descriptors and the instruments are one append-only log.
- The exact text of the `fmt.Errorf` message is not modelled. A `RegistrationError` records the metric name and the wrapped cause.
- gRPC server plumbing (`context.Context`, `grpc.UnaryServerInfo`, `grpc.UnaryHandler`) is framework glue. The handler is a pure function of the request, and the context is ignored.
- The `proto.Message` type assertion and `proto.Size` are foreign serialisation, replaced by `trySize`.
- `status.FromError` internals are foreign. An error either carries a gRPC code or is plain, and a plain error maps to Unknown.
- `parseFullMethod`, `statusCodeAttr` and `instrumentationName` are defined in files that are not part of this model. The parser is an opaque parameter; the status attribute is the label `StatusLabel(code)`.
- `time.Now` and `time.Since` read the wall clock, which is nondeterministic. The two monotonic readings are parameters.
- Concurrent use of the shared instrument handles is not modelled. The model is one sequential call.
- UnaryServerInterceptor: the handler is a pure function, so "received-side events precede the handler call" is stated structurally. The pre-call events are computed without any of the handler's results and come first in the log; the model cannot observe the moment of the call itself.
