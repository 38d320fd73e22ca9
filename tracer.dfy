/**
 * The sampling decision of the tracing set-up: the health-check filter, the
 * filter sampler that wraps a parent sampler, the sampler the service installs,
 * and the choice of exporter from the `EXPORTER` setting.
 */
module Tracer {
  import opened Wrappers
  import opened Strings

  /** The OpenTelemetry span kinds. */
  datatype SpanKind = Internal | Server | Client | Producer | Consumer

  /**
   * An OpenTelemetry attribute value: a string, a number, a boolean, or a
   * homogeneous array of one of those. Numbers are kept as integers.
   */
  datatype AttrValue =
    | AttrString(s: string)
    | AttrNumber(n: int)
    | AttrBool(b: bool)
    | AttrStringArray(ss: seq<string>)
    | AttrNumberArray(ns: seq<int>)
    | AttrBoolArray(bs: seq<bool>)

  type Attributes = map<string, AttrValue>

  /** The OpenTelemetry sampling decisions. */
  datatype SamplingDecision = NotRecord | Record | RecordAndSampled

  /** What a sampler answers: a decision and, optionally, attributes to add to the span. */
  datatype SamplingResult = SamplingResult(decision: SamplingDecision, attributes: Option<Attributes>)

  /** The semantic-convention key of the matched route of an HTTP server span. */
  const HttpRoute: string := "http.route"

  /** The route of the liveness probe. */
  const HealthRoute: string := "/health"

  /** What the filter sampler answers when the filter rejects a span. */
  const NotRecordResult: SamplingResult := SamplingResult(NotRecord, None)

  /** A filter over span name, kind and attributes: `true` keeps the span. */
  type FilterFunction = (string, SpanKind, Attributes) -> bool

  /**
   * A sampler: `shouldSample(ctx, traceId, spanName, spanKind, attributes, links)`
   * and its `toString()` text. The context `C` and the links `L` are passed
   * through untouched, so they stay abstract.
   */
  datatype Sampler<-C, -L> = Sampler(
    shouldSample: (C, string, string, SpanKind, Attributes, L) -> SamplingResult,
    description: string)

  /** `v === s` in JavaScript, for a string `s` and a value `v` that may be `undefined`. */
  function StrictEqualsString(v: Option<AttrValue>, s: string): (r: bool)
    ensures r <==> v == Some(AttrString(s))
  {
    match v
    case Some(AttrString(t)) => t == s
    case _ => false
  }

  /** The reference meaning of "this span is a liveness-probe request". */
  ghost predicate IsHealthCheckSpan(kind: SpanKind, attributes: Attributes)
  {
    kind == Server && HttpRoute in attributes && attributes[HttpRoute] == AttrString(HealthRoute)
  }

  /** `ignoreHealthCheck`: keeps every span except the server span of the `/health` route. */
  function IgnoreHealthCheck(spanName: string, spanKind: SpanKind, attributes: Attributes): (keep: bool)
    ensures !keep <==> IsHealthCheckSpan(spanKind, attributes)
  {
    spanKind != Server || !StrictEqualsString(Get(attributes, HttpRoute), HealthRoute)
  }

  /** A span without a route, or with a route other than the string `/health`, is kept. */
  lemma RouteNotHealthIsKept(spanName: string, spanKind: SpanKind, attributes: Attributes)
    requires HttpRoute !in attributes || attributes[HttpRoute] != AttrString(HealthRoute)
    ensures IgnoreHealthCheck(spanName, spanKind, attributes)
  {
  }

  /** A span that is not of kind SERVER is kept, whatever its route. */
  lemma NonServerIsKept(spanName: string, spanKind: SpanKind, attributes: Attributes)
    requires spanKind != Server
    ensures IgnoreHealthCheck(spanName, spanKind, attributes)
  {
  }

  /**
   * `filterSampler(filterFn, parent)`: a span the filter rejects is not recorded
   * and the parent is not asked; otherwise the parent's answer for the very same
   * arguments is returned unchanged.
   */
  function FilterSampler<C(!new), L(!new)>(filterFn: FilterFunction, parent: Sampler<C, L>): (s: Sampler<C, L>)
    ensures forall ctx, tid, name, kind, attr, links ::
      !filterFn(name, kind, attr) ==> s.shouldSample(ctx, tid, name, kind, attr, links) == NotRecordResult
    ensures forall ctx, tid, name, kind, attr, links ::
      filterFn(name, kind, attr) ==>
        s.shouldSample(ctx, tid, name, kind, attr, links) == parent.shouldSample(ctx, tid, name, kind, attr, links)
    ensures s.description == "FilterSampler(" + parent.description + ")"
  {
    Sampler(
      (ctx: C, tid: string, name: string, kind: SpanKind, attr: Attributes, links: L) =>
        if !filterFn(name, kind, attr) then NotRecordResult
        else parent.shouldSample(ctx, tid, name, kind, attr, links),
      "FilterSampler(" + parent.description + ")")
  }

  /**
   * The filter sampler consults its parent only for spans the filter keeps: two
   * parents that agree on a span, or any two parents for a span the filter
   * rejects, give wrapped samplers that agree on it.
   */
  lemma FilterSamplerIgnoresParentOnRejected<C(!new), L(!new)>(filterFn: FilterFunction,
                                                               p1: Sampler<C, L>, p2: Sampler<C, L>,
                                                               ctx: C, tid: string, name: string,
                                                               kind: SpanKind, attr: Attributes, links: L)
    requires !filterFn(name, kind, attr) ||
             p1.shouldSample(ctx, tid, name, kind, attr, links) == p2.shouldSample(ctx, tid, name, kind, attr, links)
    ensures FilterSampler(filterFn, p1).shouldSample(ctx, tid, name, kind, attr, links) ==
            FilterSampler(filterFn, p2).shouldSample(ctx, tid, name, kind, attr, links)
  {
  }

  /**
   * The tracing SDK's `AlwaysOnSampler`, defined here after that library's
   * documented behaviour: every span is recorded and sampled.
   */
  function AlwaysOnSampler<C(!new), L(!new)>(): (s: Sampler<C, L>)
    ensures forall ctx, tid, name, kind, attr, links ::
      s.shouldSample(ctx, tid, name, kind, attr, links) == SamplingResult(RecordAndSampled, None)
    ensures s.description == "AlwaysOnSampler"
  {
    Sampler(
      (ctx: C, tid: string, name: string, kind: SpanKind, attr: Attributes, links: L) =>
        SamplingResult(RecordAndSampled, None),
      "AlwaysOnSampler")
  }

  /** The sampler `setupTracing` gives the tracer provider. */
  function ServiceSampler<C(!new), L(!new)>(): (s: Sampler<C, L>)
    ensures s.description == "FilterSampler(AlwaysOnSampler)"
  {
    FilterSampler(IgnoreHealthCheck, AlwaysOnSampler())
  }

  /**
   * With the service's sampler, liveness-probe server spans are dropped and
   * every other span is recorded and sampled.
   */
  lemma ServiceSamplerDropsOnlyHealthChecks<C(!new), L(!new)>(ctx: C, tid: string, name: string, kind: SpanKind,
                                                  attr: Attributes, links: L)
    ensures var r := ServiceSampler<C, L>().shouldSample(ctx, tid, name, kind, attr, links);
            (r.decision == NotRecord <==> IsHealthCheckSpan(kind, attr)) &&
            (IsHealthCheckSpan(kind, attr) ==> r == NotRecordResult) &&
            (!IsHealthCheckSpan(kind, attr) ==> r == SamplingResult(RecordAndSampled, None))
  {
  }

  /** The trace exporters `setupTracing` can pick. */
  datatype ExporterKind = Zipkin | Otlp

  /**
   * `(process.env.EXPORTER || '').toLowerCase().startsWith('z')`: Zipkin for a
   * setting that begins with `z` or `Z`, OTLP otherwise, including when the
   * setting is unset or empty.
   */
  function SelectExporter(exporterEnv: Option<string>): (e: ExporterKind)
    ensures e == Zipkin <==> exporterEnv.Some? && |exporterEnv.value| > 0 &&
                             (exporterEnv.value[0] == 'z' || exporterEnv.value[0] == 'Z')
    ensures exporterEnv == None ==> e == Otlp
    ensures exporterEnv == Some("") ==> e == Otlp
  {
    var setting := exporterEnv.GetOr("");
    if StartsWith(ToLower(setting), "z") then Zipkin else Otlp
  }
}
