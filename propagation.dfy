/** The TextMapPropagator capability (Inject, Extract, Fields) and the
    implementations of it that this model knows: the W3C Trace Context
    propagator and the no-op propagator the global registry holds until
    another is installed. */
module Propagation {
  import opened Otel
  import TraceContext

  datatype Propagator = TraceContextPropagator | NoopPropagator

  /** The headers after p.Inject. */
  function InjectHeaders(p: Propagator, headers: map<string, string>, ctx: Context): (r: map<string, string>)
    ensures p.NoopPropagator? ==> r == headers
    ensures p.TraceContextPropagator? ==> r == TraceContext.InjectHeaders(headers, ctx)
  {
    match p
    case TraceContextPropagator => TraceContext.InjectHeaders(headers, ctx)
    case NoopPropagator => headers
  }

  method Inject(p: Propagator, ctx: Context, carrier: TextMapCarrier)
    modifies carrier
    ensures carrier.headers == InjectHeaders(p, old(carrier.headers), ctx)
  {
    match p {
      case TraceContextPropagator => TraceContext.Inject(ctx, carrier);
      case NoopPropagator =>
    }
  }

  /** p.Extract */
  function Extract(p: Propagator, ctx: Context, carrier: TextMapCarrier): (r: Context)
    reads carrier
    ensures p.NoopPropagator? ==> r == ctx
    ensures p.TraceContextPropagator? ==> r == TraceContext.Extract(ctx, carrier)
  {
    match p
    case TraceContextPropagator => TraceContext.Extract(ctx, carrier)
    case NoopPropagator => ctx
  }
}
