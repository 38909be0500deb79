/** The tracing API's value types: trace and span identifiers, trace flags,
    span references, attributes and links, the ambient context record and the
    text-map carrier that propagators read and write. */
module Otel {
  import opened Wrappers
  import opened Hex

  /** A trace identifier: exactly 16 bytes. */
  type TraceID = s: seq<Byte> | |s| == 16 witness [0, 0, 0, 0, 0, 0, 0, 0, 0, 0, 0, 0, 0, 0, 0, 0]

  /** A span identifier: exactly 8 bytes. */
  type SpanID = s: seq<Byte> | |s| == 8 witness [0, 0, 0, 0, 0, 0, 0, 0]

  /** A one-byte bit mask; bit 0 is "sampled", the others are reserved. */
  type TraceFlags = Byte

  const NilTraceID: TraceID := [0, 0, 0, 0, 0, 0, 0, 0, 0, 0, 0, 0, 0, 0, 0, 0]
  const NilSpanID: SpanID := [0, 0, 0, 0, 0, 0, 0, 0]
  const FlagsSampled: TraceFlags := 1

  /** An identifier is valid when it is not all zero. */
  predicate TraceIDIsValid(t: TraceID) {
    t != NilTraceID
  }

  predicate SpanIDIsValid(s: SpanID) {
    s != NilSpanID
  }

  /** flags & FlagsSampled. FlagsSampled is bit 0, and for a byte that
      conjunction is the remainder modulo 2. */
  function SampledBit(flags: TraceFlags): (r: TraceFlags)
    ensures r == 0 || r == FlagsSampled
    ensures r == FlagsSampled <==> flags % 2 == 1
  {
    flags % 2
  }

  /** The identifying part of a span: which trace, which span, which flags. */
  datatype SpanReference = SpanReference(traceID: TraceID, spanID: SpanID, traceFlags: TraceFlags) {
    /** Valid iff both identifiers are valid. */
    predicate IsValid() {
      TraceIDIsValid(traceID) && SpanIDIsValid(spanID)
    }
  }

  /** The zero value SpanReference{}. */
  const EmptyReference := SpanReference(NilTraceID, NilSpanID, 0)

  lemma EmptyReferenceIsInvalid()
    ensures !EmptyReference.IsValid()
  {
  }

  type Int32 = x: int | -0x8000_0000 <= x < 0x8000_0000
  type Uint32 = x: int | 0 <= x < 0x1_0000_0000
  type Int64 = x: int | -0x8000_0000_0000_0000 <= x < 0x8000_0000_0000_0000
  type Uint64 = x: int | 0 <= x < 0x1_0000_0000_0000_0000

  /** An attribute value, recording which label constructor built it. Floating
      point payloads are carried as their raw bits and never computed on. */
  datatype Value =
    | BoolValue(boolVal: bool)
    | Int64Value(int64Val: Int64)
    | Uint64Value(uint64Val: Uint64)
    | Float64Value(float64Bits: bv64)
    | Int32Value(int32Val: Int32)
    | Uint32Value(uint32Val: Uint32)
    | Float32Value(float32Bits: bv32)
    | StringValue(stringVal: string)

  /** label.KeyValue */
  datatype KeyValue = KeyValue(key: string, value: Value)

  /** A non-parent association of a span with another span reference. */
  datatype Link = Link(spanReference: SpanReference, attributes: seq<KeyValue>)

  datatype SpanKind = Unspecified | Internal | Server | Client | Producer | Consumer

  /** What the trace-context propagator's private tracestate key holds in a
      context: nothing, a string, or a value of some other dynamic type. */
  datatype TracestateSlot = Unset | Text(state: string) | NonText

  /** The ambient context, as the core reads it: the current local span's
      reference (EmptyReference when there is no span), the remote span
      reference (EmptyReference when unset) and the tracestate slot.
      Deriving a context builds a new value; the old one is untouched. */
  datatype Context = Context(currentSpan: SpanReference, remoteSpan: SpanReference, tracestate: TracestateSlot)

  /** context.Background() */
  const Background := Context(EmptyReference, EmptyReference, Unset)

  /** otel.ContextWithRemoteSpanReference */
  function ContextWithRemoteSpanReference(ctx: Context, sr: SpanReference): (r: Context)
    ensures r.remoteSpan == sr
    ensures r.currentSpan == ctx.currentSpan && r.tracestate == ctx.tracestate
  {
    ctx.(remoteSpan := sr)
  }

  /** otel.ContextWithSpan, for a span known only by its reference. */
  function ContextWithSpan(ctx: Context, sr: SpanReference): (r: Context)
    ensures r.currentSpan == sr
    ensures r.remoteSpan == ctx.remoteSpan && r.tracestate == ctx.tracestate
  {
    ctx.(currentSpan := sr)
  }

  datatype IdError = ErrInvalidTraceIDLength | ErrInvalidSpanIDLength | ErrInvalidHexID

  /** otel.TraceIDFromHex: exactly 32 lower-case hexadecimal digits. */
  function TraceIDFromHex(h: string): (r: Result<TraceID, IdError>)
    ensures r.Success? <==> |h| == 32 && IsLowerHex(h)
    ensures r.Success? ==> EncodeToString(r.value) == h
    ensures |h| != 32 ==> r == Failure(ErrInvalidTraceIDLength)
  {
    if |h| != 32 then Failure(ErrInvalidTraceIDLength)
    else if !IsLowerHex(h) then Failure(ErrInvalidHexID)
    else
      EncodeDecode(h);
      Success(DecodeString(h).value)
  }

  /** otel.SpanIDFromHex: exactly 16 lower-case hexadecimal digits. */
  function SpanIDFromHex(h: string): (r: Result<SpanID, IdError>)
    ensures r.Success? <==> |h| == 16 && IsLowerHex(h)
    ensures r.Success? ==> EncodeToString(r.value) == h
    ensures |h| != 16 ==> r == Failure(ErrInvalidSpanIDLength)
  {
    if |h| != 16 then Failure(ErrInvalidSpanIDLength)
    else if !IsLowerHex(h) then Failure(ErrInvalidHexID)
    else
      EncodeDecode(h);
      Success(DecodeString(h).value)
  }

  /** TraceIDFromHex inverts the hexadecimal spelling of an identifier. */
  lemma IdFromHexOfEncoding(t: TraceID, s: SpanID)
    ensures TraceIDFromHex(EncodeToString(t)) == Success(t)
    ensures SpanIDFromHex(EncodeToString(s)) == Success(s)
  {
    DecodeEncode(t);
    DecodeEncode(s);
  }

  /** A text-map carrier (an HTTP header set, for instance): Get yields "" for
      a missing key, Set overwrites. */
  class TextMapCarrier {
    var headers: map<string, string>

    constructor (initial: map<string, string>)
      ensures headers == initial
    {
      headers := initial;
    }

    function Get(key: string): (v: string)
      reads this
      ensures key in headers ==> v == headers[key]
      ensures key !in headers ==> v == ""
    {
      if key in headers then headers[key] else ""
    }

    method Set(key: string, value: string)
      modifies this
      ensures headers == old(headers)[key := value]
    {
      headers := headers[key := value];
    }
  }
}
