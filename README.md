# OpenTelemetry Go: trace-context propagation and the OpenTracing bridge

This project is a Dafny model of three pieces of OpenTelemetry Go, with proofs about them:

- **The W3C Trace Context propagator** (`propagators/trace_context.go`). `Inject` writes the
  `traceparent` and `tracestate` headers from a context into a text-map carrier. `Extract`
  parses them back into a context as the remote span reference. `extract` is the
  `traceparent` parser; its regular expression is modelled as the scanner predicate
  `MatchesTraceparentPattern`.
- **Parent resolution** (`internal/trace/parent/parent.go`). `GetSpanReferenceAndLinks`
  chooses the parent of a new span. A valid local span wins over a valid remote reference.
  When the context is ignored, both references are recorded as links instead.
- **The OpenTracing bridge's translation rules** (`bridge/opentracing/bridge.go`):
  - span references become a parent and links;
  - tags become a span kind, an error flag and attributes;
  - log fields become attributes;
  - the bridge tracer's `Inject`, `Extract` and `getPropagator` decide errors and choose a
    propagator.

Modules:

| module | file | contents |
|---|---|---|
| `Wrappers` | wrappers.dfy | `Option`, `Result` |
| `Hex` | hex.dfy | `encoding/hex`: lower-case encoding, decoding, the two round trips |
| `Otel` | otel.dfy | trace and span identifiers, span references, attribute values, links, span kinds, contexts, `TraceIDFromHex`/`SpanIDFromHex`, the text-map carrier (a class over a header map) |
| `TraceContext` | trace_context.dfy | the propagator |
| `Fmt` | fmt.dfy | decimal rendering of integers (`%d`) |
| `Propagation` | propagation.dfy | the choice between the W3C propagator and the no-op propagator |
| `Parent` | parent.dfy | parent resolution |
| `Bridge` | bridge.dfy | the OpenTracing bridge |

Where the code and its documentation disagree, the model follows the code:

- **The tail after the flags.** The pattern's optional tail `(?:-.*)?` is not a capturing group.
  So `FindStringSubmatch` yields either no groups or exactly five. The checks `len(matches) < 5`
  and `version == 0 && len(matches) != 5` can never reject anything. A version-00 header with
  a trailing `-…` is accepted and its tail is ignored. `TraceContext.TailIgnored` proves this.
- **The `sc`/`sr` names.** `trace_context.go` lines 59–60, 79 and 121–150 assign to `sc` but test
  `sr.IsValid()`. The model reads both names as the one span reference being built. That is
  the evident intent; read literally, the code would not compile.
- **`TraceIDFromHex` and `SpanIDFromHex`.** They are modelled as:
  - a length check (32 or 16 characters);
  - then a check for lower-case hexadecimal digits.

  This is a simplification: the model's versions accept the all-zero identifier.
  `extract` has the same outcome either way, because its `IsValid` test at line 146 rejects
  a zero identifier.
- **`strings.ToLower`.** It is modelled rune by rune: `A`–`Z`, U+0130 and U+212A (KELVIN SIGN)
  lower-case to ASCII letters, and every other rune is kept. No other rune has an ASCII lower
  case, so comparing the result with `"client"`, `"server"`, `"producer"` or `"consumer"`
  gives the same answer as Go's function. `Bridge.ToLowerMatchesWord` proves which texts
  pass such a comparison.

## Model

| member | source | states |
|---|---|---|
| Hex.EncodeToString | propagators/trace_context.go:63-67 | the hex spelling of n bytes has 2n characters, all lower-case hexadecimal digits |
| Hex.DecodeString | propagators/trace_context.go:104-107 | decoding fails exactly when the text has odd length or a non-hex character; on success it yields half as many bytes |
| Hex.DecodeEncode | propagators/trace_context.go:63-67 | decoding the spelling of any byte sequence gives that sequence back |
| Hex.EncodeDecode | propagators/trace_context.go:104-107 | spelling out what an even-length lower-case hex string decodes to gives that string back |
| Otel.SampledBit | propagators/trace_context.go:144 | `flags & FlagsSampled` is 0 or 1, and is 1 exactly when the flag byte is odd |
| Otel.EmptyReferenceIsInvalid | propagators/trace_context.go:87-88 | the zero span reference that every rejection returns is not valid |
| Otel.ContextWithRemoteSpanReference | propagators/trace_context.go:82 | the derived context has the new remote reference, with the current span and tracestate kept |
| Otel.ContextWithSpan | bridge/opentracing/bridge.go:617-621 | the derived context has the new current span, with the remote reference and tracestate kept |
| Otel.TraceIDFromHex | propagators/trace_context.go:123-126 | succeeds exactly on 32 lower-case hex digits, and the identifier spells back to its input; any other length is a length error |
| Otel.SpanIDFromHex | propagators/trace_context.go:131-134 | succeeds exactly on 16 lower-case hex digits, and the identifier spells back to its input; any other length is a length error |
| Otel.IdFromHexOfEncoding | propagators/trace_context.go:123-134 | parsing the hex spelling of any trace or span identifier returns that identifier |
| Otel.TextMapCarrier.Get | propagators/trace_context.go:73 | a present key yields its value, and a missing key yields "" |
| Otel.TextMapCarrier.Set | propagators/trace_context.go:56 | the key is overwritten with the value and no other key changes |
| TraceContext.MatchesTraceparentPattern | propagators/trace_context.go:50 | accepts exactly: two, thirty-two, sixteen and two lower-case hex digits joined by '-', then either the end of the text or a '-' followed by any text without a newline |
| TraceContext.FindStringSubmatch | propagators/trace_context.go:50 | the submatch list is empty or has five entries, and has five exactly when the header matches the pattern; then the entries are the whole header and the texts of the version, trace-id, span-id and flags fields (h[0..2], h[3..35], h[36..52], h[53..55]) |
| TraceContext.ParseTraceparent | propagators/trace_context.go:85-151 | follows every check of `extract` in order; the result is either valid or the empty reference |
| TraceContext.ParseTraceparentSpec | propagators/trace_context.go:85-151 | a header parses to a valid reference exactly when it matches, has a version of at most fe, has flags of at most 02 under version 00, and has non-zero IDs; such a header parses to its IDs with the sampled bit of its flags; every other header parses to the empty reference |
| TraceContext.FormatTraceparent | propagators/trace_context.go:63-67 | the header is 55 characters long, begins "00-", matches the pattern, spells the two IDs in hex, and has flags "00" or "01" equal to the sampled bit |
| TraceContext.Fields | propagators/trace_context.go:154-156 | exactly the two keys traceparent and tracestate |
| TraceContext.InjectHeaders | propagators/trace_context.go:53-69 | a string tracestate is written verbatim; a valid current span is written as its formatted traceparent; each of the two keys is otherwise untouched; no other key changes |
| TraceContext.Inject | propagators/trace_context.go:53-69 | the carrier's new header map is InjectHeaders of its old one |
| TraceContext.Extract | propagators/trace_context.go:72-83 | the current span is kept; a non-empty tracestate header is stored, and an empty one keeps the old slot; an acceptable traceparent becomes the remote reference, and any other keeps the old one |
| TraceContext.RoundTrip | propagators/trace_context.go:53-151 | parsing what Inject formats from a valid reference returns that reference with its flags reduced to the sampled bit |
| TraceContext.MalformedHeaderRejected | propagators/trace_context.go:87-95 | a header that does not match the pattern, the empty one included, gives the empty reference |
| TraceContext.VersionFFRejected | propagators/trace_context.go:108-111 | version ff is rejected, whatever follows it |
| TraceContext.VersionZeroFlagsAboveTwoRejected | propagators/trace_context.go:139-142 | a version-00 header whose flag byte is above 02 is rejected |
| TraceContext.LaterVersionsAcceptAnyFlags | propagators/trace_context.go:139-144 | versions 01 to fe accept any flag byte and keep only its sampled bit |
| TraceContext.ZeroIdentifierRejected | propagators/trace_context.go:146-148 | an all-zero trace-id or span-id is rejected |
| TraceContext.TailIgnored | propagators/trace_context.go:50 | appending "-" and any newline-free tail to a 55-character header does not change what it parses to |
| TraceContext.ExtractReadsOnlyFields | propagators/trace_context.go:72-86 | two carriers that agree on the two Fields keys extract to the same context |
| TraceContext.InjectThenExtract | propagators/trace_context.go:53-83 | injecting a valid span and a tracestate into an empty carrier and extracting into a background context yields the span as the remote reference (sampled bit only), no current span, and the tracestate unless it is empty |
| Fmt.NatToDecimal | bridge/opentracing/bridge.go:582 | the decimal spelling is non-empty and made of digits, and its value is the number (Fmt.DecimalValueOfNat) |
| Fmt.DecimalValueOfNat | bridge/opentracing/bridge.go:582 | the decimal spelling of n has value n |
| Fmt.FormatInt | bridge/opentracing/bridge.go:582 | `%d` rendering is non-empty and starts with '-' exactly for negative numbers |
| Fmt.FormatIntInjective | bridge/opentracing/bridge.go:582 | different integers render differently |
| Propagation.InjectHeaders | bridge/opentracing/bridge.go:623 | the W3C propagator writes TraceContext.InjectHeaders and the no-op propagator writes nothing |
| Propagation.Inject | bridge/opentracing/bridge.go:623 | the carrier's new header map is Propagation.InjectHeaders of its old one |
| Propagation.Extract | bridge/opentracing/bridge.go:640 | the W3C propagator extracts as TraceContext.Extract and the no-op propagator returns the context unchanged |
| Parent.IgnoredLink | internal/trace/parent/parent.go:47-52 | the link carries the reference and one attribute, ("ignored-on-demand", kind) |
| Parent.AddLinkIfValid | internal/trace/parent/parent.go:43-53 | an invalid reference leaves the links unchanged; a valid one appends exactly its ignored-on-demand link at the end |
| Parent.GetSpanReferenceAndLinks | internal/trace/parent/parent.go:24-41 | when ignoring the context: the empty parent, not remote, with links for the valid current and then the valid remote reference. Otherwise: no links; the valid local span wins; else the valid remote one, marked remote; else the empty parent. The parent is valid exactly when one of them is |
| Parent.NewRootRecordsBothInOrder | internal/trace/parent/parent.go:28-33 | ignoring a context with valid local and remote references records both, current first |
| Parent.LocalBeatsRemote | internal/trace/parent/parent.go:34-36 | with a valid local span the parent is that span, not remote, whatever the remote reference |
| Parent.NewRootLinkCount | internal/trace/parent/parent.go:28-32 | ignoring the context records one link per valid reference |
| Bridge.OtSpanReferenceTypeToString | bridge/opentracing/bridge.go:572-584 | ChildOf is "extra-child-of", FollowsFrom is "follows-from-ref", and any other type is "unknown-" followed by its decimal value |
| Bridge.ReferenceTypeStringInjective | bridge/opentracing/bridge.go:572-584 | different reference types never get the same attribute string |
| Bridge.OtSpanReferenceToOTelLink | bridge/opentracing/bridge.go:559-570 | the link carries the referenced OTel span reference and the single attribute ot-span-reference-type naming the type |
| Bridge.ParentOfExists | bridge/opentracing/bridge.go:530-557 | there is a parent exactly when some reference is a bridge ChildOf reference |
| Bridge.BridgeLinksCount | bridge/opentracing/bridge.go:536-545 | one link per bridge reference, foreign references giving none |
| Bridge.LinksOfCount | bridge/opentracing/bridge.go:530-557 | one link per bridge reference, less the one chosen as parent |
| Bridge.FirstChildOfIndex | bridge/opentracing/bridge.go:545-551 | the position of the first bridge ChildOf reference: no earlier one exists, and none exists when there is no position |
| Bridge.BridgeLinksAppend | bridge/opentracing/bridge.go:536-556 | the links of a concatenation are the concatenated links |
| Bridge.ParentAndLinksByIndex | bridge/opentracing/bridge.go:530-557 | the parent is the reference at the first bridge ChildOf position, and the links are those of every other bridge reference in input order; with no such position there is no parent and every bridge reference is a link |
| Bridge.ForeignReferenceSkipped | bridge/opentracing/bridge.go:537-545 | a reference to a foreign span context changes neither the parent nor the links, wherever it stands |
| Bridge.OtSpanReferencesToParentAndLinks | bridge/opentracing/bridge.go:530-557 | the loop returns exactly the parent and links that the definitions ParentOf and LinksOf give for the whole input: the first bridge ChildOf reference as parent, and a link for every other bridge reference in order (Bridge.ParentAndLinksByIndex) |
| Bridge.OtTagToOTelLabel | bridge/opentracing/bridge.go:498-528 | the key is kept; int and uint become 64-bit integer attributes; each other named Go type maps to the attribute of that type, which Bridge.AttributeTag maps back; any other value becomes its fmt.Sprint string |
| Bridge.ToLowerRune | bridge/opentracing/bridge.go:476 | 'A'-'Z' go to 'a'-'z', U+0130 goes to 'i', U+212A goes to 'k', and every other rune is kept; so the result is an ASCII lower-case letter exactly when the rune is one of those or already one |
| Bridge.ToLowerRuneMatchesLetter | bridge/opentracing/bridge.go:476 | a rune lower-cases to the ASCII letter x exactly when it is x, its upper case, U+0130 for 'i' or U+212A for 'k' |
| Bridge.ToLowerMatchesWord | bridge/opentracing/bridge.go:476-485 | for a lower-case ASCII word w, the lower-cased text equals w exactly when the text has w's length and each rune spells the corresponding letter of w in either case (U+0130 and U+212A included) |
| Bridge.ToLower | bridge/opentracing/bridge.go:476 | the same length, lower-cased rune by rune |
| Bridge.ToLowerIdempotent | bridge/opentracing/bridge.go:476 | lower-casing twice equals lower-casing once |
| Bridge.SpanKindOfTag | bridge/opentracing/bridge.go:474-486 | a string whose lower case is client, server, producer or consumer selects that kind; anything else, non-strings included, selects Internal |
| Bridge.SpanKindIgnoresCase | bridge/opentracing/bridge.go:476 | "SERVER" selects Server and "Client" selects Client |
| Bridge.SpanKindBySpelling | bridge/opentracing/bridge.go:474-486 | a string tag selects Client, Server, Producer or Consumer exactly when it spells "client", "server", "producer" or "consumer" in any letter case |
| Bridge.SpanKindCaseInsensitive | bridge/opentracing/bridge.go:476 | a string and its lower-case form select the same kind |
| Bridge.OtTagsToOTelAttributesKindAndError | bridge/opentracing/bridge.go:468-496 | the kind is what the span.kind tag selects (Internal without one); the error flag is set exactly when the error tag is boolean true; the attributes are exactly the converted other tags, each key once |
| Bridge.FieldEncoder.EmitCommon | bridge/opentracing/bridge.go:204-206 | the converted pair is appended and nothing else changes |
| Bridge.OtLogFieldsToOTelLabels | bridge/opentracing/bridge.go:208-214 | one attribute per field, in field order, each the converted key and value |
| Bridge.InjectError | bridge/opentracing/bridge.go:601-615 | the checks run in order: not a valid bridge context gives ErrInvalidSpanContext; otherwise a format other than HTTPHeaders gives ErrUnsupportedFormat; otherwise a carrier other than an HTTP header carrier gives ErrInvalidCarrier; otherwise there is no error |
| Bridge.BridgeTracer.constructor | bridge/opentracing/bridge.go:307-315 | a new tracer has no propagator of its own |
| Bridge.BridgeTracer.SetTextMapPropagator | bridge/opentracing/bridge.go:331-333 | the tracer's propagator becomes the argument |
| Bridge.BridgeTracer.GetPropagator | bridge/opentracing/bridge.go:653-658 | the tracer's own propagator if set, else the global one |
| Bridge.BridgeTracer.Inject | bridge/opentracing/bridge.go:601-625 | returns InjectError. On success the carrier's headers are what the chosen propagator writes for a background context whose current span is the bridge context's reference; on an error the headers are unchanged |
| Bridge.BridgeTracer.Extract | bridge/opentracing/bridge.go:631-651 | the format is checked before the carrier; apart from those two errors, any failure is ErrSpanContextNotFound; a success is a valid bridge context; with the no-op propagator it never succeeds |
| Bridge.BridgeTracer.ExtractWithTraceContext | bridge/opentracing/bridge.go:631-651 | with the W3C propagator, Extract from an HTTP header carrier succeeds exactly when its traceparent is acceptable, and returns what that header parses to |

## Left out

- Span wrappers (`bridgeSpan`: `Finish`, `SetTag`, `LogFields`, `LogKV`, the `Log*` events,
  bridge.go:81-264): these forward to an OTel span, which is not part of this model. Only
  the conversions they call (tag and field translation) are modelled.
- Baggage (bridge.go:60-75, 224-243, 335-384, and the baggage lines of `Inject`/`Extract`):
  the baggage map and its hooks are not part of this model. So `Bridge.BridgeTracer.Inject`
  writes no baggage, and `Bridge.BridgeTracer.Extract` returns a context without baggage.
- The tracer wrapper with its `sync.Once` warning and `isSet` flag (bridge.go:266-300), the
  warning handler, `SetOpenTelemetryTracer`, `StartSpan` and `ContextWithBridgeSpan`/`ContextWithSpanHook`
  (bridge.go:318-329, 388-465): these create spans and involve concurrency, which this model
  does not cover.
- The process-wide propagator registry: `otelglobal.TextMapPropagator()` becomes an explicit
  parameter, and its value is either the W3C propagator or the no-op one, which reads and
  writes nothing. Other propagators (composites, B3, Jaeger) are not part of this model.
- Floating point: `float32` and `float64` tag and field values are carried as raw bits and
  are never computed on.
- Bridge.ToLower: only the runes whose lower case is an ASCII letter are lower-cased; every
  other rune is kept, whereas Go lower-cases it too (for instance 'É' to 'é'). The result is
  only ever compared with ASCII words, and no such rune has an ASCII lower case, so the
  span kind comes out the same (`Bridge.ToLowerMatchesWord`). Go's full Unicode case tables
  are not part of this model.
- Bridge.OtTagToOTelLabel: Go's `label.Int` and `label.Uint` build 32-bit values on a 32-bit
  platform and 64-bit values on a 64-bit one. The model follows a 64-bit platform, and the
  `label` package itself is not part of this model.
- `fmt.Sprint` of values of other dynamic types: the rendered string is part of the input
  (`Bridge.TagValue.OtherTag`), because Go's formatting of arbitrary values is not modelled.
- `EmitLazyLogger` and `field.Marshal`: a field's `Marshal` is foreign code. Each field is
  modelled as the one key and value it hands to one `Emit…` call; the typed `Emit…` methods
  all reduce to `emitCommon`.
- `Bridge.OtTagsToOTelAttributesKindAndError`: Go's map iteration order is unspecified, so
  the order of the returned attributes is not stated. The contract gives the set of
  attributes and distinct keys, not a sequence.
- `regexp`, `encoding/hex` and `context.Context`: they are modelled by what the core uses.
  The pattern is a scanner predicate, hex is lower-case encoding and decoding, and a context
  is an immutable record of the current span, the remote reference and the tracestate slot.
  Other context values are not represented.
- HTTP header canonicalisation: `http.Header`'s `Get` and `Set` canonicalise the case of a
  key. The carrier here is a plain map that compares keys exactly. Both sides of the
  bridge use the same keys, so this does not affect what is read back.
- Identifier generation, sampling and the span-start protocol: not part of this model.
- The worked example header of the W3C Trace Context recommendation is not stated as a
  concrete lemma. `TraceContext.RoundTrip` and `TraceContext.ParseTraceparentSpec` cover
  every header of that shape.
