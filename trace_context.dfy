/** The W3C Trace Context propagator: writes and reads the `traceparent`
    header of section 3.2 of the W3C Trace Context Recommendation, and passes
    `tracestate` (section 3.3) through as an opaque string. */
module TraceContext {
  import opened Wrappers
  import opened Hex
  import opened Otel

  const SupportedVersion: Byte := 0
  const MaxVersion: int := 254
  const TraceparentHeader := "traceparent"
  const TracestateHeader := "tracestate"

  /** The header grammar, written out as a scanner anchored at both ends:
      four lower-case hexadecimal groups of widths 2, 32, 16 and 2 joined by
      '-', then either the end of the text or a '-' followed by any
      characters except a newline. */
  predicate MatchesTraceparentPattern(h: string) {
    && |h| >= 55
    && IsLowerHex(h[0..2]) && h[2] == '-'
    && IsLowerHex(h[3..35]) && h[35] == '-'
    && IsLowerHex(h[36..52]) && h[52] == '-'
    && IsLowerHex(h[53..55])
    && (|h| == 55 || (h[55] == '-' && forall i :: 56 <= i < |h| ==> h[i] != '\n'))
  }

  /** regexp.FindStringSubmatch for that pattern: no entries when the text
      does not match, otherwise the whole match and the four capturing groups.
      The optional tail group is non-capturing, so there are never more. */
  function FindStringSubmatch(h: string): (m: seq<string>)
    ensures |m| == 0 || |m| == 5
    ensures |m| == 5 <==> MatchesTraceparentPattern(h)
    ensures |m| == 5 ==> m[0] == h && |m[1]| == 2 && |m[2]| == 32 && |m[3]| == 16 && |m[4]| == 2
    ensures |m| == 5 ==> m[1] == h[0..2] && m[2] == h[3..35] && m[3] == h[36..52] && m[4] == h[53..55]
  {
    if MatchesTraceparentPattern(h) then [h, h[0..2], h[3..35], h[36..52], h[53..55]] else []
  }

  /** The byte a two-digit lower-case hexadecimal group spells. */
  function GroupByte(g: string): (b: Byte)
    requires |g| == 2 && IsLowerHex(g)
    ensures DecodeString(g) == Some([b])
  {
    var d := DecodeString(g);
    assert d.Some? && |d.value| == 1;
    assert d.value == [d.value[0]];
    d.value[0]
  }

  /** The fields of a header that matches the pattern. */
  function HeaderVersion(h: string): Byte
    requires MatchesTraceparentPattern(h)
  {
    GroupByte(h[0..2])
  }

  function HeaderFlags(h: string): Byte
    requires MatchesTraceparentPattern(h)
  {
    GroupByte(h[53..55])
  }

  function HeaderTraceID(h: string): (t: TraceID)
    requires MatchesTraceparentPattern(h)
    ensures TraceIDFromHex(h[3..35]) == Success(t)
  {
    TraceIDFromHex(h[3..35]).value
  }

  function HeaderSpanID(h: string): (s: SpanID)
    requires MatchesTraceparentPattern(h)
    ensures SpanIDFromHex(h[36..52]) == Success(s)
  {
    SpanIDFromHex(h[36..52]).value
  }

  /** The acceptance rule in one place: the pattern matches, the version is
      not ff, version 00 allows flags up to 02, and neither identifier is zero. */
  predicate Acceptable(h: string) {
    && MatchesTraceparentPattern(h)
    && HeaderVersion(h) <= MaxVersion
    && (HeaderVersion(h) == 0 ==> HeaderFlags(h) <= 2)
    && TraceIDIsValid(HeaderTraceID(h))
    && SpanIDIsValid(HeaderSpanID(h))
  }

  /** TraceContext.extract, applied to the traceparent value it reads from the
      carrier: every failed check yields the empty reference. A header that
      passes yields its identifiers, with the flags reduced to the sampled bit. */
  function ParseTraceparent(h: string): (sr: SpanReference)
    ensures sr.IsValid() || sr == EmptyReference
  {
    if h == "" then EmptyReference
    else
      var matches := FindStringSubmatch(h);
      if |matches| == 0 then EmptyReference
      else if |matches| < 5 then EmptyReference
      else if |matches[1]| != 2 then EmptyReference
      else match DecodeString(matches[1])
        case None => EmptyReference
        case Some(ver) =>
          var version := ver[0];
          if version > MaxVersion then EmptyReference
          else if version == 0 && |matches| != 5 then EmptyReference
          else if |matches[2]| != 32 then EmptyReference
          else match TraceIDFromHex(matches[2][..32])
            case Failure(_) => EmptyReference
            case Success(traceID) =>
              if |matches[3]| != 16 then EmptyReference
              else match SpanIDFromHex(matches[3])
                case Failure(_) => EmptyReference
                case Success(spanID) =>
                  if |matches[4]| != 2 then EmptyReference
                  else match DecodeString(matches[4])
                    case None => EmptyReference
                    case Some(opts) =>
                      if |opts| < 1 || (version == 0 && opts[0] > 2) then EmptyReference
                      else
                        // Only the sampled bit of the flag byte is kept.
                        var sc := SpanReference(traceID, spanID, SampledBit(opts[0]));
                        if !sc.IsValid() then EmptyReference else sc
  }

  /** The acceptance rule decides extract exactly: an acceptable header gives
      its identifiers with the flags reduced to the sampled bit, any other
      header gives the empty reference. */
  lemma ParseTraceparentSpec(h: string)
    ensures ParseTraceparent(h).IsValid() <==> Acceptable(h)
    ensures Acceptable(h) ==> ParseTraceparent(h) == SpanReference(HeaderTraceID(h), HeaderSpanID(h), SampledBit(HeaderFlags(h)))
    ensures !Acceptable(h) ==> ParseTraceparent(h) == EmptyReference
  {
    EmptyReferenceIsInvalid();
    if MatchesTraceparentPattern(h) {
      var m := FindStringSubmatch(h);
      assert m == [h, h[0..2], h[3..35], h[36..52], h[53..55]];
      assert h != "";
      assert DecodeString(m[1]) == Some([HeaderVersion(h)]);
      assert m[2][..32] == h[3..35];
      assert TraceIDFromHex(m[2][..32]) == Success(HeaderTraceID(h));
      assert SpanIDFromHex(m[3]) == Success(HeaderSpanID(h));
      assert DecodeString(m[4]) == Some([HeaderFlags(h)]);
    } else {
      assert |FindStringSubmatch(h)| == 0;
    }
  }

  /** Four fields of widths 2, 32, 16 and 2 joined by '-', each found again
      at its place. */
  function JoinFields(version: string, traceID: string, spanID: string, flags: string): (h: string)
    requires |version| == 2 && |traceID| == 32 && |spanID| == 16 && |flags| == 2
    ensures |h| == 55 && h[2] == '-' && h[35] == '-' && h[52] == '-'
    ensures h[0..2] == version && h[3..35] == traceID && h[36..52] == spanID && h[53..55] == flags
  {
    var h := version + "-" + traceID + "-" + spanID + "-" + flags;
    assert h[0..2] == version;
    assert h[3..35] == traceID;
    assert h[36..52] == spanID;
    assert h[53..55] == flags;
    h
  }

  /** The traceparent value Inject writes: version 00, the two identifiers in
      lower-case hexadecimal, and the flags reduced to the sampled bit. */
  function FormatTraceparent(sr: SpanReference): (h: string)
    ensures |h| == 55 && MatchesTraceparentPattern(h)
    ensures h[0..3] == "00-"
    ensures h[3..35] == EncodeToString(sr.traceID) && h[36..52] == EncodeToString(sr.spanID)
    ensures h[53..55] == (if SampledBit(sr.traceFlags) == 0 then "00" else "01")
    ensures HeaderVersion(h) == SupportedVersion && HeaderFlags(h) == SampledBit(sr.traceFlags)
  {
    var version := EncodeToString([SupportedVersion]);
    var flags := EncodeToString([SampledBit(sr.traceFlags)]);
    EncodeAt([SupportedVersion], 0);
    EncodeAt([SampledBit(sr.traceFlags)], 0);
    assert version == "00";
    assert flags == (if SampledBit(sr.traceFlags) == 0 then "00" else "01");
    var h := JoinFields(version, EncodeToString(sr.traceID), EncodeToString(sr.spanID), flags);
    assert h[0..3] == h[0..2] + [h[2]];
    DecodeEncode([SupportedVersion]);
    DecodeEncode([SampledBit(sr.traceFlags)]);
    h
  }

  /** Two keys compare equal in two header maps. */
  predicate SameAt(a: map<string, string>, b: map<string, string>, k: string) {
    (k in a <==> k in b) && (k in a ==> a[k] == b[k])
  }

  /** The keys this propagator reads and writes. */
  function Fields(): (r: seq<string>)
    ensures |r| == 2
    ensures forall k :: k in r <==> k == TraceparentHeader || k == TracestateHeader
  {
    [TraceparentHeader, TracestateHeader]
  }

  /** The headers after Inject: a string tracestate in the context is copied
      verbatim, a valid current span reference is formatted into traceparent,
      and nothing else changes. */
  function InjectHeaders(headers: map<string, string>, ctx: Context): (r: map<string, string>)
    ensures ctx.tracestate.Text? ==> TracestateHeader in r && r[TracestateHeader] == ctx.tracestate.state
    ensures !ctx.tracestate.Text? ==> SameAt(r, headers, TracestateHeader)
    ensures ctx.currentSpan.IsValid() ==> TraceparentHeader in r && r[TraceparentHeader] == FormatTraceparent(ctx.currentSpan)
    ensures !ctx.currentSpan.IsValid() ==> SameAt(r, headers, TraceparentHeader)
    ensures forall k :: k !in Fields() ==> SameAt(r, headers, k)
  {
    var withState := if ctx.tracestate.Text? then headers[TracestateHeader := ctx.tracestate.state] else headers;
    if ctx.currentSpan.IsValid() then withState[TraceparentHeader := FormatTraceparent(ctx.currentSpan)] else withState
  }

  /** TraceContext.Inject */
  method Inject(ctx: Context, carrier: TextMapCarrier)
    modifies carrier
    ensures carrier.headers == InjectHeaders(old(carrier.headers), ctx)
  {
    match ctx.tracestate {
      case Text(state) => carrier.Set(TracestateHeader, state);
      case Unset =>
      case NonText =>
    }
    var sc := ctx.currentSpan;
    if !sc.IsValid() {
      return;
    }
    var h := FormatTraceparent(sc);
    carrier.Set(TraceparentHeader, h);
  }

  /** TraceContext.Extract: a non-empty tracestate is stored verbatim, a
      traceparent that parses becomes the remote span reference, and the
      current span is never touched. */
  function Extract(ctx: Context, carrier: TextMapCarrier): (r: Context)
    reads carrier
    ensures r.currentSpan == ctx.currentSpan
    ensures carrier.Get(TracestateHeader) != "" ==> r.tracestate == Text(carrier.Get(TracestateHeader))
    ensures carrier.Get(TracestateHeader) == "" ==> r.tracestate == ctx.tracestate
    ensures Acceptable(carrier.Get(TraceparentHeader)) ==> r.remoteSpan == ParseTraceparent(carrier.Get(TraceparentHeader))
    ensures !Acceptable(carrier.Get(TraceparentHeader)) ==> r.remoteSpan == ctx.remoteSpan
  {
    var state := carrier.Get(TracestateHeader);
    var ctx' := if state != "" then ctx.(tracestate := Text(state)) else ctx;
    var sc := ParseTraceparent(carrier.Get(TraceparentHeader));
    ParseTraceparentSpec(carrier.Get(TraceparentHeader));
    if !sc.IsValid() then ctx' else ContextWithRemoteSpanReference(ctx', sc)
  }

  /** Extracting what Inject formatted gives back the reference, with the
      flags reduced to the sampled bit. */
  lemma {:induction false} RoundTrip(sr: SpanReference)
    requires sr.IsValid()
    ensures ParseTraceparent(FormatTraceparent(sr)) == sr.(traceFlags := SampledBit(sr.traceFlags))
  {
    var h := FormatTraceparent(sr);
    IdFromHexOfEncoding(sr.traceID, sr.spanID);
    assert TraceIDFromHex(h[3..35]) == Success(sr.traceID);
    assert SpanIDFromHex(h[36..52]) == Success(sr.spanID);
    assert HeaderTraceID(h) == sr.traceID && HeaderSpanID(h) == sr.spanID;
    assert Acceptable(h);
    ParseTraceparentSpec(h);
  }

  /** Text that does not match the pattern, the empty header included, gives
      the empty reference. */
  lemma MalformedHeaderRejected(h: string)
    requires !MatchesTraceparentPattern(h)
    ensures ParseTraceparent(h) == EmptyReference
  {
    ParseTraceparentSpec(h);
  }

  /** Version ff is reserved: rejected whatever the other fields hold. */
  lemma VersionFFRejected(h: string)
    requires |h| >= 2 && h[0..2] == "ff"
    ensures ParseTraceparent(h) == EmptyReference
  {
    ParseTraceparentSpec(h);
    if MatchesTraceparentPattern(h) {
      assert DecodeString(h[0..2]) == Some([255]);
      assert HeaderVersion(h) == 255;
    }
  }

  /** Version 00 admits only the flag bytes 00, 01 and 02. */
  lemma VersionZeroFlagsAboveTwoRejected(h: string)
    requires MatchesTraceparentPattern(h) && HeaderVersion(h) == 0 && HeaderFlags(h) > 2
    ensures ParseTraceparent(h) == EmptyReference
  {
    ParseTraceparentSpec(h);
  }

  /** Versions 01 to fe accept any flag byte and keep only its sampled bit. */
  lemma LaterVersionsAcceptAnyFlags(h: string)
    ensures MatchesTraceparentPattern(h) && 1 <= HeaderVersion(h) <= MaxVersion &&
            TraceIDIsValid(HeaderTraceID(h)) && SpanIDIsValid(HeaderSpanID(h)) ==>
              ParseTraceparent(h) == SpanReference(HeaderTraceID(h), HeaderSpanID(h), SampledBit(HeaderFlags(h)))
  {
    ParseTraceparentSpec(h);
  }

  /** An all-zero trace-id or span-id is rejected. */
  lemma ZeroIdentifierRejected(h: string)
    requires MatchesTraceparentPattern(h)
    requires h[3..35] == EncodeToString(NilTraceID) || h[36..52] == EncodeToString(NilSpanID)
    ensures ParseTraceparent(h) == EmptyReference
  {
    ParseTraceparentSpec(h);
    IdFromHexOfEncoding(NilTraceID, NilSpanID);
  }

  /** The optional tail after the flags is never inspected, for version 00
      too: the pattern's tail group does not capture, so the submatch count
      is always five. */
  lemma {:induction false} TailIgnored(h: string, tail: string)
    requires |h| == 55 && MatchesTraceparentPattern(h)
    requires forall i :: 0 <= i < |tail| ==> tail[i] != '\n'
    ensures ParseTraceparent(h + "-" + tail) == ParseTraceparent(h)
  {
    var t := h + "-" + tail;
    assert t[0..55] == h;
    assert t[0..2] == h[0..2] && t[3..35] == h[3..35] && t[36..52] == h[36..52] && t[53..55] == h[53..55];
    forall i | 56 <= i < |t|
      ensures t[i] != '\n'
    {
      assert t[i] == tail[i - 56];
    }
    assert MatchesTraceparentPattern(t);
    ParseTraceparentSpec(h);
    ParseTraceparentSpec(t);
  }

  /** Extract reads no key but the two Fields. */
  lemma ExtractReadsOnlyFields(ctx: Context, a: TextMapCarrier, b: TextMapCarrier)
    requires forall k :: k in Fields() ==> a.Get(k) == b.Get(k)
    ensures Extract(ctx, a) == Extract(ctx, b)
  {
    assert a.Get(TraceparentHeader) == b.Get(TraceparentHeader);
    assert a.Get(TracestateHeader) == b.Get(TracestateHeader);
  }

  /** One hop across a process boundary: a context carrying a valid current
      span and a tracestate is injected into a fresh carrier, and the receiver
      extracts from it into a background context. */
  method InjectThenExtract(sr: SpanReference, state: string) returns (received: Context)
    requires sr.IsValid()
    ensures received.remoteSpan == sr.(traceFlags := SampledBit(sr.traceFlags))
    ensures received.currentSpan == EmptyReference
    ensures received.tracestate == (if state != "" then Text(state) else Unset)
  {
    var carrier := new TextMapCarrier(map[]);
    var sent := Context(sr, EmptyReference, Text(state));
    Inject(sent, carrier);
    RoundTrip(sr);
    ParseTraceparentSpec(FormatTraceparent(sr));
    received := Extract(Background, carrier);
  }
}
