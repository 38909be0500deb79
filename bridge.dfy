/** The translation rules of the OpenTracing bridge: span references to a
    parent and links, tags to span kind, error flag and attributes, log fields
    to attributes, and the error decisions of the bridge tracer's Inject and
    Extract. */
module Bridge {
  import opened Wrappers
  import opened Otel
  import Fmt
  import Parent
  import TraceContext
  import Propagation

  // --- span references ------------------------------------------------------

  const OtSpanReferenceTypeKey := "ot-span-reference-type"

  /** ot.SpanReferenceType is an int; these are its two named values. */
  const ChildOfRef: int := 0
  const FollowsFromRef: int := 1

  /** An OpenTracing span context: one made by this bridge (it wraps an OTel
      span reference) or a foreign one. */
  datatype OtSpanContext = BridgeSpanContext(otelSpanReference: SpanReference) | ForeignSpanContext

  /** ot.SpanReference */
  datatype OtSpanReference = OtSpanReference(refType: int, referencedContext: OtSpanContext)

  /** otSpanReferenceTypeToString */
  function OtSpanReferenceTypeToString(refType: int): (s: string)
    ensures refType == ChildOfRef ==> s == "extra-child-of"
    ensures refType == FollowsFromRef ==> s == "follows-from-ref"
    ensures refType != ChildOfRef && refType != FollowsFromRef ==> s == "unknown-" + Fmt.FormatInt(refType)
  {
    if refType == ChildOfRef then "extra-child-of"
    else if refType == FollowsFromRef then "follows-from-ref"
    else "unknown-" + Fmt.FormatInt(refType)
  }

  /** Different reference types are never given the same attribute string. */
  lemma ReferenceTypeStringInjective(a: int, b: int)
    requires OtSpanReferenceTypeToString(a) == OtSpanReferenceTypeToString(b)
    ensures a == b
  {
    var s := OtSpanReferenceTypeToString(a);
    if a != ChildOfRef && a != FollowsFromRef {
      assert s[0] == 'u';
      assert b != ChildOfRef && b != FollowsFromRef;
      assert s[8..] == Fmt.FormatInt(a) && s[8..] == Fmt.FormatInt(b);
      Fmt.FormatIntInjective(a, b);
    } else {
      assert s[0] != 'u';
    }
  }

  /** otSpanReferenceToOTelLink: the referenced OTel span reference, and the
      single attribute naming the reference type. */
  function OtSpanReferenceToOTelLink(bridgeSC: SpanReference, refType: int): (l: Link)
    ensures l.spanReference == bridgeSC && |l.attributes| == 1
    ensures l.attributes[0].key == OtSpanReferenceTypeKey
    ensures l.attributes[0].value == StringValue(OtSpanReferenceTypeToString(refType))
  {
    Link(bridgeSC, [KeyValue(OtSpanReferenceTypeKey, StringValue(OtSpanReferenceTypeToString(refType)))])
  }

  predicate IsBridgeReference(r: OtSpanReference) {
    r.referencedContext.BridgeSpanContext?
  }

  predicate IsBridgeChildOf(r: OtSpanReference) {
    IsBridgeReference(r) && r.refType == ChildOfRef
  }

  /** The link a reference contributes when it is not the parent: one for a
      bridge reference, none for a foreign one. */
  function LinkFor(r: OtSpanReference): (ls: seq<Link>)
    ensures |ls| == (if IsBridgeReference(r) then 1 else 0)
  {
    if IsBridgeReference(r) then [OtSpanReferenceToOTelLink(r.referencedContext.otelSpanReference, r.refType)] else []
  }

  /** The number of bridge references. */
  function BridgeCount(rs: seq<OtSpanReference>): nat {
    if rs == [] then 0 else (if IsBridgeReference(rs[0]) then 1 else 0) + BridgeCount(rs[1..])
  }

  /** One link per bridge reference, in order. */
  function BridgeLinks(rs: seq<OtSpanReference>): seq<Link> {
    if rs == [] then [] else LinkFor(rs[0]) + BridgeLinks(rs[1..])
  }

  /** The parent: the first bridge reference of type ChildOf. */
  function ParentOf(rs: seq<OtSpanReference>): Option<SpanReference> {
    if rs == [] then None
    else if IsBridgeChildOf(rs[0]) then Some(rs[0].referencedContext.otelSpanReference)
    else ParentOf(rs[1..])
  }

  /** The links: every bridge reference except the one chosen as parent. */
  function LinksOf(rs: seq<OtSpanReference>): seq<Link> {
    if rs == [] then []
    else if IsBridgeChildOf(rs[0]) then BridgeLinks(rs[1..])
    else LinkFor(rs[0]) + LinksOf(rs[1..])
  }

  /** There is a parent exactly when some reference is a bridge ChildOf one. */
  lemma {:induction false} ParentOfExists(rs: seq<OtSpanReference>)
    ensures ParentOf(rs).Some? <==> exists k :: 0 <= k < |rs| && IsBridgeChildOf(rs[k])
  {
    if rs != [] && !IsBridgeChildOf(rs[0]) {
      var tail := rs[1..];
      ParentOfExists(tail);
      if exists k :: 0 <= k < |rs| && IsBridgeChildOf(rs[k]) {
        var k :| 0 <= k < |rs| && IsBridgeChildOf(rs[k]);
        assert IsBridgeChildOf(tail[k - 1]);
      }
      if exists k :: 0 <= k < |tail| && IsBridgeChildOf(tail[k]) {
        var k :| 0 <= k < |tail| && IsBridgeChildOf(tail[k]);
        assert IsBridgeChildOf(rs[k + 1]);
      }
    } else if rs != [] {
      assert IsBridgeChildOf(rs[0]);
    }
  }

  /** One link per bridge reference. */
  lemma {:induction false} BridgeLinksCount(rs: seq<OtSpanReference>)
    ensures |BridgeLinks(rs)| == BridgeCount(rs)
  {
    if rs != [] {
      BridgeLinksCount(rs[1..]);
    }
  }

  /** One link per bridge reference, less the one chosen as parent. */
  lemma {:induction false} LinksOfCount(rs: seq<OtSpanReference>)
    ensures |LinksOf(rs)| == BridgeCount(rs) - (if ParentOf(rs).Some? then 1 else 0)
  {
    if rs != [] {
      if IsBridgeChildOf(rs[0]) {
        BridgeLinksCount(rs[1..]);
      } else {
        LinksOfCount(rs[1..]);
      }
    }
  }

  /** The position of the first bridge ChildOf reference, if there is one. */
  function FirstChildOfIndex(rs: seq<OtSpanReference>): (r: Option<nat>)
    ensures r.Some? ==> r.value < |rs| && IsBridgeChildOf(rs[r.value])
    ensures r.Some? ==> forall j :: 0 <= j < r.value ==> !IsBridgeChildOf(rs[j])
    ensures r.None? ==> forall j :: 0 <= j < |rs| ==> !IsBridgeChildOf(rs[j])
  {
    if rs == [] then None
    else if IsBridgeChildOf(rs[0]) then Some(0)
    else match FirstChildOfIndex(rs[1..])
      case None => None
      case Some(k) => Some(k + 1)
  }

  lemma {:induction false} BridgeLinksAppend(a: seq<OtSpanReference>, b: seq<OtSpanReference>)
    ensures BridgeLinks(a + b) == BridgeLinks(a) + BridgeLinks(b)
  {
    if a != [] {
      assert (a + b)[1..] == a[1..] + b;
      BridgeLinksAppend(a[1..], b);
    } else {
      assert a + b == b;
    }
  }

  /** The parent is the reference at the first bridge ChildOf position, and
      the links are the bridge references with that one position removed, in
      input order; with no such position there is no parent and every bridge
      reference is a link. */
  lemma {:induction false} ParentAndLinksByIndex(rs: seq<OtSpanReference>)
    ensures FirstChildOfIndex(rs).None? ==> ParentOf(rs) == None && LinksOf(rs) == BridgeLinks(rs)
    ensures FirstChildOfIndex(rs).Some? ==>
      var k := FirstChildOfIndex(rs).value;
      ParentOf(rs) == Some(rs[k].referencedContext.otelSpanReference) &&
      LinksOf(rs) == BridgeLinks(rs[..k] + rs[k + 1..])
  {
    if rs != [] && !IsBridgeChildOf(rs[0]) {
      var tail := rs[1..];
      ParentAndLinksByIndex(tail);
      match FirstChildOfIndex(tail)
      case None =>
      case Some(k) =>
        assert [rs[0]] + (tail[..k] + tail[k + 1..]) == rs[..k + 1] + rs[k + 2..];
        assert (rs[..k + 1] + rs[k + 2..])[1..] == tail[..k] + tail[k + 1..];
    } else if rs != [] {
      assert rs[..0] + rs[1..] == rs[1..];
    }
  }

  /** A reference to a foreign span context contributes neither parent nor
      link, wherever it stands. */
  lemma {:induction false} ForeignReferenceSkipped(a: seq<OtSpanReference>, x: OtSpanReference, b: seq<OtSpanReference>)
    requires !IsBridgeReference(x)
    ensures ParentOf(a + [x] + b) == ParentOf(a + b)
    ensures LinksOf(a + [x] + b) == LinksOf(a + b)
  {
    if a == [] {
      assert a + [x] + b == [x] + b && (a + [x] + b)[1..] == b;
      assert a + b == b;
    } else {
      assert (a + [x] + b)[0] == a[0] && (a + b)[0] == a[0];
      assert (a + [x] + b)[1..] == a[1..] + [x] + b;
      assert (a + b)[1..] == a[1..] + b;
      ForeignReferenceSkipped(a[1..], x, b);
      if IsBridgeChildOf(a[0]) {
        BridgeLinksAppend(a[1..], [x] + b);
        BridgeLinksAppend(a[1..], b);
        assert a[1..] + [x] + b == a[1..] + ([x] + b);
        assert ([x] + b)[1..] == b;
      }
    }
  }

  /** What the loop of otSpanReferencesToParentAndLinks has established after
      its first i references: the parent and links of the whole input are the
      ones found so far, completed by what the rest of the input contributes. */
  predicate ScanState(rs: seq<OtSpanReference>, i: nat, parent: Option<SpanReference>, links: seq<Link>)
    requires i <= |rs|
  {
    && ParentOf(rs) == (if parent.Some? then parent else ParentOf(rs[i..]))
    && LinksOf(rs) == links + (if parent.Some? then BridgeLinks(rs[i..]) else LinksOf(rs[i..]))
  }

  /** The remaining input, one reference at a time, as the definitions consume it. */
  lemma UnfoldBridgeLinksAt(rs: seq<OtSpanReference>, i: nat)
    requires i < |rs|
    ensures BridgeLinks(rs[i..]) == LinkFor(rs[i]) + BridgeLinks(rs[i + 1..])
  {
    assert rs[i..][0] == rs[i] && rs[i..][1..] == rs[i + 1..];
  }

  lemma UnfoldParentAndLinksAt(rs: seq<OtSpanReference>, i: nat)
    requires i < |rs|
    ensures ParentOf(rs[i..]) == if IsBridgeChildOf(rs[i]) then Some(rs[i].referencedContext.otelSpanReference) else ParentOf(rs[i + 1..])
    ensures LinksOf(rs[i..]) == if IsBridgeChildOf(rs[i]) then BridgeLinks(rs[i + 1..]) else LinkFor(rs[i]) + LinksOf(rs[i + 1..])
  {
    assert rs[i..][0] == rs[i] && rs[i..][1..] == rs[i + 1..];
  }

  /** One reference more: the first bridge ChildOf reference becomes the parent. */
  lemma ScanStepParent(rs: seq<OtSpanReference>, i: nat, links: seq<Link>)
    requires i < |rs| && ScanState(rs, i, None, links) && IsBridgeChildOf(rs[i])
    ensures ScanState(rs, i + 1, Some(rs[i].referencedContext.otelSpanReference), links)
  {
    UnfoldParentAndLinksAt(rs, i);
  }

  /** One reference more once the parent is known: it adds its link, if any. */
  lemma ScanStepAfterParent(rs: seq<OtSpanReference>, i: nat, parent: SpanReference, links: seq<Link>)
    requires i < |rs| && ScanState(rs, i, Some(parent), links)
    ensures ScanState(rs, i + 1, Some(parent), links + LinkFor(rs[i]))
  {
    var first, later := LinkFor(rs[i]), BridgeLinks(rs[i + 1..]);
    UnfoldBridgeLinksAt(rs, i);
    assert links + (first + later) == (links + first) + later;
  }

  /** One reference more before the parent, not itself a bridge ChildOf
      reference: it adds its link, if any. */
  lemma ScanStepBeforeParent(rs: seq<OtSpanReference>, i: nat, links: seq<Link>)
    requires i < |rs| && ScanState(rs, i, None, links) && !IsBridgeChildOf(rs[i])
    ensures ScanState(rs, i + 1, None, links + LinkFor(rs[i]))
  {
    var first, later := LinkFor(rs[i]), LinksOf(rs[i + 1..]);
    UnfoldParentAndLinksAt(rs, i);
    assert links + (first + later) == (links + first) + later;
  }

  /** otSpanReferencesToParentAndLinks */
  method OtSpanReferencesToParentAndLinks(references: seq<OtSpanReference>) returns (parent: Option<SpanReference>, links: seq<Link>)
    ensures parent == ParentOf(references)
    ensures links == LinksOf(references)
  {
    parent, links := None, [];
    assert references[0..] == references;
    for i := 0 to |references|
      invariant ScanState(references, i, parent, links)
    {
      var reference := references[i];
      // Foreign span contexts carry no OTel span reference: they are skipped.
      if reference.referencedContext.BridgeSpanContext? {
        var bridgeSC := reference.referencedContext.otelSpanReference;
        var link := OtSpanReferenceToOTelLink(bridgeSC, reference.refType);
        assert LinkFor(reference) == [link];
        if parent.Some? {
          ScanStepAfterParent(references, i, parent.value, links);
          links := links + [link];
        } else if reference.refType == ChildOfRef {
          ScanStepParent(references, i, links);
          parent := Some(bridgeSC);
        } else {
          ScanStepBeforeParent(references, i, links);
          links := links + [link];
        }
      } else if parent.Some? {
        ScanStepAfterParent(references, i, parent.value, links);
        assert links + LinkFor(reference) == links;
      } else {
        ScanStepBeforeParent(references, i, links);
        assert links + LinkFor(reference) == links;
      }
    }
    assert references[|references|..] == [];
  }

  // --- tags and log fields --------------------------------------------------

  /** The OpenTracing "span.kind" and "error" tag names. */
  const SpanKindTagKey := "span.kind"
  const ErrorTagKey := "error"

  /** A tag value, by the dynamic Go type that otTagToOTelLabel's type switch
      distinguishes. A value of any other type is carried with its fmt.Sprint
      rendering; floating point values are carried as their raw bits. */
  datatype TagValue =
    | BoolTag(b: bool)
    | Int64Tag(i64: Int64)
    | Uint64Tag(u64: Uint64)
    | Float64Tag(f64: bv64)
    | Int32Tag(i32: Int32)
    | Uint32Tag(u32: Uint32)
    | Float32Tag(f32: bv32)
    | IntTag(i: Int64)
    | UintTag(u: Uint64)
    | StringTag(s: string)
    | OtherTag(rendered: string)

  /** The tag an attribute value came from; it undoes otTagToOTelLabel for
      every tag type the switch names except int and uint, which become
      64-bit values. */
  function AttributeTag(v: Value): TagValue {
    match v
    case BoolValue(b) => BoolTag(b)
    case Int64Value(i) => Int64Tag(i)
    case Uint64Value(u) => Uint64Tag(u)
    case Float64Value(f) => Float64Tag(f)
    case Int32Value(i) => Int32Tag(i)
    case Uint32Value(u) => Uint32Tag(u)
    case Float32Value(f) => Float32Tag(f)
    case StringValue(s) => StringTag(s)
  }

  /** otTagToOTelLabel: the same key, and the value converted by its type;
      int and uint become 64-bit values (label.Int and label.Uint on a 64-bit
      platform), and a value of an unnamed type becomes the string fmt.Sprint
      gives. */
  function OtTagToOTelLabel(k: string, v: TagValue): (kv: KeyValue)
    ensures kv.key == k
    ensures v.OtherTag? ==> kv.value == StringValue(v.rendered)
    ensures v.IntTag? ==> kv.value == Int64Value(v.i)
    ensures v.UintTag? ==> kv.value == Uint64Value(v.u)
    ensures !v.OtherTag? && !v.IntTag? && !v.UintTag? ==> AttributeTag(kv.value) == v
  {
    var value := match v
      case BoolTag(b) => BoolValue(b)
      case Int64Tag(i) => Int64Value(i)
      case Uint64Tag(u) => Uint64Value(u)
      case Float64Tag(f) => Float64Value(f)
      case Int32Tag(i) => Int32Value(i)
      case Uint32Tag(u) => Uint32Value(u)
      case Float32Tag(f) => Float32Value(f)
      case IntTag(i) => Int64Value(i)
      case UintTag(u) => Uint64Value(u)
      case StringTag(s) => StringValue(s)
      case OtherTag(r) => StringValue(r);
    KeyValue(k, value)
  }

  /** unicode.ToLower, for the runes whose lower case is an ASCII letter:
      A-Z, U+0130 (lower case 'i') and U+212A, the Kelvin sign (lower case
      'k'). Every other rune is kept; Go lower-cases those to runes outside
      ASCII or leaves them, so the result equals an ASCII word exactly when
      Go's does. */
  function ToLowerRune(c: char): (l: char)
    ensures 'a' <= l <= 'z' <==> 'a' <= c <= 'z' || 'A' <= c <= 'Z' || c == '\U{0130}' || c == '\U{212A}'
    ensures 'A' <= c <= 'Z' ==> l as int == c as int + 32
    ensures c == '\U{0130}' ==> l == 'i'
    ensures c == '\U{212A}' ==> l == 'k'
    ensures !('A' <= c <= 'Z') && c != '\U{0130}' && c != '\U{212A}' ==> l == c
  {
    if 'A' <= c <= 'Z' then (c as int + 32) as char
    else if c == '\U{0130}' then 'i'
    else if c == '\U{212A}' then 'k'
    else c
  }

  /** strings.ToLower, rune by rune as above. */
  function ToLower(s: string): (r: string)
    ensures |r| == |s|
    ensures forall i :: 0 <= i < |s| ==> r[i] == ToLowerRune(s[i])
  {
    seq(|s|, i requires 0 <= i < |s| => ToLowerRune(s[i]))
  }

  /** The kind a "span.kind" tag selects: a string naming one of the four
      remote kinds in any letter case, otherwise Internal. */
  function SpanKindOfTag(v: TagValue): (k: SpanKind)
    ensures k in {Internal, Client, Server, Producer, Consumer}
    ensures !v.StringTag? ==> k == Internal
    ensures v.StringTag? ==> (k == Client <==> ToLower(v.s) == "client")
    ensures v.StringTag? ==> (k == Server <==> ToLower(v.s) == "server")
    ensures v.StringTag? ==> (k == Producer <==> ToLower(v.s) == "producer")
    ensures v.StringTag? ==> (k == Consumer <==> ToLower(v.s) == "consumer")
  {
    if !v.StringTag? then Internal
    else
      var lowered := ToLower(v.s);
      if lowered == "client" then Client
      else if lowered == "server" then Server
      else if lowered == "producer" then Producer
      else if lowered == "consumer" then Consumer
      else Internal
  }

  /** Upper-case spellings are recognised. */
  lemma SpanKindIgnoresCase()
    ensures SpanKindOfTag(StringTag("SERVER")) == Server
    ensures SpanKindOfTag(StringTag("Client")) == Client
  {
    assert ToLower("SERVER") == "server";
    assert ToLower("Client") == "client";
  }

  /** Lower-casing twice changes nothing more. */
  lemma ToLowerIdempotent(s: string)
    ensures ToLower(ToLower(s)) == ToLower(s)
  {
    var once := ToLower(s);
    assert forall i :: 0 <= i < |s| ==> ToLowerRune(once[i]) == once[i];
  }

  /** A rune that strings.ToLower turns into the lower-case ASCII letter x:
      x itself, its upper case, U+0130 for 'i' or U+212A for 'k'. */
  predicate SpellsLetter(c: char, x: char) {
    || c == x
    || ('a' <= x <= 'z' && c as int == x as int - 32)
    || (x == 'i' && c == '\U{0130}')
    || (x == 'k' && c == '\U{212A}')
  }

  /** A text that spells the lower-case ASCII word w, rune by rune, in any case. */
  predicate SpellsWord(s: string, w: string) {
    |s| == |w| && forall i :: 0 <= i < |s| ==> SpellsLetter(s[i], w[i])
  }

  lemma ToLowerRuneMatchesLetter(c: char, x: char)
    requires 'a' <= x <= 'z'
    ensures ToLowerRune(c) == x <==> SpellsLetter(c, x)
  {
  }

  /** Comparing the lower-cased text with a lower-case ASCII word accepts
      exactly the spellings of that word in any letter case. */
  lemma ToLowerMatchesWord(s: string, w: string)
    requires forall i :: 0 <= i < |w| ==> 'a' <= w[i] <= 'z'
    ensures ToLower(s) == w <==> SpellsWord(s, w)
  {
    forall i | 0 <= i < |s| && i < |w|
      ensures ToLowerRune(s[i]) == w[i] <==> SpellsLetter(s[i], w[i])
    {
      ToLowerRuneMatchesLetter(s[i], w[i]);
    }
    if SpellsWord(s, w) {
      assert forall i :: 0 <= i < |s| ==> ToLower(s)[i] == w[i];
    }
  }

  /** The four remote span kinds are selected by exactly the case-insensitive
      spellings of their names. */
  lemma SpanKindBySpelling(s: string)
    ensures SpanKindOfTag(StringTag(s)) == Client <==> SpellsWord(s, "client")
    ensures SpanKindOfTag(StringTag(s)) == Server <==> SpellsWord(s, "server")
    ensures SpanKindOfTag(StringTag(s)) == Producer <==> SpellsWord(s, "producer")
    ensures SpanKindOfTag(StringTag(s)) == Consumer <==> SpellsWord(s, "consumer")
  {
    ToLowerMatchesWord(s, "client");
    ToLowerMatchesWord(s, "server");
    ToLowerMatchesWord(s, "producer");
    ToLowerMatchesWord(s, "consumer");
  }

  /** The span kind depends on the letters of the tag only up to case:
      a string and its lower-case form select the same kind. */
  lemma SpanKindCaseInsensitive(s: string)
    ensures SpanKindOfTag(StringTag(s)) == SpanKindOfTag(StringTag(ToLower(s)))
  {
    ToLowerIdempotent(s);
  }

  /** The span kind a tag map selects: Internal unless "span.kind" selects another. */
  function TagsSpanKind(tags: map<string, TagValue>): SpanKind {
    if SpanKindTagKey in tags then SpanKindOfTag(tags[SpanKindTagKey]) else Internal
  }

  /** A tag that becomes an attribute: present, and neither "span.kind" nor "error". */
  predicate IsAttributeTag(tags: map<string, TagValue>, k: string) {
    k in tags && k != SpanKindTagKey && k != ErrorTagKey
  }

  /** otTagsToOTelAttributesKindAndError. Go visits the map in no fixed
      order, so the attributes are specified as a collection: one attribute
      per ordinary tag, each converted from that tag, no key twice. */
  method OtTagsToOTelAttributesKindAndError(tags: map<string, TagValue>) returns (pairs: seq<KeyValue>, kind: SpanKind, err: bool)
    ensures kind == TagsSpanKind(tags)
    ensures err <==> ErrorTagKey in tags && tags[ErrorTagKey] == BoolTag(true)
    ensures forall i :: 0 <= i < |pairs| ==>
      IsAttributeTag(tags, pairs[i].key) && pairs[i] == OtTagToOTelLabel(pairs[i].key, tags[pairs[i].key])
    ensures forall k :: IsAttributeTag(tags, k) ==> exists i :: 0 <= i < |pairs| && pairs[i].key == k
    ensures forall i, j :: 0 <= i < j < |pairs| ==> pairs[i].key != pairs[j].key
  {
    kind, err, pairs := Internal, false, [];
    var remaining := tags.Keys;
    while remaining != {}
      invariant remaining <= tags.Keys
      invariant kind == if SpanKindTagKey !in remaining then TagsSpanKind(tags) else Internal
      invariant err <==> ErrorTagKey in tags && ErrorTagKey !in remaining && tags[ErrorTagKey] == BoolTag(true)
      invariant forall i :: 0 <= i < |pairs| ==>
        IsAttributeTag(tags, pairs[i].key) && pairs[i].key !in remaining && pairs[i] == OtTagToOTelLabel(pairs[i].key, tags[pairs[i].key])
      invariant forall k :: IsAttributeTag(tags, k) && k !in remaining ==> exists i :: 0 <= i < |pairs| && pairs[i].key == k
      invariant forall i, j :: 0 <= i < j < |pairs| ==> pairs[i].key != pairs[j].key
      decreases remaining
    {
      var k :| k in remaining;
      var v := tags[k];
      if k == SpanKindTagKey {
        if v.StringTag? {
          var lowered := ToLower(v.s);
          if lowered == "client" {
            kind := Client;
          } else if lowered == "server" {
            kind := Server;
          } else if lowered == "producer" {
            kind := Producer;
          } else if lowered == "consumer" {
            kind := Consumer;
          }
        }
      } else if k == ErrorTagKey {
        if v.BoolTag? && v.b {
          err := true;
        }
      } else {
        ghost var before := pairs;
        pairs := pairs + [OtTagToOTelLabel(k, v)];
        forall k' | IsAttributeTag(tags, k') && k' !in remaining - {k}
          ensures exists i :: 0 <= i < |pairs| && pairs[i].key == k'
        {
          if k' == k {
            assert pairs[|pairs| - 1].key == k';
          } else {
            var i :| 0 <= i < |before| && before[i].key == k';
            assert pairs[i].key == k';
          }
        }
      }
      remaining := remaining - {k};
    }
  }

  /** A log field: the key and value its Marshal hands to one Emit call. */
  datatype LogField = LogField(key: string, value: TagValue)

  /** bridgeFieldEncoder: every Emit call goes through emitCommon, which
      appends the converted pair. */
  class FieldEncoder {
    var pairs: seq<KeyValue>

    constructor ()
      ensures pairs == []
    {
      pairs := [];
    }

    method EmitCommon(key: string, value: TagValue)
      modifies this
      ensures pairs == old(pairs) + [OtTagToOTelLabel(key, value)]
    {
      pairs := pairs + [OtTagToOTelLabel(key, value)];
    }
  }

  /** otLogFieldsToOTelLabels: one attribute per field, in field order. */
  method OtLogFieldsToOTelLabels(fields: seq<LogField>) returns (labels: seq<KeyValue>)
    ensures |labels| == |fields|
    ensures forall i :: 0 <= i < |fields| ==> labels[i] == OtTagToOTelLabel(fields[i].key, fields[i].value)
  {
    var encoder := new FieldEncoder();
    for i := 0 to |fields|
      invariant |encoder.pairs| == i
      invariant forall j :: 0 <= j < i ==> encoder.pairs[j] == OtTagToOTelLabel(fields[j].key, fields[j].value)
    {
      encoder.EmitCommon(fields[i].key, fields[i].value);
    }
    labels := encoder.pairs;
  }

  // --- the bridge tracer's Inject and Extract -------------------------------

  datatype BuiltinFormat = Binary | TextMap | HTTPHeaders

  /** The format argument: a builtin OpenTracing format or anything else. */
  datatype Format = Builtin(builtin: BuiltinFormat) | OtherFormat

  /** The carrier argument: an HTTP header carrier or anything else. */
  datatype OtCarrier = HTTPHeadersCarrier(header: TextMapCarrier) | OtherCarrier

  datatype OtError = ErrUnsupportedFormat | ErrInvalidSpanContext | ErrInvalidCarrier | ErrSpanContextNotFound

  predicate IsHTTPHeadersFormat(f: Format) {
    f.Builtin? && f.builtin == HTTPHeaders
  }

  predicate IsValidBridgeContext(sm: OtSpanContext) {
    sm.BridgeSpanContext? && sm.otelSpanReference.IsValid()
  }

  function CarrierFootprint(c: OtCarrier): set<object> {
    if c.HTTPHeadersCarrier? then {c.header} else {}
  }

  /** The error BridgeTracer.Inject returns. The checks run in a fixed order,
      so each error names the first condition that fails. */
  function InjectError(sm: OtSpanContext, format: Format, carrier: OtCarrier): (e: Option<OtError>)
    ensures e == None <==> IsValidBridgeContext(sm) && IsHTTPHeadersFormat(format) && carrier.HTTPHeadersCarrier?
    ensures e == Some(ErrInvalidSpanContext) <==> !IsValidBridgeContext(sm)
    ensures e == Some(ErrUnsupportedFormat) <==> IsValidBridgeContext(sm) && !IsHTTPHeadersFormat(format)
    ensures e == Some(ErrInvalidCarrier) <==> IsValidBridgeContext(sm) && IsHTTPHeadersFormat(format) && !carrier.HTTPHeadersCarrier?
  {
    if !sm.BridgeSpanContext? then Some(ErrInvalidSpanContext)
    else if !sm.otelSpanReference.IsValid() then Some(ErrInvalidSpanContext)
    else if !IsHTTPHeadersFormat(format) then Some(ErrUnsupportedFormat)
    else if !carrier.HTTPHeadersCarrier? then Some(ErrInvalidCarrier)
    else None
  }

  /** BridgeTracer, reduced to what Inject and Extract use: the propagator
      set on it, if any. The process-wide propagator is passed explicitly. */
  class BridgeTracer {
    var propagator: Option<Propagation.Propagator>

    /** NewBridgeTracer: no propagator of its own. */
    constructor ()
      ensures propagator == None
    {
      propagator := None;
    }

    method SetTextMapPropagator(p: Option<Propagation.Propagator>)
      modifies this
      ensures propagator == p
    {
      propagator := p;
    }

    /** getPropagator: the tracer's own propagator wins over the global one. */
    function GetPropagator(global: Propagation.Propagator): (p: Propagation.Propagator)
      reads this
      ensures propagator.Some? ==> p == propagator.value
      ensures propagator.None? ==> p == global
    {
      if propagator.Some? then propagator.value else global
    }

    /** BridgeTracer.Inject: on success the propagator writes the bridge
      context's OTel reference, as the current span of a background context,
      into the header carrier; on an error nothing is written. */
    method Inject(sm: OtSpanContext, format: Format, carrier: OtCarrier, global: Propagation.Propagator) returns (err: Option<OtError>)
      modifies CarrierFootprint(carrier)
      ensures err == InjectError(sm, format, carrier)
      ensures err.None? ==>
        (carrier.header.headers ==
         Propagation.InjectHeaders(GetPropagator(global), old(carrier.header.headers), ContextWithSpan(Background, sm.otelSpanReference)))
      ensures err.Some? && carrier.HTTPHeadersCarrier? ==> carrier.header.headers == old(carrier.header.headers)
    {
      if !sm.BridgeSpanContext? {
        return Some(ErrInvalidSpanContext);
      }
      if !sm.otelSpanReference.IsValid() {
        return Some(ErrInvalidSpanContext);
      }
      if !IsHTTPHeadersFormat(format) {
        return Some(ErrUnsupportedFormat);
      }
      if !carrier.HTTPHeadersCarrier? {
        return Some(ErrInvalidCarrier);
      }
      var ctx := ContextWithSpan(Background, sm.otelSpanReference);
      Propagation.Inject(GetPropagator(global), ctx, carrier.header);
      return None;
    }

    /** BridgeTracer.Extract: the format is checked before the carrier; then
      the extracted context's parent, resolved without ignoring the context,
      is the result, and an invalid one is reported as not found. */
    function Extract(format: Format, carrier: OtCarrier, global: Propagation.Propagator): (r: Result<OtSpanContext, OtError>)
      reads this, CarrierFootprint(carrier)
      ensures !IsHTTPHeadersFormat(format) ==> r == Failure(ErrUnsupportedFormat)
      ensures IsHTTPHeadersFormat(format) && !carrier.HTTPHeadersCarrier? ==> r == Failure(ErrInvalidCarrier)
      ensures r.Success? ==> IsValidBridgeContext(r.value)
      ensures IsHTTPHeadersFormat(format) && carrier.HTTPHeadersCarrier? && r.Failure? ==> r.error == ErrSpanContextNotFound
      ensures IsHTTPHeadersFormat(format) && carrier.HTTPHeadersCarrier? && GetPropagator(global).NoopPropagator? ==>
        r == Failure(ErrSpanContextNotFound)
    {
      if !IsHTTPHeadersFormat(format) then Failure(ErrUnsupportedFormat)
      else if !carrier.HTTPHeadersCarrier? then Failure(ErrInvalidCarrier)
      else
        var ctx := Propagation.Extract(GetPropagator(global), Background, carrier.header);
        var otelSC := Parent.GetSpanReferenceAndLinks(ctx, false).parent;
        if !otelSC.IsValid() then Failure(ErrSpanContextNotFound)
        else Success(BridgeSpanContext(otelSC))
    }

    /** With the W3C propagator in use, Extract succeeds exactly when the
      traceparent header is acceptable, and then wraps what it parses to. */
    lemma ExtractWithTraceContext(carrier: TextMapCarrier, global: Propagation.Propagator)
      requires GetPropagator(global).TraceContextPropagator?
      ensures var h := carrier.Get(TraceContext.TraceparentHeader);
        Extract(Builtin(HTTPHeaders), HTTPHeadersCarrier(carrier), global) ==
          if TraceContext.Acceptable(h) then Success(BridgeSpanContext(TraceContext.ParseTraceparent(h)))
          else Failure(ErrSpanContextNotFound)
    {
      var h := carrier.Get(TraceContext.TraceparentHeader);
      TraceContext.ParseTraceparentSpec(h);
      EmptyReferenceIsInvalid();
    }
  }
}
