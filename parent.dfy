/** Parent resolution: which reference a new span takes as its parent, whether
    that parent is remote, and which references become links when a new root
    is requested. */
module Parent {
  import opened Otel

  const IgnoredOnDemandKey := "ignored-on-demand"

  /** The link recording one reference that the new root ignored. */
  function IgnoredLink(sr: SpanReference, kind: string): (l: Link)
    ensures l.spanReference == sr && |l.attributes| == 1
    ensures l.attributes[0] == KeyValue(IgnoredOnDemandKey, StringValue(kind))
  {
    Link(sr, [KeyValue(IgnoredOnDemandKey, StringValue(kind))])
  }

  /** addLinkIfValid: an invalid reference leaves the links as they are; a
      valid one appends exactly one link at the end. */
  function AddLinkIfValid(links: seq<Link>, sr: SpanReference, kind: string): (r: seq<Link>)
    ensures !sr.IsValid() ==> r == links
    ensures sr.IsValid() ==> |r| == |links| + 1 && r[..|links|] == links && r[|links|] == IgnoredLink(sr, kind)
  {
    if !sr.IsValid() then links
    else links + [IgnoredLink(sr, kind)]
  }

  /** The triple GetSpanReferenceAndLinks returns. */
  datatype Resolution = Resolution(parent: SpanReference, isRemote: bool, links: seq<Link>)

  /** GetSpanReferenceAndLinks: an explicit new root beats the local current
      span, which beats the remote reference, which beats a fresh root. */
  function GetSpanReferenceAndLinks(ctx: Context, ignoreContext: bool): (r: Resolution)
    ensures ignoreContext ==> r.parent == EmptyReference && !r.isRemote
    ensures ignoreContext ==> (r.links ==
      (if ctx.currentSpan.IsValid() then [IgnoredLink(ctx.currentSpan, "current")] else []) +
      (if ctx.remoteSpan.IsValid() then [IgnoredLink(ctx.remoteSpan, "remote")] else []))
    ensures !ignoreContext ==> r.links == []
    ensures !ignoreContext && ctx.currentSpan.IsValid() ==> r.parent == ctx.currentSpan
    ensures !ignoreContext && !ctx.currentSpan.IsValid() && ctx.remoteSpan.IsValid() ==> r.parent == ctx.remoteSpan
    ensures !ignoreContext && !ctx.currentSpan.IsValid() && !ctx.remoteSpan.IsValid() ==> r.parent == EmptyReference
    ensures r.isRemote <==> !ignoreContext && !ctx.currentSpan.IsValid() && ctx.remoteSpan.IsValid()
    ensures r.parent.IsValid() ==> r.parent == ctx.currentSpan || r.parent == ctx.remoteSpan
    ensures r.parent.IsValid() <==> !ignoreContext && (ctx.currentSpan.IsValid() || ctx.remoteSpan.IsValid())
  {
    EmptyReferenceIsInvalid();
    var lsctx := ctx.currentSpan;
    var rsctx := ctx.remoteSpan;
    if ignoreContext then
      var links := AddLinkIfValid([], lsctx, "current");
      var links' := AddLinkIfValid(links, rsctx, "remote");
      Resolution(EmptyReference, false, links')
    else if lsctx.IsValid() then Resolution(lsctx, false, [])
    else if rsctx.IsValid() then Resolution(rsctx, true, [])
    else Resolution(EmptyReference, false, [])
  }

  /** A new root over a context that holds both a valid local and a valid
      remote reference: no parent, and two links, current first. */
  lemma NewRootRecordsBothInOrder(ctx: Context)
    requires ctx.currentSpan.IsValid() && ctx.remoteSpan.IsValid()
    ensures GetSpanReferenceAndLinks(ctx, true) ==
      Resolution(EmptyReference, false, [IgnoredLink(ctx.currentSpan, "current"), IgnoredLink(ctx.remoteSpan, "remote")])
  {
  }

  /** A valid local span wins, whatever the remote reference holds. */
  lemma LocalBeatsRemote(ctx: Context)
    requires ctx.currentSpan.IsValid()
    ensures GetSpanReferenceAndLinks(ctx, false) == Resolution(ctx.currentSpan, false, [])
  {
  }

  /** With ignoreContext the number of links is the number of valid references. */
  lemma NewRootLinkCount(ctx: Context)
    ensures |GetSpanReferenceAndLinks(ctx, true).links| ==
      (if ctx.currentSpan.IsValid() then 1 else 0) + (if ctx.remoteSpan.IsValid() then 1 else 0)
  {
  }
}
