/** The `useLinks` hook's list transforms: append, merge-patch by id, remove by id, replace, and the
    fetch guard. The simulated delay and the `try`/`catch` around each transform never change the result. */
module LinksHook {
  import opened Basics
  import opened FrontendTypes

  /** What `addLink` receives: a link without `id`, `clickCount` and `createdAt`. */
  datatype LinkDraft = LinkDraft(
    title: string,
    url: string,
    description: Option<string>,
    icon: Option<string>,
    isActive: bool,
    order: int,
    style: LinkStyle)

  /** `Partial<Link>`: `None` is a key the update leaves out. For the optional fields an inner `None` is a key
      present with the value `undefined`, which the spread copies over. */
  datatype LinkPatch = LinkPatch(
    id: Option<string>,
    title: Option<string>,
    url: Option<string>,
    description: Option<Option<string>>,
    icon: Option<Option<string>>,
    isActive: Option<bool>,
    clickCount: Option<int>,
    order: Option<int>,
    style: Option<LinkStyle>,
    createdAt: Option<int>)

  const EmptyLinkPatch: LinkPatch := LinkPatch(None, None, None, None, None, None, None, None, None, None)

  datatype LinksState = LinksState(links: seq<Link>, isLoading: bool, error: Option<string>)

  // ---------------------------------------------------------------------------
  // addLink
  // ---------------------------------------------------------------------------

  /** `{ ...linkData, id, clickCount: 0, createdAt }`, with the id and the time supplied by the caller. */
  function NewLink(draft: LinkDraft, id: string, now: int): Link {
    Link(id, draft.title, draft.url, draft.description, draft.icon, draft.isActive, 0, draft.order, draft.style, now)
  }

  /** `addLink`: the new link goes at the end and the response carries it. */
  function AddLink(links: seq<Link>, draft: LinkDraft, id: string, now: int): (r: (seq<Link>, ApiResponse<Link>))
    ensures |r.0| == |links| + 1 && r.0[..|links|] == links
    ensures var l := r.0[|links|];
      && l.id == id && l.clickCount == 0 && l.createdAt == now
      && l.title == draft.title && l.url == draft.url && l.description == draft.description
      && l.icon == draft.icon && l.isActive == draft.isActive && l.order == draft.order && l.style == draft.style
    ensures r.1.success && r.1.data == Some(r.0[|links|])
  {
    var l := NewLink(draft, id, now);
    (links + [l], Succeeded(Some(l), "Link added successfully"))
  }

  // ---------------------------------------------------------------------------
  // updateLink
  // ---------------------------------------------------------------------------

  /** `{ ...link, ...updates }`: every key the update carries overrides the link's. */
  function MergeLink(l: Link, p: LinkPatch): (m: Link)
    ensures m.id == Patch(l.id, p.id) && m.title == Patch(l.title, p.title) && m.url == Patch(l.url, p.url)
    ensures m.description == Patch(l.description, p.description) && m.icon == Patch(l.icon, p.icon)
    ensures m.isActive == Patch(l.isActive, p.isActive) && m.clickCount == Patch(l.clickCount, p.clickCount)
    ensures m.order == Patch(l.order, p.order) && m.style == Patch(l.style, p.style)
    ensures m.createdAt == Patch(l.createdAt, p.createdAt)
  {
    Link(p.id.GetOr(l.id), p.title.GetOr(l.title), p.url.GetOr(l.url), p.description.GetOr(l.description),
         p.icon.GetOr(l.icon), p.isActive.GetOr(l.isActive), p.clickCount.GetOr(l.clickCount),
         p.order.GetOr(l.order), p.style.GetOr(l.style), p.createdAt.GetOr(l.createdAt))
  }

  /** Applying `a` and then `b` is applying one update whose keys are `b`'s over `a`'s. */
  function ComposeLinkPatch(a: LinkPatch, b: LinkPatch): LinkPatch {
    LinkPatch(if b.id.Some? then b.id else a.id,
              if b.title.Some? then b.title else a.title,
              if b.url.Some? then b.url else a.url,
              if b.description.Some? then b.description else a.description,
              if b.icon.Some? then b.icon else a.icon,
              if b.isActive.Some? then b.isActive else a.isActive,
              if b.clickCount.Some? then b.clickCount else a.clickCount,
              if b.order.Some? then b.order else a.order,
              if b.style.Some? then b.style else a.style,
              if b.createdAt.Some? then b.createdAt else a.createdAt)
  }

  /** Spreads compose: two successive merges equal one merge of the combined update, and the empty update
      changes nothing. */
  lemma MergeLinkComposes(l: Link, a: LinkPatch, b: LinkPatch)
    ensures MergeLink(MergeLink(l, a), b) == MergeLink(l, ComposeLinkPatch(a, b))
    ensures MergeLink(l, EmptyLinkPatch) == l
  {
  }

  /** `links.map(link => link.id === linkId ? { ...link, ...updates } : link)`. */
  function MapUpdate(links: seq<Link>, linkId: string, p: LinkPatch): (r: seq<Link>)
    ensures |r| == |links|
    ensures forall i :: 0 <= i < |links| ==>
              r[i] == (if links[i].id == linkId then MergeLink(links[i], p) else links[i])
    decreases |links|
  {
    if |links| == 0 then []
    else [if links[0].id == linkId then MergeLink(links[0], p) else links[0]] + MapUpdate(links[1..], linkId, p)
  }

  /** `updateLink`: the list keeps its length and order; only links with the id are merged, and the
      response reports success even when no link has the id. */
  function UpdateLink(links: seq<Link>, linkId: string, p: LinkPatch): (r: (seq<Link>, ApiResponse<Link>))
    ensures |r.0| == |links|
    ensures forall i :: 0 <= i < |links| && links[i].id != linkId ==> r.0[i] == links[i]
    ensures forall i :: 0 <= i < |links| && links[i].id == linkId ==> r.0[i] == MergeLink(links[i], p)
    ensures r.1.success && r.1.data.None?
  {
    (MapUpdate(links, linkId, p), Succeeded(None, "Link updated successfully"))
  }

  /** An id no link carries leaves the list as it was. */
  lemma UpdateUnknownIdIsNoop(links: seq<Link>, linkId: string, p: LinkPatch)
    requires forall i :: 0 <= i < |links| ==> links[i].id != linkId
    ensures UpdateLink(links, linkId, p).0 == links
  {
  }

  // ---------------------------------------------------------------------------
  // deleteLink
  // ---------------------------------------------------------------------------

  /** `links.filter(link => link.id !== linkId)`. */
  function RemoveId(links: seq<Link>, linkId: string): (r: seq<Link>)
    ensures |r| <= |links|
    ensures forall k :: 0 <= k < |r| ==> r[k].id != linkId && r[k] in links
    ensures forall i :: 0 <= i < |links| && links[i].id != linkId ==> links[i] in r
    decreases |links|
  {
    if |links| == 0 then []
    else if links[0].id == linkId then RemoveId(links[1..], linkId)
    else [links[0]] + RemoveId(links[1..], linkId)
  }

  /** The filter works link by link, so the survivors keep their relative order. */
  lemma {:induction false} RemoveIdAppend(a: seq<Link>, b: seq<Link>, linkId: string)
    ensures RemoveId(a + b, linkId) == RemoveId(a, linkId) + RemoveId(b, linkId)
    decreases |a|
  {
    if |a| == 0 {
      assert a + b == b;
    } else {
      assert (a + b)[0] == a[0];
      assert (a + b)[1..] == a[1..] + b;
      RemoveIdAppend(a[1..], b, linkId);
    }
  }

  /** Removing an id no link carries changes nothing; removing twice is removing once. */
  lemma {:induction false} RemoveIdAbsent(links: seq<Link>, linkId: string)
    requires forall i :: 0 <= i < |links| ==> links[i].id != linkId
    ensures RemoveId(links, linkId) == links
    decreases |links|
  {
    if |links| > 0 {
      RemoveIdAbsent(links[1..], linkId);
      assert [links[0]] + links[1..] == links;
    }
  }

  lemma RemoveIdIdempotent(links: seq<Link>, linkId: string)
    ensures RemoveId(RemoveId(links, linkId), linkId) == RemoveId(links, linkId)
  {
    RemoveIdAbsent(RemoveId(links, linkId), linkId);
  }

  /** `deleteLink`: every link with the id goes; the others stay, in order. */
  function DeleteLink(links: seq<Link>, linkId: string): (r: (seq<Link>, ApiResponse<()>))
    ensures forall k :: 0 <= k < |r.0| ==> r.0[k].id != linkId
    ensures forall l :: l in links && l.id != linkId ==> l in r.0
    ensures forall l :: l in r.0 ==> l in links
    ensures r.1.success
  {
    (RemoveId(links, linkId), Succeeded(None, "Link deleted successfully"))
  }

  // ---------------------------------------------------------------------------
  // reorderLinks and fetchLinks
  // ---------------------------------------------------------------------------

  /** `reorderLinks`: the list becomes the supplied sequence, whatever it was before. */
  function ReorderLinks(links: seq<Link>, reordered: seq<Link>): (seq<Link>, ApiResponse<()>) {
    (reordered, Succeeded(None, "Links reordered successfully"))
  }

  /** The previous list has no say in a reorder, and a second identical reorder changes nothing. */
  lemma ReorderIgnoresCurrent(a: seq<Link>, b: seq<Link>, reordered: seq<Link>)
    ensures ReorderLinks(a, reordered) == ReorderLinks(b, reordered)
    ensures ReorderLinks(ReorderLinks(a, reordered).0, reordered) == ReorderLinks(a, reordered)
  {
  }

  /** Midnight UTC of 2024-01-15, -16 and -17 in milliseconds, the placeholder links' creation dates. */
  const Jan15: int := 1705276800000
  const Jan16: int := 1705363200000
  const Jan17: int := 1705449600000

  const DefaultMockStyle: LinkStyle := LinkStyle("#F4D03F", "#1B365D", None, None, RadiusLg, ShadowMd)

  /** The three placeholder links `fetchLinks` loads. */
  const MockLinks: seq<Link> := [
    Link("1", "My Website", "https://example.com", Some("Check out my personal website"), Some("\U{1F310}"),
         true, 42, 1, DefaultMockStyle, Jan15),
    Link("2", "Twitter Profile", "https://twitter.com/username", Some("Follow me on Twitter"), Some("\U{1F426}"),
         true, 28, 2, LinkStyle("#87CEEB", "#1B365D", None, None, RadiusLg, ShadowMd), Jan16),
    Link("3", "GitHub", "https://github.com/username", Some("See my code projects"), Some("\U{26A1}"),
         true, 15, 3, LinkStyle("#1B365D", "#FFFFFF", None, None, RadiusLg, ShadowMd), Jan17)
  ]

  /** `fetchLinks`: without a (non-empty) user id it returns before touching any state; otherwise it
      clears the error and ends, no longer loading, with the placeholder links. */
  function FetchLinks(st: LinksState, userId: Option<string>): (r: LinksState)
    ensures !Present(userId) ==> r == st
    ensures Present(userId) ==> r.links == MockLinks && !r.isLoading && r.error.None?
  {
    if !Present(userId) then st else LinksState(MockLinks, false, None)
  }
}
