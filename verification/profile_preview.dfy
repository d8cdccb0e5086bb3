/** The `ProfilePreview` component's logic: which links it renders and in which order, the button style
    it derives from a link style, the like toggle, and when it shows the empty-state message. */
module ProfilePreview {
  import opened Basics
  import opened FrontendTypes

  // ---------------------------------------------------------------------------
  // links.filter(link => link.isActive).sort((a, b) => a.order - b.order)
  // ---------------------------------------------------------------------------

  function ActiveLinks(links: seq<Link>): (r: seq<Link>)
    ensures forall k :: 0 <= k < |r| ==> r[k].isActive
    ensures multiset(r) <= multiset(links)
    ensures forall l :: multiset(r)[l] == (if l.isActive then multiset(links)[l] else 0)
    ensures forall l :: l in links && l.isActive ==> l in r
    decreases |links|
  {
    if |links| == 0 then []
    else
      assert links == [links[0]] + links[1..];
      if links[0].isActive then [links[0]] + ActiveLinks(links[1..])
      else ActiveLinks(links[1..])
  }

  /** The filter keeps the active links in their relative order: filtering a concatenation concatenates the
      filtered halves. */
  lemma {:induction false} ActiveLinksAppend(a: seq<Link>, b: seq<Link>)
    ensures ActiveLinks(a + b) == ActiveLinks(a) + ActiveLinks(b)
    decreases |a|
  {
    if |a| > 0 {
      assert (a + b)[1..] == a[1..] + b;
      ActiveLinksAppend(a[1..], b);
    } else {
      assert a + b == b;
    }
  }

  ghost predicate SortedByOrder(s: seq<Link>) {
    forall i, j :: 0 <= i < j < |s| ==> s[i].order <= s[j].order
  }

  /** Insert `x` before the first element whose order is not smaller. */
  function Insert(x: Link, s: seq<Link>): (r: seq<Link>)
    ensures multiset(r) == multiset(s) + multiset{x}
    decreases |s|
  {
    if |s| == 0 || x.order <= s[0].order then [x] + s
    else
      assert s == [s[0]] + s[1..];
      [s[0]] + Insert(x, s[1..])
  }

  lemma {:induction false} InsertSorted(x: Link, s: seq<Link>)
    requires SortedByOrder(s)
    ensures SortedByOrder(Insert(x, s))
    decreases |s|
  {
    if |s| > 0 && x.order > s[0].order {
      InsertSorted(x, s[1..]);
      var rest := Insert(x, s[1..]);
      forall k | 0 <= k < |rest|
        ensures s[0].order <= rest[k].order
      {
        assert rest[k] in multiset(s[1..]) + multiset{x};
        if rest[k] != x {
          assert rest[k] in s[1..];
          var j :| 0 <= j < |s[1..]| && s[1..][j] == rest[k];
          assert s[j + 1] == rest[k];
        }
      }
      assert Insert(x, s) == [s[0]] + rest;
    }
  }

  /** The array sort with the comparator `a.order - b.order`. `Array.prototype.sort` is stable, and so is
      this insertion sort: each element is inserted ahead of the equal-order elements that followed it. */
  function SortByOrder(links: seq<Link>): (r: seq<Link>)
    ensures multiset(r) == multiset(links)
    ensures SortedByOrder(r)
    decreases |links|
  {
    if |links| == 0 then []
    else
      assert links == [links[0]] + links[1..];
      InsertSorted(links[0], SortByOrder(links[1..]));
      Insert(links[0], SortByOrder(links[1..]))
  }

  /** The links with one particular `order` value, in list order. */
  function WithOrder(s: seq<Link>, k: int): seq<Link>
    decreases |s|
  {
    if |s| == 0 then []
    else if s[0].order == k then [s[0]] + WithOrder(s[1..], k)
    else WithOrder(s[1..], k)
  }

  lemma {:induction false} InsertStable(x: Link, s: seq<Link>, k: int)
    ensures WithOrder(Insert(x, s), k) == WithOrder([x], k) + WithOrder(s, k)
    decreases |s|
  {
    if |s| == 0 || x.order <= s[0].order {
      assert ([x] + s)[0] == x && ([x] + s)[1..] == s;
    } else {
      var rest := Insert(x, s[1..]);
      InsertStable(x, s[1..], k);
      assert ([s[0]] + rest)[0] == s[0] && ([s[0]] + rest)[1..] == rest;
      assert WithOrder([s[0]], k) == (if s[0].order == k then [s[0]] else []);
      assert WithOrder([x], k) == (if x.order == k then [x] else []);
    }
  }

  /** The sort is stable: for every order value, the links carrying it keep their relative order. */
  lemma {:induction false} SortStable(links: seq<Link>, k: int)
    ensures WithOrder(SortByOrder(links), k) == WithOrder(links, k)
    decreases |links|
  {
    if |links| > 0 {
      SortStable(links[1..], k);
      InsertStable(links[0], SortByOrder(links[1..]), k);
      assert WithOrder([links[0]], k) == (if links[0].order == k then [links[0]] else []);
    }
  }

  /** The links the preview renders: exactly the active ones, each as often as in the list,
      in ascending `order`. */
  function VisibleLinks(links: seq<Link>): (r: seq<Link>)
    ensures forall k :: 0 <= k < |r| ==> r[k].isActive && r[k] in links
    ensures forall l :: l in links && l.isActive ==> l in r
    ensures multiset(r) == multiset(ActiveLinks(links))
    ensures SortedByOrder(r)
  {
    var active := ActiveLinks(links);
    var r := SortByOrder(active);
    assert forall k | 0 <= k < |r| :: r[k].isActive && r[k] in links by {
      forall k | 0 <= k < |r| ensures r[k].isActive && r[k] in links {
        assert r[k] in multiset(r);
        assert r[k] in active;
        assert r[k] in multiset(links);
      }
    }
    assert forall l | l in links && l.isActive :: l in r by {
      forall l | l in links && l.isActive ensures l in r {
        assert l in multiset(active);
        assert l in multiset(r);
      }
    }
    r
  }

  /** Within one order value the preview keeps the list's order of the active links. */
  lemma VisibleLinksStable(links: seq<Link>, k: int)
    ensures WithOrder(VisibleLinks(links), k) == WithOrder(ActiveLinks(links), k)
  {
    SortStable(ActiveLinks(links), k);
  }

  // ---------------------------------------------------------------------------
  // Button style
  // ---------------------------------------------------------------------------

  /** The conditional chain on the radius name; an unknown name falls through to `0.5rem`. */
  function RadiusCss(name: string): (css: string)
    ensures ParseRadius(name).None? ==> css == "0.5rem"
  {
    if name == "none" then "0"
    else if name == "sm" then "0.375rem"
    else if name == "md" then "0.5rem"
    else if name == "lg" then "0.75rem"
    else if name == "full" then "9999px"
    else "0.5rem"
  }

  /** The CSS radius for each of the five radius values. */
  function BorderRadiusCss(r: BorderRadius): (css: string)
    ensures r == RadiusNone ==> css == "0"
    ensures r == RadiusSm ==> css == "0.375rem"
    ensures r == RadiusMd ==> css == "0.5rem"
    ensures r == RadiusLg ==> css == "0.75rem"
    ensures r == RadiusFull ==> css == "9999px"
  {
    RadiusCss(RadiusName(r))
  }

  /** `link.style.borderColor || link.style.backgroundColor`. */
  function BorderColor(style: LinkStyle): (c: string)
    ensures Present(style.borderColor) ==> c == style.borderColor.value
    ensures !Present(style.borderColor) ==> c == style.backgroundColor
  {
    if Present(style.borderColor) then style.borderColor.value else style.backgroundColor
  }

  datatype ButtonCss = ButtonCss(backgroundColor: string, color: string, borderColor: string, borderRadius: string)

  /** The inline style of a link button. */
  function ButtonStyleOf(style: LinkStyle): ButtonCss {
    ButtonCss(style.backgroundColor, style.textColor, BorderColor(style), BorderRadiusCss(style.borderRadius))
  }

  /** The button's border blends into its background exactly when no border colour is set or it is the
      background colour itself. */
  lemma BorderBlendsIff(style: LinkStyle)
    ensures ButtonStyleOf(style).borderColor == ButtonStyleOf(style).backgroundColor
            <==> !Present(style.borderColor) || style.borderColor.value == style.backgroundColor
  {
  }

  /** Different radius settings give buttons different corners. */
  lemma RadiusCssDistinct(s1: LinkStyle, s2: LinkStyle)
    ensures ButtonStyleOf(s1).borderRadius == ButtonStyleOf(s2).borderRadius <==> s1.borderRadius == s2.borderRadius
  {
  }

  // ---------------------------------------------------------------------------
  // Likes and the empty state
  // ---------------------------------------------------------------------------

  /** `handleLikeTolgle`: removes a liked id, adds an unliked one, and leaves every other id as it was. */
  function ToggleLike(liked: set<string>, linkId: string): (r: set<string>)
    ensures linkId in r <==> linkId !in liked
    ensures forall other :: other != linkId ==> (other in r <==> other in liked)
  {
    if linkId in liked then liked - {linkId} else liked + {linkId}
  }

  /** Toggling twice restores the set; toggles of different ids commute. */
  lemma ToggleLikeTwice(liked: set<string>, a: string, b: string)
    ensures ToggleLike(ToggleLike(liked, a), a) == liked
    ensures ToggleLike(ToggleLike(liked, a), b) == ToggleLike(ToggleLike(liked, b), a)
  {
  }

  /** The "No links added yet" message: shown for an empty list only. */
  predicate ShowsEmptyState(links: seq<Link>) {
    |links| == 0
  }

  lemma {:induction false} NoActiveLinks(links: seq<Link>)
    requires forall i :: 0 <= i < |links| ==> !links[i].isActive
    ensures ActiveLinks(links) == []
    decreases |links|
  {
    if |links| > 0 {
      NoActiveLinks(links[1..]);
    }
  }

  /** The empty-state message shows exactly for an empty list, and then no link shows; a list holding an
      active link shows that link instead. */
  lemma EmptyStateIff(links: seq<Link>)
    ensures ShowsEmptyState(links) <==> links == []
    ensures ShowsEmptyState(links) ==> VisibleLinks(links) == []
    ensures (exists i :: 0 <= i < |links| && links[i].isActive) ==> !ShowsEmptyState(links) && VisibleLinks(links) != []
  {
    if i :| 0 <= i < |links| && links[i].isActive {
      assert links[i] in links;
      assert links[i] in VisibleLinks(links);
    }
  }

  /** A non-empty list of inactive links renders no link and no empty-state message either. */
  lemma AllInactiveRendersNothing(links: seq<Link>)
    requires |links| > 0 && forall i :: 0 <= i < |links| ==> !links[i].isActive
    ensures VisibleLinks(links) == [] && !ShowsEmptyState(links)
  {
    NoActiveLinks(links);
    assert |multiset(VisibleLinks(links))| == 0;
  }
}
