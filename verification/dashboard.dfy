/** The `Dashboard` component's rules: when the create-profile form opens, the checks `handleCreateProfile`
    makes before it asks for a profile, the link `handleAddLink` adds, and the analytics totals.
    Asynchronous answers (the availability check, the create result) are parameters, and what the handler
    does is the sequence of effects it performs. */
module Dashboard {
  import opened Basics
  import opened FrontendTypes
  import LinksHook

  // ---------------------------------------------------------------------------
  // Screens and the create-profile form
  // ---------------------------------------------------------------------------

  /** The effect on `isCreatingProfile` after a change of wallet, profile or loading state: it opens the
      form for a connected wallet with no profile once nothing is loading, and never closes it. */
  function OpenCreateForm(connected: bool, hasProfile: bool, loading: bool, creating: bool): (r: bool)
    ensures connected && !hasProfile && !loading ==> r
    ensures !(connected && !hasProfile && !loading) ==> r == creating
    ensures creating ==> r
  {
    if connected && !hasProfile && !loading then true else creating
  }

  datatype Screen = ConnectWallet | CreateProfileForm | Tabs

  /** What the component renders: the wallet prompt first, then the form while it is open. */
  function ScreenOf(connected: bool, creating: bool): (r: Screen)
    ensures r == ConnectWallet <==> !connected
    ensures r == CreateProfileForm <==> connected && creating
    ensures r == Tabs <==> connected && !creating
  {
    if !connected then ConnectWallet else if creating then CreateProfileForm else Tabs
  }

  /** A connected wallet with no profile sees the form once loading ends, whatever was shown before. */
  lemma NewUserSeesForm(creating: bool)
    ensures ScreenOf(true, OpenCreateForm(true, false, false, creating)) == CreateProfileForm
  {
  }

  // ---------------------------------------------------------------------------
  // handleCreateProfile
  // ---------------------------------------------------------------------------

  datatype ProfileForm = ProfileForm(username: string, displayName: string, bio: string, avatarUrl: string)

  /** The argument of `createProfile`; `None` is a field passed as `undefined`. */
  datatype CreateProfileRequest = CreateProfileRequest(
    username: string, displayName: string, bio: Option<string>, avatarUrl: Option<string>)

  datatype Effect =
    | ToastSuccess(description: string)
    | ToastError(description: string)
    | CheckAvailability(username: string)
    | CallCreateProfile(request: CreateProfileRequest)
    | CloseCreateForm
    | Rejected

  const RequiredMessage: string := "Username and display name are required"
  const UnavailableMessage: string := "Username is not available"
  const CreatedMessage: string := "Profile created successfully!"
  const CreateFailedMessage: string := "Failed to create profile"

  /** `value || undefined`: the empty string becomes `undefined`. */
  function OrUndefined(value: string): (r: Option<string>)
    ensures r.None? <==> value == ""
    ensures r.Some? ==> r.value == value
  {
    if Truthy(value) then Some(value) else None
  }

  /** The request `handleCreateProfile` builds from the form. */
  function RequestOf(form: ProfileForm): CreateProfileRequest {
    CreateProfileRequest(form.username, form.displayName, OrUndefined(form.bio), OrUndefined(form.avatarUrl))
  }

  /** The form a request was built from: an `undefined` field was left empty. */
  function FormOf(q: CreateProfileRequest): ProfileForm {
    ProfileForm(q.username, q.displayName, q.bio.GetOr(""), q.avatarUrl.GetOr(""))
  }

  /** A request never carries an empty optional field. */
  predicate NormalRequest(q: CreateProfileRequest) {
    (q.bio.Some? ==> q.bio.value != "") && (q.avatarUrl.Some? ==> q.avatarUrl.value != "")
  }

  /** No form field is lost in the request, and every request without empty optionals comes from exactly
      one form. */
  lemma RequestRoundTrip(form: ProfileForm, q: CreateProfileRequest)
    ensures NormalRequest(RequestOf(form)) && FormOf(RequestOf(form)) == form
    ensures NormalRequest(q) ==> RequestOf(FormOf(q)) == q
  {
  }

  /** `result.error || "Failed to create profile"`. */
  function ErrorText(error: Option<string>): (t: string)
    ensures Present(error) ==> t == error.value
    ensures !Present(error) ==> t == CreateFailedMessage
  {
    if Present(error) then error.value else CreateFailedMessage
  }

  /** The effects of one press of the create button, given what the availability check and `createProfile`
      answer. */
  function HandleCreateProfile(form: ProfileForm, isAvailable: bool, result: ApiResponse<UserProfile>)
    : (fx: seq<Effect>)
    ensures |fx| > 0
    ensures !Truthy(form.username) || !Truthy(form.displayName) ==> fx == [ToastError(RequiredMessage)]
    ensures Truthy(form.username) && Truthy(form.displayName) ==> fx[0] == CheckAvailability(form.username)
    ensures Truthy(form.username) && Truthy(form.displayName) && !isAvailable
            ==> fx == [CheckAvailability(form.username), ToastError(UnavailableMessage)]
  {
    if !Truthy(form.username) || !Truthy(form.displayName) then [ToastError(RequiredMessage)]
    else if !isAvailable then [CheckAvailability(form.username), ToastError(UnavailableMessage)]
    else
      var call := [CheckAvailability(form.username), CallCreateProfile(RequestOf(form))];
      if result.success then call + [ToastSuccess(CreatedMessage), CloseCreateForm]
      else call + [ToastError(ErrorText(result.error))]
  }

  predicate CallsCreate(fx: seq<Effect>) {
    exists k :: 0 <= k < |fx| && fx[k].CallCreateProfile?
  }

  predicate ClosesForm(fx: seq<Effect>) {
    exists k :: 0 <= k < |fx| && fx[k] == CloseCreateForm
  }

  /** The handler as the component is written: `useProfile` returns neither `checkUsernameAvailability` nor
      `createProfile`, so both names are `undefined`, and once the required fields are filled the call of the
      first one throws a `TypeError` that rejects the handler's promise before any toast. */
  function HandleCreateProfileAsWritten(form: ProfileForm): (fx: seq<Effect>)
    ensures !Truthy(form.username) || !Truthy(form.displayName) ==> fx == [ToastError(RequiredMessage)]
    ensures Truthy(form.username) && Truthy(form.displayName) ==> fx == [Rejected]
  {
    if !Truthy(form.username) || !Truthy(form.displayName) then [ToastError(RequiredMessage)] else [Rejected]
  }

  /** As written, no form ever reaches `createProfile` or closes; the filled form of the Clarinet tests
      rejects where the intended handler, with the name available, creates the profile. */
  lemma AsWrittenNeverCreates(form: ProfileForm)
    ensures !CallsCreate(HandleCreateProfileAsWritten(form)) && !ClosesForm(HandleCreateProfileAsWritten(form))
    ensures var filled := ProfileForm("testuser", "Test User", "", "");
      && HandleCreateProfileAsWritten(filled) == [Rejected]
      && CallsCreate(HandleCreateProfile(filled, true, ApiResponse(true, None, None, None)))
  {
    var filled := ProfileForm("testuser", "Test User", "", "");
    assert HandleCreateProfile(filled, true, ApiResponse(true, None, None, None))[1].CallCreateProfile?;
  }

  /** A missing username or display name is rejected before the availability check, whatever that check or
      `createProfile` would have answered. */
  lemma RequiredFieldsCheckedFirst(form: ProfileForm, a1: bool, a2: bool, r1: ApiResponse<UserProfile>,
                                   r2: ApiResponse<UserProfile>)
    requires !Truthy(form.username) || !Truthy(form.displayName)
    ensures HandleCreateProfile(form, a1, r1) == HandleCreateProfile(form, a2, r2)
    ensures !CallsCreate(HandleCreateProfile(form, a1, r1))
  {
  }

  /** `createProfile` is called exactly when both required fields are filled and the username is available,
      and then with the form's fields, the empty optional ones as `undefined`. */
  lemma CreateCalledIff(form: ProfileForm, isAvailable: bool, result: ApiResponse<UserProfile>)
    ensures CallsCreate(HandleCreateProfile(form, isAvailable, result))
            <==> Truthy(form.username) && Truthy(form.displayName) && isAvailable
    ensures forall k :: 0 <= k < |HandleCreateProfile(form, isAvailable, result)| ==>
              HandleCreateProfile(form, isAvailable, result)[k].CallCreateProfile? ==>
              HandleCreateProfile(form, isAvailable, result)[k].request == RequestOf(form)
  {
    var fx := HandleCreateProfile(form, isAvailable, result);
    if Truthy(form.username) && Truthy(form.displayName) && isAvailable {
      assert fx[1].CallCreateProfile?;
    }
  }

  /** The form closes only after a successful `createProfile`. */
  lemma FormClosesIff(form: ProfileForm, isAvailable: bool, result: ApiResponse<UserProfile>)
    ensures ClosesForm(HandleCreateProfile(form, isAvailable, result))
            <==> Truthy(form.username) && Truthy(form.displayName) && isAvailable && result.success
  {
    var fx := HandleCreateProfile(form, isAvailable, result);
    if Truthy(form.username) && Truthy(form.displayName) && isAvailable && result.success {
      assert fx[3] == CloseCreateForm;
    }
  }

  // ---------------------------------------------------------------------------
  // handleAddLink
  // ---------------------------------------------------------------------------

  const NewLinkStyle: LinkStyle := LinkStyle("#F4D03F", "#1B365D", None, None, RadiusLg, ShadowMd)

  /** The link the add button submits: active, placed after the current ones, with the placeholder text. */
  function NewLinkDraft(links: seq<Link>): LinksHook.LinkDraft {
    LinksHook.LinkDraft("New Link", "https://example.com", Some("Add your description here"), Some("\U{1F517}"),
                        true, |links| + 1, NewLinkStyle)
  }

  /** `handleAddLink` through `addLink`, with the new id and the time supplied by the caller: the current
      links stay as they are, and the new one comes last, numbered after them, active, unclicked and styled
      with the placeholder style. */
  function HandleAddLink(links: seq<Link>, id: string, now: int): (r: seq<Link>)
    ensures |r| == |links| + 1 && r[..|links|] == links
    ensures r[|links|].order == |links| + 1 && r[|links|].isActive && r[|links|].clickCount == 0
    ensures r[|links|].id == id && r[|links|].createdAt == now && r[|links|].style == NewLinkStyle
  {
    LinksHook.AddLink(links, NewLinkDraft(links), id, now).0
  }

  // ---------------------------------------------------------------------------
  // Analytics
  // ---------------------------------------------------------------------------

  /** The number on the "Total Links" card. */
  function TotalLinks(links: seq<Link>): nat {
    |links|
  }

  /** `links.reduce((sum, link) => sum + link.clickCount, 0)`, folded from the left. */
  function TotalClicks(links: seq<Link>): (total: int)
    ensures (forall i :: 0 <= i < |links| ==> links[i].clickCount >= 0) ==> total >= 0
    decreases |links|
  {
    if |links| == 0 then 0 else TotalClicks(links[..|links| - 1]) + links[|links| - 1].clickCount
  }

  /** The reduce as the loop it is. */
  method SumClickCounts(links: seq<Link>) returns (sum: int)
    ensures sum == TotalClicks(links)
  {
    sum := 0;
    var i := 0;
    while i < |links|
      invariant 0 <= i <= |links|
      invariant sum == TotalClicks(links[..i])
    {
      assert links[..i + 1][..i] == links[..i];
      sum := sum + links[i].clickCount;
      i := i + 1;
    }
    assert links[..|links|] == links;
  }

  /** The total of a concatenation is the sum of the totals. */
  lemma {:induction false} TotalClicksAppend(a: seq<Link>, b: seq<Link>)
    ensures TotalClicks(a + b) == TotalClicks(a) + TotalClicks(b)
    decreases |b|
  {
    if |b| == 0 {
      assert a + b == a;
    } else {
      var b' := b[..|b| - 1];
      TotalClicksAppend(a, b');
      assert (a + b)[..|a + b| - 1] == a + b';
      assert (a + b)[|a + b| - 1] == b[|b| - 1];
    }
  }

  /** The total does not depend on the order of the links, so reordering or sorting them keeps it. */
  lemma {:induction false} TotalClicksPermutation(a: seq<Link>, b: seq<Link>)
    requires multiset(a) == multiset(b)
    ensures TotalClicks(a) == TotalClicks(b)
    decreases |a|
  {
    if |a| > 0 {
      var x := a[|a| - 1];
      var a' := a[..|a| - 1];
      assert a == a' + [x];
      assert x in multiset(b);
      var j :| 0 <= j < |b| && b[j] == x;
      var b' := b[..j] + b[j + 1..];
      assert b == b[..j] + [x] + b[j + 1..];
      assert multiset(b) == multiset(b[..j]) + multiset{x} + multiset(b[j + 1..]);
      assert multiset(a) == multiset(a') + multiset{x};
      assert multiset(b') == multiset(b[..j]) + multiset(b[j + 1..]);
      assert multiset(a') == multiset(a) - multiset{x};
      assert multiset(b') == multiset(b) - multiset{x};
      TotalClicksPermutation(a', b');
      TotalClicksAppend(b[..j] + [x], b[j + 1..]);
      TotalClicksAppend(b[..j], [x]);
      TotalClicksAppend(b[..j], b[j + 1..]);
      assert TotalClicks([x]) == x.clickCount by {
        assert [x][..0] == [];
      }
    }
  }

  /** Adding a link adds one to the link count and leaves the click total as it was. */
  lemma AddLinkKeepsClicks(links: seq<Link>, id: string, now: int)
    ensures TotalLinks(HandleAddLink(links, id, now)) == TotalLinks(links) + 1
    ensures TotalClicks(HandleAddLink(links, id, now)) == TotalClicks(links)
  {
    var r := HandleAddLink(links, id, now);
    assert r[..|r| - 1] == links;
  }

  /** With every count between 0 and `m`, the click total lies between 0 and `m` clicks per link. */
  lemma {:induction false} TotalClicksBounds(links: seq<Link>, m: int)
    requires forall i :: 0 <= i < |links| ==> 0 <= links[i].clickCount <= m
    ensures 0 <= TotalClicks(links) <= m * TotalLinks(links)
    decreases |links|
  {
    if |links| > 0 {
      var init := links[..|links| - 1];
      assert forall i :: 0 <= i < |init| ==> init[i] == links[i];
      TotalClicksBounds(init, m);
      assert m * TotalLinks(links) == m * TotalLinks(init) + m;
    }
  }

  /** A reorder that permutes the links succeeds, keeps the same links and both totals. */
  lemma ReorderKeepsTotals(links: seq<Link>, reordered: seq<Link>)
    requires multiset(reordered) == multiset(links)
    ensures LinksHook.ReorderLinks(links, reordered).1.success
    ensures multiset(LinksHook.ReorderLinks(links, reordered).0) == multiset(links)
    ensures TotalLinks(LinksHook.ReorderLinks(links, reordered).0) == TotalLinks(links)
    ensures TotalClicks(LinksHook.ReorderLinks(links, reordered).0) == TotalClicks(links)
  {
    assert |multiset(reordered)| == |multiset(links)|;
    TotalClicksPermutation(reordered, links);
  }
}
