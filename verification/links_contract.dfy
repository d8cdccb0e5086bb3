/** The public functions of the `links` contract as a pure transition over the store. Link creation
    never consults the profile records. */
module LinksContract {
  import opened Basics
  import opened Ledger

  /** `create-link`: hands out the next link id and stores an active link with no clicks, owned by the caller. */
  function CreateLink(s: Store, caller: Principal, title: string, url: string, description: Option<string>,
                      icon: Option<string>, style: LinkStyle): (o: Outcome<nat>)
    ensures o.result == Ok(s.lastLinkId + 1) && o.store.lastLinkId == s.lastLinkId + 1
    ensures GetLink(o.store, o.result.value) == Some(Link(o.result.value, caller, title, url, description, icon, true, 0, style))
    ensures forall id :: id != o.result.value ==> GetLink(o.store, id) == GetLink(s, id)
    ensures o.store.profiles == s.profiles && o.store.usernameIndex == s.usernameIndex
    ensures o.store.ownerIndex == s.ownerIndex && o.store.lastProfileId == s.lastProfileId
    ensures o.store == s.(links := o.store.links, lastLinkId := o.store.lastLinkId)
  {
    var id := s.lastLinkId + 1;
    var link := Link(id, caller, title, url, description, icon, true, 0, style);
    Outcome(Ok(id), s.(links := s.links[id := link], lastLinkId := id))
  }

  /** The shared gate of the owner-only link functions: the link must exist and the caller must own it. */
  function OwnerGate(s: Store, caller: Principal, linkId: nat): (r: Option<nat>)
    ensures r.None? <==> linkId in s.links && s.links[linkId].owner == caller
    ensures linkId !in s.links ==> r == Some(ErrLinkNotFound)
    ensures linkId in s.links && s.links[linkId].owner != caller ==> r == Some(ErrNotLinkOwner)
  {
    if linkId !in s.links then Some(ErrLinkNotFound)
    else if s.links[linkId].owner != caller then Some(ErrNotLinkOwner)
    else None
  }

  /** `update-link`: the creator replaces each supplied field and keeps the rest. */
  function UpdateLink(s: Store, caller: Principal, linkId: nat, title: Option<string>, url: Option<string>,
                      description: Option<string>, icon: Option<string>, isActive: Option<bool>): (o: Outcome<bool>)
    ensures o.result.Err? <==> OwnerGate(s, caller, linkId).Some?
    ensures o.result.Err? ==> o.result.code == OwnerGate(s, caller, linkId).value && o.store == s
    ensures o.result.Ok? ==>
      var l := s.links[linkId];
      && o.result.value == true
      && GetLink(o.store, linkId).Some?
      && var m := GetLink(o.store, linkId).value;
      && (title.Some? ==> m.title == title.value) && (title.None? ==> m.title == l.title)
      && (url.Some? ==> m.url == url.value) && (url.None? ==> m.url == l.url)
      && (description.Some? ==> m.description == description) && (description.None? ==> m.description == l.description)
      && (icon.Some? ==> m.icon == icon) && (icon.None? ==> m.icon == l.icon)
      && (isActive.Some? ==> m.isActive == isActive.value) && (isActive.None? ==> m.isActive == l.isActive)
      && m.id == l.id && m.owner == l.owner && m.clickCount == l.clickCount && m.style == l.style
      && (forall id :: id != linkId ==> GetLink(o.store, id) == GetLink(s, id))
      && o.store == s.(links := o.store.links)
  {
    if OwnerGate(s, caller, linkId).Some? then Outcome(Err(OwnerGate(s, caller, linkId).value), s)
    else
      var l := s.links[linkId];
      var m := l.(title := Patch(l.title, title),
                  url := Patch(l.url, url),
                  description := if description.Some? then description else l.description,
                  icon := if icon.Some? then icon else l.icon,
                  isActive := Patch(l.isActive, isActive));
      Outcome(Ok(true), s.(links := s.links[linkId := m]))
  }

  /** `update-link-style`: the creator replaces the whole style at once. */
  function UpdateLinkStyle(s: Store, caller: Principal, linkId: nat, style: LinkStyle): (o: Outcome<bool>)
    ensures o.result.Err? <==> OwnerGate(s, caller, linkId).Some?
    ensures o.result.Err? ==> o.result.code == OwnerGate(s, caller, linkId).value && o.store == s
    ensures o.result.Ok? ==>
      && o.result.value == true
      && GetLink(o.store, linkId) == Some(s.links[linkId].(style := style))
      && (forall id :: id != linkId ==> GetLink(o.store, id) == GetLink(s, id))
      && o.store == s.(links := o.store.links)
  {
    if OwnerGate(s, caller, linkId).Some? then Outcome(Err(OwnerGate(s, caller, linkId).value), s)
    else Outcome(Ok(true), s.(links := s.links[linkId := s.links[linkId].(style := style)]))
  }

  /** `delete-link`: the creator removes the link; the id stays retired. */
  function DeleteLink(s: Store, caller: Principal, linkId: nat): (o: Outcome<bool>)
    ensures o.result.Err? <==> OwnerGate(s, caller, linkId).Some?
    ensures o.result.Err? ==> o.result.code == OwnerGate(s, caller, linkId).value && o.store == s
    ensures o.result.Ok? ==>
      && o.result.value == true
      && GetLink(o.store, linkId).None?
      && (forall id :: id != linkId ==> GetLink(o.store, id) == GetLink(s, id))
      && o.store == s.(links := o.store.links)
  {
    if OwnerGate(s, caller, linkId).Some? then Outcome(Err(OwnerGate(s, caller, linkId).value), s)
    else Outcome(Ok(true), s.(links := s.links - {linkId}))
  }

  /** `increment-click-count`: adds one click to an existing link. The creator may always call it;
      other callers only when the deployment admits them. */
  function IncrementClickCount(s: Store, caller: Principal, linkId: nat): (o: Outcome<bool>)
    ensures linkId !in s.links ==> o == Outcome(Err(ErrLinkNotFound), s)
    ensures linkId in s.links && s.links[linkId].owner == caller ==> o.result == Ok(true)
    ensures linkId in s.links && s.links[linkId].owner != caller && !s.anyCallerMayClick ==>
              o == Outcome(Err(ErrNotLinkOwner), s)
    ensures o.result.Err? ==> o.store == s
    ensures o.result.Ok? ==>
      && linkId in s.links
      && GetLink(o.store, linkId) == Some(s.links[linkId].(clickCount := s.links[linkId].clickCount + 1))
      && (forall id :: id != linkId ==> GetLink(o.store, id) == GetLink(s, id))
      && o.store == s.(links := o.store.links)
  {
    if linkId !in s.links then Outcome(Err(ErrLinkNotFound), s)
    else if s.links[linkId].owner != caller && !s.anyCallerMayClick then Outcome(Err(ErrNotLinkOwner), s)
    else
      var l := s.links[linkId];
      Outcome(Ok(true), s.(links := s.links[linkId := l.(clickCount := l.clickCount + 1)]))
  }

  // ---------------------------------------------------------------------------
  // The store invariant survives every links function
  // ---------------------------------------------------------------------------

  lemma CreateLinkValid(s: Store, caller: Principal, title: string, url: string, description: Option<string>,
                        icon: Option<string>, style: LinkStyle)
    requires Valid(s)
    ensures Valid(CreateLink(s, caller, title, url, description, icon, style).store)
  {
  }

  lemma UpdateLinkValid(s: Store, caller: Principal, linkId: nat, title: Option<string>, url: Option<string>,
                        description: Option<string>, icon: Option<string>, isActive: Option<bool>)
    requires Valid(s)
    ensures Valid(UpdateLink(s, caller, linkId, title, url, description, icon, isActive).store)
  {
  }

  lemma UpdateLinkStyleValid(s: Store, caller: Principal, linkId: nat, style: LinkStyle)
    requires Valid(s)
    ensures Valid(UpdateLinkStyle(s, caller, linkId, style).store)
  {
  }

  lemma DeleteLinkValid(s: Store, caller: Principal, linkId: nat)
    requires Valid(s)
    ensures Valid(DeleteLink(s, caller, linkId).store)
  {
  }

  lemma IncrementClickCountValid(s: Store, caller: Principal, linkId: nat)
    requires Valid(s)
    ensures Valid(IncrementClickCount(s, caller, linkId).store)
  {
  }

  // ---------------------------------------------------------------------------
  // Properties the links tests pin down
  // ---------------------------------------------------------------------------

  /** The first link on a fresh deployment gets id 1, although its creator has no profile
      (tests/links_test.ts "Can create a new link"). */
  lemma FirstLinkNeedsNoProfile(admin: Principal, anyCallerMayClick: bool, caller: Principal, title: string,
                                url: string, description: Option<string>, icon: Option<string>, style: LinkStyle)
    ensures GetProfileByOwner(Deploy(admin, anyCallerMayClick), caller).None?
    ensures CreateLink(Deploy(admin, anyCallerMayClick), caller, title, url, description, icon, style).result == Ok(1)
  {
  }

  /** A caller other than the creator cannot update, restyle or delete a link: 200, store unchanged. */
  lemma NonOwnerRejected(s: Store, caller: Principal, linkId: nat, title: Option<string>, url: Option<string>,
                         description: Option<string>, icon: Option<string>, isActive: Option<bool>, style: LinkStyle)
    requires linkId in s.links && s.links[linkId].owner != caller
    ensures UpdateLink(s, caller, linkId, title, url, description, icon, isActive) == Outcome(Err(ErrNotLinkOwner), s)
    ensures UpdateLinkStyle(s, caller, linkId, style) == Outcome(Err(ErrNotLinkOwner), s)
    ensures DeleteLink(s, caller, linkId) == Outcome(Err(ErrNotLinkOwner), s)
  {
  }

  /** The creator's own mutations of an existing link succeed with `true`. */
  lemma OwnerSucceeds(s: Store, linkId: nat, title: Option<string>, url: Option<string>,
                      description: Option<string>, icon: Option<string>, isActive: Option<bool>, style: LinkStyle)
    requires linkId in s.links
    ensures var owner := s.links[linkId].owner;
      && UpdateLink(s, owner, linkId, title, url, description, icon, isActive).result == Ok(true)
      && UpdateLinkStyle(s, owner, linkId, style).result == Ok(true)
      && DeleteLink(s, owner, linkId).result == Ok(true)
      && IncrementClickCount(s, owner, linkId).result == Ok(true)
  {
  }

  /** Each successful increment adds exactly one click and touches nothing else. */
  lemma IncrementAddsOne(s: Store, caller: Principal, linkId: nat)
    requires IncrementClickCount(s, caller, linkId).result.Ok?
    ensures var t := IncrementClickCount(s, caller, linkId).store;
      && GetLink(t, linkId).Some? && GetLink(t, linkId).value.clickCount == s.links[linkId].clickCount + 1
      && GetLink(t, linkId).value.(clickCount := 0) == s.links[linkId].(clickCount := 0)
  {
  }

  /** Creating a link and then looking up the returned id finds it (tests/links_test.ts "Can get link by ID"). */
  lemma CreateThenGet(s: Store, caller: Principal, title: string, url: string, description: Option<string>,
                      icon: Option<string>, style: LinkStyle)
    ensures var o := CreateLink(s, caller, title, url, description, icon, style);
      GetLink(o.store, o.result.value).Some? && GetLink(o.store, o.result.value).value.owner == caller
  {
  }

  /** After the creator deletes a link, looking it up yields none (tests/links_test.ts "Can delete a link"). */
  lemma DeleteThenGet(s: Store, linkId: nat)
    requires linkId in s.links
    ensures var o := DeleteLink(s, s.links[linkId].owner, linkId);
      o.result == Ok(true) && GetLink(o.store, linkId).None?
  {
  }
}
