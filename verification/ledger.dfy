/** The on-chain record store that the `profile` and `links` contracts share, as their Clarinet tests
    exercise it: records, indexes, id counters, the admin identity, the error codes and the read-only queries. */
module Ledger {
  import opened Basics

  /** A transaction sender's address; compared only for equality. */
  type Principal = string

  /** `verify-profile` by anyone but the admin. */
  const ErrNotAuthorized: nat := 100
  /** No profile for the caller or the id. The tests never show this code: the value is a placeholder. */
  const ErrProfileNotFound: nat := 101
  /** `create-profile` with a taken username, or by a caller who already owns a profile. */
  const ErrProfileExists: nat := 102
  /** A link mutation by someone other than the link's creator. */
  const ErrNotLinkOwner: nat := 200
  /** No link with the id. The tests never show this code: the value is a placeholder. */
  const ErrLinkNotFound: nat := 201

  /** A profile theme as `update-theme` receives it: six ascii strings, button style and layout included. */
  datatype Theme = Theme(
    primaryColor: string,
    secondaryColor: string,
    backgroundColor: string,
    textColor: string,
    buttonStyle: string,
    layout: string)

  /** A profile record; `theme` is `None` until the first `update-theme`. */
  datatype Profile = Profile(
    id: nat,
    owner: Principal,
    username: string,
    displayName: string,
    bio: Option<string>,
    avatarUrl: Option<string>,
    isVerified: bool,
    theme: Option<Theme>)

  /** A link style as `create-link` and `update-link-style` receive it; radius and shadow are ascii names. */
  datatype LinkStyle = LinkStyle(
    backgroundColor: string,
    textColor: string,
    borderColor: Option<string>,
    borderWidth: nat,
    borderRadius: string,
    shadow: string)

  datatype Link = Link(
    id: nat,
    owner: Principal,
    title: string,
    url: string,
    description: Option<string>,
    icon: Option<string>,
    isActive: bool,
    clickCount: nat,
    style: LinkStyle)

  /** Both contracts' data: profiles with their username and owner indexes, links, and one id counter
      per record kind holding the last id handed out. `anyCallerMayClick` is a deployment choice the
      tests leave open: whether `increment-click-count` accepts callers other than the creator. */
  datatype Store = Store(
    admin: Principal,
    anyCallerMayClick: bool,
    profiles: map<nat, Profile>,
    usernameIndex: map<string, nat>,
    ownerIndex: map<Principal, nat>,
    lastProfileId: nat,
    links: map<nat, Link>,
    lastLinkId: nat)

  /** What a public function returns together with the store it leaves behind. */
  datatype Outcome<T> = Outcome(result: Result<T>, store: Store)

  /** The store right after deployment by `admin`. */
  function Deploy(admin: Principal, anyCallerMayClick: bool): (s: Store)
    ensures s.admin == admin && s.lastProfileId == 0 && s.lastLinkId == 0
    ensures forall u :: IsUsernameAvailable(s, u)
    ensures forall id :: GetLink(s, id).None?
  {
    Store(admin, anyCallerMayClick, map[], map[], map[], 0, map[], 0)
  }

  /** Every stored profile sits under its own id, which the counter has already handed out. */
  ghost predicate ProfileIdsValid(s: Store) {
    forall id :: id in s.profiles ==> 1 <= id <= s.lastProfileId && s.profiles[id].id == id
  }

  /** The username index maps exactly the stored usernames to their profiles. */
  ghost predicate UsernameIndexValid(s: Store) {
    && (forall id :: id in s.profiles ==>
          s.profiles[id].username in s.usernameIndex && s.usernameIndex[s.profiles[id].username] == id)
    && (forall u :: u in s.usernameIndex ==>
          s.usernameIndex[u] in s.profiles && s.profiles[s.usernameIndex[u]].username == u)
  }

  /** The owner index maps exactly the profile owners to their profiles. */
  ghost predicate OwnerIndexValid(s: Store) {
    && (forall id :: id in s.profiles ==>
          s.profiles[id].owner in s.ownerIndex && s.ownerIndex[s.profiles[id].owner] == id)
    && (forall a :: a in s.ownerIndex ==>
          s.ownerIndex[a] in s.profiles && s.profiles[s.ownerIndex[a]].owner == a)
  }

  /** Every stored link sits under its own id, which the counter has already handed out. */
  ghost predicate LinkIdsValid(s: Store) {
    forall id :: id in s.links ==> 1 <= id <= s.lastLinkId && s.links[id].id == id
  }

  ghost predicate Valid(s: Store) {
    ProfileIdsValid(s) && UsernameIndexValid(s) && OwnerIndexValid(s) && LinkIdsValid(s)
  }

  lemma DeployValid(admin: Principal, anyCallerMayClick: bool)
    ensures Valid(Deploy(admin, anyCallerMayClick))
  {
  }

  // ---------------------------------------------------------------------------
  // Read-only queries
  // ---------------------------------------------------------------------------

  function GetProfile(s: Store, id: nat): Option<Profile> {
    if id in s.profiles then Some(s.profiles[id]) else None
  }

  /** `get-profile-by-username`: follow the username index to the profile. */
  function GetProfileByUsername(s: Store, username: string): Option<Profile> {
    if username in s.usernameIndex then GetProfile(s, s.usernameIndex[username]) else None
  }

  /** `get-profile-by-owner`: follow the owner index to the profile. */
  function GetProfileByOwner(s: Store, owner: Principal): Option<Profile> {
    if owner in s.ownerIndex then GetProfile(s, s.ownerIndex[owner]) else None
  }

  /** `is-username-available`: the name is not in the username index. */
  predicate IsUsernameAvailable(s: Store, username: string) {
    username !in s.usernameIndex
  }

  /** `get-link`. */
  function GetLink(s: Store, id: nat): Option<Link> {
    if id in s.links then Some(s.links[id]) else None
  }

  /** A name is available exactly when no stored profile holds it. */
  lemma AvailableIffUnheld(s: Store, username: string)
    requires Valid(s)
    ensures IsUsernameAvailable(s, username) <==> (forall id :: id in s.profiles ==> s.profiles[id].username != username)
  {
    if !IsUsernameAvailable(s, username) {
      var id := s.usernameIndex[username];
      assert id in s.profiles && s.profiles[id].username == username;
    }
  }

  /** The username lookup finds a profile exactly when one holds the name, and it is that profile. */
  lemma LookupByUsername(s: Store, username: string)
    requires Valid(s)
    ensures GetProfileByUsername(s, username).Some? <==> !IsUsernameAvailable(s, username)
    ensures GetProfileByUsername(s, username).Some? ==> GetProfileByUsername(s, username).value.username == username
    ensures forall id :: id in s.profiles && s.profiles[id].username == username ==>
              GetProfileByUsername(s, username) == Some(s.profiles[id])
  {
  }

  /** The owner lookup finds the caller's profile exactly when the caller owns one. */
  lemma LookupByOwner(s: Store, owner: Principal)
    requires Valid(s)
    ensures GetProfileByOwner(s, owner).Some? <==> (exists id :: id in s.profiles && s.profiles[id].owner == owner)
    ensures GetProfileByOwner(s, owner).Some? ==> GetProfileByOwner(s, owner).value.owner == owner
  {
    if GetProfileByOwner(s, owner).Some? {
      var id := s.ownerIndex[owner];
      assert id in s.profiles && s.profiles[id].owner == owner;
    }
  }

  /** `get-link` finds at most the link stored under that id, and never one above the last id handed out. */
  lemma GetLinkById(s: Store, id: nat)
    requires Valid(s)
    ensures GetLink(s, id).Some? <==> id in s.links
    ensures GetLink(s, id).Some? ==> GetLink(s, id).value.id == id && 1 <= id <= s.lastLinkId
    ensures id == 0 || id > s.lastLinkId ==> GetLink(s, id).None?
  {
  }

  /** No two profiles share a username or an owner. */
  lemma ProfilesUnique(s: Store, i: nat, j: nat)
    requires Valid(s) && i in s.profiles && j in s.profiles && i != j
    ensures s.profiles[i].username != s.profiles[j].username
    ensures s.profiles[i].owner != s.profiles[j].owner
  {
  }
}
