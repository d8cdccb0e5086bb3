/** The public functions of the `profile` contract as a pure transition over the store. */
module ProfileContract {
  import opened Basics
  import opened Ledger

  /** The record `create-profile` stores for a new profile. */
  function NewProfile(id: nat, owner: Principal, username: string, displayName: string,
                      bio: Option<string>, avatarUrl: Option<string>): Profile
  {
    Profile(id, owner, username, displayName, bio, avatarUrl, false, None)
  }

  /** `create-profile`: fails with 102 when the username is taken or the caller already owns a profile;
      otherwise hands out the next profile id and indexes the new record by username and owner. */
  function CreateProfile(s: Store, caller: Principal, username: string, displayName: string,
                         bio: Option<string>, avatarUrl: Option<string>): (o: Outcome<nat>)
    ensures o.result.Err? <==> !IsUsernameAvailable(s, username) || caller in s.ownerIndex
    ensures o.result.Err? ==> o.result.code == ErrProfileExists && o.store == s
    ensures o.result.Ok? ==>
      var p := NewProfile(s.lastProfileId + 1, caller, username, displayName, bio, avatarUrl);
      && o.result.value == s.lastProfileId + 1
      && o.store.lastProfileId == o.result.value
      && GetProfileByUsername(o.store, username) == Some(p)
      && GetProfileByOwner(o.store, caller) == Some(p)
      && !IsUsernameAvailable(o.store, username)
      && o.store.profiles == s.profiles[o.result.value := p]
      && o.store.usernameIndex == s.usernameIndex[username := o.result.value]
      && o.store.ownerIndex == s.ownerIndex[caller := o.result.value]
      && o.store.links == s.links && o.store.lastLinkId == s.lastLinkId && o.store.admin == s.admin
      && o.store.anyCallerMayClick == s.anyCallerMayClick
  {
    if username in s.usernameIndex || caller in s.ownerIndex then
      Outcome(Err(ErrProfileExists), s)
    else
      var id := s.lastProfileId + 1;
      var p := NewProfile(id, caller, username, displayName, bio, avatarUrl);
      Outcome(Ok(id),
        s.(profiles := s.profiles[id := p],
           usernameIndex := s.usernameIndex[username := id],
           ownerIndex := s.ownerIndex[caller := id],
           lastProfileId := id))
  }

  /** `update-profile`: on the caller's own profile, replaces each supplied field and keeps the rest. */
  function UpdateProfile(s: Store, caller: Principal, displayName: Option<string>,
                         bio: Option<string>, avatarUrl: Option<string>): (o: Outcome<bool>)
    ensures o.result.Err? <==> GetProfileByOwner(s, caller).None?
    ensures o.result.Err? ==> o.result.code == ErrProfileNotFound && o.store == s
    ensures o.result.Ok? ==>
      var p := GetProfileByOwner(s, caller).value;
      && o.result.value == true
      && GetProfileByOwner(o.store, caller).Some?
      && var q := GetProfileByOwner(o.store, caller).value;
      && (displayName.Some? ==> q.displayName == displayName.value)
      && (displayName.None? ==> q.displayName == p.displayName)
      && (bio.Some? ==> q.bio == bio) && (bio.None? ==> q.bio == p.bio)
      && (avatarUrl.Some? ==> q.avatarUrl == avatarUrl) && (avatarUrl.None? ==> q.avatarUrl == p.avatarUrl)
      && q.id == p.id && q.owner == p.owner && q.username == p.username
      && q.isVerified == p.isVerified && q.theme == p.theme
      && o.store.profiles.Keys == s.profiles.Keys
      && (forall id :: id in s.profiles && id != s.ownerIndex[caller] ==> o.store.profiles[id] == s.profiles[id])
      && o.store.usernameIndex == s.usernameIndex && o.store.ownerIndex == s.ownerIndex
      && o.store.links == s.links
      && o.store == s.(profiles := o.store.profiles)
  {
    match GetProfileByOwner(s, caller)
    case None => Outcome(Err(ErrProfileNotFound), s)
    case Some(p) =>
      var q := p.(displayName := Patch(p.displayName, displayName),
                  bio := if bio.Some? then bio else p.bio,
                  avatarUrl := if avatarUrl.Some? then avatarUrl else p.avatarUrl);
      Outcome(Ok(true), s.(profiles := s.profiles[s.ownerIndex[caller] := q]))
  }

  /** `update-theme`: replaces the caller's whole theme at once. */
  function UpdateTheme(s: Store, caller: Principal, theme: Theme): (o: Outcome<bool>)
    ensures o.result.Err? <==> GetProfileByOwner(s, caller).None?
    ensures o.result.Err? ==> o.result.code == ErrProfileNotFound && o.store == s
    ensures o.result.Ok? ==>
      && o.result.value == true
      && GetProfileByOwner(o.store, caller) == Some(GetProfileByOwner(s, caller).value.(theme := Some(theme)))
      && o.store.profiles.Keys == s.profiles.Keys
      && (forall id :: id in s.profiles && id != s.ownerIndex[caller] ==> o.store.profiles[id] == s.profiles[id])
      && o.store.usernameIndex == s.usernameIndex && o.store.ownerIndex == s.ownerIndex
      && o.store.links == s.links
      && o.store == s.(profiles := o.store.profiles)
  {
    match GetProfileByOwner(s, caller)
    case None => Outcome(Err(ErrProfileNotFound), s)
    case Some(p) =>
      Outcome(Ok(true), s.(profiles := s.profiles[s.ownerIndex[caller] := p.(theme := Some(theme))]))
  }

  /** `verify-profile`: only the admin may call it (100 otherwise); marks the profile verified. */
  function VerifyProfile(s: Store, caller: Principal, profileId: nat): (o: Outcome<bool>)
    ensures caller != s.admin ==> o == Outcome(Err(ErrNotAuthorized), s)
    ensures caller == s.admin && profileId !in s.profiles ==> o == Outcome(Err(ErrProfileNotFound), s)
    ensures o.result.Ok? <==> caller == s.admin && profileId in s.profiles
    ensures o.result.Ok? ==>
      && o.result.value == true
      && GetProfile(o.store, profileId) == Some(s.profiles[profileId].(isVerified := true))
      && o.store.profiles.Keys == s.profiles.Keys
      && (forall id :: id in s.profiles && id != profileId ==> o.store.profiles[id] == s.profiles[id])
      && o.store.usernameIndex == s.usernameIndex && o.store.ownerIndex == s.ownerIndex
      && o.store.links == s.links
      && o.store == s.(profiles := o.store.profiles)
  {
    if caller != s.admin then Outcome(Err(ErrNotAuthorized), s)
    else if profileId !in s.profiles then Outcome(Err(ErrProfileNotFound), s)
    else
      var p := s.profiles[profileId];
      Outcome(Ok(true), s.(profiles := s.profiles[profileId := p.(isVerified := true)]))
  }

  // ---------------------------------------------------------------------------
  // The store invariant survives every profile function
  // ---------------------------------------------------------------------------

  /** On a valid store, a successful `create-profile` keeps every existing profile, and every other
      username and owner resolves as before. */
  lemma CreateProfileKeepsOthers(s: Store, caller: Principal, username: string, displayName: string,
                                 bio: Option<string>, avatarUrl: Option<string>)
    requires Valid(s)
    ensures var o := CreateProfile(s, caller, username, displayName, bio, avatarUrl);
      o.result.Ok? ==>
        && (forall id :: id in s.profiles ==> id in o.store.profiles && o.store.profiles[id] == s.profiles[id])
        && (forall u :: u != username ==> GetProfileByUsername(o.store, u) == GetProfileByUsername(s, u))
        && (forall w :: w != caller ==> GetProfileByOwner(o.store, w) == GetProfileByOwner(s, w))
  {
    var o := CreateProfile(s, caller, username, displayName, bio, avatarUrl);
    if o.result.Ok? {
      var id := o.result.value;
      assert id !in s.profiles;
      forall u | u != username
        ensures GetProfileByUsername(o.store, u) == GetProfileByUsername(s, u)
      {
        if u in s.usernameIndex {
          assert s.usernameIndex[u] in s.profiles;
        }
      }
      forall w | w != caller
        ensures GetProfileByOwner(o.store, w) == GetProfileByOwner(s, w)
      {
        if w in s.ownerIndex {
          assert s.ownerIndex[w] in s.profiles;
        }
      }
    }
  }

  lemma CreateProfileValid(s: Store, caller: Principal, username: string, displayName: string,
                           bio: Option<string>, avatarUrl: Option<string>)
    requires Valid(s)
    ensures Valid(CreateProfile(s, caller, username, displayName, bio, avatarUrl).store)
  {
    var o := CreateProfile(s, caller, username, displayName, bio, avatarUrl);
    if o.result.Ok? {
      var id := s.lastProfileId + 1;
      assert id !in s.profiles;
      var t := o.store;
      assert UsernameIndexValid(t) by {
        forall u | u in t.usernameIndex
          ensures t.usernameIndex[u] in t.profiles && t.profiles[t.usernameIndex[u]].username == u
        {
          if u != username {
            assert s.usernameIndex[u] in s.profiles && s.usernameIndex[u] != id;
          }
        }
      }
      assert OwnerIndexValid(t) by {
        forall a | a in t.ownerIndex
          ensures t.ownerIndex[a] in t.profiles && t.profiles[t.ownerIndex[a]].owner == a
        {
          if a != caller {
            assert s.ownerIndex[a] in s.profiles && s.ownerIndex[a] != id;
          }
        }
      }
    }
  }

  lemma UpdateProfileValid(s: Store, caller: Principal, displayName: Option<string>,
                           bio: Option<string>, avatarUrl: Option<string>)
    requires Valid(s)
    ensures Valid(UpdateProfile(s, caller, displayName, bio, avatarUrl).store)
  {
  }

  lemma UpdateThemeValid(s: Store, caller: Principal, theme: Theme)
    requires Valid(s)
    ensures Valid(UpdateTheme(s, caller, theme).store)
  {
  }

  lemma VerifyProfileValid(s: Store, caller: Principal, profileId: nat)
    requires Valid(s)
    ensures Valid(VerifyProfile(s, caller, profileId).store)
  {
  }

  // ---------------------------------------------------------------------------
  // Properties the profile tests pin down
  // ---------------------------------------------------------------------------

  /** The first profile on a fresh deployment gets id 1 (tests/profile_test.ts "Can create a new profile"). */
  lemma FirstProfileGetsIdOne(admin: Principal, anyCallerMayClick: bool, caller: Principal, username: string,
                              displayName: string, bio: Option<string>, avatarUrl: Option<string>)
    ensures CreateProfile(Deploy(admin, anyCallerMayClick), caller, username, displayName, bio, avatarUrl).result == Ok(1)
  {
  }

  /** Creating a profile and then looking its username up yields a profile with exactly the supplied
      username and display name, and the name stops being available. */
  lemma CreateThenLookup(s: Store, caller: Principal, username: string, displayName: string,
                         bio: Option<string>, avatarUrl: Option<string>)
    requires IsUsernameAvailable(s, username) && GetProfileByOwner(s, caller).None?
    requires Valid(s)
    ensures var t := CreateProfile(s, caller, username, displayName, bio, avatarUrl).store;
      && GetProfileByUsername(t, username).Some?
      && GetProfileByUsername(t, username).value.username == username
      && GetProfileByUsername(t, username).value.displayName == displayName
      && !IsUsernameAvailable(t, username)
  {
    assert caller !in s.ownerIndex;
  }

  /** A second `create-profile` by a caller who already owns a profile fails with 102 whatever username
      it asks for, and changes nothing. */
  lemma SecondProfileForOwnerRejected(s: Store, caller: Principal, username: string, displayName: string,
                                      bio: Option<string>, avatarUrl: Option<string>)
    requires Valid(s) && GetProfileByOwner(s, caller).Some?
    ensures CreateProfile(s, caller, username, displayName, bio, avatarUrl) == Outcome(Err(ErrProfileExists), s)
  {
  }

  /** A `create-profile` for a username some profile already holds fails with 102, whoever calls it. */
  lemma TakenUsernameRejected(s: Store, id: nat, caller: Principal, displayName: string,
                              bio: Option<string>, avatarUrl: Option<string>)
    requires Valid(s) && id in s.profiles
    ensures CreateProfile(s, caller, s.profiles[id].username, displayName, bio, avatarUrl)
         == Outcome(Err(ErrProfileExists), s)
  {
  }

  /** The admin can verify any stored profile; anyone else gets 100 and the store is untouched. */
  lemma OnlyAdminVerifies(s: Store, caller: Principal, profileId: nat)
    requires profileId in s.profiles
    ensures caller != s.admin ==> VerifyProfile(s, caller, profileId) == Outcome(Err(ErrNotAuthorized), s)
    ensures caller == s.admin ==>
      && VerifyProfile(s, caller, profileId).result == Ok(true)
      && GetProfile(VerifyProfile(s, caller, profileId).store, profileId).value.isVerified
  {
  }
}
