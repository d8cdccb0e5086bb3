/** The profile calls of the client are placeholders that answer without asking the chain. This module
    states, against the store, exactly when each placeholder's answer agrees with the one the `profile`
    contract would give. */
module StacksPlaceholders {
  import opened Basics
  import opened Ledger
  import opened ProfileContract

  /** A query reply: whether the call succeeded, and the value (`null` as `None`). */
  datatype QueryReply = QueryReply(success: bool, value: Option<bool>)

  /** A transaction reply: whether it was sent, and its transaction id. */
  datatype TxReply = TxReply(success: bool, txId: string)

  /** `isUsernameAvailable`: reports every name as available, whatever its argument. */
  function IsUsernameAvailableStub(): QueryReply {
    QueryReply(true, Some(true))
  }

  /** `getProfileByUsername` and `getProfileByOwner`: both report a failed lookup with a null value,
      whatever their argument. */
  function ProfileLookupStub(): QueryReply {
    QueryReply(false, None)
  }

  /** `createProfile`, `updateProfile` and `updateTheme`: each reports a sent transaction with a mock id. */
  function ProfileTxStub(): TxReply {
    TxReply(true, "mock-tx-id")
  }

  /** The availability placeholder succeeds, and its answer is the contract's exactly for names no stored
      profile holds. */
  lemma AvailabilityPlaceholder(s: Store, username: string)
    requires Valid(s)
    ensures IsUsernameAvailableStub().success
    ensures IsUsernameAvailableStub().value == Some(IsUsernameAvailable(s, username))
            <==> (forall id :: id in s.profiles ==> s.profiles[id].username != username)
  {
    AvailableIffUnheld(s, username);
  }

  /** The lookup placeholders fail with null; null is the contract's answer exactly when the name is free,
      respectively exactly when the owner has no profile. */
  lemma LookupPlaceholder(s: Store, username: string, owner: Principal)
    requires Valid(s)
    ensures !ProfileLookupStub().success && ProfileLookupStub().value.None?
    ensures ProfileLookupStub().value.None? == GetProfileByUsername(s, username).None?
            <==> IsUsernameAvailable(s, username)
    ensures ProfileLookupStub().value.None? == GetProfileByOwner(s, owner).None?
            <==> (forall id :: id in s.profiles ==> s.profiles[id].owner != owner)
  {
    LookupByUsername(s, username);
    LookupByOwner(s, owner);
  }

  /** The create placeholder reports success, which agrees with `create-profile` exactly when the name is
      free and the caller has no profile yet. */
  lemma CreatePlaceholder(s: Store, caller: Principal, username: string, displayName: string,
                          bio: Option<string>, avatarUrl: Option<string>)
    ensures ProfileTxStub().success && ProfileTxStub().txId == "mock-tx-id"
    ensures ProfileTxStub().success == CreateProfile(s, caller, username, displayName, bio, avatarUrl).result.Ok?
            <==> IsUsernameAvailable(s, username) && caller !in s.ownerIndex
  {
  }

  /** The update placeholders report success, which agrees with `update-profile` and `update-theme`
      exactly when the caller owns a profile. */
  lemma UpdatePlaceholder(s: Store, caller: Principal, displayName: Option<string>,
                          bio: Option<string>, avatarUrl: Option<string>, theme: Theme)
    ensures ProfileTxStub().success == UpdateProfile(s, caller, displayName, bio, avatarUrl).result.Ok?
            <==> GetProfileByOwner(s, caller).Some?
    ensures ProfileTxStub().success == UpdateTheme(s, caller, theme).result.Ok?
            <==> GetProfileByOwner(s, caller).Some?
  {
  }
}
