/** The `useProfile` hook: the merge-patch of `updateProfile`, the placeholder `fetchProfile`, and the
    effect that fetches only when a username is given. */
module ProfileHook {
  import opened Basics
  import opened FrontendTypes

  /** `Partial<UserProfile>`: `None` is a key the update leaves out; for the optional fields an inner
      `None` is a key present with the value `undefined`. */
  datatype ProfilePatch = ProfilePatch(
    id: Option<string>,
    username: Option<string>,
    displayName: Option<string>,
    bio: Option<Option<string>>,
    avatar: Option<Option<string>>,
    isVerified: Option<bool>,
    walletAddress: Option<Option<string>>,
    theme: Option<ProfileTheme>,
    createdAt: Option<int>,
    updatedAt: Option<int>)

  const EmptyProfilePatch: ProfilePatch := ProfilePatch(None, None, None, None, None, None, None, None, None, None)

  datatype ProfileState = ProfileState(profile: Option<UserProfile>, isLoading: bool, error: Option<string>)

  /** `{ ...profile, ...updates, updatedAt: now }`: supplied keys override, then the time stamp overrides
      whatever the update said about `updatedAt`. */
  function MergeProfile(p: UserProfile, u: ProfilePatch, now: int): (q: UserProfile)
    ensures q.id == Patch(p.id, u.id) && q.username == Patch(p.username, u.username)
    ensures q.displayName == Patch(p.displayName, u.displayName)
    ensures q.bio == Patch(p.bio, u.bio) && q.avatar == Patch(p.avatar, u.avatar)
    ensures q.isVerified == Patch(p.isVerified, u.isVerified)
    ensures q.walletAddress == Patch(p.walletAddress, u.walletAddress)
    ensures q.theme == Patch(p.theme, u.theme) && q.createdAt == Patch(p.createdAt, u.createdAt)
    ensures q.updatedAt == now
  {
    UserProfile(u.id.GetOr(p.id), u.username.GetOr(p.username), u.displayName.GetOr(p.displayName),
                u.bio.GetOr(p.bio), u.avatar.GetOr(p.avatar), u.isVerified.GetOr(p.isVerified),
                u.walletAddress.GetOr(p.walletAddress), u.theme.GetOr(p.theme), u.createdAt.GetOr(p.createdAt),
                now)
  }

  /** `b`'s keys over `a`'s. */
  function ComposeProfilePatch(a: ProfilePatch, b: ProfilePatch): ProfilePatch {
    ProfilePatch(if b.id.Some? then b.id else a.id,
                 if b.username.Some? then b.username else a.username,
                 if b.displayName.Some? then b.displayName else a.displayName,
                 if b.bio.Some? then b.bio else a.bio,
                 if b.avatar.Some? then b.avatar else a.avatar,
                 if b.isVerified.Some? then b.isVerified else a.isVerified,
                 if b.walletAddress.Some? then b.walletAddress else a.walletAddress,
                 if b.theme.Some? then b.theme else a.theme,
                 if b.createdAt.Some? then b.createdAt else a.createdAt,
                 if b.updatedAt.Some? then b.updatedAt else a.updatedAt)
  }

  /** Two successive updates equal one update with the combined keys, stamped with the later time;
      an empty update only refreshes the time stamp. */
  lemma MergeProfileComposes(p: UserProfile, a: ProfilePatch, b: ProfilePatch, t1: int, t2: int)
    ensures MergeProfile(MergeProfile(p, a, t1), b, t2) == MergeProfile(p, ComposeProfilePatch(a, b), t2)
    ensures MergeProfile(p, EmptyProfilePatch, t1) == p.(updatedAt := t1)
  {
  }

  /** `updateProfile`: merges into the loaded profile; with none loaded the state stays empty, and the
      response is success either way. */
  function UpdateProfile(profile: Option<UserProfile>, u: ProfilePatch, now: int)
    : (r: (Option<UserProfile>, ApiResponse<UserProfile>))
    ensures profile.None? ==> r.0.None?
    ensures profile.Some? ==> r.0 == Some(MergeProfile(profile.value, u, now))
    ensures r.1.success && r.1.data.None? && r.1.error.None?
  {
    var next := if profile.Some? then Some(MergeProfile(profile.value, u, now)) else None;
    (next, Succeeded(None, "Profile updated successfully"))
  }

  const MockTheme: ProfileTheme := ProfileTheme("#F4D03F", "#87CEEB", "#FFFFFF", "#1B365D", Rounded, Centered)

  /** Midnight UTC of 2024-01-01 in milliseconds. */
  const Jan1: int := 1704067200000

  /** The placeholder bio. It ends in the four characters U+00F0 U+0178 U+0161 U+20AC, the UTF-8 bytes of a
      rocket emoji read back as Windows-1252, exactly as the source file spells it. */
  const MockBio: string := "Welcome to my StacksBio profile! \U{F0}\U{178}\U{161}\U{20AC}"

  /** The placeholder profile `fetchProfile` loads: fixed data around the requested username. */
  function MockProfile(username: string, now: int): (p: UserProfile)
    ensures p.username == username && p.updatedAt == now
  {
    UserProfile("1", username, "Demo User", Some(MockBio),
                Some("/lovable-uploads/9d360cba-aace-42bc-a717-084134c27d85.png"), true,
                Some("0x1234...5678"), MockTheme, Jan1, now)
  }

  /** `fetchProfile(name)`: ends, no longer loading and with no error, holding a profile for that name. */
  function FetchProfile(st: ProfileState, username: string, now: int): (r: ProfileState)
    ensures r.profile.Some? && r.profile.value.username == username
    ensures !r.isLoading && r.error.None?
  {
    ProfileState(Some(MockProfile(username, now)), false, None)
  }

  /** The hook's effect on a change of `username`: fetch only when one is given. */
  function OnUsername(st: ProfileState, username: Option<string>, now: int): (r: ProfileState)
    ensures !Present(username) ==> r == st
    ensures Present(username) ==> r.profile.Some? && r.profile.value.username == username.value
  {
    if Present(username) then FetchProfile(st, username.value, now) else st
  }
}
