/** Transactions against the two contracts and the mining of a block: the transactions of one block apply
    strictly in array order, each to the store the previous one left, and each yields one receipt. */
module Chain {
  import opened Basics
  import opened Clarity
  import opened Ledger
  import ProfileContract
  import LinksContract

  /** A public-function call with its arguments. */
  datatype Call =
    | CreateProfile(username: string, displayName: string, bio: Option<string>, avatarUrl: Option<string>)
    | UpdateProfile(newDisplayName: Option<string>, newBio: Option<string>, newAvatarUrl: Option<string>)
    | UpdateTheme(theme: Theme)
    | VerifyProfile(profileId: nat)
    | CreateLink(title: string, url: string, description: Option<string>, icon: Option<string>, style: LinkStyle)
    | UpdateLink(linkId: nat, newTitle: Option<string>, newUrl: Option<string>, newDescription: Option<string>,
                 newIcon: Option<string>, newIsActive: Option<bool>)
    | UpdateLinkStyle(linkId: nat, newStyle: LinkStyle)
    | DeleteLink(linkId: nat)
    | IncrementClickCount(linkId: nat)

  datatype Tx = Tx(sender: Principal, call: Call)

  /** A receipt: the response the transaction's public function returned. */
  type Receipt = Result<Value>

  datatype Block = Block(receipts: seq<Receipt>, store: Store)

  function UIntReceipt(o: Outcome<nat>): Receipt {
    match o.result
    case Ok(n) => Ok(UInt(n))
    case Err(c) => Err(c)
  }

  function BoolReceipt(o: Outcome<bool>): Receipt {
    match o.result
    case Ok(b) => Ok(Bool(b))
    case Err(c) => Err(c)
  }

  /** One transaction: dispatch to the contract function and wrap its response as a Clarity value. */
  function Step(s: Store, tx: Tx): (r: (Receipt, Store))
    ensures r.0.Err? ==> r.1 == s
  {
    var c := tx.sender;
    match tx.call
    case CreateProfile(u, d, b, a) =>
      var o := ProfileContract.CreateProfile(s, c, u, d, b, a); (UIntReceipt(o), o.store)
    case UpdateProfile(d, b, a) =>
      var o := ProfileContract.UpdateProfile(s, c, d, b, a); (BoolReceipt(o), o.store)
    case UpdateTheme(t) =>
      var o := ProfileContract.UpdateTheme(s, c, t); (BoolReceipt(o), o.store)
    case VerifyProfile(id) =>
      var o := ProfileContract.VerifyProfile(s, c, id); (BoolReceipt(o), o.store)
    case CreateLink(t, u, d, i, st) =>
      var o := LinksContract.CreateLink(s, c, t, u, d, i, st); (UIntReceipt(o), o.store)
    case UpdateLink(id, t, u, d, i, a) =>
      var o := LinksContract.UpdateLink(s, c, id, t, u, d, i, a); (BoolReceipt(o), o.store)
    case UpdateLinkStyle(id, st) =>
      var o := LinksContract.UpdateLinkStyle(s, c, id, st); (BoolReceipt(o), o.store)
    case DeleteLink(id) =>
      var o := LinksContract.DeleteLink(s, c, id); (BoolReceipt(o), o.store)
    case IncrementClickCount(id) =>
      var o := LinksContract.IncrementClickCount(s, c, id); (BoolReceipt(o), o.store)
  }

  /** `chain.mineBlock(txs)`: apply the transactions in array order, one receipt each. */
  function MineBlock(s: Store, txs: seq<Tx>): (b: Block)
    ensures |b.receipts| == |txs|
    decreases |txs|
  {
    if |txs| == 0 then Block([], s)
    else
      var (r, s1) := Step(s, txs[0]);
      var rest := MineBlock(s1, txs[1..]);
      Block([r] + rest.receipts, rest.store)
  }

  /** Mining two batches one after the other is mining their concatenation. */
  lemma {:induction false} MineBlockAppend(s: Store, a: seq<Tx>, b: seq<Tx>)
    ensures MineBlock(s, a + b).receipts == MineBlock(s, a).receipts + MineBlock(MineBlock(s, a).store, b).receipts
    ensures MineBlock(s, a + b).store == MineBlock(MineBlock(s, a).store, b).store
    decreases |a|
  {
    if |a| > 0 {
      var (r, s1) := Step(s, a[0]);
      assert (a + b)[0] == a[0];
      assert (a + b)[1..] == a[1..] + b;
      MineBlockAppend(s1, a[1..], b);
      var tailAB := MineBlock(s1, a[1..] + b);
      var tailA := MineBlock(s1, a[1..]);
      assert MineBlock(s, a + b) == Block([r] + tailAB.receipts, tailAB.store);
      assert MineBlock(s, a) == Block([r] + tailA.receipts, tailA.store);
    } else {
      assert a + b == b;
    }
  }

  /** The i-th receipt is what the i-th transaction returns on the store its predecessors left. */
  lemma MineBlockInOrder(s: Store, txs: seq<Tx>, i: nat)
    requires i < |txs|
    ensures MineBlock(s, txs).receipts[i] == Step(MineBlock(s, txs[..i]).store, txs[i]).0
  {
    assert txs == txs[..i] + txs[i..];
    MineBlockAppend(s, txs[..i], txs[i..]);
  }

  lemma StepValid(s: Store, tx: Tx)
    requires Valid(s)
    ensures Valid(Step(s, tx).1)
  {
    var c := tx.sender;
    match tx.call
    case CreateProfile(u, d, b, a) => ProfileContract.CreateProfileValid(s, c, u, d, b, a);
    case UpdateProfile(d, b, a) => ProfileContract.UpdateProfileValid(s, c, d, b, a);
    case UpdateTheme(t) => ProfileContract.UpdateThemeValid(s, c, t);
    case VerifyProfile(id) => ProfileContract.VerifyProfileValid(s, c, id);
    case CreateLink(t, u, d, i, st) => LinksContract.CreateLinkValid(s, c, t, u, d, i, st);
    case UpdateLink(id, t, u, d, i, a) => LinksContract.UpdateLinkValid(s, c, id, t, u, d, i, a);
    case UpdateLinkStyle(id, st) => LinksContract.UpdateLinkStyleValid(s, c, id, st);
    case DeleteLink(id) => LinksContract.DeleteLinkValid(s, c, id);
    case IncrementClickCount(id) => LinksContract.IncrementClickCountValid(s, c, id);
  }

  /** Every block keeps the store invariant: ids under their keys, both indexes exact. */
  lemma {:induction false} MineBlockValid(s: Store, txs: seq<Tx>)
    requires Valid(s)
    ensures Valid(MineBlock(s, txs).store)
    decreases |txs|
  {
    if |txs| > 0 {
      StepValid(s, txs[0]);
      MineBlockValid(Step(s, txs[0]).1, txs[1..]);
    }
  }

  lemma StepMonotone(s: Store, tx: Tx)
    ensures var t := Step(s, tx).1;
      t.lastProfileId >= s.lastProfileId && t.lastLinkId >= s.lastLinkId && t.admin == s.admin
  {
    var c := tx.sender;
    match tx.call
    case CreateProfile(u, d, b, a) => assert Step(s, tx).1 == ProfileContract.CreateProfile(s, c, u, d, b, a).store;
    case UpdateProfile(d, b, a) => assert Step(s, tx).1 == ProfileContract.UpdateProfile(s, c, d, b, a).store;
    case UpdateTheme(t) => assert Step(s, tx).1 == ProfileContract.UpdateTheme(s, c, t).store;
    case VerifyProfile(id) => assert Step(s, tx).1 == ProfileContract.VerifyProfile(s, c, id).store;
    case CreateLink(t, u, d, i, st) => assert Step(s, tx).1 == LinksContract.CreateLink(s, c, t, u, d, i, st).store;
    case UpdateLink(id, t, u, d, i, a) => assert Step(s, tx).1 == LinksContract.UpdateLink(s, c, id, t, u, d, i, a).store;
    case UpdateLinkStyle(id, st) => assert Step(s, tx).1 == LinksContract.UpdateLinkStyle(s, c, id, st).store;
    case DeleteLink(id) => assert Step(s, tx).1 == LinksContract.DeleteLink(s, c, id).store;
    case IncrementClickCount(id) => assert Step(s, tx).1 == LinksContract.IncrementClickCount(s, c, id).store;
  }

  /** Neither id counter ever goes back, and the admin never changes. */
  lemma {:induction false} MineBlockMonotone(s: Store, txs: seq<Tx>)
    ensures var t := MineBlock(s, txs).store;
      t.lastProfileId >= s.lastProfileId && t.lastLinkId >= s.lastLinkId && t.admin == s.admin
    decreases |txs|
  {
    if |txs| > 0 {
      var (r, s1) := Step(s, txs[0]);
      StepMonotone(s, txs[0]);
      MineBlockMonotone(s1, txs[1..]);
      assert MineBlock(s, txs).store == MineBlock(s1, txs[1..]).store;
    }
  }

  /** A deleted link's id is never handed out again: after the deletion, whatever blocks follow,
      the next `create-link`, by any caller, returns a different id. */
  lemma DeletedLinkIdNotReused(s: Store, caller: Principal, linkId: nat, later: seq<Tx>, creator: Principal,
                               title: string, url: string, description: Option<string>,
                               icon: Option<string>, style: LinkStyle)
    requires Valid(s) && LinksContract.DeleteLink(s, caller, linkId).result.Ok?
    ensures var t := MineBlock(LinksContract.DeleteLink(s, caller, linkId).store, later).store;
      LinksContract.CreateLink(t, creator, title, url, description, icon, style).result.value != linkId
  {
    MineBlockMonotone(LinksContract.DeleteLink(s, caller, linkId).store, later);
  }

  // ---------------------------------------------------------------------------
  // Blocks from the profile tests
  // ---------------------------------------------------------------------------

  /** Two `create-profile` calls for the same username in one block: the first listed wins with the next id,
      the second fails with 102 (tests/profile_test.ts "Cannot create profile with duplicate username"). */
  lemma SameUsernameFirstWins(s: Store, a: Principal, b: Principal, username: string, d1: string, d2: string)
    requires Valid(s) && IsUsernameAvailable(s, username) && GetProfileByOwner(s, a).None?
    ensures MineBlock(s, [Tx(a, CreateProfile(username, d1, None, None)), Tx(b, CreateProfile(username, d2, None, None))]).receipts
         == [Ok(UInt(s.lastProfileId + 1)), Err(ErrProfileExists)]
  {
    assert a !in s.ownerIndex;
    var txs := [Tx(a, CreateProfile(username, d1, None, None)), Tx(b, CreateProfile(username, d2, None, None))];
    var s1 := Step(s, txs[0]).1;
    assert !IsUsernameAvailable(s1, username);
    assert txs[1..] == [txs[1]];
  }

  /** Two `create-profile` calls by the same sender in one block: the second fails with 102 even for a
      different username (tests/profile_test.ts "Cannot create multiple profiles for same user"). */
  lemma SameOwnerFirstWins(s: Store, a: Principal, u1: string, u2: string, d1: string, d2: string)
    requires Valid(s) && IsUsernameAvailable(s, u1) && GetProfileByOwner(s, a).None?
    ensures MineBlock(s, [Tx(a, CreateProfile(u1, d1, None, None)), Tx(a, CreateProfile(u2, d2, None, None))]).receipts
         == [Ok(UInt(s.lastProfileId + 1)), Err(ErrProfileExists)]
  {
    assert a !in s.ownerIndex;
    var txs := [Tx(a, CreateProfile(u1, d1, None, None)), Tx(a, CreateProfile(u2, d2, None, None))];
    assert txs[1..] == [txs[1]];
  }

  /** On a fresh deployment those blocks return exactly `(ok u1)` then `(err u102)`. */
  lemma FreshDuplicateBlocks(admin: Principal, clicks: bool, a: Principal, b: Principal, u1: string, u2: string)
    ensures var s := Deploy(admin, clicks);
      && MineBlock(s, [Tx(a, CreateProfile(u1, "Test User 1", None, None)), Tx(b, CreateProfile(u1, "Test User 2", None, None))]).receipts
         == [Ok(UInt(1)), Err(102)]
      && MineBlock(s, [Tx(a, CreateProfile(u1, "Test User 1", None, None)), Tx(a, CreateProfile(u2, "Test User 2", None, None))]).receipts
         == [Ok(UInt(1)), Err(102)]
  {
    DeployValid(admin, clicks);
    SameUsernameFirstWins(Deploy(admin, clicks), a, b, u1, "Test User 1", "Test User 2");
    SameOwnerFirstWins(Deploy(admin, clicks), a, u1, u2, "Test User 1", "Test User 2");
  }

  /** After one profile block, the creator's `update-profile` and `update-theme` blocks return `(ok true)`,
      while `verify-profile` returns `(err u100)` for a non-admin and `(ok true)` for the admin
      (tests/profile_test.ts "Can update profile information", "Can update profile theme",
      "Only contract owner can verify profiles"). */
  lemma ProfileLifecycle(admin: Principal, clicks: bool, w1: Principal, w2: Principal, username: string,
                         displayName: string, patch: Call, theme: Theme)
    requires w2 != admin && patch.UpdateProfile?
    ensures var s0 := Deploy(admin, clicks);
      var b1 := MineBlock(s0, [Tx(w1, CreateProfile(username, displayName, None, None))]);
      && b1.receipts == [Ok(UInt(1))]
      && MineBlock(b1.store, [Tx(w1, patch)]).receipts == [Ok(Bool(true))]
      && MineBlock(b1.store, [Tx(w1, UpdateTheme(theme))]).receipts == [Ok(Bool(true))]
      && MineBlock(b1.store, [Tx(w2, VerifyProfile(1))]).receipts == [Err(ErrNotAuthorized)]
      && MineBlock(MineBlock(b1.store, [Tx(w2, VerifyProfile(1))]).store, [Tx(admin, VerifyProfile(1))]).receipts
         == [Ok(Bool(true))]
  {
  }

  // ---------------------------------------------------------------------------
  // Blocks from the links tests
  // ---------------------------------------------------------------------------

  /** After one `create-link` block by `w1` (which returns `(ok u1)` with no profile anywhere), the creator's
      update, restyle, click and delete blocks return `(ok true)`, another sender's update and delete return
      `(err u200)`, and `get-link` finds the link until it is deleted (tests/links_test.ts). */
  lemma LinkLifecycle(admin: Principal, clicks: bool, w1: Principal, w2: Principal, title: string, url: string,
                      style: LinkStyle, newStyle: LinkStyle, t: Option<string>, u: Option<string>,
                      d: Option<string>, i: Option<string>, a: Option<bool>)
    requires w1 != w2
    ensures var s0 := Deploy(admin, clicks);
      var b1 := MineBlock(s0, [Tx(w1, CreateLink(title, url, None, None, style))]);
      var s1 := b1.store;
      && b1.receipts == [Ok(UInt(1))]
      && GetLink(s1, 1).Some?
      && MineBlock(s1, [Tx(w1, UpdateLink(1, t, u, d, i, a))]).receipts == [Ok(Bool(true))]
      && MineBlock(s1, [Tx(w1, UpdateLinkStyle(1, newStyle))]).receipts == [Ok(Bool(true))]
      && MineBlock(s1, [Tx(w1, IncrementClickCount(1))]).receipts == [Ok(Bool(true))]
      && MineBlock(s1, [Tx(w1, DeleteLink(1))]).receipts == [Ok(Bool(true))]
      && GetLink(MineBlock(s1, [Tx(w1, DeleteLink(1))]).store, 1).None?
      && MineBlock(s1, [Tx(w2, UpdateLink(1, t, None, None, None, None))]).receipts == [Err(ErrNotLinkOwner)]
      && MineBlock(s1, [Tx(w2, DeleteLink(1))]).receipts == [Err(ErrNotLinkOwner)]
  {
  }
}
