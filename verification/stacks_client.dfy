/** The client-side contract-call builders: which Clarity arguments each request sends, in which order,
    to which contract, and how the contract reads them back. */
module StacksClient {
  import opened Basics
  import opened Clarity

  // ---------------------------------------------------------------------------
  // Contract identifiers
  // ---------------------------------------------------------------------------

  /** The deployer address of the default identifiers. */
  const DefaultDeployer: string := "ST1PQHQKV0RJXZFY1DGX8MNSNYVE3VGZJSRTPGZGM"
  const DefaultProfileContract: string := DefaultDeployer + ".profile"
  const DefaultLinksContract: string := DefaultDeployer + ".links"
  const DefaultAnalyticsContract: string := DefaultDeployer + ".analytics"

  /** `env || fallback`: an unset or empty environment variable falls back to the default identifier. */
  function ConfiguredContract(env: Option<string>, fallback: string): (id: string)
    ensures Present(env) ==> id == env.value
    ensures !Present(env) ==> id == fallback
  {
    if Present(env) then env.value else fallback
  }

  /** JavaScript's `s.split(sep)`: the maximal separator-free segments of `s`, in order. */
  function Split(s: string, sep: char): (parts: seq<string>)
    ensures |parts| >= 1
    decreases |s|
  {
    if |s| == 0 then [""]
    else
      var rest := Split(s[1..], sep);
      if s[0] == sep then [""] + rest
      else [[s[0]] + rest[0]] + rest[1..]
  }

  /** The first segment is the longest separator-free prefix; the rest are the segments after it. */
  lemma {:induction false} SplitHead(s: string, sep: char)
    ensures var parts := Split(s, sep);
      && parts[0] <= s && sep !in parts[0]
      && (|parts| == 1 <==> sep !in s)
      && (|parts| == 1 ==> parts[0] == s)
      && (|parts| > 1 ==> |parts[0]| < |s| && s[|parts[0]|] == sep && parts[1..] == Split(s[|parts[0]| + 1..], sep))
    decreases |s|
  {
    if sep !in s {
      SingleSegment(s, sep);
    }
    if |s| > 0 {
      SplitHead(s[1..], sep);
      var rest := Split(s[1..], sep);
      if s[0] != sep {
        assert s[1..][..|rest[0]|] == rest[0];
        assert s[..|rest[0]| + 1] == [s[0]] + rest[0];
        if |rest| > 1 {
          assert s[|rest[0]| + 2..] == s[1..][|rest[0]| + 1..];
        }
        assert sep !in s[1..] ==> sep !in s;
        assert sep in s[1..] ==> sep in s by {
          if sep in s[1..] {
            var i :| 0 <= i < |s[1..]| && s[1..][i] == sep;
            assert s[i + 1] == sep;
          }
        }
      } else {
        assert sep in s;
      }
    }
  }

  /** Joining segments back with the separator. */
  function Join(parts: seq<string>, sep: char): string
    requires |parts| >= 1
  {
    if |parts| == 1 then parts[0] else parts[0] + [sep] + Join(parts[1..], sep)
  }

  /** Splitting loses nothing: joining the segments with the separator restores the string. */
  lemma {:induction false} JoinSplit(s: string, sep: char)
    ensures Join(Split(s, sep), sep) == s
    decreases |s|
  {
    var parts := Split(s, sep);
    SplitHead(s, sep);
    if |parts| > 1 {
      var k := |parts[0]|;
      JoinSplit(s[k + 1..], sep);
      assert parts[1..] == Split(s[k + 1..], sep);
      assert s == s[..k] + [sep] + s[k + 1..];
      assert s[..k] == parts[0];
    } else {
      assert parts[0] == s by {
        SingleSegment(s, sep);
      }
    }
  }

  /** A separator-free string is its own single segment. */
  lemma {:induction false} SingleSegment(s: string, sep: char)
    requires sep !in s
    ensures Split(s, sep) == [s]
    decreases |s|
  {
    if |s| > 0 {
      assert sep !in s[1..];
      SingleSegment(s[1..], sep);
      assert [s[0]] + s[1..] == s;
    }
  }

  /** Splitting a separator-free prefix followed by a separator and a tail. */
  lemma {:induction false} SplitAfterSegment(a: string, sep: char, t: string)
    requires sep !in a
    ensures Split(a + [sep] + t, sep) == [a] + Split(t, sep)
    decreases |a|
  {
    if |a| > 0 {
      assert (a + [sep] + t)[0] == a[0] && a[0] != sep;
      assert (a + [sep] + t)[1..] == a[1..] + [sep] + t;
      assert sep !in a[1..];
      SplitAfterSegment(a[1..], sep, t);
      assert [a[0]] + a[1..] == a;
    } else {
      assert a + [sep] + t == [sep] + t;
      assert ([sep] + t)[1..] == t;
    }
  }

  /** `id.split('.')[0]`: the contract's deployer address. */
  function ContractAddress(id: string): (addr: string)
    ensures addr <= id && '.' !in addr
    ensures |addr| == |id| || id[|addr|] == '.'
  {
    SplitHead(id, '.');
    Split(id, '.')[0]
  }

  /** `id.split('.')[1]`: the contract's name, `undefined` when the identifier has no `.`. */
  function ContractName(id: string): (name: Option<string>)
    ensures name.None? <==> '.' !in id
    ensures name.Some? ==> '.' !in name.value
  {
    SplitHead(id, '.');
    var parts := Split(id, '.');
    if |parts| > 1 then
      SplitHead(id[|parts[0]| + 1..], '.');
      Some(parts[1])
    else None
  }

  /** For a well-formed identifier `address.name`, the two halves are recovered exactly. */
  lemma ContractIdentifierParts(addr: string, name: string)
    requires '.' !in addr && '.' !in name
    ensures ContractAddress(addr + "." + name) == addr
    ensures ContractName(addr + "." + name) == Some(name)
  {
    SplitAfterSegment(addr, '.', name);
    SingleSegment(name, '.');
  }

  // ---------------------------------------------------------------------------
  // Request parameters
  // ---------------------------------------------------------------------------

  datatype CreateLinkParams = CreateLinkParams(
    title: string,
    url: string,
    description: Option<string>,
    icon: Option<string>,
    styleBackground: string,
    styleText: string,
    styleBorder: Option<string>,
    styleBorderWidth: nat,
    styleBorderRadius: string,
    styleShadow: string)

  datatype UpdateLinkParams = UpdateLinkParams(
    title: Option<string>,
    url: Option<string>,
    description: Option<string>,
    icon: Option<string>,
    isActive: Option<bool>)

  /** `s ? someCV(stringUtf8CV(s)) : noneCV()`. */
  function OptionalUtf8(o: Option<string>): Value
  {
    if Present(o) then SomeV(Utf8(o.value)) else NoneV
  }

  /** `s ? someCV(stringAsciiCV(s)) : noneCV()`. */
  function OptionalAscii(o: Option<string>): Value
  {
    if Present(o) then SomeV(Ascii(o.value)) else NoneV
  }

  /** The argument list of `create-link`. */
  function CreateLinkArgs(p: CreateLinkParams): (args: seq<Value>)
    ensures |args| == 10
    ensures args[0] == Utf8(p.title) && args[1] == Ascii(p.url)
    ensures args[4] == Ascii(p.styleBackground) && args[5] == Ascii(p.styleText)
    ensures args[7] == UInt(p.styleBorderWidth)
    ensures args[8] == Ascii(p.styleBorderRadius) && args[9] == Ascii(p.styleShadow)
    ensures args[2] == NoneV <==> !Present(p.description)
    ensures args[3] == NoneV <==> !Present(p.icon)
    ensures args[6] == NoneV <==> !Present(p.styleBorder)
    ensures Present(p.description) ==> args[2] == SomeV(Utf8(p.description.value))
    ensures Present(p.icon) ==> args[3] == SomeV(Utf8(p.icon.value))
    ensures Present(p.styleBorder) ==> args[6] == SomeV(Ascii(p.styleBorder.value))
  {
    [ Utf8(p.title),
      Ascii(p.url),
      OptionalUtf8(p.description),
      OptionalUtf8(p.icon),
      Ascii(p.styleBackground),
      Ascii(p.styleText),
      OptionalAscii(p.styleBorder),
      UInt(p.styleBorderWidth),
      Ascii(p.styleBorderRadius),
      Ascii(p.styleShadow) ]
  }

  /** The argument list of `update-link`. */
  function UpdateLinkArgs(linkId: nat, p: UpdateLinkParams): (args: seq<Value>)
    ensures |args| == 6 && args[0] == UInt(linkId)
    ensures forall i :: 1 <= i < 6 ==> args[i].NoneV? || args[i].SomeV?
    ensures args[1] == NoneV <==> !Present(p.title)
    ensures args[2] == NoneV <==> !Present(p.url)
    ensures args[3] == NoneV <==> !Present(p.description)
    ensures args[4] == NoneV <==> !Present(p.icon)
    ensures args[5] == NoneV <==> p.isActive.None?
    ensures p.isActive.Some? ==> args[5] == SomeV(Bool(p.isActive.value))
  {
    [ UInt(linkId),
      OptionalUtf8(p.title),
      OptionalAscii(p.url),
      OptionalUtf8(p.description),
      OptionalUtf8(p.icon),
      if p.isActive.Some? then SomeV(Bool(p.isActive.value)) else NoneV ]
  }

  /** `update-link` sends `isActive: false` as `(some false)` but an empty title as `none`. */
  lemma UpdateLinkFalsyFields(linkId: nat)
    ensures UpdateLinkArgs(linkId, UpdateLinkParams(Some(""), Some(""), Some(""), Some(""), Some(false)))
         == [UInt(linkId), NoneV, NoneV, NoneV, NoneV, SomeV(Bool(false))]
  {
  }

  /** `delete-link`, `get-link` and `get-profile-totals` each send one id, as a uint. */
  function IdArgs(id: nat): seq<Value> {
    [UInt(id)]
  }

  /** The argument list of `record-profile-view`. */
  function RecordProfileViewArgs(profileId: nat, visitorHash: seq<byte>): seq<Value> {
    [UInt(profileId), Buffer(visitorHash)]
  }

  /** The argument list of `record-link-click`. */
  function RecordLinkClickArgs(profileId: nat, linkId: nat, visitorHash: seq<byte>): seq<Value> {
    [UInt(profileId), UInt(linkId), Buffer(visitorHash)]
  }

  // ---------------------------------------------------------------------------
  // The contract calls the builders hand to the SDK
  // ---------------------------------------------------------------------------

  /** A state-changing contract call as handed to `makeContractCall`. */
  datatype ContractCall = ContractCall(
    contractAddress: string,
    contractName: Option<string>,
    functionName: string,
    functionArgs: seq<Value>)

  /** A read-only call as handed to `callReadOnlyFunction`. */
  datatype ReadOnlyCall = ReadOnlyCall(
    contractAddress: string,
    contractName: Option<string>,
    functionName: string,
    functionArgs: seq<Value>,
    senderAddress: string)

  function Call(contract: string, functionName: string, args: seq<Value>): ContractCall {
    ContractCall(ContractAddress(contract), ContractName(contract), functionName, args)
  }

  /** A read-only call is sent from the contract's own address. */
  function ReadOnly(contract: string, functionName: string, args: seq<Value>): ReadOnlyCall {
    ReadOnlyCall(ContractAddress(contract), ContractName(contract), functionName, args, ContractAddress(contract))
  }

  /** `createLink`: the contract reads back the request, with empty optionals as absent. */
  function CreateLink(links: string, p: CreateLinkParams): (c: ContractCall)
    ensures c.functionName == "create-link"
    ensures DecodeCreateLink(c.functionArgs) == Some(NormalizeCreate(p))
  {
    CreateLinkRoundTrip(p);
    Call(links, "create-link", CreateLinkArgs(p))
  }

  /** `updateLink`: the contract reads back the id and the request, with empty strings as absent. */
  function UpdateLink(links: string, linkId: nat, p: UpdateLinkParams): (c: ContractCall)
    ensures c.functionName == "update-link"
    ensures DecodeUpdateLink(c.functionArgs) == Some((linkId, NormalizeUpdate(p)))
  {
    UpdateLinkRoundTrip(linkId, p);
    Call(links, "update-link", UpdateLinkArgs(linkId, p))
  }

  /** `deleteLink`: the contract reads back the link id. */
  function DeleteLink(links: string, linkId: nat): (c: ContractCall)
    ensures c.functionName == "delete-link" && DecodeId(c.functionArgs) == Some(linkId)
  {
    IdRoundTrip(linkId, []);
    Call(links, "delete-link", IdArgs(linkId))
  }

  /** `getLink`: the contract reads back the link id, and the query is sent from the contract's address. */
  function GetLink(links: string, linkId: nat): (c: ReadOnlyCall)
    ensures c.functionName == "get-link" && DecodeId(c.functionArgs) == Some(linkId)
    ensures c.senderAddress == c.contractAddress
  {
    IdRoundTrip(linkId, []);
    ReadOnly(links, "get-link", IdArgs(linkId))
  }

  /** `recordProfileView`: the contract reads back the profile id and the visitor hash. */
  function RecordProfileView(analytics: string, profileId: nat, visitorHash: seq<byte>): (c: ContractCall)
    ensures c.functionName == "record-profile-view"
    ensures DecodeProfileView(c.functionArgs) == Some((profileId, visitorHash))
  {
    ProfileViewRoundTrip(profileId, visitorHash, []);
    Call(analytics, "record-profile-view", RecordProfileViewArgs(profileId, visitorHash))
  }

  /** `recordLinkClick`: the contract reads back the profile id, the link id and the visitor hash. */
  function RecordLinkClick(analytics: string, profileId: nat, linkId: nat, visitorHash: seq<byte>): (c: ContractCall)
    ensures c.functionName == "record-link-click"
    ensures DecodeLinkClick(c.functionArgs) == Some((profileId, linkId, visitorHash))
  {
    LinkClickRoundTrip(profileId, linkId, visitorHash, []);
    Call(analytics, "record-link-click", RecordLinkClickArgs(profileId, linkId, visitorHash))
  }

  /** `getProfileTotals`: the contract reads back the profile id, and the query is sent from the contract's
      address. */
  function GetProfileTotals(analytics: string, profileId: nat): (c: ReadOnlyCall)
    ensures c.functionName == "get-profile-totals" && DecodeId(c.functionArgs) == Some(profileId)
    ensures c.senderAddress == c.contractAddress
  {
    IdRoundTrip(profileId, []);
    ReadOnly(analytics, "get-profile-totals", IdArgs(profileId))
  }

  /** For a configured identifier `address.name`, every builder targets that contract under its own function
      name, and the read-only calls are sent from the contract's own address. */
  lemma CallsTargetIdentifier(addr: string, name: string, linkId: nat, profileId: nat, visitorHash: seq<byte>,
                              cp: CreateLinkParams, up: UpdateLinkParams)
    requires '.' !in addr && '.' !in name
    ensures var id := addr + "." + name;
      && CreateLink(id, cp) == ContractCall(addr, Some(name), "create-link", CreateLinkArgs(cp))
      && UpdateLink(id, linkId, up) == ContractCall(addr, Some(name), "update-link", UpdateLinkArgs(linkId, up))
      && DeleteLink(id, linkId) == ContractCall(addr, Some(name), "delete-link", [UInt(linkId)])
      && GetLink(id, linkId) == ReadOnlyCall(addr, Some(name), "get-link", [UInt(linkId)], addr)
      && RecordProfileView(id, profileId, visitorHash)
         == ContractCall(addr, Some(name), "record-profile-view", [UInt(profileId), Buffer(visitorHash)])
      && RecordLinkClick(id, profileId, linkId, visitorHash)
         == ContractCall(addr, Some(name), "record-link-click", [UInt(profileId), UInt(linkId), Buffer(visitorHash)])
      && GetProfileTotals(id, profileId) == ReadOnlyCall(addr, Some(name), "get-profile-totals", [UInt(profileId)], addr)
  {
    ContractIdentifierParts(addr, name);
  }

  /** With the default configuration, every links call targets the `links` contract of the default deployer. */
  lemma DefaultLinksTarget(linkId: nat)
    ensures DeleteLink(DefaultLinksContract, linkId).contractAddress == DefaultDeployer
    ensures DeleteLink(DefaultLinksContract, linkId).contractName == Some("links")
    ensures GetLink(DefaultLinksContract, linkId).senderAddress == DefaultDeployer
  {
    assert '.' !in DefaultDeployer && '.' !in "links";
    assert DefaultLinksContract == DefaultDeployer + "." + "links";
    ContractIdentifierParts(DefaultDeployer, "links");
  }

  // ---------------------------------------------------------------------------
  // How the contract reads the arguments back
  // ---------------------------------------------------------------------------

  function DecodeOptionalUtf8(v: Value): Option<Option<string>> {
    match v
    case NoneV => Some(None)
    case SomeV(Utf8(s)) => Some(Some(s))
    case _ => None
  }

  function DecodeOptionalAscii(v: Value): Option<Option<string>> {
    match v
    case NoneV => Some(None)
    case SomeV(Ascii(s)) => Some(Some(s))
    case _ => None
  }

  function DecodeOptionalBool(v: Value): Option<Option<bool>> {
    match v
    case NoneV => Some(None)
    case SomeV(Bool(b)) => Some(Some(b))
    case _ => None
  }

  /** The `create-link` signature read as types: ten arguments, each of its declared Clarity type. */
  function DecodeCreateLink(args: seq<Value>): Option<CreateLinkParams> {
    if |args| != 10 then None
    else if !(args[0].Utf8? && args[1].Ascii? && args[4].Ascii? && args[5].Ascii?
              && args[7].UInt? && args[8].Ascii? && args[9].Ascii?) then None
    else
      var description := DecodeOptionalUtf8(args[2]);
      var icon := DecodeOptionalUtf8(args[3]);
      var border := DecodeOptionalAscii(args[6]);
      if description.None? || icon.None? || border.None? then None
      else Some(CreateLinkParams(args[0].s, args[1].s, description.value, icon.value,
                                 args[4].s, args[5].s, border.value, args[7].n, args[8].s, args[9].s))
  }

  /** The `update-link` signature read as types: a uint then five optionals. */
  function DecodeUpdateLink(args: seq<Value>): Option<(nat, UpdateLinkParams)> {
    if |args| != 6 || !args[0].UInt? then None
    else
      var title := DecodeOptionalUtf8(args[1]);
      var url := DecodeOptionalAscii(args[2]);
      var description := DecodeOptionalUtf8(args[3]);
      var icon := DecodeOptionalUtf8(args[4]);
      var isActive := DecodeOptionalBool(args[5]);
      if title.None? || url.None? || description.None? || icon.None? || isActive.None? then None
      else Some((args[0].n, UpdateLinkParams(title.value, url.value, description.value, icon.value, isActive.value)))
  }

  /** A single uint argument. */
  function DecodeId(args: seq<Value>): Option<nat> {
    if |args| == 1 && args[0].UInt? then Some(args[0].n) else None
  }

  /** The `record-profile-view` signature: a uint and a buffer. */
  function DecodeProfileView(args: seq<Value>): Option<(nat, seq<byte>)> {
    if |args| == 2 && args[0].UInt? && args[1].Buffer? then Some((args[0].n, args[1].bytes)) else None
  }

  /** The `record-link-click` signature: two uints and a buffer. */
  function DecodeLinkClick(args: seq<Value>): Option<(nat, nat, seq<byte>)> {
    if |args| == 3 && args[0].UInt? && args[1].UInt? && args[2].Buffer? then
      Some((args[0].n, args[1].n, args[2].bytes))
    else None
  }

  /** The id lists are read back exactly, and every list that reads as an id is that id's encoding. */
  lemma IdRoundTrip(id: nat, args: seq<Value>)
    ensures DecodeId(IdArgs(id)) == Some(id)
    ensures DecodeId(args) == Some(id) ==> IdArgs(id) == args
  {
  }

  lemma ProfileViewRoundTrip(profileId: nat, visitorHash: seq<byte>, args: seq<Value>)
    ensures DecodeProfileView(RecordProfileViewArgs(profileId, visitorHash)) == Some((profileId, visitorHash))
    ensures DecodeProfileView(args) == Some((profileId, visitorHash)) ==> RecordProfileViewArgs(profileId, visitorHash) == args
  {
  }

  lemma LinkClickRoundTrip(profileId: nat, linkId: nat, visitorHash: seq<byte>, args: seq<Value>)
    ensures DecodeLinkClick(RecordLinkClickArgs(profileId, linkId, visitorHash)) == Some((profileId, linkId, visitorHash))
    ensures DecodeLinkClick(args) == Some((profileId, linkId, visitorHash))
            ==> RecordLinkClickArgs(profileId, linkId, visitorHash) == args
  {
  }

  /** An optional string as the client sends it: empty counts as absent. */
  function Normal(o: Option<string>): Option<string> {
    if Present(o) then o else None
  }

  function NormalizeCreate(p: CreateLinkParams): CreateLinkParams {
    p.(description := Normal(p.description), icon := Normal(p.icon), styleBorder := Normal(p.styleBorder))
  }

  function NormalizeUpdate(p: UpdateLinkParams): UpdateLinkParams {
    p.(title := Normal(p.title), url := Normal(p.url), description := Normal(p.description), icon := Normal(p.icon))
  }

  predicate NormalCreate(p: CreateLinkParams) {
    Normal(p.description) == p.description && Normal(p.icon) == p.icon && Normal(p.styleBorder) == p.styleBorder
  }

  predicate NormalUpdate(p: UpdateLinkParams) {
    Normal(p.title) == p.title && Normal(p.url) == p.url
    && Normal(p.description) == p.description && Normal(p.icon) == p.icon
  }

  /** The contract reads back every field the client sent, with empty optionals turned into `none`. */
  lemma CreateLinkRoundTrip(p: CreateLinkParams)
    ensures DecodeCreateLink(CreateLinkArgs(p)) == Some(NormalizeCreate(p))
    ensures NormalCreate(p) ==> DecodeCreateLink(CreateLinkArgs(p)) == Some(p)
  {
  }

  /** Conversely, an argument list that decodes to parameters without empty optionals is exactly their encoding. */
  lemma CreateLinkEncodingComplete(args: seq<Value>, p: CreateLinkParams)
    requires DecodeCreateLink(args) == Some(p) && NormalCreate(p)
    ensures CreateLinkArgs(p) == args
  {
    assert CreateLinkArgs(p)[0] == args[0];
  }

  lemma UpdateLinkRoundTrip(linkId: nat, p: UpdateLinkParams)
    ensures DecodeUpdateLink(UpdateLinkArgs(linkId, p)) == Some((linkId, NormalizeUpdate(p)))
    ensures NormalUpdate(p) ==> DecodeUpdateLink(UpdateLinkArgs(linkId, p)) == Some((linkId, p))
  {
  }

  lemma UpdateLinkEncodingComplete(args: seq<Value>, linkId: nat, p: UpdateLinkParams)
    requires DecodeUpdateLink(args) == Some((linkId, p)) && NormalUpdate(p)
    ensures UpdateLinkArgs(linkId, p) == args
  {
    assert UpdateLinkArgs(linkId, p)[0] == args[0];
  }
}
