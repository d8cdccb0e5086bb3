/** The frontend's record shapes and style enumerations, and how each enumeration is spelled as the
    ascii string the contracts store. */
module FrontendTypes {
  import opened Basics

  datatype BorderRadius = RadiusNone | RadiusSm | RadiusMd | RadiusLg | RadiusFull
  datatype Shadow = ShadowNone | ShadowSm | ShadowMd | ShadowLg
  datatype ButtonStyle = Rounded | Square | Pill
  datatype Layout = Centered | LeftAligned | RightAligned

  datatype LinkStyle = LinkStyle(
    backgroundColor: string,
    textColor: string,
    borderColor: Option<string>,
    borderWidth: Option<int>,
    borderRadius: BorderRadius,
    shadow: Shadow)

  /** A link as the hooks and components hold it; `createdAt` is a time value in milliseconds. */
  datatype Link = Link(
    id: string,
    title: string,
    url: string,
    description: Option<string>,
    icon: Option<string>,
    isActive: bool,
    clickCount: int,
    order: int,
    style: LinkStyle,
    createdAt: int)

  datatype ProfileTheme = ProfileTheme(
    primaryColor: string,
    secondaryColor: string,
    backgroundColor: string,
    textColor: string,
    buttonStyle: ButtonStyle,
    layout: Layout)

  datatype UserProfile = UserProfile(
    id: string,
    username: string,
    displayName: string,
    bio: Option<string>,
    avatar: Option<string>,
    isVerified: bool,
    walletAddress: Option<string>,
    theme: ProfileTheme,
    createdAt: int,
    updatedAt: int)

  /** `{ success, data?, error?, message? }`. */
  datatype ApiResponse<T> = ApiResponse(success: bool, data: Option<T>, error: Option<string>, message: Option<string>)

  function Succeeded<T>(data: Option<T>, message: string): ApiResponse<T> {
    ApiResponse(true, data, None, Some(message))
  }

  // ---------------------------------------------------------------------------
  // Enumeration names
  // ---------------------------------------------------------------------------

  function RadiusName(r: BorderRadius): string {
    match r
    case RadiusNone => "none"
    case RadiusSm => "sm"
    case RadiusMd => "md"
    case RadiusLg => "lg"
    case RadiusFull => "full"
  }

  function ParseRadius(s: string): Option<BorderRadius> {
    if s == "none" then Some(RadiusNone)
    else if s == "sm" then Some(RadiusSm)
    else if s == "md" then Some(RadiusMd)
    else if s == "lg" then Some(RadiusLg)
    else if s == "full" then Some(RadiusFull)
    else None
  }

  function ShadowName(sh: Shadow): string {
    match sh
    case ShadowNone => "none"
    case ShadowSm => "sm"
    case ShadowMd => "md"
    case ShadowLg => "lg"
  }

  function ParseShadow(s: string): Option<Shadow> {
    if s == "none" then Some(ShadowNone)
    else if s == "sm" then Some(ShadowSm)
    else if s == "md" then Some(ShadowMd)
    else if s == "lg" then Some(ShadowLg)
    else None
  }

  function ButtonStyleName(b: ButtonStyle): string {
    match b
    case Rounded => "rounded"
    case Square => "square"
    case Pill => "pill"
  }

  function ParseButtonStyle(s: string): Option<ButtonStyle> {
    if s == "rounded" then Some(Rounded)
    else if s == "square" then Some(Square)
    else if s == "pill" then Some(Pill)
    else None
  }

  function LayoutName(l: Layout): string {
    match l
    case Centered => "centered"
    case LeftAligned => "left"
    case RightAligned => "right"
  }

  function ParseLayout(s: string): Option<Layout> {
    if s == "centered" then Some(Centered)
    else if s == "left" then Some(LeftAligned)
    else if s == "right" then Some(RightAligned)
    else None
  }

  /** Each enumeration and its ascii spelling are inverse: a value survives the trip through the contract's
      string field, and a string parses only when it is some value's spelling. */
  lemma RadiusNames(r: BorderRadius, s: string)
    ensures ParseRadius(RadiusName(r)) == Some(r)
    ensures ParseRadius(s).Some? ==> RadiusName(ParseRadius(s).value) == s
  {
  }

  lemma ShadowNames(sh: Shadow, s: string)
    ensures ParseShadow(ShadowName(sh)) == Some(sh)
    ensures ParseShadow(s).Some? ==> ShadowName(ParseShadow(s).value) == s
  {
  }

  lemma ButtonStyleNames(b: ButtonStyle, s: string)
    ensures ParseButtonStyle(ButtonStyleName(b)) == Some(b)
    ensures ParseButtonStyle(s).Some? ==> ButtonStyleName(ParseButtonStyle(s).value) == s
  {
  }

  lemma LayoutNames(l: Layout, s: string)
    ensures ParseLayout(LayoutName(l)) == Some(l)
    ensures ParseLayout(s).Some? ==> LayoutName(ParseLayout(s).value) == s
  {
  }
}
