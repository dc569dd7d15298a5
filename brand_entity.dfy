/**
 * The Brand entity: its fields and the Bean Validation constraints declared on
 * them. A `null` field is `None`; `@Size` and `@Pattern` accept `null`,
 * `@NotBlank` does not.
 */
module BrandEntity {
  import opened Wrappers
  import opened Chars

  /** Stand-in for the entity's UUID primary key. */
  type BrandId = nat

  /** The six fields a client supplies and an update replaces. */
  datatype BrandFields = BrandFields(
    name: Option<string>,
    logoUrl: Option<string>,
    websiteLink: Option<string>,
    certificateUrls: Option<string>,
    mobileNumber: Option<string>,
    address: Option<string>)

  /**
   * A stored Brand: the store assigns `id` and `createdAt` once;
   * `updatedAt` is refreshed by each successful write. Timestamps are
   * readings of an abstract clock.
   */
  datatype Brand = Brand(id: BrandId, createdAt: nat, updatedAt: nat, fields: BrandFields)

  const NameMinLength: nat := 2
  const NameMaxLength: nat := 255
  const LogoUrlMaxLength: nat := 500
  const WebsiteLinkMaxLength: nat := 500
  const TldMinLength: nat := 2
  const TldMaxLength: nat := 6
  /** The `{10,20}` of the mobile pattern counts every class character, not only digits. */
  const MobileMinChars: nat := 10
  const MobileMaxChars: nat := 20
  /** The width of the `mobile_number` column. */
  const MobileColumnLength: nat := 20

  // ---------------------------------------------------------------------------
  // name: @NotBlank, @Size(min = 2, max = 255)

  /** `@NotBlank` on a present string: some character is not whitespace. */
  predicate NotBlank(s: string)
  {
    exists i :: 0 <= i < |s| && !IsSpace(s[i])
  }

  predicate ValidName(name: Option<string>)
  {
    name.Some? && NotBlank(name.value) && NameMinLength <= |name.value| <= NameMaxLength
  }

  // ---------------------------------------------------------------------------
  // logoUrl: @Size(max = 500)

  predicate ValidLogoUrl(logoUrl: Option<string>)
  {
    logoUrl.None? || |logoUrl.value| <= LogoUrlMaxLength
  }

  // ---------------------------------------------------------------------------
  // websiteLink: @Size(max = 500),
  //   @Pattern("^(https?://)?([\da-z.-]+)\.([a-z.]{2,6})[/\w .-]*/?$")

  /** The group `(https?://)?`. */
  predicate IsScheme(p: string)
  {
    p == "" || p == "http://" || p == "https://"
  }

  /** The class `[\da-z.-]` of the domain group. */
  predicate IsDomainChar(c: char) { IsDigit(c) || IsLower(c) || c == '.' || c == '-' }

  /** The class `[a-z.]` of the top-level-domain group. */
  predicate IsTldChar(c: char) { IsLower(c) || c == '.' }

  /** The class `[/\w .-]` of the trailing path. */
  predicate IsPathChar(c: char) { c == '/' || IsWordChar(c) || c == ' ' || c == '.' || c == '-' }

  /** The path tail: the class `[/\w .-]` repeated, then an optional slash. */
  predicate IsPathTail(t: string)
  {
    All(t, IsPathChar) || (|t| > 0 && t[|t| - 1] == '/' && All(t[..|t| - 1], IsPathChar))
  }

  /**
   * One way the whole of `s` matches the website pattern, given by the
   * boundaries of its groups: `s[..sch]` is the scheme, `s[sch..dot]` the
   * domain, `s[dot]` the escaped dot, `s[dot + 1..tldEnd]` the top-level
   * domain and `s[tldEnd..]` the path.
   */
  predicate WebsiteSplit(s: string, sch: int, dot: int, tldEnd: int)
  {
    && 0 <= sch < dot < tldEnd <= |s|
    && IsScheme(s[..sch])
    && All(s[sch..dot], IsDomainChar)
    && s[dot] == '.'
    && TldMinLength <= tldEnd - dot - 1 <= TldMaxLength
    && All(s[dot + 1..tldEnd], IsTldChar)
    && IsPathTail(s[tldEnd..])
  }

  /** The language of the website pattern, as `Matcher.matches` decides it. */
  ghost predicate WebsitePattern(s: string)
  {
    exists sch, dot, tldEnd :: WebsiteSplit(s, sch, dot, tldEnd)
  }

  /** The length of the scheme `s` starts with, if any. */
  function SchemeLength(s: string): (n: nat)
    ensures n <= |s| && IsScheme(s[..n])
  {
    if "https://" <= s then 8 else if "http://" <= s then 7 else 0
  }

  /**
   * Scanning the host `u` from index `k`, over domain characters, for a dot
   * followed by two top-level-domain characters.
   */
  function HostFrom(u: string, k: nat): bool
    decreases |u| - k
  {
    if k + 3 > |u| then false
    else if u[k] == '.' && IsTldChar(u[k + 1]) && IsTldChar(u[k + 2]) then true
    else IsDomainChar(u[k]) && HostFrom(u, k + 1)
  }

  /** The website pattern decided by one left-to-right scan. */
  function MatchesWebsite(s: string): bool
  {
    var u := s[SchemeLength(s)..];
    All(u, IsPathChar) && |u| > 0 && IsDomainChar(u[0]) && HostFrom(u, 1)
  }

  predicate ValidWebsiteLink(websiteLink: Option<string>)
  {
    websiteLink.None? ||
    (|websiteLink.value| <= WebsiteLinkMaxLength && MatchesWebsite(websiteLink.value))
  }

  // ---------------------------------------------------------------------------
  // mobileNumber: @Pattern("^[+]?[0-9\s\-()]{10,20}$")

  /** The class `[0-9\s\-()]`. */
  predicate IsMobileChar(c: char) { IsDigit(c) || IsSpace(c) || c == '-' || c == '(' || c == ')' }

  /** One way the whole of `s` matches the mobile pattern: `s[..p]` is the optional `+`. */
  predicate MobileSplit(s: string, p: int)
  {
    && 0 <= p <= 1 && p <= |s|
    && (p == 1 ==> s[0] == '+')
    && MobileMinChars <= |s| - p <= MobileMaxChars
    && All(s[p..], IsMobileChar)
  }

  /** The language of the mobile-number pattern. */
  ghost predicate MobilePattern(s: string)
  {
    exists p :: MobileSplit(s, p)
  }

  /** The mobile-number pattern decided directly: a leading `+` can only be the optional one. */
  function MatchesMobile(s: string): bool
  {
    var p := if |s| > 0 && s[0] == '+' then 1 else 0;
    MobileMinChars <= |s| - p <= MobileMaxChars && All(s[p..], IsMobileChar)
  }

  predicate ValidMobileNumber(mobileNumber: Option<string>)
  {
    mobileNumber.None? || MatchesMobile(mobileNumber.value)
  }

  // ---------------------------------------------------------------------------
  // The whole entity. certificateUrls and address carry no constraint.

  predicate ValidFields(f: BrandFields)
  {
    && ValidName(f.name)
    && ValidLogoUrl(f.logoUrl)
    && ValidWebsiteLink(f.websiteLink)
    && ValidMobileNumber(f.mobileNumber)
  }

  /** The constraint violations Bean Validation reports, one per failing annotation. */
  datatype Violation =
    | NameRequired        // "Brand name is required"
    | NameSize            // "Brand name must be between 2 and 255 characters"
    | LogoUrlSize         // "Logo URL must not exceed 500 characters"
    | WebsiteLinkSize     // "Website link must not exceed 500 characters"
    | WebsiteLinkFormat   // "Invalid website URL format"
    | MobileNumberFormat  // "Invalid mobile number format"

  /**
   * Runs every constraint of the entity, without short-circuiting. The
   * null-name clause is a corollary of the two name clauses after it, kept
   * as the case a caller most often needs.
   */
  function Violations(f: BrandFields): (v: set<Violation>)
    ensures v == {} <==> ValidFields(f)
    ensures f.name.None? ==> NameRequired in v && NameSize !in v
    ensures NameRequired in v <==> f.name.None? || !NotBlank(f.name.value)
    ensures NameSize in v <==> f.name.Some? && !(NameMinLength <= |f.name.value| <= NameMaxLength)
    ensures LogoUrlSize in v <==> !ValidLogoUrl(f.logoUrl)
    ensures WebsiteLinkSize in v <==> f.websiteLink.Some? && |f.websiteLink.value| > WebsiteLinkMaxLength
    ensures WebsiteLinkFormat in v <==> f.websiteLink.Some? && !MatchesWebsite(f.websiteLink.value)
    ensures MobileNumberFormat in v <==> !ValidMobileNumber(f.mobileNumber)
  {
    (if f.name.None? || !NotBlank(f.name.value) then {NameRequired} else {})
    + (if f.name.Some? && !(NameMinLength <= |f.name.value| <= NameMaxLength) then {NameSize} else {})
    + (if f.logoUrl.Some? && |f.logoUrl.value| > LogoUrlMaxLength then {LogoUrlSize} else {})
    + (if f.websiteLink.Some? && |f.websiteLink.value| > WebsiteLinkMaxLength then {WebsiteLinkSize} else {})
    + (if f.websiteLink.Some? && !MatchesWebsite(f.websiteLink.value) then {WebsiteLinkFormat} else {})
    + (if f.mobileNumber.Some? && !MatchesMobile(f.mobileNumber.value) then {MobileNumberFormat} else {})
  }
}
