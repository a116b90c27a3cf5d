/**
 * Profile and billing: the row inserted for a user without a profile, the
 * fields a save writes back, the display name and avatar initial, and the
 * labels derived from the subscription tier (price, quotas, upgrade offer,
 * badge).
 */
module ProfileBilling {
  import opened Wrappers
  import opened Text
  import AdminPanel

  /** A profile row; nullable text columns are read as the empty string, as the form does. */
  datatype Profile = Profile(
    id: string,
    username: string,
    fullName: string,
    avatarUrl: string,
    bio: string,
    website: string,
    subscriptionTier: string,
    subscriptionStatus: string)

  // ---------------------------------------------------------------------------
  // The default profile

  /**
   * `user.email?.split('@')[0] || 'user'`: the text before the first `@`,
   * or "user" when there is no e-mail or that text is empty.
   */
  function DefaultUsername(email: Option<string>): (name: string)
    ensures name != [] && '@' !in name
    ensures name == "user" || (email.Some? && StartsWith(email.value, name))
    ensures email.Some? && name != "user" ==> |name| == |email.value| || email.value[|name|] == '@'
  {
    match email
    case None => "user"
    case Some(e) =>
      var head := Split(e, '@')[0];
      SplitHead(e, '@');
      if head == [] then "user" else head
  }

  /** An e-mail whose local part is not empty gives exactly that local part. */
  lemma DefaultUsernameIsLocalPart(local: string, domain: string)
    requires local != [] && '@' !in local
    ensures DefaultUsername(Some(local + "@" + domain)) == local
  {
    SplitAfterPiece(local, domain, '@');
  }

  /** An e-mail without any `@` is its own username, whole. */
  lemma DefaultUsernameNoAt(e: string)
    requires e != [] && '@' !in e
    ensures DefaultUsername(Some(e)) == e
  {
    SplitWithout(e, '@');
  }

  /** An e-mail that starts with `@`, and a missing e-mail, both give "user". */
  lemma DefaultUsernameFallback(domain: string)
    ensures DefaultUsername(Some("@" + domain)) == "user"
    ensures DefaultUsername(None) == "user"
  {
    SplitAfterPiece("", domain, '@');
  }

  /** The row inserted when the user has no profile yet. */
  datatype ProfileInsert = ProfileInsert(userId: string, username: string, fullName: string, bio: string, website: string)

  function DefaultInsert(userId: string, email: Option<string>): (row: ProfileInsert)
    ensures row.userId == userId && row.username == DefaultUsername(email)
    ensures row.fullName == "" && row.bio == "" && row.website == ""
  {
    ProfileInsert(userId, DefaultUsername(email), "", "", "")
  }

  // ---------------------------------------------------------------------------
  // saveProfile

  /** The columns a save writes. */
  datatype ProfileUpdate = ProfileUpdate(username: string, fullName: string, bio: string, website: string)

  /** `saveProfile`'s request: nothing without a loaded profile, else the row id and the four editable fields. */
  function SaveRequest(profile: Option<Profile>): (req: Option<(string, ProfileUpdate)>)
    ensures req.Some? <==> profile.Some?
    ensures req.Some? ==> req.value.0 == profile.value.id
  {
    match profile
    case None => None
    case Some(p) => Some((p.id, ProfileUpdate(p.username, p.fullName, p.bio, p.website)))
  }

  /** The stored row after an update: the four columns replaced, nothing else touched. */
  function ApplyUpdate(row: Profile, u: ProfileUpdate): Profile {
    row.(username := u.username, fullName := u.fullName, bio := u.bio, website := u.website)
  }

  /**
   * Saving an edited profile over the stored row: the stored row takes the
   * edited username, full name, bio and website and keeps its own id,
   * avatar and subscription, which a save never writes.
   */
  lemma SaveWritesOnlyEditableFields(stored: Profile, edited: Profile)
    ensures var saved := ApplyUpdate(stored, SaveRequest(Some(edited)).value.1);
      && saved.username == edited.username && saved.fullName == edited.fullName
      && saved.bio == edited.bio && saved.website == edited.website
      && saved.id == stored.id && saved.avatarUrl == stored.avatarUrl
      && saved.subscriptionTier == stored.subscriptionTier
      && saved.subscriptionStatus == stored.subscriptionStatus
  {
  }

  /** Saving a profile that was not edited leaves the row as it was. */
  lemma SaveUnchangedIsIdentity(p: Profile)
    ensures ApplyUpdate(p, SaveRequest(Some(p)).value.1) == p
  {
  }

  // ---------------------------------------------------------------------------
  // Display name and avatar

  /** `profile.full_name || profile.username`. */
  function DisplayName(p: Profile): (name: string)
    ensures p.fullName != "" ==> name == p.fullName
    ensures p.fullName == "" ==> name == p.username
  {
    if p.fullName != "" then p.fullName else p.username
  }

  /** The avatar letter: the first character of the same choice, none when that string is empty. */
  function AvatarInitial(p: Profile): (c: Option<char>)
    ensures c.Some? <==> DisplayName(p) != ""
    ensures c.Some? ==> c.value == DisplayName(p)[0]
  {
    if p.fullName != "" then Some(p.fullName[0])
    else if p.username != "" then Some(p.username[0])
    else None
  }

  /** A profile created by the default insert always has an avatar letter, the first letter of its default username. */
  lemma DefaultProfileHasInitial(p: Profile, email: Option<string>)
    requires p.username == DefaultUsername(email) && p.fullName == ""
    ensures AvatarInitial(p) == Some(DefaultUsername(email)[0])
  {
  }

  // ---------------------------------------------------------------------------
  // Tier derivations

  function Price(tier: string): (price: string) {
    if tier == "free" then "$0" else if tier == "pro" then "$29" else "$99"
  }

  function GenerationsQuota(tier: string): string {
    if tier == "free" then "10/50" else if tier == "pro" then "150/500" else "Unlimited"
  }

  function CampaignsQuota(tier: string): string {
    if tier == "free" then "1/3" else if tier == "pro" then "5/20" else "Unlimited"
  }

  function CreatorDatabase(tier: string): string {
    if tier == "free" then "Limited" else "Full Access"
  }

  /** The upgrade dialog's trigger is rendered. */
  predicate ShowUpgrade(tier: string) {
    tier == "free"
  }

  /** Everything the plan card shows for a tier. */
  datatype PlanCard = PlanCard(price: string, generations: string, campaigns: string, creatorDatabase: string, upgrade: bool)

  function PlanCardOf(tier: string): (card: PlanCard)
    ensures card.upgrade <==> card.price == "$0"
    ensures card.upgrade <==> card.creatorDatabase == "Limited"
    ensures card.generations == "Unlimited" <==> card.campaigns == "Unlimited"
    ensures card.generations == "Unlimited" <==> card.price == "$99"
    ensures card.upgrade <==> tier == "free"
    ensures card.price == "$0" <==> tier == "free"
    ensures card.price == "$29" <==> tier == "pro"
    ensures card.price == "$99" <==> tier != "free" && tier != "pro"
  {
    PlanCard(Price(tier), GenerationsQuota(tier), CampaignsQuota(tier), CreatorDatabase(tier), ShowUpgrade(tier))
  }

  /**
   * The price, quota and upgrade ternaries alone treat any tier other than
   * free and pro like enterprise. Whether the page gets to show them is
   * `PlanPanel`'s business: the badge lookup runs first.
   */
  lemma UnknownTierShownAsEnterprise(tier: string)
    requires tier != "free" && tier != "pro"
    ensures PlanCardOf(tier) == PlanCardOf("enterprise")
  {
  }

  /** The three tiers give three different cards, so the card identifies the tier. */
  lemma PlanCardsDistinct(a: string, b: string)
    requires a in {"free", "pro", "enterprise"} && b in {"free", "pro", "enterprise"}
    ensures PlanCardOf(a) == PlanCardOf(b) ==> a == b
  {
  }

  /** `tierConfig`'s entry for a tier: defined for the three tiers only. */
  datatype BadgeConfig = BadgeConfig(color: string, text: string)

  function ProfileBadge(tier: string): (config: Option<BadgeConfig>)
    ensures config.Some? <==> tier in {"free", "pro", "enterprise"}
  {
    if tier == "free" then Some(BadgeConfig("bg-muted text-muted-foreground", "Free"))
    else if tier == "pro" then Some(BadgeConfig("bg-primary text-primary-foreground", "Pro"))
    else if tier == "enterprise" then Some(BadgeConfig("bg-gradient-primary text-primary-foreground", "Enterprise"))
    else None
  }

  /** Where this badge is defined it agrees with the admin panel's; the admin panel's also covers every other tier, as Free. */
  lemma BadgesAgree(tier: string)
    ensures ProfileBadge(tier).Some? ==> ProfileBadge(tier).value.text == AdminPanel.SubscriptionBadge(tier)
    ensures ProfileBadge(tier).None? ==> AdminPanel.SubscriptionBadge(tier) == "Free"
  {
  }

  /**
   * The plan section as rendered: the badge lookup runs before the price
   * and quotas, and for a tier without a `tierConfig` entry it reads the
   * icon of `undefined` and the render throws, so nothing is shown.
   */
  function PlanPanel(tier: string): (panel: Option<PlanCard>)
    ensures panel.Some? <==> ProfileBadge(tier).Some?
    ensures panel.Some? ==> panel.value == PlanCardOf(tier) && ProfileBadge(tier).value.text == AdminPanel.SubscriptionBadge(tier)
  {
    match ProfileBadge(tier)
    case None => None
    case Some(_) => Some(PlanCardOf(tier))
  }

  /** The three known tiers render their own cards; any other tier renders no plan section at all. */
  lemma PlanPanelByTier(tier: string)
    ensures tier == "free" ==> PlanPanel(tier) == Some(PlanCard("$0", "10/50", "1/3", "Limited", true))
    ensures tier == "pro" ==> PlanPanel(tier) == Some(PlanCard("$29", "150/500", "5/20", "Full Access", false))
    ensures tier == "enterprise" ==> PlanPanel(tier) == Some(PlanCard("$99", "Unlimited", "Unlimited", "Full Access", false))
    ensures tier !in {"free", "pro", "enterprise"} ==> PlanPanel(tier) == None
  {
  }
}
