/**
 * The admin panel: the user search with its plan filter, the tier counters,
 * the split of testimonials into pending and approved, the tier badge with
 * its fallback, and the `loading` flag around the access check.
 */
module AdminPanel {
  import opened Wrappers
  import opened Text
  import Lists

  /** A profile row as the panel lists it; absent columns are `None`. */
  datatype User = User(
    id: string,
    email: Option<string>,
    fullName: Option<string>,
    subscriptionTier: Option<string>,
    subscriptionStatus: Option<string>)

  /** A testimonial row; `isApproved` is a nullable column. */
  datatype Testimonial = Testimonial(id: string, name: string, content: string, isApproved: Option<bool>)

  // ---------------------------------------------------------------------------
  // filteredUsers

  /** `field?.toLowerCase().includes(term.toLowerCase())`: an absent field never matches. */
  predicate FieldMatches(field: Option<string>, term: string) {
    field.Some? && Contains(ToLower(field.value), ToLower(term))
  }

  /** The user search: a match on the e-mail or on the full name. */
  predicate MatchesSearch(u: User, term: string) {
    FieldMatches(u.email, term) || FieldMatches(u.fullName, term)
  }

  /** The plan filter: `"all"`, or exactly the stored tier. */
  predicate MatchesPlan(u: User, plan: string) {
    plan == "all" || u.subscriptionTier == Some(plan)
  }

  predicate ShowsUser(term: string, plan: string, u: User) {
    MatchesSearch(u, term) && MatchesPlan(u, plan)
  }

  /** `filteredUsers`: the users matching both the search and the plan filter, in fetch order. */
  function FilteredUsers(users: seq<User>, term: string, plan: string): (r: seq<User>)
    ensures forall u :: u in r <==> u in users && MatchesSearch(u, term) && MatchesPlan(u, plan)
    ensures forall u :: multiset(r)[u] <= multiset(users)[u]
  {
    Lists.FilterCounts(u => ShowsUser(term, plan, u), users);
    Lists.Filter(u => ShowsUser(term, plan, u), users)
  }

  /** The filtered users are an order-preserving subsequence of the fetched users. */
  lemma FilteredUsersIsSubsequence(users: seq<User>, term: string, plan: string)
    ensures Lists.IsSubsequence(FilteredUsers(users, term, plan), users)
  {
    Lists.FilterIsSubsequence(u => ShowsUser(term, plan, u), users);
  }

  /** A user with an e-mail or a full name, the only kind an empty search can match. */
  predicate Named(u: User) {
    u.email.Some? || u.fullName.Some?
  }

  /** With an empty search and plan `"all"`, exactly the users with an e-mail or a full name are listed, in fetch order. */
  lemma EmptySearchListsNamedUsers(users: seq<User>)
    ensures FilteredUsers(users, "", "all") == Lists.Filter(Named, users)
  {
    forall u | u in users ensures ShowsUser("", "all", u) == Named(u) {
      if u.email.Some? {
        assert StartsWith(ToLower(u.email.value), ToLower(""));
      } else if u.fullName.Some? {
        assert StartsWith(ToLower(u.fullName.value), ToLower(""));
      }
    }
    Lists.FilterAgree(u => ShowsUser("", "all", u), Named, users);
  }

  /** In particular, when every fetched user has an e-mail or a full name, the empty search lists them all. */
  lemma EmptySearchListsAllNamed(users: seq<User>)
    requires forall u :: u in users ==> Named(u)
    ensures FilteredUsers(users, "", "all") == users
  {
    EmptySearchListsNamedUsers(users);
    Lists.FilterKeepsAll(Named, users);
  }

  /** A user with neither an e-mail nor a full name is never listed, whatever the search. */
  lemma UnnamedUserNeverListed(users: seq<User>, term: string, plan: string, u: User)
    requires u.email == None && u.fullName == None
    ensures u !in FilteredUsers(users, term, plan)
  {
  }

  /** The plan filter `"free"` passes over a user without a tier, although the table shows that user as Free. */
  lemma UntieredUserNotFree(u: User, term: string)
    requires u.subscriptionTier == None
    ensures !MatchesPlan(u, "free")
    ensures TableBadge(u) == "Free"
  {
  }

  // ---------------------------------------------------------------------------
  // Tier badge and counters

  /** `getSubscriptionBadge`'s label: the three known tiers, and Free for anything else. */
  function SubscriptionBadge(tier: string): (badge: string)
    ensures badge in {"Free", "Pro", "Enterprise"}
    ensures badge == "Pro" <==> tier == "pro"
    ensures badge == "Enterprise" <==> tier == "enterprise"
  {
    if tier == "pro" then "Pro"
    else if tier == "enterprise" then "Enterprise"
    else "Free"
  }

  /** The badge of a table row: `getSubscriptionBadge(user.subscription_tier || 'free')`. */
  function TableBadge(u: User): (badge: string)
    ensures badge in {"Free", "Pro", "Enterprise"}
    ensures badge == "Pro" <==> u.subscriptionTier == Some("pro")
    ensures badge == "Enterprise" <==> u.subscriptionTier == Some("enterprise")
  {
    SubscriptionBadge(if u.subscriptionTier.Some? && u.subscriptionTier.value != "" then u.subscriptionTier.value else "free")
  }

  predicate HasTier(tier: string, u: User) {
    u.subscriptionTier == Some(tier)
  }

  /** The Pro and Enterprise counters: the number of users whose stored tier is exactly `tier`. */
  function TierCount(users: seq<User>, tier: string): (n: nat)
    ensures n <= |users|
    ensures n == |users| <==> forall u :: u in users ==> HasTier(tier, u)
  {
    Lists.FilterLengthFull(u => HasTier(tier, u), users);
    |Lists.Filter(u => HasTier(tier, u), users)|
  }

  /** The counters add up over two batches of users. */
  lemma TierCountAppend(a: seq<User>, b: seq<User>, tier: string)
    ensures TierCount(a + b, tier) == TierCount(a, tier) + TierCount(b, tier)
  {
    Lists.FilterAppend(u => HasTier(tier, u), a, b);
  }

  // ---------------------------------------------------------------------------
  // Testimonials

  /** `t.is_approved` is truthy. */
  predicate IsApproved(t: Testimonial) {
    t.isApproved == Some(true)
  }

  /** `!t.is_approved`: false and null both count as pending. */
  predicate IsPending(t: Testimonial) {
    !IsApproved(t)
  }

  function PendingTestimonials(ts: seq<Testimonial>): seq<Testimonial> {
    Lists.Filter(IsPending, ts)
  }

  function ApprovedTestimonials(ts: seq<Testimonial>): seq<Testimonial> {
    Lists.Filter(IsApproved, ts)
  }

  /**
   * Pending and approved split the testimonials: each is in exactly one list,
   * the lengths sum to the total, nothing is duplicated, and both lists keep
   * the fetched order.
   */
  lemma TestimonialsPartition(ts: seq<Testimonial>)
    ensures multiset(PendingTestimonials(ts)) + multiset(ApprovedTestimonials(ts)) == multiset(ts)
    ensures |PendingTestimonials(ts)| + |ApprovedTestimonials(ts)| == |ts|
    ensures forall t :: t in ts ==> (t in PendingTestimonials(ts) <==> t !in ApprovedTestimonials(ts))
    ensures forall t :: t in PendingTestimonials(ts) <==> t in ts && t.isApproved != Some(true)
    ensures Lists.IsSubsequence(PendingTestimonials(ts), ts)
    ensures Lists.IsSubsequence(ApprovedTestimonials(ts), ts)
  {
    Lists.FilterPartition(IsPending, IsApproved, ts);
    Lists.FilterIsSubsequence(IsPending, ts);
    Lists.FilterIsSubsequence(IsApproved, ts);
  }

  // ---------------------------------------------------------------------------
  // checkAdminAccess and the loading flag

  /** What the access check learns: no signed-in user, a thrown error, or the role column (absent when no row came back). */
  datatype AccessOutcome = NoUser | LookupThrew | Role(role: Option<string>)

  /** A collection fetch: rows, a null result (`data || []` makes it empty), or an error that is only logged. */
  datatype Fetch<T> = Rows(rows: seq<T>) | NullRows | FetchError

  /** The toast the check raises, if any. */
  datatype AccessNotice = Granted | AccessDenied | VerifyFailed

  /** The list a fetch leaves behind: the rows, empty for a null result, the old list after an error. */
  function AfterFetch<T>(old_: seq<T>, f: Fetch<T>): seq<T> {
    match f
    case Rows(rows) => rows
    case NullRows => []
    case FetchError => old_
  }

  /** The state the panel keeps between renders. */
  class AdminPanelPage {
    var users: seq<User>
    var testimonials: seq<Testimonial>
    var loading: bool
    var searchTerm: string
    var selectedSubscription: string

    constructor ()
      ensures users == [] && testimonials == [] && loading
      ensures searchTerm == "" && selectedSubscription == "all"
    {
      users, testimonials, loading := [], [], true;
      searchTerm, selectedSubscription := "", "all";
    }

    /**
     * `checkAdminAccess`: only an admin role fetches the two lists (each fetch
     * swallows its own error); on every path, denial and error included,
     * `loading` ends false.
     */
    method CheckAdminAccess(access: AccessOutcome, usersFetch: Fetch<User>, testimonialsFetch: Fetch<Testimonial>)
      returns (notice: AccessNotice)
      modifies this
      ensures !loading
      ensures notice == match access
        case NoUser => VerifyFailed
        case LookupThrew => VerifyFailed
        case Role(role) => if role == Some("admin") then Granted else AccessDenied
      ensures users == if notice == Granted then AfterFetch(old(users), usersFetch) else old(users)
      ensures testimonials == if notice == Granted then AfterFetch(old(testimonials), testimonialsFetch) else old(testimonials)
      ensures searchTerm == old(searchTerm) && selectedSubscription == old(selectedSubscription)
    {
      match access {
        case NoUser =>
          notice := VerifyFailed;
        case LookupThrew =>
          notice := VerifyFailed;
        case Role(role) =>
          if role != Some("admin") {
            notice := AccessDenied;
          } else {
            users := AfterFetch(users, usersFetch);
            testimonials := AfterFetch(testimonials, testimonialsFetch);
            notice := Granted;
          }
      }
      loading := false;
    }

    /** The rows the Users tab shows. */
    function ShownUsers(): seq<User>
      reads this
    {
      FilteredUsers(users, searchTerm, selectedSubscription)
    }
  }
}
