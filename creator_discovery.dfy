/**
 * The creator-discovery screen: the four-way search filter over the fetched
 * creators and the follower-count label.
 */
module CreatorDiscovery {
  import opened Wrappers
  import opened Text
  import Lists

  /** A creator row, with the fields the filter and the label read. */
  datatype Creator = Creator(
    id: string,
    name: string,
    handle: string,
    platform: string,
    followersCount: int,
    niche: seq<string>)

  /** The filter form: free text, a platform (`"all"` for any), a niche (`"all"` for any) and a follower threshold as typed. */
  datatype Criteria = Criteria(searchTerm: string, platform: string, niche: string, minFollowers: string)

  /** The form as the screen opens it, which constrains nothing. */
  const InitialCriteria := Criteria("", "all", "all", "")

  /** The lower-cased search term occurs in the lower-cased name or handle. */
  predicate MatchesSearch(c: Creator, term: string) {
    Contains(ToLower(c.name), ToLower(term)) || Contains(ToLower(c.handle), ToLower(term))
  }

  predicate MatchesPlatform(c: Creator, platform: string) {
    platform == "all" || c.platform == platform
  }

  predicate MatchesNiche(c: Creator, niche: string) {
    niche == "all" || niche in c.niche
  }

  /** An empty threshold admits everyone; otherwise the count is compared with `parseInt`, and NaN admits no one. */
  predicate MatchesFollowers(c: Creator, minFollowers: string) {
    minFollowers == "" ||
    match ParseInt(minFollowers)
    case Some(threshold) => c.followersCount >= threshold
    case None => false
  }

  /** The predicate the filter applies to one creator: all four tests hold. */
  predicate Keeps(crit: Criteria, c: Creator) {
    && MatchesSearch(c, crit.searchTerm)
    && MatchesPlatform(c, crit.platform)
    && MatchesNiche(c, crit.niche)
    && MatchesFollowers(c, crit.minFollowers)
  }

  /** `filteredCreators`: the creators the criteria keep, in fetch order. */
  function FilteredCreators(creators: seq<Creator>, crit: Criteria): (r: seq<Creator>)
    ensures forall c :: c in r <==> c in creators && Keeps(crit, c)
    ensures forall c :: multiset(r)[c] <= multiset(creators)[c]
  {
    Lists.FilterCounts(c => Keeps(crit, c), creators);
    Lists.Filter(c => Keeps(crit, c), creators)
  }

  /** The filtered list is an order-preserving subsequence of the fetched list. */
  lemma FilteredIsSubsequence(creators: seq<Creator>, crit: Criteria)
    ensures Lists.IsSubsequence(FilteredCreators(creators, crit), creators)
  {
    Lists.FilterIsSubsequence(c => Keeps(crit, c), creators);
  }

  /** Untouched criteria show every creator, in order. */
  lemma InitialCriteriaKeepAll(creators: seq<Creator>)
    ensures FilteredCreators(creators, InitialCriteria) == creators
  {
    forall c | c in creators ensures Keeps(InitialCriteria, c) {
      assert StartsWith(ToLower(c.name), ToLower(""));
    }
    Lists.FilterKeepsAll(c => Keeps(InitialCriteria, c), creators);
  }

  /** A non-empty threshold that `parseInt` reads as NaN hides every creator. */
  lemma UnparsableThresholdHidesAll(creators: seq<Creator>, crit: Criteria)
    requires crit.minFollowers != "" && ParseInt(crit.minFollowers) == None
    ensures FilteredCreators(creators, crit) == []
  {
    Lists.FilterKeepsNone(c => Keeps(crit, c), creators);
  }

  /** A threshold typed as a numeral admits exactly the creators with at least that many followers. */
  lemma NumericThreshold(c: Creator, n: int)
    ensures MatchesFollowers(c, IntToString(n)) <==> c.followersCount >= n
  {
    ParseIntToString(n);
  }

  /** Case does not matter to the search: the term and its lower-cased form keep the same creators. */
  lemma SearchIgnoresCase(c: Creator, term: string)
    ensures MatchesSearch(c, term) <==> MatchesSearch(c, ToLower(term))
  {
    ToLowerIdempotent(term);
  }

  /** Which abbreviation `formatFollowers` shows: a suffix after a one-decimal quotient, or the plain numeral. */
  datatype FollowersLabel = Millions | Thousands | Plain(text: string)

  /** `formatFollowers`: "M" from one million up, "K" from one thousand up, the numeral below. */
  function FormatFollowers(count: int): (r: FollowersLabel)
    ensures r == Millions <==> count >= 1000000
    ensures r.Plain? <==> count < 1000
    ensures r.Plain? ==> r.text == IntToString(count)
    ensures r.Plain? ==> ParseInt(r.text) == Some(count)
  {
    if count >= 1000000 then Millions
    else if count >= 1000 then Thousands
    else
      ParseIntToString(count);
      Plain(IntToString(count))
  }
}
