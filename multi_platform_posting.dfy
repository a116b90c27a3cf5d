/**
 * Multi-platform posting: the platform selection toggled by clicks on
 * connected accounts, the two-step validation of a post, the posting flag
 * around the simulated publish, and the status badges of scheduled posts.
 */
module MultiPlatformPosting {
  import opened Wrappers
  import opened Text
  import Lists

  /** A linked social account; `platform` is the platform id it belongs to. */
  datatype SocialAccount = SocialAccount(
    id: string,
    platform: string,
    name: string,
    username: string,
    connected: bool,
    followers: string)

  /** The platform ids, in the order the selection panel lists them. */
  const PlatformIds: seq<string> := ["instagram", "twitter", "linkedin", "youtube", "whatsapp"]

  /** The fixed account table: LinkedIn and YouTube are not connected. */
  const Accounts: seq<SocialAccount> := [
    SocialAccount("1", "instagram", "My Brand", "@mybrand", true, "10.2K"),
    SocialAccount("2", "twitter", "My Brand", "@mybrand", true, "5.8K"),
    SocialAccount("3", "linkedin", "My Brand", "My Brand Page", false, "2.1K"),
    SocialAccount("4", "youtube", "My Brand", "My Brand Channel", false, "1.5K"),
    SocialAccount("5", "whatsapp", "My Brand Business", "+1234567890", true, "500")
  ]

  /** The position of the first account of `platform` at or after `from`; `|accounts|` when there is none. */
  function FindIndex(accounts: seq<SocialAccount>, platform: string, from: nat): (k: nat)
    requires from <= |accounts|
    ensures from <= k <= |accounts|
    ensures forall j :: from <= j < k ==> accounts[j].platform != platform
    ensures k < |accounts| ==> accounts[k].platform == platform
    decreases |accounts| - from
  {
    if from == |accounts| then from
    else if accounts[from].platform == platform then from
    else FindIndex(accounts, platform, from + 1)
  }

  /** `accounts.find(acc => acc.platform === platform)`: the first account of that platform. */
  function FindAccount(accounts: seq<SocialAccount>, platform: string): (r: Option<SocialAccount>)
    ensures r.None? <==> forall a :: a in accounts ==> a.platform != platform
    ensures r.Some? ==> r.value in accounts && r.value.platform == platform
    ensures r.Some? ==> r.value == accounts[FindIndex(accounts, platform, 0)]
  {
    var k := FindIndex(accounts, platform, 0);
    if k < |accounts| then Some(accounts[k]) else None
  }

  /** `account?.connected`: the platform has an account and it is connected. */
  predicate Connected(platform: string) {
    var account := FindAccount(Accounts, platform);
    account.Some? && account.value.connected
  }

  /** Instagram, Twitter and WhatsApp have connected accounts. */
  lemma ThreeConnected(platform: string)
    requires platform in {"instagram", "twitter", "whatsapp"}
    ensures Connected(platform)
  {
  }

  /** No other platform has a connected account: LinkedIn and YouTube are disconnected, the rest have no account. */
  lemma OthersNotConnected(platform: string)
    requires platform !in {"instagram", "twitter", "whatsapp"}
    ensures !Connected(platform)
  {
    if platform !in {"linkedin", "youtube"} {
      assert forall a :: a in Accounts ==> a.platform != platform;
    }
  }

  /** Exactly Instagram, Twitter and WhatsApp can be clicked. */
  lemma ConnectedPlatforms(platform: string)
    ensures Connected(platform) <==> platform in {"instagram", "twitter", "whatsapp"}
  {
    if platform in {"instagram", "twitter", "whatsapp"} {
      ThreeConnected(platform);
    } else {
      OthersNotConnected(platform);
    }
  }

  // ---------------------------------------------------------------------------
  // handlePlatformToggle

  /**
   * `handlePlatformToggle`: a selected id is removed (all of its
   * occurrences), an unselected one is added at the end. The id's membership
   * flips and every other id's stays as it was.
   */
  function Toggle(selected: seq<string>, id: string): (r: seq<string>)
    ensures id in r <==> id !in selected
    ensures forall x :: x != id ==> (x in r <==> x in selected)
    ensures id !in selected ==> |r| == |selected| + 1 && r[..|selected|] == selected
  {
    if id in selected then Lists.Filter(x => x != id, selected)
    else selected + [id]
  }

  /** Removing keeps the remaining ids in their order. */
  lemma ToggleOffKeepsOrder(selected: seq<string>, id: string)
    requires id in selected
    ensures Lists.IsSubsequence(Toggle(selected, id), selected)
  {
    Lists.FilterIsSubsequence(x => x != id, selected);
  }

  /** Toggling an unselected id twice gives back the selection exactly. */
  lemma ToggleTwiceRestores(selected: seq<string>, id: string)
    requires id !in selected
    ensures Toggle(Toggle(selected, id), id) == selected
  {
    Lists.FilterAppend(x => x != id, selected, [id]);
    Lists.FilterKeepsAll(x => x != id, selected);
  }

  /** A selection without duplicates stays without duplicates. */
  lemma ToggleKeepsDistinct(selected: seq<string>, id: string)
    requires Lists.Distinct(selected)
    ensures Lists.Distinct(Toggle(selected, id))
  {
    if id in selected {
      Lists.FilterDistinct(x => x != id, selected);
    } else {
      var r := selected + [id];
      forall i, j | 0 <= i < j < |r| ensures r[i] != r[j] {
        if j == |selected| {
          assert r[i] in selected;
        }
      }
    }
  }

  /** A click on a platform row: it toggles only when the platform's account is connected. */
  function Click(selected: seq<string>, id: string): (r: seq<string>)
    ensures Connected(id) ==> r == Toggle(selected, id)
    ensures !Connected(id) ==> r == selected
  {
    if Connected(id) then Toggle(selected, id) else selected
  }

  /** What the selection must satisfy: connected platforms only, none twice. */
  predicate ValidSelection(selected: seq<string>) {
    Lists.Distinct(selected) && forall p :: p in selected ==> Connected(p)
  }

  /** The initial selection, Instagram alone. */
  const InitialSelection: seq<string> := ["instagram"]

  lemma InitialSelectionValid()
    ensures ValidSelection(InitialSelection)
  {
    ConnectedPlatforms("instagram");
  }

  /** Clicks keep the selection valid, so it only ever holds Instagram, Twitter and WhatsApp. */
  lemma ClickKeepsValid(selected: seq<string>, id: string)
    requires ValidSelection(selected)
    ensures ValidSelection(Click(selected, id))
    ensures forall p :: p in Click(selected, id) ==> p in {"instagram", "twitter", "whatsapp"}
  {
    var r := Click(selected, id);
    if Connected(id) {
      ToggleKeepsDistinct(selected, id);
    }
    forall p | p in r ensures p in {"instagram", "twitter", "whatsapp"} {
      ConnectedPlatforms(p);
    }
  }

  // ---------------------------------------------------------------------------
  // handlePost

  /** The outcome of the checks: blank content is reported before an empty selection. */
  datatype PostCheck = BlankContent | NoPlatforms | Accepted(platformCount: nat, postNow: bool)

  function ValidatePost(content: string, selected: seq<string>, postNow: bool): (c: PostCheck)
    ensures c == BlankContent <==> forall i :: 0 <= i < |content| ==> IsWhitespace(content[i])
    ensures c == NoPlatforms <==> (exists i :: 0 <= i < |content| && !IsWhitespace(content[i])) && selected == []
    ensures c.Accepted? ==> c.platformCount == |selected| > 0 && c.postNow == postNow
  {
    TrimEmptyIffBlank(content);
    if Trim(content) == "" then BlankContent
    else if |selected| == 0 then NoPlatforms
    else Accepted(|selected|, postNow)
  }

  /** The toast the finished post shows. */
  datatype PostNotice = PostedTo(count: nat) | ScheduledNotice

  // ---------------------------------------------------------------------------
  // Status badges

  datatype PostStatus = Scheduled | Published | Failed

  /** `getStatusColor`. */
  function StatusColor(s: PostStatus): string {
    match s
    case Scheduled => "bg-blue-500/10 text-blue-500"
    case Published => "bg-green-500/10 text-green-500"
    case Failed => "bg-red-500/10 text-red-500"
  }

  datatype Icon = Clock | CheckCircle | XCircle

  /** `getStatusIcon`: the icon and its colour class. */
  function StatusIcon(s: PostStatus): (icon: (Icon, string))
    ensures icon.0 == CheckCircle <==> s == Published
    ensures icon.0 == XCircle <==> s == Failed
  {
    match s
    case Scheduled => (Clock, "text-blue-500")
    case Published => (CheckCircle, "text-green-500")
    case Failed => (XCircle, "text-red-500")
  }

  /** Every status has a colour and an icon, and no two statuses share either. */
  lemma StatusBadgesDistinct(s: PostStatus, t: PostStatus)
    ensures StatusColor(s) != ""
    ensures s != t ==> StatusColor(s) != StatusColor(t) && StatusIcon(s).0 != StatusIcon(t).0
  {
    if s != t {
      assert StatusColor(s)[3] != StatusColor(t)[3];
    }
  }

  /** The badge's text colour is the colour of the status icon beside it. */
  lemma StatusColorMatchesIcon(s: PostStatus)
    ensures |StatusColor(s)| > |StatusIcon(s).1|
    ensures StatusColor(s)[|StatusColor(s)| - |StatusIcon(s).1|..] == StatusIcon(s).1
  {
  }

  // ---------------------------------------------------------------------------
  // The screen's state

  class PostingPage {
    var selectedPlatforms: seq<string>
    var postContent: string
    var postNow: bool
    var isPosting: bool

    constructor ()
      ensures selectedPlatforms == InitialSelection && postContent == "" && postNow && !isPosting
    {
      selectedPlatforms, postContent, postNow, isPosting := InitialSelection, "", true, false;
    }

    /** The click on a platform row. */
    method ClickPlatform(id: string)
      modifies this
      ensures selectedPlatforms == Click(old(selectedPlatforms), id)
      ensures postContent == old(postContent) && postNow == old(postNow) && isPosting == old(isPosting)
    {
      if Connected(id) {
        selectedPlatforms := Toggle(selectedPlatforms, id);
      }
    }

    /** `handlePost`, the click: a rejection changes nothing; acceptance sets `isPosting`. */
    method HandlePost() returns (check: PostCheck)
      modifies this
      ensures check == ValidatePost(old(postContent), old(selectedPlatforms), old(postNow))
      ensures isPosting == (old(isPosting) || check.Accepted?)
      ensures selectedPlatforms == old(selectedPlatforms) && postContent == old(postContent) && postNow == old(postNow)
    {
      if Trim(postContent) == "" {
        TrimEmptyIffBlank(postContent);
        return BlankContent;
      }
      if |selectedPlatforms| == 0 {
        return NoPlatforms;
      }
      isPosting := true;
      check := Accepted(|selectedPlatforms|, postNow);
    }

    /** The publish timer fires: the flag drops, the text is cleared, the selection stays. */
    method FinishPost(accepted: PostCheck) returns (notice: PostNotice)
      requires accepted.Accepted?
      modifies this
      ensures !isPosting && postContent == ""
      ensures selectedPlatforms == old(selectedPlatforms) && postNow == old(postNow)
      ensures notice == if accepted.postNow then PostedTo(accepted.platformCount) else ScheduledNotice
    {
      isPosting := false;
      notice := if accepted.postNow then PostedTo(accepted.platformCount) else ScheduledNotice;
      postContent := "";
    }
  }
}
