# sparkcreator-ai dashboard logic in Dafny

This project models the sequential logic inside the pages of the creator-marketing dashboard:

- the in-memory search filters of Creator Discovery and the Admin Panel;
- the canned caption and hashtag generators of the Caption Writer and the Content Lab;
- the assistant's keyword responder and chat transcript;
- the platform-selection toggle and post validation of Multi-Platform Posting;
- the sidebar highlight rule of the dashboard layout;
- the default profile, save payload and tier labels of Profile & Billing.

Every remote effect (the hosted database, authentication) and every timer is outside the model. A remote result enters as a parameter.

Each page that keeps state is a `class` whose `seq` fields are the React state arrays. Each handler is a `method` whose contract states the new state. Pure derivations are `function`s, and lemmas relate them.

A timed generation (`setTimeout`) has two steps:

- the click method validates and returns what the timer closure captured (an `Option`);
- a `Complete…`/`Receive…`/`Finish…` method takes that capture and applies the update.

`Date.now()` ids are parameters.

Shared modules model the JavaScript built-ins the pages use, with their own lemmas:

- `Lists`: `Array.prototype.filter`;
- `Text`:
  - `toLowerCase`, ASCII only;
  - `includes`, `startsWith` and `trim`;
  - `split` on one character, and `join`;
  - `toString` and `parseInt`.

A non-empty follower threshold that `parseInt` reads as NaN hides every creator: the code compares `followers_count >= NaN`, which is always false (`CreatorDiscovery.UnparsableThresholdHidesAll`).

## Model

| member | source | states |
|---|---|---|
| CreatorDiscovery.FilteredCreators | src/pages/dashboard/CreatorDiscovery.tsx:75-83 | A creator is kept iff search, platform, niche and follower tests all hold. No creator is kept more often than it occurs. |
| CreatorDiscovery.FilteredIsSubsequence | src/pages/dashboard/CreatorDiscovery.tsx:75 | The filtered list is an order-preserving subsequence of the fetched list. |
| CreatorDiscovery.InitialCriteriaKeepAll | src/pages/dashboard/CreatorDiscovery.tsx:38-41 | With search "", platform "all", niche "all" and threshold "", the result is the whole list. |
| CreatorDiscovery.UnparsableThresholdHidesAll | src/pages/dashboard/CreatorDiscovery.tsx:80 | A non-empty threshold that parses to NaN leaves the result empty. |
| CreatorDiscovery.NumericThreshold | src/pages/dashboard/CreatorDiscovery.tsx:80 | A threshold typed as the numeral of n admits exactly the creators with at least n followers. |
| CreatorDiscovery.SearchIgnoresCase | src/pages/dashboard/CreatorDiscovery.tsx:76-77 | A term and its lower-cased form match the same creators. |
| CreatorDiscovery.FormatFollowers | src/pages/dashboard/CreatorDiscovery.tsx:85-89 | "M" iff the count is at least 1,000,000. Plain numeral iff below 1,000, and then the text is exactly the count's decimal numeral (`toString`), which parses back to the count. |
| AdminPanel.FilteredUsers | src/pages/dashboard/AdminPanel.tsx:167-173 | A user is listed iff the e-mail or full name contains the term, case-insensitively, and the plan is "all" or equals the tier. |
| AdminPanel.FilteredUsersIsSubsequence | src/pages/dashboard/AdminPanel.tsx:167 | The listed users keep the fetched order. |
| AdminPanel.EmptySearchListsNamedUsers | src/pages/dashboard/AdminPanel.tsx:168-171 | For any fetched list, "" and "all" list exactly the users with an e-mail or a full name, in fetch order: the same list as filtering by `Named`. |
| AdminPanel.EmptySearchListsAllNamed | src/pages/dashboard/AdminPanel.tsx:168-171 | When every user has an e-mail or a full name, "" and "all" list the whole fetched list. |
| AdminPanel.UnnamedUserNeverListed | src/pages/dashboard/AdminPanel.tsx:168-169 | A user with neither an e-mail nor a full name is never listed, whatever the search. |
| AdminPanel.UntieredUserNotFree | src/pages/dashboard/AdminPanel.tsx:170-171 | A user without a tier fails the "free" plan filter, yet the table badge shows Free. |
| AdminPanel.TableBadge | src/pages/dashboard/AdminPanel.tsx:309 | The row badge is Free, Pro or Enterprise. Pro iff the stored tier is exactly "pro", Enterprise iff it is exactly "enterprise"; a missing or empty tier shows Free. |
| AdminPanel.SubscriptionBadge | src/pages/dashboard/AdminPanel.tsx:157-165 | The label is one of Free, Pro, Enterprise. Pro iff "pro", Enterprise iff "enterprise", Free for every other tier. |
| AdminPanel.TierCount | src/pages/dashboard/AdminPanel.tsx:214-226 | The counter is at most the number of users. It equals that number iff every user has exactly that tier. |
| AdminPanel.TierCountAppend | src/pages/dashboard/AdminPanel.tsx:214-226 | The counters add up over two batches of users. |
| AdminPanel.TestimonialsPartition | src/pages/dashboard/AdminPanel.tsx:175-176 | Pending and approved split the testimonials: each is in exactly one list, the multisets add up, the lengths sum to the total, null and false count as pending, and both lists keep the order. |
| AdminPanel.AdminPanelPage.CheckAdminAccess | src/pages/dashboard/AdminPanel.tsx:47-107 | `loading` is false on every path. Only role "admin" replaces the lists: rows, empty for null, unchanged after a fetch error. The notice tells denial from failure. |
| CaptionWriter.CaptionContainsTopic | src/pages/dashboard/CaptionWriter.tsx:113-122 | The topic occurs verbatim in the caption of every platform. |
| CaptionWriter.EmptyFieldsTakeDefaults | src/pages/dashboard/CaptionWriter.tsx:115-118 | An empty key points, audience or call to action gives the same caption as typing that platform's default phrase. |
| CaptionWriter.EmptyKeyPointsShowDefault | src/pages/dashboard/CaptionWriter.tsx:115-118 | With empty key points, the platform's default phrase appears in the caption. |
| CaptionWriter.UnknownPlatformWritesInstagram | src/pages/dashboard/CaptionWriter.tsx:121 | A platform value outside the four known ones gives the Instagram caption. |
| CaptionWriter.MockCaption | src/pages/dashboard/CaptionWriter.tsx:113-122 | The caption starts with the platform template's opening and the topic, and is at least as long as the four form fields together. |
| CaptionWriter.IndustryTags | src/pages/dashboard/CaptionWriter.tsx:125-141 | Every industry, listed or not, has five base tags. |
| CaptionWriter.MockHashtags | src/pages/dashboard/CaptionWriter.tsx:124-145 | The first three industry tags, then platform tags: 5 tags for a known platform, 3 for an unknown one. |
| CaptionWriter.UnlistedIndustryIsFashion | src/pages/dashboard/CaptionWriter.tsx:141 | An industry without a row, such as business or lifestyle, gets the fashion tags. |
| CaptionWriter.HashtagsHaveNoSpace | src/pages/dashboard/CaptionWriter.tsx:124-145 | No generated tag contains a space. |
| CaptionWriter.NewCaption | src/pages/dashboard/CaptionWriter.tsx:96-105 | A generated caption has engagement "High", the form's tone and the given id. |
| CaptionWriter.PlatformLabel | src/pages/dashboard/CaptionWriter.tsx:96 | The label is one of the four platform names; it is Instagram iff the platform is instagram or not one of the four. |
| CaptionWriter.CopyText | src/pages/dashboard/CaptionWriter.tsx:147-151 | The copied text starts with the content and a blank line, followed by the first hashtag when there is one. |
| CaptionWriter.CopyTextRecoversHashtags | src/pages/dashboard/CaptionWriter.tsx:147-151 | The copied text is the content, a blank line, then text that splits on spaces back into exactly the hashtags. |
| CaptionWriter.WithoutId | src/pages/dashboard/CaptionWriter.tsx:154 | A caption remains iff it was there and its id differs. |
| CaptionWriter.WithoutIdIsSubsequence | src/pages/dashboard/CaptionWriter.tsx:154 | Removal keeps the order and leaves no caption with that id. |
| CaptionWriter.CaptionWriterPage.HandleGenerate | src/pages/dashboard/CaptionWriter.tsx:86-93 | An empty topic changes nothing. Otherwise `isGenerating` is set and the form is captured. |
| CaptionWriter.CaptionWriterPage.CompleteGeneration | src/pages/dashboard/CaptionWriter.tsx:95-110 | Exactly one caption is prepended, built from the captured form, and `isGenerating` is cleared. |
| CaptionWriter.CaptionWriterPage.RegenerateCaption | src/pages/dashboard/CaptionWriter.tsx:153-156 | Every caption with the id is removed, then a generation starts. With an empty topic, removal is the only effect. |
| CaptionWriter.RegenerateScenario | src/pages/dashboard/CaptionWriter.tsx:153-156 | Regenerating the first caption of a list with unique ids, then completing, replaces it by the new caption in front and keeps the rest. |
| ContentLab.TitlesDetermineName | src/pages/dashboard/ContentLab.tsx:82-107 | Different product names give different poster titles and different caption titles. |
| ContentLab.PosterAndCaptionTitlesDiffer | src/pages/dashboard/ContentLab.tsx:82-107 | A poster title never equals a caption title. |
| ContentLab.PosterTitle | src/pages/dashboard/ContentLab.tsx:82 | The product name occurs in the poster title. |
| ContentLab.PosterText | src/pages/dashboard/ContentLab.tsx:83 | The product name occurs in the poster text. |
| ContentLab.CaptionTitle | src/pages/dashboard/ContentLab.tsx:107 | The product name occurs in the caption title. |
| ContentLab.CaptionText | src/pages/dashboard/ContentLab.tsx:108 | The product name and the target audience occur in the caption text. |
| ContentLab.EmptyDescriptionLeavesGap | src/pages/dashboard/ContentLab.tsx:108 | The caption has no default: an empty description leaves "!  Perfect for " with a double space. |
| ContentLab.Produce | src/pages/dashboard/ContentLab.tsx:79-134 | The produced item carries the id and the job's kind. Only posters get an image. |
| ContentLab.WithoutId | src/pages/dashboard/ContentLab.tsx:148 | An item remains iff it was there and its id differs. |
| ContentLab.WithoutIdIsSubsequence | src/pages/dashboard/ContentLab.tsx:148 | Deletion keeps the order and leaves no item with that id. |
| ContentLab.DeleteUndoesGeneration | src/pages/dashboard/ContentLab.tsx:148 | Deleting the id of a just-prepended item restores the old list when no older item shares the id. |
| ContentLab.PreviewFiles | src/pages/dashboard/ContentLab.tsx:208 | The preview is a prefix of the uploads, at most three long, and all of them when there are at most three. |
| ContentLab.PreviewRows | src/pages/dashboard/ContentLab.tsx:208-216 | One line per previewed file, in order, with that file's name and the image icon iff its type starts with `image/`. |
| ContentLab.VideoFilesShowVideoIcon | src/pages/dashboard/ContentLab.tsx:210-214 | A `video/` file never gets the image icon. |
| ContentLab.OverflowCount | src/pages/dashboard/ContentLab.tsx:218-220 | The "+n more" note appears iff there are more than three files. Together with the preview it accounts for every file. |
| ContentLab.ContentLabPage.HandleFileUpload | src/pages/dashboard/ContentLab.tsx:63-67 | The new files are appended after the existing ones. Nothing else changes. |
| ContentLab.ContentLabPage.HandleGeneratePoster | src/pages/dashboard/ContentLab.tsx:69-78 | An empty product name changes nothing. Otherwise a poster job is captured and `isGenerating` is set. |
| ContentLab.ContentLabPage.HandleGenerateCaption | src/pages/dashboard/ContentLab.tsx:94-103 | The same validation, then a caption job. |
| ContentLab.ContentLabPage.HandleVideoEdit | src/pages/dashboard/ContentLab.tsx:118-127 | No uploaded file changes nothing. Otherwise a video job starts. |
| ContentLab.ContentLabPage.CompleteGeneration | src/pages/dashboard/ContentLab.tsx:88-137 | Exactly one item is prepended and `isGenerating` is cleared. |
| ContentLab.ContentLabPage.DeleteContent | src/pages/dashboard/ContentLab.tsx:147-150 | Every item with the id is removed. Nothing else changes. |
| MultiPlatformPosting.FindIndex | src/pages/dashboard/MultiPlatformPosting.tsx:382 | The search stops at the first account of the platform: no earlier account has it, and the end is reached only when none does. |
| MultiPlatformPosting.FindAccount | src/pages/dashboard/MultiPlatformPosting.tsx:382 | None iff no account has the platform. Otherwise the account at the first such position, which has that platform. |
| MultiPlatformPosting.ConnectedPlatforms | src/pages/dashboard/MultiPlatformPosting.tsx:101-147 | Exactly Instagram, Twitter and WhatsApp respond to clicks. |
| MultiPlatformPosting.Toggle | src/pages/dashboard/MultiPlatformPosting.tsx:178-184 | The toggled id's membership flips and every other id's is unchanged. An absent id goes at the end. |
| MultiPlatformPosting.ToggleOffKeepsOrder | src/pages/dashboard/MultiPlatformPosting.tsx:181 | Removing an id keeps the others in order. |
| MultiPlatformPosting.ToggleTwiceRestores | src/pages/dashboard/MultiPlatformPosting.tsx:180-182 | Toggling an absent id twice restores the selection exactly. |
| MultiPlatformPosting.ToggleKeepsDistinct | src/pages/dashboard/MultiPlatformPosting.tsx:180-182 | A duplicate-free selection stays duplicate-free. |
| MultiPlatformPosting.Click | src/pages/dashboard/MultiPlatformPosting.tsx:394 | A click toggles iff the platform's account is connected. |
| MultiPlatformPosting.InitialSelectionValid | src/pages/dashboard/MultiPlatformPosting.tsx:94 | The initial selection ['instagram'] is duplicate-free and connected. |
| MultiPlatformPosting.ClickKeepsValid | src/pages/dashboard/MultiPlatformPosting.tsx:178-184 | Clicks preserve the invariant: duplicate-free and only instagram, twitter or whatsapp. |
| MultiPlatformPosting.ValidatePost | src/pages/dashboard/MultiPlatformPosting.tsx:186-195 | Whitespace-only content is rejected first, even with no platform. An empty selection is rejected second. Acceptance captures the platform count. |
| MultiPlatformPosting.StatusBadgesDistinct | src/pages/dashboard/MultiPlatformPosting.tsx:211-231 | Every status has a colour and an icon, and different statuses get different ones. |
| MultiPlatformPosting.StatusIcon | src/pages/dashboard/MultiPlatformPosting.tsx:211-220 | The check-circle icon is shown iff the post is published, the cross iff it failed. |
| MultiPlatformPosting.StatusColorMatchesIcon | src/pages/dashboard/MultiPlatformPosting.tsx:211-231 | The badge's colour classes end with the icon's colour class, so badge and icon always agree in colour. |
| MultiPlatformPosting.PostingPage.ClickPlatform | src/pages/dashboard/MultiPlatformPosting.tsx:394 | The selection becomes `Click(old, id)`. Nothing else changes. |
| MultiPlatformPosting.PostingPage.HandlePost | src/pages/dashboard/MultiPlatformPosting.tsx:186-197 | The outcome is `ValidatePost` of the current state. A rejection changes nothing, and acceptance sets `isPosting`. |
| MultiPlatformPosting.PostingPage.FinishPost | src/pages/dashboard/MultiPlatformPosting.tsx:200-208 | `isPosting` is false, the content is "" and the selection is unchanged. The notice counts the captured platforms or says scheduled. |
| AIAssistant.ReplyTextsDistinct | src/components/dashboard/AIAssistant.tsx:61-76 | The five canned texts are pairwise different, so the text shown tells which rule answered. |
| AIAssistant.BotResponseRules | src/components/dashboard/AIAssistant.tsx:57-77 | Each of the five answers comes back iff its rule's keywords occur in the lower-cased input and no earlier rule's do: campaign and suggest, caption or content, analytics or performance, influencer or creator, otherwise the default. |
| AIAssistant.BotResponse | src/components/dashboard/AIAssistant.tsx:57-77 | A campaign question always gets the campaign answer; the default answer comes back iff none of the four rules matches. |
| AIAssistant.BotResponseIgnoresCase | src/components/dashboard/AIAssistant.tsx:58 | Lower-casing the input first does not change the reply. |
| AIAssistant.AssistantPage.Open | src/components/dashboard/AIAssistant.tsx:91 | The window opens. Nothing else changes. |
| AIAssistant.AssistantPage.Close | src/components/dashboard/AIAssistant.tsx:137 | The window closes and the transcript is kept. |
| AIAssistant.AssistantPage.ToggleMinimized | src/components/dashboard/AIAssistant.tsx:129 | The minimised flag flips. |
| AIAssistant.AssistantPage.SendMessage | src/components/dashboard/AIAssistant.tsx:30-42 | Blank input changes nothing. Otherwise the user's message is appended, the input cleared, typing set and the input captured. |
| AIAssistant.AssistantPage.ReceiveReply | src/components/dashboard/AIAssistant.tsx:45-54 | One bot message answering the captured input is appended, and typing is cleared. |
| AIAssistant.Exchange | src/components/dashboard/AIAssistant.tsx:30-55 | A send followed by its reply appends exactly the user's message, then the answer to it. |
| DashboardLayout.PrefixesComparable | src/components/dashboard/DashboardLayout.tsx:41 | Two prefixes of one path are prefix-related. |
| DashboardLayout.SectionPathsNotPrefixes | src/components/dashboard/DashboardLayout.tsx:24-30 | No non-overview href is a prefix of another. |
| DashboardLayout.AtMostOneActive | src/components/dashboard/DashboardLayout.tsx:22-42 | No path highlights two sidebar items. |
| DashboardLayout.ActiveItems | src/components/dashboard/DashboardLayout.tsx:37-42 | The highlighted items are those whose `isActive` holds, and there is never more than one. |
| DashboardLayout.OwnPathHighlightsItem | src/components/dashboard/DashboardLayout.tsx:37-42 | On an item's own path, exactly that item is highlighted. |
| DashboardLayout.SubpathHighlightsSection | src/components/dashboard/DashboardLayout.tsx:38-41 | A deeper path highlights its section but never the overview, which needs the exact path. |
| DashboardLayout.Sidebar.OpenMenu | src/components/dashboard/DashboardLayout.tsx:139 | The menu button sets `sidebarOpen`. |
| DashboardLayout.Sidebar.Dismiss | src/components/dashboard/DashboardLayout.tsx:54 | The overlay and the close button clear `sidebarOpen`. |
| DashboardLayout.Sidebar.FollowLink | src/components/dashboard/DashboardLayout.tsx:91-99 | A link clears `sidebarOpen` and moves to the item's path. |
| ProfileBilling.DefaultUsername | src/pages/dashboard/ProfileBilling.tsx:58 | Non-empty and without '@'. Either "user" or a prefix of the e-mail that ends at its end or at an '@'. |
| ProfileBilling.DefaultUsernameIsLocalPart | src/pages/dashboard/ProfileBilling.tsx:58 | For local@domain with a non-empty local part, the username is exactly the local part. |
| ProfileBilling.DefaultUsernameFallback | src/pages/dashboard/ProfileBilling.tsx:58 | No e-mail, or one starting with '@', gives "user". |
| ProfileBilling.DefaultUsernameNoAt | src/pages/dashboard/ProfileBilling.tsx:58 | A non-empty e-mail without '@' gives the whole e-mail as username. |
| ProfileBilling.DefaultInsert | src/pages/dashboard/ProfileBilling.tsx:54-62 | The inserted row has the user id, the default username, and empty full name, bio and website. |
| ProfileBilling.SaveRequest | src/pages/dashboard/ProfileBilling.tsx:80-93 | No request without a loaded profile. Otherwise the request is keyed by the profile's id. |
| ProfileBilling.SaveWritesOnlyEditableFields | src/pages/dashboard/ProfileBilling.tsx:87-92 | A save writes username, full name, bio and website. Id, avatar and subscription keep their stored values. |
| ProfileBilling.SaveUnchangedIsIdentity | src/pages/dashboard/ProfileBilling.tsx:87-92 | Saving an unedited profile leaves the row as it was. |
| ProfileBilling.DisplayName | src/pages/dashboard/ProfileBilling.tsx:185 | The full name when it is non-empty, else the username. |
| ProfileBilling.AvatarInitial | src/pages/dashboard/ProfileBilling.tsx:178 | The initial exists iff the display name is non-empty, and it is that name's first character. |
| ProfileBilling.DefaultProfileHasInitial | src/pages/dashboard/ProfileBilling.tsx:178 | A default profile always has an initial: the default username's first letter. |
| ProfileBilling.PlanCardOf | src/pages/dashboard/ProfileBilling.tsx:254-285 | Upgrade is offered iff the tier is free, iff the price is $0, iff the creator database is Limited. $29 iff the tier is pro; $99 iff the tier is neither free nor pro. Unlimited generations iff unlimited campaigns iff $99. |
| ProfileBilling.UnknownTierShownAsEnterprise | src/pages/dashboard/ProfileBilling.tsx:254-280 | The price and quota ternaries by themselves give any tier other than free and pro the enterprise values; `PlanPanel` decides whether they are reached. |
| ProfileBilling.PlanCardsDistinct | src/pages/dashboard/ProfileBilling.tsx:254-285 | The three tiers give three different cards. |
| ProfileBilling.ProfileBadge | src/pages/dashboard/ProfileBilling.tsx:120-127 | The badge config is defined iff the tier is free, pro or enterprise. |
| ProfileBilling.BadgesAgree | src/pages/dashboard/ProfileBilling.tsx:120-127 | Where defined, the label matches the admin panel's badge. Elsewhere the admin panel falls back to Free. |
| ProfileBilling.PlanPanel | src/pages/dashboard/ProfileBilling.tsx:120-285 | The plan section renders iff the tier has a badge entry (free, pro or enterprise), and then shows that tier's card under the admin panel's label for it. Any other tier throws in the badge lookup first, so nothing is shown. |
| ProfileBilling.PlanPanelByTier | src/pages/dashboard/ProfileBilling.tsx:120-285 | Free, pro and enterprise render their own price, quotas and upgrade offer. Any other tier renders no plan section. |
| Lists.FilterCounts | src/pages/dashboard/CreatorDiscovery.tsx:75 | `filter` keeps every occurrence of an element the predicate accepts and none of any other. |
| Lists.Filter | src/pages/dashboard/CreatorDiscovery.tsx:75 | `filter` keeps an element iff it was in the input and the predicate holds of it, and never returns more elements than it was given. |
| Lists.FilterAgree | src/pages/dashboard/AdminPanel.tsx:168-171 | Predicates that agree on every element keep the same list. |
| Lists.FilterIsSubsequence | src/pages/dashboard/CreatorDiscovery.tsx:75 | Every `filter` result embeds into its input at increasing positions. |
| Lists.FilterPartition | src/pages/dashboard/AdminPanel.tsx:175-176 | Filtering by a predicate and by its negation splits the input exactly. |
| Text.ParseIntToString | src/pages/dashboard/CreatorDiscovery.tsx:80 | `parseInt` of the decimal numeral of n is n. |
| Text.SplitJoin | src/pages/dashboard/CaptionWriter.tsx:148 | Splitting a join of separator-free pieces returns the pieces. |
| Text.SplitHead | src/pages/dashboard/ProfileBilling.tsx:58 | The first piece of a split is the text before the first separator, or all of it when there is none. |
| Text.Split | src/pages/dashboard/CaptionWriter.tsx:148 | A split has at least one piece and no piece contains the separator. |
| Text.Join | src/pages/dashboard/CaptionWriter.tsx:148 | A join starts with the first piece, and with the first piece and the separator when there are at least two. |
| Text.ToLower | src/pages/dashboard/CreatorDiscovery.tsx:76 | Lower-casing keeps the length and maps each character on its own. |
| Text.ContainsOccurrence | src/pages/dashboard/CreatorDiscovery.tsx:76 | `includes` holds iff the needle occurs at some index. |
| Text.Trim | src/pages/dashboard/MultiPlatformPosting.tsx:187 | `trim()` is no longer than its input, and neither starts nor ends with white space. |
| Text.ParseInt | src/pages/dashboard/CreatorDiscovery.tsx:80 | NaN iff no digit of the radix follows the white space, sign and hex prefix. A number read without a minus sign is not negative. |
| Text.TrimStartRemovesBlankPrefix | src/pages/dashboard/MultiPlatformPosting.tsx:187 | `trimStart` removes a prefix made only of white space, and what remains does not start with white space. |
| Text.TrimEndRemovesBlankSuffix | src/pages/dashboard/MultiPlatformPosting.tsx:187 | `trimEnd` removes a suffix made only of white space, and keeps a string that starts with something else non-empty. |
| Text.TrimEmptyIffBlank | src/pages/dashboard/MultiPlatformPosting.tsx:187 | `trim()` is empty iff every character is whitespace. |

## Left out

- Hosted-database calls are remote I/O and are not modelled:
  - fetching creators, users and testimonials;
  - approving and rejecting testimonials;
  - the role lookup;
  - fetching, creating and saving a profile;
  - all of the campaign manager.
  - `CheckAdminAccess` receives the lookup's outcome and each fetch's outcome as parameters.
- Timers: a generation, post or reply is a start step and a finish step, called in order. Two overlapping generations, and a finish after later edits, are not modelled.
- `Date.now()` ids and `new Date()` timestamps read the clock. Ids are parameters and timestamps are dropped.
- CreatorDiscovery.FormatFollowers: only the suffix choice is modelled. The one-decimal `toFixed(1)` quotient is floating point.
- Text.ParseInt: returns the exact integer. JavaScript's double rounding of numerals longer than 15 digits is not modelled.
- Text.ToLower: maps only ASCII letters. JavaScript's `toLowerCase` also maps the rest of Unicode.
- Toasts, `navigator.clipboard`, animations and routing are not modelled. Of the icons and CSS classes, only the posting status badges and the upload preview's icon are kept. `copyCaption`'s text and the posting notice are kept as values.
- Nullable columns are read as the empty string. These are `full_name`, `bio`, `website` and `username` of a profile, and `is_approved`, which is kept as an option.
- ProfileBilling.AvatarInitial: a null `username` with an empty `full_name` throws in the source at ProfileBilling.tsx:178 (`username[0]` of null). The model reads null as "" and shows no initial.
- ProfileBilling.AvatarInitial: strings are modelled as sequences of Unicode scalar values, not UTF-16 code units. For a name starting outside the Basic Multilingual Plane (an emoji, say), `[0]` at ProfileBilling.tsx:178 gives a lone high surrogate in the source, while the model gives the whole character. The other string operations (`includes`, `split`, `trim`, `startsWith`) agree on well-formed strings.
- ProfileBilling.SaveRequest: a save sends back a null `username` as null (ProfileBilling.tsx:88). The model, reading it as "", writes "".
- ProfileBilling.PlanPanel: `getSubscriptionBadge` reads `config.icon` of `undefined` for any tier other than free, pro and enterprise, a null tier included (ProfileBilling.tsx:126-127). The source then throws a TypeError and the page is gone. The model shows this as no plan section; it does not model the crash of the rest of the page.
- CreatorDiscovery.FilteredCreators: `niche` is nullable. A null `niche` throws at CreatorDiscovery.tsx:79 once a niche is chosen, and at CreatorDiscovery.tsx:241 on every render. The model holds `niche` as a list and does not model that crash.
- CreatorDiscovery.FormatFollowers: `followers_count` is nullable. A null count throws in `formatFollowers` (CreatorDiscovery.tsx:216, `toString` of null), while the filter at CreatorDiscovery.tsx:80 compares it as 0. The model holds the count as a number.
- Tier lookups use exact keys. A tier string naming an inherited object property, such as "toString", is not modelled; in the source it would select that property rather than the fallback.
- The schedule date, schedule time and media fields of the posting page are not modelled. Only `postNow`, which decides the notice, is kept.
- DashboardLayout.Sidebar.FollowLink: the contract states the new path. That this path highlights only the followed item is `OwnPathHighlightsItem`, not part of the method's contract.
- The assistant's input box is disabled while a reply is pending. `SendMessage` does not check this, because the handler itself does not.
