/**
 * The caption writer: per-platform caption templates with default phrases,
 * the hashtag list built from an industry table and a platform table, the
 * text the copy button puts on the clipboard, and the caption list that
 * generation prepends to and regeneration removes from.
 */
module CaptionWriter {
  import opened Wrappers
  import opened Text
  import Lists

  /** The form; `platform`, `tone` and `industry` hold the lower-case option values. */
  datatype CaptionForm = CaptionForm(
    topic: string,
    platform: string,
    tone: string,
    industry: string,
    targetAudience: string,
    keyPoints: string,
    callToAction: string)

  const InitialForm := CaptionForm("", "instagram", "professional", "fashion", "", "", "")

  datatype GeneratedCaption = GeneratedCaption(
    id: string,
    platform: string,
    content: string,
    hashtags: seq<string>,
    engagement: string,
    tone: string)

  /** The two sample captions the screen starts with. */
  const SeedCaptions: seq<GeneratedCaption> := [
    GeneratedCaption("1", "Instagram",
      "\U{2728} Transform your style with our latest summer collection! \U{1F31F} From breezy dresses to chic accessories, we've curated pieces that speak to your soul. Every thread tells a story of elegance and comfort. What's your summer style story? \U{1F4AB}",
      ["#SummerFashion", "#StyleInspo", "#OOTD", "#FashionForward", "#SummerVibes"], "High", "Casual"),
    GeneratedCaption("2", "LinkedIn",
      "The future of fashion lies in sustainable practices and innovative design. Our latest collection represents a commitment to both style and environmental responsibility. How is your brand contributing to a more sustainable future?",
      ["#SustainableFashion", "#Innovation", "#BusinessStrategy", "#Leadership"], "Medium", "Professional")
  ]

  // ---------------------------------------------------------------------------
  // generateMockCaption

  /** JavaScript's `field || fallback` on a string: the fallback replaces only the empty string. */
  function OrDefault(field: string, fallback: string): string {
    if field == "" then fallback else field
  }

  /**
   * One caption template: the literal text around the four slots (topic, key
   * points, audience, call to action), and the phrase each of the last three
   * slots falls back to.
   */
  datatype Template = Template(
    lead: string, afterTopic: string, afterKeyPoints: string, afterAudience: string, trail: string,
    defaultKeyPoints: string, defaultAudience: string, defaultCallToAction: string)

  const InstagramTemplate := Template(
    "\U{2728} ", " is more than just a trend - it's a lifestyle! \U{1F31F} Our latest collection brings together ",
    " in ways you've never imagined. Perfect for ", " who want to make a statement. ", " \U{1F4AB}",
    "style and comfort", "fashion lovers", "Shop now!")

  const TwitterTemplate := Template(
    "\U{1F680} ", " just got a major upgrade! We're combining ",
    " to create something truly special. ", " are going to love this. ", " #Innovation",
    "innovation with style", "Forward-thinkers", "Check it out!")

  const LinkedInTemplate := Template(
    "The evolution of ", " reflects broader industry trends toward ",
    ". Our approach to ", " demonstrates how businesses can balance style with substance. ", "",
    "innovation and sustainability", "professional clients", "Learn more about our methodology.")

  const YouTubeTemplate := Template(
    "In today's video, we're diving deep into ", "! I'll show you exactly how ",
    " and why it matters for ", ". ", " \U{1F3A5}",
    "to master this concept", "creators like you", "Don't forget to like and subscribe!")

  /** The template for a platform value; an unknown value gets Instagram's. */
  function TemplateFor(platform: string): Template {
    if platform == "twitter" then TwitterTemplate
    else if platform == "linkedin" then LinkedInTemplate
    else if platform == "youtube" then YouTubeTemplate
    else InstagramTemplate
  }

  /** A template with its four slots filled in. */
  function Fill(t: Template, topic: string, keyPoints: string, audience: string, callToAction: string): string {
    t.lead + (topic + (t.afterTopic + (keyPoints + (t.afterKeyPoints + (audience + (t.afterAudience + (callToAction + t.trail)))))))
  }

  /** `generateMockCaption`. */
  function MockCaption(f: CaptionForm): (caption: string)
    ensures StartsWith(caption, TemplateFor(f.platform).lead + f.topic)
    ensures |caption| >= |f.topic| + |f.keyPoints| + |f.targetAudience| + |f.callToAction|
  {
    var t := TemplateFor(f.platform);
    Fill(t, f.topic, OrDefault(f.keyPoints, t.defaultKeyPoints),
      OrDefault(f.targetAudience, t.defaultAudience), OrDefault(f.callToAction, t.defaultCallToAction))
  }

  /** The topic always appears in the caption, verbatim. */
  lemma CaptionContainsTopic(f: CaptionForm)
    ensures Contains(MockCaption(f), f.topic)
  {
    var t := TemplateFor(f.platform);
    var kp, aud, cta := OrDefault(f.keyPoints, t.defaultKeyPoints), OrDefault(f.targetAudience, t.defaultAudience), OrDefault(f.callToAction, t.defaultCallToAction);
    ContainsInfix(t.lead, f.topic, t.afterTopic + (kp + (t.afterKeyPoints + (aud + (t.afterAudience + (cta + t.trail))))));
  }

  /** An empty key-points field gives the caption the platform's fallback phrase would give, so no slot is left empty. */
  lemma EmptyFieldsTakeDefaults(f: CaptionForm)
    ensures MockCaption(f.(keyPoints := "")) == MockCaption(f.(keyPoints := TemplateFor(f.platform).defaultKeyPoints))
    ensures MockCaption(f.(targetAudience := "")) == MockCaption(f.(targetAudience := TemplateFor(f.platform).defaultAudience))
    ensures MockCaption(f.(callToAction := "")) == MockCaption(f.(callToAction := TemplateFor(f.platform).defaultCallToAction))
  {
  }

  /** An empty key-points field puts its default phrase into the caption. */
  lemma EmptyKeyPointsShowDefault(f: CaptionForm)
    requires f.keyPoints == ""
    ensures Contains(MockCaption(f), TemplateFor(f.platform).defaultKeyPoints)
  {
    var t := TemplateFor(f.platform);
    var aud, cta := OrDefault(f.targetAudience, t.defaultAudience), OrDefault(f.callToAction, t.defaultCallToAction);
    var post := t.afterKeyPoints + (aud + (t.afterAudience + (cta + t.trail)));
    ContainsInfixAfter(t.lead, f.topic, t.afterTopic, t.defaultKeyPoints, post);
  }

  /** A platform value outside the four known ones writes the Instagram caption. */
  lemma UnknownPlatformWritesInstagram(f: CaptionForm)
    requires f.platform !in {"instagram", "twitter", "linkedin", "youtube"}
    ensures MockCaption(f) == MockCaption(f.(platform := "instagram"))
  {
  }

  // ---------------------------------------------------------------------------
  // generateMockHashtags

  /** The base hashtags of an industry; an industry missing from the table (business, lifestyle among them) gets fashion's. */
  function IndustryTags(industry: string): (tags: seq<string>)
    ensures |tags| == 5
  {
    if industry == "tech" then ["#Tech", "#Innovation", "#Digital", "#Future", "#TechTrends"]
    else if industry == "food" then ["#Food", "#Foodie", "#Delicious", "#Recipe", "#FoodLover"]
    else if industry == "travel" then ["#Travel", "#Adventure", "#Wanderlust", "#Explore", "#TravelGram"]
    else if industry == "fitness" then ["#Fitness", "#Health", "#Workout", "#FitLife", "#Motivation"]
    else if industry == "beauty" then ["#Beauty", "#Skincare", "#Makeup", "#SelfCare", "#BeautyTips"]
    else ["#Fashion", "#Style", "#OOTD", "#Trendy", "#FashionInspo"]
  }

  /** The platform hashtags; an unknown platform has none. */
  function PlatformTags(platform: string): seq<string> {
    if platform == "instagram" then ["#Insta", "#IG", "#InstagramReels"]
    else if platform == "twitter" then ["#TwitterChat", "#Thread"]
    else if platform == "linkedin" then ["#Professional", "#Business", "#Leadership"]
    else if platform == "youtube" then ["#YouTube", "#Video", "#Subscribe"]
    else []
  }

  predicate KnownPlatform(platform: string) {
    platform in {"instagram", "twitter", "linkedin", "youtube"}
  }

  /** `generateMockHashtags`: the first three industry tags, then at most two platform tags. */
  function MockHashtags(industry: string, platform: string): (tags: seq<string>)
    ensures |tags| == if KnownPlatform(platform) then 5 else 3
    ensures tags[..3] == IndustryTags(industry)[..3]
    ensures !KnownPlatform(platform) ==> tags == IndustryTags(industry)[..3]
    ensures forall k :: 3 <= k < |tags| ==> tags[k] == PlatformTags(platform)[k - 3]
  {
    var platformTags := PlatformTags(platform);
    IndustryTags(industry)[..3] + platformTags[..if |platformTags| < 2 then |platformTags| else 2]
  }

  /** An industry without its own row, such as "business" or "lifestyle", takes the fashion tags. */
  lemma UnlistedIndustryIsFashion(industry: string, platform: string)
    requires industry !in {"fashion", "tech", "food", "travel", "fitness", "beauty"}
    ensures MockHashtags(industry, platform) == MockHashtags("fashion", platform)
  {
  }

  /** The tech, food and travel tags a caption uses contain no space. */
  lemma FirstIndustryTagsHaveNoSpace(industry: string, k: nat)
    requires industry in {"tech", "food", "travel"} && k < 3
    ensures ' ' !in IndustryTags(industry)[k]
  {
  }

  /** Nor do the fitness, beauty and fashion ones, which every other industry also gets. */
  lemma OtherIndustryTagsHaveNoSpace(industry: string, k: nat)
    requires industry !in {"tech", "food", "travel"} && k < 3
    ensures ' ' !in IndustryTags(industry)[k]
  {
  }

  /** None of the three industry tags a caption uses contains a space. */
  lemma IndustryTagsHaveNoSpace(industry: string, k: nat)
    requires k < 3
    ensures ' ' !in IndustryTags(industry)[k]
  {
    if industry in {"tech", "food", "travel"} {
      FirstIndustryTagsHaveNoSpace(industry, k);
    } else {
      OtherIndustryTagsHaveNoSpace(industry, k);
    }
  }

  /** None of the two platform tags a caption uses contains a space. */
  lemma PlatformTagsHaveNoSpace(platform: string, k: nat)
    requires k < |PlatformTags(platform)| && k < 2
    ensures ' ' !in PlatformTags(platform)[k]
  {
  }

  /** No generated tag contains a space. */
  lemma HashtagsHaveNoSpace(industry: string, platform: string)
    ensures forall k :: 0 <= k < |MockHashtags(industry, platform)| ==> ' ' !in MockHashtags(industry, platform)[k]
  {
    var tags := MockHashtags(industry, platform);
    forall k | 0 <= k < |tags| ensures ' ' !in tags[k] {
      if k < 3 {
        IndustryTagsHaveNoSpace(industry, k);
      } else {
        PlatformTagsHaveNoSpace(platform, k - 3);
      }
    }
  }

  // ---------------------------------------------------------------------------
  // The generated caption and copyCaption

  /** The platform label a new caption records; a value missing from the platform list is labelled Instagram. */
  function PlatformLabel(platform: string): (name: string)
    ensures name in {"Instagram", "Twitter/X", "LinkedIn", "YouTube"}
    ensures name == "Instagram" <==> platform == "instagram" || !KnownPlatform(platform)
  {
    if platform == "instagram" then "Instagram"
    else if platform == "twitter" then "Twitter/X"
    else if platform == "linkedin" then "LinkedIn"
    else if platform == "youtube" then "YouTube"
    else "Instagram"
  }

  /** The caption a finished generation adds for the form captured at the click. */
  function NewCaption(f: CaptionForm, id: string): (c: GeneratedCaption)
    ensures c.engagement == "High" && c.tone == f.tone && c.id == id
  {
    GeneratedCaption(id, PlatformLabel(f.platform), MockCaption(f), MockHashtags(f.industry, f.platform), "High", f.tone)
  }

  /** The clipboard text: the content, a blank line, the hashtags separated by single spaces. */
  function CopyText(c: GeneratedCaption): (text: string)
    ensures StartsWith(text, c.content + "\n\n")
    ensures c.hashtags != [] ==> StartsWith(text[|c.content| + 2..], c.hashtags[0])
  {
    c.content + "\n\n" + Join(c.hashtags, " ")
  }

  /** The copied text of a generated caption starts with its content and a blank line, and the rest splits on spaces back into its hashtags. */
  lemma CopyTextRecoversHashtags(f: CaptionForm, id: string)
    ensures var c := NewCaption(f, id);
      && StartsWith(CopyText(c), c.content + "\n\n")
      && Split(CopyText(c)[|c.content| + 2..], ' ') == c.hashtags
  {
    var c := NewCaption(f, id);
    var text := CopyText(c);
    assert text[..|c.content| + 2] == c.content + "\n\n";
    assert text[|c.content| + 2..] == Join(c.hashtags, " ");
    HashtagsHaveNoSpace(f.industry, f.platform);
    SplitJoin(c.hashtags, ' ');
  }

  /** Every caption except those with id `id`, in order. */
  function WithoutId(captions: seq<GeneratedCaption>, id: string): (r: seq<GeneratedCaption>)
    ensures forall c :: c in r <==> c in captions && c.id != id
  {
    Lists.Filter((c: GeneratedCaption) => c.id != id, captions)
  }

  /** Removal keeps the other captions in their order and leaves none with that id. */
  lemma WithoutIdIsSubsequence(captions: seq<GeneratedCaption>, id: string)
    ensures Lists.IsSubsequence(WithoutId(captions, id), captions)
    ensures forall k :: 0 <= k < |WithoutId(captions, id)| ==> WithoutId(captions, id)[k].id != id
  {
    Lists.FilterIsSubsequence((c: GeneratedCaption) => c.id != id, captions);
    var r := WithoutId(captions, id);
    forall k | 0 <= k < |r| ensures r[k].id != id {
      assert r[k] in r;
    }
  }

  // ---------------------------------------------------------------------------
  // The screen's state

  class CaptionWriterPage {
    var form: CaptionForm
    var isGenerating: bool
    var captions: seq<GeneratedCaption>

    constructor ()
      ensures form == InitialForm && !isGenerating && captions == SeedCaptions
    {
      form, isGenerating, captions := InitialForm, false, SeedCaptions;
    }

    /**
     * `handleGenerate`, the click: an empty topic is refused and nothing
     * changes; otherwise `isGenerating` is set and the form is captured for
     * the timer that finishes the generation.
     */
    method HandleGenerate() returns (captured: Option<CaptionForm>)
      modifies this
      ensures captured == if old(form).topic == "" then None else Some(old(form))
      ensures isGenerating == (old(isGenerating) || captured.Some?)
      ensures form == old(form) && captions == old(captions)
    {
      if form.topic == "" {
        return None;
      }
      isGenerating := true;
      captured := Some(form);
    }

    /** The timer of a generation fires: exactly one caption, built from the captured form, goes in front, and `isGenerating` is cleared. */
    method CompleteGeneration(captured: CaptionForm, id: string)
      modifies this
      ensures captions == [NewCaption(captured, id)] + old(captions)
      ensures !isGenerating && form == old(form)
    {
      captions := [NewCaption(captured, id)] + captions;
      isGenerating := false;
    }

    /**
     * `regenerateCaption`: every caption with that id is removed, then a
     * generation is started from the current form (with an empty topic,
     * removal is all that happens).
     */
    method RegenerateCaption(id: string) returns (captured: Option<CaptionForm>)
      modifies this
      ensures captions == WithoutId(old(captions), id)
      ensures captured == if old(form).topic == "" then None else Some(old(form))
      ensures isGenerating == (old(isGenerating) || captured.Some?)
      ensures form == old(form)
    {
      captions := WithoutId(captions, id);
      captured := HandleGenerate();
    }
  }

  /** Regenerating a caption whose id is unique, then letting the timer fire, keeps the list length and puts the new caption first. */
  method RegenerateScenario(page: CaptionWriterPage, id: string, newId: string)
    requires page.form.topic != ""
    requires |page.captions| > 0 && page.captions[0].id == id
    requires forall k :: 1 <= k < |page.captions| ==> page.captions[k].id != id
    modifies page
    ensures |page.captions| == old(|page.captions|)
    ensures page.captions[0] == NewCaption(old(page.form), newId)
    ensures page.captions[1..] == old(page.captions)[1..]
    ensures !page.isGenerating
  {
    ghost var before := page.captions;
    var captured := page.RegenerateCaption(id);
    assert page.captions == before[1..] by {
      assert before == [before[0]] + before[1..];
      Lists.FilterAppend((c: GeneratedCaption) => c.id != id, [before[0]], before[1..]);
      Lists.FilterKeepsAll((c: GeneratedCaption) => c.id != id, before[1..]);
    }
    page.CompleteGeneration(captured.value, newId);
  }
}
