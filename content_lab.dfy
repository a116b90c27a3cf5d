/**
 * The content lab: uploaded media appended to a list, three generators
 * (poster, caption, video edit) each guarded by a validation step and
 * finished by prepending one item, the templates they fill, and deletion by
 * id.
 */
module ContentLab {
  import opened Wrappers
  import opened Text
  import Lists

  /** An uploaded file, with the two attributes the preview reads. */
  datatype MediaFile = MediaFile(name: string, mimeType: string)

  datatype ContentKind = Poster | Video | Caption

  datatype GeneratedContent = GeneratedContent(
    id: string,
    kind: ContentKind,
    title: string,
    content: string,
    imageUrl: Option<string>)

  /** The product form; `tone` is kept but no template reads it. */
  datatype ProductInfo = ProductInfo(name: string, description: string, targetAudience: string, tone: string)

  const InitialProductInfo := ProductInfo("", "", "", "professional")

  const PlaceholderPoster := "/placeholder-poster.jpg"

  /** The two sample items the screen starts with. */
  const SeedContent: seq<GeneratedContent> := [
    GeneratedContent("1", Poster, "Summer Collection Poster", "AI-generated poster for summer collection launch", Some(PlaceholderPoster)),
    GeneratedContent("2", Caption, "Instagram Caption",
      "\U{1F31F} Discover the magic of summer with our latest collection! \U{2728} From breezy dresses to stylish accessories, we've got everything you need to shine this season. #SummerVibes #Fashion #NewCollection",
      None)
  ]

  // ---------------------------------------------------------------------------
  // Templates

  function PosterTitle(name: string): (title: string)
    ensures Contains(title, name)
  {
    OccurrenceIsContained(name + " Poster", name, 0);
    name + " Poster"
  }

  function PosterText(name: string): (text: string)
    ensures Contains(text, name)
  {
    OccurrenceIsContained("AI-generated poster for " + name, name, |"AI-generated poster for "|);
    "AI-generated poster for " + name
  }

  function CaptionTitle(name: string): (title: string)
    ensures Contains(title, name)
  {
    OccurrenceIsContained(name + " Caption", name, 0);
    name + " Caption"
  }

  const CaptionLead := "\U{2728} Introducing "
  const CaptionTail := ". Don't miss out on this amazing product! #NewProduct #Innovation #MustHave"

  /** The caption text: name, description and audience substituted as they are, with no fallback for an empty field. */
  function CaptionText(p: ProductInfo): (text: string)
    ensures Contains(text, p.name)
    ensures Contains(text, p.targetAudience)
  {
    var rest := "! " + (p.description + (" Perfect for " + (p.targetAudience + CaptionTail)));
    ContainsInfix(CaptionLead, p.name, rest);
    ContainsInfixAfter("! ", p.description, " Perfect for ", p.targetAudience, CaptionTail);
    ContainsAfterPrefix(p.name, rest, p.targetAudience);
    ContainsAfterPrefix(CaptionLead, p.name + rest, p.targetAudience);
    CaptionLead + (p.name + rest)
  }

  const VideoTitle := "AI Edited Video"
  const VideoText := "Auto-trimmed and subtitled video"

  /** Different product names give different poster titles, and different caption titles. */
  lemma TitlesDetermineName(a: string, b: string)
    ensures PosterTitle(a) == PosterTitle(b) ==> a == b
    ensures CaptionTitle(a) == CaptionTitle(b) ==> a == b
  {
    if PosterTitle(a) == PosterTitle(b) {
      assert a == PosterTitle(a)[..|a|];
    }
    if CaptionTitle(a) == CaptionTitle(b) {
      assert a == CaptionTitle(a)[..|a|];
    }
  }

  /** A poster title never equals a caption title, whatever the names: they end in different letters. */
  lemma PosterAndCaptionTitlesDiffer(a: string, b: string)
    ensures PosterTitle(a) != CaptionTitle(b)
  {
    assert PosterTitle(a)[|PosterTitle(a)| - 1] == 'r';
    assert CaptionTitle(b)[|CaptionTitle(b)| - 1] == 'n';
  }

  /** An empty description leaves a double space before "Perfect for": nothing fills the gap. */
  lemma EmptyDescriptionLeavesGap(p: ProductInfo)
    requires p.description == ""
    ensures Contains(CaptionText(p), "!  Perfect for ")
  {
    var post := p.targetAudience + CaptionTail;
    assert "! " + ("" + (" Perfect for " + post)) == "!  Perfect for " + post;
    assert CaptionText(p) == CaptionLead + (p.name + ("!  Perfect for " + post));
    ContainsInfix(CaptionLead + p.name, "!  Perfect for ", post);
    assert CaptionLead + (p.name + ("!  Perfect for " + post)) == (CaptionLead + p.name) + ("!  Perfect for " + post);
  }

  // ---------------------------------------------------------------------------
  // Generation jobs

  /** A generation that passed its validation, with what its timer closure captured. */
  datatype Job = PosterJob(info: ProductInfo) | CaptionJob(info: ProductInfo) | VideoJob

  /** The item a finished job adds. */
  function Produce(job: Job, id: string): (item: GeneratedContent)
    ensures item.id == id
    ensures item.kind == match job
      case PosterJob(_) => Poster
      case CaptionJob(_) => Caption
      case VideoJob => Video
    ensures item.imageUrl.Some? <==> job.PosterJob?
  {
    match job
    case PosterJob(info) => GeneratedContent(id, Poster, PosterTitle(info.name), PosterText(info.name), Some(PlaceholderPoster))
    case CaptionJob(info) => GeneratedContent(id, Caption, CaptionTitle(info.name), CaptionText(info), None)
    case VideoJob => GeneratedContent(id, Video, VideoTitle, VideoText, None)
  }

  /** Every item except those with id `id`, in order. */
  function WithoutId(items: seq<GeneratedContent>, id: string): (r: seq<GeneratedContent>)
    ensures forall c :: c in r <==> c in items && c.id != id
  {
    Lists.Filter((c: GeneratedContent) => c.id != id, items)
  }

  /** Deletion keeps the other items in their order and leaves none with that id. */
  lemma WithoutIdIsSubsequence(items: seq<GeneratedContent>, id: string)
    ensures Lists.IsSubsequence(WithoutId(items, id), items)
    ensures forall k :: 0 <= k < |WithoutId(items, id)| ==> WithoutId(items, id)[k].id != id
  {
    Lists.FilterIsSubsequence((c: GeneratedContent) => c.id != id, items);
    var r := WithoutId(items, id);
    forall k | 0 <= k < |r| ensures r[k].id != id {
      assert r[k] in r;
    }
  }

  /** Deleting the id of an item just added in front removes exactly that item when no older item shares the id. */
  lemma DeleteUndoesGeneration(items: seq<GeneratedContent>, job: Job, id: string)
    requires forall c :: c in items ==> c.id != id
    ensures WithoutId([Produce(job, id)] + items, id) == items
  {
    Lists.FilterAppend((c: GeneratedContent) => c.id != id, [Produce(job, id)], items);
    Lists.FilterKeepsAll((c: GeneratedContent) => c.id != id, items);
  }

  // ---------------------------------------------------------------------------
  // Upload preview

  /** The uploaded files the preview lists: the first three. */
  function PreviewFiles(files: seq<MediaFile>): (shown: seq<MediaFile>)
    ensures |shown| <= 3 && |shown| <= |files| && shown == files[..|shown|]
    ensures |shown| == |files| <==> |files| <= 3
  {
    if |files| <= 3 then files else files[..3]
  }

  /** The "+n more files" note: present only with more than three files, and with the preview it accounts for every file. */
  function OverflowCount(files: seq<MediaFile>): (more: Option<nat>)
    ensures more.Some? <==> |files| > 3
    ensures |PreviewFiles(files)| + more.GetOr(0) == |files|
  {
    if |files| > 3 then Some(|files| - 3) else None
  }

  /** The preview shows an image icon for an `image/` type and a video icon otherwise. */
  predicate ShowsImageIcon(f: MediaFile) {
    StartsWith(f.mimeType, "image/")
  }

  /** One line of the upload preview: the icon (image or video) and the file name. */
  datatype PreviewRow = PreviewRow(imageIcon: bool, name: string)

  /** The preview's lines, one per previewed file, in upload order. */
  function PreviewRows(files: seq<MediaFile>): (rows: seq<PreviewRow>)
    ensures |rows| == |PreviewFiles(files)|
    ensures forall k :: 0 <= k < |rows| ==> rows[k].name == files[k].name
    ensures forall k :: 0 <= k < |rows| ==> (rows[k].imageIcon <==> StartsWith(files[k].mimeType, "image/"))
  {
    var shown := PreviewFiles(files);
    seq(|shown|, k requires 0 <= k < |shown| => PreviewRow(ShowsImageIcon(shown[k]), shown[k].name))
  }

  /** A `video/` file is never shown with the image icon. */
  lemma VideoFilesShowVideoIcon(f: MediaFile)
    requires StartsWith(f.mimeType, "video/")
    ensures !ShowsImageIcon(f)
  {
    assert f.mimeType[0] == 'v';
  }

  // ---------------------------------------------------------------------------
  // The screen's state

  class ContentLabPage {
    var uploadedFiles: seq<MediaFile>
    var isGenerating: bool
    var items: seq<GeneratedContent>
    var productInfo: ProductInfo

    constructor ()
      ensures uploadedFiles == [] && !isGenerating && items == SeedContent && productInfo == InitialProductInfo
    {
      uploadedFiles, isGenerating, items, productInfo := [], false, SeedContent, InitialProductInfo;
    }

    /** `handleFileUpload`: the chosen files go after the ones already uploaded; the count is what the toast reports. */
    method HandleFileUpload(files: seq<MediaFile>) returns (count: nat)
      modifies this
      ensures uploadedFiles == old(uploadedFiles) + files
      ensures count == |files|
      ensures isGenerating == old(isGenerating) && items == old(items) && productInfo == old(productInfo)
    {
      uploadedFiles := uploadedFiles + files;
      count := |files|;
    }

    /** `handleGeneratePoster`: an empty product name is refused with nothing changed; otherwise the flag is set and the form captured. */
    method HandleGeneratePoster() returns (job: Option<Job>)
      modifies this
      ensures job == if old(productInfo).name == "" then None else Some(PosterJob(old(productInfo)))
      ensures isGenerating == (old(isGenerating) || job.Some?)
      ensures uploadedFiles == old(uploadedFiles) && items == old(items) && productInfo == old(productInfo)
    {
      if productInfo.name == "" {
        return None;
      }
      isGenerating := true;
      job := Some(PosterJob(productInfo));
    }

    /** `handleGenerateCaption`: the same validation as the poster, then a caption job. */
    method HandleGenerateCaption() returns (job: Option<Job>)
      modifies this
      ensures job == if old(productInfo).name == "" then None else Some(CaptionJob(old(productInfo)))
      ensures isGenerating == (old(isGenerating) || job.Some?)
      ensures uploadedFiles == old(uploadedFiles) && items == old(items) && productInfo == old(productInfo)
    {
      if productInfo.name == "" {
        return None;
      }
      isGenerating := true;
      job := Some(CaptionJob(productInfo));
    }

    /** `handleVideoEdit`: refused with nothing changed while no file is uploaded. */
    method HandleVideoEdit() returns (job: Option<Job>)
      modifies this
      ensures job == if old(uploadedFiles) == [] then None else Some(VideoJob)
      ensures isGenerating == (old(isGenerating) || job.Some?)
      ensures uploadedFiles == old(uploadedFiles) && items == old(items) && productInfo == old(productInfo)
    {
      if |uploadedFiles| == 0 {
        return None;
      }
      isGenerating := true;
      job := Some(VideoJob);
    }

    /** A job's timer fires: exactly one item goes in front and `isGenerating` is cleared. */
    method CompleteGeneration(job: Job, id: string)
      modifies this
      ensures items == [Produce(job, id)] + old(items)
      ensures !isGenerating
      ensures uploadedFiles == old(uploadedFiles) && productInfo == old(productInfo)
    {
      items := [Produce(job, id)] + items;
      isGenerating := false;
    }

    /** `deleteContent`: every item with that id goes, the rest stay in order. */
    method DeleteContent(id: string)
      modifies this
      ensures items == WithoutId(old(items), id)
      ensures uploadedFiles == old(uploadedFiles) && isGenerating == old(isGenerating) && productInfo == old(productInfo)
    {
      items := WithoutId(items, id);
    }
  }
}
