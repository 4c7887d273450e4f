/** The post composer (autosocial-ai/components/Poster.tsx): which configured AI
    providers can serve the chosen media type, the reconciliation of the provider
    selection, the scheduled-post queue, and the provider labels. */
module Poster {
  import opened Types
  import opened Seqs
  import opened Strings

  /** PROVIDER_CAPABILITIES; None for an id the table has no entry for. */
  function Capabilities(provider: string): Option<seq<Modality>> {
    if provider == "openai" then Some([Text, Image])
    else if provider == "gemini" then Some([Text, Image, Video])
    else if provider == "anthropic" then Some([Text])
    else if provider == "deepseek" then Some([Text])
    else if provider == "veo" then Some([Video])
    else if provider == "mistral" then Some([Text])
    else if provider == "xai" then Some([Text])
    else if provider == "cohere" then Some([Text])
    else if provider == "stability" then Some([Image])
    else if provider == "runway" then Some([Video])
    else if provider == "luma" then Some([Video])
    else None
  }

  /** The provider is in the capability map, and its entry lists `m`. */
  predicate Supports(provider: string, m: Modality) {
    Capabilities(provider).Some? && m in Capabilities(provider).value
  }

  /** The filter condition of `availableProviders`: active, a non-empty key, and
      a capability entry listing the media type. */
  predicate Eligible(c: ApiConfig, m: Modality) {
    c.isActive && c.apiKey != "" && Supports(c.provider, m)
  }

  /** The filter callback of `availableProviders` for media type m. */
  function EligibleFor(m: Modality): ApiConfig -> bool {
    (c: ApiConfig) => Eligible(c, m)
  }

  /** `availableProviders`: the eligible configs, in their stored order. */
  function Available(configs: seq<ApiConfig>, m: Modality): (r: seq<ApiConfig>)
    ensures forall c :: c in r <==> c in configs && Eligible(c, m)
    ensures forall c :: multiset(r)[c] == if Eligible(c, m) then multiset(configs)[c] else 0
    ensures IsSubseq(r, configs)
  {
    var p := EligibleFor(m);
    FilterIsSubseq(configs, p);
    forall c ensures multiset(Filter(configs, p))[c] == if Eligible(c, m) then multiset(configs)[c] else 0 {
      FilterCount(configs, p, c);
    }
    Filter(configs, p)
  }

  /** A provider id the capability table does not know is never available. */
  lemma UnknownNeverAvailable(configs: seq<ApiConfig>, m: Modality, c: ApiConfig)
    requires Capabilities(c.provider).None?
    ensures c !in Available(configs, m)
  {
  }

  /** Only openai, gemini and stability can be offered for images. */
  lemma ImageProviders(configs: seq<ApiConfig>, c: ApiConfig)
    requires c in Available(configs, Image)
    ensures c.provider in {"openai", "gemini", "stability"}
  {
  }

  /** Only gemini, veo, runway and luma can be offered for video. */
  lemma VideoProviders(configs: seq<ApiConfig>, c: ApiConfig)
    requires c in Available(configs, Video)
    ensures c.provider in {"gemini", "veo", "runway", "luma"}
  {
  }

  /** Some entry of `available` has the provider id `id`. */
  predicate Listed(id: string, available: seq<ApiConfig>) {
    exists i :: 0 <= i < |available| && available[i].provider == id
  }

  /** The provider-selection effect: the selection once the effect has run. */
  function Reconcile(current: string, available: seq<ApiConfig>): (r: string)
    ensures available == [] ==> r == ""
    ensures available != [] ==> Listed(r, available)
    ensures Listed(current, available) ==> r == current
    ensures available != [] && !Listed(current, available) ==> r == available[0].provider
  {
    if |available| > 0 then
      if Find(available, (c: ApiConfig) => c.provider == current).None? then available[0].provider
      else current
    else ""
  }

  /** Running the effect again changes nothing, so it settles after one run. */
  lemma ReconcileIdempotent(current: string, available: seq<ApiConfig>)
    ensures Reconcile(Reconcile(current, available), available) == Reconcile(current, available)
  {
  }

  /** Over the available providers the selection is empty exactly when nothing
      is available, since every available provider has a non-empty id. */
  lemma ReconcileEmptyIff(current: string, configs: seq<ApiConfig>, m: Modality)
    ensures Reconcile(current, Available(configs, m)) == "" <==> Available(configs, m) == []
  {
    var a := Available(configs, m);
    if a != [] {
      var r := Reconcile(current, a);
      var i :| 0 <= i < |a| && a[i].provider == r;
      assert a[i] in a;
    }
  }

  /** `getActiveKey`: the key of the first config for the selected provider. */
  function GetActiveKey(configs: seq<ApiConfig>, selected: string): (r: Option<string>)
    ensures r.None? <==> !Listed(selected, configs)
    ensures r.Some? ==> exists i :: (0 <= i < |configs| && configs[i].provider == selected
                                     && configs[i].apiKey == r.value && !Listed(selected, configs[..i]))
  {
    match FindIndex(configs, (c: ApiConfig) => c.provider == selected)
    case None => None
    case Some(k) =>
      assert forall j :: 0 <= j < k ==> configs[..k][j] == configs[j];
      Some(configs[k].apiKey)
  }

  /** The fixed labels of `formatProviderLabel`, keyed by lower-cased id. */
  const ProviderLabels: map<string, string> := map[
    "gemini" := "Google Gemini", "anthropic" := "Claude", "veo" := "Google Veo",
    "openai" := "OpenAI", "mistral" := "Mistral AI", "xai" := "Grok (xAI)",
    "stability" := "Stability AI", "luma" := "Luma Dream Machine"]

  /** `formatProviderLabel`. */
  function FormatProviderLabel(provider: string): (r: string)
    ensures Lower(provider) in ProviderLabels ==> r == ProviderLabels[Lower(provider)]
    ensures Lower(provider) !in ProviderLabels ==>
      |r| == |provider| && (provider != [] ==> r[0] == UpperChar(provider[0]) && r[1..] == provider[1..])
  {
    var p := Lower(provider);
    if p == "gemini" then "Google Gemini"
    else if p == "anthropic" then "Claude"
    else if p == "veo" then "Google Veo"
    else if p == "openai" then "OpenAI"
    else if p == "mistral" then "Mistral AI"
    else if p == "xai" then "Grok (xAI)"
    else if p == "stability" then "Stability AI"
    else if p == "luma" then "Luma Dream Machine"
    else CapitalizeFirst(provider)
  }

  /** The fixed labels ignore case: ids equal up to case get the same label. */
  lemma LabelIgnoresCase(a: string, b: string)
    requires Lower(a) == Lower(b) && Lower(a) in ProviderLabels
    ensures FormatProviderLabel(a) == FormatProviderLabel(b)
  {
  }

  /** The media of a scheduled post: the generated image, else the uploaded one. */
  function MediaUrl(generated: Option<string>, uploaded: Option<string>): (r: Option<string>)
    ensures Truthy(generated) ==> r == generated
    ensures !Truthy(generated) && Truthy(uploaded) ==> r == uploaded
    ensures r.None? <==> !Truthy(generated) && !Truthy(uploaded)
  {
    if Truthy(generated) then generated
    else if Truthy(uploaded) then uploaded
    else None
  }

  /** The queue after `handleDelete(id)`: every post with another id. */
  function WithoutPost(posts: seq<ScheduledPost>, id: string): (r: seq<ScheduledPost>)
    ensures forall p :: p in r <==> p in posts && p.id != id
    ensures forall p: ScheduledPost :: p.id != id ==> multiset(r)[p] == multiset(posts)[p]
    ensures IsSubseq(r, posts)
  {
    var keep := (p: ScheduledPost) => p.id != id;
    FilterIsSubseq(posts, keep);
    forall p: ScheduledPost | p.id != id ensures multiset(Filter(posts, keep))[p] == multiset(posts)[p] {
      FilterCount(posts, keep, p);
    }
    Filter(posts, keep)
  }

  /** The find callback of the page lookup in `handleGenerateTextOnly`. */
  function PageIs(id: string): ConnectedPage -> bool {
    (p: ConnectedPage) => p.id == id
  }

  /** The page name `handleGenerateTextOnly` writes for: the name of the first
      page with the selected id when that name is non-empty, "Facebook" when
      the name is empty or no page has the id. */
  function PageName(pages: seq<ConnectedPage>, selectedPageId: string): (r: string)
    ensures r != ""
    ensures (forall j :: 0 <= j < |pages| ==> pages[j].id != selectedPageId) ==> r == "Facebook"
    ensures (exists k :: 0 <= k < |pages| && pages[k].id == selectedPageId) ==>
      exists k :: 0 <= k < |pages| && pages[k].id == selectedPageId
        && (forall j :: 0 <= j < k ==> pages[j].id != selectedPageId)
        && r == (if pages[k].name != "" then pages[k].name else "Facebook")
  {
    match FindIndex(pages, PageIs(selectedPageId))
    case None => "Facebook"
    case Some(k) => if pages[k].name != "" then pages[k].name else "Facebook"
  }

  /** The composer's form state together with the queue it schedules into (the
      queue is the application's state, handed to the composer as a prop). */
  class Composer {
    var selectedPageId: string
    var prompt: string
    var captionFormat: string
    var generatedText: string
    var generatedImage: Option<string>
    var uploadedImage: Option<string>
    var scheduleDate: string
    var recurrence: Recurrence
    var mediaType: Modality
    var selectedApiProvider: string
    var scheduledPosts: seq<ScheduledPost>

    /** The initial state: the first page (if any) selected, an empty form. */
    constructor (pages: seq<ConnectedPage>, posts: seq<ScheduledPost>)
      ensures selectedPageId == (if pages != [] then pages[0].id else "")
      ensures prompt == "" && captionFormat == "" && generatedText == ""
      ensures generatedImage == None && uploadedImage == None
      ensures scheduleDate == "" && recurrence == Once && mediaType == Text
      ensures selectedApiProvider == "" && scheduledPosts == posts
    {
      selectedPageId := if pages != [] then pages[0].id else "";
      prompt := "";
      captionFormat := "";
      generatedText := "";
      generatedImage := None;
      uploadedImage := None;
      scheduleDate := "";
      recurrence := Once;
      mediaType := Text;
      selectedApiProvider := "";
      scheduledPosts := posts;
    }

    /** The provider-selection effect for the current media type. */
    method ReconcileProvider(configs: seq<ApiConfig>)
      modifies this`selectedApiProvider
      ensures selectedApiProvider == Reconcile(old(selectedApiProvider), Available(configs, mediaType))
      ensures selectedApiProvider == "" <==> Available(configs, mediaType) == []
    {
      var available := Available(configs, mediaType);
      var current := selectedApiProvider;
      ReconcileEmptyIff(current, configs, mediaType);
      if |available| > 0 {
        if Find(available, (c: ApiConfig) => c.provider == current).None? {
          selectedApiProvider := available[0].provider;
        }
      } else {
        selectedApiProvider := "";
      }
    }

    /** `handleSchedule`, with `Date.now().toString()` passed in as `id`: one
        queued post is put in front of the queue and the generated content and
        the prompt are cleared; the other form fields keep their values. */
    method Schedule(id: string)
      modifies this`scheduledPosts, this`generatedText, this`generatedImage, this`uploadedImage, this`prompt
      ensures |scheduledPosts| == |old(scheduledPosts)| + 1 && scheduledPosts[1..] == old(scheduledPosts)
      ensures scheduledPosts[0].id == id && scheduledPosts[0].pageId == selectedPageId
      ensures scheduledPosts[0].content == if old(generatedText) != "" then old(generatedText) else old(prompt)
      ensures scheduledPosts[0].mediaUrl == MediaUrl(old(generatedImage), old(uploadedImage))
      ensures scheduledPosts[0].mediaType == mediaType && scheduledPosts[0].recurrence == recurrence
      ensures scheduledPosts[0].scheduledTime == scheduleDate && scheduledPosts[0].status == Queued
      ensures generatedText == "" && generatedImage == None && uploadedImage == None && prompt == ""
    {
      var post := ScheduledPost(id, selectedPageId,
        if generatedText != "" then generatedText else prompt,
        mediaType, MediaUrl(generatedImage, uploadedImage), scheduleDate, Queued, recurrence);
      scheduledPosts := [post] + scheduledPosts;
      generatedText := "";
      generatedImage := None;
      uploadedImage := None;
      prompt := "";
    }

    /** `handleDelete(id)`. */
    method Delete(id: string)
      modifies this`scheduledPosts
      ensures scheduledPosts == WithoutPost(old(scheduledPosts), id)
    {
      scheduledPosts := WithoutPost(scheduledPosts, id);
    }

    /** `handleGenerateImage`; `result` is what the image service resolved to
        (None when it failed). Returns whether the request was made. */
    method GenerateImage(result: Option<string>) returns (started: bool)
      modifies this`generatedImage
      ensures started <==> prompt != "" && selectedApiProvider != ""
      ensures generatedImage == if started && Truthy(result) then result else old(generatedImage)
    {
      if prompt == "" || selectedApiProvider == "" {
        return false;
      }
      started := true;
      if Truthy(result) {
        generatedImage := result;
      }
    }

    /** `handleSuggestFormat`; `result` is the suggested format, None on failure. */
    method SuggestFormat(result: Option<string>) returns (started: bool)
      modifies this`captionFormat
      ensures started <==> selectedApiProvider != ""
      ensures captionFormat == if started && result.Some? then result.value else old(captionFormat)
    {
      if selectedApiProvider == "" {
        return false;
      }
      started := true;
      if result.Some? {
        captionFormat := result.value;
      }
    }

    /** `handleGenerateCaption`; returns the topic and format the request is made
        with, None when the guard returns early. */
    method GenerateCaption(result: Option<string>) returns (request: Option<(string, string)>)
      modifies this`generatedText
      ensures request.Some? <==> (prompt != "" || captionFormat != "") && selectedApiProvider != ""
      ensures request.Some? ==> request.value.0 == (if prompt != "" then prompt else "A beautiful day")
      ensures request.Some? ==> request.value.1 == (if captionFormat != "" then captionFormat else "Standard social media post")
      ensures generatedText == if request.Some? && result.Some? then result.value else old(generatedText)
    {
      if (prompt == "" && captionFormat == "") || selectedApiProvider == "" {
        return None;
      }
      var topic := if prompt != "" then prompt else "A beautiful day";
      var format := if captionFormat != "" then captionFormat else "Standard social media post";
      request := Some((topic, format));
      if result.Some? {
        generatedText := result.value;
      }
    }

    /** `handleGenerateTextOnly`; returns the page name the request is made with,
        None when the guard returns early. */
    method GenerateTextOnly(pages: seq<ConnectedPage>, result: Option<string>) returns (pageName: Option<string>)
      modifies this`generatedText
      ensures pageName.Some? <==> prompt != "" && selectedApiProvider != ""
      ensures pageName.Some? ==> pageName.value == PageName(pages, selectedPageId)
      ensures generatedText == if pageName.Some? && result.Some? then result.value else old(generatedText)
    {
      if prompt == "" || selectedApiProvider == "" {
        return None;
      }
      pageName := Some(PageName(pages, selectedPageId));
      if result.Some? {
        generatedText := result.value;
      }
    }
  }
}
