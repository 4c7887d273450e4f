/** The automation-rules view (autosocial-ai/components/Replies.tsx): the
    text-provider list and its selection, the page auto-selection, the spintax
    preview and the AI-training editor. */
module Replies {
  import opened Types
  import opened Seqs
  import Poster
  import Spintax

  /** The provider ids the view offers for text generation. */
  const TextProviders: seq<string> := ["openai", "gemini", "anthropic", "deepseek", "mistral", "xai", "cohere"]

  /** The filter condition of the view's `availableProviders`. */
  predicate TextEligible(c: ApiConfig) {
    c.isActive && c.apiKey != "" && c.provider in TextProviders
  }

  /** `availableProviders`: the active, keyed text providers, in stored order. */
  function TextAvailable(configs: seq<ApiConfig>): (r: seq<ApiConfig>)
    ensures forall c :: c in r <==> c in configs && TextEligible(c)
    ensures forall c :: multiset(r)[c] == if TextEligible(c) then multiset(configs)[c] else 0
    ensures IsSubseq(r, configs)
  {
    var p := (c: ApiConfig) => TextEligible(c);
    FilterIsSubseq(configs, p);
    forall c ensures multiset(Filter(configs, p))[c] == if TextEligible(c) then multiset(configs)[c] else 0 {
      FilterCount(configs, p, c);
    }
    Filter(configs, p)
  }

  /** The seven ids are exactly the providers whose capabilities list text. */
  lemma TextProvidersAreTextCapable(provider: string)
    ensures provider in TextProviders <==> Poster.Supports(provider, Text)
  {
  }

  /** So this view lists the same providers the composer lists for text. */
  lemma TextAvailableIsComposerText(configs: seq<ApiConfig>)
    ensures TextAvailable(configs) == Poster.Available(configs, Text)
  {
    var p := (c: ApiConfig) => TextEligible(c);
    forall i | 0 <= i < |configs| ensures p(configs[i]) == Poster.EligibleFor(Text)(configs[i]) {
      TextProvidersAreTextCapable(configs[i].provider);
    }
    FilterSame(configs, p, Poster.EligibleFor(Text));
  }

  /** The pages after the instructions of the pages with the id are set to `text`. */
  function SetInstructions(pages: seq<ConnectedPage>, id: string, text: string): (r: seq<ConnectedPage>)
    ensures |r| == |pages|
    ensures forall i :: 0 <= i < |pages| ==>
      r[i] == if pages[i].id == id then pages[i].(aiInstructions := text) else pages[i]
  {
    MapWhere(pages, (p: ConnectedPage) => p.id == id, (p: ConnectedPage) => p.(aiInstructions := text))
  }

  /** After saving, every page with that id carries the new instructions, and
      the ids and every other field of every page are as before. */
  lemma SetInstructionsEffect(pages: seq<ConnectedPage>, id: string, text: string)
    ensures var r := SetInstructions(pages, id, text);
      forall i :: 0 <= i < |r| ==>
        && r[i].id == pages[i].id
        && (r[i].id == id ==> r[i].aiInstructions == text)
        && r[i].(aiInstructions := pages[i].aiInstructions) == pages[i]
  {
  }

  /** Saving the same instructions twice is saving them once. */
  lemma SetInstructionsIdempotent(pages: seq<ConnectedPage>, id: string, text: string)
    ensures SetInstructions(SetInstructions(pages, id, text), id, text) == SetInstructions(pages, id, text)
  {
    var r := SetInstructions(pages, id, text);
    var rr := SetInstructions(r, id, text);
    assert forall i :: 0 <= i < |r| ==> rr[i] == r[i];
  }

  /** The spintax template the view starts with. */
  const DefaultTemplate: string := "{Hi|Hello|Hey} there! {Thanks|Thank you} for {contacting|messaging|reaching out to} us. We will {get back to you|respond} shortly."

  /** The view's state, together with the application state it edits through
      `setPages` and `setSelectedPageId`. */
  class RepliesView {
    var pages: seq<ConnectedPage>
    var selectedPageId: string
    var selectedApiProvider: string
    var spintaxTemplate: string
    var previewText: string
    var isTrainModalOpen: bool
    var trainingText: string

    constructor (pages: seq<ConnectedPage>, selectedPageId: string)
      ensures this.pages == pages && this.selectedPageId == selectedPageId
      ensures selectedApiProvider == "" && spintaxTemplate == DefaultTemplate && previewText == ""
      ensures !isTrainModalOpen && trainingText == ""
    {
      this.pages := pages;
      this.selectedPageId := selectedPageId;
      selectedApiProvider := "";
      spintaxTemplate := DefaultTemplate;
      previewText := "";
      isTrainModalOpen := false;
      trainingText := "";
    }

    /** The page-selection effect: with nothing selected, select the first page. */
    method EnsurePageSelection()
      modifies this`selectedPageId
      ensures selectedPageId == if old(selectedPageId) == "" && pages != [] then pages[0].id else old(selectedPageId)
    {
      if selectedPageId == "" && |pages| > 0 {
        selectedPageId := pages[0].id;
      }
    }

    /** The provider-selection effect over the text providers. */
    method ReconcileProvider(configs: seq<ApiConfig>)
      modifies this`selectedApiProvider
      ensures selectedApiProvider == Poster.Reconcile(old(selectedApiProvider), TextAvailable(configs))
    {
      var available := TextAvailable(configs);
      var current := selectedApiProvider;
      if |available| > 0 {
        if Find(available, (c: ApiConfig) => c.provider == current).None? {
          selectedApiProvider := available[0].provider;
        }
      } else {
        selectedApiProvider := "";
      }
    }

    /** `generatePreview`, with the random choices supplied as `picks`. */
    method GeneratePreview(picks: seq<nat>)
      requires Spintax.ValidPicks(Spintax.Tokenize(spintaxTemplate), picks)
      modifies this`previewText
      ensures previewText == Spintax.ProcessSpintax(spintaxTemplate, picks)
    {
      previewText := Spintax.ProcessSpintax(spintaxTemplate, picks);
    }

    /** `handleOpenTrainModal`: opens the editor on the selected page, if it exists. */
    method OpenTrainModal()
      modifies this`trainingText, this`isTrainModalOpen
      ensures isTrainModalOpen == (old(isTrainModalOpen) || Listed(selectedPageId, pages))
      ensures !Listed(selectedPageId, pages) ==> trainingText == old(trainingText)
      ensures Listed(selectedPageId, pages) ==> exists i :: (0 <= i < |pages| && pages[i].id == selectedPageId
                                                   && trainingText == pages[i].aiInstructions && !Listed(selectedPageId, pages[..i]))
    {
      var id := selectedPageId;
      var k := FindIndex(pages, (p: ConnectedPage) => p.id == id);
      if k.Some? {
        assert forall j :: 0 <= j < k.value ==> pages[..k.value][j] == pages[j];
        trainingText := pages[k.value].aiInstructions;
        isTrainModalOpen := true;
      }
    }

    /** `saveTraining`: stores the edited instructions on the selected page. */
    method SaveTraining()
      modifies this`pages, this`isTrainModalOpen
      ensures pages == SetInstructions(old(pages), selectedPageId, trainingText)
      ensures !isTrainModalOpen
    {
      pages := SetInstructions(pages, selectedPageId, trainingText);
      isTrainModalOpen := false;
    }
  }

  /** Some page has the id `id`. */
  predicate Listed(id: string, pages: seq<ConnectedPage>) {
    exists i :: 0 <= i < |pages| && pages[i].id == id
  }
}
