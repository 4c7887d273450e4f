/** The provider drop-down (autosocial-ai/components/ApiSelector.tsx): which
    entry the button shows, how a provider id is labelled, and when the list
    opens, closes and reports a choice. */
module ApiSelector {
  import opened Types
  import opened Seqs
  import opened Strings
  import Poster

  /** The find callback of `selected`. */
  function ProviderIs(id: string): ApiConfig -> bool {
    (c: ApiConfig) => c.provider == id
  }

  /** The entry the button shows: the first entry
      for the selected id, or None when no entry has it. */
  function Selected(providers: seq<ApiConfig>, selectedProvider: string): (r: Option<ApiConfig>)
    ensures r.None? <==> !Poster.Listed(selectedProvider, providers)
    ensures r.Some? ==> r.value.provider == selectedProvider
    ensures r.Some? ==>
      exists k :: 0 <= k < |providers| && providers[k] == r.value && !Poster.Listed(selectedProvider, providers[..k])
  {
    match FindIndex(providers, ProviderIs(selectedProvider))
    case None => None
    case Some(k) =>
      assert forall j :: 0 <= j < k ==> providers[..k][j] == providers[j];
      Some(providers[k])
  }

  /** The labels the selector's own fallback fixes, keyed by lower-cased id. */
  const FallbackLabels: map<string, string> := map["openai" := "OpenAI", "xai" := "xAI (Grok)", "gemini" := "Google Gemini"]

  /** The fallback of `getProviderLabel`, used when no formatter is given. */
  function FallbackLabel(provider: string): (r: string)
    ensures Lower(provider) in FallbackLabels ==> r == FallbackLabels[Lower(provider)]
    ensures Lower(provider) !in FallbackLabels ==>
      |r| == |provider| && (provider != [] ==> r[0] == UpperChar(provider[0]) && r[1..] == provider[1..])
  {
    var p := Lower(provider);
    if p == "openai" then "OpenAI"
    else if p == "xai" then "xAI (Grok)"
    else if p == "gemini" then "Google Gemini"
    else CapitalizeFirst(provider)
  }

  /** `getProviderLabel`: a supplied formatter alone decides the label. */
  function ProviderLabel(formatter: Option<string -> string>, provider: string): (r: string)
    ensures formatter.Some? ==> r == formatter.value(provider)
    ensures formatter.None? ==> r == FallbackLabel(provider)
  {
    if formatter.Some? then formatter.value(provider) else FallbackLabel(provider)
  }

  /** The fixed labels ignore case. */
  lemma FallbackIgnoresCase(a: string, b: string)
    requires Lower(a) == Lower(b) && Lower(a) in FallbackLabels
    ensures FallbackLabel(a) == FallbackLabel(b)
  {
  }

  /** The empty id has the empty label. */
  lemma FallbackOfEmpty()
    ensures FallbackLabel("") == ""
  {
  }

  /** Any label the fallback invents keeps the id apart from its first letter,
      so two ids outside the fixed labels whose labels agree agree after
      their first character. */
  lemma FallbackKeepsTail(a: string, b: string)
    requires Lower(a) !in FallbackLabels && Lower(b) !in FallbackLabels
    requires a != [] && b != [] && FallbackLabel(a) == FallbackLabel(b)
    ensures |a| == |b| && a[1..] == b[1..] && UpperChar(a[0]) == UpperChar(b[0])
  {
  }

  /** The composer passes its own formatter, the replies view none, so the
      two views label `xai` differently. */
  lemma XaiLabels()
    ensures ProviderLabel(Some(Poster.FormatProviderLabel), "xai") == "Grok (xAI)"
    ensures ProviderLabel(None, "xai") == "xAI (Grok)"
  {
    assert Lower("xai") == "xai";
  }

  /** What the button shows: the label of the selected entry, or the
      placeholder when nothing is selected. */
  function ButtonText(formatter: Option<string -> string>, providers: seq<ApiConfig>, selectedProvider: string): (r: string)
    ensures Poster.Listed(selectedProvider, providers) ==> r == ProviderLabel(formatter, selectedProvider)
    ensures !Poster.Listed(selectedProvider, providers) ==> r == "Select Provider"
  {
    match Selected(providers, selectedProvider)
    case None => "Select Provider"
    case Some(c) => ProviderLabel(formatter, c.provider)
  }

  /** The button is disabled while there is no provider to choose. */
  predicate Disabled(providers: seq<ApiConfig>) {
    |providers| == 0
  }

  /** `isOpen && providers.length > 0`: the list is rendered. */
  predicate ShowsList(isOpen: bool, providers: seq<ApiConfig>) {
    isOpen && |providers| > 0
  }

  /** A disabled selector never shows its list, whatever `isOpen` holds. */
  lemma DisabledShowsNothing(isOpen: bool, providers: seq<ApiConfig>)
    ensures Disabled(providers) ==> !ShowsList(isOpen, providers)
    ensures ShowsList(isOpen, providers) <==> isOpen && !Disabled(providers)
  {
  }

  /** The selector's one piece of state. */
  class SelectorView {
    var isOpen: bool

    constructor ()
      ensures !isOpen
    {
      isOpen := false;
    }

    /** Clicking the button; a disabled button ignores the click. */
    method Toggle(providers: seq<ApiConfig>)
      modifies this`isOpen
      ensures isOpen == if Disabled(providers) then old(isOpen) else !old(isOpen)
    {
      if !Disabled(providers) {
        isOpen := !isOpen;
      }
    }

    /** Clicking the i-th entry of the shown list: the entry's id goes to
        `onSelect` and the list closes. */
    method Choose(providers: seq<ApiConfig>, i: int) returns (chosen: string)
      requires ShowsList(isOpen, providers) && 0 <= i < |providers|
      modifies this`isOpen
      ensures chosen == providers[i].provider && Poster.Listed(chosen, providers)
      ensures !isOpen && !ShowsList(isOpen, providers)
    {
      chosen := providers[i].provider;
      isOpen := false;
    }

    /** The outside-click handler. */
    method ClickOutside()
      modifies this`isOpen
      ensures !isOpen
    {
      isOpen := false;
    }
  }
}
