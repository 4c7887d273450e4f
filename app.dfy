/** The application shell's state logic (autosocial-ai/App.tsx): the default
    provider list, the merge of stored provider configs into it, the theme
    initialiser and its persistence, and the replies page auto-selection. */
module App {
  import opened Types
  import opened Seqs
  import Poster
  import ApiManager

  /** DEFAULT_APIS: every provider, no keys, only gemini switched on. */
  const DefaultApis: seq<ApiConfig> := [
    ApiConfig("openai", "", false),
    ApiConfig("deepseek", "", false),
    ApiConfig("anthropic", "", false),
    ApiConfig("mistral", "", false),
    ApiConfig("xai", "", false),
    ApiConfig("cohere", "", false),
    ApiConfig("gemini", "", true),
    ApiConfig("stability", "", false),
    ApiConfig("veo", "", false),
    ApiConfig("runway", "", false),
    ApiConfig("luma", "", false)]

  /** The defaults list the providers in the manager's canonical order. */
  lemma DefaultsInCanonicalOrder()
    ensures |DefaultApis| == |ApiManager.Order|
    ensures forall i :: 0 <= i < |DefaultApis| ==> DefaultApis[i].provider == ApiManager.Order[i]
  {
  }

  /** No provider id occurs twice among the defaults. */
  predicate DistinctProviders(defs: seq<ApiConfig>) {
    forall i, j :: 0 <= i < j < |defs| ==> defs[i].provider != defs[j].provider
  }

  lemma DefaultsDistinct()
    ensures DistinctProviders(DefaultApis)
  {
    DefaultsInCanonicalOrder();
    ApiManager.OrderDistinct();
  }

  /** Every default has an empty key. */
  lemma DefaultsHaveNoKeys()
    ensures forall i :: 0 <= i < |DefaultApis| ==> DefaultApis[i].apiKey == ""
  {
  }

  /** With no keys nothing is available for any media type. */
  lemma NoKeysOfferNothing(configs: seq<ApiConfig>, m: Modality)
    requires forall i :: 0 <= i < |configs| ==> configs[i].apiKey == ""
    ensures Poster.Available(configs, m) == []
  {
  }

  /** So with the defaults nothing is available for any media type. */
  lemma DefaultsOfferNothing(m: Modality)
    ensures Poster.Available(DefaultApis, m) == []
  {
    DefaultsHaveNoKeys();
    NoKeysOfferNothing(DefaultApis, m);
  }

  /** One entry of the merge: the first stored entry for the default's
      provider, or the default itself. */
  function MergeEntry(stored: seq<ApiConfig>, def: ApiConfig): (r: ApiConfig)
    ensures r.provider == def.provider
    ensures !Poster.Listed(def.provider, stored) ==> r == def
    ensures Poster.Listed(def.provider, stored) ==>
      exists k :: 0 <= k < |stored| && stored[k] == r && !Poster.Listed(def.provider, stored[..k])
  {
    match FindIndex(stored, (c: ApiConfig) => c.provider == def.provider)
    case None => def
    case Some(k) =>
      assert forall j :: 0 <= j < k ==> stored[..k][j] == stored[j];
      stored[k]
  }

  /** The load merge: for each default, in the defaults' order, its entry of the
      stored list. */
  function Merge(stored: seq<ApiConfig>, defs: seq<ApiConfig>): (r: seq<ApiConfig>)
    ensures |r| == |defs|
    ensures forall i :: 0 <= i < |defs| ==> r[i] == MergeEntry(stored, defs[i])
  {
    if defs == [] then [] else [MergeEntry(stored, defs[0])] + Merge(stored, defs[1..])
  }

  /** The merged list has the defaults' provider sequence; a stored entry for a
      provider outside the defaults is dropped. */
  lemma MergeShape(stored: seq<ApiConfig>, defs: seq<ApiConfig>)
    ensures var r := Merge(stored, defs);
      && (forall i :: 0 <= i < |r| ==> r[i].provider == defs[i].provider)
      && (forall c :: c in r ==> c in stored || c in defs)
  {
  }

  /** Merging a merged list again changes nothing, as long as the defaults
      name each provider once. */
  lemma {:induction false} MergeIdempotent(stored: seq<ApiConfig>, defs: seq<ApiConfig>)
    requires DistinctProviders(defs)
    ensures Merge(Merge(stored, defs), defs) == Merge(stored, defs)
  {
    var r := Merge(stored, defs);
    var rr := Merge(r, defs);
    forall i | 0 <= i < |defs| ensures rr[i] == r[i] {
      MergeEntryFixed(r, defs, i);
    }
    Extensional(rr, r);
  }

  /** In a list with the defaults' distinct provider sequence, the first entry
      for the i-th provider is the i-th entry. */
  lemma {:induction false} MergeEntryFixed(r: seq<ApiConfig>, defs: seq<ApiConfig>, i: int)
    requires DistinctProviders(defs) && |r| == |defs| && 0 <= i < |defs|
    requires forall j :: 0 <= j < |r| ==> r[j].provider == defs[j].provider
    ensures MergeEntry(r, defs[i]) == r[i]
  {
    var p := defs[i].provider;
    assert Poster.Listed(p, r) by { assert r[i].provider == p; }
    var k :| 0 <= k < |r| && r[k] == MergeEntry(r, defs[i]) && !Poster.Listed(p, r[..k]);
    if k < i {
      assert r[k].provider == defs[k].provider;
    } else if k > i {
      assert r[..k][i] == r[i];
    }
  }

  /** So the stored configs reach their fixed point after one merge. */
  lemma MergeDefaultsIdempotent(stored: seq<ApiConfig>)
    ensures Merge(Merge(stored, DefaultApis), DefaultApis) == Merge(stored, DefaultApis)
  {
    DefaultsDistinct();
    MergeIdempotent(stored, DefaultApis);
  }

  /** Selecting from a subsequence of a sorted list selects in sorted order. */
  lemma {:induction false} SubseqSorted(r: seq<ApiConfig>, s: seq<ApiConfig>)
    requires IsSubseq(r, s) && ApiManager.Sorted(s)
    ensures ApiManager.Sorted(r)
  {
    if r != [] && s != [] {
      assert ApiManager.Sorted(s[1..]) by {
        forall i, j | 0 <= i < j < |s[1..]| ensures ApiManager.Key(s[1..][i]) <= ApiManager.Key(s[1..][j]) {
          assert s[1..][i] == s[i + 1] && s[1..][j] == s[j + 1];
        }
      }
      if r[0] == s[0] && IsSubseq(r[1..], s[1..]) {
        SubseqSorted(r[1..], s[1..]);
        SubseqBound(r[1..], s[1..], ApiManager.Key(s[0]));
        forall i, j | 0 <= i < j < |r| ensures ApiManager.Key(r[i]) <= ApiManager.Key(r[j]) {
          assert r[j] == r[1..][j - 1];
          if i > 0 {
            assert r[i] == r[1..][i - 1];
          }
        }
      } else {
        SubseqSorted(r, s[1..]);
      }
    }
  }

  /** A lower bound on every key of s bounds every key of a subsequence. */
  lemma {:induction false} SubseqBound(r: seq<ApiConfig>, s: seq<ApiConfig>, b: int)
    requires IsSubseq(r, s) && forall i :: 0 <= i < |s| ==> b <= ApiManager.Key(s[i])
    ensures forall i :: 0 <= i < |r| ==> b <= ApiManager.Key(r[i])
  {
    if r != [] && s != [] {
      if r[0] == s[0] && IsSubseq(r[1..], s[1..]) {
        SubseqBound(r[1..], s[1..], b);
        assert forall i :: 1 <= i < |r| ==> r[i] == r[1..][i - 1];
      } else {
        SubseqBound(r, s[1..], b);
      }
    }
  }

  /** After the merge, the i-th entry has canonical index i. */
  lemma MergedKeys(stored: seq<ApiConfig>)
    ensures forall i :: 0 <= i < |Merge(stored, DefaultApis)| ==> ApiManager.Key(Merge(stored, DefaultApis)[i]) == i
  {
    DefaultsInCanonicalOrder();
    forall i | 0 <= i < |ApiManager.Order| ensures ApiManager.OrderIndex(ApiManager.Order[i]) == i {
      ApiManager.OrderIndexOf(i);
    }
  }

  /** After the merge, the providers the composer offers come in canonical
      order, so its first available provider is the canonically first one. */
  lemma AvailableInCanonicalOrder(stored: seq<ApiConfig>, m: Modality)
    ensures ApiManager.Sorted(Poster.Available(Merge(stored, DefaultApis), m))
  {
    var r := Merge(stored, DefaultApis);
    MergedKeys(stored);
    SubseqSorted(Poster.Available(r, m), r);
  }

  /** The `isDarkMode` initialiser: dark unless a saved theme says otherwise. */
  function InitialDarkMode(saved: Option<string>): (dark: bool)
    ensures !Truthy(saved) ==> dark
    ensures Truthy(saved) ==> (dark <==> saved.value == "dark")
  {
    if Truthy(saved) then saved.value == "dark" else true
  }

  /** The value the theme effect stores. */
  function ThemeValue(dark: bool): string {
    if dark then "dark" else "light"
  }

  /** A stored theme reads back as the mode it was stored from. */
  lemma ThemeRoundTrip(dark: bool)
    ensures InitialDarkMode(Some(ThemeValue(dark))) == dark
  {
  }

  /** The application state this model follows. */
  class AppState {
    var pages: seq<ConnectedPage>
    var apiConfigs: seq<ApiConfig>
    var isDarkMode: bool
    var savedTheme: Option<string>
    var repliesSelectedPageId: string

    /** The first render followed by the theme effect's first run, which
        writes the initial mode back to the store. */
    constructor (pages: seq<ConnectedPage>, savedTheme: Option<string>)
      ensures this.pages == pages && apiConfigs == DefaultApis
      ensures isDarkMode == InitialDarkMode(savedTheme)
      ensures this.savedTheme == Some(ThemeValue(isDarkMode))
      ensures repliesSelectedPageId == ""
    {
      this.pages := pages;
      apiConfigs := DefaultApis;
      isDarkMode := InitialDarkMode(savedTheme);
      this.savedTheme := Some(ThemeValue(InitialDarkMode(savedTheme)));
      repliesSelectedPageId := "";
    }

    /** The stored-config effect; `stored` is the `api_configs` entry. The
        effect does not catch, so an entry that is not valid JSON makes it
        throw (`threw`) with the configs left as they were. */
    method LoadStoredApis(stored: Stored<seq<ApiConfig>>) returns (threw: bool)
      modifies this`apiConfigs
      ensures threw <==> stored.Corrupt?
      ensures apiConfigs == if stored.Parsed? then Merge(stored.value, DefaultApis) else old(apiConfigs)
    {
      threw := stored.Corrupt?;
      if stored.Parsed? {
        apiConfigs := Merge(stored.value, DefaultApis);
      }
    }

    /** The theme toggle followed by the persistence effect. */
    method ToggleTheme()
      modifies this`isDarkMode, this`savedTheme
      ensures isDarkMode == !old(isDarkMode)
      ensures savedTheme == Some(ThemeValue(isDarkMode))
      ensures InitialDarkMode(savedTheme) == isDarkMode
    {
      isDarkMode := !isDarkMode;
      savedTheme := Some(ThemeValue(isDarkMode));
    }

    /** The replies-selection effect. */
    method EnsureRepliesSelection()
      modifies this`repliesSelectedPageId
      ensures old(repliesSelectedPageId) == "" && pages != [] ==> repliesSelectedPageId == pages[0].id
      ensures old(repliesSelectedPageId) != "" || pages == [] ==> repliesSelectedPageId == old(repliesSelectedPageId)
    {
      if repliesSelectedPageId == "" && |pages| > 0 {
        repliesSelectedPageId := pages[0].id;
      }
    }
  }
}
