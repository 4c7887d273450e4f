/** The API-key manager (autosocial-ai/components/ApiManager.tsx): the provider
    metadata table, the per-provider edits of the stored configs, and the
    category listing sorted into the canonical provider order. */
module ApiManager {
  import opened Types
  import opened Seqs

  /** The parts of a PROVIDER_META entry the logic uses (icons, colours, links
      and descriptions are display data). */
  datatype ProviderMeta = ProviderMeta(title: string, category: Modality)

  /** PROVIDER_META; None for an id without an entry. */
  function Meta(provider: string): Option<ProviderMeta> {
    if provider == "openai" then Some(ProviderMeta("OpenAI", Text))
    else if provider == "deepseek" then Some(ProviderMeta("DeepSeek", Text))
    else if provider == "anthropic" then Some(ProviderMeta("Claude (Anthropic)", Text))
    else if provider == "mistral" then Some(ProviderMeta("Mistral AI", Text))
    else if provider == "xai" then Some(ProviderMeta("xAI (Grok)", Text))
    else if provider == "cohere" then Some(ProviderMeta("Cohere", Text))
    else if provider == "gemini" then Some(ProviderMeta("Google Gemini", Image))
    else if provider == "stability" then Some(ProviderMeta("Stability AI", Image))
    else if provider == "veo" then Some(ProviderMeta("Google Veo", Video))
    else if provider == "runway" then Some(ProviderMeta("RunwayML", Video))
    else if provider == "luma" then Some(ProviderMeta("Luma Dream Machine", Video))
    else None
  }

  /** The canonical provider order of `getProvidersByCategory`. */
  const Order: seq<string> := ["openai", "deepseek", "anthropic", "mistral", "xai", "cohere",
                                "gemini", "stability", "veo", "runway", "luma"]

  const TextIds: seq<string> := ["openai", "deepseek", "anthropic", "mistral", "xai", "cohere"]
  const ImageIds: seq<string> := ["gemini", "stability"]
  const VideoIds: seq<string> := ["veo", "runway", "luma"]

  /** The ids of one category, in canonical order. */
  function CategoryIds(category: Modality): seq<string> {
    match category
    case Text => TextIds
    case Image => ImageIds
    case Video => VideoIds
  }

  /** The metadata table knows exactly the eleven ids of the canonical order;
      its categories split them into six text, two image and three video
      providers, which the canonical order lists category by category. */
  lemma CategoriesPartition(provider: string)
    ensures Meta(provider).Some? <==> provider in Order
    ensures forall c: Modality :: Meta(provider).Some? && Meta(provider).value.category == c <==> provider in CategoryIds(c)
    ensures Order == TextIds + ImageIds + VideoIds
    ensures |TextIds| == 6 && |ImageIds| == 2 && |VideoIds| == 3
  {
  }

  /** No id occurs twice in the canonical order. */
  lemma OrderDistinct()
    ensures forall i, j :: 0 <= i < j < |Order| ==> Order[i] != Order[j]
  {
  }

  /** `order.indexOf(provider)`: -1 for an id not in the order. */
  function OrderIndex(provider: string): (k: int)
    ensures -1 <= k < |Order|
    ensures k >= 0 <==> provider in Order
    ensures k >= 0 ==> Order[k] == provider && provider !in Order[..k]
  {
    if provider == "openai" then 0
    else if provider == "deepseek" then 1
    else if provider == "anthropic" then 2
    else if provider == "mistral" then 3
    else if provider == "xai" then 4
    else if provider == "cohere" then 5
    else if provider == "gemini" then 6
    else if provider == "stability" then 7
    else if provider == "veo" then 8
    else if provider == "runway" then 9
    else if provider == "luma" then 10
    else -1
  }

  /** The canonical index of the i-th id is i. */
  lemma OrderIndexOf(i: int)
    requires 0 <= i < |Order|
    ensures OrderIndex(Order[i]) == i
  {
    OrderDistinct();
  }

  /** The sort key of a config. */
  function Key(c: ApiConfig): int {
    OrderIndex(c.provider)
  }

  /** The configs are in ascending canonical order. */
  predicate Sorted(s: seq<ApiConfig>) {
    forall i, j :: 0 <= i < j < |s| ==> Key(s[i]) <= Key(s[j])
  }

  /** Puts c before the first entry whose key is not smaller. */
  function Insert(c: ApiConfig, s: seq<ApiConfig>): seq<ApiConfig> {
    if s == [] || Key(c) <= Key(s[0]) then [c] + s
    else [s[0]] + Insert(c, s[1..])
  }

  /** The comparator sort of `getProvidersByCategory` (a stable sort by key). */
  function SortByOrder(s: seq<ApiConfig>): seq<ApiConfig> {
    if s == [] then [] else Insert(s[0], SortByOrder(s[1..]))
  }

  lemma {:induction false} InsertCount(c: ApiConfig, s: seq<ApiConfig>)
    ensures multiset(Insert(c, s)) == multiset(s) + multiset{c}
  {
    if s != [] && Key(c) > Key(s[0]) {
      InsertCount(c, s[1..]);
      assert s == [s[0]] + s[1..];
    }
  }

  /** A lower bound on every key survives an insertion above it. */
  lemma {:induction false} InsertBound(c: ApiConfig, s: seq<ApiConfig>, b: int)
    requires b <= Key(c) && forall i :: 0 <= i < |s| ==> b <= Key(s[i])
    ensures forall i :: 0 <= i < |Insert(c, s)| ==> b <= Key(Insert(c, s)[i])
  {
    if s != [] && Key(c) > Key(s[0]) {
      InsertBound(c, s[1..], b);
    }
  }

  lemma {:induction false} InsertSorted(c: ApiConfig, s: seq<ApiConfig>)
    requires Sorted(s)
    ensures Sorted(Insert(c, s))
  {
    if s != [] && Key(c) > Key(s[0]) {
      InsertSorted(c, s[1..]);
      InsertBound(c, s[1..], Key(s[0]));
    }
  }

  /** The filter callbacks the proofs below use. */
  function KeyIs(k: int): ApiConfig -> bool {
    (c: ApiConfig) => Key(c) == k
  }

  function ProviderIs(p: string): ApiConfig -> bool {
    (c: ApiConfig) => c.provider == p
  }

  function InCategoryFor(category: Modality): ApiConfig -> bool {
    (c: ApiConfig) => InCategory(c, category)
  }

  function ProviderInCategory(p: string, category: Modality): ApiConfig -> bool {
    (c: ApiConfig) => c.provider == p && InCategory(c, category)
  }

  lemma {:induction false} InsertStable(c: ApiConfig, s: seq<ApiConfig>, k: int)
    ensures Filter(Insert(c, s), KeyIs(k)) == if Key(c) == k then [c] + Filter(s, KeyIs(k)) else Filter(s, KeyIs(k))
  {
    if s != [] && Key(c) > Key(s[0]) {
      InsertStable(c, s[1..], k);
    }
  }

  /** The sort is a sorted permutation, and configs with equal keys keep their
      relative order. */
  lemma {:induction false} SortByOrderCorrect(s: seq<ApiConfig>)
    ensures Sorted(SortByOrder(s))
    ensures multiset(SortByOrder(s)) == multiset(s)
    ensures forall k :: Filter(SortByOrder(s), KeyIs(k)) == Filter(s, KeyIs(k))
  {
    if s != [] {
      SortByOrderCorrect(s[1..]);
      InsertSorted(s[0], SortByOrder(s[1..]));
      InsertCount(s[0], SortByOrder(s[1..]));
      assert s == [s[0]] + s[1..];
      forall k ensures Filter(SortByOrder(s), KeyIs(k)) == Filter(s, KeyIs(k)) {
        InsertStable(s[0], SortByOrder(s[1..]), k);
      }
    }
  }

  /** The entry's provider has metadata, and its category is `category`. */
  predicate InCategory(c: ApiConfig, category: Modality) {
    Meta(c.provider).Some? && Meta(c.provider).value.category == category
  }

  /** `getProvidersByCategory(category)`: the stored configs of that category,
      every copy of each, sorted into canonical order, configs for the same
      provider in their stored order. */
  function GetProvidersByCategory(configs: seq<ApiConfig>, category: Modality): (r: seq<ApiConfig>)
    ensures forall c :: multiset(r)[c] == if InCategory(c, category) then multiset(configs)[c] else 0
    ensures Sorted(r)
    ensures forall c :: c in r ==> c.provider in CategoryIds(category)
    ensures forall p :: Filter(r, ProviderIs(p)) == Filter(configs, ProviderInCategory(p, category))
  {
    var s := Filter(configs, InCategoryFor(category));
    SortByOrderCorrect(s);
    forall c ensures multiset(SortByOrder(s))[c] == if InCategory(c, category) then multiset(configs)[c] else 0 {
      FilterCount(configs, InCategoryFor(category), c);
    }
    forall c | c in SortByOrder(s) ensures c.provider in CategoryIds(category) {
      assert c in multiset(SortByOrder(s));
      CategoriesPartition(c.provider);
    }
    forall p ensures Filter(SortByOrder(s), ProviderIs(p)) == Filter(configs, ProviderInCategory(p, category)) {
      SameProvider(configs, SortByOrder(s), category, p);
    }
    SortByOrder(s)
  }

  /** Within one category the sort key determines the provider, so keeping the
      configs with one key keeps those of one provider. */
  lemma SameProvider(configs: seq<ApiConfig>, r: seq<ApiConfig>, category: Modality, p: string)
    requires forall k :: Filter(r, KeyIs(k)) == Filter(Filter(configs, InCategoryFor(category)), KeyIs(k))
    requires forall c :: c in r ==> InCategory(c, category)
    ensures Filter(r, ProviderIs(p)) == Filter(configs, ProviderInCategory(p, category))
  {
    var s := Filter(configs, InCategoryFor(category));
    if Meta(p).Some? && Meta(p).value.category == category {
      var k := OrderIndex(p);
      forall i | 0 <= i < |r| ensures ProviderIs(p)(r[i]) == KeyIs(k)(r[i]) {
        assert r[i] in r;
        KeyDeterminesProvider(r[i].provider, p);
      }
      FilterSame(r, ProviderIs(p), KeyIs(k));
      forall i | 0 <= i < |s| ensures ProviderIs(p)(s[i]) == KeyIs(k)(s[i]) {
        assert s[i] in s;
        KeyDeterminesProvider(s[i].provider, p);
      }
      FilterSame(s, ProviderIs(p), KeyIs(k));
      FilterAnd(configs, InCategoryFor(category), ProviderIs(p), ProviderInCategory(p, category));
    } else {
      forall i | 0 <= i < |r| ensures !ProviderIs(p)(r[i]) {
        assert r[i] in r;
      }
      FilterEmpty(r, ProviderIs(p));
      FilterEmpty(configs, ProviderInCategory(p, category));
    }
  }

  /** Two known ids with the same canonical index are the same id. */
  lemma KeyDeterminesProvider(a: string, b: string)
    requires Meta(a).Some? && Meta(b).Some?
    ensures OrderIndex(a) == OrderIndex(b) <==> a == b
  {
    CategoriesPartition(a);
    CategoriesPartition(b);
  }

  /** Filtering twice is filtering by both conditions. */
  lemma {:induction false} FilterAnd<T>(s: seq<T>, p: T -> bool, q: T -> bool, pq: T -> bool)
    requires forall x :: pq(x) == (q(x) && p(x))
    ensures Filter(Filter(s, p), q) == Filter(s, pq)
  {
    if s != [] {
      FilterAnd(s[1..], p, q, pq);
    }
  }

  /** `handleChange(provider, value)`: the new key on every entry of that provider. */
  function SetKey(configs: seq<ApiConfig>, provider: string, value: string): (r: seq<ApiConfig>)
    ensures |r| == |configs|
    ensures forall i :: 0 <= i < |configs| ==>
      r[i] == if configs[i].provider == provider then configs[i].(apiKey := value) else configs[i]
  {
    MapWhere(configs, (c: ApiConfig) => c.provider == provider, (c: ApiConfig) => c.(apiKey := value))
  }

  /** `toggleActive(provider)`: flips `isActive` on every entry of that provider. */
  function ToggleActive(configs: seq<ApiConfig>, provider: string): (r: seq<ApiConfig>)
    ensures |r| == |configs|
    ensures forall i :: 0 <= i < |configs| ==>
      r[i] == if configs[i].provider == provider then configs[i].(isActive := !configs[i].isActive) else configs[i]
  {
    MapWhere(configs, (c: ApiConfig) => c.provider == provider, (c: ApiConfig) => c.(isActive := !c.isActive))
  }

  /** Editing a key keeps the provider sequence and every activation flag. */
  lemma SetKeyKeeps(configs: seq<ApiConfig>, provider: string, value: string)
    ensures var r := SetKey(configs, provider, value);
      forall i :: 0 <= i < |r| ==> r[i].provider == configs[i].provider && r[i].isActive == configs[i].isActive
  {
  }

  /** Toggling a provider twice restores the list. */
  lemma ToggleActiveTwice(configs: seq<ApiConfig>, provider: string)
    ensures ToggleActive(ToggleActive(configs, provider), provider) == configs
  {
    var r := ToggleActive(ToggleActive(configs, provider), provider);
    assert forall i :: 0 <= i < |configs| ==> r[i] == configs[i];
  }

  /** What a provider card shows about an entry. */
  datatype Card = Card(title: string, hasKey: bool, isExpanded: bool)

  /** `renderProviderCard`'s derived values: the meta label, or the id when the
      table has no entry; whether a key is set; whether the card is open. */
  function CardOf(api: ApiConfig, expandedProvider: Option<string>): (r: Card)
    ensures r.hasKey <==> |api.apiKey| > 0
    ensures r.isExpanded <==> expandedProvider == Some(api.provider)
    ensures Meta(api.provider).None? ==> r.title == api.provider
    ensures Meta(api.provider).Some? ==> r.title == Meta(api.provider).value.title
  {
    var title := match Meta(api.provider)
      case Some(m) => m.title
      case None => api.provider;
    Card(title, |api.apiKey| > 0, expandedProvider == Some(api.provider))
  }

  /** The manager's state: the application's config list, which it edits
      through `setApiConfigs`, and the open card. */
  class ApiManagerView {
    var apiConfigs: seq<ApiConfig>
    var expandedProvider: Option<string>

    constructor (configs: seq<ApiConfig>)
      ensures apiConfigs == configs && expandedProvider == None
    {
      apiConfigs := configs;
      expandedProvider := None;
    }

    /** `handleChange`. */
    method HandleChange(provider: string, value: string)
      modifies this`apiConfigs
      ensures apiConfigs == SetKey(old(apiConfigs), provider, value)
    {
      apiConfigs := SetKey(apiConfigs, provider, value);
    }

    /** `toggleActive`. */
    method ToggleActiveFor(provider: string)
      modifies this`apiConfigs
      ensures apiConfigs == ToggleActive(old(apiConfigs), provider)
    {
      apiConfigs := ToggleActive(apiConfigs, provider);
    }

    /** `toggleExpand`: closes the card if it is the open one, else opens it. */
    method ToggleExpand(provider: string)
      modifies this`expandedProvider
      ensures old(expandedProvider) == Some(provider) ==> expandedProvider == None
      ensures old(expandedProvider) != Some(provider) ==> expandedProvider == Some(provider)
    {
      if expandedProvider == Some(provider) {
        expandedProvider := None;
      } else {
        expandedProvider := Some(provider);
      }
    }
  }
}
