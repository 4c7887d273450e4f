# autosocial-ai dashboard logic, in Dafny

This project models the state logic of the autosocial-ai dashboard, a React
application for running Facebook pages. It covers:

- the composer (`Poster`), with its provider capabilities, its provider
  selection and its post queue;
- the automation-rules view (`Replies`), with its text providers, its spintax
  preview and its AI-training editor;
- the API-key manager (`ApiManager`), which groups providers by category,
  sorts them canonically and edits keys and switches;
- the application shell (`App`), with the default providers, the merge of
  stored providers into them, and the theme;
- the dashboard's page and profile handlers (`Dashboard`), with the guarded
  rule that a disconnected profile has no page under automation;
- the settings view (`Settings`), with the validated partial saves, the
  connection badges, and backup and restore of the browser store;
- the frame (`Layout`), with the header title, the unread badge, the country
  picker and the navigation highlight;
- the provider drop-down (`ApiSelector`).

Each source file is one module. `Types` holds the records of `types.ts`.
`Seqs` and `Strings` model the array and string built-ins the components call
(`filter`, `find`, `findIndex`, `map`, `toLowerCase`, `includes`, `trim`).
`Spintax` models the `processSpintax` regular-expression replacement in
Replies.tsx.

Pure expressions are functions: filters, lookups, labels and merges.
Component state that handlers update becomes a class whose methods state the
new state exactly. Those methods tie the new state to the functions, and
lemmas prove what the functions mean.

Inputs the components read from outside become parameters:
- the result of an asynchronous AI-service call;
- `Date.now()` ids and ISO timestamps;
- `Math.random()` picks, one in-range index per matched spintax group;
- the parsed contents of the browser store.

Observations from the source, proved as stated:
- The composer and the key manager disagree on gemini. The composer's
  capability map offers gemini for text, image and video. The key manager
  lists gemini only under image (`ApiManager.CategoriesPartition`,
  `Poster.ImageProviders`).
- The two provider drop-downs label `xai` differently: "Grok (xAI)" in the
  composer, which passes its own formatter, and "xAI (Grok)" in the replies
  view, which passes none (`ApiSelector.XaiLabels`).
- Canada shares `+1` with the United States, so after picking Canada the
  picker shows the United States entry (`Layout.CanadaShowsAsUnitedStates`).
- The Facebook badge tests the raw fields, but the save tests the trimmed
  fields. A blank App ID therefore shows as connected while its save is
  refused (`Settings.BlankIdConnectedButRefused`).
- `confirmProfileTurnOff` does not re-check the active pages itself. The
  no-automation rule holds after it exactly when no page is automated at that
  moment (`Dashboard.DashboardView.ConfirmProfileTurnOff`). The confirmation
  only opens after that check (`Dashboard.TurnProfileOff`).

## Model

| member | source | states |
|---|---|---|
| Poster.Available | autosocial-ai/components/Poster.tsx:55-61 | an entry is offered iff it is active, has a non-empty key and its provider's capabilities include the media type; each offered entry keeps its multiplicity; order is kept |
| Poster.UnknownNeverAvailable | autosocial-ai/components/Poster.tsx:59 | a provider missing from the capability map is never offered |
| Poster.ImageProviders | autosocial-ai/components/Poster.tsx:16-28 | only openai, gemini and stability can be offered for images |
| Poster.VideoProviders | autosocial-ai/components/Poster.tsx:16-28 | only gemini, veo, runway and luma can be offered for video |
| Poster.Reconcile | autosocial-ai/components/Poster.tsx:64-73 | nothing available gives ""; a current choice that is available is kept; otherwise the first available provider is chosen; the result is always an available provider when there is one |
| Poster.ReconcileIdempotent | autosocial-ai/components/Poster.tsx:64-73 | running the selection effect a second time changes nothing |
| Poster.ReconcileEmptyIff | autosocial-ai/components/Poster.tsx:64-73 | the selection is empty exactly when no provider is available |
| Poster.GetActiveKey | autosocial-ai/components/Poster.tsx:95-97 | None iff no config has the selected id; otherwise the key of the first config with it |
| Poster.FormatProviderLabel | autosocial-ai/components/Poster.tsx:185-196 | the eight known ids (case-insensitive) get their fixed label; any other id gets its first character upper-cased and the rest kept |
| Poster.LabelIgnoresCase | autosocial-ai/components/Poster.tsx:186 | ids equal up to case get the same fixed label |
| Poster.MediaUrl | autosocial-ai/components/Poster.tsx:166 | the generated image if truthy, else the uploaded one if truthy, else none |
| Poster.PageName | autosocial-ai/components/Poster.tsx:150 | the non-empty name of the first page with the selected id; "Facebook" when that name is empty or no page has the id |
| Poster.WithoutPost | autosocial-ai/components/Poster.tsx:181-183 | exactly the posts with another id remain, with their multiplicities and in order |
| Poster.Composer.constructor | autosocial-ai/components/Poster.tsx:31-49 | the first page is selected and every form field starts empty, text mode, once |
| Poster.Composer.ReconcileProvider | autosocial-ai/components/Poster.tsx:64-73 | the provider becomes the reconciled choice over the available providers, empty exactly when none is available |
| Poster.Composer.Schedule | autosocial-ai/components/Poster.tsx:160-179 | one post is prepended and the queue is otherwise unchanged; the post carries the page, the text (or the prompt), the media, the time, queued status and recurrence; the text, images and prompt are cleared |
| Poster.Composer.Delete | autosocial-ai/components/Poster.tsx:181-183 | the queue becomes the queue without that id |
| Poster.Composer.GenerateImage | autosocial-ai/components/Poster.tsx:99-115 | the call starts iff prompt and provider are set; a truthy result replaces the image |
| Poster.Composer.SuggestFormat | autosocial-ai/components/Poster.tsx:117-128 | the call starts iff a provider is set; a result replaces the format |
| Poster.Composer.GenerateCaption | autosocial-ai/components/Poster.tsx:130-143 | the call starts iff (prompt or format) and provider are set, with the defaults "A beautiful day" and "Standard social media post" |
| Poster.Composer.GenerateTextOnly | autosocial-ai/components/Poster.tsx:146-158 | the call starts iff prompt and provider are set; the request uses `PageName` of the pages and the selection |
| Replies.TextAvailable | autosocial-ai/components/Replies.tsx:40-46 | an entry is offered iff it is active, keyed and one of the seven text ids; multiplicities and order are kept |
| Replies.TextProvidersAreTextCapable | autosocial-ai/components/Replies.tsx:44 | the seven ids are exactly the providers whose capabilities include text |
| Replies.TextAvailableIsComposerText | autosocial-ai/components/Replies.tsx:40-46 | the replies view offers the same list the composer offers for text |
| Replies.SetInstructions | autosocial-ai/components/Replies.tsx:83 | pages with the id get the text; all others are unchanged; the length is kept |
| Replies.SetInstructionsEffect | autosocial-ai/components/Replies.tsx:83 | ids and every other field of each page are kept |
| Replies.SetInstructionsIdempotent | autosocial-ai/components/Replies.tsx:82-85 | saving the same text twice equals saving it once |
| Replies.RepliesView.constructor | autosocial-ai/components/Replies.tsx:22-30 | the template literal of line 23 (`DefaultTemplate`), no provider, no preview, the editor closed |
| Replies.RepliesView.EnsurePageSelection | autosocial-ai/components/Replies.tsx:33-37 | an empty selection becomes the first page when there is one |
| Replies.RepliesView.ReconcileProvider | autosocial-ai/components/Replies.tsx:49-57 | the provider becomes the reconciled choice over the text providers |
| Replies.RepliesView.GeneratePreview | autosocial-ai/components/Replies.tsx:70-72 | the preview is the spintax expansion of the template |
| Replies.RepliesView.OpenTrainModal | autosocial-ai/components/Replies.tsx:74-80 | opens iff the selected page exists, loading the first such page's instructions |
| Replies.RepliesView.SaveTraining | autosocial-ai/components/Replies.tsx:82-85 | the pages get the edited instructions and the editor closes |
| Spintax.GroupLenSound | autosocial-ai/components/Replies.tsx:64 | a reported match is a brace, a non-empty brace-free interior and a closing brace |
| Spintax.GroupLenComplete | autosocial-ai/components/Replies.tsx:64 | every such group at the start is found, with that length |
| Spintax.TokenizeRender | autosocial-ai/components/Replies.tsx:64 | tokenising loses no text, and every matched group is brace-free |
| Spintax.Split | autosocial-ai/components/Replies.tsx:65 | a body with n separators splits into n + 1 alternatives |
| Spintax.SplitParts | autosocial-ai/components/Replies.tsx:65 | no alternative contains `\|` |
| Spintax.SplitJoin | autosocial-ai/components/Replies.tsx:65 | joining the alternatives with `\|` gives the group body back |
| Spintax.TwoOptions | autosocial-ai/components/Replies.tsx:65 | `a\|b` splits into a and b |
| Spintax.ThreeOptions | autosocial-ai/components/Replies.tsx:65 | `a\|\|b` splits into a, "" and b |
| Spintax.FirstPicks | autosocial-ai/components/Replies.tsx:66 | every template has a valid choice of random indices |
| Spintax.ExpandLength | autosocial-ai/components/Replies.tsx:63-68 | the expansion is at least two characters shorter per group than the text the tokens came from |
| Spintax.ProcessSpintaxShorter | autosocial-ai/components/Replies.tsx:63-68 | the output is never longer than the template, and shorter when a group matched |
| Spintax.NoGroupUnchanged | autosocial-ai/components/Replies.tsx:63-68 | a template without a group is returned unchanged |
| Spintax.KeepsSurroundingText | autosocial-ai/components/Replies.tsx:63-68 | brace-free text around the groups is kept in place |
| Spintax.OneAlternative | autosocial-ai/components/Replies.tsx:63-68 | `{x}` has exactly one valid pick and gives x |
| Spintax.GroupGivesAlternative | autosocial-ai/components/Replies.tsx:63-68 | a lone group gives one of its alternatives |
| Spintax.EmptyAlternative | autosocial-ai/components/Replies.tsx:63-68 | `{a\|\|b}` gives a, "" or b |
| Spintax.GroupBetweenLiterals | autosocial-ai/components/Replies.tsx:63-68 | a group between literal text takes one index and is replaced in place |
| Spintax.NestedInnerOnly | autosocial-ai/components/Replies.tsx:64 | in `{a{b\|c}d}` only the inner group is replaced, giving `{abd}` or `{acd}` |
| Spintax.SinglePass | autosocial-ai/components/Replies.tsx:64 | replacements are not rescanned: `{{x}}` gives `{`, an alternative of x, `}` |
| Spintax.EmptyBracesLiteral | autosocial-ai/components/Replies.tsx:64 | `{}` stays literal |
| Spintax.TokenizeUnclosed | autosocial-ai/components/Replies.tsx:64 | a brace followed by brace-free text and another brace is literal text |
| ApiManager.CategoriesPartition | autosocial-ai/components/ApiManager.tsx:10-111 | the metadata covers exactly the eleven ids; text, image and video split them 6/2/3 in canonical order |
| ApiManager.OrderDistinct | autosocial-ai/components/ApiManager.tsx:241 | the canonical order lists each id once |
| ApiManager.OrderIndex | autosocial-ai/components/ApiManager.tsx:242 | `indexOf`: -1 iff the id is not in the order, else its first position |
| ApiManager.OrderIndexOf | autosocial-ai/components/ApiManager.tsx:242 | the i-th id of the order has index i |
| ApiManager.InsertCount | autosocial-ai/components/ApiManager.tsx:239-243 | insertion adds exactly the inserted entry |
| ApiManager.InsertSorted | autosocial-ai/components/ApiManager.tsx:239-243 | insertion into a sorted list keeps it sorted |
| ApiManager.InsertStable | autosocial-ai/components/ApiManager.tsx:239-243 | insertion goes before the entries of equal key, as a stable sort processing from the back requires |
| ApiManager.SortByOrderCorrect | autosocial-ai/components/ApiManager.tsx:239-243 | the sort is ordered by canonical index, is a permutation, and is stable (entries of equal index keep their order) |
| ApiManager.GetProvidersByCategory | autosocial-ai/components/ApiManager.tsx:236-244 | exactly the entries of the category, with multiplicities, sorted canonically, each provider's entries in their stored order |
| ApiManager.KeyDeterminesProvider | autosocial-ai/components/ApiManager.tsx:241-242 | for known ids, equal canonical index means equal id |
| ApiManager.SetKey | autosocial-ai/components/ApiManager.tsx:132-134 | entries of that provider get the key, others are unchanged |
| ApiManager.SetKeyKeeps | autosocial-ai/components/ApiManager.tsx:133 | providers and switches are kept |
| ApiManager.ToggleActive | autosocial-ai/components/ApiManager.tsx:136-138 | entries of that provider flip their switch, others are unchanged |
| ApiManager.ToggleActiveTwice | autosocial-ai/components/ApiManager.tsx:137 | toggling twice restores the list |
| ApiManager.CardOf | autosocial-ai/components/ApiManager.tsx:144-148 | the card shows the metadata title (or the raw id), has a key iff the key is non-empty, is expanded iff it is the expanded provider |
| ApiManager.ApiManagerView.constructor | autosocial-ai/components/ApiManager.tsx:114 | no card is expanded |
| ApiManager.ApiManagerView.HandleChange | autosocial-ai/components/ApiManager.tsx:132-134 | the configs become the key-updated list |
| ApiManager.ApiManagerView.ToggleActiveFor | autosocial-ai/components/ApiManager.tsx:136-138 | the configs become the toggled list |
| ApiManager.ApiManagerView.ToggleExpand | autosocial-ai/components/ApiManager.tsx:140-142 | clicking the expanded card collapses it; clicking another expands that one |
| App.DefaultsInCanonicalOrder | autosocial-ai/App.tsx:124-136 | the defaults list the providers in the key manager's canonical order |
| App.DefaultsDistinct | autosocial-ai/App.tsx:124-136 | no provider occurs twice among the defaults |
| App.DefaultsHaveNoKeys | autosocial-ai/App.tsx:124-136 | every default has an empty key |
| App.NoKeysOfferNothing | autosocial-ai/components/Poster.tsx:56-60 | without keys the composer offers nothing for any media type |
| App.DefaultsOfferNothing | autosocial-ai/App.tsx:124-136 | the defaults offer nothing to the composer |
| App.MergeEntry | autosocial-ai/App.tsx:194-195 | the first stored entry for the default's provider, else the default; the provider is unchanged |
| App.Merge | autosocial-ai/App.tsx:193-196 | one merged entry per default, in the defaults' order |
| App.MergeShape | autosocial-ai/App.tsx:193-196 | the merge has the defaults' providers, and every entry is stored or default |
| App.MergeIdempotent | autosocial-ai/App.tsx:193-196 | merging a merged list again changes nothing when the defaults are distinct |
| App.MergeEntryFixed | autosocial-ai/App.tsx:194-195 | in a list with the defaults' provider sequence, the first match for the i-th provider is the i-th entry |
| App.MergeDefaultsIdempotent | autosocial-ai/App.tsx:188-199 | loading the stored configs twice equals loading them once |
| App.MergedKeys | autosocial-ai/App.tsx:193-196 | the i-th merged entry has canonical index i |
| App.AvailableInCanonicalOrder | autosocial-ai/App.tsx:193-196 | after the merge, the composer offers providers in canonical order |
| App.InitialDarkMode | autosocial-ai/App.tsx:156-159 | dark unless a truthy saved theme differs from "dark" |
| App.ThemeRoundTrip | autosocial-ai/App.tsx:174-175 | a stored theme reads back as the mode it was stored from |
| App.AppState.constructor | autosocial-ai/App.tsx:153-175 | the defaults, the initial theme, no replies selection; the mount run of the theme effect stores "dark" or "light" for that mode |
| App.AppState.LoadStoredApis | autosocial-ai/App.tsx:188-199 | a parsed list replaces the configs by its merge with the defaults; an entry that is not JSON makes the effect throw with the configs unchanged; nothing stored changes nothing |
| App.AppState.ToggleTheme | autosocial-ai/App.tsx:174-175 | the mode flips and the stored theme reads back as the new mode |
| App.AppState.EnsureRepliesSelection | autosocial-ai/App.tsx:202-206 | an empty replies selection becomes the first page when there is one |
| Dashboard.ActivePageCount | autosocial-ai/components/Dashboard.tsx:188 | at most the number of pages, and 0 exactly when no page is automated |
| Dashboard.ActivePageCountConcat | autosocial-ai/components/Dashboard.tsx:188 | the count of a concatenation is the sum of the counts |
| Dashboard.ActivePageCountOne | autosocial-ai/components/Dashboard.tsx:188 | one page counts 1 iff its automation is on, else 0; with the concatenation law this fixes the count |
| Dashboard.ActivePageCountAll | autosocial-ai/components/Dashboard.tsx:188 | the count is the number of pages iff every page is automated |
| Dashboard.SetAutomation | autosocial-ai/components/Dashboard.tsx:157 | pages with the id get the flag; all others are unchanged |
| Dashboard.SwitchOffKeepsNoneAutomated | autosocial-ai/components/Dashboard.tsx:168 | switching automation off never automates a page |
| Dashboard.WithoutPage | autosocial-ai/components/Dashboard.tsx:265 | exactly the pages with another id remain, with multiplicities and in order |
| Dashboard.RemovalKeepsNoneAutomated | autosocial-ai/components/Dashboard.tsx:265 | removing pages never automates a page |
| Dashboard.TrainingKeepsAutomation | autosocial-ai/components/Dashboard.tsx:182 | saving instructions keeps every automation flag |
| Dashboard.DashboardView.constructor | autosocial-ai/components/Dashboard.tsx:61-84 | a visible, connected profile, every modal closed, the invariant holds |
| Dashboard.DashboardView.ToggleAutomation | autosocial-ai/components/Dashboard.tsx:141-164 | unknown id: nothing; automated page: ask to stop; otherwise switch it on, or refuse with a warning while the profile is disconnected; the invariant is kept |
| Dashboard.DashboardView.ConfirmStopAutomation | autosocial-ai/components/Dashboard.tsx:166-172 | a recorded page is switched off and the record cleared; the dialog closes; the invariant is kept |
| Dashboard.DashboardView.OpenTrainModal | autosocial-ai/components/Dashboard.tsx:174-178 | the page is selected, its instructions loaded and the editor opened |
| Dashboard.DashboardView.SaveTraining | autosocial-ai/components/Dashboard.tsx:180-185 | a selected page gets the instructions; the editor closes; the invariant is kept |
| Dashboard.DashboardView.ProfileToggle | autosocial-ai/components/Dashboard.tsx:191-209 | switching off asks for confirmation iff no page is automated, else warns with the count; switching on is direct; the invariant is kept |
| Dashboard.DashboardView.ConfirmProfileTurnOff | autosocial-ai/components/Dashboard.tsx:211-214 | the profile is off and the dialog closed; the invariant holds iff no page is automated |
| Dashboard.DashboardView.ProfileDeleteRequest | autosocial-ai/components/Dashboard.tsx:217-236 | asks iff no page is automated and the profile is off; otherwise warns about the pages first, then about the profile |
| Dashboard.DashboardView.ConfirmDeleteProfile | autosocial-ai/components/Dashboard.tsx:238-242 | the profile card is hidden, all pages dropped, the invariant holds |
| Dashboard.DashboardView.RequestDeletePage | autosocial-ai/components/Dashboard.tsx:247-261 | unknown id: nothing; automated page: warning; otherwise record the id and ask |
| Dashboard.DashboardView.ConfirmDeletePage | autosocial-ai/components/Dashboard.tsx:263-269 | pages with the recorded id are removed and the record cleared; the invariant is kept |
| Dashboard.TurnProfileOff | autosocial-ai/components/Dashboard.tsx:191-214 | the toggle followed by its confirmation switches a connected profile off iff no page is automated, and keeps the invariant |
| Settings.FieldsDetermineRecord | autosocial-ai/types.ts:63-70 | the six fields are the whole settings record |
| Settings.WithField | autosocial-ai/components/Settings.tsx:48-50 | the edited field gets the value, every other field is kept |
| Settings.WithFieldLaws | autosocial-ai/components/Settings.tsx:49 | writing a field's own value changes nothing; the later of two writes wins |
| Settings.ValidIsConnected | autosocial-ai/components/Settings.tsx:176-177 | settings that pass a save's guard show as connected |
| Settings.BlankIdConnectedButRefused | autosocial-ai/components/Settings.tsx:54 | a non-empty all-blank App ID shows as connected while the save refuses it |
| Settings.MergeFb | autosocial-ai/components/Settings.tsx:62-66 | the stored record gains exactly the two Facebook fields, with their values; other keys are kept |
| Settings.MergeSmtp | autosocial-ai/components/Settings.tsx:82-88 | the stored record gains exactly the four SMTP fields, with their values; other keys are kept |
| Settings.SavesCommute | autosocial-ai/components/Settings.tsx:53-92 | the two saves touch disjoint keys, so their order does not matter |
| Settings.FromRecord | autosocial-ai/components/Settings.tsx:31 | each form field is the record's value under that field's name |
| Settings.SavesReload | autosocial-ai/components/Settings.tsx:53-92 | after both saves, the next load shows the saved form again |
| Settings.SettingsView.constructor | autosocial-ai/components/Settings.tsx:27-36 | a parsed stored record becomes the form; nothing stored, or a record that does not parse (caught), leaves the form empty |
| Settings.SettingsView.HandleChange | autosocial-ai/components/Settings.tsx:48-50 | the form becomes the record with that field set |
| Settings.SettingsView.SaveFb | autosocial-ai/components/Settings.tsx:53-70 | refused iff a trimmed field is empty, with the error message; past the guard, an unparseable stored record throws with nothing written and no message; otherwise the fields are merged into the parsed record (or `{}`) with the success message |
| Settings.SettingsView.SaveSmtp | autosocial-ai/components/Settings.tsx:73-92 | refused iff a trimmed field is empty, with the error message; past the guard, an unparseable stored record throws with nothing written and no message; otherwise the fields are merged into the parsed record (or `{}`) with the success message |
| Settings.Backup | autosocial-ai/components/Settings.tsx:107-119 | version 1.0.0 with the given timestamp; each of the five keys holds the store's value or null, and no other key is backed up |
| Settings.RestoredAt | autosocial-ai/components/Settings.tsx:153-157 | a key with a non-empty backup value is written; every other key is as before |
| Settings.BackupRestore | autosocial-ai/components/Settings.tsx:109-157 | restoring a backup of S sets every covered key that S held non-empty, and keeps every other key |
| Settings.RestoreOwnBackup | autosocial-ai/components/Settings.tsx:109-157 | restoring a store's own backup leaves it unchanged |
| Settings.Store.Restore | autosocial-ai/components/Settings.tsx:143-157 | succeeds iff the file parsed and has data; then the store is the restored store, else it is unchanged |
| Layout.Underscores | autosocial-ai/components/Layout.tsx:89 | every `_` becomes a space and nothing else changes |
| Layout.CapitalizeWordsAt | autosocial-ai/components/Layout.tsx:89 | a word character is upper-cased exactly when the character before it is not a word character |
| Layout.FormatTitle | autosocial-ai/components/Layout.tsx:88-90 | the title is as long as the view name and contains no `_` |
| Layout.FormatTitleAt | autosocial-ai/components/Layout.tsx:89 | `_` gives a space; a letter or digit is upper-cased at the start of a word and lower-cased elsewhere |
| Layout.FormatTitleIdempotent | autosocial-ai/components/Layout.tsx:88-90 | a title is its own title |
| Layout.ApiManagerTitle | autosocial-ai/components/Layout.tsx:89 | `API_MANAGER` gives "Api Manager" |
| Layout.UnreadCount | autosocial-ai/components/Layout.tsx:92 | at most the list length; 0 iff all are read; the length iff none is read |
| Layout.UnreadCountConcat | autosocial-ai/components/Layout.tsx:92 | the count of a concatenation is the sum of the counts |
| Layout.InitialUnread | autosocial-ai/components/Layout.tsx:38-43 | the initial list has three unread notifications |
| Layout.SelectIn | autosocial-ai/components/Layout.tsx:157 | the first entry with the code, else the first entry |
| Layout.SelectFirst | autosocial-ai/components/Layout.tsx:157 | the first entry's code selects the first entry |
| Layout.SelectedCountryFallback | autosocial-ai/components/Layout.tsx:157 | `+1` and any unlisted code show as the United States |
| Layout.CanadaShowsAsUnitedStates | autosocial-ai/components/Layout.tsx:95-97 | Canada's code selects the United States entry |
| Layout.FilterCountries | autosocial-ai/components/Layout.tsx:159-162 | an entry is kept iff its lower-cased name contains the lower-cased search or its code contains the search; order and multiplicities are kept |
| Layout.EmptySearchKeepsAll | autosocial-ai/components/Layout.tsx:159-162 | an empty search keeps every entry |
| Layout.SearchFindsOwnEntry | autosocial-ai/components/Layout.tsx:159-162 | searching for an entry's name in any case, or for its code, keeps it |
| Layout.SearchIgnoresNameCase | autosocial-ai/components/Layout.tsx:160 | the name test ignores the case of the search |
| Layout.ActiveCases | autosocial-ai/components/Layout.tsx:176 | the Dashboard item is active on the dashboard and replies views; any other item only on its own view |
| Layout.OneActiveItem | autosocial-ai/components/Layout.tsx:174-176 | at most one navigation item is active, and one is active unless the view is the guide or the legal page |
| Layout.LayoutView.constructor | autosocial-ai/components/Layout.tsx:25-43 | the initial profile and notifications, everything closed |
| Layout.LayoutView.ToggleCountrySelect | autosocial-ai/components/Layout.tsx:150-151 | the picker flips; opening it clears the search |
| Layout.LayoutView.SetCountrySearch | autosocial-ai/components/Layout.tsx:403 | the search becomes the typed text |
| Layout.LayoutView.PickCountry | autosocial-ai/components/Layout.tsx:416-419 | the code and the sample number are set, every other profile field is kept, the picker closes, and the picker then shows an entry with that code |
| Layout.LayoutView.ToggleNotifications | autosocial-ai/components/Layout.tsx:233 | the notification popover flips |
| Layout.LayoutView.SaveProfile | autosocial-ai/components/Layout.tsx:74-78 | the profile editor closes |
| ApiSelector.Selected | autosocial-ai/components/ApiSelector.tsx:24 | None iff no provider has the id; otherwise the first entry with it |
| ApiSelector.FallbackLabel | autosocial-ai/components/ApiSelector.tsx:59-63 | openai, xai and gemini (case-insensitive) get their fixed label; any other id gets its first character upper-cased and the rest kept |
| ApiSelector.ProviderLabel | autosocial-ai/components/ApiSelector.tsx:56-64 | a supplied formatter alone decides the label; otherwise the fallback does |
| ApiSelector.FallbackIgnoresCase | autosocial-ai/components/ApiSelector.tsx:59-62 | ids equal up to case get the same fixed label |
| ApiSelector.FallbackOfEmpty | autosocial-ai/components/ApiSelector.tsx:63 | the empty id has the empty label |
| ApiSelector.FallbackKeepsTail | autosocial-ai/components/ApiSelector.tsx:63 | invented labels that agree come from ids that agree after the first character |
| ApiSelector.XaiLabels | autosocial-ai/components/ApiSelector.tsx:57-61 | with the composer's formatter xai is "Grok (xAI)"; without one it is "xAI (Grok)" |
| ApiSelector.ButtonText | autosocial-ai/components/ApiSelector.tsx:74-83 | the selected provider's label, or "Select Provider" when none is selected |
| ApiSelector.DisabledShowsNothing | autosocial-ai/components/ApiSelector.tsx:88 | the list shows iff it is open and the selector is enabled |
| ApiSelector.SelectorView.constructor | autosocial-ai/components/ApiSelector.tsx:21 | the list starts closed |
| ApiSelector.SelectorView.Toggle | autosocial-ai/components/ApiSelector.tsx:69-70 | the list flips, except on a disabled button |
| ApiSelector.SelectorView.Choose | autosocial-ai/components/ApiSelector.tsx:94-97 | the chosen entry's id is reported and the list closes |
| ApiSelector.SelectorView.ClickOutside | autosocial-ai/components/ApiSelector.tsx:27-31 | a click outside closes the list |

## Left out

- JSON encoding and parsing are not modelled. A stored entry is given as absent, not valid JSON (`Corrupt`) or its parsed value; a backup file as `Unreadable` or its parsed object. Where the source catches a parse failure (the settings load, the restore), the model takes the catch branch. Where it does not (App.tsx:191, Settings.tsx:60 and Settings.tsx:80), the model reports the throw: `App.AppState.LoadStoredApis` returns `threw`, and `Settings.SettingsView.SaveFb` and `SaveSmtp` return `Threw`. In each case nothing is written.
- A stored entry that is valid JSON of the wrong shape (an `api_configs` that is not an array, an `app_settings` that is not an object of strings) is not modelled.
- Settings.SettingsView: its `stored` record is independent of the `Store` that backup and restore act on, so a restore followed by a save is not modelled as one run. A restore writes `data.settings` unchecked (Settings.tsx:155), so it can leave a `Corrupt` record, and from then on every save past its guard ends in `Threw`.
- Poster.Available: a provider id that names an inherited property of a JavaScript object (`constructor`, `toString`) makes the capability lookup at Poster.tsx:59 throw in the source; the model treats it as not offered. The merge on load keeps only the eleven default ids, so the app never reaches that case.
- The pages and posts initialisers of App.tsx and their persistence effects only parse and serialise JSON, so they are not modelled.
- Settings.FromRecord: a field missing from the parsed `app_settings` object loads as "", where the source leaves it undefined (and a later `trim` on it would throw).
- Timed notifications, toasts and their auto-dismiss timers are not modelled; neither are the reload after a restore or the outside-click listeners beyond closing.
- Busy flags (`isGenerating…`, `isSendingTest`) and the SMTP test are not modelled, because they only drive spinners and a simulated delay.
- The asynchronous AI-service, Facebook and Supabase calls are outside the model; their results are parameters.
- The exact warning texts of the dashboard are abstracted to the `Warning` datatype; the count they mention is kept.
- Icons, colours, links and descriptions in the provider metadata are not modelled, nor are the countries' flags; only titles and categories are kept.
- The chart, the OAuth connect flow and the activity feed are not modelled, because they are display and external calls.
- The "Mark all as read" button has no handler in the source, so it is not modelled.
- Case conversion is ASCII-only. `toLowerCase` and `toUpperCase` on non-ASCII letters are not modelled.
- `Date.now()` ids, ISO timestamps and `Math.random()` picks are parameters.
- Dashboard.DashboardView: the overlay that stops other handlers while a confirmation dialog is open is not modelled. `ConfirmProfileTurnOff` therefore states the invariant conditionally.
