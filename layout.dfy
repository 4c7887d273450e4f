/** The application frame (autosocial-ai/components/Layout.tsx): the header
    title, the unread-notification badge, the profile editor's country picker
    with its search, and the navigation highlighting. */
module Layout {
  import opened Types
  import opened Seqs
  import opened Strings

  // ---------------------------------------------------------------------------
  // The header title
  // ---------------------------------------------------------------------------

  /** A character `\w` matches: an ASCII letter, a digit or `_`. */
  predicate IsWordChar(c: char) {
    IsUpperAscii(c) || IsLowerAscii(c) || '0' <= c <= '9' || c == '_'
  }

  /** An ASCII letter or a digit. */
  predicate IsAlnum(c: char) {
    IsUpperAscii(c) || IsLowerAscii(c) || '0' <= c <= '9'
  }

  /** `s.replace(/_/g, ' ')`. */
  function Underscores(s: string): (r: string)
    ensures |r| == |s|
    ensures forall i :: 0 <= i < |s| ==> r[i] == if s[i] == '_' then ' ' else s[i]
  {
    if s == [] then [] else [if s[0] == '_' then ' ' else s[0]] + Underscores(s[1..])
  }

  /** Upper-casing every word character that starts a word; `afterWord` says
      whether the character before `s` is a word character. */
  function CapitalizeWords(s: string, afterWord: bool): (r: string)
    ensures |r| == |s|
  {
    if s == [] then []
    else [if IsWordChar(s[0]) && !afterWord then UpperChar(s[0]) else s[0]] + CapitalizeWords(s[1..], IsWordChar(s[0]))
  }

  /** A word character is upper-cased exactly when it starts a word, that is
      when the character before it is not a word character. */
  lemma {:induction false} CapitalizeWordsAt(s: string, afterWord: bool, i: int)
    requires 0 <= i < |s|
    ensures CapitalizeWords(s, afterWord)[i] ==
      if IsWordChar(s[i]) && !(if i == 0 then afterWord else IsWordChar(s[i - 1])) then UpperChar(s[i]) else s[i]
  {
    if i > 0 {
      CapitalizeWordsAt(s[1..], IsWordChar(s[0]), i - 1);
    }
  }

  /** Lower-casing keeps a character a word character, or not one. */
  lemma LowerKeepsWordChar(c: char)
    ensures IsWordChar(LowerChar(c)) == IsWordChar(c)
    ensures LowerChar(c) == '_' <==> c == '_'
  {
  }

  /** `formatTitle`: underscores become spaces, the text is lower-cased, and
      every letter that starts a word is upper-cased again. */
  function FormatTitle(view: string): (r: string)
    ensures |r| == |view|
    ensures forall i :: 0 <= i < |r| ==> r[i] != '_'
  {
    var t := Lower(Underscores(view));
    forall i | 0 <= i < |t| ensures CapitalizeWords(t, false)[i] != '_' {
      CapitalizeWordsAt(t, false, i);
      LowerKeepsWordChar(Underscores(view)[i]);
    }
    CapitalizeWords(t, false)
  }

  /** The title character by character, in terms of the view name itself: an
      underscore is a space; a letter or digit after a letter or digit is
      lower-cased; any other letter or digit is upper-cased. */
  lemma FormatTitleAt(view: string, i: int)
    requires 0 <= i < |view|
    ensures FormatTitle(view)[i] ==
      if view[i] == '_' then ' '
      else if IsAlnum(view[i]) && (i == 0 || !IsAlnum(view[i - 1])) then UpperChar(LowerChar(view[i]))
      else LowerChar(view[i])
  {
    var u := Underscores(view);
    CapitalizeWordsAt(Lower(u), false, i);
    LowerKeepsWordChar(u[i]);
    if i > 0 {
      LowerKeepsWordChar(u[i - 1]);
    }
  }

  /** Upper-casing a lower-cased character and lower-casing it again gives
      the lower-cased character back. */
  lemma CaseRoundTrip(c: char)
    ensures LowerChar(UpperChar(LowerChar(c))) == LowerChar(c)
    ensures IsAlnum(UpperChar(LowerChar(c))) == IsAlnum(c)
    ensures IsAlnum(LowerChar(c)) == IsAlnum(c)
  {
  }

  /** A title is its own title. */
  lemma FormatTitleIdempotent(view: string)
    ensures FormatTitle(FormatTitle(view)) == FormatTitle(view)
  {
    var t := FormatTitle(view);
    var tt := FormatTitle(t);
    forall i | 0 <= i < |view| ensures tt[i] == t[i] {
      FormatTitleAt(view, i);
      FormatTitleAt(t, i);
      CaseRoundTrip(view[i]);
      if i > 0 {
        FormatTitleAt(view, i - 1);
        CaseRoundTrip(view[i - 1]);
      }
    }
    Extensional(tt, t);
  }

  /** The three cases of `FormatTitleAt`, one at a time. */
  lemma TitleSeparator(view: string, i: int)
    requires 0 <= i < |view| && view[i] == '_'
    ensures FormatTitle(view)[i] == ' '
  {
    FormatTitleAt(view, i);
  }

  lemma TitleInitial(view: string, i: int)
    requires 0 <= i < |view| && IsUpperAscii(view[i]) && (i == 0 || !IsAlnum(view[i - 1]))
    ensures FormatTitle(view)[i] == view[i]
  {
    FormatTitleAt(view, i);
  }

  lemma TitleInner(view: string, i: int)
    requires 0 < i < |view| && IsUpperAscii(view[i]) && IsAlnum(view[i - 1])
    ensures FormatTitle(view)[i] == LowerChar(view[i])
  {
    FormatTitleAt(view, i);
  }

  /** The title of `API_MANAGER`, character by character. */
  lemma ApiManagerChars(v: string)
    requires v == ['A', 'P', 'I', '_', 'M', 'A', 'N', 'A', 'G', 'E', 'R']
    ensures FormatTitle(v) == ['A', 'p', 'i', ' ', 'M', 'a', 'n', 'a', 'g', 'e', 'r']
  {
    TitleInitial(v, 0);
    TitleInner(v, 1);
    TitleInner(v, 2);
    TitleSeparator(v, 3);
    TitleInitial(v, 4);
    TitleInner(v, 5);
    TitleInner(v, 6);
    TitleInner(v, 7);
    TitleInner(v, 8);
    TitleInner(v, 9);
    TitleInner(v, 10);
  }

  /** The header of the key manager reads "Api Manager". */
  lemma ApiManagerTitle()
    ensures FormatTitle(View.ApiManager.Name()) == "Api Manager"
  {
    ApiManagerChars(View.ApiManager.Name());
    assert "Api Manager" == ['A', 'p', 'i', ' ', 'M', 'a', 'n', 'a', 'g', 'e', 'r'];
  }

  // ---------------------------------------------------------------------------
  // Notifications
  // ---------------------------------------------------------------------------

  datatype NotificationKind = Info | Warning | Success

  datatype Notification = Notification(id: int, text: string, time: string, read: bool, kind: NotificationKind)

  /** The filter condition of `unreadCount`. */
  function IsUnread(): Notification -> bool {
    (n: Notification) => !n.read
  }

  /** The unread badge: the number of notifications not yet read. */
  function UnreadCount(ns: seq<Notification>): (r: nat)
    ensures r <= |ns|
    ensures r == 0 <==> forall i :: 0 <= i < |ns| ==> ns[i].read
    ensures r == |ns| <==> forall i :: 0 <= i < |ns| ==> !ns[i].read
  {
    FilterEmpty(ns, IsUnread());
    FilterFull(ns, IsUnread());
    |Filter(ns, IsUnread())|
  }

  /** The count of a list is the sum of the counts of its parts, so each
      unread notification adds one and each read one adds nothing. */
  lemma UnreadCountConcat(a: seq<Notification>, b: seq<Notification>)
    ensures UnreadCount(a + b) == UnreadCount(a) + UnreadCount(b)
  {
    FilterConcat(a, b, IsUnread());
  }

  /** The notifications the frame starts with. */
  const InitialNotifications: seq<Notification> := [
    Notification(1, "AI Reply limit reached for \"Tech Daily\"", "2 mins ago", false, Warning),
    Notification(2, "New comment from Sarah on \"Summer Sale\"", "1 hour ago", false, Info),
    Notification(3, "Scheduled post published successfully", "3 hours ago", false, Success),
    Notification(4, "System maintenance scheduled for Sunday", "Yesterday", true, Info)]

  /** The badge starts at three. */
  lemma InitialUnread()
    ensures UnreadCount(InitialNotifications) == 3
  {
    var ns := InitialNotifications;
    assert ns == ns[..3] + [ns[3]];
    UnreadCountConcat(ns[..3], [ns[3]]);
  }

  // ---------------------------------------------------------------------------
  // The country picker
  // ---------------------------------------------------------------------------

  /** An entry of `countryCodes` (the flag is left out). */
  datatype Country = Country(code: string, name: string, dummy: string)

  const Countries: seq<Country> := [
    Country("+1", "United States", "555-0123"),
    Country("+44", "United Kingdom", "7700 900077"),
    Country("+1", "Canada", "555-0101"),
    Country("+61", "Australia", "0400 123 456"),
    Country("+91", "India", "98123 45678"),
    Country("+81", "Japan", "90 1234 5678"),
    Country("+49", "Germany", "1512 3456789"),
    Country("+33", "France", "06 12 34 56 78"),
    Country("+55", "Brazil", "11 91234-5678"),
    Country("+52", "Mexico", "55 1234 5678"),
    Country("+86", "China", "139 1234 5678"),
    Country("+7", "Russia", "900 123-45-67"),
    Country("+39", "Italy", "320 1234567"),
    Country("+34", "Spain", "612 345 678"),
    Country("+82", "South Korea", "010-1234-5678"),
    Country("+62", "Indonesia", "0812-3456-789"),
    Country("+31", "Netherlands", "06 12345678"),
    Country("+90", "Turkey", "501 123 45 67"),
    Country("+966", "Saudi Arabia", "50 123 4567"),
    Country("+971", "UAE", "50 123 4567"),
    Country("+65", "Singapore", "8123 4567"),
    Country("+27", "South Africa", "072 123 4567"),
    Country("+41", "Switzerland", "79 123 45 67"),
    Country("+46", "Sweden", "070 123 45 67"),
    Country("+47", "Norway", "912 34 567"),
    Country("+45", "Denmark", "12 34 56 78"),
    Country("+358", "Finland", "040 1234567"),
    Country("+64", "New Zealand", "021 123 4567"),
    Country("+60", "Malaysia", "012-345 6789"),
    Country("+66", "Thailand", "081 234 5678"),
    Country("+84", "Vietnam", "090 123 4567"),
    Country("+63", "Philippines", "0917 123 4567"),
    Country("+92", "Pakistan", "300 1234567"),
    Country("+880", "Bangladesh", "01712 345678"),
    Country("+20", "Egypt", "010 1234 5678"),
    Country("+234", "Nigeria", "0803 123 4567"),
    Country("+254", "Kenya", "0712 345678"),
    Country("+54", "Argentina", "9 11 1234 5678"),
    Country("+56", "Chile", "9 1234 5678"),
    Country("+57", "Colombia", "300 123 4567"),
    Country("+51", "Peru", "912 345 678")]

  /** The find callback of `selectedCountry`. */
  function CodeIs(code: string): Country -> bool {
    (c: Country) => c.code == code
  }

  /** Some entry has the code `code`. */
  predicate HasCode(code: string, cs: seq<Country>) {
    exists i :: 0 <= i < |cs| && cs[i].code == code
  }

  /** The entry the picker shows for a code: the first entry with that
      code, or the first entry when there is none. */
  function SelectIn(cs: seq<Country>, code: string): (r: Country)
    requires cs != []
    ensures r in cs
    ensures !HasCode(code, cs) ==> r == cs[0]
    ensures HasCode(code, cs) ==> r.code == code && exists k :: 0 <= k < |cs| && cs[k] == r && !HasCode(code, cs[..k])
  {
    match FindIndex(cs, CodeIs(code))
    case None => cs[0]
    case Some(k) =>
      assert forall j :: 0 <= j < k ==> cs[..k][j] == cs[j];
      cs[k]
  }

  /** `selectedCountry`. */
  function SelectedCountry(code: string): Country {
    SelectIn(Countries, code)
  }

  /** A list's first code selects its first entry. */
  lemma SelectFirst(cs: seq<Country>)
    requires cs != []
    ensures SelectIn(cs, cs[0].code) == cs[0]
  {
    var code := cs[0].code;
    assert HasCode(code, cs);
    var k :| 0 <= k < |cs| && cs[k] == SelectIn(cs, code) && !HasCode(code, cs[..k]);
    if k > 0 {
      assert cs[..k][0] == cs[0];
    }
  }

  /** The first and third entries of the table. */
  lemma CountriesHead()
    ensures |Countries| == 41
    ensures Countries[0] == Country("+1", "United States", "555-0123")
    ensures Countries[2] == Country("+1", "Canada", "555-0101")
  {
  }

  /** `+1`, the profile's initial code, shows as the United States; so does
      any code the table does not list. */
  lemma SelectedCountryFallback(code: string)
    requires code == "+1" || !HasCode(code, Countries)
    ensures SelectedCountry(code) == Countries[0] && Countries[0].name == "United States"
  {
    CountriesHead();
    if code == "+1" {
      SelectFirst(Countries);
    }
  }

  /** Canada shares `+1`, so after picking Canada the picker shows the United
      States. */
  lemma CanadaShowsAsUnitedStates()
    ensures Countries[2].name == "Canada"
    ensures SelectedCountry(Countries[2].code) == Countries[0]
  {
    CountriesHead();
    SelectFirst(Countries);
  }

  /** The filter condition of `filteredCountries`: the name contains the
      search ignoring case, or the code contains it as typed. */
  predicate Matches(c: Country, search: string) {
    Contains(Lower(c.name), Lower(search)) || Contains(c.code, search)
  }

  function MatchesSearch(search: string): Country -> bool {
    (c: Country) => Matches(c, search)
  }

  /** The picker's list under a search text. */
  function FilterCountries(cs: seq<Country>, search: string): (r: seq<Country>)
    ensures forall c :: c in r <==> c in cs && Matches(c, search)
    ensures forall c :: multiset(r)[c] == if Matches(c, search) then multiset(cs)[c] else 0
    ensures IsSubseq(r, cs)
  {
    var p := MatchesSearch(search);
    FilterIsSubseq(cs, p);
    forall c ensures multiset(Filter(cs, p))[c] == if Matches(c, search) then multiset(cs)[c] else 0 {
      FilterCount(cs, p, c);
    }
    Filter(cs, p)
  }

  /** `filteredCountries`. */
  function FilteredCountries(search: string): seq<Country> {
    FilterCountries(Countries, search)
  }

  /** Every string contains the empty string and itself. */
  lemma ContainsTrivial(s: string)
    ensures Contains(s, "") && Contains(s, s)
  {
    assert IsPrefix("", s) && IsPrefix(s, s);
  }

  /** An empty search keeps the whole table. */
  lemma EmptySearchKeepsAll(cs: seq<Country>)
    ensures FilterCountries(cs, "") == cs
  {
    var p := MatchesSearch("");
    forall i | 0 <= i < |cs| ensures p(cs[i]) {
      ContainsTrivial(Lower(cs[i].name));
    }
    FilterAll(cs, p);
  }

  /** Searching for a country's own name, in any case, or for its own code
      keeps that country. */
  lemma SearchFindsOwnEntry(cs: seq<Country>, i: int, search: string)
    requires 0 <= i < |cs|
    requires Lower(search) == Lower(cs[i].name) || search == cs[i].code
    ensures cs[i] in FilterCountries(cs, search)
  {
    ContainsTrivial(Lower(cs[i].name));
    ContainsTrivial(cs[i].code);
  }

  /** The name test ignores the case of the search. */
  lemma SearchIgnoresNameCase(c: Country, a: string, b: string)
    requires Lower(a) == Lower(b) && Contains(Lower(c.name), Lower(a))
    ensures Matches(c, a) && Matches(c, b)
  {
  }

  // ---------------------------------------------------------------------------
  // Navigation
  // ---------------------------------------------------------------------------

  /** The views `navItems` lists, in order. */
  const NavItems: seq<View> := [View.Dashboard, View.Activity, View.Poster, View.ApiManager, View.Settings]

  /** `isActive`: the item is the current view, and the Dashboard item also
      covers the replies view. */
  predicate IsActive(current: View, item: View) {
    current == item || (item == View.Dashboard && current == View.Replies)
  }

  /** The Dashboard item is highlighted exactly on the dashboard and the
      replies view; any other item only on its own view. */
  lemma ActiveCases(current: View, item: View)
    ensures item == View.Dashboard ==> (IsActive(current, item) <==> current == View.Dashboard || current == View.Replies)
    ensures item != View.Dashboard ==> (IsActive(current, item) <==> current == item)
  {
  }

  /** At most one navigation item is highlighted, and one is exactly when the
      current view is neither the guide nor the legal page. */
  lemma OneActiveItem(current: View)
    ensures forall i, j :: 0 <= i < j < |NavItems| ==> !(IsActive(current, NavItems[i]) && IsActive(current, NavItems[j]))
    ensures (exists i :: 0 <= i < |NavItems| && IsActive(current, NavItems[i])) <==> current != View.Guide && current != View.Legal
  {
    if current == View.Dashboard || current == View.Replies {
      assert IsActive(current, NavItems[0]);
    } else if current == View.Activity {
      assert IsActive(current, NavItems[1]);
    } else if current == View.Poster {
      assert IsActive(current, NavItems[2]);
    } else if current == View.ApiManager {
      assert IsActive(current, NavItems[3]);
    } else if current == View.Settings {
      assert IsActive(current, NavItems[4]);
    }
  }

  // ---------------------------------------------------------------------------
  // The frame's state
  // ---------------------------------------------------------------------------

  datatype Profile = Profile(
    name: string,
    username: string,
    email: string,
    password: string,
    mobile: string,
    countryCode: string,
    role: string)

  const InitialProfile := Profile("Admin User", "admin_sys", "admin@autosocial.ai", "", "555-0123", "+1", "Pro Plan")

  /** The frame's own state: the profile being edited, the country picker,
      the notification list and the popovers. */
  class LayoutView {
    var profile: Profile
    var isProfileOpen: bool
    var isCountrySelectOpen: bool
    var countrySearch: string
    var notifications: seq<Notification>
    var isNotificationsOpen: bool

    constructor ()
      ensures profile == InitialProfile && !isProfileOpen
      ensures !isCountrySelectOpen && countrySearch == ""
      ensures notifications == InitialNotifications && !isNotificationsOpen
    {
      profile := InitialProfile;
      isProfileOpen := false;
      isCountrySelectOpen := false;
      countrySearch := "";
      notifications := InitialNotifications;
      isNotificationsOpen := false;
    }

    /** The picker button, followed by the effect that clears the search
        whenever the picker opens. */
    method ToggleCountrySelect()
      modifies this`isCountrySelectOpen, this`countrySearch
      ensures isCountrySelectOpen == !old(isCountrySelectOpen)
      ensures countrySearch == if isCountrySelectOpen then "" else old(countrySearch)
    {
      isCountrySelectOpen := !isCountrySelectOpen;
      if isCountrySelectOpen {
        countrySearch := "";
      }
    }

    /** Typing into the search box. */
    method SetCountrySearch(search: string)
      modifies this`countrySearch
      ensures countrySearch == search
    {
      countrySearch := search;
    }

    /** Clicking a listed country: its code and its sample number replace the
        profile's, every other profile field stays, and the picker closes. */
    method PickCountry(c: Country)
      modifies this`profile, this`isCountrySelectOpen
      ensures profile == old(profile).(countryCode := c.code, mobile := c.dummy)
      ensures !isCountrySelectOpen
      ensures c in Countries ==> SelectedCountry(profile.countryCode).code == c.code
    {
      profile := profile.(countryCode := c.code, mobile := c.dummy);
      isCountrySelectOpen := false;
      if c in Countries {
        var i :| 0 <= i < |Countries| && Countries[i] == c;
        assert HasCode(c.code, Countries);
      }
    }

    /** The notification bell. */
    method ToggleNotifications()
      modifies this`isNotificationsOpen
      ensures isNotificationsOpen == !old(isNotificationsOpen)
    {
      isNotificationsOpen := !isNotificationsOpen;
    }

    /** `handleSaveProfile`: the profile stays as edited and the editor closes. */
    method SaveProfile()
      modifies this`isProfileOpen
      ensures !isProfileOpen
    {
      isProfileOpen := false;
    }
  }
}
