/** The settings view (autosocial-ai/components/Settings.tsx): editing the form,
    the validated partial saves of the stored settings record, the connection
    badges, and backup and restore of the browser store. The browser store is a
    map from key to string; the JSON object stored under `app_settings` is a map
    from field name to string. JSON text itself is not modelled. */
module Settings {
  import opened Types
  import opened Strings

  /** The fields of AppSettings (`keyof AppSettings`). */
  datatype Field = FbAppId | FbAppSecret | SmtpHost | SmtpPort | SmtpUser | SmtpPass

  function Get(s: AppSettings, f: Field): string {
    match f
    case FbAppId => s.fbAppId
    case FbAppSecret => s.fbAppSecret
    case SmtpHost => s.smtpHost
    case SmtpPort => s.smtpPort
    case SmtpUser => s.smtpUser
    case SmtpPass => s.smtpPass
  }

  /** The six fields are the whole record. */
  lemma FieldsDetermineRecord(a: AppSettings, b: AppSettings)
    requires forall f :: Get(a, f) == Get(b, f)
    ensures a == b
  {
    assert Get(a, FbAppId) == Get(b, FbAppId) && Get(a, FbAppSecret) == Get(b, FbAppSecret);
    assert Get(a, SmtpHost) == Get(b, SmtpHost) && Get(a, SmtpPort) == Get(b, SmtpPort);
    assert Get(a, SmtpUser) == Get(b, SmtpUser) && Get(a, SmtpPass) == Get(b, SmtpPass);
  }

  /** `handleChange(key, value)`: the form with one field replaced. */
  function WithField(s: AppSettings, f: Field, v: string): (r: AppSettings)
    ensures Get(r, f) == v
    ensures forall g :: g != f ==> Get(r, g) == Get(s, g)
  {
    match f
    case FbAppId => s.(fbAppId := v)
    case FbAppSecret => s.(fbAppSecret := v)
    case SmtpHost => s.(smtpHost := v)
    case SmtpPort => s.(smtpPort := v)
    case SmtpUser => s.(smtpUser := v)
    case SmtpPass => s.(smtpPass := v)
  }

  /** Writing back a field's own value changes nothing; a later write to the
      same field wins. */
  lemma WithFieldLaws(s: AppSettings, f: Field, v: string, w: string)
    ensures WithField(s, f, Get(s, f)) == s
    ensures WithField(WithField(s, f, v), f, w) == WithField(s, f, w)
  {
    FieldsDetermineRecord(WithField(s, f, Get(s, f)), s);
    FieldsDetermineRecord(WithField(WithField(s, f, v), f, w), WithField(s, f, w));
  }

  /** The guard of `saveFbSettings`: both fields non-blank after `trim`. */
  predicate FbValid(s: AppSettings) {
    Trim(s.fbAppId) != "" && Trim(s.fbAppSecret) != ""
  }

  /** The guard of `saveSmtpSettings`: all four SMTP fields non-blank after `trim`. */
  predicate SmtpValid(s: AppSettings) {
    Trim(s.smtpHost) != "" && Trim(s.smtpPort) != "" && Trim(s.smtpUser) != "" && Trim(s.smtpPass) != ""
  }

  /** `isFbConnected`: both fields non-empty, untrimmed. */
  predicate IsFbConnected(s: AppSettings) {
    s.fbAppId != "" && s.fbAppSecret != ""
  }

  /** `isSmtpConnected`: all four SMTP fields non-empty, untrimmed. */
  predicate IsSmtpConnected(s: AppSettings) {
    s.smtpHost != "" && s.smtpPort != "" && s.smtpUser != "" && s.smtpPass != ""
  }

  /** What passes the save guard shows as connected. */
  lemma ValidIsConnected(s: AppSettings)
    ensures FbValid(s) ==> IsFbConnected(s)
    ensures SmtpValid(s) ==> IsSmtpConnected(s)
  {
  }

  /** The converse fails: a non-empty all-blank App ID shows as connected
      while the save refuses it. */
  lemma BlankIdConnectedButRefused(s: AppSettings)
    requires s.fbAppId != "" && s.fbAppSecret != ""
    requires forall i :: 0 <= i < |s.fbAppId| ==> IsSpace(s.fbAppId[i])
    ensures IsFbConnected(s) && !FbValid(s)
  {
    TrimEmpty(s.fbAppId);
  }

  /** The JSON object stored under `app_settings`. */
  type Record = map<string, string>

  /** The stored record with the two Facebook fields written over it. */
  function MergeFb(current: Record, s: AppSettings): (r: Record)
    ensures r.Keys == current.Keys + {"fbAppId", "fbAppSecret"}
    ensures r["fbAppId"] == s.fbAppId && r["fbAppSecret"] == s.fbAppSecret
    ensures forall k :: k in current && k != "fbAppId" && k != "fbAppSecret" ==> r[k] == current[k]
  {
    current["fbAppId" := s.fbAppId]["fbAppSecret" := s.fbAppSecret]
  }

  /** The stored record with the four SMTP fields written over it. */
  function MergeSmtp(current: Record, s: AppSettings): (r: Record)
    ensures r.Keys == current.Keys + {"smtpHost", "smtpPort", "smtpUser", "smtpPass"}
    ensures r["smtpHost"] == s.smtpHost && r["smtpPort"] == s.smtpPort
    ensures r["smtpUser"] == s.smtpUser && r["smtpPass"] == s.smtpPass
    ensures forall k :: k in current && k !in {"smtpHost", "smtpPort", "smtpUser", "smtpPass"} ==> r[k] == current[k]
  {
    current["smtpHost" := s.smtpHost]["smtpPort" := s.smtpPort]["smtpUser" := s.smtpUser]["smtpPass" := s.smtpPass]
  }

  /** The two saves touch disjoint keys, so their order does not matter. */
  lemma SavesCommute(current: Record, a: AppSettings, b: AppSettings)
    ensures MergeFb(MergeSmtp(current, b), a) == MergeSmtp(MergeFb(current, a), b)
  {
  }

  /** The name of a field in the stored JSON object. */
  function FieldKey(f: Field): string {
    match f
    case FbAppId => "fbAppId"
    case FbAppSecret => "fbAppSecret"
    case SmtpHost => "smtpHost"
    case SmtpPort => "smtpPort"
    case SmtpUser => "smtpUser"
    case SmtpPass => "smtpPass"
  }

  /** The form the load effect sets from a parsed record; a field the record
      lacks is read as "". */
  function FromRecord(r: Record): (s: AppSettings)
    ensures forall f :: Get(s, f) == if FieldKey(f) in r then r[FieldKey(f)] else ""
  {
    AppSettings(
      if "fbAppId" in r then r["fbAppId"] else "",
      if "fbAppSecret" in r then r["fbAppSecret"] else "",
      if "smtpHost" in r then r["smtpHost"] else "",
      if "smtpPort" in r then r["smtpPort"] else "",
      if "smtpUser" in r then r["smtpUser"] else "",
      if "smtpPass" in r then r["smtpPass"] else "")
  }

  /** After both saves, the next load of the view shows the saved form again,
      whatever the record held before. */
  lemma SavesReload(current: Record, s: AppSettings)
    ensures FromRecord(MergeSmtp(MergeFb(current, s), s)) == s
  {
    FieldsDetermineRecord(FromRecord(MergeSmtp(MergeFb(current, s), s)), s);
  }

  /** A notification: its text and whether it reports success. */
  datatype Notice = Notice(message: string, success: bool)

  /** How a save handler ends: refused by its guard, written, or thrown by
      `JSON.parse` on a stored record that is not valid JSON. */
  datatype SaveOutcome = Refused | Saved | Threw

  /** The record a save spreads its fields over: the parsed stored record, or
      `{}` when nothing is stored. */
  function Current(stored: Stored<Record>): Record {
    if stored.Parsed? then stored.value else map[]
  }

  /** The settings form and the stored settings record. The view keeps its own
      copy of the `app_settings` entry, independent of the `Store` the backup
      and restore handlers act on. */
  class SettingsView {
    var settings: AppSettings
    var stored: Stored<Record>
    var notification: Option<Notice>

    /** The first render followed by the load effect: a parsed record becomes
        the form; with nothing stored, or with a record that does not parse
        (the effect catches that), the form stays empty. */
    constructor (stored: Stored<Record>)
      ensures this.stored == stored && notification == None
      ensures settings == if stored.Parsed? then FromRecord(stored.value) else AppSettings("", "", "", "", "", "")
    {
      this.stored := stored;
      notification := None;
      settings := if stored.Parsed? then FromRecord(stored.value) else AppSettings("", "", "", "", "", "");
    }

    /** `handleChange`. */
    method HandleChange(f: Field, v: string)
      modifies this`settings
      ensures settings == WithField(old(settings), f, v)
    {
      settings := WithField(settings, f, v);
    }

    /** `saveFbSettings`. Past the guard, an unparseable stored record makes
        the handler throw before it writes or notifies. */
    method SaveFb() returns (outcome: SaveOutcome)
      modifies this`stored, this`notification
      ensures outcome == Refused <==> !FbValid(settings)
      ensures outcome == Threw <==> FbValid(settings) && old(stored).Corrupt?
      ensures outcome == Refused ==> stored == old(stored)
      ensures outcome == Refused ==> notification == Some(Notice("Please enter both App ID and App Secret", false))
      ensures outcome == Threw ==> stored == old(stored) && notification == old(notification)
      ensures outcome == Saved ==> stored == Parsed(MergeFb(Current(old(stored)), settings))
      ensures outcome == Saved ==> notification == Some(Notice("Facebook credentials saved successfully", true))
    {
      if !FbValid(settings) {
        notification := Some(Notice("Please enter both App ID and App Secret", false));
        return Refused;
      }
      if stored.Corrupt? {
        return Threw;
      }
      stored := Parsed(MergeFb(Current(stored), settings));
      notification := Some(Notice("Facebook credentials saved successfully", true));
      outcome := Saved;
    }

    /** `saveSmtpSettings`. Past the guard, an unparseable stored record makes
        the handler throw before it writes or notifies. */
    method SaveSmtp() returns (outcome: SaveOutcome)
      modifies this`stored, this`notification
      ensures outcome == Refused <==> !SmtpValid(settings)
      ensures outcome == Threw <==> SmtpValid(settings) && old(stored).Corrupt?
      ensures outcome == Refused ==> stored == old(stored)
      ensures outcome == Refused ==> notification == Some(Notice("Please fill in all SMTP configuration fields", false))
      ensures outcome == Threw ==> stored == old(stored) && notification == old(notification)
      ensures outcome == Saved ==> stored == Parsed(MergeSmtp(Current(old(stored)), settings))
      ensures outcome == Saved ==> notification == Some(Notice("SMTP settings saved successfully", true))
    {
      if !SmtpValid(settings) {
        notification := Some(Notice("Please fill in all SMTP configuration fields", false));
        return Refused;
      }
      if stored.Corrupt? {
        return Threw;
      }
      stored := Parsed(MergeSmtp(Current(stored), settings));
      notification := Some(Notice("SMTP settings saved successfully", true));
      outcome := Saved;
    }
  }

  /** The browser-store keys a backup covers. */
  const PagesKey := "autosocial_pages"
  const PostsKey := "autosocial_posts"
  const SettingsKey := "app_settings"
  const ApiConfigsKey := "api_configs"
  const ThemeKey := "theme"

  /** The five keys are five different strings. */
  lemma KeysDistinct()
    ensures PagesKey != PostsKey && PagesKey != SettingsKey && PagesKey != ApiConfigsKey && PagesKey != ThemeKey
    ensures PostsKey != SettingsKey && PostsKey != ApiConfigsKey && PostsKey != ThemeKey
    ensures SettingsKey != ApiConfigsKey && SettingsKey != ThemeKey && ApiConfigsKey != ThemeKey
  {
    assert PagesKey[12] != PostsKey[12];
    assert |PagesKey| == |PostsKey| == 16 && |SettingsKey| == 12 && |ApiConfigsKey| == 11 && |ThemeKey| == 5;
  }

  /** `localStorage.getItem(key)`, with null as None. */
  function Lookup(items: map<string, string>, key: string): Option<string> {
    if key in items then Some(items[key]) else None
  }

  /** The `data` object of a backup file. */
  datatype BackupData = BackupData(
    pages: Option<string>,
    posts: Option<string>,
    settings: Option<string>,
    apiConfigs: Option<string>,
    theme: Option<string>)

  datatype BackupFile = BackupFile(timestamp: string, version: string, data: BackupData)

  /** The store key a backup field is restored to, read the other way: the
      field of `d` that restore writes under `key`, None for any other key. */
  function Entry(d: BackupData, key: string): Option<string> {
    if key == PagesKey then d.pages
    else if key == PostsKey then d.posts
    else if key == SettingsKey then d.settings
    else if key == ApiConfigsKey then d.apiConfigs
    else if key == ThemeKey then d.theme
    else None
  }

  /** The record `handleBackup` serialises; `timestamp` stands for
      `new Date().toISOString()`. */
  function Backup(items: map<string, string>, timestamp: string): (b: BackupFile)
    ensures b.version == "1.0.0" && b.timestamp == timestamp
    ensures forall k :: k in {PagesKey, PostsKey, SettingsKey, ApiConfigsKey, ThemeKey} ==> Entry(b.data, k) == Lookup(items, k)
    ensures forall k :: k !in {PagesKey, PostsKey, SettingsKey, ApiConfigsKey, ThemeKey} ==> Entry(b.data, k) == None
  {
    BackupFile(timestamp, "1.0.0", BackupData(
      Lookup(items, PagesKey), Lookup(items, PostsKey), Lookup(items, SettingsKey),
      Lookup(items, ApiConfigsKey), Lookup(items, ThemeKey)))
  }

  /** `if (v) localStorage.setItem(key, v)`. */
  function Put(items: map<string, string>, key: string, v: Option<string>): map<string, string> {
    if Truthy(v) then items[key := v.value] else items
  }

  /** The store after the five conditional writes of `handleRestore`. */
  function Restored(items: map<string, string>, d: BackupData): map<string, string> {
    Put(Put(Put(Put(Put(items, PagesKey, d.pages), PostsKey, d.posts), SettingsKey, d.settings), ApiConfigsKey, d.apiConfigs), ThemeKey, d.theme)
  }

  /** Restore writes each key with a non-empty backup value and leaves every
      other key of the store as it was. */
  lemma RestoredAt(items: map<string, string>, d: BackupData, k: string)
    ensures Truthy(Entry(d, k)) ==> k in Restored(items, d) && Restored(items, d)[k] == Entry(d, k).value
    ensures !Truthy(Entry(d, k)) ==>
      (k in Restored(items, d) <==> k in items) && (k in items ==> Restored(items, d)[k] == items[k])
  {
    KeysDistinct();
  }

  /** Restoring a backup of S sets every covered key that S held non-empty to
      S's value, and leaves every other key as it was. */
  lemma BackupRestore(s: map<string, string>, t: map<string, string>, timestamp: string)
    ensures var r := Restored(t, Backup(s, timestamp).data);
      forall k :: if k in {PagesKey, PostsKey, SettingsKey, ApiConfigsKey, ThemeKey} && k in s && s[k] != ""
                  then k in r && r[k] == s[k]
                  else (k in r <==> k in t) && (k in t ==> r[k] == t[k])
  {
    forall k {
      RestoredAt(t, Backup(s, timestamp).data, k);
    }
  }

  /** So restoring a store's own backup leaves it unchanged. */
  lemma RestoreOwnBackup(s: map<string, string>, timestamp: string)
    ensures Restored(s, Backup(s, timestamp).data) == s
  {
    var r := Restored(s, Backup(s, timestamp).data);
    BackupRestore(s, s, timestamp);
    assert r.Keys == s.Keys;
  }

  /** What the chosen file parsed to: unreadable JSON, or an object whose
      `data` member may be missing. */
  datatype RestoreInput = Unreadable | Readable(data: Option<BackupData>)

  /** The browser store. */
  class Store {
    var items: map<string, string>

    constructor (items: map<string, string>)
      ensures this.items == items
    {
      this.items := items;
    }

    /** The write logic of `handleRestore`: one conditional write per key. */
    method Restore(input: RestoreInput) returns (ok: bool)
      modifies this`items
      ensures ok <==> input.Readable? && input.data.Some?
      ensures items == if ok then Restored(old(items), input.data.value) else old(items)
    {
      if input.Unreadable? || input.data.None? {
        return false;
      }
      var d := input.data.value;
      if Truthy(d.pages) { items := items[PagesKey := d.pages.value]; }
      if Truthy(d.posts) { items := items[PostsKey := d.posts.value]; }
      if Truthy(d.settings) { items := items[SettingsKey := d.settings.value]; }
      if Truthy(d.apiConfigs) { items := items[ApiConfigsKey := d.apiConfigs.value]; }
      if Truthy(d.theme) { items := items[ThemeKey := d.theme.value]; }
      ok := true;
    }
  }
}
