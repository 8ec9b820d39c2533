/**
 * The notification-settings store: nine on/off flags, a two-way aggregate
 * over the six category flags, and persistence of the flags as a JSON
 * object under one key of the browser's key/value storage.
 */
module NotificationSettings {
  import opened Wrappers
  import opened FlatJson

  /** The nine flags, in the order the settings object declares them. */
  datatype Flag =
    | Attendance | Payroll | Approval | Leave | Evaluation | System
    | Browser | Email | Sms

  /** The settings object. */
  datatype Settings = Settings(
    attendanceEnabled: bool,
    payrollEnabled: bool,
    approvalEnabled: bool,
    leaveEnabled: bool,
    evaluationEnabled: bool,
    systemEnabled: bool,
    browserNotification: bool,
    emailNotification: bool,
    smsNotification: bool)

  /** The value of one flag. */
  function Get(s: Settings, f: Flag): bool {
    match f
    case Attendance => s.attendanceEnabled
    case Payroll => s.payrollEnabled
    case Approval => s.approvalEnabled
    case Leave => s.leaveEnabled
    case Evaluation => s.evaluationEnabled
    case System => s.systemEnabled
    case Browser => s.browserNotification
    case Email => s.emailNotification
    case Sms => s.smsNotification
  }

  /** The property name of one flag in the settings object. */
  function Key(f: Flag): string {
    match f
    case Attendance => "attendanceEnabled"
    case Payroll => "payrollEnabled"
    case Approval => "approvalEnabled"
    case Leave => "leaveEnabled"
    case Evaluation => "evaluationEnabled"
    case System => "systemEnabled"
    case Browser => "browserNotification"
    case Email => "emailNotification"
    case Sms => "smsNotification"
  }

  /** The six notification categories; the browser, e-mail and SMS
      channels are not categories. */
  predicate IsCategory(f: Flag) {
    !(f.Browser? || f.Email? || f.Sms?)
  }

  /** The initial settings, and what a reset restores: every flag on. */
  function Defaults(): (s: Settings)
    ensures forall f :: Get(s, f)
  {
    Settings(true, true, true, true, true, true, true, true, true)
  }

  /** The getter of `allNotificationsEnabled`. */
  function AllEnabled(s: Settings): (r: bool)
    ensures r <==> forall f | IsCategory(f) :: Get(s, f)
  {
    assert Get(s, Attendance) && Get(s, Payroll) && Get(s, Approval) &&
           Get(s, Leave) && Get(s, Evaluation) && Get(s, System) ==>
           s.attendanceEnabled && s.payrollEnabled && s.approvalEnabled &&
           s.leaveEnabled && s.evaluationEnabled && s.systemEnabled;
    s.attendanceEnabled && s.payrollEnabled && s.approvalEnabled &&
    s.leaveEnabled && s.evaluationEnabled && s.systemEnabled
  }

  /** The setter of `allNotificationsEnabled`: the value goes to each of the
      six categories; the channel flags are left alone. */
  function WithAllCategories(s: Settings, v: bool): (r: Settings)
    ensures forall f :: Get(r, f) == if IsCategory(f) then v else Get(s, f)
  {
    s.(attendanceEnabled := v, payrollEnabled := v, approvalEnabled := v,
       leaveEnabled := v, evaluationEnabled := v, systemEnabled := v)
  }

  /** Setting the aggregate and reading it back gives the value set. */
  lemma SetThenGet(s: Settings, v: bool)
    ensures AllEnabled(WithAllCategories(s, v)) == v
  {
  }

  /** Writing back the value just read changes nothing exactly when the six
      categories agree; when they disagree the write switches them all off. */
  lemma GetThenSet(s: Settings)
    ensures WithAllCategories(s, AllEnabled(s)) == s <==>
      forall f, g | IsCategory(f) && IsCategory(g) :: Get(s, f) == Get(s, g)
  {
    var r := WithAllCategories(s, AllEnabled(s));
    if r == s {
      forall f, g | IsCategory(f) && IsCategory(g) ensures Get(s, f) == Get(s, g) {
        assert Get(r, f) == AllEnabled(s) == Get(r, g);
      }
    }
    if forall f, g | IsCategory(f) && IsCategory(g) :: Get(s, f) == Get(s, g) {
      var a := Get(s, Attendance);
      assert Get(s, Payroll) == Get(s, Approval) == Get(s, Leave) == a;
      assert Get(s, Evaluation) == Get(s, System) == a;
      assert AllEnabled(s) == a;
    }
  }

  /** `{ ...s, ...saved }` restricted to the nine flags: a flag whose key
      the saved object holds takes the saved value, the others keep theirs. */
  function Merge(s: Settings, saved: map<string, bool>): (r: Settings)
    ensures forall f :: Get(r, f) == if Key(f) in saved then saved[Key(f)] else Get(s, f)
  {
    Settings(
      Pick(saved, Key(Attendance), s.attendanceEnabled),
      Pick(saved, Key(Payroll), s.payrollEnabled),
      Pick(saved, Key(Approval), s.approvalEnabled),
      Pick(saved, Key(Leave), s.leaveEnabled),
      Pick(saved, Key(Evaluation), s.evaluationEnabled),
      Pick(saved, Key(System), s.systemEnabled),
      Pick(saved, Key(Browser), s.browserNotification),
      Pick(saved, Key(Email), s.emailNotification),
      Pick(saved, Key(Sms), s.smsNotification))
  }

  function Pick(saved: map<string, bool>, key: string, current: bool): bool {
    if key in saved then saved[key] else current
  }

  /** Merging the same saved object twice is merging it once. */
  lemma MergeIdempotent(s: Settings, saved: map<string, bool>)
    ensures Merge(Merge(s, saved), saved) == Merge(s, saved)
  {
  }

  // ---------------------------------------------------------------------
  // The JSON text the settings are stored as.

  /** The storage key. */
  const StorageKey: string := "notificationSettings"

  /** The nine flags in declaration order. */
  const Flags: seq<Flag> := [Attendance, Payroll, Approval, Leave, Evaluation, System, Browser, Email, Sms]

  /** The flags' keys with their values, in declaration order. */
  function Entries(s: Settings): seq<(string, bool)> {
    seq(|Flags|, i requires 0 <= i < |Flags| => (Key(Flags[i]), Get(s, Flags[i])))
  }

  /** `JSON.stringify(settings)`: an object with the nine members in
      declaration order. */
  function Stringify(s: Settings): (r: string)
    ensures |r| >= 2 && r[0] == '{' && r[|r| - 1] == '}'
  {
    ObjectText(Entries(s))
  }

  /** Every flag's key is written as is. */
  lemma EntriesPlain(s: Settings)
    ensures PlainKeys(Entries(s))
  {
    FirstCategoryKeysPlain();
    LastCategoryKeysPlain();
    ChannelKeysPlain();
    forall i | 0 <= i < |Flags| ensures PlainKey(Key(Flags[i])) {
    }
  }

  lemma FirstCategoryKeysPlain()
    ensures PlainKey(Key(Attendance)) && PlainKey(Key(Payroll)) && PlainKey(Key(Approval))
  {
  }

  lemma LastCategoryKeysPlain()
    ensures PlainKey(Key(Leave)) && PlainKey(Key(Evaluation)) && PlainKey(Key(System))
  {
  }

  lemma ChannelKeysPlain()
    ensures PlainKey(Key(Browser)) && PlainKey(Key(Email)) && PlainKey(Key(Sms))
  {
  }

  /** No two flags share a key. */
  lemma EntriesDistinct(s: Settings)
    ensures DistinctKeys(Entries(s))
  {
  }

  /** The position of a flag in declaration order. */
  function Position(f: Flag): nat {
    match f
    case Attendance => 0
    case Payroll => 1
    case Approval => 2
    case Leave => 3
    case Evaluation => 4
    case System => 5
    case Browser => 6
    case Email => 7
    case Sms => 8
  }

  lemma PositionOf(f: Flag)
    ensures Position(f) < |Flags| && Flags[Position(f)] == f
  {
  }

  /** Two settings that agree on every flag are equal. */
  lemma SettingsExt(a: Settings, b: Settings)
    requires forall f :: Get(a, f) == Get(b, f)
    ensures a == b
  {
    assert Get(a, Attendance) == Get(b, Attendance) && Get(a, Payroll) == Get(b, Payroll);
    assert Get(a, Approval) == Get(b, Approval) && Get(a, Leave) == Get(b, Leave);
    assert Get(a, Evaluation) == Get(b, Evaluation) && Get(a, System) == Get(b, System);
    assert Get(a, Browser) == Get(b, Browser) && Get(a, Email) == Get(b, Email);
    assert Get(a, Sms) == Get(b, Sms);
  }

  /** The object read back from `Stringify(s)` holds each flag's value
      under the flag's key. */
  lemma StringifyRoundTrip(s: Settings)
    ensures ParseObject(Stringify(s)).Some?
    ensures forall f :: Key(f) in ParseObject(Stringify(s)).value &&
                        ParseObject(Stringify(s)).value[Key(f)] == Get(s, f)
  {
    var es := Entries(s);
    EntriesPlain(s);
    EntriesDistinct(s);
    forall f ensures ParseObject(Stringify(s)).Some? && Key(f) in ParseObject(Stringify(s)).value &&
                     ParseObject(Stringify(s)).value[Key(f)] == Get(s, f) {
      PositionOf(f);
      RoundTripAt(es, Position(f));
    }
    RoundTripAt(es, 0);
  }

  /** The object read back from `Stringify(s)` has no key but the nine flags'. */
  lemma StringifyKeys(s: Settings)
    ensures ParseObject(Stringify(s)).Some?
    ensures forall k | k in ParseObject(Stringify(s)).value :: exists f :: k == Key(f)
  {
    var es := Entries(s);
    EntriesPlain(s);
    EntriesDistinct(s);
    RoundTrip(es);
    forall k | k in ParseObject(Stringify(s)).value ensures exists f :: k == Key(f) {
      var i :| 0 <= i < |es| && es[i].0 == k;
      assert k == Key(Flags[i]);
    }
  }

  /** Merging the object read back from `Stringify(s)` into any settings
      gives `s`: the stored text holds all nine flags. */
  lemma MergeStored(s: Settings, current: Settings)
    ensures ParseObject(Stringify(s)).Some?
    ensures Merge(current, ParseObject(Stringify(s)).value) == s
  {
    StringifyRoundTrip(s);
    var r := Merge(current, ParseObject(Stringify(s)).value);
    SettingsExt(r, s);
  }

  // ---------------------------------------------------------------------
  // Loading.

  /** `Notification.permission`. */
  datatype Permission = Default | Denied | Granted

  /** The saved object `loadSettings` merges: present when storage holds a
      non-empty text under the key and that text parses. */
  function SavedObject(saved: Option<string>): (r: Option<map<string, bool>>)
    ensures saved.None? || saved == Some("") ==> r.None?
    ensures r.Some? ==> saved.Some? && r == ParseObject(saved.value)
    ensures saved.Some? && saved.value != "" ==> r == ParseObject(saved.value)
  {
    if saved.Some? && saved.value != "" then ParseObject(saved.value) else None
  }

  /** `loadSettings` once the stored text has been read and parsed: the
      saved object (`None` when storage held nothing usable) is merged
      over the settings, then the browser flag follows the permission
      (`None` when the browser has no Notification API). */
  function Restore(s: Settings, obj: Option<map<string, bool>>, permission: Option<Permission>): (r: Settings)
    ensures permission.Some? ==> r.browserNotification == (permission.value == Granted)
    ensures forall f: Flag | !(f.Browser? && permission.Some?) ::
      Get(r, f) == if obj.Some? && Key(f) in obj.value then obj.value[Key(f)] else Get(s, f)
    ensures obj.None? && permission.None? ==> r == s
  {
    var merged := match obj
      case Some(saved) => Merge(s, saved)
      case None => s;
    match permission
    case Some(p) => WithBrowser(merged, p == Granted)
    case None => merged
  }

  /** The settings with the browser flag set to `b`. */
  function WithBrowser(s: Settings, b: bool): (r: Settings)
    ensures forall f :: Get(r, f) == if f.Browser? then b else Get(s, f)
  {
    s.(browserNotification := b)
  }

  /** The settings after `loadSettings`, given what storage holds under the
      key and the browser's notification permission. */
  function Loaded(s: Settings, saved: Option<string>, permission: Option<Permission>): (r: Settings)
    ensures permission.Some? ==> r.browserNotification == (permission.value == Granted)
    ensures (saved.None? || saved == Some("")) && permission.None? ==> r == s
    ensures forall f: Flag | !(f.Browser? && permission.Some?) ::
      Get(r, f) ==
        if saved.Some? && saved.value != "" && ParseObject(saved.value).Some? &&
           Key(f) in ParseObject(saved.value).value
        then ParseObject(saved.value).value[Key(f)]
        else Get(s, f)
  {
    Restore(s, SavedObject(saved), permission)
  }

  /** Loading what a save wrote restores the saved settings, whatever the
      settings were before, except that the browser flag follows the
      permission when the browser reports one. */
  lemma LoadAfterSave(s: Settings, current: Settings, permission: Option<Permission>)
    ensures Loaded(current, Some(Stringify(s)), permission) ==
      if permission.Some? then s.(browserNotification := permission.value == Granted) else s
  {
    MergeStored(s, current);
    assert Stringify(s) != "";
  }

  /** Restoring the same object under the same permission twice is
      restoring it once. */
  lemma RestoreIdempotent(s: Settings, obj: Option<map<string, bool>>, permission: Option<Permission>)
    ensures Restore(Restore(s, obj, permission), obj, permission) == Restore(s, obj, permission)
  {
    match obj
    case None =>
    case Some(saved) =>
      match permission
      case None => MergeIdempotent(s, saved);
      case Some(p) => RestoreGrantedIdempotent(s, saved, p);
  }

  lemma RestoreGrantedIdempotent(s: Settings, saved: map<string, bool>, p: Permission)
    ensures Restore(Restore(s, Some(saved), Some(p)), Some(saved), Some(p)) ==
      Restore(s, Some(saved), Some(p))
  {
    var once := Merge(s, saved).(browserNotification := p == Granted);
    assert Merge(once, saved).(browserNotification := p == Granted) == once;
  }

  /** Loading twice from the same storage and permission is loading once. */
  lemma LoadIdempotent(s: Settings, saved: Option<string>, permission: Option<Permission>)
    ensures Loaded(Loaded(s, saved, permission), saved, permission) == Loaded(s, saved, permission)
  {
    RestoreIdempotent(s, SavedObject(saved), permission);
  }

  // ---------------------------------------------------------------------
  // The store.

  /** The browser's key/value storage. */
  class KeyValueStorage {
    var items: map<string, string>

    constructor ()
      ensures items == map[]
    {
      items := map[];
    }

    /** `getItem(key)`: the stored text, `None` for a missing key. */
    function Lookup(key: string): (r: Option<string>)
      reads this
      ensures r.Some? <==> key in items
      ensures r.Some? ==> r.value == items[key]
    {
      if key in items then Some(items[key]) else None
    }
  }

  /** Why a write to storage fails (storage full or disabled). */
  datatype StorageError = QuotaExceeded

  /** What `saveSettings` resolves to. */
  datatype SaveResult = SaveResult(success: bool, error: Option<StorageError>)

  class NotificationSettingsStore {
    var settings: Settings
    var isSaving: bool

    constructor ()
      ensures settings == Defaults() && !isSaving
    {
      settings := Defaults();
      isSaving := false;
    }

    /** Writing `allNotificationsEnabled`. */
    method SetAllNotificationsEnabled(v: bool)
      modifies this
      ensures settings == WithAllCategories(old(settings), v)
      ensures AllEnabled(settings) == v
      ensures isSaving == old(isSaving)
    {
      settings := settings.(attendanceEnabled := v);
      settings := settings.(payrollEnabled := v);
      settings := settings.(approvalEnabled := v);
      settings := settings.(leaveEnabled := v);
      settings := settings.(evaluationEnabled := v);
      settings := settings.(systemEnabled := v);
    }

    /** `loadSettings()`: merge the saved object, if any, then let the
        browser permission decide the browser flag. Storage is only read. */
    method LoadSettings(storage: KeyValueStorage, permission: Option<Permission>)
      modifies this
      ensures settings == Loaded(old(settings), storage.Lookup(StorageKey), permission)
      ensures isSaving == old(isSaving)
    {
      var saved := storage.Lookup(StorageKey);
      if saved.Some? && saved.value != "" {
        var parsed := ParseObject(saved.value);
        if parsed.Some? {
          settings := Merge(settings, parsed.value);
        }
        // a parse failure is logged and otherwise ignored
      }
      if permission.Some? {
        settings := settings.(browserNotification := permission.value == Granted);
      }
    }

    /** `saveSettings()`: write the settings as JSON under the storage key.
        `storageRefuses` is the browser refusing the write. */
    method SaveSettings(storage: KeyValueStorage, storageRefuses: bool) returns (result: SaveResult)
      modifies this, storage
      ensures settings == old(settings) && !isSaving
      ensures !storageRefuses ==>
        storage.items == old(storage.items)[StorageKey := Stringify(settings)] &&
        result == SaveResult(true, None)
      ensures storageRefuses ==>
        storage.items == old(storage.items) && result == SaveResult(false, Some(QuotaExceeded))
    {
      isSaving := true;
      if storageRefuses {
        result := SaveResult(false, Some(QuotaExceeded));
      } else {
        storage.items := storage.items[StorageKey := Stringify(settings)];
        result := SaveResult(true, None);
      }
      isSaving := false;
    }

    /** `resetSettings()`: every flag back on. */
    method ResetSettings()
      modifies this
      ensures settings == Defaults()
      ensures isSaving == old(isSaving)
    {
      settings := Defaults();
    }
  }

  /** A save followed by a load from the same storage brings back the
      saved settings (browser flag aside). The loading store may be the
      saving store itself or another one sharing the storage. */
  method SaveThenLoad(store: NotificationSettingsStore, other: NotificationSettingsStore,
                      storage: KeyValueStorage, permission: Option<Permission>)
    modifies store, other, storage
    ensures other.settings ==
      if permission.Some? then old(store.settings).(browserNotification := permission.value == Granted)
      else old(store.settings)
  {
    var saved := store.settings;
    var result := store.SaveSettings(storage, false);
    var before := other.settings;
    LoadAfterSave(saved, before, permission);
    assert storage.Lookup(StorageKey) == Some(Stringify(saved));
    other.LoadSettings(storage, permission);
  }
}
