/** The settings table (backend/models/Setting.js): its rows, the fifteen
    default settings, and the seeding pass that runs after the table is
    synchronised, inserting each default whose key is not yet present. */
module Settings {
  import opened Common

  const SettingTypes: seq<string> := ["string", "number", "boolean", "json"]

  /** A default setting: key, value, type and description. */
  datatype Setting = Setting(key: string, value: string, settingType: string, description: string)

  /** A stored row: the auto-incremented id and the setting. */
  datatype Row = Row(id: nat, setting: Setting)

  /** The fifteen defaults, in the order the hook visits them, grouped
      by the service they configure. */
  const DefaultSettings: seq<Setting> := MetaDefaults + GoogleDefaults + EmailDefaults + TwilioDefaults + OtherDefaults

  const MetaDefaults: seq<Setting> := [
    Setting("meta_app_id", "", "string", "Meta App ID for API integration"),
    Setting("meta_app_secret", "", "string", "Meta App Secret for API integration"),
    Setting("meta_access_token", "", "string", "Meta Access Token for API calls")
  ]

  const GoogleDefaults: seq<Setting> := [
    Setting("google_client_id", "", "string", "Google Ads Client ID"),
    Setting("google_client_secret", "", "string", "Google Ads Client Secret"),
    Setting("google_refresh_token", "", "string", "Google Ads Refresh Token"),
    Setting("google_developer_token", "", "string", "Google Ads Developer Token")
  ]

  const EmailDefaults: seq<Setting> := [
    Setting("email_user", "", "string", "Email service username"),
    Setting("email_pass", "", "string", "Email service password")
  ]

  const TwilioDefaults: seq<Setting> := [
    Setting("twilio_sid", "", "string", "Twilio Account SID"),
    Setting("twilio_auth_token", "", "string", "Twilio Auth Token"),
    Setting("twilio_phone_number", "", "string", "Twilio Phone Number")
  ]

  const OtherDefaults: seq<Setting> := [
    Setting("notification_email", "admin@urbancruise.com", "string", "Admin notification email"),
    Setting("sync_interval", "60", "number", "Sync interval in minutes"),
    Setting("auto_sync_enabled", "true", "boolean", "Enable automatic lead synchronization")
  ]

  predicate DistinctKeys(ss: seq<Setting>) {
    forall i, j :: 0 <= i < j < |ss| ==> ss[i].key != ss[j].key
  }

  /** Every key of `ss` is non-empty and starts with one of `cs`. */
  predicate StartsIn(ss: seq<Setting>, cs: set<char>) {
    forall i :: 0 <= i < |ss| ==> |ss[i].key| > 0 && ss[i].key[0] in cs
  }

  predicate TypesValid(ss: seq<Setting>) {
    forall i :: 0 <= i < |ss| ==> ss[i].settingType in SettingTypes
  }

  /** Two lists with distinct keys whose keys start with different letters
      join into a list with distinct keys. */
  lemma DistinctJoin(a: seq<Setting>, ca: set<char>, b: seq<Setting>, cb: set<char>)
    requires DistinctKeys(a) && DistinctKeys(b) && StartsIn(a, ca) && StartsIn(b, cb) && ca !! cb
    ensures DistinctKeys(a + b) && StartsIn(a + b, ca + cb)
  {
    forall i, j | 0 <= i < j < |a + b| ensures (a + b)[i].key != (a + b)[j].key {
      if i < |a| && j >= |a| {
        assert (a + b)[i].key[0] in ca && (a + b)[j].key[0] in cb;
      }
    }
  }

  lemma TypesJoin(a: seq<Setting>, b: seq<Setting>)
    requires TypesValid(a) && TypesValid(b)
    ensures TypesValid(a + b)
  {
  }

  lemma MetaDefaultsWellFormed()
    ensures DistinctKeys(MetaDefaults) && StartsIn(MetaDefaults, {'m'}) && TypesValid(MetaDefaults)
  {
  }

  lemma GoogleDefaultsWellFormed()
    ensures DistinctKeys(GoogleDefaults) && StartsIn(GoogleDefaults, {'g'}) && TypesValid(GoogleDefaults)
  {
  }

  lemma EmailDefaultsWellFormed()
    ensures DistinctKeys(EmailDefaults) && StartsIn(EmailDefaults, {'e'}) && TypesValid(EmailDefaults)
  {
  }

  lemma TwilioDefaultsWellFormed()
    ensures DistinctKeys(TwilioDefaults) && StartsIn(TwilioDefaults, {'t'}) && TypesValid(TwilioDefaults)
  {
  }

  lemma OtherDefaultsWellFormed()
    ensures DistinctKeys(OtherDefaults) && StartsIn(OtherDefaults, {'n', 's', 'a'}) && TypesValid(OtherDefaults)
  {
  }

  /** The defaults respect the column constraints: fifteen of them, each
      key given once, each type one of the enum's values. */
  lemma DefaultsWellFormed()
    ensures |DefaultSettings| == 15
    ensures DistinctKeys(DefaultSettings)
    ensures TypesValid(DefaultSettings)
  {
    MetaDefaultsWellFormed();
    GoogleDefaultsWellFormed();
    EmailDefaultsWellFormed();
    TwilioDefaultsWellFormed();
    OtherDefaultsWellFormed();
    var a := MetaDefaults + GoogleDefaults;
    var b := a + EmailDefaults;
    var c := b + TwilioDefaults;
    DistinctJoin(MetaDefaults, {'m'}, GoogleDefaults, {'g'});
    DistinctJoin(a, {'m', 'g'}, EmailDefaults, {'e'});
    DistinctJoin(b, {'m', 'g', 'e'}, TwilioDefaults, {'t'});
    DistinctJoin(c, {'m', 'g', 'e', 't'}, OtherDefaults, {'n', 's', 'a'});
    TypesJoin(MetaDefaults, GoogleDefaults);
    TypesJoin(a, EmailDefaults);
    TypesJoin(b, TwilioDefaults);
    TypesJoin(c, OtherDefaults);
  }

  // ---------------------------------------------------------------------
  // The table as a value

  /** The table's rows and the next auto-increment id. */
  datatype Table = Table(rows: seq<Row>, nextId: nat)

  predicate HasKey(rows: seq<Row>, key: string) {
    exists i :: 0 <= i < |rows| && rows[i].setting.key == key
  }

  /** `setting_key` is unique and every id is below the counter. */
  predicate WellFormed(t: Table) {
    && (forall i, j :: 0 <= i < j < |t.rows| ==> t.rows[i].setting.key != t.rows[j].setting.key)
    && (forall i :: 0 <= i < |t.rows| ==> t.rows[i].id < t.nextId)
  }

  /** `findOrCreate({ where: { setting_key }, defaults })`: the table is
      unchanged when a row has the key, otherwise the default is inserted
      under the next id. */
  function FindOrCreate(t: Table, s: Setting): (r: Table)
    ensures HasKey(t.rows, s.key) ==> r == t
    ensures !HasKey(t.rows, s.key) ==> r == Table(t.rows + [Row(t.nextId, s)], t.nextId + 1)
  {
    if HasKey(t.rows, s.key) then t else Table(t.rows + [Row(t.nextId, s)], t.nextId + 1)
  }

  /** The seeding pass over `ss` in order. `failAt` is the position of the
      first `findOrCreate` the database rejects, if any: the error ends the
      pass and is only logged. */
  function SeedFrom(t: Table, ss: seq<Setting>, failAt: Option<nat>): Table
    decreases |ss|
  {
    if ss == [] || failAt == Some(0) then t
    else SeedFrom(FindOrCreate(t, ss[0]), ss[1..], match failAt case Some(k) => Some(k - 1) case None => None)
  }

  lemma {:induction false} SeedFromSnoc(t: Table, ss: seq<Setting>, s: Setting, failAt: Option<nat>)
    requires failAt.None? || failAt.value > |ss|
    ensures SeedFrom(t, ss + [s], failAt) == FindOrCreate(SeedFrom(t, ss, failAt), s)
    decreases |ss|
  {
    if ss == [] {
      assert ([] + [s])[1..] == [];
    } else {
      assert (ss + [s])[1..] == ss[1..] + [s];
      SeedFromSnoc(FindOrCreate(t, ss[0]), ss[1..], s, match failAt case Some(k) => Some(k - 1) case None => None);
    }
  }

  /** A `findOrCreate` keeps the table well formed, leaves every existing
      row as it was, and afterwards the key is present. */
  lemma FindOrCreateSpec(t: Table, s: Setting)
    requires WellFormed(t)
    ensures var r := FindOrCreate(t, s);
      && WellFormed(r)
      && |t.rows| <= |r.rows| && r.rows[..|t.rows|] == t.rows
      && |r.rows| <= |t.rows| + 1
      && HasKey(r.rows, s.key)
      && (forall k :: HasKey(t.rows, k) ==> HasKey(r.rows, k))
  {
    var r := FindOrCreate(t, s);
    if !HasKey(t.rows, s.key) {
      assert r.rows[|t.rows|].setting.key == s.key;
      forall k | HasKey(t.rows, k) ensures HasKey(r.rows, k) {
        var i :| 0 <= i < |t.rows| && t.rows[i].setting.key == k;
        assert r.rows[i] == t.rows[i];
      }
    }
  }

  /** Seeding keeps the keys unique, never alters or removes a row that was
      there, adds one row per missing default at most, and (without a
      failure) leaves every default key present. */
  lemma {:induction false} SeedSpec(t: Table, ss: seq<Setting>, failAt: Option<nat>)
    requires WellFormed(t)
    ensures var r := SeedFrom(t, ss, failAt);
      && WellFormed(r)
      && |t.rows| <= |r.rows| <= |t.rows| + |ss|
      && r.rows[..|t.rows|] == t.rows
      && (forall k :: HasKey(t.rows, k) ==> HasKey(r.rows, k))
      && (failAt.None? ==> forall i :: 0 <= i < |ss| ==> HasKey(r.rows, ss[i].key))
    decreases |ss|
  {
    if ss == [] || failAt == Some(0) {
    } else {
      var t1 := FindOrCreate(t, ss[0]);
      var next := match failAt case Some(k) => Some(k - 1) case None => None;
      FindOrCreateSpec(t, ss[0]);
      SeedSpec(t1, ss[1..], next);
      var r := SeedFrom(t1, ss[1..], next);
      assert r.rows[..|t.rows|] == r.rows[..|t1.rows|][..|t.rows|];
      if failAt.None? {
        forall i | 0 <= i < |ss| ensures HasKey(r.rows, ss[i].key) {
          if i > 0 {
            assert ss[i] == ss[1..][i - 1];
          }
        }
      }
    }
  }

  /** Every default present means the pass changes nothing. */
  lemma {:induction false} SeedPresent(t: Table, ss: seq<Setting>, failAt: Option<nat>)
    requires forall i :: 0 <= i < |ss| ==> HasKey(t.rows, ss[i].key)
    ensures SeedFrom(t, ss, failAt) == t
    decreases |ss|
  {
    if ss == [] || failAt == Some(0) {
    } else {
      assert FindOrCreate(t, ss[0]) == t;
      forall i | 0 <= i < |ss[1..]| ensures HasKey(t.rows, ss[1..][i].key) {
        assert ss[1..][i] == ss[i + 1];
      }
      SeedPresent(t, ss[1..], match failAt case Some(k) => Some(k - 1) case None => None);
    }
  }

  /** Seeding is idempotent: a second complete pass (every server start
      runs one) finds every default and inserts nothing. */
  lemma SeedIdempotent(t: Table, ss: seq<Setting>)
    requires WellFormed(t)
    ensures SeedFrom(SeedFrom(t, ss, None), ss, None) == SeedFrom(t, ss, None)
  {
    SeedSpec(t, ss, None);
    SeedPresent(SeedFrom(t, ss, None), ss, None);
  }

  /** On an empty table a complete pass stores the fifteen defaults in
      order, with ids counting up from the counter. */
  lemma {:induction false} SeedEmpty(ss: seq<Setting>, n: nat, rows: seq<Row>)
    requires DistinctKeys(ss)
    requires forall i :: 0 <= i < |rows| ==> forall j :: 0 <= j < |ss| ==> rows[i].setting.key != ss[j].key
    ensures SeedFrom(Table(rows, n), ss, None)
         == Table(rows + seq(|ss|, i requires 0 <= i < |ss| => Row(n + i, ss[i])), n + |ss|)
    decreases |ss|
  {
    var added := seq(|ss|, i requires 0 <= i < |ss| => Row(n + i, ss[i]));
    if ss != [] {
      assert !HasKey(rows, ss[0].key);
      var rows1 := rows + [Row(n, ss[0])];
      assert FindOrCreate(Table(rows, n), ss[0]) == Table(rows1, n + 1);
      assert DistinctKeys(ss[1..]) by {
        forall i, j | 0 <= i < j < |ss[1..]| ensures ss[1..][i].key != ss[1..][j].key {
          assert ss[1..][i] == ss[i + 1] && ss[1..][j] == ss[j + 1];
        }
      }
      forall i | 0 <= i < |rows1| ensures forall j :: 0 <= j < |ss[1..]| ==> rows1[i].setting.key != ss[1..][j].key {
        forall j | 0 <= j < |ss[1..]| ensures rows1[i].setting.key != ss[1..][j].key {
          assert ss[1..][j] == ss[j + 1];
        }
      }
      SeedEmpty(ss[1..], n + 1, rows1);
      var rest := seq(|ss[1..]|, i requires 0 <= i < |ss[1..]| => Row(n + 1 + i, ss[1..][i]));
      assert rows1 + rest == rows + added by {
        assert added == [Row(n, ss[0])] + rest;
      }
    }
  }

  /** The first start, on an empty table, stores the fifteen defaults in
      their listed order under ids 1 to 15. */
  lemma FirstStartSeedsAll()
    ensures var t := SeedFrom(Table([], 1), DefaultSettings, None);
      && |t.rows| == 15 && t.nextId == 16
      && forall i :: 0 <= i < 15 ==> t.rows[i] == Row(i + 1, DefaultSettings[i])
  {
    DefaultsWellFormed();
    SeedEmpty(DefaultSettings, 1, []);
  }

  // ---------------------------------------------------------------------
  // The table object

  class SettingsTable {
    var rows: seq<Row>
    var nextId: nat

    ghost function State(): Table
      reads this
    {
      Table(rows, nextId)
    }

    ghost predicate Valid()
      reads this
    {
      WellFormed(State())
    }

    constructor ()
      ensures Valid() && rows == [] && nextId == 1
    {
      rows := [];
      nextId := 1;
    }

    /** `Setting.findOrCreate`; `fails` stands for the database rejecting
        the call, which then changes nothing. */
    method FindOrCreateRow(s: Setting, fails: bool) returns (ok: bool)
      requires Valid()
      modifies this
      ensures Valid()
      ensures ok == !fails
      ensures State() == if fails then old(State()) else FindOrCreate(old(State()), s)
    {
      if fails {
        return false;
      }
      FindOrCreateSpec(State(), s);
      var found := false;
      var i := 0;
      while i < |rows|
        invariant 0 <= i <= |rows|
        invariant found <==> exists j :: 0 <= j < i && rows[j].setting.key == s.key
      {
        if rows[i].setting.key == s.key {
          found := true;
        }
        i := i + 1;
      }
      if !found {
        rows := rows + [Row(nextId, s)];
        nextId := nextId + 1;
      }
      ok := true;
    }

    /** The `afterSync` hook over `ss`: each setting inserted in turn
        until the first database error, which ends the pass and is
        swallowed. */
    method Seed(ss: seq<Setting>, failAt: Option<nat>)
      requires Valid()
      modifies this
      ensures Valid()
      ensures State() == SeedFrom(old(State()), ss, failAt)
    {
      var i := 0;
      while i < |ss|
        invariant 0 <= i <= |ss|
        invariant Valid()
        invariant failAt.None? || failAt.value >= i
        invariant State() == SeedFrom(old(State()), ss[..i], failAt)
      {
        var ok := FindOrCreateRow(ss[i], failAt == Some(i));
        if !ok {
          SeedStops(old(State()), ss, i, failAt.value);
          return;
        }
        assert ss[..i + 1] == ss[..i] + [ss[i]];
        SeedFromSnoc(old(State()), ss[..i], ss[i], failAt);
        i := i + 1;
      }
      assert ss[..i] == ss;
    }

    /** The hook as the model registers it, over the default settings. */
    method SeedDefaults(failAt: Option<nat>)
      requires Valid()
      modifies this
      ensures Valid()
      ensures State() == SeedFrom(old(State()), DefaultSettings, failAt)
    {
      Seed(DefaultSettings, failAt);
    }
  }

  /** A failure at position `k` leaves the table as the first `k` steps
      made it. */
  lemma {:induction false} SeedStops(t: Table, ss: seq<Setting>, k: nat, fk: nat)
    requires k < |ss| && fk == k
    ensures SeedFrom(t, ss, Some(fk)) == SeedFrom(t, ss[..k], Some(fk))
    decreases k
  {
    if k == 0 {
    } else {
      assert ss[..k][1..] == ss[1..][..k - 1];
      SeedStops(FindOrCreate(t, ss[0]), ss[1..], k - 1, fk - 1);
    }
  }
}
