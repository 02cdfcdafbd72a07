/**
 * The browser-side database layer: which backend the configuration selects, the
 * request each submission becomes on either backend, and how the SheetDB
 * backend reduces three collection reads to the published statistics.
 * Network calls are not made here: a submission is modelled by the request it
 * sends, a read by the outcome it produced.
 */
module Database {
  import opened Js
  import opened Text
  import opened Percent
  import opened Records

  /** The SheetDB endpoint used when the configuration names none. */
  const DefaultSheetDbUrl := "https://sheetdb.io/api/v1/kcsid6691qn5p"

  /**
   * The settings read from the global `CONFIG`; a property that is absent (or
   * whose enclosing object is absent) is `None`.
   */
  datatype Config = Config(databaseType: Option<string>, scriptUrl: Option<string>, sheetDbBaseUrl: Option<string>)

  /** The two clock readings a submission uses: `toISOString()` and `toLocaleString('bn-BD')`. */
  datatype Clock = Clock(iso: string, local: string)

  /** A backend object: `GoogleSheetsDB` keeps its script URL (possibly null), `SheetDB` its base URL. */
  datatype Backend = GoogleSheetsDb(scriptUrl: Option<string>) | SheetDb(baseUrl: string)

  /** What a call sends over the network. */
  datatype Request =
    | PostRows(url: string, rows: seq<Obj>)   // SheetDB: body `{data: rows}`
    | PostObject(url: string, body: Obj)      // Apps Script: the flat object as body
    | GetUrl(url: string)

  // ---------------------------------------------------------------------------
  // Backend selection

  /** `CONFIG.DATABASE_TYPE`, or `'sheetdb'` when there is no configuration or it is empty. */
  function DatabaseType(config: Option<Config>): (t: string)
    ensures config.Some? && config.value.databaseType.Some? && config.value.databaseType.value != ""
            ==> t == config.value.databaseType.value
    ensures config.None? || config.value.databaseType.None? || config.value.databaseType.value == ""
            ==> t == "sheetdb"
  {
    if config.Some? then OrText(config.value.databaseType, "sheetdb") else "sheetdb"
  }

  /** The configured script URL if it is a non-empty string, otherwise null. */
  function ScriptUrl(config: Option<Config>): (u: Option<string>)
    ensures u.Some? <==> config.Some? && config.value.scriptUrl.Some? && config.value.scriptUrl.value != ""
    ensures u.Some? ==> u == config.value.scriptUrl
  {
    if config.Some? && config.value.scriptUrl.Some? && config.value.scriptUrl.value != ""
    then config.value.scriptUrl else None
  }

  /** The configured SheetDB base URL if it is a non-empty string, otherwise the default. */
  function SheetDbBase(config: Option<Config>): (u: string)
    ensures config.Some? && config.value.sheetDbBaseUrl.Some? && config.value.sheetDbBaseUrl.value != ""
            ==> u == config.value.sheetDbBaseUrl.value
    ensures config.None? || config.value.sheetDbBaseUrl.None? || config.value.sheetDbBaseUrl.value == ""
            ==> u == DefaultSheetDbUrl
  {
    if config.Some? then OrText(config.value.sheetDbBaseUrl, DefaultSheetDbUrl) else DefaultSheetDbUrl
  }

  /** `baseUrl.replace(/\/+$/, '')`. */
  function TrimTrailingSlashes(s: string): (r: string)
    ensures r <= s
    ensures r == [] || r[|r| - 1] != '/'
    ensures forall i :: |r| <= i < |s| ==> s[i] == '/'
    decreases |s|
  {
    if s != [] && s[|s| - 1] == '/' then TrimTrailingSlashes(s[..|s| - 1]) else s
  }

  function Slashes(n: nat): (s: string)
    ensures |s| == n && forall i :: 0 <= i < n ==> s[i] == '/'
  {
    seq(n, _ => '/')
  }

  /** Trimming removes exactly the trailing run of slashes: a URL not ending in `/` comes back from any number of them. */
  lemma {:induction false} TrimRemovesSlashes(r: string, n: nat)
    requires r == [] || r[|r| - 1] != '/'
    ensures TrimTrailingSlashes(r + Slashes(n)) == r
  {
    if n > 0 {
      var s := r + Slashes(n);
      assert s[..|s| - 1] == r + Slashes(n - 1);
      TrimRemovesSlashes(r, n - 1);
    } else {
      assert r + Slashes(0) == r;
    }
  }

  /** The input is the trimmed URL followed by slashes only; trimming twice is trimming once. */
  lemma TrimDecomposes(s: string)
    ensures s == TrimTrailingSlashes(s) + Slashes(|s| - |TrimTrailingSlashes(s)|)
    ensures TrimTrailingSlashes(TrimTrailingSlashes(s)) == TrimTrailingSlashes(s)
  {
    var r := TrimTrailingSlashes(s);
    assert s == r + s[|r|..];
    assert s[|r|..] == Slashes(|s| - |r|);
    TrimRemovesSlashes(r, 0);
    assert r + Slashes(0) == r;
  }

  /** What `Database.init` assigns to `this.db` for a given type; `None` leaves it unset. */
  function SelectBackend(dbType: string, config: Option<Config>): (b: Option<Backend>)
    ensures b.Some? <==> dbType == "google_sheets" || dbType == "sheetdb"
    ensures dbType == "google_sheets" ==> b == Some(GoogleSheetsDb(ScriptUrl(config)))
    ensures dbType == "sheetdb" ==>
              && b.value.SheetDb?
              && b.value.baseUrl == TrimTrailingSlashes(SheetDbBase(config))
              && (b.value.baseUrl == [] || b.value.baseUrl[|b.value.baseUrl| - 1] != '/')
  {
    if dbType == "google_sheets" then Some(GoogleSheetsDb(ScriptUrl(config)))
    else if dbType == "sheetdb" then Some(SheetDb(TrimTrailingSlashes(SheetDbBase(config))))
    else None
  }

  /** Without a SheetDB base URL in the configuration the hard-coded endpoint is used as it is. */
  lemma DefaultEndpoint(config: Option<Config>)
    requires DatabaseType(config) == "sheetdb"
    requires config.None? || config.value.sheetDbBaseUrl.None?
    ensures SelectBackend(DatabaseType(config), config) == Some(SheetDb(DefaultSheetDbUrl))
  {
    TrimRemovesSlashes(DefaultSheetDbUrl, 0);
    assert DefaultSheetDbUrl + Slashes(0) == DefaultSheetDbUrl;
  }

  // ---------------------------------------------------------------------------
  // Submissions on the SheetDB backend

  /** `data[k] || d`. */
  function Field(data: Obj, k: string, d: Value): Value {
    Or(Get(data, k), d)
  }

  const ApplicationKeys := ["timestamp", "name", "phone", "address", "type", "amount", "details", "status"]
  const DonationKeys := ["timestamp", "name", "phone", "type", "amount", "method", "details"]
  const VolunteerKeys := ["timestamp", "name", "phone", "address", "occupation", "helpTypes", "hours", "extra", "status"]

  lemma RecordKeysDistinct()
    ensures Distinct(ApplicationKeys) && Distinct(DonationKeys) && Distinct(VolunteerKeys)
  {
  }

  /** The value each property of the application literal is given. */
  function ApplicationValue(data: Obj, ts: string, k: string): Value {
    if k == "timestamp" then Str(ts)
    else if k == "status" then Str("Pending")
    else Field(data, k, Str(""))
  }

  /** The one application row SheetDB is sent. */
  function ApplicationRecord(data: Obj, ts: string): (record: Obj)
    ensures Keys(record) == ApplicationKeys
  {
    RecordKeysDistinct();
    LiteralFacts(ApplicationKeys, k => ApplicationValue(data, ts, k));
    Literal(ApplicationKeys, k => ApplicationValue(data, ts, k))
  }

  /**
   * The application row has exactly the eight listed properties in order; its
   * timestamp is the client's, its status `'Pending'`, and every other field is
   * the submitted value or `''` when that is missing or empty.
   */
  lemma ApplicationRecordShape(data: Obj, ts: string, k: string)
    ensures Keys(ApplicationRecord(data, ts)) == ApplicationKeys && UniqueKeys(ApplicationRecord(data, ts))
    ensures Get(ApplicationRecord(data, ts), k) ==
              if k == "timestamp" then Some(Str(ts))
              else if k == "status" then Some(Str("Pending"))
              else if k in ApplicationKeys then Some(Field(data, k, Str("")))
              else None
  {
    RecordKeysDistinct();
    LiteralFacts(ApplicationKeys, k => ApplicationValue(data, ts, k));
  }

  function DonationValue(data: Obj, ts: string, k: string): Value {
    if k == "timestamp" then Str(ts)
    else if k == "name" then Field(data, k, Str("Anonymous"))
    else if k == "phone" || k == "details" then Field(data, k, Str("N/A"))
    else Field(data, k, Str(""))
  }

  /** The one donation row SheetDB is sent. */
  function DonationRecord(data: Obj, ts: string): (record: Obj)
    ensures Keys(record) == DonationKeys
  {
    RecordKeysDistinct();
    LiteralFacts(DonationKeys, k => DonationValue(data, ts, k));
    Literal(DonationKeys, k => DonationValue(data, ts, k))
  }

  /**
   * The donation row has exactly the seven listed properties in order and no
   * status; name falls back to `'Anonymous'`, phone and details to `'N/A'`,
   * type, amount and method to `''`.
   */
  lemma DonationRecordShape(data: Obj, ts: string, k: string)
    ensures Keys(DonationRecord(data, ts)) == DonationKeys && UniqueKeys(DonationRecord(data, ts))
    ensures Get(DonationRecord(data, ts), k) ==
              if k == "timestamp" then Some(Str(ts))
              else if k == "name" then Some(Field(data, k, Str("Anonymous")))
              else if k == "phone" || k == "details" then Some(Field(data, k, Str("N/A")))
              else if k in DonationKeys then Some(Field(data, k, Str("")))
              else None
  {
    RecordKeysDistinct();
    LiteralFacts(DonationKeys, k => DonationValue(data, ts, k));
  }

  /**
   * `Array.isArray(h) ? h.join(', ') : (h || '')`: always a string; an array is
   * joined (and can be read back when no tag holds a comma), any other truthy
   * value is kept, a falsy or missing one becomes `''`.
   */
  function HelpTypesText(h: Option<Value>): (r: Value)
    ensures r.Str?
    ensures h.Some? && h.value.Arr? ==> r == Str(Join(h.value.items, ", "))
    ensures h.Some? && h.value.Str? ==> r == h.value
    ensures h.None? ==> r == Str("")
  {
    match h
    case Some(Arr(xs)) => Str(Join(xs, ", "))
    case _ => Or(h, Str(""))
  }

  /** The joined text reads back as the tags when no tag holds a comma; an empty array gives `''`. */
  lemma HelpTypesRoundTrip(xs: seq<string>)
    requires forall i :: 0 <= i < |xs| ==> ',' !in xs[i]
    ensures xs == [] ==> HelpTypesText(Some(Arr(xs))) == Str("")
    ensures xs != [] ==> Tags(HelpTypesText(Some(Arr(xs))).s) == xs
  {
    if xs != [] {
      TagsJoin(xs);
    }
  }

  function VolunteerValue(data: Obj, ts: string, k: string): Value {
    if k == "timestamp" then Str(ts)
    else if k == "status" then Str("Pending")
    else if k == "helpTypes" then HelpTypesText(Get(data, k))
    else if k == "extra" then Field(data, k, Str("N/A"))
    else Field(data, k, Str(""))
  }

  /** The one volunteer row SheetDB is sent. */
  function VolunteerRecord(data: Obj, ts: string): (record: Obj)
    ensures Keys(record) == VolunteerKeys
  {
    RecordKeysDistinct();
    LiteralFacts(VolunteerKeys, k => VolunteerValue(data, ts, k));
    Literal(VolunteerKeys, k => VolunteerValue(data, ts, k))
  }

  /**
   * The volunteer row has exactly the nine listed properties in order; help
   * types are flattened to text, extra defaults to `'N/A'`, status is
   * `'Pending'` and the other fields default to `''`.
   */
  lemma VolunteerRecordShape(data: Obj, ts: string, k: string)
    ensures Keys(VolunteerRecord(data, ts)) == VolunteerKeys && UniqueKeys(VolunteerRecord(data, ts))
    ensures Get(VolunteerRecord(data, ts), k) ==
              if k == "timestamp" then Some(Str(ts))
              else if k == "status" then Some(Str("Pending"))
              else if k == "helpTypes" then Some(HelpTypesText(Get(data, k)))
              else if k == "extra" then Some(Field(data, k, Str("N/A")))
              else if k in VolunteerKeys then Some(Field(data, k, Str("")))
              else None
  {
    RecordKeysDistinct();
    LiteralFacts(VolunteerKeys, k => VolunteerValue(data, ts, k));
  }

  /** The SheetDB sheet (collection) each kind is posted to and read from. */
  function SheetDbSheet(kind: Kind): string {
    match kind
    case Application => "applications"
    case Donation => "donations"
    case Volunteer => "volunteers"
  }

  /** Each kind has its own SheetDB sheet. */
  lemma SheetDbSheetsDistinct(a: Kind, b: Kind)
    ensures SheetDbSheet(a) == SheetDbSheet(b) <==> a == b
  {
  }

  function SheetDbRecord(kind: Kind, data: Obj, ts: string): Obj {
    match kind
    case Application => ApplicationRecord(data, ts)
    case Donation => DonationRecord(data, ts)
    case Volunteer => VolunteerRecord(data, ts)
  }

  /** `${baseUrl}?sheet=<name>`. */
  function SheetUrl(baseUrl: string, sheet: string): string {
    baseUrl + "?sheet=" + sheet
  }

  /** A SheetDB submission posts exactly one row, stamped with the ISO time, to its kind's sheet. */
  function SheetDbSubmit(baseUrl: string, kind: Kind, data: Obj, clock: Clock): (req: Request)
    ensures req.PostRows? && |req.rows| == 1
    ensures req.url == baseUrl + "?sheet=" + SheetDbSheet(kind)
    ensures req.rows[0] == SheetDbRecord(kind, data, clock.iso)
  {
    PostRows(SheetUrl(baseUrl, SheetDbSheet(kind)), [SheetDbRecord(kind, data, clock.iso)])
  }

  // ---------------------------------------------------------------------------
  // Submissions on the Google Apps Script backend

  /** The `action` tag the script dispatches on. */
  function ActionTag(kind: Kind): string {
    match kind
    case Application => "submitApplication"
    case Donation => "submitDonation"
    case Volunteer => "submitVolunteer"
  }

  /** Each kind has its own action tag. */
  lemma ActionTagsDistinct(a: Kind, b: Kind)
    ensures ActionTag(a) == ActionTag(b) <==> a == b
  {
  }

  /** `{action: tag, ...data, timestamp: ts}`. */
  function ScriptBody(tag: string, data: Obj, ts: string): (body: Obj)
    ensures Get(body, "timestamp") == Some(Str(ts))
  {
    PutGet(Spread([("action", Str(tag))], data), "timestamp", Str(ts), "timestamp");
    Put(Spread([("action", Str(tag))], data), "timestamp", Str(ts))
  }

  /**
   * The body lists `action` first, then the data's own fields in their order,
   * then `timestamp` (unless the data already had one, which keeps its place).
   */
  lemma ScriptBodyKeys(tag: string, data: Obj, ts: string)
    requires UniqueKeys(data)
    ensures UniqueKeys(ScriptBody(tag, data, ts))
    ensures Keys(ScriptBody(tag, data, ts))
            == ["action"] + Novel(Keys(data), ["action"]) + (if "timestamp" in Keys(data) then [] else ["timestamp"])
  {
    var start: Obj := [("action", Str(tag))];
    assert Keys(start) == ["action"];
    SpreadKeys(start, data);
    var spread := Spread(start, data);
    PutKeys(spread, "timestamp", Str(ts));
    assert "timestamp" in Keys(spread) <==> "timestamp" in Keys(data);
  }

  /**
   * A data field named `action` replaces the tag; `timestamp` is always the
   * client's time; every other field is passed through unchanged.
   */
  lemma ScriptBodyValues(tag: string, data: Obj, ts: string, k: string)
    requires UniqueKeys(data)
    ensures Get(ScriptBody(tag, data, ts), k) ==
              if k == "timestamp" then Some(Str(ts))
              else if k == "action" && "action" !in Keys(data) then Some(Str(tag))
              else Get(data, k)
  {
    var start: Obj := [("action", Str(tag))];
    SpreadGet(start, data, k);
    PutGet(Spread(start, data), "timestamp", Str(ts), k);
  }

  /** `fetch(url)` with a null script URL requests the relative URL `'null'`. */
  function ScriptTarget(scriptUrl: Option<string>): string {
    if scriptUrl.Some? then scriptUrl.value else "null"
  }

  function ScriptSubmit(scriptUrl: Option<string>, kind: Kind, data: Obj, clock: Clock): (req: Request)
    ensures req.PostObject? && req.url == ScriptTarget(scriptUrl)
    ensures req.body == ScriptBody(ActionTag(kind), data, clock.local)
  {
    PostObject(ScriptTarget(scriptUrl), ScriptBody(ActionTag(kind), data, clock.local))
  }

  // ---------------------------------------------------------------------------
  // Statistics on the SheetDB backend

  /** A parsed response body: an array of rows, or some other JSON value. */
  datatype Body = NotArray | Rows(rows: seq<Obj>)

  /**
   * How one collection read ended: a non-ok response, an ok response and its
   * body, or a thrown error (a failed fetch or an unparseable body).
   */
  datatype Outcome = Failed | Ok(body: Body) | Threw(message: string)

  /** The count a read contributes: the array's length, 0 for a non-ok response or a non-array body. */
  function RowCount(o: Outcome): (n: nat)
    ensures n > 0 ==> o.Ok? && o.body.Rows? && n == |o.body.rows|
    ensures o.Ok? && o.body.Rows? ==> n == |o.body.rows|
  {
    if o.Ok? && o.body.Rows? then |o.body.rows| else 0
  }

  /** Donation rows as a percentage of application rows, `'0%'` without applications. */
  function SheetDbRate(applications: nat, donations: nat): (t: string)
    ensures applications == 0 ==> t == "0%"
    ensures applications > 0 ==>
              exists r: nat :: (&& t == RateText(r)
                                && 2 * applications * r <= 200 * donations + applications
                                && 200 * donations + applications < 2 * applications * r + 2 * applications)
  {
    if applications > 0 then RateText(RoundPercent(donations, applications)) else "0%"
  }

  const StatisticsFallbackMessage := "Failed to fetch statistics"

  /** The first thrown outcome among the three reads, in argument order. */
  function FirstThrown(a: Outcome, d: Outcome, v: Outcome): (m: string)
    requires a.Threw? || d.Threw? || v.Threw?
    ensures (a.Threw? && m == a.message) || (d.Threw? && m == d.message) || (v.Threw? && m == v.message)
  {
    if a.Threw? then a.message else if d.Threw? then d.message else v.message
  }

  /** `SheetDB.getStatistics` once the three reads have ended. */
  function SheetDbStatistics(apps: Outcome, dons: Outcome, vols: Outcome): (r: StatsReply)
    ensures r.StatsError? <==> apps.Threw? || dons.Threw? || vols.Threw?
    ensures r.StatsOk? ==> r.data == Stats(RowCount(apps), RowCount(dons), RowCount(vols),
                                           SheetDbRate(RowCount(apps), RowCount(dons)))
    ensures r.StatsError? ==>
              && r.message != ""
              && r.message == (if FirstThrown(apps, dons, vols) != "" then FirstThrown(apps, dons, vols)
                               else StatisticsFallbackMessage)
  {
    if apps.Threw? || dons.Threw? || vols.Threw? then
      var m := FirstThrown(apps, dons, vols);
      StatsError(if m != "" then m else StatisticsFallbackMessage)
    else
      var a, d, v := RowCount(apps), RowCount(dons), RowCount(vols);
      StatsOk(Stats(a, d, v, SheetDbRate(a, d)))
  }

  /**
   * A collection whose read failed or did not return an array counts as 0; the
   * other two counts are what they would have been, and the reply is still a success.
   */
  lemma FailedReadIsolated(apps: Outcome, dons: Outcome, vols: Outcome, broken: Outcome)
    requires !apps.Threw? && !dons.Threw? && !vols.Threw?
    requires broken == Failed || broken == Outcome.Ok(NotArray)
    ensures SheetDbStatistics(broken, dons, vols).StatsOk?
    ensures SheetDbStatistics(apps, broken, vols).StatsOk?
    ensures SheetDbStatistics(apps, dons, broken).StatsOk?
    ensures SheetDbStatistics(broken, dons, vols).data.totalApplications == 0
    ensures SheetDbStatistics(broken, dons, vols).data.successRate == "0%"
    ensures SheetDbStatistics(apps, broken, vols).data.totalDonations == 0
    ensures SheetDbStatistics(apps, dons, broken).data.totalVolunteers == 0
    ensures SheetDbStatistics(broken, dons, vols).data.totalDonations == SheetDbStatistics(apps, dons, vols).data.totalDonations
    ensures SheetDbStatistics(broken, dons, vols).data.totalVolunteers == SheetDbStatistics(apps, dons, vols).data.totalVolunteers
    ensures SheetDbStatistics(apps, broken, vols).data.totalApplications == SheetDbStatistics(apps, dons, vols).data.totalApplications
    ensures SheetDbStatistics(apps, broken, vols).data.totalVolunteers == SheetDbStatistics(apps, dons, vols).data.totalVolunteers
    ensures SheetDbStatistics(apps, dons, broken).data.totalApplications == SheetDbStatistics(apps, dons, vols).data.totalApplications
    ensures SheetDbStatistics(apps, dons, broken).data.totalDonations == SheetDbStatistics(apps, dons, vols).data.totalDonations
    ensures SheetDbStatistics(apps, dons, broken).data.successRate == SheetDbStatistics(apps, dons, vols).data.successRate
  {
  }

  /** An empty store gives all-zero statistics and `'0%'`. */
  lemma EmptyStoreStatistics()
    ensures SheetDbStatistics(Outcome.Ok(Rows([])), Outcome.Ok(Rows([])), Outcome.Ok(Rows([]))) == StatsOk(Stats(0, 0, 0, "0%"))
  {
  }

  /** The rate divides donation rows by application rows, so it exceeds 100% when donations outnumber applications. */
  lemma RateCanExceedHundred(apps: seq<Obj>, dons: seq<Obj>)
    requires |apps| == 1 && |dons| == 2
    ensures SheetDbStatistics(Outcome.Ok(Rows(apps)), Outcome.Ok(Rows(dons)), Failed).data.successRate == "200%"
  {
    assert RoundPercent(2, 1) == 200;
    assert DecimalText(200) == "200" by {
      assert DecimalText(2) == "2";
      assert DecimalText(20) == "20";
    }
  }

  // ---------------------------------------------------------------------------
  // The database object

  /** `Database`: picks its backend once, from the configuration, and forwards every call to it. */
  class Database {
    var dbType: string
    var db: Option<Backend>

    constructor (config: Option<Config>)
      ensures dbType == DatabaseType(config)
      ensures db == SelectBackend(dbType, config)
    {
      dbType := DatabaseType(config);
      db := None;
      new;
      Init(config);
    }

    /** `init()`: sets `db` for the two known types and leaves it as it was for any other. */
    method Init(config: Option<Config>)
      modifies this`db
      ensures db == if SelectBackend(dbType, config).Some? then SelectBackend(dbType, config) else old(db)
    {
      if dbType == "google_sheets" {
        db := Some(GoogleSheetsDb(ScriptUrl(config)));
      } else if dbType == "sheetdb" {
        db := Some(SheetDb(TrimTrailingSlashes(SheetDbBase(config))));
      }
    }

    /**
     * The request `submitApplication`, `submitDonation` or `submitVolunteer`
     * sends; `None` when no backend was selected (the call then rejects).
     */
    function Submit(kind: Kind, data: Obj, clock: Clock): (req: Option<Request>)
      reads this
      ensures req.Some? <==> db.Some?
      ensures db.Some? && db.value.SheetDb? ==> req == Some(SheetDbSubmit(db.value.baseUrl, kind, data, clock))
      ensures db.Some? && db.value.GoogleSheetsDb? ==> req == Some(ScriptSubmit(db.value.scriptUrl, kind, data, clock))
    {
      match db
      case None => None
      case Some(SheetDb(base)) => Some(SheetDbSubmit(base, kind, data, clock))
      case Some(GoogleSheetsDb(url)) => Some(ScriptSubmit(url, kind, data, clock))
    }

    /** The reads `getStatistics` issues: one script call, or one read per SheetDB sheet. */
    function StatisticsReads(): (reqs: Option<seq<Request>>)
      reads this
      ensures reqs.Some? <==> db.Some?
      ensures db.Some? && db.value.SheetDb? ==>
              reqs.value == [GetUrl(SheetUrl(db.value.baseUrl, "applications")),
                             GetUrl(SheetUrl(db.value.baseUrl, "donations")),
                             GetUrl(SheetUrl(db.value.baseUrl, "volunteers"))]
      ensures db.Some? && db.value.GoogleSheetsDb? ==> reqs.value == [GetUrl(ScriptTarget(db.value.scriptUrl) + "?action=getStats")]
    {
      match db
      case None => None
      case Some(SheetDb(base)) =>
        Some([GetUrl(SheetUrl(base, "applications")), GetUrl(SheetUrl(base, "donations")), GetUrl(SheetUrl(base, "volunteers"))])
      case Some(GoogleSheetsDb(url)) => Some([GetUrl(ScriptTarget(url) + "?action=getStats")])
    }
  }
}
