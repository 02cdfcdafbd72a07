/**
 * The Google Apps Script endpoint: `doPost` appends one row to the sheet its
 * action names, `doGet` answers the statistics query. The spreadsheet service
 * is modelled by sheets holding rows of cell text, row 0 being the header.
 */
module App {
  import opened Js
  import opened Text
  import opened Percent
  import opened Records

  /** One sheet (tab) of the spreadsheet. */
  class Sheet {
    const name: string
    var rows: seq<seq<string>>

    constructor (name: string, header: seq<string>)
      ensures this.name == name && rows == [header]
    {
      this.name := name;
      rows := [header];
    }

    /** `getLastRow()`: the number of rows, header included. */
    function LastRow(): (n: nat)
      reads this
      ensures n == |rows|
    {
      |rows|
    }

    /** `appendRow(row)`: the row goes after the last one; no other row changes. */
    method AppendRow(row: seq<string>)
      modifies this
      ensures rows == old(rows) + [row]
    {
      rows := rows + [row];
    }
  }

  /** The spreadsheet with its three collections. */
  class Spreadsheet {
    const applications: Sheet
    const donations: Sheet
    const volunteers: Sheet

    /** Three distinct sheets under their names, each with at least its header row. */
    ghost predicate Valid()
      reads applications, donations, volunteers
    {
      && applications != donations && donations != volunteers && applications != volunteers
      && applications.name == "Applications"
      && donations.name == "Donations"
      && volunteers.name == "Volunteers"
      && |applications.rows| >= 1 && |donations.rows| >= 1 && |volunteers.rows| >= 1
    }

    /** The spreadsheet the script opens: three distinct sheets, each named and holding its header. */
    constructor (applications: Sheet, donations: Sheet, volunteers: Sheet)
      requires applications != donations && donations != volunteers && applications != volunteers
      requires applications.name == "Applications" && donations.name == "Donations" && volunteers.name == "Volunteers"
      requires |applications.rows| >= 1 && |donations.rows| >= 1 && |volunteers.rows| >= 1
      ensures this.applications == applications && this.donations == donations && this.volunteers == volunteers
      ensures Valid()
    {
      this.applications := applications;
      this.donations := donations;
      this.volunteers := volunteers;
    }

    /** `getSheetByName(name)`: the sheet with that name, or null. */
    function SheetByName(name: string): (s: Sheet?)
      ensures s != null ==> s.name == name
      ensures s == null <==> name !in {applications.name, donations.name, volunteers.name}
    {
      if name == applications.name then applications
      else if name == donations.name then donations
      else if name == volunteers.name then volunteers
      else null
    }

    function SheetFor(kind: Kind): Sheet {
      match kind
      case Application => applications
      case Donation => donations
      case Volunteer => volunteers
    }
  }

  /** The sheet each kind of record is appended to. */
  function SheetName(kind: Kind): string {
    match kind
    case Application => "Applications"
    case Donation => "Donations"
    case Volunteer => "Volunteers"
  }

  /** Looking up a kind's sheet name in a valid spreadsheet finds that kind's sheet. */
  lemma SheetNameFindsSheet(ss: Spreadsheet, kind: Kind)
    requires ss.Valid()
    ensures ss.SheetByName(SheetName(kind)) == ss.SheetFor(kind)
    ensures ss.SheetFor(kind).name == SheetName(kind)
  {
  }

  /** Each kind has its own sheet name. */
  lemma SheetNamesDistinct(a: Kind, b: Kind)
    ensures SheetName(a) == SheetName(b) <==> a == b
  {
  }

  // ---------------------------------------------------------------------------
  // Row layouts

  /** The text a value becomes in a cell: undefined is a blank cell, an array its comma-joined text. */
  function Cell(v: Option<Value>): (c: string)
    ensures v.None? ==> c == ""
    ensures v.Some? && v.value.Str? ==> c == v.value.s
  {
    match v
    case None => ""
    case Some(Str(s)) => s
    case Some(Arr(xs)) => Join(xs, ",")
  }

  /** `data[k] || d` written to a cell. */
  function Filled(data: Obj, k: string, d: string): (c: string)
    ensures Get(data, k).Some? && Truthy(Get(data, k).value) ==> c == Cell(Get(data, k))
    ensures Get(data, k).None? || !Truthy(Get(data, k).value) ==> c == d
  {
    Cell(Some(Or(Get(data, k), Str(d))))
  }

  const ApplicationFields := ["name", "phone", "address", "type", "amount", "details"]
  const DonationFields := ["name", "phone", "type", "amount", "method", "details"]
  const VolunteerFields := ["name", "phone", "address", "occupation", "helpTypes", "hours", "extra"]

  /** `addApplication`'s row: time, the six submitted fields as given, `'Pending'`. */
  function ApplicationRow(data: Obj, now: string): (row: seq<string>)
    ensures |row| == 8 && row[0] == now && row[7] == "Pending"
    ensures forall i :: 1 <= i < 7 ==> row[i] == Cell(Get(data, ApplicationFields[i - 1]))
  {
    [now, Cell(Get(data, "name")), Cell(Get(data, "phone")), Cell(Get(data, "address")),
     Cell(Get(data, "type")), Cell(Get(data, "amount")), Cell(Get(data, "details")), "Pending"]
  }

  /**
   * `addDonation`'s row: time, name or `'Anonymous'`, phone or `'N/A'`, type,
   * amount in column 5, method, details or `'N/A'`.
   */
  function DonationRow(data: Obj, now: string): (row: seq<string>)
    ensures |row| == 7 && row[0] == now
    ensures row[1] == Filled(data, "name", "Anonymous")
    ensures row[2] == Filled(data, "phone", "N/A")
    ensures row[4] == Cell(Get(data, "amount"))
    ensures row[6] == Filled(data, "details", "N/A")
    ensures row[3] == Cell(Get(data, "type")) && row[5] == Cell(Get(data, "method"))
  {
    [now, Filled(data, "name", "Anonymous"), Filled(data, "phone", "N/A"), Cell(Get(data, "type")),
     Cell(Get(data, "amount")), Cell(Get(data, "method")), Filled(data, "details", "N/A")]
  }

  /** `addVolunteer`'s row: time, six fields as given, extra or `'N/A'`, `'Pending'`. */
  function VolunteerRow(data: Obj, now: string): (row: seq<string>)
    ensures |row| == 9 && row[0] == now && row[8] == "Pending"
    ensures row[7] == Filled(data, "extra", "N/A")
    ensures forall i :: 1 <= i < 7 ==> row[i] == Cell(Get(data, VolunteerFields[i - 1]))
  {
    [now, Cell(Get(data, "name")), Cell(Get(data, "phone")), Cell(Get(data, "address")),
     Cell(Get(data, "occupation")), Cell(Get(data, "helpTypes")), Cell(Get(data, "hours")),
     Filled(data, "extra", "N/A"), "Pending"]
  }

  function RowFor(kind: Kind, data: Obj, now: string): seq<string> {
    match kind
    case Application => ApplicationRow(data, now)
    case Donation => DonationRow(data, now)
    case Volunteer => VolunteerRow(data, now)
  }

  function Confirmation(kind: Kind): string {
    match kind
    case Application => "Application submitted"
    case Donation => "Donation recorded"
    case Volunteer => "Volunteer application submitted"
  }

  /** Each kind has its own confirmation text, so a reply tells which sheet was written. */
  lemma ConfirmationsDistinct(a: Kind, b: Kind)
    ensures Confirmation(a) == Confirmation(b) <==> a == b
  {
  }

  // ---------------------------------------------------------------------------
  // Appending

  method AddApplication(sheet: Sheet, data: Obj, now: string) returns (reply: Reply)
    modifies sheet
    ensures sheet.rows == old(sheet.rows) + [ApplicationRow(data, now)]
    ensures |sheet.rows| == |old(sheet.rows)| + 1 && sheet.rows[..|old(sheet.rows)|] == old(sheet.rows)
    ensures reply == Success("Application submitted")
  {
    sheet.AppendRow(ApplicationRow(data, now));
    reply := Success("Application submitted");
  }

  method AddDonation(sheet: Sheet, data: Obj, now: string) returns (reply: Reply)
    modifies sheet
    ensures sheet.rows == old(sheet.rows) + [DonationRow(data, now)]
    ensures |sheet.rows| == |old(sheet.rows)| + 1 && sheet.rows[..|old(sheet.rows)|] == old(sheet.rows)
    ensures reply == Success("Donation recorded")
  {
    sheet.AppendRow(DonationRow(data, now));
    reply := Success("Donation recorded");
  }

  method AddVolunteer(sheet: Sheet, data: Obj, now: string) returns (reply: Reply)
    modifies sheet
    ensures sheet.rows == old(sheet.rows) + [VolunteerRow(data, now)]
    ensures |sheet.rows| == |old(sheet.rows)| + 1 && sheet.rows[..|old(sheet.rows)|] == old(sheet.rows)
    ensures reply == Success("Volunteer application submitted")
  {
    sheet.AppendRow(VolunteerRow(data, now));
    reply := Success("Volunteer application submitted");
  }

  // ---------------------------------------------------------------------------
  // Dispatch

  /** The `switch (action)` of `doPost`: strict equality with the three tags. */
  function Route(action: Option<Value>): (k: Option<Kind>)
    ensures k == Some(Application) <==> action == Some(Str("submitApplication"))
    ensures k == Some(Donation) <==> action == Some(Str("submitDonation"))
    ensures k == Some(Volunteer) <==> action == Some(Str("submitVolunteer"))
  {
    if action == Some(Str("submitApplication")) then Some(Application)
    else if action == Some(Str("submitDonation")) then Some(Donation)
    else if action == Some(Str("submitVolunteer")) then Some(Volunteer)
    else None
  }

  /**
   * `doPost(e)` given what `JSON.parse(e.postData.contents)` did. A parse
   * failure becomes an error reply; an unknown action an `'Invalid action'`
   * reply; a known one appends exactly one row to its sheet and no other.
   */
  method DoPost(ss: Spreadsheet, body: Result<Obj>, now: string) returns (reply: Reply)
    requires ss.Valid()
    modifies ss.applications, ss.donations, ss.volunteers
    ensures ss.Valid()
    ensures body.Raised? ==> reply == Error(body.message)
    ensures body.Returned? && Route(Get(body.value, "action")).None? ==> reply == Error("Invalid action")
    ensures body.Raised? || Route(Get(body.value, "action")).None? ==>
              && ss.applications.rows == old(ss.applications.rows)
              && ss.donations.rows == old(ss.donations.rows)
              && ss.volunteers.rows == old(ss.volunteers.rows)
    ensures body.Returned? && Route(Get(body.value, "action")).Some? ==>
              var kind := Route(Get(body.value, "action")).value;
              && reply == Success(Confirmation(kind))
              && ss.SheetFor(kind).name == SheetName(kind)
              && ss.SheetFor(kind).rows == old(ss.SheetFor(kind).rows) + [RowFor(kind, body.value, now)]
              && (forall s :: s in {ss.applications, ss.donations, ss.volunteers} && s != ss.SheetFor(kind)
                    ==> s.rows == old(s.rows))
  {
    if body.Raised? {
      reply := Error(body.message);
      return;
    }
    var data := body.value;
    var route := Route(Get(data, "action"));
    match route {
      case Some(Application) =>
        var sheet := ss.SheetByName("Applications");
        reply := AddApplication(sheet, data, now);
      case Some(Donation) =>
        var sheet := ss.SheetByName("Donations");
        reply := AddDonation(sheet, data, now);
      case Some(Volunteer) =>
        var sheet := ss.SheetByName("Volunteers");
        reply := AddVolunteer(sheet, data, now);
      case None =>
        reply := Error("Invalid action");
    }
  }

  // ---------------------------------------------------------------------------
  // Statistics

  /** What `parseFloat(x) || 0` adds for one cell: the parsed number, or 0. */
  function Contribution(cell: string, parse: string -> Option<int>): (n: int)
    ensures parse(cell).None? ==> n == 0
    ensures parse(cell).Some? ==> n == parse(cell).value
  {
    match parse(cell)
    case Some(v) => v
    case None => 0
  }

  /** Column 5 of a row; a row that stops earlier has a blank cell there. */
  function AmountCell(row: seq<string>): (c: string)
    ensures |row| >= 5 ==> c == row[4]
    ensures |row| < 5 ==> c == ""
  {
    if |row| >= 5 then row[4] else ""
  }

  /** `getRange(2, 5, getLastRow() - 1, 1).getValues()`: column 5 below the header. */
  function AmountColumn(rows: seq<seq<string>>): (cells: seq<string>)
    requires |rows| >= 1
    ensures |cells| == |rows| - 1
    ensures forall i :: 0 <= i < |cells| ==> cells[i] == AmountCell(rows[i + 1])
  {
    seq(|rows| - 1, i requires 0 <= i < |rows| - 1 => AmountCell(rows[i + 1]))
  }

  /** The sum of the cells' contributions. */
  function Sum(cells: seq<string>, parse: string -> Option<int>): int {
    if cells == [] then 0 else Sum(cells[..|cells| - 1], parse) + Contribution(cells[|cells| - 1], parse)
  }

  /** Cells that do not parse add nothing: a column of them sums to 0. */
  lemma {:induction false} SumUnparseable(cells: seq<string>, parse: string -> Option<int>)
    requires forall i :: 0 <= i < |cells| ==> parse(cells[i]).None?
    ensures Sum(cells, parse) == 0
  {
    if cells != [] {
      var init := cells[..|cells| - 1];
      assert forall i :: 0 <= i < |init| ==> init[i] == cells[i];
      SumUnparseable(init, parse);
    }
  }

  /** With no negative amount among the parsed cells, the donation total is never negative. */
  lemma {:induction false} SumNonNegative(cells: seq<string>, parse: string -> Option<int>)
    requires forall i :: 0 <= i < |cells| ==> parse(cells[i]).None? || parse(cells[i]).value >= 0
    ensures Sum(cells, parse) >= 0
  {
    if cells != [] {
      var init := cells[..|cells| - 1];
      assert forall i :: 0 <= i < |init| ==> init[i] == cells[i];
      SumNonNegative(init, parse);
    }
  }

  /** `Math.round(n / (n + 10) * 100)`: within one half of `100 n / (n + 10)`. */
  function DecayRate(n: nat): (r: nat)
    ensures 2 * (n + 10) * r <= 200 * n + (n + 10) < 2 * (n + 10) * r + 2 * (n + 10)
  {
    RoundPercent(n, n + 10)
  }

  /** What `getStatistics` reports for the given sheet contents. */
  function Statistics(apps: seq<seq<string>>, dons: seq<seq<string>>, vols: seq<seq<string>>,
                      parse: string -> Option<int>): (s: Stats)
    requires |apps| >= 1 && |dons| >= 1 && |vols| >= 1
    ensures s.totalApplications == |apps| - 1 && s.totalVolunteers == |vols| - 1
    ensures s.totalDonations == Sum(AmountColumn(dons), parse)
    ensures s.successRate == RateText(DecayRate(|apps| - 1))
  {
    Stats(|apps| - 1, Sum(AmountColumn(dons), parse), |vols| - 1, RateText(DecayRate(|apps| - 1)))
  }

  /** The `forEach` of `getStatistics`: adds up every cell's contribution. */
  method SumAmounts(donationData: seq<string>, parse: string -> Option<int>) returns (totalDonations: int)
    ensures totalDonations == Sum(donationData, parse)
  {
    totalDonations := 0;
    var i := 0;
    while i < |donationData|
      invariant 0 <= i <= |donationData|
      invariant totalDonations == Sum(donationData[..i], parse)
    {
      assert donationData[..i + 1][..i] == donationData[..i];
      assert Sum(donationData[..i + 1], parse)
             == Sum(donationData[..i], parse) + Contribution(donationData[i], parse);
      totalDonations := totalDonations + Contribution(donationData[i], parse);
      i := i + 1;
    }
    assert donationData[..i] == donationData;
  }

  /** `getStatistics()`: header-exclusive counts, the column-5 sum, and the decay-curve rate. */
  method GetStatistics(ss: Spreadsheet, parse: string -> Option<int>) returns (stats: Stats)
    requires ss.Valid()
    ensures stats == Statistics(ss.applications.rows, ss.donations.rows, ss.volunteers.rows, parse)
  {
    var totalApplications := ss.applications.LastRow() - 1;
    var totalVolunteers := ss.volunteers.LastRow() - 1;
    var totalDonations := SumAmounts(AmountColumn(ss.donations.rows), parse);
    var successRate := DecayRate(totalApplications);
    stats := Stats(totalApplications, totalDonations, totalVolunteers, RateText(successRate));
  }

  /** `doGet(e)`: statistics for action `getStats`, `'Invalid action'` otherwise. */
  method DoGet(ss: Spreadsheet, action: Option<string>, parse: string -> Option<int>) returns (reply: StatsReply)
    requires ss.Valid()
    ensures reply.StatsOk? <==> action == Some("getStats")
    ensures reply.StatsOk? ==> reply.data == Statistics(ss.applications.rows, ss.donations.rows, ss.volunteers.rows, parse)
    ensures reply.StatsError? ==> reply.message == "Invalid action"
  {
    if action == Some("getStats") {
      var stats := GetStatistics(ss, parse);
      return StatsOk(stats);
    }
    return StatsError("Invalid action");
  }

  // ---------------------------------------------------------------------------
  // Properties of the statistics

  /** A donation row adds exactly its parsed amount (0 when unparseable) to the donation total. */
  lemma DonationAddsAmount(dons: seq<seq<string>>, data: Obj, now: string, parse: string -> Option<int>)
    requires |dons| >= 1
    ensures Sum(AmountColumn(dons + [DonationRow(data, now)]), parse)
            == Sum(AmountColumn(dons), parse) + Contribution(Cell(Get(data, "amount")), parse)
  {
    var after := AmountColumn(dons + [DonationRow(data, now)]);
    assert after[..|after| - 1] == AmountColumn(dons);
    assert after[|after| - 1] == AmountCell(DonationRow(data, now));
    assert Sum(after, parse) == Sum(after[..|after| - 1], parse) + Contribution(after[|after| - 1], parse);
  }

  /** The decay-curve rate is 0 exactly when there are no applications. */
  lemma DecayZeroIff(n: nat)
    ensures DecayRate(n) == 0 <==> n == 0
  {
    if n > 0 {
      var r := DecayRate(n);
      assert 2 * (n + 10) * r + 2 * (n + 10) > 201 * n + 10;
      assert 201 * n + 10 >= 2 * (n + 10);
      if r == 0 {
        assert false;
      }
    }
  }

  /** The decay-curve rate never exceeds 100. */
  lemma DecayAtMostHundred(n: nat)
    ensures DecayRate(n) <= 100
  {
    var r := DecayRate(n);
    assert 2 * (n + 10) * r <= 201 * n + 10;
    assert 201 * n + 10 < 2 * (n + 10) * 101;
    MulCancel(2 * (n + 10), r, 101);
  }

  /** More applications never lower the decay-curve rate. */
  lemma DecayMonotone(m: nat, n: nat)
    requires m <= n
    ensures DecayRate(m) <= DecayRate(n)
  {
    assert (201 * m + 10) * (2 * n + 20) <= (201 * n + 10) * (2 * m + 20) by {
      assert (201 * m + 10) * (2 * n + 20) == 402 * m * n + 4020 * m + 20 * n + 200;
      assert (201 * n + 10) * (2 * m + 20) == 402 * m * n + 4020 * n + 20 * m + 200;
    }
    DivMono(201 * m + 10, 2 * m + 20, 201 * n + 10, 2 * n + 20);
  }

  /** The rate depends on the number of application rows only, never on their contents. */
  lemma RateIgnoresContents(apps: seq<seq<string>>, apps': seq<seq<string>>, dons: seq<seq<string>>,
                            vols: seq<seq<string>>, parse: string -> Option<int>)
    requires |apps| >= 1 && |apps| == |apps'| && |dons| >= 1 && |vols| >= 1
    ensures Statistics(apps, dons, vols, parse).successRate == Statistics(apps', dons, vols, parse).successRate
  {
  }
}
