/**
 * How the browser-side layer and the script fit together: the action tag the
 * client puts in a body is one the script routes to the right sheet, and the
 * script writes a record's fields in the same columns SheetDB gets them as
 * properties.
 */
module Wire {
  import opened Js
  import opened Records
  import Database
  import App

  /**
   * The script routes a client body by its `action` property: the kind's own
   * tag when the data carries no `action`, otherwise whatever the data's
   * `action` says, since the spread overrides the tag.
   */
  lemma ScriptRoutesClientBody(kind: Kind, data: Obj, ts: string)
    requires UniqueKeys(data)
    ensures "action" !in Keys(data) ==>
              App.Route(Get(Database.ScriptBody(Database.ActionTag(kind), data, ts), "action")) == Some(kind)
    ensures "action" in Keys(data) ==>
              App.Route(Get(Database.ScriptBody(Database.ActionTag(kind), data, ts), "action"))
              == App.Route(Get(data, "action"))
  {
    Database.ScriptBodyValues(Database.ActionTag(kind), data, ts, "action");
  }

  /** Every property of an object holding only strings reads as a string. */
  predicate StringsOnly(data: Obj) {
    forall i :: 0 <= i < |data| ==> data[i].1.Str?
  }

  lemma StringField(data: Obj, k: string)
    requires StringsOnly(data)
    ensures Get(data, k).None? || Get(data, k).value.Str?
  {
    if Get(data, k).Some? {
      var i :| 0 <= i < |data| && data[i] == (k, Get(data, k).value);
    }
  }

  /** A text field with no default reads the same on both sides. */
  lemma PlainColumn(x: Option<Value>)
    requires x.None? || x.value.Str?
    ensures App.Cell(Some(Or(x, Str("")))) == App.Cell(x)
  {
  }

  /** A plain application field: SheetDB's property and the script's cell hold the same text. */
  lemma ApplicationColumn(data: Obj, ts: string, k: string)
    requires StringsOnly(data) && k in App.ApplicationFields
    ensures App.Cell(Get(Database.ApplicationRecord(data, ts), k)) == App.Cell(Get(data, k))
  {
    assert k != "timestamp" && k != "status" && k in Database.ApplicationKeys;
    Database.ApplicationRecordShape(data, ts, k);
    StringField(data, k);
    PlainColumn(Get(data, k));
  }

  /**
   * For string-valued submissions both backends store the same application:
   * column `i` of the script's row holds what SheetDB receives under the `i`-th
   * property, for every column after the timestamp.
   */
  lemma ApplicationColumnsAgree(data: Obj, now: string, ts: string)
    requires StringsOnly(data)
    ensures forall i :: 1 <= i < 8 ==>
              App.ApplicationRow(data, now)[i] == App.Cell(Get(Database.ApplicationRecord(data, ts), Database.ApplicationKeys[i]))
  {
    forall i | 1 <= i < 8
      ensures App.ApplicationRow(data, now)[i] == App.Cell(Get(Database.ApplicationRecord(data, ts), Database.ApplicationKeys[i]))
    {
      if i < 7 {
        assert App.ApplicationFields[i - 1] == Database.ApplicationKeys[i];
        ApplicationColumn(data, ts, Database.ApplicationKeys[i]);
      } else {
        Database.ApplicationRecordShape(data, ts, "status");
      }
    }
  }

  /** A donation field without a default reads the same on both sides. */
  lemma DonationColumn(data: Obj, ts: string, k: string)
    requires StringsOnly(data) && k in ["type", "amount", "method"]
    ensures App.Cell(Get(Database.DonationRecord(data, ts), k)) == App.Cell(Get(data, k))
  {
    assert k != "timestamp" && k != "name" && k != "phone" && k != "details" && k in Database.DonationKeys;
    Database.DonationRecordShape(data, ts, k);
    StringField(data, k);
    PlainColumn(Get(data, k));
  }

  /**
   * The same for donations: name, phone and details get the same defaults on
   * both sides, and the amount sits in column 5.
   */
  lemma DonationColumnsAgree(data: Obj, now: string, ts: string)
    requires StringsOnly(data)
    ensures forall i :: 1 <= i < 7 ==>
              App.DonationRow(data, now)[i] == App.Cell(Get(Database.DonationRecord(data, ts), Database.DonationKeys[i]))
  {
    forall i | 1 <= i < 7
      ensures App.DonationRow(data, now)[i] == App.Cell(Get(Database.DonationRecord(data, ts), Database.DonationKeys[i]))
    {
      if i == 1 {
        Database.DonationRecordShape(data, ts, "name");
      } else if i == 2 {
        Database.DonationRecordShape(data, ts, "phone");
      } else if i == 6 {
        Database.DonationRecordShape(data, ts, "details");
      } else {
        DonationColumn(data, ts, Database.DonationKeys[i]);
      }
    }
  }

  /** A volunteer field without a default reads the same on both sides. */
  lemma VolunteerColumn(data: Obj, ts: string, k: string)
    requires StringsOnly(data) && k in ["name", "phone", "address", "occupation", "hours"]
    ensures App.Cell(Get(Database.VolunteerRecord(data, ts), k)) == App.Cell(Get(data, k))
  {
    assert k != "timestamp" && k != "status" && k != "helpTypes" && k != "extra" && k in Database.VolunteerKeys;
    Database.VolunteerRecordShape(data, ts, k);
    StringField(data, k);
    PlainColumn(Get(data, k));
  }

  /** The same for volunteers, help types included when they arrive as text. */
  lemma VolunteerColumnsAgree(data: Obj, now: string, ts: string)
    requires StringsOnly(data)
    ensures forall i :: 1 <= i < 9 ==>
              App.VolunteerRow(data, now)[i] == App.Cell(Get(Database.VolunteerRecord(data, ts), Database.VolunteerKeys[i]))
  {
    forall i | 1 <= i < 9
      ensures App.VolunteerRow(data, now)[i] == App.Cell(Get(Database.VolunteerRecord(data, ts), Database.VolunteerKeys[i]))
    {
      if i == 5 {
        Database.VolunteerRecordShape(data, ts, "helpTypes");
        StringField(data, "helpTypes");
      } else if i == 7 {
        Database.VolunteerRecordShape(data, ts, "extra");
      } else if i == 8 {
        Database.VolunteerRecordShape(data, ts, "status");
      } else {
        assert App.VolunteerFields[i - 1] == Database.VolunteerKeys[i];
        VolunteerColumn(data, ts, Database.VolunteerKeys[i]);
      }
    }
  }
}
