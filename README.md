# Korje Hasana data layer, modelled in Dafny

The charity site Korje Hasana takes loan applications, donations and volunteer
sign-ups from web forms and stores them in a spreadsheet. It can do this through
either of two backends:

- SheetDB, a REST front end to a Google Sheet, which the browser calls directly;
- a Google Apps Script web app that appends the rows itself.

This project models the deterministic logic under the network and spreadsheet
plumbing and proves what that logic promises. There are three groups:

- **Record normalisation.** Each loosely filled form record becomes one row with
  fixed fields, defaults and an initial status: the SheetDB payload builders,
  the Apps Script body, and the rows the script appends.
- **Statistics.** The SheetDB reducer turns three collection reads into counts
  and a success rate. The Apps Script reducer turns sheet contents into totals
  and a decay-curve rate.
- **Routing and selection.** The script's `doPost`/`doGet` dispatch, the
  choice of backend from the configuration, and the trimming of the SheetDB
  base URL.

Modules, one per file:

| file | module | contents |
|---|---|---|
| `js.dfy` | `Js` | JavaScript values the code depends on: `undefined` as `None`, strings and string arrays, truthiness and `x \|\| d`, and plain objects as insertion-ordered property lists with lookup, assignment, spread and literals |
| `text.dfy` | `Text` | `join`, `split`, and the decimal text of a number, each with the inverse reading used to show nothing is lost |
| `percent.dfy` | `Percent` | `Math.round(p / q * 100)` on exact rationals and the `"<n>%"` text |
| `records.dfy` | `Records` | the three record kinds, the statistics record and the replies |
| `database.dfy` | `Database` | `js/database.js`: backend selection (class `Database`), the base-URL trim, SheetDB payloads, the Apps Script request body and the SheetDB statistics |
| `app.dfy` | `App` | `js/app.js`: sheets as objects whose rows are appended in place (classes `Sheet` and `Spreadsheet`), the row layouts, `doPost`, `doGet`, and `getStatistics` with its summing loop |
| `wire.dfy` | `Wire` | how both sides fit together: the script routes the client's body to the right sheet, and for text fields the script's row holds the same values SheetDB is sent |

Conventions:

- Five things are parameters rather than computed:
  - the clock (`Database.Clock` carries the ISO and `bn-BD` readings);
  - each network read (a `Database.Outcome`);
  - `parseFloat` (a function `parse : string -> Option<int>`);
  - the configuration (`Option<Config>`, `None` when there is no `CONFIG`);
  - the outcome of `JSON.parse` in `doPost` (the `body: Result<Obj>` of `App.DoPost`).
- A submitted field is `None` when undefined, otherwise `Str(s)` or `Arr(items)`.
- `x || d` picks `d` exactly when `x` is undefined or the empty string.
- Rounding is modelled as `(200 p + q) / (2 q)`. This is exact half-up rounding
  of `100 p / q`. Binary floating point may round differently at exact halves,
  and the model does not capture that.

The SheetDB `successRate` is donation rows over application rows
(`js/database.js:189-191`), not an approval rate. Donations are counted as
rows there, not summed as amounts. The rate can exceed 100%, and
`Database.RateCanExceedHundred` shows one such case.

## Model

| member | source | states |
|---|---|---|
| `Js.Or` | js/database.js:103-108 | `x \|\| d` yields `x` when it is defined and truthy and `d` otherwise; `r == d` exactly when `x` is undefined, falsy, or already `d` |
| `Js.Get` | js/app.js:5 | property lookup is defined exactly for the object's keys and returns the value stored under the key |
| `Js.PutKeys` | js/database.js:53 | assigning a property keeps the key order and appends a new key at the end; keys stay unique |
| `Js.PutGet` | js/database.js:53 | after `o[k] = v`, `k` reads `v` and every other key reads as before |
| `Js.SpreadKeys` | js/database.js:52 | `{...o, ...src}` keeps `o`'s keys in place and appends `src`'s new keys in `src`'s order, with no duplicates |
| `Js.SpreadGet` | js/database.js:52 | after a spread, a key of `src` has `src`'s value and any other key keeps `o`'s |
| `Js.LiteralFacts` | js/database.js:101-110 | an object literal with distinct keys has exactly those keys in order, each reading its given value, and nothing else |
| `Text.TagsJoin` | js/database.js:154 | joining a non-empty list of tags with `', '` loses nothing when no tag contains a comma: reading the text back gives the same tags |
| `Text.DecimalRoundTrip` | js/database.js:190 | the decimal text `${n}` reads back as `n` |
| `Text.DecimalText` | js/database.js:190 | `${n}` is a non-empty digit string with no leading zero |
| `Percent.RoundPercent` | js/database.js:190 | `Math.round(p / q * 100)` is the integer `r` with `2qr <= 200p + q < 2qr + 2q`, i.e. within one half of `100 p / q`, rounding halves up |
| `Percent.RoundPercentUnique` | js/database.js:190 | only one integer satisfies those rounding bounds |
| `Percent.RateText` | js/database.js:190 | the rate text ends in `%`, what precedes it is the decimal digits of the rate, and there is no leading zero (`"0%"`, `"7%"`, never `"07%"`) |
| `Database.DatabaseType` | js/database.js:4 | the configured `DATABASE_TYPE` when present and non-empty, otherwise `'sheetdb'` |
| `Database.ScriptUrl` | js/database.js:10-12 | the configured script URL when present and non-empty, otherwise null |
| `Database.SheetDbBase` | js/database.js:16-18 | a configured, non-empty SheetDB `BASE_URL` is used; when it is absent or empty, the hard-coded endpoint is used |
| `Database.TrimTrailingSlashes` | js/database.js:95 | the trimmed URL is a prefix of the input, does not end in `/`, and everything after it in the input is `/` |
| `Database.TrimRemovesSlashes` | js/database.js:95 | a URL not ending in `/` comes back unchanged from any number of trailing slashes |
| `Database.TrimDecomposes` | js/database.js:95 | the input is the trimmed URL followed only by slashes, and trimming twice equals trimming once |
| `Database.SelectBackend` | js/database.js:8-20 | `'google_sheets'` selects the script backend with `ScriptUrl`; `'sheetdb'` selects SheetDB with the trimmed base URL, which never ends in `/`; any other type selects nothing |
| `Database.DefaultEndpoint` | js/database.js:4-19 | with no configuration, or none for SheetDB, the hard-coded endpoint is used unchanged |
| `Database.Database.constructor` | js/database.js:3-6 | the type is `DatabaseType(config)` and `db` is what `SelectBackend` gives for it, unset for an unknown type |
| `Database.Database.Init` | js/database.js:8-21 | `init` sets `db` for the two known types and leaves it untouched for any other |
| `Database.Database.Submit` | js/database.js:23-33 | the three `submit*` calls send SheetDB's one-row post or the script's flat body, according to the selected backend, and nothing when none was selected |
| `Database.Database.StatisticsReads` | js/database.js:35-37 | `getStatistics` reads `?sheet=applications`, `?sheet=donations` and `?sheet=volunteers` on SheetDB, or `?action=getStats` on the script |
| `Database.RecordKeysDistinct` | js/database.js:99-162 | the three payload rows list distinct property names |
| `Database.ApplicationRecordShape` | js/database.js:99-114 | the application row has exactly the properties timestamp, name, phone, address, type, amount, details, status in that order; the timestamp is the client's ISO time, status is `'Pending'`, and each other field is the submitted value or `''` when absent or empty |
| `Database.DonationRecordShape` | js/database.js:123-137 | the donation row has exactly timestamp, name, phone, type, amount, method, details, with no status; name defaults to `'Anonymous'`, phone and details to `'N/A'`, the rest to `''` |
| `Database.VolunteerRecordShape` | js/database.js:146-162 | the volunteer row has exactly timestamp, name, phone, address, occupation, helpTypes, hours, extra, status; status is `'Pending'`, extra defaults to `'N/A'`, helpTypes is normalised by `HelpTypesText`, the rest default to `''` |
| `Database.HelpTypesText` | js/database.js:154 | an array of help types becomes its `', '`-join; a string is kept, `''` included; undefined becomes `''` |
| `Database.HelpTypesRoundTrip` | js/database.js:154 | the joined help-types text reads back as the selected tags when none contains a comma; an empty selection is stored as `''` |
| `Database.ApplicationRecord` | js/database.js:101-110 | the application row's property names are exactly those of the literal, in its order |
| `Database.DonationRecord` | js/database.js:125-133 | the donation row's property names are exactly those of the literal, in its order |
| `Database.VolunteerRecord` | js/database.js:148-158 | the volunteer row's property names are exactly those of the literal, in its order |
| `Database.SheetDbSheetsDistinct` | js/database.js:114-162 | the three kinds post to three different sheets: `applications`, `donations`, `volunteers` |
| `Database.SheetDbSubmit` | js/database.js:114-118 | a SheetDB submission posts exactly one row, the kind's record stamped with the ISO time, to `<base>?sheet=applications`, `donations` or `volunteers` |
| `Database.ActionTagsDistinct` | js/database.js:51-77 | the three kinds send three different action tags: `submitApplication`, `submitDonation`, `submitVolunteer` |
| `Database.ScriptBody` | js/database.js:50-54 | the body's `timestamp` is always the given client time, whatever the data holds |
| `Database.ScriptBodyKeys` | js/database.js:50-54 | the script body lists `action` first, then the data's own fields in their order, then `timestamp` unless the data already had one; no key repeats |
| `Database.ScriptBodyValues` | js/database.js:50-54 | in the body, `timestamp` is always the client's time; `action` is the kind's tag unless the data has its own `action`, which overrides it; every other field passes through unchanged |
| `Database.ScriptSubmit` | js/database.js:47-54 | the script submission posts to the script URL, or to `'null'` when none is configured; its body is `ScriptBody` of the kind's tag, the data, and the `bn-BD` local time rather than the ISO time |
| `Database.RowCount` | js/database.js:180-187 | a collection counts its array's length when the response is ok and the body is an array, and 0 otherwise |
| `Database.SheetDbRate` | js/database.js:189-191 | `'0%'` with no applications; otherwise the decimal text of `Math.round(100 * donations / applications)` followed by `%` |
| `Database.FirstThrown` | js/database.js:173-205 | the error reported is the message of one of the reads that threw |
| `Database.SheetDbStatistics` | js/database.js:170-208 | the reply is an error exactly when a read threw; its message is the thrown message, or `'Failed to fetch statistics'` only when that message is empty; otherwise it is a success with the three counts and the rate |
| `Database.FailedReadIsolated` | js/database.js:179-199 | for each of the three collections, a non-ok response or non-array body counts as 0 for that collection only: both other counts are unchanged and the reply is still a success |
| `Database.EmptyStoreStatistics` | js/database.js:185-199 | three empty collections give counts 0, 0, 0 and `'0%'` |
| `Database.RateCanExceedHundred` | js/database.js:189-191 | one application and two donations give `'200%'` |
| `App.Sheet.constructor` | js/app.js:12 | a new sheet has its name and only its header row |
| `App.Sheet.LastRow` | js/app.js:100 | `getLastRow()` is the number of rows, header included |
| `App.Sheet.AppendRow` | js/app.js:60 | `appendRow` adds the row after the last one and changes no other row |
| `App.Spreadsheet.constructor` | js/app.js:7 | three distinct sheets named `Applications`, `Donations` and `Volunteers`, each with its header row, form a valid spreadsheet |
| `App.Spreadsheet.SheetByName` | js/app.js:12-20 | `getSheetByName` returns the sheet with that name, and null exactly when no sheet has it |
| `App.SheetNameFindsSheet` | js/app.js:12-20 | in a valid spreadsheet, `getSheetByName` with a kind's sheet name returns that kind's sheet |
| `App.SheetNamesDistinct` | js/app.js:12-20 | the three kinds are written to three different sheet names |
| `App.ConfirmationsDistinct` | js/app.js:61-91 | the three success replies are different texts, so a reply shows which kind was recorded |
| `App.Cell` | js/app.js:52-57 | an undefined value is written as a blank cell and a string as itself |
| `App.Filled` | js/app.js:67-72 | `data[k] \|\| d` in a cell: the submitted text when truthy, `d` when absent or empty |
| `App.ApplicationRow` | js/app.js:50-59 | the application row has 8 cells: the time, then name, phone, address, type, amount and details as submitted, then `'Pending'` |
| `App.DonationRow` | js/app.js:65-73 | the donation row has 7 cells: time; name or `'Anonymous'`; phone or `'N/A'`; type; amount in column 5; method; details or `'N/A'` |
| `App.VolunteerRow` | js/app.js:79-89 | the volunteer row has 9 cells: time, six submitted fields, extra or `'N/A'`, then `'Pending'` |
| `App.AddApplication` | js/app.js:49-61 | appends exactly the application row after the earlier rows, which are unchanged, and replies `'Application submitted'` |
| `App.AddDonation` | js/app.js:64-75 | appends exactly the donation row after the earlier rows, which are unchanged, and replies `'Donation recorded'` |
| `App.AddVolunteer` | js/app.js:78-91 | appends exactly the volunteer row after the earlier rows, which are unchanged, and replies `'Volunteer application submitted'` |
| `App.Route` | js/app.js:10-25 | each of `submitApplication`, `submitDonation` and `submitVolunteer`, and nothing else, selects its kind |
| `App.DoPost` | js/app.js:2-34 | each known action appends exactly one row of its layout to its own sheet (`Applications`, `Donations`, `Volunteers`), leaves the other sheets unchanged, and replies with its confirmation; an unknown action replies `'Invalid action'` and changes nothing; a body that fails to parse becomes an error reply with the exception's text rather than propagating |
| `App.Contribution` | js/app.js:106 | `parseFloat(x) \|\| 0` adds the parsed number, or 0 for an unparseable cell |
| `App.AmountColumn` | js/app.js:104 | the donation cells read are column 5 of every row below the header |
| `App.SumUnparseable` | js/app.js:103-107 | a donation column in which no cell parses sums to 0 |
| `App.SumNonNegative` | js/app.js:103-107 | the donation total is never negative when no parsed amount is negative |
| `App.DecayRate` | js/app.js:109 | the rate is within one half of `100 n / (n + 10)`, rounding halves up |
| `App.Statistics` | js/app.js:94-117 | the application and volunteer totals are `lastRow - 1`, excluding the header; the donation total is the sum over column 5; the rate text is `round(100 n / (n + 10))` followed by `%` |
| `App.SumAmounts` | js/app.js:103-107 | the `forEach` accumulation over the donation cells yields exactly their `Sum` |
| `App.GetStatistics` | js/app.js:94-117 | the statistics returned are exactly `Statistics` of the three sheets' rows |
| `App.DoGet` | js/app.js:36-47 | the reply is a success exactly for action `getStats`, carrying the statistics; any other action gives `'Invalid action'` |
| `App.DonationAddsAmount` | js/app.js:70 | appending a donation raises the donation total by exactly its amount cell's contribution, so the column summed is the one `addDonation` writes |
| `App.DecayZeroIff` | js/app.js:109 | the decay-curve rate is 0 exactly when there are no applications |
| `App.DecayAtMostHundred` | js/app.js:109 | the decay-curve rate never exceeds 100 |
| `App.DecayMonotone` | js/app.js:109 | more applications never lower the decay-curve rate |
| `App.RateIgnoresContents` | js/app.js:100-109 | the rate depends only on the number of application rows, not on their contents |
| `Wire.ScriptRoutesClientBody` | js/database.js:50-54 | a body built for a kind is routed by `doPost` to that kind when the data has no `action` of its own; otherwise it is routed by the data's `action` |
| `Wire.ApplicationColumnsAgree` | js/app.js:50-59 | for text-only data, every column after the time in the script's application row equals the property of the same position in SheetDB's application row |
| `Wire.DonationColumnsAgree` | js/app.js:65-73 | the same for donations, defaults included |
| `Wire.VolunteerColumnsAgree` | js/app.js:79-89 | the same for volunteers, help types included when they arrive as text |

## Left out

- Network I/O: `fetch`, `response.json()` and the `Promise.all` fan-out are not modelled. A submission is modelled as the request it would send. Each statistics read is modelled as its outcome: not ok, ok with a body, or thrown.
- `Database.FirstThrown`: when several reads throw, `Promise.all` reports the one that rejects first in time; the model reports the first in argument order.
- The clock and locale: `new Date()`, `toISOString()` and `toLocaleString('bn-BD')` are parameters, not computed.
- `SpreadsheetApp.openById`, `getRange`, `ContentService`, JSON serialisation and MIME types are foreign services: sheets are modelled as rows of cell text. The spreadsheet is assumed to have its three sheets, each with a header row.
- `App.AmountColumn`: the spreadsheet service's treatment of a zero-row `getRange` (only the header present) is not modelled; the model reads no cells there.
- `App.Contribution`: `parseFloat` and the floating-point sum are replaced by an abstract `parse` into integers with a fallback of 0.
- `Percent.RoundPercent`: rounds exact rationals half up; JavaScript floating point may differ on halves it cannot represent.
- `App.Cell`: an array value written to a cell is modelled as its comma-joined text; this reading of how the spreadsheet stores an array is an assumption. The column-agreement lemmas are stated for text-only data.
- `Database.Database.Submit`: with no backend selected the JavaScript calls reject with a TypeError; the model returns no request.
- Number-to-text for very large numbers (exponent notation) is not modelled: rates are small integers printed in plain decimal.
- Property names that look like array indices (`"0"`, `"17"`): JavaScript lists them first in numeric order, while `Js.Obj` keeps insertion order for every name. `Database.ScriptBodyKeys` therefore holds only for data without such names; the site's form fields have none.
- Form values other than strings and string arrays (numbers, nested objects) are not modelled.
- `js/config.js` (configuration read from browser storage) is not part of this model; the configuration is a parameter.
