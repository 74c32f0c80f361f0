# JAXA Compta, modelled in Dafny

JAXA Compta is the bookkeeping application of a small Quebec business. This
project models its core and proves properties of that model:

- the invoice screen: invoice lines, the sub-total, TPS/TVQ or TVH, the
  rounded total, the creation payload and the status actions;
- the transaction form: the automatic tax calculation, the reset after a
  create, and the categories offered for each type;
- the CSV bank-statement import and the one-off workbook import (lookups,
  number and date reading, row outcomes, fiscal quarters);
- the splitting of migration files into SQL statements;
- the query strings of the transaction list, the reports and the project
  view, and their paging;
- the dashboard and project-list figures;
- the pre-filling of the form from a receipt reading (photo and document);
- the bearer-token check of the serverless functions, and the browser
  session with its hook.

Amounts are exact `real`s. `Math.round(x * 100) / 100` becomes
`Common.Round2`, specified as the nearest whole cent with ties going up.
The foreign conversions are parameters:

- `parseFloat` and `String(n)` are the `Common.JsRuntime` record;
- `atob` with `JSON.parse` is a `ServerAuth.Decoder`;
- the answers of the network and of the database are method parameters
  (`Attempt`, `Reply`, `ok: nat -> bool`, and `ImportExcel.Db`, which says
  which transaction and junction inserts of the workbook import succeed).

The current date and time are also parameters.

Each component that keeps state in React hooks is a class. Its fields are
that state, and each handler is a method whose `ensures` gives the whole new
state. Each method is tied to a function, and the properties the source
promises are proved about that function. The pure helpers are functions and
lemmas. The loops are methods with invariants:

- `Migrate.ParseStatements`;
- `ImportExcel.CountRows`, `ImportExcel.WriteLinks` and `ImportExcel.TryPeriods`;
- `ImportExcel.CollectProjetIds`.

Modules, one per file:

| module | what it models |
|---|---|
| `Common` | shared types and money rounding |
| `Text` | the string built-ins |
| `Lists` | index-based list updates |
| `QueryParams` | `URLSearchParams` |
| `Types` | the records |
| `Factures` | the invoice screen |
| `TransactionForm` | the transaction form |
| `Migrate` | the migration-file splitter |
| `ExcelDates` | serial days to the calendar |
| `ImportExcel` | the workbook import |
| `ImportCsv` | the CSV import |
| `TransactionList` | the transaction list |
| `Rapports` | the reports screen |
| `Dashboard` | the dashboard figures |
| `ProjetList` | the project list |
| `OcrEntry` | the photo and document entry screens |
| `ServerAuth` | the serverless functions' token check |
| `Api` | the browser's request, login and logout |
| `UseAuth` | the authentication hook |

## Model

| member | source | states |
|---|---|---|
| Common.Round2 | src/components/Factures.tsx:236-245 | `Math.round(x*100)/100` yields a whole number of cents that lies more than half a cent below x and at most half a cent above it, so ties go up |
| Common.NearestCentUnique | src/components/Factures.tsx:236-245 | at most one whole-cent value is that close to x, so the rounding is pinned down by its specification |
| Common.Round2OfCents | src/components/Factures.tsx:245 | rounding an amount that is already in cents leaves it unchanged |
| Common.Round2Idempotent | src/components/Factures.tsx:245 | rounding twice is the same as rounding once |
| Common.CentsAdd | src/components/Factures.tsx:245 | sums and differences of whole-cent amounts are whole-cent amounts |
| Common.Round2Monotonic | src/components/TransactionForm.tsx:106-110 | rounding preserves order |
| Common.NumberOf | src/components/Dashboard.tsx:107 | `Number(x)` of an absent figure is NaN; a present figure gives its own value |
| Common.AllMeansNone | src/components/TransactionList.tsx:116-134 | the "all" item of a filter select clears the filter, and any other value is kept |
| Common.MessageOr | src/components/SaisiePhoto.tsx:48-49 | a caught `Error` contributes its own message; any other thrown value gives the fallback |
| Text.LeadingSpace | scripts/import-excel.mjs:173 | the count of white-space characters that open the text: all of them are white space and the next one is not |
| Text.TrailingSpace | scripts/import-excel.mjs:173 | the same at the end of the text |
| Text.Trim | scripts/import-excel.mjs:173 | `trim()` returns an infix of the text, with only white space cut at each side, and neither end of the result is white space |
| Text.TrimIdempotent | scripts/import-excel.mjs:173 | trimming twice is trimming once |
| Text.LowerChar | scripts/import-excel.mjs:111-112 | `toLowerCase` moves A–Z up by 32 code points (A to a) and leaves characters without a case unchanged |
| Text.Lower | scripts/import-excel.mjs:111-112 | lower-casing text is lower-casing each character, and the length is kept |
| Text.Contains | scripts/import-excel.mjs:111-112 | `includes` holds exactly when the text occurs at some position |
| Text.DigitChar | scripts/import-excel.mjs:129-135 | a digit value 0–9 becomes the matching digit character |
| Text.Pow10 | scripts/import-excel.mjs:129-135 | powers of ten are positive |
| Text.Padded | scripts/import-excel.mjs:129-135 | `padStart(w, "0")` of a number gives exactly w digits |
| Text.PaddedValue | scripts/import-excel.mjs:129-135 | a padded number reads back as the number whenever it fits in w digits |
| Text.DecimalString | src/components/TransactionList.tsx:51-52 | `String(n)` is a non-empty run of digits without a leading zero |
| Text.DecimalStringValue | src/components/TransactionList.tsx:51-52 | `String(n)` reads back as n |
| Text.IntString | src/components/ProjetList.tsx:29 | `String(n)` of any integer is non-empty; the digits' value law is `Text.DecimalStringValue` |
| Text.Prefix | src/components/Rapports.tsx:22 | `slice(0, n)` is a prefix of the text of length min(n, length) |
| Text.Split | scripts/import-excel.mjs:197 | `split(sep)` gives at least one part, no part holds the separator, and joining the parts with the separator gives the text back |
| Text.SplitWithoutSeparator | scripts/import-excel.mjs:197 | text without the separator is split into itself alone |
| Text.SplitAtFirst | src/components/SaisiePhoto.tsx:26 | the text before the first separator is the first part, and the rest is split on its own |
| Lists.WithoutIndex | src/components/Factures.tsx:209-211 | `filter((_, i) => i !== idx)` removes exactly element idx and keeps the order; an index out of range removes nothing |
| Lists.MapAtIndex | src/components/ImportCSV.tsx:96-102 | `map((x, i) => i === idx ? f(x) : x)` keeps the length and changes only element idx |
| QueryParams.Names | src/components/TransactionList.tsx:50-58 | there is one name per pair; the reading laws are in `QueryParams.GetNoneIffAbsent` and `QueryParams.GetCons` |
| QueryParams.Get | src/components/TransactionList.tsx:50-58 | a value that `get` reads was set under that name; the first-match rule is `QueryParams.GetCons`, and absence is `QueryParams.GetNoneIffAbsent` |
| QueryParams.GetNoneIffAbsent | src/components/TransactionList.tsx:50-58 | `get` reads nothing exactly when no pair carries the name |
| QueryParams.Without | src/components/TransactionList.tsx:50-58 | removing a name leaves no pair with that name and adds nothing |
| QueryParams.WithoutKeepsOthers | src/components/TransactionList.tsx:50-58 | removing one name does not change what any other name reads |
| QueryParams.GetCons | src/components/TransactionList.tsx:50-58 | `get` is answered by the first pair when that pair has the name, and by the remaining pairs otherwise |
| QueryParams.Set | src/components/TransactionList.tsx:51-52 | after `set` the name reads the new value; a name that was absent is appended at the end |
| QueryParams.SetKeepsOthers | src/components/TransactionList.tsx:51-52 | `set` does not change what any other name reads |
| QueryParams.SetIf | src/components/TransactionList.tsx:53-58 | `if (v) params.set(n, v)`: an empty value changes nothing; any other value is then what the name reads |
| QueryParams.GetSetIf | src/components/TransactionList.tsx:53-58 | after a conditional set, each name reads either the new value or what it read before |
| Factures.ApplyLigneEdit | src/components/Factures.tsx:213-221 | `{ ...l, [field]: value }` changes the chosen field of the line and no other |
| Factures.ComputeLigne | src/components/Factures.tsx:223-233 | a header line has no count or price and is worth 0; any other line has the parsed count and price, with 0 or NaN read as null, and is worth count × price, where a missing count means 1 and a missing price means 0 |
| Factures.ComputedLignes | src/components/Factures.tsx:223-233 | `computedLignes` computes every line in order |
| Factures.SousTotalAppend | src/components/Factures.tsx:235 | the sub-total of two lists of lines is the sum of their sub-totals |
| Factures.ComputedLignesAppend | src/components/Factures.tsx:223-233 | computing the lines distributes over concatenation |
| Factures.RemoveLigneSousTotal | src/components/Factures.tsx:209-211 | removing a line takes exactly that line's amount off the sub-total, and removing a header line leaves it unchanged |
| Factures.AddLigneSousTotal | src/components/Factures.tsx:202-207 | the blank line that `addLigne` appends does not change the sub-total |
| Factures.TpsAmount | src/components/Factures.tsx:236-240 | TPS is 0 when the invoice is not taxable; otherwise it is the sub-total × 5 % rounded to the cent, or × 13 % under TVH |
| Factures.TvqAmount | src/components/Factures.tsx:241-244 | TVQ is the sub-total × 9.975 % rounded to the cent, only under TPS+TVQ; otherwise it is 0 |
| Factures.TotalTtc | src/components/Factures.tsx:245 | the total is the sum of the sub-total and the already-rounded taxes, rounded to the cent |
| Factures.InvoiceTotals | src/components/Factures.tsx:235-245 | the four figures of the form, each as the three functions above specify |
| Factures.TotalNearExact | src/components/Factures.tsx:236-245 | rounding each tax and then the total keeps the total within one and a half cents of sub-total × (1 + combined rate) |
| Factures.TotalExactOnCents | src/components/Factures.tsx:236-245 | for a sub-total in whole cents, the total is exactly the sub-total plus the two taxes |
| Factures.ClientNom | src/components/Factures.tsx:299 | `contacts.find(c => c.id === id)?.nom` is present exactly when some contact has that id, and it is then the name of the first such contact |
| Factures.InvoiceForm.constructor | src/components/Factures.tsx:99-112 | the empty form: today's date, account 1, taxable under TPS+TVQ, one blank line |
| Factures.InvoiceForm.AddLigne | src/components/Factures.tsx:202-207 | appends one blank line |
| Factures.InvoiceForm.RemoveLigne | src/components/Factures.tsx:209-211 | removes exactly line idx and keeps the order; an out-of-range index changes nothing |
| Factures.InvoiceForm.UpdateLigne | src/components/Factures.tsx:213-221 | changes one field of line idx and nothing else |
| Factures.InvoiceForm.CreateGuard | src/components/Factures.tsx:856-858 | the create button is enabled exactly when no save is under way and the invoice it would post has a client, a number and a non-zero sub-total |
| Factures.InvoiceForm.Payload | src/components/Factures.tsx:302-318 | the posted invoice is a revenue in category 14, paid by Interac and "Envoyée"; it carries the computed lines, the form's sub-total as its pre-tax amount, taxes and total consistent with `InvoiceTotals`, and the chosen client, project and account, and its description `Facture <number> — <client name>`, the name being empty when the client is not in the list |
| Factures.InvoiceForm.HandleCreate | src/components/Factures.tsx:295-348 | posts that payload; on success the dialog closes and the lines, number and notes are reset; saving always ends off; client, project, account, date and tax choice are kept |
| Factures.StatusUpdatePayload | src/components/Factures.tsx:281-293 | the update carries the new status, today's date as the payment date only when the status is "Payée", and the number and lines unchanged |
| Factures.StatusActions | src/components/Factures.tsx:563-580 | "mark late" is offered only where "mark paid" is; after "mark paid" neither action is offered; after "mark late" only "mark paid" is |
| Factures.UseTvhRecoversRegime | src/components/Factures.tsx:272-275 | on an invoice the form created (sub-total of at least 0.08), the TVH inference used for re-download answers yes exactly when the invoice was created taxable under TVH |
| Factures.RedownloadSousTotal | src/components/Factures.tsx:266-268 | the re-downloaded sub-total is the pre-tax amount when it is non-zero; otherwise it is whatever, added to the taxes, makes the total |
| Factures.FallbackLigne | src/components/Factures.tsx:248-257 | an invoice stored without lines prints one line of unit count 1 priced at its pre-tax amount, worth that amount or else the total, described by its description, its number or "Services" |
| TransactionForm.DefaultForm | src/components/TransactionForm.tsx:54-70 | the new form: today, an expense paid by Mastercard, taxable, every amount 0, nothing chosen |
| TransactionForm.OverrideLaws | src/components/TransactionForm.tsx:93-97 | `{ ...form, ...initialData }`: an empty record changes nothing, applying the same record twice equals applying it once, and each given field replaces the form's field while each absent field keeps it |
| TransactionForm.EditedFields | src/components/TransactionForm.tsx:99-126 | a pre-tax amount on a taxable form recomputes TPS, TVQ and the total; on an untaxed form it only sets the amount; unticking "taxable" zeroes both taxes and makes the total equal the pre-tax amount; ticking it recomputes the taxes; manual TPS or TVQ entries set only themselves; any other edit leaves the amounts alone |
| TransactionForm.TaxConsistentMatchesInvoice | src/components/TransactionForm.tsx:106-110 | on a taxable form the amounts are consistent exactly when they are the invoice screen's TPS+TVQ totals for the pre-tax amount |
| TransactionForm.DefaultConsistent | src/components/TransactionForm.tsx:54-70 | the new form's amounts are consistent |
| TransactionForm.EditKeepsTaxConsistent | src/components/TransactionForm.tsx:99-126 | every edit except a manual tax entry, and except a pre-tax amount typed while untaxed, keeps the amounts consistent |
| TransactionForm.WithTaxesConsistent | src/components/TransactionForm.tsx:106-110 | the recalculation always yields consistent amounts |
| TransactionForm.AmountsUntouched | src/components/TransactionForm.tsx:99-126 | an edit of any other field keeps the four amounts and the tax choice |
| TransactionForm.StaleTotalAsWritten | src/components/TransactionForm.tsx:104-111 | as written: typing 100 as the pre-tax amount of an untaxed new form leaves the total at 0, so the form is no longer consistent |
| TransactionForm.CorrectedEdited | src/components/TransactionForm.tsx:99-126 | the corrected update: on an untaxed form a typed pre-tax amount also becomes the total; every other edit is the source's own |
| TransactionForm.CorrectedKeepsTaxConsistent | src/components/TransactionForm.tsx:99-126 | with the correction, every edit except a manual tax entry keeps the amounts consistent |
| TransactionForm.PostCreateReset | src/components/TransactionForm.tsx:138-151 | after a create, the description and all four amounts are cleared, as are the number, the notes and the OCR marks |
| TransactionForm.PostCreateResetKeeps | src/components/TransactionForm.tsx:138-151 | the reset keeps the date, type, category, project, contact, account, payment mode and tax choice, and the result is consistent |
| TransactionForm.FilteredCategories | src/components/TransactionForm.tsx:160-166 | the offered categories are exactly those of the list that suit the transaction type, each kept as often as it occurs in the list |
| TransactionForm.TransferOffersAll | src/components/TransactionForm.tsx:160-166 | a transfer is offered every category, in order |
| TransactionForm.TransactionFormState.constructor | src/components/TransactionForm.tsx:54-97 | the default form with the initial data laid over it |
| TransactionForm.TransactionFormState.ApplyInitialData | src/components/TransactionForm.tsx:93-97 | lays the given initial data over the current form; without data nothing changes |
| TransactionForm.TransactionFormState.UpdateField | src/components/TransactionForm.tsx:99-126 | the form becomes `Edited(old form, edit)`, and `saved` is cleared |
| TransactionForm.TransactionFormState.HandleSubmit | src/components/TransactionForm.tsx:128-158 | an edit (non-zero id) is a PUT with the id and a create is a POST; on success `saved` is set and a create resets the form; on failure nothing changes; saving ends off |
| Migrate.LineRest | scripts/migrate.mjs:53 | the rest of the text from its first line feed on, which is a proper suffix when the text does not start with one |
| Migrate.StripComments | scripts/migrate.mjs:53-54 | removing `--[^\n]*` leaves no `--` in the result and never lengthens the text |
| Migrate.Kept | scripts/migrate.mjs:50-67 | the kept pieces are trimmed and have some content once comments are removed, and every piece with such content is kept, trimmed |
| Migrate.ParseStatements | scripts/migrate.mjs:25-70 | the character loop returns the statements of the scan specification |
| Migrate.StatementsWellFormed | scripts/migrate.mjs:25-70 | every returned statement is trimmed and has content outside comments |
| Migrate.ScanJoin | scripts/migrate.mjs:31-61 | after any number of characters, the pieces joined with `;` give back the text read so far |
| Migrate.AllPiecesJoin | scripts/migrate.mjs:25-67 | all the pieces, the last one included, give back the whole file: no character is lost |
| Migrate.ScanStep | scripts/migrate.mjs:35-60 | a `;` outside parentheses and comments closes the piece; parentheses outside comments move the depth by one; comments follow the line |
| ExcelDates.LeapsStep | scripts/import-excel.mjs:129-135 | the count of leap years grows by one exactly at each leap year |
| ExcelDates.DaysBeforeYearStep | scripts/import-excel.mjs:129-135 | consecutive years are as far apart as the first year is long |
| ExcelDates.YearOf | scripts/import-excel.mjs:132-134 | every day number falls in a year, at an offset within that year's length; that the year is the only one follows from `ExcelDates.DayNumberInjective` and `ExcelDates.CivilFromDayNumber` |
| ExcelDates.MonthOf | scripts/import-excel.mjs:132-134 | an offset within a year falls on a valid date of some month |
| ExcelDates.CivilFromDays | scripts/import-excel.mjs:132-134 | every day number is the day number of a valid proleptic Gregorian date |
| ExcelDates.DayNumberInjective | scripts/import-excel.mjs:132-134 | two valid dates with the same day number are the same date |
| ExcelDates.CivilFromDayNumber | scripts/import-excel.mjs:132-134 | a valid date read back through its day number is itself |
| ExcelDates.DaysBeforeYearBounds | scripts/import-excel.mjs:132-134 | a year k years after 1970 starts at least 365 k days later, and symmetrically before |
| ExcelDates.YearText | scripts/import-excel.mjs:134 | `toISOString` prints years 0–9999 as four digits and every other year as a sign and six digits |
| ExcelDates.IsoTextFields | scripts/import-excel.mjs:134 | a four-digit-year date prints as YYYY-MM-DD, whose fields read back as the date |
| ExcelDates.ExpandedIsoTextFields | scripts/import-excel.mjs:134 | a date with an expanded year prints as ±YYYYYY-MM-DD, whose fields read back as the date |
| ExcelDates.SerialToIso | scripts/import-excel.mjs:129-135 | the floor of (serial − 25569) days after 1970-01-01 gives a calendar date; beyond 10^8 days `toISOString` throws |
| ExcelDates.YearRange | scripts/import-excel.mjs:134 | dates within 10^8 days of 1970 have years of at most six digits |
| ExcelDates.SerialExample | scripts/import-excel.mjs:129-135 | serial 45658, with or without a time of day, is 2025-01-01 |
| ImportExcel.TextOrNull | scripts/import-excel.mjs:171-172 | `cell ? String(cell) : null` is present exactly for truthy cells |
| ImportExcel.TrimmedOrNull | scripts/import-excel.mjs:173-174 | `cell ? String(cell).trim() : null` is the trimmed text exactly for truthy cells |
| ImportExcel.LookupId | scripts/import-excel.mjs:89-101 | `find(...)?.id \|\| null` gives the id of the first row with the key, and nothing when there is no such row or its id is 0 |
| ImportExcel.FindCategoryId | scripts/import-excel.mjs:89-94 | no name gives nothing; otherwise the category of the mapped name (or of the name itself) is looked up |
| ImportExcel.FindProjetId | scripts/import-excel.mjs:96-101 | the same for the project codes |
| ImportExcel.LooseLookupId | scripts/import-excel.mjs:109-114 | gives the id of the first contact whose lower-cased name contains the lower-cased mapped name or is contained in it, and nothing when that id is 0 |
| ImportExcel.FirstIndex | scripts/import-excel.mjs:106-107 | gives the first row with the key, or nothing when no row has it |
| ImportExcel.FindContactId | scripts/import-excel.mjs:103-115 | an exact name match wins and is returned even with id 0; otherwise the first loose match is used |
| ImportExcel.FindCompteId | scripts/import-excel.mjs:117-127 | an alias is looked up by its code only; any other name is looked up as a code itself |
| ImportExcel.CanonicalNamesResolveAlike | scripts/import-excel.mjs:20-127 | a name and its mapped form resolve to the same id, for all four lookups |
| ImportExcel.CategoryTargetsFixed | scripts/import-excel.mjs:20-36 | the category table sends each of its targets to itself |
| ImportExcel.ProjetTargetsFixed | scripts/import-excel.mjs:37-53 | the project table sends each of its targets to itself |
| ImportExcel.ContactTargetsFixed | scripts/import-excel.mjs:62-66 | the contact table sends each of its targets to itself |
| ImportExcel.CompteTargetsAreCodes | scripts/import-excel.mjs:54-61 | the account aliases point to non-empty codes that are not aliases themselves |
| ImportExcel.CompteAliasNoRawFallback | scripts/import-excel.mjs:117-127 | an alias whose code is missing resolves to nothing, even when some account is named like the alias |
| ImportExcel.RemoveWhitespace | scripts/import-excel.mjs:141 | `replace(/\s/g, "")` leaves no white space and leaves text that has none unchanged |
| ImportExcel.ReplaceFirstComma | scripts/import-excel.mjs:141 | `replace(",", ".")` keeps the length; what it does to the text is `ImportExcel.ReplaceNoComma` and `ImportExcel.ReplaceAtFirst` |
| ImportExcel.ReplaceNoComma | scripts/import-excel.mjs:141 | text without a comma is left unchanged |
| ImportExcel.ReplaceAtFirst | scripts/import-excel.mjs:141 | only the first comma becomes a point |
| ImportExcel.ParseNum | scripts/import-excel.mjs:137-144 | blank or absent is 0; a number is itself; other values are read after removing white space and turning the first comma into a point, and NaN gives 0 |
| ImportExcel.ExcelDateToIso | scripts/import-excel.mjs:129-135 | only a non-zero number is a date, and it is converted as `SerialToIso` says |
| ImportExcel.ResolvePart | scripts/import-excel.mjs:198-201 | a resolved project id is never 0 |
| ImportExcel.Resolutions | scripts/import-excel.mjs:197-201 | each part of the project cell is resolved, in order |
| ImportExcel.Somes | scripts/import-excel.mjs:199-200 | keeps the ids that resolved, in order |
| ImportExcel.SomesStep | scripts/import-excel.mjs:199-200 | one more part adds its id when it resolved |
| ImportExcel.SomesMembers | scripts/import-excel.mjs:199-200 | an id is kept exactly when some part resolved to it |
| ImportExcel.SomesEmptyIff | scripts/import-excel.mjs:199-200 | nothing is kept exactly when nothing resolved |
| ImportExcel.ResolveProjets | scripts/import-excel.mjs:195-203 | the project ids of a row are the ids its parts resolve to, in order, none of them 0 |
| ImportExcel.ResolvedNoneIffUnresolved | scripts/import-excel.mjs:195-203 | a row has no project exactly when no part of its cell resolves |
| ImportExcel.CollectProjetIds | scripts/import-excel.mjs:197-201 | the push loop returns exactly those ids |
| ImportExcel.SingleProjet | scripts/import-excel.mjs:195-203 | a cell without a comma resolves to at most the one project its trimmed text names |
| ImportExcel.ResolveOne | scripts/import-excel.mjs:198-200 | a part resolves as `findProjetId` of its trimmed text |
| ImportExcel.ModeOf | scripts/import-excel.mjs:191 | a known payment mode is mapped, any other named mode is kept, and no mode gives "Autre" |
| ImportExcel.DepenseRow | scripts/import-excel.mjs:157-222 | a row without a date serial is skipped; a date out of range crashes the script; an in-range row is skipped exactly when its total and pre-tax amount are both 0, and is otherwise inserted as an expense: its date, number, receipt, category, account, supplier and payment mode as looked up, its four figures, taxable exactly when a tax is positive, no invoice fields, its first resolved project as the main one and junction rows only for two or more |
| ImportExcel.RevenuRow | scripts/import-excel.mjs:248-300 | the same date rules; an in-range row is skipped exactly when its total and pre-tax amount are both 0; otherwise a payment date out of range crashes the script (it is read outside the try block), and any other row is inserted as a revenue by Interac transfer in the "Revenu client" category, with its invoice number as description and invoice number, its client, project, account, status and number as looked up, its four figures, the payment date when there is one, and no junction rows |
| ImportExcel.RunAccounting | scripts/import-excel.mjs:157-230 | up to a crash, every row is counted exactly once, as imported, skipped or error; every imported row wrote its transaction, and a written transaction not imported belongs to a row counted as an error; the run stops exactly when some row crashes |
| ImportExcel.LinkedRunWritesImported | scripts/import-excel.mjs:205-224 | when every junction insert succeeds, the transactions written are exactly those of the imported rows |
| ImportExcel.PartialRowStaysWritten | scripts/import-excel.mjs:205-229 | a split expense whose transaction insert succeeds and whose first junction insert fails counts one error and leaves its transaction written |
| ImportExcel.Outcomes | scripts/import-excel.mjs:157 | one outcome per row from index 4 on |
| ImportExcel.ImportSheet | scripts/import-excel.mjs:148-306 | `importDepenses` and `importRevenus` return the counters and written transactions of the run over their rows |
| ImportExcel.CountRows | scripts/import-excel.mjs:157-230 | the counting loop returns that run |
| ImportExcel.WriteLinks | scripts/import-excel.mjs:218-222 | the junction loop succeeds exactly when every junction insert of the row succeeds |
| ImportExcel.RunOfStep | scripts/import-excel.mjs:157-230 | one more row adds one outcome to the run |
| ImportExcel.CrashSticks | scripts/import-excel.mjs:165 | after a crash, later rows change nothing |
| ImportExcel.ImportAll | scripts/import-excel.mjs:377-391 | `main` imports the expenses, then the revenue, then the taxes; the revenue sheet is imported exactly when no expense row crashes, and the tax sheet exactly when no row of either sheet crashes |
| ImportExcel.FindPeriod | scripts/import-excel.mjs:334 | finds the leftmost `MM/DD-YYYY` match, or shows that none exists |
| ImportExcel.CeilThird | scripts/import-excel.mjs:358 | `Math.ceil(month / 3)` is the quarter holding the month |
| ImportExcel.QuarterAgrees | scripts/import-excel.mjs:340-358 | for months 1–12 the label names the same quarter the date range covers |
| ImportExcel.QuarterDatesAreIso | scripts/import-excel.mjs:340-356 | for four-digit years the quarter's first and last days are valid calendar dates, three months apart |
| ImportExcel.QuarterOf | scripts/import-excel.mjs:334-358 | a quarter is found exactly when the text holds a period |
| ImportExcel.QuarterOfMonth | scripts/import-excel.mjs:334-358 | the quarter found is the one holding the month of the first period in the text |
| ImportExcel.DecimalIsPadded | scripts/import-excel.mjs:342-355 | a number with exactly w digits prints as its w-digit padded form |
| ImportExcel.TaxRowOutcome | scripts/import-excel.mjs:321-338 | a tax row is imported exactly when it names a period, has a TPS/TVH or TVQ figure, and has a quarter; it then stores the TVQ column as both collected and paid TVQ |
| ImportExcel.TaxOutcomes | scripts/import-excel.mjs:321 | one outcome per row from index 3 on |
| ImportExcel.CountOk | scripts/import-excel.mjs:360-366 | counts the inserts that succeed, which is at most the number attempted |
| ImportExcel.ImportTaxes | scripts/import-excel.mjs:310-373 | without a tax sheet nothing is attempted; otherwise every period row is attempted in order, and the imported count is the count of successful inserts |
| ImportExcel.TryPeriods | scripts/import-excel.mjs:321-366 | the loop attempts exactly the importable rows and counts the successes |
| ImportCsv.FirstMatching | src/components/ImportCSV.tsx:65-72 | the first header that matches the column's pattern, or a proof that no header matches |
| ImportCsv.DetectedFirstMatch | src/components/ImportCSV.tsx:65-72 | the detected column is the first matching header; with no match the current choice is kept |
| ImportCsv.KeepNumberChars | src/components/ImportCSV.tsx:79-80 | `replace(/[^0-9.-]/g, '')` keeps only digits, points and minus signs, and leaves text made only of them unchanged |
| ImportCsv.ReadAmount | src/components/ImportCSV.tsx:79-80 | a missing or empty cell reads as `parseFloat("0")`; any other cell is parsed after cleaning; the absolute value is never negative |
| ImportCsv.MapRow | src/components/ImportCSV.tsx:78-90 | a line is a revenue exactly when its credit is positive; it takes its date and description from the chosen columns and the chosen account, and starts selected |
| ImportCsv.MappedRows | src/components/ImportCSV.tsx:77-94 | the kept lines are selected and dated, and each has a positive amount |
| ImportCsv.Candidates | src/components/ImportCSV.tsx:78-91 | one candidate per parsed line, in order |
| ImportCsv.DatelessKeepsNothing | src/components/ImportCSV.tsx:82-92 | lines with no date in the chosen column are all dropped |
| ImportCsv.CsvImport.ApplyGuard | src/components/ImportCSV.tsx:224 | the mapping button is enabled only with a date and a description column chosen; with the date column left unchosen (and no cell named "") the mapping would keep no line |
| ImportCsv.MappedRowsMembers | src/components/ImportCSV.tsx:92 | the mapped list holds exactly the candidates that pass the filter |
| ImportCsv.Updated | src/components/ImportCSV.tsx:100-102 | an edit sets the chosen category or project of the row |
| ImportCsv.SelectedCount | src/components/ImportCSV.tsx:239 | the number of selected rows is at most the number of rows; the exact laws are `ImportCsv.ToggleCount` and `ImportCsv.AllSelected` |
| ImportCsv.ImportPayload | src/components/ImportCSV.tsx:106-121 | sends exactly the selected rows, one transaction each, each with its type's amount |
| ImportCsv.ToggleCount | src/components/ImportCSV.tsx:96-98 | toggling a row moves the count sent by exactly one |
| ImportCsv.ToggleTwice | src/components/ImportCSV.tsx:96-98 | toggling the same row twice gives the rows back |
| ImportCsv.FreshPayload | src/components/ImportCSV.tsx:92-121 | a freshly mapped list sends every row, each with a positive amount |
| ImportCsv.AllSelected | src/components/ImportCSV.tsx:92 | when every row is selected, the count is the number of rows |
| ImportCsv.CsvImport.constructor | src/components/ImportCSV.tsx:29-41 | nothing parsed, no column chosen, no account, no result |
| ImportCsv.CsvImport.HandleFile | src/components/ImportCSV.tsx:56-75 | keeps the parsed lines and their header, and auto-detects the four columns |
| ImportCsv.CsvImport.ApplyMapping | src/components/ImportCSV.tsx:77-94 | the preview becomes `MappedRows` of the lines, and nothing else changes |
| ImportCsv.CsvImport.ToggleRow | src/components/ImportCSV.tsx:96-98 | flips the selection of row idx only |
| ImportCsv.CsvImport.UpdateRowField | src/components/ImportCSV.tsx:100-102 | changes one field of row idx only |
| ImportCsv.CsvImport.HandleImport | src/components/ImportCSV.tsx:104-129 | sends the payload of the selected rows and keeps the server's answer when there is one |
| TransactionList.TotalPages | src/components/TransactionList.tsx:98 | `Math.ceil(total / 25)`: the fewest pages that hold every transaction, and 0 exactly when there are none |
| TransactionList.WindowReads | src/components/TransactionList.tsx:51-52 | the page window reads `limit` = 25 and `offset` = page × 25, and nothing else |
| TransactionList.ListQueryReads | src/components/TransactionList.tsx:50-58 | the list query reads the window, plus each filter that is set, under its own name |
| TransactionList.PaginationShown | src/components/TransactionList.tsx:189 | the paging controls appear exactly when there are more than 25 transactions |
| TransactionList.OffsetWithinTotal | src/components/TransactionList.tsx:98 | the window of a page in range starts before the total |
| TransactionList.ListState.constructor | src/components/TransactionList.tsx:22-30 | no search, no filter, page 0, total 0 |
| TransactionList.ListState.BuildParams | src/components/TransactionList.tsx:50-58 | `fetchData` sends the list query of the current state |
| TransactionList.ListState.Loaded | src/components/TransactionList.tsx:62-63 | a fetch stores its total and keeps the page and the filters |
| TransactionList.ListState.SetSearch | src/components/TransactionList.tsx:116-134 | a new search goes back to page 0 and keeps the other filters |
| TransactionList.ListState.SetFilterProjet | src/components/TransactionList.tsx:116-134 | the project filter ("all" clears it) goes back to page 0 |
| TransactionList.ListState.SetFilterCategorie | src/components/TransactionList.tsx:116-134 | the category filter ("all" clears it) goes back to page 0 |
| TransactionList.ListState.SetDateFrom | src/components/TransactionList.tsx:116-134 | the start date goes back to page 0 |
| TransactionList.ListState.SetDateTo | src/components/TransactionList.tsx:116-134 | the end date goes back to page 0 |
| TransactionList.ListState.Prev | src/components/TransactionList.tsx:189-198 | goes back one page but never below 0, and keeps the page in range |
| TransactionList.ListState.Next | src/components/TransactionList.tsx:189-198 | goes forward one page but never past the last, and keeps the page in range |
| Rapports.ReportQueryReads | src/components/Rapports.tsx:42-52 | the reports service reads `type` always; `mois` for a monthly report, and `compte` only on a monthly report with an account chosen; `trimestre` and `annee` for a quarterly one; `projet_id` on every project report, even with no project chosen; `annee` for an annual one; nothing else |
| Rapports.TypeComesFirst | src/components/Rapports.tsx:42-43 | every query starts with its type |
| Rapports.NetTps | src/components/Rapports.tsx:253-257 | net TPS is collected minus paid, and NaN when either figure is missing |
| Rapports.NetTvq | src/components/Rapports.tsx:258-261 | net TVQ is collected minus paid, and NaN when either figure is missing |
| Rapports.ImportedPeriodNets | src/components/Rapports.tsx:253-261 | a period imported from the workbook shows net TPS = TPS received − TPS/TVH column, and net TVQ = 0 |
| Rapports.ReportForm.constructor | src/components/Rapports.tsx:21-26 | a monthly report for the current month, Q1 of the current year, nothing chosen |
| Rapports.ReportForm.SetCompte | src/components/Rapports.tsx:157 | the account select ("all" clears it) and nothing else |
| Rapports.ReportForm.SetReportType | src/components/Rapports.tsx:21 | changes the report type and nothing else |
| Rapports.ReportForm.BuildQuery | src/components/Rapports.tsx:42-52 | `generate` sends the report query of the current inputs |
| Rapports.ReportForm.Generate | src/components/Rapports.tsx:39-59 | sends that query, keeps the totals of a successful answer, and always ends with loading off; the inputs are untouched |
| Dashboard.SoldeTotalAppend | src/components/Dashboard.tsx:28 | the total balance over two lists of accounts is the sum of their totals |
| Dashboard.Reporting | src/components/Dashboard.tsx:28 | the accounts that report a balance, drawn from the list |
| Dashboard.MissingBalancesIgnored | src/components/Dashboard.tsx:28 | accounts without a balance do not change the total |
| Dashboard.SoldeTotalBounds | src/components/Dashboard.tsx:28 | with non-negative balances, the total is non-negative and at least every single balance |
| Dashboard.Ecart | src/components/Dashboard.tsx:29 | the gap plus the expenses is the revenue |
| Dashboard.GainIffCovered | src/components/Dashboard.tsx:66-69 | the gap is shown as a gain exactly when revenue covers expenses |
| Dashboard.Marge | src/components/Dashboard.tsx:107 | the margin is finite exactly when both figures are present, and it is then revenue minus expenses |
| Dashboard.MarginShare | src/components/Dashboard.tsx:108 | with positive revenue, the share kept is at most 100 % when expenses are non-negative, exactly 100 % without expenses, and negative exactly when expenses exceed revenue |
| Dashboard.PctMargeLaws | src/components/Dashboard.tsx:108 | without positive revenue the percentage is 0; with it, the percentage is NaN when expenses are missing and is otherwise the margin over revenue × 100 |
| Dashboard.BadgeIffLoss | src/components/Dashboard.tsx:117 | with both figures present, the badge is red exactly when expenses exceed revenue |
| Dashboard.BadgeMatchesPct | src/components/Dashboard.tsx:117-118 | with positive revenue, the badge is red exactly when the percentage it shows is not a non-negative number |
| ProjetList.Marge | src/components/ProjetList.tsx:55 | the margin plus the expenses is the revenue, with missing figures read as 0 |
| ProjetList.PctLaws | src/components/ProjetList.tsx:56 | the percentage is 0 without positive revenue; otherwise it is at most 100 for non-negative expenses, exactly 100 without expenses, and negative exactly when expenses exceed revenue |
| ProjetList.ScreensAgree | src/components/ProjetList.tsx:53-56 | for a project with both figures, the project list and the dashboard show the same margin and percentage; when a figure is missing, the dashboard's margin is NaN while the list reads the figure as 0 |
| ProjetList.ProjetTxQueryReads | src/components/ProjetList.tsx:28-30 | the request names the project and asks for at most 200 transactions, and nothing else |
| ProjetList.ProjetView.constructor | src/components/ProjetList.tsx:16-18 | nothing selected, no transactions |
| ProjetList.ProjetView.OpenProjet | src/components/ProjetList.tsx:24-35 | selects the project, sends its query, keeps the answer's rows, and always ends with loading off |
| OcrEntry.PrefilledForm | src/components/SaisiePhoto.tsx:33-46 | a reading opens an expense marked as OCR, with the reading's date, amounts, payment mode, receipt number and confidence, the supplier then " — " then the description, taxable exactly when a tax was read, and every other field at its default |
| OcrEntry.UntaxedReading | src/components/SaisiePhoto.tsx:42 | a reading with no tax gives a form that is not taxable |
| OcrEntry.Base64PartLaws | src/components/SaisiePhoto.tsx:26 | a data URL `header,payload` yields its payload, and text without a comma yields nothing |
| OcrEntry.PhotoCapture.constructor | src/components/SaisiePhoto.tsx:10-14 | no preview, no reading, no error |
| OcrEntry.PhotoCapture.HandleCapture | src/components/SaisiePhoto.tsx:17-55 | without a file nothing happens; otherwise the preview shows the file, its payload is sent, and the reading or the failure's message ("Erreur OCR" for a non-Error) is kept, with loading ending off |
| OcrEntry.PhotoCapture.Reset | src/components/SaisiePhoto.tsx:57-63 | clears the preview, the reading and the error |
| OcrEntry.DocumentUpload.constructor | src/components/SaisieDocument.tsx:10-15 | no file, no reading, no error, no drop highlight |
| OcrEntry.DocumentUpload.ProcessFile | src/components/SaisieDocument.tsx:18-55 | shows the file name, sends its payload, and keeps the reading or the failure's message, with loading ending off |
| OcrEntry.DocumentUpload.HandleDrop | src/components/SaisieDocument.tsx:57-62 | the drop highlight goes off; without a file nothing else changes; otherwise the first file is processed: its name is shown, its request sent, loading ends off, a reading brings its form data and confidence and clears the error, and a failure keeps the previous reading and confidence and shows its message |
| OcrEntry.DocumentUpload.Reset | src/components/SaisieDocument.tsx:64-70 | clears the file name, the reading and the error |
| ServerAuth.VerifyAuth | netlify/functions/lib/auth.ts:1-10 | a request passes only with a header starting with "Bearer " whose remaining text decodes to claims that are authenticated and not expired |
| ServerAuth.BearerHeader | netlify/functions/lib/auth.ts:3-6 | "Bearer " followed by a token passes exactly when the token's claims are accepted |
| ServerAuth.OtherSchemesRefused | netlify/functions/lib/auth.ts:3 | a missing header, a shorter one, or another scheme (compared case-sensitively) is refused |
| ServerAuth.ExpiryIsFinal | netlify/functions/lib/auth.ts:6 | a token accepted now was accepted at every earlier instant, and a token refused now stays refused |
| ServerAuth.AcceptedUntilExpiry | netlify/functions/lib/auth.ts:6 | an authenticated token is accepted before its expiry and refused from it on |
| ServerAuth.Unauthorized | netlify/functions/lib/auth.ts:12-17 | status 401, a JSON body `{ error: "Non authentifié" }`, and only the JSON content type |
| Api.ErrorField | src/lib/api.ts:23 | `err.error \|\| fallback`: the body's error text when it is non-empty, and the fallback otherwise |
| Api.RequestHeadersLaws | src/lib/api.ts:5-11 | the Authorization header is "Bearer " plus the token exactly when a non-empty token is stored; otherwise only the caller can have set it; the content type is JSON unless the caller chose another |
| Api.RequestOutcome | src/lib/api.ts:13-26 | a 401 fails with "Non authentifié"; only a 2xx JSON answer succeeds |
| Api.FailureMessage | src/lib/api.ts:21-24 | any other failure carries a non-empty message: the body's error, or the status text when the body is not JSON, or "Erreur serveur" |
| Api.UnauthorizedRoundTrip | src/lib/api.ts:15-18 | the server's 401 reaches the caller as the server's own message |
| Api.LoginOutcome | src/lib/api.ts:38-51 | login succeeds exactly on a 2xx JSON answer |
| Api.ClientServerAgree | src/lib/api.ts:58-67 | a request made with a stored non-empty token passes `verifyAuth` exactly when `isAuthenticated` holds |
| Api.NoTokenRefused | src/lib/api.ts:9-11 | without a stored token a request carries no Authorization header, and the server refuses it |
| Api.Session.constructor | src/lib/api.ts:1 | the session starts from the storage as it is |
| Api.Session.Request | src/lib/api.ts:3-27 | sends the headers built from the stored token; a 401 removes the token, so the session is no longer authenticated; any other answer leaves the storage alone |
| Api.Session.Login | src/lib/api.ts:38-51 | on success the returned token is stored (the text "undefined" when there was none); on failure the storage is untouched |
| Api.Session.Logout | src/lib/api.ts:53-56 | removes the token and nothing else, so the session is not authenticated at any instant |
| UseAuth.AuthHook.constructor | src/hooks/useAuth.ts:5-11 | starts authenticated exactly when the stored token is valid, not loading, without an error |
| UseAuth.AuthHook.Refresh | src/hooks/useAuth.ts:9-11 | the mount effect re-reads whether the session is authenticated |
| UseAuth.AuthHook.Login | src/hooks/useAuth.ts:13-25 | loading ends off; success marks the hook authenticated and stores the token; failure keeps the hook's authentication, records the message ("Erreur de connexion" for a non-Error) and raises the failure again |
| UseAuth.AuthHook.Logout | src/hooks/useAuth.ts:27-30 | the token is removed and the hook is no longer authenticated, in agreement with the session |
| UseAuth.LoginTrustsServer | src/hooks/useAuth.ts:17-18 | a successful reply without a token marks the hook authenticated while the session stores "undefined", which is valid only when its decoding is accepted |

## Left out

- Network and storage I/O. `fetch`, the database inserts and the local
  storage are parameters or a map field. The answers come in as method
  parameters: `Attempt`, `Reply`, `Option`, `ok: nat -> bool` or `ImportExcel.Db`
  for inserts. The junction rows of a split expense are not tracked, only
  whether all of them were written.
- Navigation: the redirects to `/` on a 401 and on logout.
- The intermediate `loading`/`saving` states seen while a call is awaited.
  Each method shows only the final value.
- Foreign parsers. `parseFloat`, `String(n)` for non-integers, `Papa.parse`,
  `FileReader`, `XLSX`, `atob` and `JSON.parse` are abstract functions.
  `JSON.stringify` of the invoice lines is kept as the lines themselves.
- IEEE-754 arithmetic. Amounts are exact reals, and infinities are not
  represented in `Num`.
- `Common.Round2`: does not model the binary rounding of `x * 100` before
  `Math.round`, because amounts are exact reals.
- `Text.LowerChar`: covers Basic Latin and Latin-1, plus Œ and Ÿ. It does
  not cover the rest of Unicode case mapping.
- Error values in JSON bodies. Only string properties are kept, so an
  `error` that is a number or an object is not modelled.
- `Api.LoginOutcome`: a `token` property that is not a string is read as
  absent.
- The status badge of the project cards (`'default'` for "En cours",
  otherwise `'secondary'`): a display-only JSX ternary.
- JSX rendering, dialogs, the login screen and the application shell.
- The PDF invoice generator, the Excel and PDF exports of the reports and
  the list, and the mailto composition of `handleSendEmail`.
- `fetchNextNumber` of the invoice screen. It asks the server for the next
  number and, on failure, builds one from the date. The server side is not
  part of this model.
- `handleDelete` of the list: it is a confirmation dialog and a DELETE call.
- The migration runner of `scripts/migrate.mjs` outside `parseStatements`.
  It only reads files and runs statements in order.
- The console logging of the import script, including its cap of five
  printed errors, and the verification counts `main` reads back at the end.
- A missing sheet in the workbook: the model takes each transaction sheet as
  its rows.
- The manual-entry presets of `SaisieManuelle.tsx`. They are static records.
- The serverless handlers other than the token check. They are not part of
  this model.

## Findings

| source | as written | input that shows it | evidently intended | confidence | as-written member | corrected member |
|---|---|---|---|---|---|---|
| src/components/TransactionForm.tsx:104-111 | on an untaxed form, typing a pre-tax amount sets only `montant_ht`, and the read-only total keeps its old value | a new form with "taxable" unticked (total 0); typing 100 as the pre-tax amount leaves the total at 0 | the total follows the pre-tax amount, as it does when "taxable" is unticked (lines 112-116) | medium, not executed | TransactionForm.StaleTotalAsWritten | TransactionForm.CorrectedKeepsTaxConsistent |
