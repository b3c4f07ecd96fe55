# Smart-Network console core, in Dafny

Smart-Network is a browser console for a small Internet service provider. It
holds a client registry, an invoice ledger, a hotspot-voucher designer and
generator, mock tables of a MikroTik router, a support desk and financial
reports. All of it lives in React state. This project models the logic behind
those screens and proves properties about it. That logic is the list
transforms, the status rules, the 30-day renewal (`Clients.RenewalPeriod`), invoice and voucher
numbering, the bounded router log, the derived counters and totals, and the
search filters.

Each screen is one module. A screen's state becomes a `class` whose fields its
handlers reassign, with one `method` per handler. The pure derivations are
functions with contracts; the lemmas relate them to each other:

- `Clients`: the client record and its pure transforms.
- `ClientList`: the client screen.
- `Dashboard`: tiles, detail lists and quick actions.
- `Billing`: the invoice ledger.
- `Vouchers`: the designer and generator.
- `Mikrotik`: the router manager.
- `Support`: the support desk.
- `Reports`: the reports screen.

Shared building blocks:

- `Seqs`: `filter`, sums and the subsequence relation.
- `Keyed`: `map`/`filter`/`find` by id, the idiom every handler uses.
- `Text`: decimal digits, ASCII lower-casing and substring search.
- `CivilDate`: `YYYY-MM-DD` dates read at midnight UTC, day arithmetic, and the
  text-to-text 30-day shift.

The following are parameters of the operations:

- The user's dialog answers (confirmation, prompt text, form contents).
- Every `Math.random` draw.
- Every clock reading.

The comparison instant `nowMs` and the local calendar date `nowLocal` are
parameters of the dashboard functions.

Where the repository's own description and the code disagree, the model
follows the code. The description says the enable/disable button only flips
Active and Disabled and leaves Suspended and Inactive alone. The code
(components/ClientList.tsx:108) sends every status other than Active to Active.
`Clients.ToggledStatus` and `Clients.SuspendThenToggle` state the code's rule,
so Suspended followed by enable/disable gives Active, not Disabled. Likewise the dashboard's joined-this-month list uses the code's local-time month test (see Findings); the intended list is `Dashboard.IntendedJoinedMonth`.

## Model

| member | source | states |
|---|---|---|
| Seqs.Filter | components/Dashboard.tsx:53-56 | `filter` keeps exactly the elements that satisfy the predicate, in order. The result is a subsequence; all pass gives the list, none pass gives [] |
| Seqs.FilterMultiset | components/Dashboard.tsx:53-56 | counted with multiplicity, `filter` keeps every copy of a passing element and no copy of a failing one |
| Seqs.FilterExt | components/Dashboard.tsx:64-68 | filters by two predicates that agree on every element give the same list |
| Seqs.FilterAppend | components/Dashboard.tsx:53-56 | filtering a concatenation is concatenating the filters |
| Seqs.FilterStrengthen | components/Dashboard.tsx:77-80 | a stronger predicate keeps a subsequence of what a weaker one keeps |
| Seqs.FilterBoth | components/Dashboard.tsx:75-76 | filtering by p and then by q is filtering by `p && q` |
| Seqs.SumAppend | components/Billing.tsx:37-38 | a `reduce` sum over a concatenation is the sum of the parts |
| Seqs.SumSplit | components/Billing.tsx:37-38 | the sums over a predicate and over its complement add up to the whole sum |
| Seqs.CountAll | components/MikrotikManager.tsx:548-552 | a filter count equals the length exactly when every element passes, and is 0 exactly when none does |
| Seqs.FilterDisjoint | components/SupportManager.tsx:36-40 | two filters by predicates that never hold together count at most the length between them |
| Seqs.FilterCons | components/Reports.tsx:331-335 | one step of `filter`: the head is kept exactly when it passes |
| Seqs.CountCons | components/SupportManager.tsx:36-40 | one step of a filter count: the head adds one exactly when it passes |
| Seqs.CountIndices | components/MikrotikManager.tsx:548-552 | a filter count is the number of positions whose element passes |
| Seqs.CountComplement | components/SupportManager.tsx:36-40 | the counts of a predicate and of its complement add up to the length |
| Keyed.UpdateWhere | components/ClientList.tsx:109 | `map(x => x.id === id ? f(x) : x)`: same length; f is applied exactly at the matching positions, all others unchanged |
| Keyed.RemoveKey | components/ClientList.tsx:124 | `filter(x => x.id !== id)`: a subsequence holding exactly the records without the id; unchanged when no record has it |
| Keyed.ReplaceKey | components/Dashboard.tsx:87 | `map(y => y.id === x.id ? x : y)`: matching positions become x, the rest stay |
| Keyed.FindKey | components/Dashboard.tsx:98 | `find`: None exactly when no record has the id; otherwise the record at the first index with the id |
| Keyed.UpdateInvolutive | components/MikrotikManager.tsx:159-161 | an update that keeps the id and undoes itself, applied twice, restores the list |
| Keyed.UpdateIdempotent | components/SupportManager.tsx:42-44 | an update idempotent on one record is idempotent on the list |
| Keyed.UpdateCompose | components/ClientList.tsx:140-149 | two successive updates of one id compose into one update |
| Keyed.UpdateAbsent | components/ClientList.tsx:109 | updating an id that no record carries changes nothing |
| Keyed.UpdateOneCount | components/MikrotikManager.tsx:548 | with a unique id, a count after the update differs from the count before only by the updated record |
| Text.DigitsRoundTrip | components/ClientList.tsx:72-73 | parsing the fixed-width digits of n gives n back |
| Text.ParseDigitsRoundTrip | components/ClientList.tsx:72-73 | rendering a parsed digit string with its own width gives the string back |
| Text.Decimal | components/Billing.tsx:45 | a number's decimal text is all digits and has exactly NumDigits(n) characters |
| Text.DecimalRoundTrip | components/Billing.tsx:45 | the decimal text of n parses back to n |
| Text.DecimalInjective | components/Billing.tsx:45 | two numbers have the same decimal text exactly when they are equal |
| Text.NumDigitsExact | components/Billing.tsx:45 | NumDigits(n) is the least width whose power of ten exceeds n |
| Text.DecimalFourDigits | components/VoucherDesigner.tsx:84-85 | a number in 1000..9999 prints as its four digits |
| Text.DecimalTwoDigits | components/VoucherDesigner.tsx:86 | a number in 10..99 prints as its two digits |
| Text.PrefixedDecimalInjective | components/VoucherDesigner.tsx:100 | a fixed prefix followed by the decimal text of a number determines the number |
| Text.Lower | components/ClientList.tsx:43 | `toLowerCase` keeps the length and lower-cases character by character |
| Text.ContainsAt | components/ClientList.tsx:43-45 | `includes` holds exactly when the needle occurs at some position |
| CivilDate.NextDay | components/ClientList.tsx:131 | the next calendar date has the next day number |
| CivilDate.PrevDay | components/Dashboard.tsx:66-67 | the previous calendar date has the previous day number |
| CivilDate.AddDays | components/ClientList.tsx:131 | n days later is a calendar date whose day number is n more |
| CivilDate.DayNumberOrdered | components/Dashboard.tsx:55 | an earlier year or month gives a smaller day number |
| CivilDate.DayNumberInjective | components/ClientList.tsx:132 | a day number has only one calendar date, so an instant has one ISO rendering |
| CivilDate.AddDaysAdditive | components/ClientList.tsx:131 | shifting by a and then by b days is shifting by a + b days |
| CivilDate.EpochMsShift | components/ClientList.tsx:131 | n days later in the calendar is exactly n * 86 400 000 ms later |
| CivilDate.ParseFormatIso | components/ClientList.tsx:72 | parsing the `YYYY-MM-DD` text of a date gives that date |
| CivilDate.ParseIso | components/Dashboard.tsx:55 | `new Date(s)` on date text: a date that parses is a calendar date with a four-digit year |
| CivilDate.FormatIso | components/ClientList.tsx:132 | `toISOString().split('T')[0]`: ten characters with '-' at positions 4 and 7 |
| CivilDate.EpochMsMidnight | components/Dashboard.tsx:55 | `getTime()` of a date-only string is midnight UTC: a whole number of days, the day number, in milliseconds |
| CivilDate.FormatParseIso | components/ClientList.tsx:130 | a string that parses is exactly the text of its date |
| CivilDate.ShiftIsoDate | components/ClientList.tsx:130-132 | `new Date(s)` shifted by `days` whole days and printed back as text. Unparsable text is an error. It succeeds exactly when the result keeps a four-digit year, and the result parses to the date `days` days later |
| CivilDate.ShiftIsoDateMs | components/ClientList.tsx:131 | the shifted text denotes the instant `days * 86 400 000` ms later |
| CivilDate.ShiftOk | components/ClientList.tsx:130-132 | a shift that stays within four-digit years yields the text of the shifted date |
| CivilDate.ShiftDefined | components/ClientList.tsx:130-132 | a shift succeeds only on parsable text whose shifted year is at most 9999 |
| CivilDate.ShiftParses | components/ClientList.tsx:132 | the shifted text parses to the shifted date |
| CivilDate.ShiftTwice | components/Dashboard.tsx:100-104 | shifting text by a days and then b days equals shifting it by a + b days |
| CivilDate.ShiftFormatted | components/ClientList.tsx:73 | shifting the text of a date gives the text of the shifted date |
| CivilDate.ShiftBetween | components/ClientList.tsx:130-132 | when e is `days` after d, the text of d shifts to the text of e |
| CivilDate.ShiftExampleJanuary | components/ClientList.tsx:130-132 | 2024-01-01 renewed by 30 days is 2024-01-31 |
| CivilDate.ShiftExampleFebruary | components/ClientList.tsx:130-132 | 2024-01-31 renewed by 30 days crosses the 29-day February of 2024 to 2024-03-01 |
| Clients.ApplyForm | components/ClientList.tsx:88 | `{ ...c, ...formData }` keeps the id and takes every form field |
| Clients.ApplyOwnForm | components/ClientList.tsx:54-66 | opening the edit dialog and saving it untouched leaves the client unchanged |
| Clients.FormDetermines | components/ClientList.tsx:54-66 | the id and the form together determine the client |
| Clients.NewClientForm | components/ClientList.tsx:69-74 | the add form's defaults: PPPoE, "5 Mbps", Active, balance 0, empty texts. It joins today (UTC) and expires exactly 30 days after its join date |
| Clients.NewClientIdParts | components/ClientList.tsx:98 | a new id starts with NumDigits(length + 1) digits that read back as the list length plus one, and the rest of it is the random suffix |
| Clients.NewClientId | components/ClientList.tsx:98 | a new id is NumDigits(length + 1) characters of the count followed by the random suffix |
| Clients.NewClient | components/ClientList.tsx:96-99 | the new client carries the form and that id |
| Clients.ToggledStatus | components/ClientList.tsx:107-108 | enable/disable gives Disabled exactly for Active, and Active for every other status |
| Clients.SuspendToggled | components/ClientList.tsx:114-115 | suspend gives Active exactly for Suspended, and Suspended for every other status |
| Clients.ToggleTwice | components/ClientList.tsx:108 | enable/disable undoes itself exactly on Active and Disabled |
| Clients.SuspendTwice | components/ClientList.tsx:115 | suspend undoes itself exactly on Active and Suspended |
| Clients.SetStatus | components/ClientList.tsx:109 | only `status` changes, and only on clients with the id |
| Clients.CollectPayment | components/ClientList.tsx:143 | only `balance` changes: matching clients gain the amount |
| Clients.RenewClient | components/ClientList.tsx:132 | matching clients get the new expiry and Active; every other field and every other client is unchanged |
| Clients.EditClient | components/ClientList.tsx:87-89 | matching clients take the form, ids kept; the others unchanged |
| Clients.RemoveClient | components/ClientList.tsx:123-124 | a subsequence holding exactly the clients without the id |
| Clients.ReplaceClient | components/Dashboard.tsx:87 | clients with the edited id become the edited record |
| Clients.FindClient | components/Dashboard.tsx:98-99 | the first client with the id, or None exactly when there is none |
| Clients.CollectTwice | components/ClientList.tsx:143 | collecting a and then b is collecting a + b |
| Clients.CollectExample | components/ClientList.tsx:143 | a balance of 500, with 200 and then -100 collected, is 600 |
| Clients.SuspendThenToggle | components/ClientList.tsx:108-116 | suspending an Active client and then pressing enable/disable makes it Active, not Disabled |
| Clients.SetStatusTwice | components/ClientList.tsx:109 | of two status writes the later one wins |
| Clients.RenewTwice | components/ClientList.tsx:132 | a second renewal's expiry overrides the first |
| Clients.RenewalsAdd | components/ClientList.tsx:130-132 | two successful 30-day renewals move the expiry by exactly 60 days |
| Clients.FilteredClients | components/ClientList.tsx:39-48 | a subsequence holding exactly the clients of the chosen type matching name, phone or a present MAC; All with an empty query gives every client |
| ClientList.ClientListState.constructor | App.tsx:25 | the screen opens on the registry, no client open, list view |
| ClientList.ClientListState.ViewClient | components/ClientList.tsx:79-82 | opens the client in the details view, list unchanged |
| ClientList.ClientListState.Submit | components/ClientList.tsx:84-105 | an edit merges the form into matching clients and, when it is the one concerned, the open client; an add prepends the new client |
| ClientList.ClientListState.SaveEdit | components/ClientList.tsx:86-94 | the edit branch: matching clients take the form; the open client takes it too when it has the edited id, otherwise it stays |
| ClientList.ClientListState.AddClient | components/ClientList.tsx:95-101 | the add branch: the new client is put in front of the list, nothing else changes |
| ClientList.ClientListState.SetStatusOf | components/ClientList.tsx:109-110 | writes the status to matching clients and to the open client when it has the id |
| ClientList.ClientListState.ToggleStatus | components/ClientList.tsx:107-112 | the enable/disable handler: SetStatus with ToggledStatus of the shown status, open client too |
| ClientList.ClientListState.SuspendToggle | components/ClientList.tsx:114-119 | the suspend handler: SetStatus with SuspendToggled of the shown status, open client too |
| ClientList.ClientListState.Delete | components/ClientList.tsx:121-127 | once confirmed, removes the id and returns to the list view; the open client is left as it was |
| ClientList.ClientListState.Renew | components/ClientList.tsx:129-138 | nothing open returns at once. Otherwise the open client is shifted 30 days from its own expiry, in the list and the details view. On an unparsable or out-of-range date nothing changes |
| ClientList.ClientListState.Collect | components/ClientList.tsx:140-149 | adds the amount to the open client's balance, in the list and in the details view |
| Dashboard.ActiveClients | components/Dashboard.tsx:53 | a subsequence holding exactly the Active clients |
| Dashboard.HotspotClients | components/Dashboard.tsx:54 | a subsequence holding exactly the Hotspot clients |
| Dashboard.ExpiredClients | components/Dashboard.tsx:55 | exactly the clients whose parsable expiry date lies before now (an unparsable one is NaN and never expired) |
| Dashboard.ExpiredStaysExpired | components/Dashboard.tsx:55 | the expiry test: once expired a client stays expired as time passes, and an unparsable expiry never expires |
| Dashboard.PendingClients | components/Dashboard.tsx:56 | exactly the Disabled or Inactive clients |
| Dashboard.KindOf | components/Dashboard.tsx:63-83 | a key selects the default case exactly when it is none of the seven named keys |
| Dashboard.SegmentOf | components/Dashboard.tsx:64-82 | each case returns a subsequence of the clients; the default returns them all. The joined_month case applies the code's local-time month test |
| Dashboard.FilteredData | components/Dashboard.tsx:58-84 | `getFilteredData` under a clock offset returns a subsequence, and every client for an unnamed key |
| Dashboard.UnlistedKeysShowAll | components/Dashboard.tsx:81-82 | the `joined_last_month` and `active_month` keys fall to the default and show everyone |
| Dashboard.ExpiredHotspotExact | components/Dashboard.tsx:75-76 | the expired-hotspot list is the expired part of the hotspot list, exactly the clients both Hotspot and expired |
| Dashboard.LeftWithinPending | components/Dashboard.tsx:77-80 | the clients who left form a subsequence of the pending ones |
| Dashboard.JoinedMonthExact | components/Dashboard.tsx:64-68 | the joined-this-month list holds exactly the clients whose join date passes the code's local-time month test |
| Dashboard.IntendedJoinedMonth | components/Dashboard.tsx:64-68 | the intended list: a subsequence holding exactly the clients whose join date names the current month |
| Dashboard.JoinedMonthEast | components/Dashboard.tsx:64-68 | at offsets east of UTC the code's list is the intended list |
| Dashboard.JoinedMonthMissesWest | components/Dashboard.tsx:64-68 | west of UTC the code's list leaves out a client who joined on the 1st of the current month, whom the intended list holds |
| Dashboard.LocalDateOf | components/Dashboard.tsx:66-67 | the local calendar date of midnight UTC under a clock offset: the day containing that local instant |
| Dashboard.JoinedAsWrittenAgreesEast | components/Dashboard.tsx:66-67 | at offsets east of UTC the code's month test and the intended one agree |
| Dashboard.JoinedAsWrittenWest | components/Dashboard.tsx:66-67 | west of UTC the code's test holds exactly for a join date after the 1st of the current month or on the 1st of the next month |
| Dashboard.FirstOfMonthMissedWest | components/Dashboard.tsx:66-67 | at every offset west of UTC, a client who joined on the 1st of the current month is missed by the code's test but counted by the intended one |
| Dashboard.JoinedAsWrittenMissesFirstDay | components/Dashboard.tsx:66-67 | at UTC-5 a client who joined on 2024-06-01 is not counted in June 2024 |
| Dashboard.DashboardState.UpdateClient | components/Dashboard.tsx:86-89 | matching ids take the edited record |
| Dashboard.DashboardState.QuickSuspend | components/Dashboard.tsx:91-95 | SetStatus with SuspendToggled of the shown status |
| Dashboard.DashboardState.QuickRenew | components/Dashboard.tsx:97-108 | an unknown id returns at once. Otherwise the first client with the id is shifted 30 days and every client with the id gets the date and Active. A failed shift changes nothing |
| Dashboard.DashboardState.constructor | App.tsx:25 | the dashboard works on the shared client registry |
| Billing.Stats | components/Billing.tsx:36-40 | the count is the ledger length, and due plus collected is the sum of all amounts |
| Billing.InvoiceId | components/Billing.tsx:45 | `INV-` followed by the decimal of 1001 plus the ledger length |
| Billing.InvoiceIdInjective | components/Billing.tsx:45 | two ledger lengths give the same invoice id exactly when they are equal |
| Billing.NewInvoice | components/Billing.tsx:44-51 | the new invoice takes its id from the ledger length and every other field from the form |
| Billing.SubmitKeepsSequential | components/Billing.tsx:52 | prepending the new invoice keeps every invoice numbered by the count of older ones |
| Billing.SequentialIdsDistinct | components/Billing.tsx:45-52 | a ledger built by submissions has pairwise distinct ids |
| Billing.FirstInvoiceId | components/Billing.tsx:45 | the first invoice is INV-1001 |
| Billing.ThreeSubmissions | components/Billing.tsx:45-52 | three submissions from empty: newest first, numbered, INV-1001 last |
| Billing.PaidInvoiceCollected | components/Billing.tsx:37-39 | a new Paid invoice raises only the collected total, by its amount, and the count by one |
| Billing.UnpaidInvoiceDue | components/Billing.tsx:37-39 | a new Unpaid invoice raises only the due total, by its amount |
| Billing.FilteredInvoices | components/Billing.tsx:28-34 | a subsequence holding exactly the invoices matching client or id and the status; All with "" gives the ledger |
| Billing.Ledger.constructor | App.tsx:26 | the ledger starts empty, which is sequentially numbered |
| Billing.Ledger.Submit | components/Billing.tsx:42-55 | prepends the new invoice and keeps the numbering invariant |
| Vouchers.ToggledLayout | components/VoucherDesigner.tsx:290 | Toggle Gradient gives Gradient exactly from Modern, and Modern from any other layout |
| Vouchers.ToggledLayoutTwice | components/VoucherDesigner.tsx:290 | pressed twice it restores Modern and Gradient; Classic and Minimal end at Gradient |
| Vouchers.CodeGroup | components/VoucherDesigner.tsx:84-86 | `Math.floor(low + r * span)` lies in [low, low + span) for r in [0, 1) |
| Vouchers.VoucherCode | components/VoucherDesigner.tsx:83-88 | a code is 12 characters: four digits 1000..9999, '-', four digits 1000..9999, '-', two digits 10..98 |
| Vouchers.Serial | components/VoucherDesigner.tsx:100 | `SN-` followed by the decimal of the number |
| Vouchers.SerialInjective | components/VoucherDesigner.tsx:100 | two numbers give the same serial exactly when they are equal |
| Vouchers.Batch | components/VoucherDesigner.tsx:97-107 | one voucher per draw. The i-th is serial SN-(old count + i + 1001) and Unused. It takes the package's name, price and validity and the current design |
| Vouchers.MakeVoucher | components/VoucherDesigner.tsx:97-107 | one voucher: serial SN-(old count + i + 1001), a 12-character code, Unused with no mobile, the package's name, price and validity, the current design |
| Vouchers.BatchSize | components/VoucherDesigner.tsx:97 | `Array.from({ length: genCount })` makes max(genCount, 0) elements: the count is genCount, or 0 when genCount is not positive |
| Vouchers.BatchSerials | components/VoucherDesigner.tsx:100 | a batch's serials are exactly the next |batch| serial numbers |
| Vouchers.BatchNumbered | components/VoucherDesigner.tsx:100 | the i-th voucher of a batch is serial SN-(old count + 1001 + i) |
| Vouchers.NumberedSerialFresh | components/VoucherDesigner.tsx:100-109 | a serial numbered on from an exactly numbered list never equals a serial already in it |
| Vouchers.SerialsAppend | components/VoucherDesigner.tsx:109 | the serials of a concatenation are the union of the serials of its parts |
| Vouchers.PrependNumberedDistinct | components/VoucherDesigner.tsx:100-109 | vouchers numbered on from an exactly numbered list, put in front of it, leave all serials distinct |
| Vouchers.BatchExtendsRange | components/VoucherDesigner.tsx:100-109 | after prepending a batch the serials are SN-1001 … SN-(1000 + new length) |
| Vouchers.BatchKeepsSerialsExact | components/VoucherDesigner.tsx:97-109 | prepending a batch keeps the invariant: serials exactly SN-1001 … SN-(1000 + n), pairwise distinct |
| Vouchers.ApplyPackageForm | components/VoucherDesigner.tsx:128 | `{ ...p, ...form }` keeps the package id and takes the form fields |
| Vouchers.FirstPackageId | components/VoucherDesigner.tsx:145 | `updated[0]?.id \|\| ''`: the first id, or "" for no packages |
| Vouchers.SelectionAfterDelete | components/VoucherDesigner.tsx:144-145 | deleting the selected package moves the selection to the first remaining one or ""; any other delete keeps it |
| Vouchers.DeleteKeepsSelectionValid | components/VoucherDesigner.tsx:140-148 | a selection naming an existing package (or "") still names one (or is "") after a delete |
| Vouchers.FilteredVouchers | components/VoucherDesigner.tsx:150-154 | a subsequence holding exactly the vouchers whose code, serial or plan matches; "" keeps them all |
| Vouchers.VoucherDesigner.constructor | components/VoucherDesigner.tsx:23-47 | opens with the default design, the three stock packages, p1 selected, no vouchers and the saved designs |
| Vouchers.VoucherDesigner.SelectPackage | components/VoucherDesigner.tsx:361 | sets the selected package id, nothing else |
| Vouchers.VoucherDesigner.SetDesign | components/VoucherDesigner.tsx:266-290 | sets the current design, nothing else |
| Vouchers.VoucherDesigner.Generate | components/VoucherDesigner.tsx:90-112 | no selected package found means nothing changes. Otherwise a batch cut from it with the current design is prepended. The serial invariant is preserved |
| Vouchers.VoucherDesigner.SavePackage | components/VoucherDesigner.tsx:125-138 | an edit merges the form into matching packages. An add appends a package with the fresh id, and selects it only when the list was empty |
| Vouchers.VoucherDesigner.DeletePackage | components/VoucherDesigner.tsx:140-148 | once confirmed, removes the id and fixes up the selection |
| Vouchers.VoucherDesigner.SaveDesign | components/VoucherDesigner.tsx:60-73 | a cancelled or empty name changes nothing; otherwise the current design is prepended under that name |
| Vouchers.VoucherDesigner.DeleteTemplate | components/VoucherDesigner.tsx:75-80 | once confirmed, removes the saved designs with the id |
| Mikrotik.Flipped | components/MikrotikManager.tsx:160 | Enabled and Disabled swap |
| Mikrotik.PushLog | components/MikrotikManager.tsx:128 | `[entry, ...logs].slice(0, 50)`: length min(old + 1, 50), the entry first, the rest a prefix of the old log |
| Mikrotik.PushLogKeepsAll | components/MikrotikManager.tsx:128 | under 50 entries nothing is lost |
| Mikrotik.PushLogDropsOldest | components/MikrotikManager.tsx:128 | at 50 entries exactly the oldest is dropped |
| Mikrotik.PushLogOrder | components/MikrotikManager.tsx:128 | two pushes leave their entries at the head, newest first |
| Mikrotik.HeartbeatEntry | components/MikrotikManager.tsx:121-127 | the heartbeat entry is an info entry on `system,info` with the given id and time |
| Mikrotik.NewRouter | components/MikrotikManager.tsx:136-146 | a new router is Connected with the form's fields, a load in 0..19 and the single interface ether1 up |
| Mikrotik.SelectionAfterRouterDelete | components/MikrotikManager.tsx:155 | deleting the selected router clears the selection; deleting another keeps it |
| Mikrotik.ToggleSecret | components/MikrotikManager.tsx:159-161 | matching secrets flip Enabled/Disabled; ids, order and the other secrets are unchanged |
| Mikrotik.ToggleServer | components/MikrotikManager.tsx:177-179 | matching servers flip; everything else unchanged |
| Mikrotik.ToggleRule | components/MikrotikManager.tsx:195-197 | matching rules flip; everything else unchanged |
| Mikrotik.ToggleSecretTwice | components/MikrotikManager.tsx:160 | toggling a secret twice restores the list |
| Mikrotik.ToggleServerTwice | components/MikrotikManager.tsx:178 | toggling a server twice restores the list |
| Mikrotik.ToggleRuleTwice | components/MikrotikManager.tsx:196 | toggling a rule twice restores the list |
| Mikrotik.ActiveSecrets | components/MikrotikManager.tsx:548 | the Enabled-secret count equals the number of positions holding an Enabled secret. It is at most the total, the total exactly when all are Enabled, and 0 exactly when all are Disabled |
| Mikrotik.ActiveServers | components/MikrotikManager.tsx:552 | the same for hotspot servers: the count equals the number of positions holding an Enabled server |
| Mikrotik.SecretsPartition | components/MikrotikManager.tsx:548 | the active count and the number of Disabled secrets add up to the table size |
| Mikrotik.ServersPartition | components/MikrotikManager.tsx:552 | the active count and the number of Disabled servers add up to the table size |
| Mikrotik.ToggleSecretCount | components/MikrotikManager.tsx:160 | toggling a secret with a unique id moves the active count by exactly one, down from Enabled, up from Disabled |
| Mikrotik.ToggleServerCount | components/MikrotikManager.tsx:178 | the same for hotspot servers |
| Mikrotik.InitialCounts | components/MikrotikManager.tsx:75-84 | the seed tables show 2 active secrets and 1 active server |
| Mikrotik.RouterManager.constructor | components/MikrotikManager.tsx:100-114 | the seed tables, no router selected, the interfaces tab, no dialog open |
| Mikrotik.RouterManager.SelectRouter | components/MikrotikManager.tsx:270 | sets the selected router, the tables unchanged; every other field, the three dialog drafts included, is unchanged |
| Mikrotik.RouterManager.SelectTab | components/MikrotikManager.tsx:351 | sets the tab, the tables unchanged; every other field, the three dialog drafts included, is unchanged |
| Mikrotik.RouterManager.Heartbeat | components/MikrotikManager.tsx:118-132 | with a router selected on the log tab, pushes the heartbeat entry; otherwise nothing. The log stays within 50; every other field, the three dialog drafts included, is unchanged |
| Mikrotik.RouterManager.AddRouter | components/MikrotikManager.tsx:134-150 | appends exactly the new router; every other field, the three dialog drafts included, is unchanged |
| Mikrotik.RouterManager.DeleteRouter | components/MikrotikManager.tsx:152-157 | once confirmed, removes the id and clears a selection of that router; every other field, the three dialog drafts included, is unchanged |
| Mikrotik.RouterManager.TogglePppoe | components/MikrotikManager.tsx:159-161 | the secrets become ToggleSecret of the old ones; every other field, the three dialog drafts included, is unchanged |
| Mikrotik.RouterManager.EditPppoe | components/MikrotikManager.tsx:432 | opens the secret dialog on a draft; every other field, the other two dialog drafts included, is unchanged |
| Mikrotik.RouterManager.SavePppoe | components/MikrotikManager.tsx:163-169 | with a draft, matching secrets become the draft and the dialog closes; with none, nothing changes; every other field, the other two dialog drafts included, is unchanged |
| Mikrotik.RouterManager.DeletePppoe | components/MikrotikManager.tsx:171-175 | once confirmed, removes the secrets with the id; every other field, the three dialog drafts included, is unchanged |
| Mikrotik.RouterManager.ToggleHotspot | components/MikrotikManager.tsx:177-179 | the servers become ToggleServer of the old ones; every other field, the three dialog drafts included, is unchanged |
| Mikrotik.RouterManager.EditHotspot | components/MikrotikManager.tsx:471 | opens the server dialog on a draft; every other field, the other two dialog drafts included, is unchanged |
| Mikrotik.RouterManager.SaveHotspot | components/MikrotikManager.tsx:181-187 | with a draft, matching servers become the draft; with none, nothing changes; every other field, the other two dialog drafts included, is unchanged |
| Mikrotik.RouterManager.DeleteHotspot | components/MikrotikManager.tsx:189-193 | once confirmed, removes the servers with the id; every other field, the three dialog drafts included, is unchanged |
| Mikrotik.RouterManager.ToggleFirewall | components/MikrotikManager.tsx:195-197 | the rules become ToggleRule of the old ones; every other field, the three dialog drafts included, is unchanged |
| Mikrotik.RouterManager.EditFirewall | components/MikrotikManager.tsx:516 | opens the rule dialog on a draft; every other field, the other two dialog drafts included, is unchanged |
| Mikrotik.RouterManager.SaveFirewall | components/MikrotikManager.tsx:199-205 | with a draft, matching rules become the draft; with none, nothing changes; every other field, the other two dialog drafts included, is unchanged |
| Mikrotik.RouterManager.DeleteFirewall | components/MikrotikManager.tsx:207-211 | once confirmed, removes the rules with the id; every other field, the three dialog drafts included, is unchanged |
| Support.SetTicketStatus | components/SupportManager.tsx:42-44 | matching tickets take the new status whatever their old one; the rest are unchanged |
| Support.SetTicketStatusIdempotent | components/SupportManager.tsx:43 | setting a status twice is setting it once |
| Support.SetTicketStatusLastWins | components/SupportManager.tsx:43 | of two status changes the later wins |
| Support.ReopenResolved | components/SupportManager.tsx:42-44 | the Resolved seed ticket T-103 can be set back to Open |
| Support.ToggleAnnouncement | components/SupportManager.tsx:46-48 | matching announcements flip `active`; the rest are unchanged |
| Support.ToggleAnnouncementTwice | components/SupportManager.tsx:47 | toggling twice restores the list |
| Support.DeleteTicket | components/SupportManager.tsx:50-54 | a subsequence holding exactly the tickets without the id |
| Support.FilteredTickets | components/SupportManager.tsx:28-34 | a subsequence holding exactly the tickets matching the status filter and client name or id; All with "" gives all |
| Support.Stats | components/SupportManager.tsx:36-40 | each counter equals the number of positions holding a ticket with its status (Open, Processing) or with Urgent priority. Open plus processing is at most the count; each counter is 0 exactly when no ticket has its value |
| Support.StatusIndices | components/SupportManager.tsx:37-38 | a status count is the number of positions holding a ticket with that status |
| Support.UrgentIndices | components/SupportManager.tsx:39 | the urgent count is the number of positions holding an Urgent ticket |
| Support.UrgentPartition | components/SupportManager.tsx:39 | the urgent counter and the non-urgent tickets add up to the ticket count |
| Support.StatusPartition | components/SupportManager.tsx:36-39 | the Open, Processing and Resolved counts add up to the number of tickets |
| Support.StatusCountsPartition | components/SupportManager.tsx:36-39 | open, processing and resolved together count every ticket |
| Support.InitialStats | components/SupportManager.tsx:36-40 | the seed desk shows 1 open, 1 processing and 1 urgent ticket |
| Support.SupportDesk.constructor | components/SupportManager.tsx:21-22 | the desk opens with the seed tickets and announcements |
| Support.SupportDesk.UpdateTicketStatus | components/SupportManager.tsx:42-44 | the tickets become SetTicketStatus of the old ones |
| Support.SupportDesk.ToggleAnnouncementOf | components/SupportManager.tsx:46-48 | the announcements become ToggleAnnouncement of the old ones |
| Support.SupportDesk.Delete | components/SupportManager.tsx:50-54 | once confirmed, the tickets become DeleteTicket of the old ones |
| Reports.ChartData | components/Reports.tsx:63 | a named timeframe gives its own series; any other falls back to This Month; never empty |
| Reports.TotalsOf | components/Reports.tsx:65-69 | revenue and expenses are the series sums; profit is their difference and also the sum of the per-point margins |
| Reports.ProfitIsSumOfMargins | components/Reports.tsx:65-69 | revenue sum minus expense sum is the sum of the margins |
| Reports.TotalsAppend | components/Reports.tsx:65-69 | totals of two stretches of a series add up |
| Reports.ThisMonthTotals | components/Reports.tsx:9-14 | This Month: revenue 65000, expenses 17300, profit 47700 |
| Reports.ThisYearTotals | components/Reports.tsx:15-22 | This Year: revenue 336000, expenses 76500, profit 259500 |
| Reports.TodayTotals | components/Reports.tsx:23-28 | Today: revenue 14500, expenses 2700, profit 11800 |
| Reports.UnknownTimeframeTotals | components/Reports.tsx:63 | any other timeframe reports This Month's figures |
| Reports.FilteredTxns | components/Reports.tsx:71-77 | a subsequence holding exactly the transactions matching party or id and the type filter; All with "" gives the log |
| Reports.IncomeExpenseSplit | components/Reports.tsx:331-335 | the filtered income and expense sums add up to the sum of the filtered amounts |
| Reports.IncomeSum | components/Reports.tsx:331 | the income sum of a list with only income is its whole sum; with no income it is 0 |
| Reports.ExpenseSum | components/Reports.tsx:335 | the expense sum of a list with only expenses is its whole sum; with no expense it is 0 |
| Reports.IncomeFilterNoExpense | components/Reports.tsx:331-335 | under the Income filter the expense sum is 0 and the income sum is the whole |
| Reports.ExpenseFilterNoIncome | components/Reports.tsx:331-335 | under the Expense filter the income sum is 0 and the expense sum is the whole |
| Reports.IncomeSumCons | components/Reports.tsx:331 | the income sum gains the head's amount exactly when the head is income |
| Reports.ExpenseSumCons | components/Reports.tsx:335 | the expense sum gains the head's amount exactly when the head is an expense |
| Reports.LogIncome | components/Reports.tsx:39-48 | the income of the whole log is 20700 |
| Reports.LogExpense | components/Reports.tsx:39-48 | the expense of the whole log is 38500 |
| Reports.FullLogSums | components/Reports.tsx:39-48 | the whole log shows income 20700 and expense 38500 |

## Left out

- Storage and sign-in are not modelled, because they are I/O with no logic behind them. This covers `localStorage` (the saved voucher designs at components/VoucherDesigner.tsx:40-47, which the designer takes as a constructor parameter, and the sign-in flags at App.tsx:19-21), the login screen, settings, the header clock and the sidebar.
- Rendering is not modelled, because it is pure UI: card previews and their random QR cells, the hotspot login preview, charts, `PACKAGE_DISTRIBUTION` and the export overlay.
- `alert`, `confirm` and `prompt` are left out as dialogs: their answers are parameters (`confirmed`, `answer`), and alert texts are not modelled.
- The 5-second heartbeat interval and its teardown are timers, so only one tick (`Mikrotik.RouterManager.Heartbeat`) is modelled. The report-export delay is left out for the same reason.
- `Math.random` is left out: ids, code draws and the CPU draw are parameters. No uniqueness is claimed for random ids.
- `Date.now`, `new Date()` and `toLocaleDateString` are left out as clock readings: they are parameters (`nowMs`, `nowLocal`, `today`, `createdAt`, `time`).
- Floating point is left out: `Number(...)` of form text, the profit percentage and ARPU in the reports, and `toLocaleString` formatting. Amounts are integers.
- Vouchers.BatchSize: `genCount` is taken as an integer; a fractional or NaN `Number(e.target.value)` is not modelled.
- Text.Lower: only ASCII letters are lower-cased. Unicode case mapping is outside the model, so a search over non-ASCII names can differ from `toLowerCase`.
- CivilDate.ParseIso: only strict `YYYY-MM-DD` text with a four-digit year that names a day that exists parses. Text of that form naming a missing day, such as "2024-02-30", is unparsable here; V8 rolls it over to 2024-03-01 and Firefox gives Invalid Date. The console's `type="date"` inputs never produce such text. The other date formats JavaScript engines also accept by their own rules count as unparsable too.
- CivilDate.ShiftIsoDate: a result past year 9999 is the error BeyondYear9999. `toISOString` would instead produce the expanded-year form `+010000-01-01`. When that error occurs, the renew handlers leave the state unchanged.
- Clients.NewClientForm: requires that today plus 30 days still has a four-digit year, for the same reason.
- ClientList.ClientListState.Renew: on an unparsable expiry date the code's `toISOString` throws before any state is written. The model returns RenewFailed with the state unchanged. How React reports the exception is not modelled.
- Dashboard.DashboardState.QuickRenew: here `toISOString` runs inside the `setClients` updater (components/Dashboard.tsx:101-105). The handler itself does not throw, and its success alert still shows. The updater throws when the console next renders, and with no error boundary React unmounts the whole console. QuickRenewFailed, with the clients unchanged, stands for that crash.
- Dashboard.LocalDateOf: clock offsets are limited to less than a day either way, which covers every real time zone. Daylight-saving changes within a month are not modelled.
- Vouchers.VoucherDesigner.SetDesign: clicking a saved design copies its id, name and date into the current design object too (components/VoucherDesigner.tsx:316, 334). The model keeps only the design fields.
- Reports.ChartData: a timeframe that names an inherited object property (such as `toString`) would find a function rather than fall back. Only the three own keys are modelled; the selector offers no other.
- Billing.InvoiceForm: the status Overdue exists in the type but no handler produces it. It is modelled as a status that counts as due.
- UI-only state is not modelled: view tabs other than the router log tab, modal open flags, search text fields, the router add form's reset, and the log detail dialog.

## Findings

| source | as written | input that shows it | evidently intended | confidence | as-written member | corrected member |
|---|---|---|---|---|---|---|
| components/Dashboard.tsx:66-67 | the join date is parsed as midnight UTC, and its month and year are then read in local time | a client who joined on 2024-06-01, seen on 2024-06-15 in a UTC-5 browser, is counted in May 2024 and missing from June's list | a client counts in the month their join date names | medium, not executed | Dashboard.JoinedInAsWritten, Dashboard.JoinedMonthMissesWest, Dashboard.JoinedAsWrittenMissesFirstDay | Dashboard.JoinedIn, Dashboard.IntendedJoinedMonth |
