# Tix/Voucher Suite ledger — a Dafny model

Tix/Voucher Suite is a single-page app for issuing and checking paper tickets. An operator generates batches of tickets with sequential numbers such as `TIX-000042`, each carrying a QR code. At the door the codes are scanned. The ledger accepts a ticket once and refuses it as a duplicate afterwards. There are two exceptions, both described under "Left out": an import that brings back an earlier state of the tickets, and a camera callback holding an outdated ledger. Reports summarise how many tickets were issued and scanned.

This project models the core of that app:

- **`Numbering`** (`numbering.dfy`): ticket numbers `PREFIX-digits`. It covers reading a stored number back into its sequence value, zero-padding to six digits, and the allocator that picks the next free value for a prefix.
- **`TicketContext`** (`ticket_context.dfy`): the ledger held by the provider, modelled as the class `Ledger` with fields for the tickets, the settings, the single-slot notification and the single-slot undo buffer. Operations:
  - generate, scan, undo the last generation;
  - export and import the data;
  - clear the data, merge settings, show and hide the notification.
- **`ScanPage`** (`scan_page.dfy`): the scan screen. It covers the guard that turns scanned or typed text into a lookup, the manual-entry fallback, the ten-entry history and stopping the scanner after an accepted scan.
- **`GeneratePage`** (`generate_page.dfy`): the generate screen. It covers the 1..200 count gate, the `parseInt || 1` count input, upper-casing of the prefix, the preview and the undo control.
- **`Reports`** (`reports.dfy`): the counts, the status filter and the per-period chart tallies.
- **`Seqs`** and **`Wrappers`**: a generic order-preserving `Filter` with its lemmas, `Reverse`, and `Option`.

Modelling choices:

- **Mutable state becomes classes.** The React state of the provider and of each page becomes a class. Every state setter becomes a field assignment in a method whose `modifies` clause names the object.
- **The ledger allocator is imperative.** It keeps its loop (`Numbering.NextNumber`) and is proved against the functional specification `HighestSequence`.
- **Batch and chart loops are imperative too.** The batch loop (`TicketContext.BuildBatch`) and the chart loop (`Reports.ChartData`) are proved against `Batch` and `Tally`.
- **Clock readings** are an abstract `Time` (a natural number), one reading per operation.
- **UUIDs** come from a supplier. An operation that generates receives the ids it will draw as a parameter, with the requirement (`FreshIds`) that they are distinct and unused.
- **`JSON.parse` results** are datatypes. `ImportInput` is used for imports and `Payload` for scans; each distinguishes malformed text, `null` and any other value with its relevant properties.
- **Notification texts** are the constructors of `Message`. The interpolated values they carry (count, number, scan time) are kept as data.
- **Integer widths.** Ticket counts and sequence values are unbounded integers. The app's own numbers stay far below 2^53, where JavaScript numbers stop being exact, but an imported number can exceed it; see `TicketContext.Ledger.GenerateTickets` under "Left out".

## Model

| member | source | states |
|---|---|---|
| Seqs.Filter | src/pages/Reports.jsx:55-57 | the filtered list keeps exactly the elements satisfying the predicate, never more than the input |
| Seqs.FilterAppend | src/context/TicketContext.jsx:121 | filtering a concatenation filters each part and keeps their order |
| Seqs.FilterKeepsAll | src/context/TicketContext.jsx:121 | a filter that keeps every element returns the list unchanged |
| Seqs.FilterDropsAll | src/context/TicketContext.jsx:121 | a filter that keeps no element returns the empty list |
| Seqs.FilterSplits | src/pages/Reports.jsx:14-15 | a filter and its complement split a list: their sizes add up to its size and their multisets to its multiset |
| Seqs.FilterKeepsDistinct | src/context/TicketContext.jsx:121 | filtering a list whose keys are distinct leaves keys distinct |
| Numbering.Decimal | src/context/TicketContext.jsx:64 | `String(n)` is a non-empty run of digits without a leading zero (unless n is 0) that reads back as n |
| Numbering.Padded | src/context/TicketContext.jsx:64 | the padded sequence part is all digits and reads back as n |
| Numbering.PaddedNeverTruncates | src/context/TicketContext.jsx:64 | padding is max(6, digits) wide, only adds leading zeros and never cuts digits |
| Numbering.ParseTicketNumber | src/context/TicketContext.jsx:50-54 | a number rendered as `${prefix}-${padded n}` is recognised by the prefix pattern and parses back to n |
| Numbering.TicketNumberInjective | src/context/TicketContext.jsx:64 | different sequence values give different ticket numbers |
| Numbering.DigitsValueZero | src/context/TicketContext.jsx:54 | `parseInt(digits, 10)` of a digit run is 0 exactly when every digit is 0 |
| Numbering.SequenceOfShape | src/context/TicketContext.jsx:50-54 | a stored number matches the prefix pattern exactly when it is the prefix, a dash and a non-empty digit run; its value is that run in base 10 |
| Numbering.HighestSequenceBounds | src/context/TicketContext.jsx:47-59 | every number of the prefix has a sequence value at most the highest one |
| Numbering.HighestSequenceAttained | src/context/TicketContext.jsx:47-59 | the allocator's reference definition `HighestSequence` gives 0 or the value of some existing number of the prefix |
| Numbering.NumberAboveHighestIsUnused | src/context/TicketContext.jsx:47-64 | a number of the prefix above the highest value is not in the ledger |
| Numbering.HighestSequenceUnique | src/context/TicketContext.jsx:47-59 | a bound that is attained (or 0) is the highest sequence value |
| Numbering.NextNumber | src/context/TicketContext.jsx:47-59 | the allocator loop returns one more than the highest sequence value among the numbers of the prefix (1 when there is none) |
| TicketContext.Numbers | src/context/TicketContext.jsx:47 | the numbers of the tickets, position by position |
| TicketContext.Ids | src/context/TicketContext.jsx:120 | the ids of the tickets, position by position |
| TicketContext.Batch | src/context/TicketContext.jsx:61-71 | one ticket per supplied id |
| TicketContext.BuildBatch | src/context/TicketContext.jsx:61-71 | the generation loop builds, in order, ticket i with id i, number `prefix-(start+i)`, the given extra and no scan time |
| TicketContext.BatchContinuesSequence | src/context/TicketContext.jsx:61-71 | the i-th generated number parses to the allocator's start plus i; ids, extra and the unscanned state are as given |
| TicketContext.GeneratedNumbersAreNew | src/context/TicketContext.jsx:47-71 | no generated number equals a number already in the ledger |
| TicketContext.BatchNumbersDistinct | src/context/TicketContext.jsx:61-71 | no two tickets of one batch share a number |
| TicketContext.PrependKeepsUnique | src/context/TicketContext.jsx:73 | prepending tickets whose numbers (ids) are unique and new keeps the numbers (ids) of the list unique |
| TicketContext.GenerateKeepsUnique | src/context/TicketContext.jsx:61-73 | prepending a batch keeps numbers unique, and with fresh ids keeps ids unique |
| TicketContext.NextFreeAfterBatch | src/context/TicketContext.jsx:47-73 | after a batch of k tickets starting at s, the next batch of that prefix starts at s + k |
| TicketContext.FirstMatch | src/context/TicketContext.jsx:80-81 | the index of the first ticket matching the id or the number, -1 when none matches |
| TicketContext.Scan | src/context/TicketContext.jsx:79-112 | not found and duplicate leave the tickets as they are; otherwise only the first match is stamped; a scan succeeds iff it changes the list, and only scan times ever change |
| TicketContext.ScanToast | src/context/TicketContext.jsx:83-106 | the scan notification is an error iff no ticket matched, a warning carrying the first scan time iff the scan is a duplicate, a success carrying the ticket's number iff it was accepted |
| TicketContext.RescanIsDuplicate | src/context/TicketContext.jsx:88-98 | after an accepted scan, the same lookup is refused as a duplicate that keeps the first scan time |
| TicketContext.ScanKeepsUnique | src/context/TicketContext.jsx:100-105 | scanning keeps every number and id, so uniqueness is preserved |
| TicketContext.WithoutIds | src/context/TicketContext.jsx:120-121 | the remaining tickets are exactly those whose id is not in the batch |
| TicketContext.UndoRemovesExactlyBatch | src/context/TicketContext.jsx:120-121 | removing a batch's ids from the batch followed by other tickets leaves exactly the other tickets, scanned or not |
| TicketContext.UndoAfterGenerate | src/context/TicketContext.jsx:61-74 | undo right after a generation restores the ticket list from before it |
| TicketContext.UndoKeepsUnique | src/context/TicketContext.jsx:121 | undo keeps numbers and ids unique |
| TicketContext.Merge | src/context/TicketContext.jsx:185-186 | the merged settings have both key sets; patched keys take the patch's value, the rest keep theirs |
| TicketContext.Ledger.constructor | src/context/TicketContext.jsx:10-16 | no tickets, default settings, no notification, nothing to undo |
| TicketContext.Ledger.ShowToast | src/context/TicketContext.jsx:177-179 | the notification becomes the message with its kind and a time stamp |
| TicketContext.Ledger.HideToast | src/context/TicketContext.jsx:181-183 | the notification is cleared |
| TicketContext.Ledger.GenerateTickets | src/context/TicketContext.jsx:45-77 | the returned batch is numbered from the allocator's result, is prepended to the tickets and becomes the undoable generation; settings stay; uniqueness of numbers and ids is preserved |
| TicketContext.Ledger.ScanTicket | src/context/TicketContext.jsx:79-112 | result and new tickets are those of `Scan` on the old tickets, with the matching notification; settings and the undo buffer stay |
| TicketContext.Ledger.UndoLastGeneration | src/context/TicketContext.jsx:114-125 | succeeds iff a non-empty batch is remembered; then removes its ids and forgets it, otherwise changes nothing but the notification; uniqueness is preserved |
| TicketContext.Ledger.ExportData | src/context/TicketContext.jsx:127-142 | the document holds the current tickets and settings, the time and version 1 |
| TicketContext.Ledger.ImportData | src/context/TicketContext.jsx:144-162 | succeeds iff the text parses to a non-null value; each present field then replaces its part, and a failure changes nothing; the undo buffer stays |
| TicketContext.Ledger.ClearAllData | src/context/TicketContext.jsx:171-175 | no tickets and nothing to undo; settings stay |
| TicketContext.Ledger.UpdateSettings | src/context/TicketContext.jsx:185-188 | the settings become the shallow merge with the patch; tickets and undo buffer stay |
| TicketContext.ExportThenImport | src/context/TicketContext.jsx:127-157 | importing an exported document gives the target the source's tickets and settings |
| TicketContext.GenerateThenUndo | src/context/TicketContext.jsx:45-125 | generate then undo restores the tickets and empties the undo buffer, and the second undo it returns is refused |
| Reports.ComputeStats | src/pages/Reports.jsx:12-19 | total is the number of tickets, scanned the number of scanned ones, and notScanned (total - scanned) the number of unscanned ones, between 0 and total |
| Reports.FilterTickets | src/pages/Reports.jsx:52-61 | "scanned" keeps exactly the scanned tickets, "not-scanned" exactly the others, any other filter keeps the list |
| Reports.FiltersPartition | src/pages/Reports.jsx:52-61 | the two status filters partition the tickets (sizes and multisets add up) |
| Reports.BucketIndex | src/pages/Reports.jsx:38 | the position of the first bucket with the key, -1 when no bucket has it |
| Reports.CountTicket | src/pages/Reports.jsx:38-44 | one step of the forEach: a missing bucket is appended with counts 1 and 1 or 0, an existing one is bumped, every other bucket stays |
| Reports.Tally | src/pages/Reports.jsx:24-45 | the whole fold: at most one bucket per ticket, and at least one when there are tickets |
| Reports.ChartData | src/pages/Reports.jsx:22-45 | the bucket loop computes `Tally`: buckets in order of first appearance with their counts |
| Reports.CountTicketTotals | src/pages/Reports.jsx:38-44 | counting one ticket adds one generated, and one scanned when it is scanned |
| Reports.CountTicketLookup | src/pages/Reports.jsx:38-44 | counting a ticket creates its bucket if missing and bumps only that bucket's counts |
| Reports.CountTicketKeepsDistinct | src/pages/Reports.jsx:38-40 | counting a ticket keeps bucket keys distinct |
| Reports.CountScannedKey | src/pages/Reports.jsx:42-44 | the scanned tickets of a bucket are at most its tickets |
| Reports.TallyPerKey | src/pages/Reports.jsx:22-45 | a bucket exists for a key iff some ticket falls in it; its generated count is the number of its tickets and its scanned count the number of its scanned tickets |
| Reports.TallyDistinctKeys | src/pages/Reports.jsx:22-45 | the chart has one bucket per key |
| Reports.TallyEntries | src/pages/Reports.jsx:22-45 | every chart entry counts exactly its bucket's tickets and has no more scanned than generated |
| Reports.TallyTotalGenerated | src/pages/Reports.jsx:22-45 | the generated counts add up to the number of tickets |
| Reports.TallyTotalScanned | src/pages/Reports.jsx:22-45 | the scanned counts add up to the number of scanned tickets |
| ScanPage.Gate | src/pages/Scan.jsx:53-57 | only parsed non-null text whose id and number are both non-empty is looked up, by both |
| ScanPage.TrimStart | src/pages/Scan.jsx:78 | drops exactly the leading whitespace, leaving a suffix that starts with a non-whitespace character |
| ScanPage.TrimEnd | src/pages/Scan.jsx:78 | drops exactly the trailing whitespace, leaving a prefix that ends with a non-whitespace character |
| ScanPage.Trim | src/pages/Scan.jsx:78 | `trim()` is a contiguous part of the text; it is empty exactly when the text is blank (all whitespace), otherwise it starts and ends with non-whitespace |
| ScanPage.QrCodeFindsItsTicket | src/components/TicketCard.jsx:5-8 | a ticket's own QR code passes the guard and, with unique ids and numbers, finds that ticket: accepted iff unscanned, a duplicate iff scanned |
| ScanPage.Remember | src/pages/Scan.jsx:66 | the history becomes the new record followed by at most nine older ones, ten at most |
| ScanPage.HistoryKeepsLatest | src/pages/Scan.jsx:66 | after any sequence of scans the history is the latest records, newest first, then the older history, cut at ten |
| ScanPage.ScanScreen.constructor | src/pages/Scan.jsx:9-12 | not scanning, no last scan, empty history and input |
| ScanPage.ScanScreen.StartScanning | src/pages/Scan.jsx:16-43 | with a camera the scanner runs, with none nothing changes, and a failure leaves it off |
| ScanPage.ScanScreen.StopScanning | src/pages/Scan.jsx:45-51 | the scanner is off |
| ScanPage.ScanScreen.OnManualInput | src/pages/Scan.jsx:144 | the manual input becomes the typed text |
| ScanPage.ScanScreen.Record | src/pages/Scan.jsx:58-66 | the record is shown as the last scan and pushed onto the history, which stays within ten |
| ScanPage.ScanScreen.HandleScanResult | src/pages/Scan.jsx:53-75 | ignored text changes nothing; otherwise the ledger scans, the attempt is recorded, and the scanner stops iff the scan was accepted |
| ScanPage.ScanScreen.HandleManualScan | src/pages/Scan.jsx:77-97 | blank input changes nothing; unparsable input is looked up untrimmed as a number without stopping the scanner; parsable input goes through the scan guard, and input the guard drops changes nothing but the input; the ledger's notification, settings and undo buffer are stated for every branch; the input is then cleared |
| GeneratePage.CountFromInput | src/pages/Generate.jsx:52 | NaN and 0 become 1; any other integer is kept, so the count is never 0 |
| GeneratePage.UpperCase | src/pages/Generate.jsx:62 | same length, every lower-case letter replaced by its capital, the result upper-case |
| GeneratePage.UpperCaseIdempotent | src/pages/Generate.jsx:62 | upper-casing twice is upper-casing once, and an upper-case text is unchanged |
| GeneratePage.GenerateScreen.constructor | src/pages/Generate.jsx:9-13 | count 10, prefix "TIX", empty extra, no preview |
| GeneratePage.GenerateScreen.OnCountInput | src/pages/Generate.jsx:52 | the count becomes the input's `parseInt || 1` |
| GeneratePage.GenerateScreen.OnPrefixInput | src/pages/Generate.jsx:62 | the prefix becomes the upper-cased input |
| GeneratePage.GenerateScreen.OnExtraInput | src/pages/Generate.jsx:73 | the extra information becomes the typed text |
| GeneratePage.GenerateScreen.HandleGenerate | src/pages/Generate.jsx:15-23 | a count outside 1..200 changes nothing; otherwise exactly `count` tickets are generated, shown in the preview and offered for undo, with the success notification |
| GeneratePage.GenerateScreen.HandleUndo | src/pages/Generate.jsx:29-34 | succeeds iff the undo control was shown; then the batch is removed, the undo buffer emptied and the preview cleared, otherwise nothing changes but the error notification |
| GeneratePage.GenerateThenUndoOnPage | src/pages/Generate.jsx:15-34 | generating and undoing on the page restores the tickets and hides both the preview and the undo control |

## Left out

- Persistence: the tickets and settings are saved to and loaded from `localStorage` on every change. Storage is outside the model; the ledger starts from its defaults.
- File plumbing for export and import: the Blob, the download link and the FileReader. The export file name carries `Date.now()`. The read error of FileReader (`onerror`) would give a "Failed to read file" notification and no state change; it is not modelled.
- JSON text: parsing and printing are abstracted. Parsed values are given as `ImportInput` and `Payload`. Property values of another JSON type (a number as id, an object as tickets) are not modelled. `TicketContext.Reread` stands for `JSON.parse(JSON.stringify(doc))`.
- `TicketContext.Ledger.ImportData`: the imported tickets replace the ledger's tickets unchecked (src/context/TicketContext.jsx:150-151). Two consequences follow:
  - An import can reset scan times. Importing a file exported before a ticket was scanned brings back its null `scannedAt`, and the ticket is then accepted a second time.
  - An import can bring duplicate numbers or ids, such as two tickets numbered `TIX-000001`.
  So uniqueness of numbers and ids, and scan times only ever going from null to set, are proved for generate, scan and undo (`GenerateKeepsUnique`, `ScanKeepsUnique`, `UndoKeepsUnique`, `Scan`), not for import.
- `TicketContext.Ledger.ImportData`: a `tickets` or `settings` property that is present but falsy (`0`, `""`, `false`) is modelled as absent, which is how the source treats it.
- `TicketContext.Ledger.GenerateTickets`: the prefix pattern is built with `new RegExp` without escaping, while the model matches the prefix literally. They differ for prefixes holding regular-expression metacharacters. For example, with prefix `A+` the existing `A+-000001` is not matched, so numbering restarts at 1; a prefix such as `(` makes the source throw.
- Date formatting: `toISOString`, `toLocaleString` and `toLocaleDateString` are out of scope, and so are the daily, weekly and monthly period keys of the chart. The chart's bucket key is an abstract function `bucketOf` of the ticket.
- `Reports.ChartData`: the final sort of the buckets by date is not modelled; the model keeps the buckets in insertion order.
- `Reports.ComputeStats`: the scan-rate percentage is not modelled, because it is a floating-point value formatted with `toFixed`.
- The notification's automatic hiding after three seconds is a timer in the notification component, not modelled; `HideToast` is the operation it calls.
- The camera and the QR decoder (`BrowserQRCodeReader`, device listing, `reset`) are not modelled. `StartScanning` takes the device count, or None when the camera API throws.
- `alert` dialogs (count out of range, no camera) have no state effect and are not modelled. Printing (`window.print`) is not modelled either.
- `GeneratePage.UpperCase`: only the ASCII letters a-z are upper-cased. The Unicode case mappings of `toUpperCase` are not modelled (for example `ß` becoming `SS`, which changes the length).
- `GeneratePage.CountFromInput`: parseInt's own reading of the input text is not modelled. It takes the parsed integer, or None for NaN.
- React's asynchronous state updates are not modelled; the model runs each handler against the current state. In the app, the camera callback keeps the `handleScanResult` and `scanTicket` of the render in which scanning started, so it looks tickets up in the ticket list of that moment. Two consequences follow:
  - A ticket accepted after scanning started is accepted again. For example, it is accepted through manual entry, which does not stop the camera, and its QR code is then shown to the camera.
  - An accepted camera scan writes back that old list with one ticket stamped. This undoes every ledger change made since scanning started (other scans, generations, imports).
  Two scans in the same render likewise see the same tickets.
- `TicketContext.Ledger.GenerateTickets`: the allocator's arithmetic is unbounded in the model, while the app computes in double-precision numbers. The app's own numbers stay small, but an import can bring in any number. For example, after importing `TIX-9007199254740992` (2^53), `parseInt` gives 2^53 and `n + 1` rounds back to 2^53. The next batch then reuses `TIX-9007199254740992`, and every later `nextNumber++` leaves the value unchanged. For such ledgers `GeneratedNumbersAreNew`, `BatchNumbersDistinct` and `GenerateKeepsUnique` hold for the model but not for the app.
- The Settings page, the navigation bar and the rendering of the ticket card (apart from the QR payload it encodes) are not modelled. The `maxUsers` setting is stored and merged but nothing else uses it.
