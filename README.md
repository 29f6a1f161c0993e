# Fast BI iGreen dashboard — a Dafny model

Fast BI is the reporting dashboard of an energy-credit retailer. A Flask
back end queries PostgreSQL for client, supplier ("fornecedora") and
licensee reports, dashboard KPIs and a TV wall payload. Browser scripts
render cards, tables, charts and a green-score page, and keep the user's
card layout and theme in `localStorage`. This project models the
deterministic glue of that system and proves what it promises:

- **Query builders.** The live report queries, plus the two older copies
  of the query layer. A query is its text pieces (fixed SQL, `%s`
  placeholders, a bare `%`) plus its positional parameters. `SqlText.Binds`
  says every parameter lines up with its placeholder. Every builder is
  proved to bind. Each optional clause (supplier filter, date bounds,
  `LIMIT`, `OFFSET`) is proved to appear exactly when its value is
  appended. The by-ID detail fetch is proved to split the IDs into
  consecutive batches that concatenate back to the input.
- **Dashboard queries.** The month window with its December rollover, the
  twelve-slot monthly fold, the normalisation of summary, pie and map rows,
  and the TV payload with its backlog merge.
- **Header resolution.** The exact lookup and its two fallbacks, one header
  per key, and the differences between the three copies.
- **Routes.** Month and year checks as Python's `re.match` reads them,
  `int()` parsing, the `limit` and `days` rules, and row-to-JSON shaping.
  Also the report page's page and offset arithmetic, the spreadsheet
  formula-injection sanitisers (safe results, idempotent) and which export
  builds which workbook.
- **Spreadsheet writers.** Both writers are classes whose methods append
  rows and set column widths in loops. Each method is proved equal to a
  function of the inputs: width bounds, filter range, colour-scale column
  and which sheets are created.
- **Browser state.** The card-visibility map, where a missing id means
  visible. The sort state machine of the summary tables and the saved card
  order. The pagination window with ellipses, and the row search filters.
  The theme manager and the sidebar toggles as classes over a `localStorage`
  map. The score colour bands, the green-score view modes, and the TV
  page's change classification and chart lifecycle.

The database, the DOM, the clock and the chart and spreadsheet libraries
are parameters or state fields. Integers stand for every number.

## Model

| member | source | states |
|---|---|---|
| Common.Lower | backend/db/reports_base.py:44 | `lower()` maps each ASCII capital to its small letter and keeps every other character, position by position |
| Common.LowerIdempotent | backend/db/utils.py:109 | lower-casing twice equals lower-casing once, so a type that is already lower case is looked up unchanged |
| Common.Upper | static/js/green_score.js:473 | `toUpperCase()` maps each ASCII small letter to its capital, position by position |
| Common.LowerOfUpper | static/js/green_score.js:473 | upper- then lower-casing gives the lower-case form, so an upper-cased lookup key still matches case-insensitively |
| Common.Find | backend/db/utils.py:125 | the index of the first occurrence of the separator, or none when it does not occur |
| Common.LastField | backend/db/utils.py:125 | `split(sep)[-1]`: the whole text when the separator is absent, otherwise a suffix that directly follows an occurrence of the separator; it never contains the separator and is never longer than the text |
| Common.ReplaceChar | backend/db/utils.py:128 | `replace('_', ' ')` changes exactly the matching characters and keeps the length |
| Common.RemoveChar | backend/db/utils.py:125 | `replace('"', '')` leaves no quote, never lengthens, and leaves a quote-free text unchanged |
| Common.RemoveCharOne | backend/db/utils.py:125 | removing the quote from one character leaves nothing when it is the quote and the character otherwise |
| Common.RemoveCharConcat | backend/db/utils.py:125 | removing the quote from a concatenation removes it from each part and keeps them in order |
| Common.StripBy | backend/db/utils.py:128 | `strip()` (Python's whitespace) and `trim()` (JavaScript's): never lengthens, and a non-empty result neither starts nor ends with a blank |
| Common.StripBySlice | backend/db/utils.py:128 | the stripped text is the original with only blanks removed: it sits in the original between a run of blanks before it and a run of blanks after it |
| Common.TitleShape | backend/db/utils.py:128 | `title()` keeps the length and the letter positions, upper-cases the first letter of each word and lower-cases the rest |
| Common.TitleIdempotent | backend/db/utils.py:128 | a second `title()` changes nothing |
| Common.StrLeTotal | backend/db/utils.py:14 | Python's string order is total |
| Common.StrLeTrans | backend/db/utils.py:14 | Python's string order is transitive |
| Common.StrLeAntisymmetric | backend/db/utils.py:14 | two texts each at most the other in Python's string order are equal |
| Common.InsertString | backend/db/utils.py:14 | one insertion step of `sorted`: the result is sorted and holds the old elements plus the new one |
| Common.SortStrings | backend/db/utils.py:14 | `sorted(names)` is sorted and a permutation of its input |
| Common.SortedPairs | backend/db/utils.py:14 | in a sorted list every element is at most every later one |
| Common.SupplierFilterCases | backend/db/reports_base.py:117 | the supplier filter applies exactly to a non-empty name whose lower-case form is not 'consolidado'; never to an absent name; and it is unaffected by the name's case |
| Common.PadDigits | backend/routes/api.py:46-48 | a number written with exactly the given number of digits |
| Common.PadDigitsValue | backend/routes/api.py:46-48 | a padded number that fits reads back as itself |
| Common.DigitsCanonical | backend/routes/api.py:46-48 | reading a digit run and padding its value to the same width gives the run back |
| Common.DigitsBound | backend/routes/api.py:46-48 | a run of k digits denotes a number below 10^k |
| SqlText.SlotRoles | backend/db/reports_base.py:118-126 | the placeholders of the text, in order, never more than its pieces |
| SqlText.Roles | backend/db/reports_base.py:119-126 | the roles of the parameter list, one per parameter and in order |
| SqlText.SlotRolesAppend | backend/db/reports_base.py:128 | the placeholders of concatenated text are those of each part in order |
| SqlText.DirectivesOfPctFree | backend/db/executor.py:20 | the driver reads a text without a bare '%' as exactly its placeholders |
| SqlText.BoundPlaceholders | backend/db/reports_base.py:107-170 | in a query whose parameters line up with its placeholders, the placeholder count equals the parameter count and a role has a placeholder iff some parameter has it |
| SqlText.Cond | backend/db/reports_base.py:118 | a `col = %s` condition holds exactly one placeholder |
| SqlText.Fixed | backend/db/reports_base.py:16-21 | fixed-text conditions, one per text, in order |
| SqlText.Where | backend/db/reports_base.py:121 | the WHERE clause is empty when there are no conditions |
| SqlText.CondRolesAppend | backend/db/reports_base.py:118 | appending conditions appends their placeholders |
| SqlText.FixedRoles | backend/db/reports_base.py:16-21 | fixed conditions add no placeholder and no bare '%' |
| SqlText.JoinAndRoles | backend/db/reports_base.py:121 | `" AND ".join` keeps the placeholders of the conditions in order and adds none |
| SqlText.WhereRoles | backend/db/reports_base.py:121 | the WHERE clause holds the conditions' placeholders in order |
| SqlText.PagingSlotRoles | backend/db/reports_base.py:123-126 | the LIMIT placeholder appears iff a limit is given and the OFFSET one iff the offset is positive, in that order |
| SqlText.StmtDirectives | backend/db/reports_base.py:128 | the driver reads a report statement's placeholders as the WHERE ones followed by LIMIT then OFFSET |
| SqlText.CondInStmt | backend/db/reports_base.py:121-128 | every condition's text ends up in the statement |
| SqlText.SupplierParams | backend/db/reports_base.py:117-119 | the supplier parameter is present iff the filter applies, and then it is the name itself |
| SqlText.PagingParams | backend/db/reports_base.py:123-126 | `[limit]` iff limit is not None, then `[offset]` iff offset > 0 |
| SqlText.SupplierRoles | backend/db/reports_base.py:117-119 | the supplier parameters carry the supplier role exactly when the filter applies |
| SqlText.SupplierCond | backend/db/reports_base.py:118 | the supplier condition holds one supplier placeholder |
| SqlText.SupplierConds | backend/db/reports_base.py:117-118 | the supplier condition is appended iff the filter applies |
| SqlText.FilteredStmtBinds | backend/db/reports_base.py:107-128 | leading conditions with their parameters, then the supplier condition and parameter when the filter applies, then LIMIT and OFFSET: each parameter lines up with its placeholder |
| SqlText.FixedParts | backend/db/reports_base.py:16-25 | a builder made of fixed text and fixed conditions meets the shared builder preconditions |
| SqlText.Filtered | backend/db/reports_base.py:107-128 | a report query binds, and its parameters are the leading ones, then [supplier?], then [limit?], then [offset?] |
| SqlText.FixedQuery | backend/db/reports_base.py:9-25 | a fixed-text builder's query binds and its parameters are [supplier?] ++ [limit?] ++ [offset?] |
| SqlText.BuildFixed | backend/db/reports_base.py:16-25 | the appends of a fixed-text builder produce exactly FixedQuery |
| SqlText.BuildFiltered | backend/db/reports_base.py:113-128 | the step-by-step appends of where clauses and params produce exactly Filtered |
| SqlText.SupplierCondsRoles | backend/db/reports_base.py:117-119 | appending the supplier condition appends exactly the supplier parameter's role |
| SqlText.PagingPlaceholders | backend/db/reports_base.py:123-126 | in a bound query, LIMIT appears iff limit is not None and OFFSET iff offset > 0 |
| SqlText.SupplierParamsRoles | backend/db/reports_base.py:117-119 | the supplier parameters never hold a LIMIT or OFFSET role |
| SqlText.OriginWhitelists | database.py:111 | every origin the root module accepts the live one accepts too, and 'APP' is accepted only by the live one (backend/db/reports_base.py:19) |
| SqlText.BatchesFlatten | backend/db/reports_base.py:100-101 | the batches concatenate back to the ID list |
| SqlText.BatchesSizes | backend/db/reports_base.py:100-101 | each batch is non-empty and at most `batch_size` long, and every batch but the last is exactly that long |
| SqlText.FlattenAppend | backend/db/reports_base.py:103 | extending by one batch's rows after another's concatenates them in order |
| SqlText.BatchesFrom | backend/db/reports_base.py:100-101 | the batches from index i are the clamped slice `[i:i+size]` followed by the batches from i + size |
| SqlText.BindsAccepted | backend/db/executor.py:20 | a query whose parameters line up with its placeholders passes the driver's formatting check |
| SqlText.ExecuteQuery | backend/db/executor.py:9-25 | a query the driver rejects gives [] (the error is caught); a bound query gives the database's rows |
| SqlText.FetchOne | backend/db/executor.py:30-47 | the first row exactly when the query returns rows |
| SqlText.FirstColumn | backend/db/reports_base.py:26 | `[r[0] for r in results]` when every row has a column; a row without one raises and the except gives [] |
| SqlText.CountOf | backend/db/reports_specific.py:45-48 | 0 when the row, or its first column, is absent or None; otherwise that column |
| SqlText.FieldKey | backend/db/utils.py:114 | a field comes back under its alias, or under its text when it has none |
| SqlText.Col | backend/db/reports_base.py:55 | a plain column's key is the column |
| SqlText.As | backend/db/reports_base.py:56 | an aliased field's key is the alias |
| SqlText.JoinFor | backend/db/reports_base.py:94-95 | the consultant join is added iff a field starts with 'co.' |
| SqlText.IdsQueryText | backend/db/reports_base.py:93-97 | the by-ID query text holds exactly one placeholder, for the ID list |
| SqlText.ByIdsBinds | backend/db/reports_base.py:101 | binding a batch as the one parameter lines up with that placeholder |
| SqlText.OneSlot | backend/db/reports_base.py:86 | a text with one placeholder between fixed parts is read as that one placeholder |
| SqlText.FetchAllCons | backend/db/reports_base.py:102-103 | the rows of a batch list are the first batch's rows followed by the rest |
| SqlText.FetchStep | backend/db/reports_base.py:100-103 | one turn of the batch loop: the rows still to come are the current batch's rows followed by those of the later batches |
| SqlText.FetchInBatches | backend/db/reports_base.py:100-104 | the loop returns every batch's rows concatenated in batch order; a batch size of 0 raises and a negative one makes an empty range, both giving [] |
| JsonStore.GetItem | static/js/dashboard_card_visibility.js:32 | `getItem` gives the stored text exactly when the key is present |
| JsonStore.HexQuad | static/js/dashboard_card_visibility.js:43 | the four hexadecimal digits of a `\u` escape denote a value below 0x10000 |
| JsonStore.EscapeChar | static/js/dashboard_card_visibility.js:72 | `JSON.stringify` writes a character as a non-empty text with no raw control character and no bare quote; a character from U+0020 other than the quote and the backslash stands for itself |
| JsonStore.Escape | static/js/dashboard_card_visibility.js:72 | a written string body is never shorter than the string |
| JsonStore.EscapedPrintable | static/js/dashboard_card_visibility.js:72 | a written string body holds no raw control character (below U+0020), which `JSON.parse` would refuse |
| JsonStore.ReadChar | static/js/dashboard_card_visibility.js:43 | `JSON.parse` reads one character of a string body and always consumes input; a raw control character is refused, and a backslash escape other than `\u` is read exactly when it is one of `\" \\ \/ \b \f \n \r \t` |
| JsonStore.ReadString | static/js/dashboard_card_visibility.js:43 | reading a string literal always consumes input up to its closing quote |
| JsonStore.HexDigitValue | static/js/dashboard_card_visibility.js:43 | a hexadecimal digit that `JSON.stringify` writes reads back as its value |
| JsonStore.ReadCharEscaped | static/js/dashboard_card_visibility.js:43 | each character as `JSON.stringify` writes it (short escape, `\u00XX` or itself) reads back as that character, leaving what follows |
| JsonStore.ReadEscaped | static/js/dashboard_card_visibility.js:43 | a string written by `JSON.stringify`, control characters included, reads back as itself and the reader stops right after its closing quote |
| JsonStore.ControlEscapes | static/js/dashboard_card_visibility.js:72 | a line feed is written `\n` and U+0001 `\u0001`, and `"\u0001"` reads back as U+0001 |
| JsonStore.Get | static/js/dashboard_card_visibility.js:62 | `o[k]` is undefined exactly when no member has the key, else the value of that member (the only one, when keys are unique) |
| JsonStore.IndexSlot | static/js/dashboard_card_visibility.js:137 | a new array-index key goes after the leading array indices no greater than it, and before the first key that is not one of those |
| JsonStore.Put | static/js/dashboard_card_visibility.js:137 | after `o[k] = v` the key reads v and every other key reads as before |
| JsonStore.PutPlaces | static/js/dashboard_card_visibility.js:137 | an existing key leaves every key in its place; a new array-index key (such as "12") is inserted in its numeric place ahead of the other keys; any other new key goes last |
| JsonStore.PutGet | static/js/dashboard_card_visibility.js:137 | after `o[k] = v`, k reads v and any other key reads what it read before |
| JsonStore.InsertGet | static/js/dashboard_card_visibility.js:137 | a new member inserted anywhere reads as its value and leaves every other key's value unchanged |
| JsonStore.Assign | static/js/dashboard_card_visibility.js:137 | assigning a key that is present or not an array index: the key reads the value, the others are unchanged, keys keep their places, and a new one goes last |
| JsonStore.InsertUnique | static/js/dashboard_card_visibility.js:137 | inserting a member whose key is new keeps the keys unique |
| JsonStore.InsertOrdered | static/js/dashboard_card_visibility.js:137 | inserting an array index after the leading indices no greater than it keeps array indices first and ascending |
| JsonStore.InsertIsObject | static/js/dashboard_card_visibility.js:137 | inserting a new array index in its slot keeps the keys unique and in property order |
| JsonStore.PutUnique | static/js/dashboard_card_visibility.js:137 | assigning a member keeps the keys unique and in JavaScript's property order (array indices first, ascending, then insertion order) |
| JsonStore.IndexKeysFirst | static/js/dashboard_card_visibility.js:137 | assigning "12" after "b" lists "12" first, as a JavaScript object does |
| JsonStore.Build | static/js/dashboard_card_visibility.js:43 | the object built by assigning members in order has unique keys in property order |
| JsonStore.IndexSlotAll | static/js/dashboard_card_visibility.js:43 | a new array index no smaller than every key, all of them array indices, goes last |
| JsonStore.PutLast | static/js/dashboard_card_visibility.js:43 | the last member of an object, assigned to the members before it, goes back last |
| JsonStore.BuildUnique | static/js/dashboard_card_visibility.js:43 | assigning the members of an object (unique keys in property order) in its order rebuilds it as it is |
| JsonStore.ParseSettings | static/js/dashboard_card_visibility.js:43 | a parsed object of booleans has unique keys in property order |
| JsonStore.ReadBoolText | static/js/dashboard_card_visibility.js:43 | a written boolean reads back as itself |
| JsonStore.ReadMembersText | static/js/dashboard_card_visibility.js:43 | the written members of a non-empty object read back as those members |
| JsonStore.SettingsRoundTrip | static/js/dashboard_card_visibility.js:72 | `JSON.parse(JSON.stringify(o))` gives back o, keys and their order included, for every object of booleans |
| JsonStore.ReadItemsText | static/js/dashboard_controls.js:668-689 | the written items of a non-empty array of ids read back as those ids |
| JsonStore.IdsRoundTrip | static/js/dashboard_controls.js:668-689 | `JSON.parse(JSON.stringify(ids))` gives back the ids of an array of strings, whatever characters they hold |
| CardVisibility.CardLabel | static/js/dashboard_card_visibility.js:9-19 | each of the nine known cards has a non-empty name |
| CardVisibility.LabelKnownOrId | static/js/dashboard_card_visibility.js:87 | a known card shows its name and any other card its id, so a caption is empty only for an empty id |
| CardVisibility.AllShown | static/js/dashboard_card_visibility.js:36-40 | every card on the page maps to true and nothing else has a key |
| CardVisibility.Loaded | static/js/dashboard_card_visibility.js:31-51 | nothing saved: every card shown; unparsable text: {}; otherwise the parsed object |
| CardVisibility.LoadedShowsAll | static/js/dashboard_card_visibility.js:36-47 | with nothing saved, or unparsable saved text, no card reads as exactly false, so every card stays visible |
| CardVisibility.LoadAfterSave | static/js/dashboard_card_visibility.js:71-72 | an object that was saved is exactly what the next load returns |
| CardVisibility.Displays | static/js/dashboard_card_visibility.js:59-67 | a card gets display 'none' iff its value is exactly false and '' otherwise; elements that are not cards keep their display |
| CardVisibility.ModalRows | static/js/dashboard_card_visibility.js:83-114 | one modal row per card |
| CardVisibility.ModalRowAt | static/js/dashboard_card_visibility.js:85-101 | row i names card i, shows its label, and is checked iff the card's value is not exactly false |
| CardVisibility.FromRows | static/js/dashboard_card_visibility.js:133-138 | the object the save handler builds is a well-formed object: unique keys, with the array-index keys first in numeric order |
| CardVisibility.FromRowsGet | static/js/dashboard_card_visibility.js:133-138 | in the object the save handler builds, each card id reads the state of the last row that names it, and an id no row names is absent |
| CardVisibility.ModalLastChecked | static/js/dashboard_card_visibility.js:85-101 | the modal has exactly one row per card, so the last row naming a card carries that card's box state, and no row names any other id |
| CardVisibility.ModalRoundTrip | static/js/dashboard_card_visibility.js:77-140 | saving the modal as it was filled keeps every card's visibility and records no other key |
| CardVisibility.BuildRows | static/js/dashboard_card_visibility.js:85-114 | the `forEach` builds exactly the modal rows |
| CardVisibility.Dashboard.constructor | static/js/dashboard_card_visibility.js:22-26 | the page starts with the given storage, cards and element presence, no inline display and no modal rows |
| CardVisibility.Dashboard.LoadCardVisibility | static/js/dashboard_card_visibility.js:31-51 | the loop's object equals Loaded |
| CardVisibility.Dashboard.ApplyCardVisibility | static/js/dashboard_card_visibility.js:54-68 | the cards' displays follow the given object, or the loaded one when none is given; storage and rows are unchanged |
| CardVisibility.Dashboard.SaveCardVisibility | static/js/dashboard_card_visibility.js:71-74 | the object's text replaces the saved one and is applied |
| CardVisibility.Dashboard.PopulateConfigModal | static/js/dashboard_card_visibility.js:77-115 | without the list element nothing changes; otherwise the rows are rebuilt from the loaded object |
| CardVisibility.Dashboard.RowClick | static/js/dashboard_card_visibility.js:104-111 | a click anywhere on a row flips that row's box exactly once (by the browser on the input, by the handler elsewhere) and changes nothing else |
| CardVisibility.Dashboard.SaveConfig | static/js/dashboard_card_visibility.js:132-142 | a fresh object built from every row's box replaces the saved one wholesale and is applied |
| CardVisibility.Dashboard.Initialize | static/js/dashboard_card_visibility.js:220-233 | with every element present the saved visibility is applied; otherwise nothing changes |
| DashboardControls.VisibleCases | static/js/dashboard_controls.js:69 | a card without a saved key is visible, and a saved card is visible iff its value is true |
| DashboardControls.LoadVisibility | static/js/dashboard_controls.js:43-46 | {} when nothing (or '') is stored; `JSON.parse` throws exactly on unparsable text; a parsed object has unique keys |
| DashboardControls.LoadAfterSave | static/js/dashboard_controls.js:43-50 | the object saved is the object loaded next |
| DashboardControls.Marked | static/js/dashboard_controls.js:67-72 | each listed id's flag says whether its visibility matches the wanted value; other ids keep their flag |
| DashboardControls.Defaults | static/js/dashboard_controls.js:93-98 | each checkbox's id maps to true iff its card exists, and no other id has a key |
| DashboardControls.Initial | static/js/dashboard_controls.js:89-103 | the settings applied at start raise exactly when the load raises, and have unique keys |
| DashboardControls.InitialDefaults | static/js/dashboard_controls.js:91-100 | with nothing saved, a card is shown iff it has no checkbox or its element exists |
| DashboardControls.Changed | static/js/dashboard_controls.js:707-708 | a checkbox change raises exactly when the load raises, and keeps the keys unique |
| DashboardControls.ChangeTouchesOnlyThatId | static/js/dashboard_controls.js:706-709 | a change sets only its own id; every other id reads as before, and the saved object loads back unchanged |
| DashboardControls.Page.constructor | static/js/dashboard_controls.js:3-40 | the page starts with the given storage, cards and checkboxes, and no card hidden or box checked yet |
| DashboardControls.Page.ApplyVisibility | static/js/dashboard_controls.js:63-77 | each grid card gets `card-hidden` iff its value is exactly false; nothing else changes |
| DashboardControls.Page.UpdateCheckboxStates | static/js/dashboard_controls.js:80-86 | each box is checked iff its card's value is not exactly false; an unparsable saved text throws and changes nothing |
| DashboardControls.Page.InitializeCardVisibility | static/js/dashboard_controls.js:89-105 | with no saved keys the defaults are saved and applied, otherwise the saved settings are applied; the boxes follow |
| DashboardControls.Page.OnCheckboxChange | static/js/dashboard_controls.js:706-710 | the loaded settings with that one id set are saved and applied; an unparsable saved text throws first and changes nothing |
| DashboardControls.Page.OnDragEnd | static/js/dashboard_controls.js:661-665 | the grid takes the dragged order and that order is saved |
| DashboardControls.Page.RestoreOrder | static/js/dashboard_controls.js:668-690 | the storage and the grid become Restored of the old ones |
| DashboardControls.Page.MoveCards | static/js/dashboard_controls.js:679-682 | each card in turn moves to the end of the grid |
| DashboardControls.CompleteOrder | static/js/dashboard_controls.js:677 | the push loop appends each page id not yet in the order, in page order |
| DashboardControls.Kept | static/js/dashboard_controls.js:674 | the filter keeps exactly the saved ids still on the page, never lengthens and keeps distinct ids distinct |
| DashboardControls.WithoutAll | static/js/dashboard_controls.js:677 | every element except those listed, in order |
| DashboardControls.WithoutAllDistinct | static/js/dashboard_controls.js:677 | dropping elements keeps the others distinct |
| DashboardControls.Completed | static/js/dashboard_controls.js:677 | the completed order holds the kept ids first, unchanged, then every page id |
| DashboardControls.ValidOrder | static/js/dashboard_controls.js:674-677 | the restored order holds exactly the page's ids |
| DashboardControls.AppendAllPermutes | static/js/dashboard_controls.js:679-682 | moving cards that are in the grid keeps its ids, each once |
| DashboardControls.WithoutConcat | static/js/dashboard_controls.js:677 | removing ids from a concatenation removes them from each part |
| DashboardControls.AppendAllShape | static/js/dashboard_controls.js:679-682 | appending distinct ids leaves the other cards first, in order, then those ids in the order given |
| DashboardControls.CompletedShape | static/js/dashboard_controls.js:677 | with the page's cards each once, the completed order is the kept ids then the other page ids in page order |
| DashboardControls.RestoredIsPermutation | static/js/dashboard_controls.js:668-689 | the restored grid holds exactly the page's cards, each once: stale saved ids are dropped and new cards appended |
| DashboardControls.RestoredFollowsSavedOrder | static/js/dashboard_controls.js:671-682 | with a saved order that repeats no id, the grid is the saved ids still present, then the missing page ids in page order |
| DashboardControls.RestoreAfterSave | static/js/dashboard_controls.js:661-684 | restoring right after the drag handler saved the current order changes neither the grid nor the storage |
| DashboardControls.KeptAll | static/js/dashboard_controls.js:674 | filtering by a list that holds every saved id keeps them all |
| DashboardControls.NextState | static/js/dashboard_controls.js:643 | the clicked column becomes current; the direction is 'desc' iff the same column was 'asc', else 'asc' |
| DashboardControls.ClicksAlternate | static/js/dashboard_controls.js:643 | clicking the same header twice flips the direction |
| DashboardControls.CellValue | static/js/dashboard_controls.js:641 | number mode: -Infinity for a missing or non-numeric cell, else the parsed number; text mode: the trimmed lower-case text, '' for a missing cell |
| DashboardControls.BaseLetter | static/js/dashboard_controls.js:645 | the letter `localeCompare` with base sensitivity sees: never a capital; ASCII non-capitals stand for themselves; a changed character becomes a small letter |
| DashboardControls.Folded | static/js/dashboard_controls.js:645 | the text with each character replaced by its base letter, position by position |
| DashboardControls.FoldedIdempotent | static/js/dashboard_controls.js:645 | folding twice folds no further, and lower-casing the text first changes nothing |
| DashboardControls.Compare | static/js/dashboard_controls.js:645 | -Infinity sorts before every number; numbers compare by value; texts compare by their base letters (case and accents ignored), equal exactly when those agree |
| DashboardControls.AccentsAndCaseTie | static/js/dashboard_controls.js:645 | "água" ties with "agua" and "São" with "sao" |
| DashboardControls.BaseLettersOrder | static/js/dashboard_controls.js:645 | "são" sorts before "se": the accent does not move it past a later base letter |
| DashboardControls.DirCompare | static/js/dashboard_controls.js:645 | the descending comparator is the ascending one negated |
| DashboardControls.CompareAntisymmetric | static/js/dashboard_controls.js:645 | swapping the operands negates the comparison |
| DashboardControls.CompareTransitive | static/js/dashboard_controls.js:645 | keys of one sort type compare transitively |
| DashboardControls.DescendingReversesAscending | static/js/dashboard_controls.js:645 | descending order is ascending order read backwards |
| DashboardControls.BeforeTotal | static/js/dashboard_controls.js:645 | any two rows are ordered one way or the other |
| DashboardControls.BeforeTransitive | static/js/dashboard_controls.js:645 | the row order is transitive within one sort type |
| DashboardControls.InsertFront | static/js/dashboard_controls.js:645 | a row that may precede the first of ordered rows may precede all of them |
| DashboardControls.InsertLater | static/js/dashboard_controls.js:645 | the first of ordered rows stays first when the new row goes further in |
| DashboardControls.AppendRows | static/js/dashboard_controls.js:648-650 | appending the sorted rows to the emptied body gives those rows in that order |
| DashboardControls.InsertRow | static/js/dashboard_controls.js:645 | inserting into ordered rows keeps them ordered and adds exactly that row |
| DashboardControls.SortRows | static/js/dashboard_controls.js:645 | the sorted rows are in the comparator's order and a permutation of the input |
| DashboardControls.CompareZero | static/js/dashboard_controls.js:645 | two keys of one sort type compare equal exactly when their comparable forms agree |
| DashboardControls.Ties | static/js/dashboard_controls.js:645 | the rows whose key compares equal to a given key, in order; each comes from the input |
| DashboardControls.TiesCons | static/js/dashboard_controls.js:645 | the ties of a row followed by others are that row's tie, then the others' |
| DashboardControls.InsertRowTies | static/js/dashboard_controls.js:645 | an inserted row goes ahead of every row that compares equal to it, and the order of those rows is kept |
| DashboardControls.PassedRowTies | static/js/dashboard_controls.js:645 | the row an inserted row passes cannot compare equal to it, so passing it keeps the ties in order |
| DashboardControls.SortRowsStable | static/js/dashboard_controls.js:645-647 | `Array.prototype.sort` is stable: rows that compare equal keep their input order |
| DashboardControls.PrependOrdered | static/js/dashboard_controls.js:645 | a row that may precede every ordered row keeps them ordered when put first |
| DashboardControls.Click | static/js/dashboard_controls.js:643-652 | no tbody: nothing changes; otherwise the state is updated (even with no data rows), the td rows are sorted and any placeholder row is kept |
| DashboardControls.ReapplyKeepsState | static/js/dashboard_controls.js:653 | re-sorting a table that has its header and a tbody leaves every sort state as it was |
| DashboardControls.ReapplyOrdersRows | static/js/dashboard_controls.js:653 | re-sorting leaves the rows ordered by the saved column and direction |
| DashboardControls.ReapplyWithoutBody | static/js/dashboard_controls.js:653 | a table with the header but no tbody loses its sort state |
| DashboardControls.Sorter.constructor | static/js/dashboard_controls.js:40 | no table has a sort state at first |
| DashboardControls.Sorter.SortTable | static/js/dashboard_controls.js:643-652 | the states and tables after `sortTable` are Click of the old ones |
| DashboardControls.Sorter.ReapplySort | static/js/dashboard_controls.js:653 | the states and tables after `reapplySort` are Reapplied of the old ones |
| DashboardControls.CardOf | static/js/dashboard_controls.js:506-510 | each request checks the card its description names |
| DashboardControls.SummaryBody | static/js/dashboard_controls.js:541-571 | a failed batch shows the error; a visible card with a response shows its rows or 'Nenhum dado.' |
| DashboardControls.SavedIdsAgree | static/js/dashboard_controls.js:512 | when the card's id is saved, the guard as written and the corrected guard draw the same body |
| DashboardControls.MissingIdStaysLoading | static/js/dashboard_controls.js:512-541 | as written, a card missing from the saved settings is fetched (it is not exactly false) but its table stays on the loading row (it is not truthy); the corrected guard fills it |
| ReportsLoader.Lookup | static/js/reports_loader.js:114-117 | `params.get(k)` is absent exactly when no pair is named `k`, and otherwise is the value of a pair named `k` |
| ReportsLoader.SetFrom | static/js/reports_loader.js:63 | the rest of `params.set(k, v)`: after the place is taken no `k` is left, otherwise exactly one `(k, v)`; other names keep their value and count |
| ReportsLoader.SetParam | static/js/reports_loader.js:63-96 | after `set(k, v)` the name `k` has exactly the one value `v`, and every other name keeps its value and its number of pairs |
| ReportsLoader.SetFromTwice | static/js/reports_loader.js:82 | setting the same name twice from the same place equals setting it once to the later value |
| ReportsLoader.SetParamTwice | static/js/reports_loader.js:63-96 | a later `set` of `page` overrides an earlier one completely, so reusing the shared arguments gives each link only its own page |
| ReportsLoader.ParamOr | static/js/reports_loader.js:115-117 | a present non-empty value is kept; an absent or empty one gives the default |
| ReportsLoader.RequestOf | static/js/reports_loader.js:114-117 | the report type, supplier and page are never empty and default to 'base_clientes', 'Consolidado' and '1' |
| ReportsLoader.PaginationArgs | static/js/reports_loader.js:136-139 | pagination links carry the report type, and the supplier exactly when it is not 'Consolidado' and the report is not rateio_rzk or clientes_por_licenciado; no page yet |
| ReportsLoader.ExportArgs | static/js/reports_loader.js:145-148 | the export link carries the report type, and the supplier exactly when it is non-empty and the report is not one of the two supplier-blind ones |
| ReportsLoader.ExportAlwaysNamesSupplier | static/js/reports_loader.js:116-148 | since the supplier defaults to 'Consolidado', the export link names it for every report except the two supplier-blind ones, unlike the pagination links |
| ReportsLoader.PageItem | static/js/reports_loader.js:83-109 | a numbered entry for page p is the inactive span exactly when p is the current page, otherwise a link to p |
| ReportsLoader.Window | static/js/reports_loader.js:81-85 | the window has `max(0, to - from + 1)` entries, the i-th being the entry for page `from + i` |
| ReportsLoader.Bar | static/js/reports_loader.js:54-105 | the bar is empty exactly when there is at most one page, and otherwise starts with Previous and ends with Next |
| ReportsLoader.NumbersConcat | static/js/reports_loader.js:54-105 | the page numbers of two runs of entries concatenate |
| ReportsLoader.WindowNumbers | static/js/reports_loader.js:81-85 | the window's numbers are `from, from + 1, .., to` |
| ReportsLoader.LeadNumbers | static/js/reports_loader.js:75-79 | page 1 is shown before the window exactly when the window starts after it |
| ReportsLoader.TrailNumbers | static/js/reports_loader.js:87-91 | the last page is shown after the window exactly when the window ends before it |
| ReportsLoader.BarNumbers | static/js/reports_loader.js:72-91 | the bar's numbers are 1 when the window starts later, the window `max(1, page-2) .. min(total, page+2)`, and the last page when the window ends earlier |
| ReportsLoader.PagesIncrease | static/js/reports_loader.js:72-91 | no page number appears twice: the numbers rise strictly from left to right |
| ReportsLoader.EndsAndCurrentShown | static/js/reports_loader.js:72-91 | for a page in 1 .. total, page 1, the last page and the current page all appear |
| ReportsLoader.BarParts | static/js/reports_loader.js:72-91 | each inner position of the bar lies in page 1's part, the window or the last page's part |
| ReportsLoader.NumbersLinkToThemselves | static/js/reports_loader.js:77-109 | every numbered entry links to its own page except the current one, which is the active span |
| ReportsLoader.Buttons | static/js/reports_loader.js:60-101 | Previous is disabled exactly when page <= 1 and otherwise leads to page - 1; Next is disabled exactly when page >= total and otherwise leads to page + 1 |
| ReportsLoader.Gaps | static/js/reports_loader.js:78-88 | for a page in 1 .. total, a '...' follows page 1 exactly when the window starts after page 2, and precedes the last page exactly when it ends before total - 1 |
| ReportsLoader.Render | static/js/reports_loader.js:64-97 | each entry is rendered with the link its target gives, position by position |
| ReportsLoader.LinksLeadToTargets | static/js/reports_loader.js:63-97 | exactly the entries with a target are links, and each link carries the base arguments with `page` set to that target |
| ReportsLoader.BuildPagination | static/js/reports_loader.js:54-105 | the method that reuses one argument object for every link renders exactly the bar, each link to its own page |
| ReportsLoader.RenderBar | static/js/reports_loader.js:54-105 | the rendered bar is the rendering of its head, window and tail, concatenated |
| ReportsLoader.LinkHead | static/js/reports_loader.js:60-79 | the Previous button, page 1 and the first '...' are rendered as specified, and the shared arguments hold the last page set |
| ReportsLoader.LinkTail | static/js/reports_loader.js:87-102 | the trailing '...', the last page and the Next button are rendered as specified, whatever page the shared arguments last held |
| ReportsLoader.LinkLast | static/js/reports_loader.js:87-91 | the trailing '...' and the last page are rendered as specified, and the shared arguments hold the last page set |
| ReportsLoader.SetAgain | static/js/reports_loader.js:82-96 | setting `page` on the shared arguments gives the same link as setting it on the fresh base arguments |
| ReportsLoader.LinkWindow | static/js/reports_loader.js:81-85 | the loop over the window renders exactly the window, each link to its page |
| ReportsLoader.RenderConcat | static/js/reports_loader.js:54-105 | rendering distributes over concatenation |
| ReportsLoader.RenderSnoc | static/js/reports_loader.js:69-102 | appending one entry appends its rendering |
| ReportsLoader.Table | static/js/reports_loader.js:18-52 | no header or body without headers; with headers, one message row when there is no data, else one row per record holding its cells |
| ReportsLoader.BuildRow | static/js/reports_loader.js:45-49 | the inner loop gives one cell per value of the record, in order |
| ReportsLoader.BuildTable | static/js/reports_loader.js:18-52 | `buildTable` leaves exactly the specified table |
| ReportsLoader.SearchDisplays | static/js/reports_loader.js:168-174 | each body row is shown exactly when its whole lower-cased text contains the lower-cased term, and hidden otherwise |
| ReportsLoader.LowerConcat | static/js/reports_loader.js:172 | lower-casing distributes over concatenation |
| ReportsLoader.ContainsWithin | static/js/reports_loader.js:172 | text found in a piece is found in anything the piece is part of |
| ReportsLoader.JoinSplit | static/js/reports_loader.js:172 | a row's text is the text before cell k, cell k, and the text after |
| ReportsLoader.CellMatchShowsRow | static/js/reports_loader.js:168-174 | every row the shared script's per-cell filter would show, this page's whole-row filter shows too |
| ReportsLoader.SpanningTermDiffers | static/js/reports_loader.js:172 | the converse fails: a term spanning two neighbouring cells shows the row here but not under the per-cell filter |
| TableSearch.RowDisplay | static/js/script.js:16-27 | a row gets display '' exactly when one of its cells contains the term case-insensitively, otherwise 'none' |
| TableSearch.Filtered | static/js/script.js:12-28 | one input event sets every row's display to its own match result, position by position |
| TableSearch.ContainsEmpty | static/js/script.js:21 | every text contains the empty term |
| TableSearch.EmptyTermShowsRowsWithCells | static/js/script.js:13-27 | an empty search shows exactly the rows that have at least one cell |
| TableSearch.RowsWithoutCellsHidden | static/js/script.js:17-26 | a row without `td` cells is hidden whatever the term |
| TableSearch.CaseInsensitive | static/js/script.js:13-21 | typing the term in upper case filters exactly as typing it in lower case |
| TableSearch.MatchRow | static/js/script.js:18-24 | the loop sets the flag exactly when some cell matches |
| TableSearch.SearchPage.constructor | static/js/script.js:7-11 | the listener is installed exactly when both the search box and the table body exist; all rows start shown |
| TableSearch.SearchPage.OnInput | static/js/script.js:11-33 | with the listener every row's display becomes its filter result; without it nothing changes |
| Themes.ServerTheme | static/js/theme-manager.js:302-313 | the server's theme is used exactly when the reply is an ok JSON body reporting success with a theme; any failure gives none |
| Themes.InitialTheme | static/js/theme-manager.js:12-36 | `init` takes the server's theme when it is 'light' or 'dark', else a non-empty saved theme, else 'light'; the result is never empty |
| Themes.ServerFailureFallsBack | static/js/theme-manager.js:14-20 | an unreachable, non-ok or unsuccessful server answer leaves the choice to the saved theme or 'light' (see also lines 305-311 of the same file) |
| Themes.Toggled | static/js/theme-manager.js:73-74 | a toggle goes to 'dark' exactly from 'light', and to 'light' from anything else; the result is always 'light' or 'dark' |
| Themes.TwoTogglesRestore | static/js/theme-manager.js:73-75 | two toggles from 'light' or 'dark' come back to it; from any other text they end on 'dark' |
| Themes.LookFor | static/js/theme-manager.js:102-122 | the button shows the sun, 'Modo Claro' and its title in the dark theme, and the moon, 'Modo Escuro' and its title otherwise |
| Themes.LookNamesTheOtherTheme | static/js/theme-manager.js:73-122 | the button's caption always names the theme a toggle would switch to |
| Themes.EarlyAttribute | static/js/theme-manager.js:326-332 | before any manager exists, the root element gets 'dark' exactly when nothing is saved and the system prefers dark; otherwise it keeps the markup's value |
| Themes.ThemeManager.constructor | static/js/theme-manager.js:6-9 | a new manager has no current theme, posts nothing and leaves the early attribute on the root element (see also lines 316-332 of the same file) |
| Themes.ThemeManager.UpdateToggleIcon | static/js/theme-manager.js:102-122 | the button, when present, takes the look of the current theme; nothing else changes |
| Themes.ThemeManager.ApplyTheme | static/js/theme-manager.js:43-71 | 'dark' sets the attribute on html and body, and anything else removes it; the theme becomes current and saved, is posted when non-empty, and drives the button and one `themeChanged` event (see also lines 273-274 of the same file) |
| Themes.ThemeManager.Init | static/js/theme-manager.js:12-32 | the theme `InitialTheme` chooses is applied, saved, posted and announced |
| Themes.ThemeManager.ToggleTheme | static/js/theme-manager.js:73-79 | the other theme is applied, saved, posted and announced, and one notification is shown |
| Themes.ThemeManager.SetTheme | static/js/theme-manager.js:266-270 | only 'light' and 'dark' are applied; any other value changes nothing |
| Themes.ThemeManager.OnSystemChange | static/js/theme-manager.js:335-339 | while no theme is saved, a change of the system colour scheme applies its theme as `setTheme` does: current and saved, 'dark' on html and body or no attribute, the button's look, one post and one `themeChanged` event; with a saved theme nothing changes |
| Themes.ThemeManager.GetCurrentTheme | static/js/theme-manager.js:261-263 | returns the current theme |
| Themes.SystemChangeAfterInit | static/js/theme-manager.js:12-23 | once `init` has run a theme is always saved, so a later system change leaves the theme and storage as `init` set them (see also lines 335-339 of the same file) |
| ThemeSidebar.SavedTheme | static/js/theme-sidebar.js:15 | the saved theme when there is a non-empty one, else 'light'; never empty |
| ThemeSidebar.Flipped | static/js/theme-sidebar.js:28-29 | a click switches to 'light' exactly from 'dark', and to 'dark' from anything else, including no attribute |
| ThemeSidebar.TwoClicksRestore | static/js/theme-sidebar.js:27-34 | two clicks from 'light' or 'dark' come back to it |
| ThemeSidebar.SavedCollapsed | static/js/theme-sidebar.js:20 | the sidebar starts collapsed exactly when the saved text is 'true' |
| ThemeSidebar.CollapsedRoundTrip | static/js/theme-sidebar.js:20-48 | the boolean a toggle stores is what the next page load reads back |
| ThemeSidebar.IconFor | static/js/theme-sidebar.js:52-62 | the sun and 'Alternar para Modo Claro' for 'dark', the moon and 'Alternar para Modo Escuro' for anything else |
| ThemeSidebar.ShortcutsExclusive | static/js/theme-sidebar.js:77-83 | no key press matches both shortcuts |
| ThemeSidebar.Layout.constructor | static/js/theme-sidebar.js:4-23 | on load, the saved theme or 'light' goes on the root element and on the icon when there is one; the sidebar and main content are collapsed when 'true' was saved |
| ThemeSidebar.Layout.ThemeClick | static/js/theme-sidebar.js:26-34 | the flipped theme goes on the root element, into storage and onto the icon; the sidebar is untouched |
| ThemeSidebar.Layout.SidebarClick | static/js/theme-sidebar.js:38-72 | the state read from the sidebar flips on the sidebar and the main content when present, and is saved; without a sidebar the read throws and nothing changes |
| ThemeSidebar.Layout.KeyDown | static/js/theme-sidebar.js:75-87 | Ctrl/Cmd+Shift+D with a theme toggle flips the theme on the root element, in storage and on the icon; Ctrl/Cmd+Shift+S with a sidebar toggle flips the sidebar and main-content classes and saves the state, or changes nothing when there is no sidebar (the click's read throws); any other key changes nothing |
| ThemeSidebar.ToggleThenReload | static/js/theme-sidebar.js:20-48 | after a toggle the saved state is the sidebar's own, so a reload restores it |
| GreenScorePage.Band | static/js/green_score.js:78-83 | a score falls in exactly one of four bands: at least 80, 60 to 80, 40 to 60, below 40; each lower bound belongs to the band above |
| GreenScorePage.ScoreColors | static/js/green_score.js:78-83 | green exactly from 80, yellow exactly on [60, 80), orange exactly on [40, 60), red exactly below 40 |
| GreenScorePage.BandMonotone | static/js/green_score.js:78-83 | a higher score never gets a worse band |
| GreenScorePage.BoundariesInclusive | static/js/green_score.js:79-81 | 80, 60 and 40 get the upper band's colours, and any value just below them does not |
| GreenScorePage.Round | static/js/green_score.js:89 | `Math.round`: the nearest integer, halves rounded up |
| GreenScorePage.HexDigit | static/js/green_score.js:253 | a hexadecimal digit is an unreserved character |
| GreenScorePage.Utf8 | static/js/green_score.js:253 | a character encodes to one to four bytes |
| GreenScorePage.Percent | static/js/green_score.js:253 | each byte becomes three characters, none of them a delimiter |
| GreenScorePage.EncodeChar | static/js/green_score.js:253 | `encodeURIComponent` of one character yields no delimiter and leaves an unreserved character as it is |
| GreenScorePage.Encode | static/js/green_score.js:253 | the encoded text holds no delimiter, and a text of unreserved characters is unchanged |
| GreenScorePage.FornecedoraParam | static/js/green_score.js:253 | the argument is empty exactly for a missing or empty name or 'consolidado' in any case; otherwise it is `&fornecedora=` and the encoded name |
| GreenScorePage.ParamCannotInject | static/js/green_score.js:253-256 | after its own `&fornecedora=`, the argument holds no '&', '=', '#' or space, so a name cannot add or change query arguments |
| GreenScorePage.ConsolidatedInAnyCase | static/js/green_score.js:253 | 'Consolidado', 'CONSOLIDADO' and 'consolidado' all drop the filter |
| GreenScorePage.LogoFor | static/js/green_score.js:56-73 | a supplier has a logo exactly when its upper-cased name is in the table, and the logo is that entry's non-empty path (see also line 473 of the same file) |
| GreenScorePage.LogoIgnoresCase | static/js/green_score.js:473 | the logo lookup ignores case |
| GreenScorePage.ModeOf | static/js/green_score.js:403-423 | an empty or missing selection gives the placeholder, exactly 'Consolidado' the consolidated view, anything else a single supplier |
| GreenScorePage.ViewsShow | static/js/green_score.js:401-480 | the placeholder shows alone exactly when nothing is chosen; the consolidated view hides the month KPIs, the chart and the logo; a supplier's view shows them, with the logo exactly when there is one |
| GreenScorePage.ModeIsCaseSensitive | static/js/green_score.js:253 | 'consolidado' selects one supplier's view, yet its consolidated KPIs are requested without a filter (see also line 423 of the same file) |
| GreenScorePage.DialOf | static/js/green_score.js:85-89 | a gauge carries the supplier's name, its score rounded to the nearest integer and the colours of its band |
| GreenScorePage.GaugesFor | static/js/green_score.js:435-505 | a failure shows its message and an empty answer the notice; otherwise one gauge per entry in the consolidated view, or the first entry's gauge for a supplier |
| GreenScorePage.Page.constructor | static/js/green_score.js:527-533 | on load everything but the placeholder is hidden, and there is no chart |
| GreenScorePage.Page.StartChart | static/js/green_score.js:304-316 | without a canvas nothing happens; otherwise the status shows loading, the canvas is hidden and the chart request starts |
| GreenScorePage.Page.LoadScoreFor | static/js/green_score.js:401-486 | the selection's view is applied; no request for nothing; all scores for 'Consolidado'; for a supplier its logo, its month KPIs, its chart when there is a canvas, then its score |
| GreenScorePage.Page.ShowSupplier | static/js/green_score.js:462-486 | the supplier view with the logo when there is one, the spinner, and the month KPI, chart and score requests in that order |
| GreenScorePage.Page.ScoresArrived | static/js/green_score.js:440-508 | the gauges are drawn from the answer, and the consolidated KPIs are requested whatever the answer was |
| GreenScorePage.Page.ChartArrived | static/js/green_score.js:317-398 | twelve counts update the chart in place, or create it when there is none, and show the canvas; any other answer destroys it and shows 'no data' or the error |
| GreenScorePage.Page.OnYearChange | static/js/green_score.js:517-523 | a year change reloads the chart only for a chosen supplier other than 'Consolidado' |
| GreenScorePage.TwoDrawsOneChart | static/js/green_score.js:328-374 | two drawable answers in a row create one chart instance, which shows the later caption |
| TvPage.GroupDigits | static/js/tv_dashboard.js:9 | grouping keeps the leading digit of a non-empty run in front |
| TvPage.Grouped | static/js/tv_dashboard.js:9 | a whole number's grouped text is non-empty and starts with a digit |
| TvPage.FormatNumber | static/js/tv_dashboard.js:7-10 | 'N/A' exactly for null or undefined; otherwise the grouped digits, with '-' in front of a negative number |
| TvPage.GroupedDigits | static/js/tv_dashboard.js:9 | with the separators removed, the grouped text is the plain decimal writing of the number |
| TvPage.Ungroup | static/js/tv_dashboard.js:9 | removing the '.' separators from a grouped run of digits gives back the run |
| TvPage.Fixed2 | static/js/tv_dashboard.js:31 | `toFixed(2)` never writes '+', and writes '-' first exactly for a negative value |
| TvPage.Percentage | static/js/tv_dashboard.js:27-28 | `(current - previous) / previous * 100` over a non-zero baseline; NaN exactly when the current value is absent |
| TvPage.CalculatePercentage | static/js/tv_dashboard.js:23-32 | without a baseline: '+100%' and 'positive' when the current value is above 0, else '0%' and 'neutral'; otherwise 'positive' exactly when the change is at least 0, a '+' only above 0, and 'NaN%' for a missing current value |
| TvPage.GrowthShows | static/js/tv_dashboard.js:23-32 | over a positive baseline the text starts with '+' exactly when the figure grew and with '-' exactly when it fell, and the class is 'positive' exactly when it did not fall |
| TvPage.DivisionSign | static/js/tv_dashboard.js:28 | dividing by a positive baseline keeps the sign of the difference |
| TvPage.NoChange | static/js/tv_dashboard.js:27-31 | equal non-zero figures give '0.00%' and 'positive' |
| TvPage.MonthLabel | static/js/tv_dashboard.js:36-42 | a point's label is the month's abbreviation for months 1 to 12, and 'mes/ano' otherwise |
| TvPage.ChartOf | static/js/tv_dashboard.js:42-43 | one label and one value per point, in order |
| TvPage.LabelsAreMonthsOrFallback | static/js/tv_dashboard.js:42 | a label is a month abbreviation exactly when the month is 1 to 12 |
| TvPage.RowName | static/js/tv_dashboard.js:95 | a row is named by its supplier when that is a non-empty text; otherwise by its region as the template writes it: the text, "null" for a NULL region, "undefined" for a missing one |
| TvPage.NullRegionShown | backend/db/tv_dashboard.py:174-212 | the region group of NULL regions is listed as "null", and a NULL or empty supplier group as "undefined" |
| TvPage.TableOf | static/js/tv_dashboard.js:87-104 | a missing or empty list gives only the 'no data' row; otherwise one row per entry, in order, and never the 'no data' row |
| TvPage.ChangeOf | static/js/tv_dashboard.js:117-137 | a KPI's change is recomputed when its figure is present, and kept otherwise |
| TvPage.Screen.constructor | static/js/tv_dashboard.js:2-4 | the screen starts with no chart and empty KPIs and tables |
| TvPage.Screen.RenderChart | static/js/tv_dashboard.js:35-84 | the previous instance, if any, is destroyed and a new one holds the data; exactly one instance stays live |
| TvPage.Screen.ShowKpis | static/js/tv_dashboard.js:115-137 | each present figure writes its count (kWh with its unit) and its change; an absent one leaves its block unchanged |
| TvPage.Screen.ShowData | static/js/tv_dashboard.js:112-146 | a successful answer fills the KPIs, both tables and then the chart; a missing chart list throws after the tables, and both counts show 'Erro' |
| TvPage.Screen.Refresh | static/js/tv_dashboard.js:107-158 | a failed fetch writes 'Erro' into both counts; a status other than 'success' changes nothing; 'success' shows the data |
| TvPage.PopulateTable | static/js/tv_dashboard.js:87-104 | the loop leaves exactly the specified rows |
| TvDashboard.GetOrZero | backend/db/tv_dashboard.py:157-165 | `row.get(column, 0)`: the column's value when present, else 0 |
| TvDashboard.Counters | backend/db/tv_dashboard.py:156-168 | a validation answer gives its quantity and sum (each 0 when its column is missing), and a missing or empty answer gives (0, 0) |
| TvDashboard.Merged | backend/db/tv_dashboard.py:152-170 | a missing or empty registration row is stored as it is; otherwise exactly the four validation keys are added, from the backlog and current-month answers, and every other column keeps its value |
| TvDashboard.MergeValidation | backend/db/tv_dashboard.py:152-170 | the four assignments in turn produce the specified merged row |
| TvDashboard.Payload | backend/db/tv_dashboard.py:36-297 | the payload has exactly the seven keys, each holding its query's answer |
| TvDashboard.TvDashboardData | backend/db/tv_dashboard.py:7-304 | the result is None exactly when some query raises, never a partial payload; otherwise it has exactly the seven keys, with the registration counters merged and every list query's rows under its key |
| Dashboard.TokenValue | backend/db/dashboard.py:19 | a month token accepted by `%m` has a value between 1 and 12 |
| Dashboard.ParseMonth | backend/db/dashboard.py:19 | `strptime(s + '-01', '%Y-%m-%d')` accepts only a four-digit year from 1 and a month 1 to 12, in ASCII digits, so an accepted text has six or seven characters |
| Dashboard.MonthText | backend/db/dashboard.py:19 | the canonical 'YYYY-MM' text has seven characters with the dash in position 4 |
| Dashboard.ParseMonthText | backend/db/dashboard.py:19 | every month's canonical text parses back to that month |
| Dashboard.ParsedMonthIsCanonical | backend/db/dashboard.py:19 | a seven-character text that parses is the canonical text of its month, and a six-character one has a one-digit month |
| Dashboard.MonthWindow | backend/db/dashboard.py:16-23 | no window exactly for no month, an empty one, one `strptime` refuses, or December 9999; otherwise the window runs from the 1st of the parsed month to the 1st of the next month |
| Dashboard.WindowRollover | backend/db/dashboard.py:20-21 | December ends on January 1st of the next year; any other month ends on the 1st of the following month |
| Dashboard.WindowOfMonthText | backend/db/dashboard.py:17-23 | a canonically written month gets a window starting on its 1st, except December 9999 |
| Dashboard.DateFilter | backend/db/dashboard.py:16-22 | the filter holds the two window placeholders, start then end, or none under the 'IS NOT NULL' fallback, and never a literal '%' |
| Dashboard.WindowParams | backend/db/dashboard.py:22 | the parameters are the window's start and end, or none |
| Dashboard.MonthCondsFacts | backend/db/dashboard.py:14-22 | the conditions' placeholders are exactly the window parameters' roles |
| Dashboard.MonthParts | backend/db/dashboard.py:12-24 | the parts of a month query fit together |
| Dashboard.MonthQuery | backend/db/dashboard.py:12-24 | placeholders and parameters line up one to one; the parameters are exactly the window's two dates, or none under the fallback |
| Dashboard.MonthQueryFilters | backend/db/dashboard.py:16-23 | a month query filters on its own column in both branches: the window bounds with a month, 'IS NOT NULL' without |
| Dashboard.RegisteredFiltersOnDtcad | backend/db/dashboard.py:52-58 | the registered count filters on `dtcad`, never on `data_ativo` |
| Dashboard.StateMapQuery | backend/db/dashboard.py:248-262 | the state map query has no month filter and no parameters |
| Dashboard.KpiValue | backend/db/dashboard.py:25-61 | no row, no column or a NULL give 0; a number is returned as it is |
| Dashboard.TotalConsumo | backend/db/dashboard.py:10-26 | an empty answer gives 0 |
| Dashboard.ActiveCount | backend/db/dashboard.py:28-44 | an empty answer gives 0 |
| Dashboard.RegisteredCount | backend/db/dashboard.py:46-62 | an empty answer gives 0 |
| Dashboard.ConvertAll | backend/db/dashboard.py:86 | the comprehension inside `try` gives None exactly when some row fails to convert; otherwise one converted row per row, in order (see also lines 116, 180, 231 of the same file) |
| Dashboard.SummaryOf | backend/db/dashboard.py:86-116 | a row converts exactly when its count is a number and its sum is a number or NULL; a NULL sum becomes 0 |
| Dashboard.SummaryRows | backend/db/dashboard.py:84-88 | a converted summary has one line per row |
| Dashboard.SummaryErrorOrEmpty | backend/db/dashboard.py:84-88 | [] exactly for an empty answer, and None exactly when some row does not convert |
| Dashboard.SupplierSummary | backend/db/dashboard.py:64-88 | an empty answer gives [] rather than None |
| Dashboard.RegionSummary | backend/db/dashboard.py:90-118 | an empty answer gives [] rather than None |
| Dashboard.PieSliceOf | backend/db/dashboard.py:180-231 | a row converts exactly when its count is a number, giving its label and count |
| Dashboard.PieOf | backend/db/dashboard.py:177-188 | an empty answer gives [], and a converted answer has one slice per row |
| Dashboard.SupplierPie | backend/db/dashboard.py:140-188 | an empty answer gives []; otherwise one slice per row, or None |
| Dashboard.RegionPie | backend/db/dashboard.py:190-239 | an empty answer gives []; otherwise one slice per row, or None |
| Dashboard.StateEntryOf | backend/db/dashboard.py:266-271 | a row of three or more columns whose count and sum are numbers or NULL converts, with NULL read as 0 |
| Dashboard.LongRows | backend/db/dashboard.py:272 | exactly the rows with more than two columns are kept |
| Dashboard.StateMapShape | backend/db/dashboard.py:264-278 | the map has at most one entry per row; when every kept row converts, there is one entry per kept row, in order |
| Dashboard.KeptFromRows | backend/db/dashboard.py:272 | every kept row comes from the answer |
| Dashboard.StateMapDropsShortRows | backend/db/dashboard.py:272 | a row of two or fewer columns is dropped and changes nothing |
| Dashboard.StateMapData | backend/db/dashboard.py:243-278 | the map never has more entries than the answer has rows |
| Dashboard.MonthlyQuery | backend/db/dashboard.py:122-129 | the monthly chart's one parameter is the year, bound to its one placeholder |
| Dashboard.Zeros | backend/db/dashboard.py:129 | twelve zero slots |
| Dashboard.Fold | backend/db/dashboard.py:133-135 | folding rows keeps twelve slots |
| Dashboard.MonthlyCounts | backend/db/dashboard.py:129-137 | the result always has twelve slots: the fold, or twelve zeros when a row raises |
| Dashboard.FoldLastWins | backend/db/dashboard.py:133-135 | a month's slot holds the count of the last row for that month, or 0 when no row names it; months outside 1 to 12 change nothing |
| Dashboard.FoldMonthly | backend/db/dashboard.py:129-137 | the loop computes exactly `MonthlyCounts` of the answer |
| Dashboard.MonthlyActiveByYear | backend/db/dashboard.py:120-137 | the chart data for a year are the folded answer of the year's query, twelve slots |
| ReportsBase.QueryFields | backend/db/reports_base.py:42-74 | the type is compared in lower case: every column for base_clientes, the 44 Rateio columns in report order for rateio, and nothing for any other type |
| ReportsBase.QueryFieldsFacts | backend/db/reports_base.py:44-94 | the lookup ignores case, and only the Rateio list needs the consultant join |
| ReportsBase.IdListQuery | backend/db/reports_base.py:16-36 | an ID query's only parameter is the supplier, bound to its one placeholder, and only for a supplier other than 'consolidado' |
| ReportsBase.FetchIdList | backend/db/reports_base.py:22-37 | the IDs are the first column of every row the query returns |
| ReportsBase.BaseNovaIds | backend/db/reports_base.py:9-27 | the first column of the Base Nova query's rows |
| ReportsBase.BaseEnviadaIds | backend/db/reports_base.py:29-38 | the first column of the Base Enviada query's rows |
| ReportsBase.DetailsText | backend/db/reports_base.py:82-97 | a detail query exists exactly for base_clientes and rateio in any case, and binds the ID list as its only parameter |
| ReportsBase.ClientDetailsByIds | backend/db/reports_base.py:76-105 | no IDs, an unknown type or a batch size that is not positive give []; otherwise the rows of every batch of at most `batch_size` IDs, concatenated in batch order |
| ReportsBase.ReportQuery | backend/db/reports_base.py:107-145 | the placeholders line up with the parameters: the supplier (if filtered), then the limit (if given), then the offset (if positive) |
| ReportsBase.BuildQuery | backend/db/reports_base.py:107-147 | exactly 'base_clientes' and 'rateio' (case-sensitive) build the report query; any other type raises ValueError |
| ReportsBase.CountingQuery | backend/db/reports_base.py:150-170 | the count query's only parameter is the supplier filter |
| ReportsBase.CountQuery | backend/db/reports_base.py:150-172 | the same type check as `build_query`; any other type raises ValueError |
| ReportsBase.CountMatchesReport | backend/db/reports_base.py:117-159 | the count query's parameters are the report query's without the paging ones, so both count the same rows |
| ReportsBase.ReportPaging | backend/db/reports_base.py:123-143 | the report query has a LIMIT placeholder exactly when a limit is given, and an OFFSET placeholder exactly when the offset is positive |
| ReportsBase.CountingUnpaged | backend/db/reports_base.py:150-170 | the count query has neither paging placeholder |
| ReportsBase.SupplierPaging | backend/db/reports_base.py:123-126 | any supplier-filtered paged query has LIMIT exactly for a given limit and OFFSET exactly for a positive offset |
| ReportsSpecific.LicenciadoQuery | backend/db/reports_specific.py:9-30 | the licensee report has no supplier filter: its only parameters are the limit (if given), then the offset (if positive) |
| ReportsSpecific.LicenciadoCountQuery | backend/db/reports_specific.py:35-40 | the licensee count binds nothing |
| ReportsSpecific.LicenciadoData | backend/db/reports_specific.py:9-33 | the rows of the paged licensee query |
| ReportsSpecific.LicenciadoCount | backend/db/reports_specific.py:35-48 | the first column of the first row, or 0 when there is no row or it is NULL |
| ReportsSpecific.CancelledCond | backend/db/reports_specific.py:70-112 | the cancelled-status filter holds its pattern as its one placeholder and no stray `%` |
| ReportsSpecific.BoletosPre | backend/db/reports_specific.py:66-115 | the fixed boletos conditions hold exactly one placeholder, the pattern's |
| ReportsSpecific.BoletosQuery | backend/db/reports_specific.py:51-98 | the parameters are the 'CANCELADO%' pattern, then the supplier (if filtered), then the limit and the offset, each bound to its own placeholder |
| ReportsSpecific.BoletosCountQuery | backend/db/reports_specific.py:105-124 | the pattern, then the supplier (if filtered), and no paging |
| ReportsSpecific.BoletosData | backend/db/reports_specific.py:51-103 | the rows of the paged boletos query |
| ReportsSpecific.BoletosCount | backend/db/reports_specific.py:105-133 | the count from the first row, or 0 |
| ReportsSpecific.BoletosCountMatchesData | backend/db/reports_specific.py:73-119 | the count's parameters are the data query's without the paging ones; the pattern comes first; the supplier is bound exactly when the filter applies |
| ReportsSpecific.RzkNovaIds | backend/db/reports_specific.py:136-155 | the first column of the rows of the Base Nova query with the supplier fixed to RZK |
| ReportsSpecific.RzkEnviadaIds | backend/db/reports_specific.py:157-168 | the first column of the rows of the Base Enviada query with the supplier fixed to RZK |
| ReportsSpecific.RzkIdsUnparameterised | backend/db/reports_specific.py:151-164 | the RZK ID queries bind nothing and have no placeholder |
| ReportsSpecific.RzkFieldsFacts | backend/db/reports_specific.py:170-172 | the RZK list has 46 columns and reads the licensee's name, so it needs the consultant join |
| ReportsSpecific.RzkAliasFused | backend/db/reports_specific.py:182-219 | as written, stripping the JOIN runs the alias `c` into `LEFT`, so the table is named `cLEFT` |
| ReportsSpecific.RzkFrom | backend/db/reports_specific.py:182-203 | the corrected text keeps a blank between the alias `c` and the join, and begins with the FROM clause unchanged |
| ReportsSpecific.RzkDetailsText | backend/db/reports_specific.py:179-186 | the RZK detail text's only placeholder is the ID list |
| ReportsSpecific.RzkClientDetailsByIds | backend/db/reports_specific.py:174-196 | no IDs or a batch size that is not positive give []; otherwise the rows of every batch of at most `batch_size` IDs, in batch order |
| ReportsSpecific.RzkQuery | backend/db/reports_specific.py:198-221 | only the limit and the offset are parameters |
| ReportsSpecific.RzkCountQuery | backend/db/reports_specific.py:229-233 | the RZK count binds nothing |
| ReportsSpecific.RzkData | backend/db/reports_specific.py:198-227 | the rows of the paged RZK query |
| ReportsSpecific.RzkCount | backend/db/reports_specific.py:229-240 | the count from the first row, or 0 |
| ReportsSpecific.RecebiveisQuery | backend/db/reports_specific.py:269-302 | the supplier (if filtered) precedes the limit and the offset |
| ReportsSpecific.RecebiveisCountQuery | backend/db/reports_specific.py:310-326 | the only parameter is the supplier (if filtered) |
| ReportsSpecific.RecebiveisData | backend/db/reports_specific.py:269-308 | the rows of the paged receivables query |
| ReportsSpecific.RecebiveisCount | backend/db/reports_specific.py:310-333 | the count from the first row, or 0 |
| ReportsSpecific.RecebiveisOrder | backend/db/reports_specific.py:281-298 | with the filter on, the supplier is the first parameter and the first placeholder, and the count binds the data query's parameters without paging |
| ReportsSpecific.DateParams | backend/db/reports_specific.py:364-370 | at most two date parameters |
| ReportsSpecific.DateCondsRoles | backend/db/reports_specific.py:357-370 | the graduation conditions hold exactly the placeholders of the given date bounds, in order |
| ReportsSpecific.GraduacaoQuery | backend/db/reports_specific.py:338-381 | the parameters are the start date (if given), the end date (if given), the limit and the offset |
| ReportsSpecific.GraduacaoCountQuery | backend/db/reports_specific.py:390-415 | the parameters are the start and end dates that are given |
| ReportsSpecific.GraduacaoBounds | backend/db/reports_specific.py:357-370 | appending the bounds one by one gives the graduation conditions and the date parameters |
| ReportsSpecific.GraduacaoData | backend/db/reports_specific.py:338-388 | the rows of the paged graduation query |
| ReportsSpecific.GraduacaoCount | backend/db/reports_specific.py:390-423 | the count from the first row, or 0 |
| ReportsSpecific.DateRoles | backend/db/reports_specific.py:364-370 | the date roles are StartDate if given, then EndDate if given |
| ReportsSpecific.GraduacaoDateBounds | backend/db/reports_specific.py:364-370 | each date bound has a placeholder exactly when its text is given and non-empty |
| ReportsSpecific.GraduacaoPaging | backend/db/reports_specific.py:374-413 | LIMIT and OFFSET appear exactly when given, and the count binds the data query's parameters without the paging ones |
| ReportsBoletos.WhereAsWritten | backend/db/reports_boletos.py:74-149 | as written, the WHERE text carries a bare `%` (from 'CANCELADO%') followed by fixed text |
| ReportsBoletos.BuildAsWritten | backend/db/reports_boletos.py:79-155 | the statement grown with `+=`: the supplier condition and name when the filter applies, the fixed tail, then LIMIT and OFFSET with their values |
| ReportsBoletos.StrayPct | backend/db/reports_boletos.py:76-149 | a `%` followed by fixed text makes the whole text unacceptable to the driver, wherever it stands |
| ReportsBoletos.SplitAtPct | backend/db/reports_boletos.py:76-149 | the as-written text splits around its stray `%` |
| ReportsBoletos.AsWrittenRejected | backend/db/reports_boletos.py:76 | for every supplier, limit and offset the driver rejects the as-written text, so the query yields no rows (see also lines 125, 149, 158 of the same file) |
| ReportsBoletos.DataAsWritten | backend/db/reports_boletos.py:8-130 | as written, the data function returns [] for every input |
| ReportsBoletos.FirstOrZero | backend/db/reports_boletos.py:159 | the first column of the first row (a NULL returned as it is), or 0 without a row |
| ReportsBoletos.CountAsWritten | backend/db/reports_boletos.py:132-163 | as written, the count is 0 for every input |
| ReportsBoletos.StatusCond | backend/db/reports_boletos.py:76-149 | the corrected status filter holds the pattern as its one placeholder and no stray `%` |
| ReportsBoletos.Pre | backend/db/reports_boletos.py:74-76 | the corrected fixed conditions hold exactly the pattern's placeholder |
| ReportsBoletos.DataQuery | backend/db/reports_boletos.py:8-125 | corrected: the pattern, then the supplier (if filtered), then the limit and the offset, each bound to its own placeholder |
| ReportsBoletos.CountQuery | backend/db/reports_boletos.py:132-158 | corrected: the pattern, then the supplier (if filtered), no paging |
| ReportsBoletos.Data | backend/db/reports_boletos.py:8-130 | corrected: the rows of the data query |
| ReportsBoletos.Count | backend/db/reports_boletos.py:132-163 | corrected: the first column of the count's first row, or 0 |
| ReportsBoletos.CorrectedSupplier | backend/db/reports_boletos.py:80-82 | the supplier is bound exactly when the filter applies, right after the pattern |
| ReportsBoletos.PatternThenSupplier | backend/db/reports_boletos.py:79-82 | any query binding the pattern, the supplier's and the paging parameters names the supplier exactly when the filter applies, as its second parameter |
| ReportsBoletos.CorrectedPaging | backend/db/reports_boletos.py:117-155 | LIMIT and OFFSET appear exactly when given, and the count binds the data parameters without the paging ones |
| ReportUtils.BaseKey | backend/db/utils.py:125 | the base key has no double quote and is no longer than the key |
| ReportUtils.TitleKeepsNonLetters | backend/db/utils.py:128 | title-casing keeps every character that is not a letter, and adds none |
| ReportUtils.AliasTitleShape | backend/db/utils.py:128 | the title fallback has no underscore and no double quote, is already title-cased, and is no longer than the key |
| ReportUtils.ResolveHeader | backend/db/utils.py:122-130 | the table's entry for the key wins; failing that (missing or empty), the entry for its base column; failing both, the alias title, which has no underscore or quote |
| ReportUtils.ReportKeys | backend/db/utils.py:82-109 | the key list of the lower-cased report type, or none for an unknown type |
| ReportUtils.HeadersFor | backend/db/utils.py:120-130 | one header per key, in key order, each resolved on its own |
| ReportUtils.Headers | backend/db/utils.py:18-135 | as many headers as the type has keys, the i-th resolved from the i-th key |
| ReportUtils.ResolveAll | backend/db/utils.py:120-130 | the loop appends exactly the resolved header of each key, in order |
| ReportUtils.ResolveOne | backend/db/utils.py:123-129 | one loop pass computes the key's resolved header |
| ReportUtils.HeadersForSnoc | backend/db/utils.py:130 | appending a key appends its header |
| ReportUtils.GetHeaders | backend/db/utils.py:18-135 | `get_headers` returns the type's headers, and [] for a type without keys |
| ReportUtils.HeadersIgnoreCase | backend/db/utils.py:109-112 | the report type is matched in any letter case |
| ReportUtils.HeadersKnownTypes | backend/db/utils.py:82-118 | exactly the seven known report types have headers, so the receivables fallback is never taken |
| ReportUtils.KeyListsNonEmpty | backend/db/utils.py:82-107 | every known report type has at least one key |
| ReportUtils.RateioKeysMatchFields | backend/db/utils.py:84 | the 44 Rateio keys are the result-column names of the Rateio field list, one for one and in order |
| ReportUtils.KeptNames | backend/db/utils.py:14 | only rows with a non-empty first column are kept, none is lost, and no kept name is empty |
| ReportUtils.SupplierNames | backend/db/utils.py:11-15 | the supplier list is sorted and a permutation of the kept names |
| ReportUtils.SupplierNamesExact | backend/db/utils.py:11-15 | no empty name; every named row's name is in the list; the list is in order |
| ReportUtils.NoSuppliersWithoutRows | backend/db/utils.py:14-15 | no rows (or a failed query) give an empty list |
| LegacyBackend.QueryFields | backend/database.py:589-600 | the type is compared in lower case: 16 Base Clientes columns, 14 Rateio columns, nothing for any other type |
| LegacyBackend.ShortListsJoinConsultor | backend/database.py:592-608 | both shortened lists read the consultant's name, so both queries join the consultant table |
| LegacyBackend.RateioIsLiveSelection | backend/database.py:594 | the shortened Rateio list is the first twelve live Rateio columns plus the consultant name and the supplier |
| LegacyBackend.ReportQuery | backend/database.py:602-616 | the parameters are the supplier (if filtered), the limit (if given) and the offset (if positive), each bound to its own placeholder |
| LegacyBackend.BuildQuery | backend/database.py:602-616 | exactly 'base_clientes' and 'rateio' (case-sensitive) build a query; any other type raises ValueError |
| LegacyBackend.CountingQuery | backend/database.py:618-624 | the only parameter is the supplier (if filtered) |
| LegacyBackend.CountQuery | backend/database.py:618-624 | the same type check as `build_query`, raising ValueError |
| LegacyBackend.AgreesWithLive | backend/database.py:602-624 | the count is the live Rateio count for both types, and the report query binds the same parameters as the live one |
| LegacyBackend.DetailsText | backend/database.py:146-152 | a detail query exists exactly for the two types with fields, and binds only the ID list |
| LegacyBackend.ClientDetailsByIds | backend/database.py:142-158 | no IDs, an unknown type or a batch size that is not positive give []; otherwise the rows of every batch, in batch order |
| LegacyBackend.ResolveHeader | backend/database.py:741-748 | the table's entry for the key wins; failing that (missing or empty), the entry for the text after the last '.', even an empty one; else the whole key title-cased with '_' as blanks |
| LegacyBackend.ReportKeys | backend/database.py:676-738 | the key list of the lower-cased type, or none for an unknown type |
| LegacyBackend.HeadersFor | backend/database.py:740-749 | one header per key, in key order |
| LegacyBackend.Headers | backend/database.py:633-755 | as many headers as the type has keys, the i-th resolved from the i-th key |
| LegacyBackend.ResolveAll | backend/database.py:740-749 | the loop appends exactly the resolved header of each key, in order |
| LegacyBackend.GetHeaders | backend/database.py:633-755 | `get_headers` returns the type's headers, and [] for a type without keys |
| LegacyBackend.HeadersIgnoreCase | backend/database.py:728 | the type is matched in any letter case |
| LegacyBackend.KnownTypes | backend/database.py:676-726 | six report types have keys |
| LegacyBackend.BaseClientesMismatch | backend/database.py:592 | the Base Clientes header list (73) is longer than the 16 columns its query returns (see also line 677 of the same file) |
| LegacyBackend.SharesLiveKeys | backend/database.py:678-744 | the Rateio keys are the live ones, and a key the table maps gets the same header from both copies |
| LegacyRoot.QueryFields | database.py:329-370 | the type is compared in lower case: 73 Base Clientes columns, the 44 live Rateio columns, nothing for any other type |
| LegacyRoot.KnownTypesHaveFields | database.py:368-369 | both accepted types have fields, so the "no fields" ValueError is never raised |
| LegacyRoot.QueryFieldsIgnoreCase | database.py:331 | the field lookup ignores case |
| LegacyRoot.BaseClientesJoinsConsultor | database.py:335-379 | the Base Clientes list reads the consultant's name, so its query joins the consultant table |
| LegacyRoot.ReportQuery | database.py:372-386 | the parameters are the supplier (if filtered), the limit (if given) and the offset (if positive), each bound to its own placeholder |
| LegacyRoot.BuildQuery | database.py:372-386 | exactly 'base_clientes' and 'rateio' (case-sensitive) build a query; any other type raises ValueError |
| LegacyRoot.CountingQuery | database.py:388-394 | the only parameter is the supplier (if filtered) |
| LegacyRoot.CountQuery | database.py:388-394 | the same type check, raising ValueError |
| LegacyRoot.AgreesWithBackend | database.py:372-394 | the report and count queries bind the same parameters as the blueprint copy's |
| LegacyRoot.CountWhitelistDiffers | database.py:390 | the count text differs from the blueprint copy's: the origin whitelist leaves out 'APP' |
| LegacyRoot.DetailsText | database.py:138-144 | a detail query exists exactly for the two types with fields, and binds only the ID list |
| LegacyRoot.ClientDetailsByIds | database.py:133-150 | no IDs, an unknown type or a batch size that is not positive give []; otherwise the rows of every batch, in batch order |
| LegacyRoot.Fallback | database.py:487 | the fallback header is no longer than the key |
| LegacyRoot.FallbackIsLastSegment | database.py:487 | both branches title-case the last dotted segment with '_' as blanks; the result has no '.' and no '_' |
| LegacyRoot.ResolveHeader | database.py:483-488 | the table's entry for the key when it is non-empty, else the fallback; there is no second lookup |
| LegacyRoot.ReportKeys | database.py:474-480 | a key list exists exactly for the five lower-cased types listed |
| LegacyRoot.HeadersFor | database.py:483-488 | one header per key, in key order |
| LegacyRoot.Headers | database.py:403-492 | [] for an unknown type, else one resolved header per key |
| LegacyRoot.ResolveAll | database.py:483-488 | the loop appends exactly the resolved header of each key, in order |
| LegacyRoot.GetHeaders | database.py:403-492 | `get_headers` returns the type's headers |
| LegacyRoot.HeadersIgnoreCase | database.py:406 | the type is matched in any letter case |
| LegacyRoot.KeyListsShared | database.py:441-469 | the Rateio keys are the live ones and the Base Clientes keys the blueprint copy's; the lists have 73, 44, 46, 6 and 9 keys |
| LegacyRoot.FallbacksDiffer | database.py:487 | for an unmapped `prefix.column` key, this copy title-cases only the column, while the blueprint copy title-cases the whole key |
| ApiRoutes.MonthAcceptedExact | backend/routes/api.py:46 | the month check lets through exactly a four-digit and a two-digit number joined by a dash, optionally followed by one newline, and every such text passes |
| ApiRoutes.AcceptedMonthWindow | backend/db/dashboard.py:17-23 | of the months the route accepts, only a seven-character one with year at least 1, month 1 to 12 and not December 9999 gets a month window; a month ending in a newline falls back to the unfiltered query |
| ApiRoutes.PyInt | backend/routes/api.py:163 | `int()` reads nothing from a text that strips to nothing, and reads a stripped run of plain digits as its decimal value |
| ApiRoutes.ReadInt | backend/routes/api.py:163 | `int()` on stripped text fails on the empty text and reads plain digits as their decimal value |
| ApiRoutes.ReadIntSpec | backend/routes/api.py:163 | `int()` on stripped text succeeds exactly on an optional sign followed by a digit group (digits with single underscores between them, PEP 515), and gives the value of the digits without the underscores, negated after a minus sign |
| ApiRoutes.GroupValueSpec | backend/routes/api.py:163 | the digit-group reading succeeds exactly on digit groups and gives the value of their digits with the underscores dropped |
| ApiRoutes.GroupValueOfDigits | backend/routes/api.py:163 | a run of plain digits reads as its decimal value |
| ApiRoutes.DigitsGrouped | backend/routes/api.py:163 | a run of plain digits is a digit group with no underscore to drop |
| ApiRoutes.GroupedReadsAsDigits | backend/routes/api.py:163 | a digit group reads as the same number as its digits without underscores |
| ApiRoutes.GroupingExamples | backend/routes/api.py:163 | "6_0" reads as 60, while "6__0", "_60" and "60_" are refused |
| ApiRoutes.ReadNegative | backend/routes/api.py:163 | a minus sign before plain digits negates their value |
| ApiRoutes.ReadUnblank | backend/routes/api.py:163 | text with no blank at either end is read as it stands |
| ApiRoutes.DecimalText | backend/routes/api.py:163 | a number's decimal text is a non-empty run of digits |
| ApiRoutes.IntText | backend/routes/api.py:163 | every integer has a non-empty text |
| ApiRoutes.DecimalTextValue | backend/routes/api.py:163 | reading a number's decimal text back gives the number |
| ApiRoutes.StripUnblank | backend/routes/api.py:163 | a text with no blank at either end is unchanged by stripping |
| ApiRoutes.IntTextRoundTrip | backend/routes/api.py:163 | `int(str(n)) == n` for every integer |
| ApiRoutes.AcceptedYearParses | backend/routes/api.py:159-174 | every year the pattern accepts converts to its four-digit value, so the ValueError branch is unreachable |
| ApiRoutes.DefaultsParse | backend/routes/api.py:218-297 | the default texts "15" and "30" convert to 15 and 30 |
| ApiRoutes.BarLimit | backend/routes/api.py:218-228 | no parameter or an unparsable one gives the limit 15; a parsed value at most 0 gives no limit, any other is the limit; a limit in force is positive |
| ApiRoutes.Truncated | backend/routes/api.py:243-247 | the rows sent are a prefix of the rows, as long as the limit allows, and all of them without a limit |
| ApiRoutes.DaysParam | backend/routes/api.py:297-308 | the overdue window is always 30, 60, 90 or 120: the parsed parameter when it is one of those, 30 otherwise |
| ApiRoutes.GreenScoreFilterAsWritten | backend/routes/api.py:343-351 | an absent parameter raises AttributeError; otherwise the filter is dropped exactly when the shared supplier rule does not apply, and is the parameter when kept |
| ApiRoutes.GreenScoreFilter | backend/routes/api.py:337-351 | the documented filter: no supplier exactly when the parameter is absent, empty or "consolidado" in any case, else the parameter unchanged |
| ApiRoutes.GreenScoreFilterAgrees | backend/routes/api.py:343-351 | the written and the documented filter agree on every present parameter and differ only on the absent one, where the written one raises |
| ApiRoutes.RowObject | backend/routes/api.py:58 | the object built from a row pairs key j with column j, for every key |
| ApiRoutes.Values | backend/routes/api.py:58 | an object's values, in member order |
| ApiRoutes.RowsToObjects | backend/routes/api.py:28-31 | the comprehension fails exactly when some row is shorter than the keys; otherwise one object per row, in order, pairing each key with its column (see also lines 58, 280-284, 362 of the same file) |
| ApiRoutes.ObjectsRoundTrip | backend/routes/api.py:28-58 | reading each object's values back gives its row's leading columns: nothing is lost, reordered or mixed between rows |
| ApiRoutes.ChartOf | backend/routes/api.py:202-203 | splitting rows into labels and values fails exactly when a row has fewer than two columns; otherwise label i and value i are row i's first two columns (see also lines 250-251, 323-324 of the same file) |
| ApiRoutes.ChartPairs | backend/routes/api.py:202-203 | pairing labels and values gives one two-column row per label |
| ApiRoutes.ChartRoundTrip | backend/routes/api.py:202-203 | for two-column rows, splitting into a chart and pairing again gives the rows back |
| ApiRoutes.SummaryRows | backend/routes/api.py:53 | a summary becomes the row of its name, client count and consumption |
| ApiRoutes.SliceRows | backend/routes/api.py:232-251 | a pie slice becomes the row of its name and client count |
| ApiRoutes.StateRows | backend/routes/api.py:21 | a state entry becomes the row of its state, client count and consumption |
| ApiRoutes.SummaryReply | backend/routes/api.py:53-91 | 500 exactly when the database layer answered None; otherwise one object per summary, in order, with the group's name, client count and consumption |
| ApiRoutes.ChartReply | backend/routes/api.py:194-254 | None gives 500; otherwise 500 exactly when a row sent is too short, and the labels and values are the first two columns of the rows the limit lets through |
| ApiRoutes.SupplierSummaryEndpoint | backend/routes/api.py:41-66 | a rejected month gives 400; otherwise 500 exactly when the supplier summary is None, else one object per supplier with its name, count and consumption |
| ApiRoutes.RegionSummaryEndpoint | backend/routes/api.py:70-94 | a rejected month gives 400; otherwise 500 exactly when the region summary is None, else one object per region under the key "concessionaria" |
| ApiRoutes.MapEndpoint | backend/routes/api.py:14-38 | the state map always answers: one object per state entry, in order, with state, count and consumption |
| ApiRoutes.MapReply | backend/routes/api.py:28-34 | one `{'uf','count','sum_consumo'}` object per state entry, in order |
| ApiRoutes.KpiNumber | backend/db/dashboard.py:9-62 | each KPI is an integer, 0 when its month query finds no row |
| ApiRoutes.KeywordCall | backend/routes/api.py:108-146 | a call by keyword raises TypeError exactly when some keyword is not a declared parameter, and otherwise gives the callee's value |
| ApiRoutes.KpiEndpointAsWritten | backend/routes/api.py:97-151 | a rejected month gives 400 |
| ApiRoutes.KpiAsWrittenAlwaysFails | backend/routes/api.py:108-146 | as written, every accepted month gives 500, because the supplier keyword is not a parameter of the KPI functions; no request ever gets a number |
| ApiRoutes.KpiEndpoint | backend/routes/api.py:97-151 | with the month as the only keyword, a rejected month gives 400 and an accepted one always the KPI's number under the endpoint's key, 0 for a month without rows |
| ApiRoutes.MonthlyEndpoint | backend/routes/api.py:154-177 | a success exactly when the year check passes, otherwise 400; a success holds the twelve monthly counts for that year |
| ApiRoutes.PieEndpoint | backend/routes/api.py:180-210 | a rejected month gives 400; otherwise 500 exactly when the supplier summary is None, else each supplier's name as label and client count as value |
| ApiRoutes.PieReply | backend/routes/api.py:191-206 | 500 exactly on None; otherwise label i and value i are summary i's name and client count |
| ApiRoutes.BarEndpoint | backend/routes/api.py:213-258 | a rejected month gives 400; otherwise 500 exactly when the region list is None, else the names and counts of the first regions the limit allows |
| ApiRoutes.BarReply | backend/routes/api.py:232-254 | 500 exactly on None; otherwise names and counts of the truncated region list, in order |
| ApiRoutes.OverdueEndpoint | backend/routes/api.py:293-331 | the overdue data is asked for the window the days parameter selects; 500 when it is None or a row is too short, else labels and values are its first two columns |
| ApiRoutes.NoRcbEndpoint | backend/routes/api.py:261-290 | None gives 500; otherwise 500 exactly when a row has fewer than three columns, else one object per row with supplier, client count and consumption |
| ApiRoutes.ScoreReply | backend/routes/api.py:355-367 | None gives 500; otherwise 500 exactly when a row has fewer than two columns, else one `{'fornecedora','score'}` object per row |
| ApiRoutes.GreenScoreEndpointAsWritten | backend/routes/api.py:337-371 | an absent parameter gives 500; a present one gives the score reply for the documented filter |
| ApiRoutes.GreenScoreEndpoint | backend/routes/api.py:337-371 | the scores are asked for one supplier exactly when the shared supplier rule applies to the parameter, and for all otherwise |
| ApiRoutes.AbsentSupplierFails | backend/routes/api.py:343-351 | with no parameter the written endpoint answers 500 even when the consolidated scores are there, while the documented one sends them |
| ReportsRoutes.Without | backend/routes/reports.py:39 | the filtered list drops every copy of the excluded name and keeps every other name, never adding one |
| ReportsRoutes.SupplierOptions | backend/routes/reports.py:39 | the drop-down starts with "Consolidado", holds it exactly once, and holds every supplier name and nothing else |
| ReportsRoutes.QuoteKeepsContains | backend/routes/reports.py:156-157 | a leading apostrophe neither creates nor hides an occurrence of a pattern not starting with one |
| ReportsRoutes.MissingFirstChar | backend/routes/reports.py:154 | a text without a pattern's first character does not contain the pattern |
| ReportsRoutes.SanitizeText | backend/routes/reports.py:153-174 | suspicious text becomes the replacement, formula-like text gains a leading apostrophe, other text is kept; safe text is unchanged, and with a safe replacement the result is always safe |
| ReportsRoutes.ReplacementsSafe | backend/routes/reports.py:155-170 | both replacement texts are themselves safe |
| ReportsRoutes.SanitizeCell | backend/routes/reports.py:152-161 | a non-text cell is unchanged; a text cell stays text and becomes safe |
| ReportsRoutes.SanitizeRow | backend/routes/reports.py:150-162 | each cell of a row is sanitised on its own, the length kept |
| ReportsRoutes.SanitizeData | backend/routes/reports.py:148-163 | as many rows as before, each sanitised cell by cell |
| ReportsRoutes.SanitizeHeaders | backend/routes/reports.py:165-177 | one header per header, each sanitised with the header replacement and safe |
| ReportsRoutes.SanitizedDataSafe | backend/routes/reports.py:148-163 | after sanitising, a cell is text exactly when it was, every text cell is safe and every other cell is unchanged |
| ReportsRoutes.SanitizeDataIdempotent | backend/routes/reports.py:148-163 | sanitising sanitised data changes nothing |
| ReportsRoutes.SanitizeHeadersIdempotent | backend/routes/reports.py:165-177 | sanitising sanitised headers changes nothing |
| ReportsRoutes.SanitizeExcelData | backend/routes/reports.py:148-163 | the nested loops build exactly the sanitised data |
| ReportsRoutes.SanitizeHeadersExtreme | backend/routes/reports.py:165-177 | the loop builds exactly the sanitised headers |
| ReportsRoutes.SheetTitle | backend/routes/reports.py:139 | the title is a prefix of at most 31 characters, the whole title when it fits and exactly 31 otherwise |
| ReportsRoutes.SupplierTag | backend/routes/reports.py:78-114 | the tag holds no underscore, and is "Consolidado" when the supplier filter does not apply |
| ReportsRoutes.TwoSheets | backend/routes/reports.py:77-111 | a redirect exactly when both ID lists are empty; otherwise two sheets with the report headers, each holding details only for a non-empty ID list |
| ReportsRoutes.ExportFor | backend/routes/reports.py:62-202 | unknown types redirect; a single-sheet report builds a workbook exactly when it has headers and rows, with one sheet of sanitised headers and rows titled in at most 31 characters; the rateio exports build their two named sheets |
| ReportsRoutes.SingleSheetSafe | backend/routes/reports.py:179-182 | every header and every text cell of a single-sheet export is safe |
| AppRoutes.DashboardMonth | app.py:110-113 | the month shown is the parameter when it passes the month check and the current month otherwise, so it passes the check whenever the current month does |
| AppRoutes.DashboardKpis | app.py:115-128 | the warning is absent exactly when all three reads succeed, in which case their values are shown; otherwise all three numbers are zero |
| AppRoutes.RequestedPage | app.py:175 | the parsed page parameter, or 1 when it is missing or does not parse |
| AppRoutes.CeilDiv | app.py:217 | the ceiling of a positive quotient: at least 1, with the dividend between the previous and this multiple |
| AppRoutes.TotalPages | app.py:216-217 | the page count is positive exactly when items and page size are, and is then the least count whose pages hold every item |
| AppRoutes.ShownPage | app.py:175-218 | the page shown is at least 1, at most the last page when there are pages, and the requested page when it is already in range |
| AppRoutes.Relatorios | app.py:171-224 | the offset comes from the requested page clamped below only; a raising database call renders the crash page with 500; an unknown type renders an error with no headers or rows; otherwise the page shows the fetched rows, headers and total, the page count and the clamped page, and the supplier "RZK" for the RZK report |
| AppRoutes.PastLastPageOffset | app.py:182-218 | a page asked for past the last is shown as the last page while its rows were fetched from an offset at or beyond the total |
| AppRoutes.MulMonotone | app.py:182 | multiplying by a non-negative page size keeps the order of page numbers |
| AppRoutes.MapEndpoint | app.py:298-317 | without a None check, a raising call and a row shorter than three columns both give 500; otherwise one state object per row, in order |
| AppRoutes.SummaryEndpoint | app.py:321-362 | a rejected month gives 400; a raising call, None, or a row shorter than three columns gives 500; otherwise one object per row under the grouping's key |
| AppRoutes.MonthlyEndpoint | app.py:398-411 | a rejected year gives 400; an accepted year always parses, and the reply is 500 exactly when the monthly call raises, else its answer under "monthly_counts" |
| AppRoutes.KpiEndpoint | app.py:365-395 | a rejected month gives 400; an accepted month gives 500 exactly when the read raises, and otherwise the value under its key |
| AppRoutes.ModuleCall | app.py:14 | calling a name the imported module does not define raises AttributeError; a defined name gives its function's answer |
| AppRoutes.DashboardNamesMissing | app.py:14 | none of the seven dashboard functions the page calls is defined by the root `database.py` |
| AppRoutes.RootImportFails | app.py:116-129 | with the root module imported, the page shows zeros and the KPI warning, and the map, KPI, summary and monthly endpoints answer 500 for every accepted parameter |
| AppRoutes.DashboardImportReaches | app.py:116-129 | with a module that defines the dashboard functions, the page shows the read numbers without a warning and every endpoint answers as its direct version |
| Exporter.DateText | exporter.py:38 | a date is written as year, month and day zero-padded and joined by dashes |
| Exporter.IdsTail | exporter.py:38 | the written ID list ends with the closing bracket |
| Exporter.PyStr | exporter.py:38 | `str` writes None as "None", text as itself, an integer as text that reads back as that integer, an ID list in brackets |
| Exporter.PyStrIntReadsBack | exporter.py:38 | an integer cell is written as text that `int()` reads back as that same integer |
| Exporter.CellText | exporter.py:38 | a data cell is written as the empty text for None and as `str(v)` otherwise |
| Exporter.RenderRow | exporter.py:38 | a written row has one text per value, each the value's cell text |
| Exporter.RenderRows | exporter.py:36-38 | one written row per data row, in order |
| Exporter.FirstRejected | exporter.py:36-38 | the position of the first written row openpyxl refuses, never past the end |
| Exporter.FirstRejectedSpec | exporter.py:36-38 | every row before that position is taken, and the row there, if any, is refused |
| Exporter.FirstRejectedScan | exporter.py:36-38 | a row reached by the append loop stops it exactly when openpyxl refuses that row |
| Exporter.PastLimitIgnored | exporter.py:38 | openpyxl looks only at the first 32767 characters: text taken at that length stays taken whatever follows |
| Exporter.AcceptanceExamples | exporter.py:38 | accented text with tabs and line feeds is taken; text with a bell character is refused |
| Exporter.ColumnLetter | exporter.py:55-62 | a column letter is a non-empty run of capital letters |
| Exporter.ColumnLetterRoundTrip | exporter.py:55-62 | the letters of column n name column n back, so different columns never share letters |
| Exporter.CellRef | exporter.py:55-88 | a cell reference has at least a letter and a digit |
| Exporter.LetterRun | exporter.py:55-88 | the leading run of capital letters of a text: all capitals, and the character after it is not one |
| Exporter.ReadCellRef | exporter.py:55-88 | a reference read back gives the row that `int()` reads after the letters |
| Exporter.CellRefRoundTrip | exporter.py:55-88 | a cell reference reads back as its own column and row |
| Exporter.FilterRange | exporter.py:54-57 | the filter range starts at cell A1 |
| Exporter.FilterRangeEnds | exporter.py:54-57 | the filter range ends at the last header column, on the last data row, or on the header row when there is no data |
| Exporter.CellAt | exporter.py:69 | a written cell reads as its text; a cell never written reads as empty |
| Exporter.SampleMaxIsMax | exporter.py:64-72 | the sampled maximum is at least the header length, bounds every sampled cell's length, and is one of those lengths |
| Exporter.SampleMaxIgnoresLaterRows | exporter.py:67 | rows past the sample never change the maximum |
| Exporter.ClampedWidth | exporter.py:74 | the width lies in 10..60: the length plus two when that is in range, else the nearer bound |
| Exporter.ColumnWidth | exporter.py:61-75 | each width lies in 10..60 and is at least the header length plus two and every sampled cell's length plus two, capped at 60 |
| Exporter.SetWidths | exporter.py:61-75 | after the loop every column 1..n has its computed width and every other entry is unchanged |
| Exporter.FirstIndex | exporter.py:82 | `index` finds the first occurrence, and fails exactly when the name is missing |
| Exporter.ScaleRange | exporter.py:77-94 | a colour scale is set exactly when there is data and a "Nome" header, over the data rows of the first such column |
| Exporter.Blank | exporter.py:105-107 | a new sheet has its title and no cells or widths |
| Exporter.Formatted | exporter.py:99-111 | an exported sheet holds the header row then the written data rows, is frozen, filtered over headers and data, has a width in 10..60 for exactly the header columns, and the "Nome" colour scale |
| Exporter.Worksheet.constructor | exporter.py:105-107 | a new worksheet is blank under its title |
| Exporter.Worksheet.AddHeaders | exporter.py:21-30 | the append fails exactly when openpyxl refuses a header; otherwise no headers change nothing and headers become the next row, nothing else changing |
| Exporter.Worksheet.AddData | exporter.py:32-38 | the append fails exactly when openpyxl refuses some written row; the rows before the first refused one are appended as written text, in order, and nothing else changes; the refused row's leading cells are not stated |
| Exporter.Worksheet.ApplyFormattings | exporter.py:41-94 | no headers change nothing; otherwise the panes freeze, the filter is set, every header column gets its computed width and the colour scale is set when it applies |
| Exporter.AppendRows | exporter.py:36-38 | the row loop stops at the first refused row and has appended exactly the rows before it; the refused row's leading cells are not stated |
| Exporter.WidthsAfter | exporter.py:61-75 | the column loop leaves exactly the computed widths for every header column |
| Exporter.MeasureColumn | exporter.py:61-75 | the width loop for one column computes exactly that column's width |
| Exporter.NewFormattedSheet | exporter.py:105-111 | a new sheet is written without error exactly when openpyxl takes its headers and data, and is then exactly the formatted sheet |
| Exporter.ExportSingle | exporter.py:99-121 | ValueError exactly when there are no headers; RuntimeError exactly when openpyxl refuses a header or cell; otherwise one new sheet, formatted under the given title |
| Exporter.SheetName | exporter.py:143 | a sheet keeps its own name, or is "Aba_" followed by a number |
| Exporter.DefaultNameNumber | exporter.py:143 | the number in a default name is one more than the sheets already in the workbook |
| Exporter.DefaultNamesDiffer | exporter.py:143 | default names given with different sheet counts differ |
| Exporter.PlanStep | exporter.py:143-159 | a request without headers plans no sheet; one with headers plans one sheet with its name, headers and data |
| Exporter.Planned | exporter.py:142-159 | no more sheets are planned than requested, and each planned sheet has headers |
| Exporter.PlannedSnoc | exporter.py:142-159 | one more request adds exactly its own step, named after the sheets planned so far |
| Exporter.PlannedEmpty | exporter.py:148-162 | no sheet is planned exactly when every request lacks headers |
| Exporter.SheetOf | exporter.py:154-159 | a planned sheet is written under its title, with its headers as row 1 and one row per data row |
| Exporter.RealizesConcat | exporter.py:142-159 | sheets that realise two plans realise the two plans one after the other |
| Exporter.FirstRefused | exporter.py:142-159 | the position of the first request openpyxl refuses, never past the end |
| Exporter.FirstRefusedSpec | exporter.py:142-159 | every request before that position is taken, and the one there, if any, is refused |
| Exporter.FirstRefusedScan | exporter.py:142-159 | a request reached by the loop stops it exactly when openpyxl refuses it |
| Exporter.WriteInput | exporter.py:143-159 | one loop step fails exactly when its request is refused; otherwise it adds new sheets realising exactly its planned step |
| Exporter.WriteSheets | exporter.py:142-159 | the loop fails exactly when some request is refused; otherwise its new sheets realise the whole plan, in order |
| Exporter.MultiSheets | exporter.py:161-165 | the workbook has at least one sheet: the planned ones, or a single blank "Vazio" |
| Exporter.ExportMulti | exporter.py:124-177 | ValueError exactly for an empty request; RuntimeError exactly when openpyxl refuses some request's text; otherwise new sheets, one per request with headers, in order, formatted, or the blank "Vazio" sheet |
| BackendExporter.CellAt | backend/exporter.py:54-55 | a column of a row reads as that cell, and as None past the row's end |
| BackendExporter.CellLength | backend/exporter.py:57-58 | a None cell counts 0, any other cell the length of its `str` |
| BackendExporter.ColumnMaxIsMax | backend/exporter.py:53-58 | the column maximum bounds every cell's length and is 0 or one of those lengths |
| BackendExporter.ColumnWidth | backend/exporter.py:61-62 | the width lies in 2..50, is at least every cell's length plus two capped at 50, and below 50 it is 2 or some cell's length plus two |
| BackendExporter.MaxColumn | backend/exporter.py:52 | the columns walked are at least one and at least as many as the longest row |
| BackendExporter.SetWidths | backend/exporter.py:52-62 | after the width pass every column 1..n has its computed width and every other entry is unchanged |
| BackendExporter.HeaderRow | backend/exporter.py:25-28 | header i becomes the text of column i of row 1 |
| BackendExporter.FirstBadRow | backend/exporter.py:42-43 | the position of the first data row openpyxl refuses, never past the end |
| BackendExporter.FirstBadRowSpec | backend/exporter.py:42-43 | every row before that position is taken, and the row there, if any, holds a refused value |
| BackendExporter.FirstBadRowScan | backend/exporter.py:42-43 | a row reached by the append loop stops it exactly when openpyxl refuses one of its values |
| BackendExporter.WritableExamples | backend/exporter.py:25-43 | numbers, text and None are written; a list value is refused; a header with a control character is refused |
| BackendExporter.Written | backend/exporter.py:76-81 | an exported sheet holds the header row when there are headers, then the data rows; row 1's height is set; widths exist only with data, for exactly the walked columns, and none exceeds 50 |
| BackendExporter.Sheet.constructor | backend/exporter.py:76-78 | a new sheet has its title and nothing else |
| BackendExporter.Sheet.AddHeaders | backend/exporter.py:19-34 | the cell-by-cell loop fails exactly when openpyxl refuses a header; otherwise it writes exactly the header row and sets row 1's height, even without headers; the title never changes |
| BackendExporter.Sheet.AddData | backend/exporter.py:36-63 | no data changes nothing; the append fails exactly when openpyxl refuses some value; otherwise the rows are appended as they are and every walked column gets the width of all its cells, header included |
| BackendExporter.LongestCell | backend/exporter.py:53-60 | the inner loop over a column finds exactly the column maximum |
| BackendExporter.MeasureColumn | backend/exporter.py:53-62 | the inner loop computes exactly the column's width |
| BackendExporter.NewWrittenSheet | backend/exporter.py:76-81 | a new sheet under the title is written without error exactly when openpyxl takes its headers and values, and is then exactly the written sheet |
| BackendExporter.WrittenOf | backend/exporter.py:106-108 | an entry is written under its own name |
| BackendExporter.WrittenAll | backend/exporter.py:105-108 | one written sheet per entry, in order |
| BackendExporter.WrittenAllSnoc | backend/exporter.py:105-108 | one more entry adds exactly its own written sheet at the end |
| BackendExporter.HoldsConcat | backend/exporter.py:105-108 | sheets that hold two lists of states hold the two lists one after the other |
| BackendExporter.WriteEntry | backend/exporter.py:106-108 | one loop step fails exactly when its entry lacks a key or holds a refused value; otherwise it adds one new sheet holding exactly that entry's written sheet |
| BackendExporter.ExcelExporter.WriteEntries | backend/exporter.py:105-108 | the loop fails exactly when some entry lacks a key or holds a refused value; otherwise its new sheets hold every entry's written sheet, in order |
| BackendExporter.ExcelExporter.constructor | backend/exporter.py:16-17 | a new exporter holds a fresh workbook with one default sheet |
| BackendExporter.ExcelExporter.ExportSingle | backend/exporter.py:65-89 | RuntimeError exactly when openpyxl refuses a header or value; either way the exporter keeps a new one-sheet workbook under the title, and on success that sheet is exactly the written sheet |
| BackendExporter.ExcelExporter.ExportMulti | backend/exporter.py:91-116 | RuntimeError exactly when there are no entries (saving a workbook with no sheets) or some entry lacks a key or holds a refused value; otherwise one new written sheet per entry, in order, even without headers |

## Left out

- Connection pool, request-scoped connections and the query executor
  (`backend/db/connection.py`, `backend/db/executor.py`, the pool
  functions of both `database.py` files): I/O. `SqlText.ExecuteQuery` is an
  abstract function from query to rows that answers `[]` when the driver
  would reject the parameter count, because the executor catches its own
  errors.
- The executor's real signature. `backend/db/executor.py:9` has no
  `fetch_one` argument and returns dictionary rows. `SqlText.FetchOne`
  models the single-row fetch the callers intend, not the `TypeError` the
  real call would raise.
- What PostgreSQL returns for the WHERE, GROUP BY, window and date
  expressions. Only query text, parameters and the Python post-processing
  of the returned rows are modelled.
- Whitespace normalisation of query text (`.strip()`,
  `.replace("  ", " ")`): the fixed pieces are kept as single-line texts.
- Floating point: consumption sums, `float()`, `toFixed`, `parseFloat`,
  `toLocaleString` and `Intl.NumberFormat` are integers or text here. The
  `-Infinity` of a non-numeric sort cell is an explicit bottom value.
- Case mapping covers ASCII only. Whitespace follows Python's `str.strip`
  and JavaScript's `trim` sets, including the Unicode spaces.
- Unicode decimal digits: Python's `\d` (`backend/routes/api.py:46`, `:159`,
  `app.py:111`) and `int()` also accept non-ASCII decimal digits such as
  Arabic-Indic ones. `ApiRoutes.MonthPattern`, `ApiRoutes.YearPattern`,
  `ApiRoutes.PyInt` and `Dashboard.ParseMonth` accept the ASCII digits 0-9
  only.
- Dashboard.ParseMonth: `strptime`'s `%Y` and `%m`
  (`backend/db/dashboard.py:19`, `:37`, `:55`) also accept a year or month
  written in non-ASCII decimal digits; the model refuses such a month, so
  it gets no window where Python would give one.
- DashboardControls.Compare: of the pt-BR collation with base sensitivity
  only the base letters of Latin-1 accented letters are modelled. Other
  rules (ø, æ, ß, Latin Extended letters, the order of punctuation and
  symbols relative to letters) are not; texts compare by the code points of
  their base letters.
- Text longer than 32767 characters: openpyxl checks only the first 32767
  characters (`Exporter.TextAccepted` models that) and stores only those
  32767 characters. The model stores the whole text.
- Exporter.Worksheet.AddHeaders: when openpyxl refuses a header, the sheet
  state after the error is stated as unchanged. The cells written before
  the refused one do not matter, because the export then raises and the
  workbook is dropped.
- Exporter.Worksheet.AddData: when openpyxl refuses a value, `ws.append`
  (`exporter.py:38`) has already stored the cells of that row before the
  refused value. The state after the refusal, here and in
  `Exporter.AppendRows`, holds the rows before the refused one and none of
  the refused row's cells. The export then raises and the workbook is
  dropped, so the partial row is never seen.
- BackendExporter.Sheet.AddHeaders: after a refused header only the title
  is stated. The export raises and the workbook is dropped.
- BackendExporter.Sheet.AddData: after a refused value only the title and
  the header height are stated, for the same reason.
- Duplicate sheet titles: openpyxl renames a sheet whose title is already
  taken. The model keeps the requested title.
- JSON is modelled only for the two shapes the scripts store (an object of
  booleans and an array of strings), without the blanks JSON.parse allows
  between tokens. JavaScript prototype keys such as `__proto__` are not
  modelled.
- JsonStore.ReadChar: a `\u` escape of a UTF-16 surrogate (one half of a
  pair) is read as unparsable, because a model character is a whole
  Unicode scalar value. JSON.stringify never writes such an escape for the
  texts the scripts store.
- Foreign libraries: Chart.js, ApexCharts, Plotly, SortableJS, the
  Bootstrap modal and openpyxl internals (cell styles, fonts, fills,
  borders, row heights other than the header's, serialisation to bytes,
  and openpyxl's own errors on invalid sheet titles). `secure_filename` is
  an opaque function parameter. `encodeURIComponent` is modelled
  (`GreenScorePage.Encode`), and so are `URLSearchParams.get` and `set`
  (`ReportsLoader.Lookup`, `ReportsLoader.SetParam`). How an argument list
  is written out as query-string text (`URLSearchParams.toString`) is not:
  a link carries its argument list.
- `fetch`, `async`/`await`, `Promise.all`, timers (the TV refresh, the
  clock, the flash-message dismissal) and DOM rendering beyond the state
  each handler changes. A request's answer is a parameter of the handler
  that receives it.
- DOM null checks for elements the pages always contain, hover animations,
  the theme's Chart.js and Plotly colour configurations, and
  `applyThemeToNewContent`.
- The clock: the current month, the timestamp in file names, and the
  month-option lists of `backend/routes/dashboard.py:53-75` and
  `app.py:132-149`, which also rely on a 30-day approximation and on the
  locale's `%b`.
- Authentication (`backend/models.py`, `backend/routes/auth.py`,
  `backend/forms.py`) and the `login_required` guard on every route.
- Wiring and configuration: `run.py`, `backend/__init__.py`,
  `backend/config.py`, `tailwind.config.js`,
  `static/js/green-score-config.js` and the stubs of
  `backend/routes/green_score_api.py`. This includes the package import
  list of `backend/db/__init__.py`, which imports `get_fornecedoras` and
  `get_headers` from `reports_base` (they are defined in `utils.py`), and
  dashboard functions that `backend/db/dashboard.py` does not define. The
  model takes every call at the function that defines it. Where a function
  is not defined in the repository (the no-RCB summary, overdue payments,
  green scores), its answer is a parameter.
- `backend/database.py` also holds copies of the licensee, boletos, RZK,
  receivables and state-map reports. Nothing calls them apart from the pool
  functions, so of that file only the report and count queries, the detail
  batching, the headers, the month window and the monthly fold are
  modelled.
- `Exporter.Planned`: its own contract states only the bound on the number
  of sheets. Which sheets are planned is stated by `Exporter.PlannedEmpty`,
  `Exporter.MultiSheets` and `Exporter.ExportMulti`.
- `ApiRoutes.KpiEndpointAsWritten`: its own contract states only the 400
  case. Its 500 answer for every accepted month is
  `ApiRoutes.KpiAsWrittenAlwaysFails`.
- `ApiRoutes.KpiEndpoint`: the corrected endpoints drop the supplier
  parameter, because the KPI functions have no supplier filter to pass it
  to.

## Findings

| source | as written | input that shows it | evidently intended | confidence | as-written member | corrected member |
|---|---|---|---|---|---|---|
| backend/db/reports_boletos.py:76 | The cancelled-status pattern `'CANCELADO%'` is written into the query text (here and again at line 149). A bare `%` in text that also carries parameters is a format error for the driver. | Any call, e.g. supplier "X", limit 50, offset 0. The driver rejects the query, so the data call yields `[]` and the count yields 0. | Pass the pattern as a parameter, as `backend/db/reports_specific.py:70-73` does. | medium, not executed | ReportsBoletos.AsWrittenRejected | ReportsBoletos.DataQuery |
| backend/db/reports_specific.py:186 | `{from_sql.strip()}{join_sql.strip()}` (here and again at line 219) joins the alias `c` and `LEFT` with no blank between them. | Any non-empty ID list. The text reads `FROM public."CLIENTES" cLEFT JOIN`, so `c.` columns do not resolve. | Keep the blank: `... c LEFT JOIN ...`. | high, not executed | ReportsSpecific.RzkAliasFused | ReportsSpecific.RzkFrom |
| backend/routes/api.py:343-351 | `fornecedora_selecionada.lower()` runs on `None` when the parameter is absent, outside the `try`. | `GET /api/scores/green-score` with no `fornecedora`: AttributeError, so 500. | The docstring says that an absent parameter means every supplier. | high, not executed | ApiRoutes.AbsentSupplierFails | ApiRoutes.GreenScoreFilterAgrees |
| backend/routes/api.py:108 | The KPI routes (here and at lines 127 and 146) call the dashboard functions with `fornecedora_filter=`. Those functions declare only `month_str` (`backend/db/dashboard.py:10,28,46`). | `GET /api/kpi/total-kwh?month=2024-05`: TypeError, so 500, for every accepted month. | Call with the month only, as `backend/routes/dashboard.py:38-39` does. | high, not executed | ApiRoutes.KpiAsWrittenAlwaysFails | ApiRoutes.KpiEndpoint |
| static/js/dashboard_controls.js:541 | The summary tables (here and at line 573) are filled only when the card's saved visibility is truthy. The fetch guard at line 512 skips only an exact `false`. | Saved settings without `card-table-fornecedora`: the data is fetched, but the table stays on its loading row. | Use the same "missing means visible" test as the fetch guard. | high, not executed | DashboardControls.MissingIdStaysLoading | DashboardControls.SavedIdsAgree |
| app.py:14 | `import database` reaches the root `database.py`. That module defines none of the dashboard functions the page calls (lines 120-122, 304, 327, 344, 371, 382, 393 and 407). | `GET /?month=2024-05` shows zeros with the warning "Erro ao carregar KPIs iniciais do dashboard."; `GET /api/kpi/total-kwh?month=2024-05` answers 500. | Import the module that defines the dashboard functions, as `backend/database.py` does (line 226 and lines 456-583). | high, not executed | AppRoutes.RootImportFails | AppRoutes.DashboardImportReaches |
