# usb.ids ingestion, modelled in Dafny

This project models the ingestion path of the USB ID lookup tool (`ids.py`):
the text of the USB ID registry (the `usb.ids` format) is cut into lines,
read in one forward pass into rows of
`(vendor id, vendor name, device id, device name)`, turned into
`(Vendor, Device)` pairs, and written into a two-table store
`vendors(id, name)` / `devices(id, name, vendor)` that is dropped and
rebuilt on every run.

Files and modules:

- `wrappers.dfy` — `Wrappers`: `Option` (Python's `None`) and `Result`
  (a value, or the exception a step raises).
- `py_str.dfy` — `PyStr`: the Python string built-ins the parser relies
  on: `s.split('\n')` (`SplitLines`), `s.strip()` (`Strip`, over the fixed
  set of characters `str.isspace` accepts) and the unpack
  `a, b = s.split('  ', 1)` (`SplitOnce`, `None` where the unpack raises
  `ValueError`).
- `ids.dfy` — `Ids`: the `Vendor` and `Device` records, `parse_data`
  (`ParseData`, a method with the source's loop and state) proved equal to
  the specification `Parse`, the properties of that specification, and
  `format_data` (`FormatData`).
- `ids_store.dfy` — `IdsStore`: the database connection as a class
  (`Connection`) whose fields hold both tables, one method per statement
  sent through the cursor (`Execute`) and `update_db` (`UpdateDb`).

How the parser is specified. `Classify` decides what one line means, by
the tests `parse_data` applies in the same order: the class-list sentinel
(the stripped line equals `# List of known device classes, subclasses and
protocols`), a comment or blank line, a vendor header (not tab-led), or a
device line (tab-led, two-tab interface lines included), the last two
split at their first two-space run, or `Malformed` when that split finds
no run and the unpack raises. `RunFrom` is the pass over classified lines:
it carries the current vendor and the rows, stops at the sentinel, and
stops with an error at the first malformed line. `ParseData` is proved to
return exactly `Parse(data)`; the lemmas then state what that result is,
first over classified lines (`SentinelEndsParse`, `SkippedLineIsInert`,
`ParseFailsIff`, `RowCount`, `RowOfDeviceLine`) and then over the raw lines
(`ParseStopsAtSentinel`, `ParseSkipsLine`, `ParseRaisesIff`,
`ParsedRowCount`, `ParsedRowAt`).

How the store is specified. `Apply` gives the engine's own meaning of each
statement (`DROP TABLE IF EXISTS`, `CREATE TABLE` failing on an existing
table, `INSERT` failing on a missing one, `commit`). Under the default
transaction control of Python's sqlite3 module, of the statements
`update_db` sends only `INSERT` opens a transaction, so the drops and creates of `update_db` take effect at once
when no transaction is open; `pending` records uncommitted inserts. The
connection keeps the invariant that a table that does not exist holds no
rows (`Connection.Valid`). Failures caused by the
environment (a locked file, a full disk) are a parameter of the connection:
`faultAt`, the number of the statement on which the engine raises, if any.
`UpdateDb` returns true exactly when none of its `2n + 5` statements meets
that fault, and then both tables hold exactly the new rows, in order, with
nothing left of the old contents and nothing left uncommitted.

What `ids.py` does in the edge cases, as the model states it:

- A device line that comes before any vendor header is not rejected: its
  row carries `None` as vendor id and name (ids.py:93-94, 105). In the
  model this is `VendorAt(Start, ...) == (None, None)`.
- Vendor rows are not deduplicated: one vendor row is inserted per device
  row (ids.py:152), so `VendorRows(data)` has `|data|` entries.
- The update is not staged: the old tables are dropped first (ids.py:143-144).
- A header or device line without a two-space run is not skipped: the
  unpack raises `ValueError` and the whole parse fails (ids.py:102, 104).

## Model

| member | source | states |
|---|---|---|
| `PyStr.SplitLines` | ids.py:91 | `data.split('\n')` gives at least one piece, no piece holds a newline, and joining the pieces with newlines gives the text back |
| `PyStr.SplitLinesOfJoin` | ids.py:91 | splitting is the only way to cut a text into newline-free pieces: splitting the newline-join of such pieces returns those pieces |
| `PyStr.Strip` | ids.py:97 | `line.strip()` is no longer than the line, and when not empty neither starts nor ends with whitespace |
| `PyStr.StripStartSpec` | ids.py:97 | the leading part `strip` removes is all whitespace and what remains is a suffix starting with non-whitespace |
| `PyStr.StripEndSpec` | ids.py:97 | the trailing part `strip` removes is all whitespace and what remains is a prefix ending with non-whitespace |
| `PyStr.StripSpec` | ids.py:99 | `line.strip() == ''` holds exactly for whitespace-only lines; a non-empty result starts and ends with non-whitespace |
| `PyStr.StripPadded` | ids.py:104 | `strip` removes exactly the whitespace padding around a core that starts and ends with non-whitespace |
| `PyStr.FindDoubleSpace` | ids.py:102 | the position found is where two spaces start and no earlier position from the start point is one |
| `PyStr.SplitOnce` | ids.py:102 | the unpack of `split('  ', 1)` fails exactly when the line has no two-space run; otherwise the line is head + two spaces + tail, the tail verbatim, and no two-space run starts inside the head |
| `PyStr.SplitOnceOfJoin` | ids.py:102-104 | a head with no two-space run that does not end in a space, joined to any tail by two spaces, splits back into that head and tail |
| `Ids.Classify` | ids.py:97-104 | a line is the sentinel exactly when its stripped text is the catalogue heading; a line is skipped exactly when it is a comment or blank and not the sentinel; a vendor header is not tab-led and is `id + "  " + name` with no two-space run in `id`; a device entry is tab-led and its stripped text is `id + "  " + name` with no two-space run in `id`; a malformed line is a header (or the stripped device line) with no two-space run at all, and keeps its raw text |
| `Ids.ClassifyHeader` | ids.py:101-102 | a non-tab-led line `id + "  " + name` (id non-empty, without a two-space run, neither starting with `#` or whitespace nor ending in a space) is read as vendor id `id` and vendor name `name` verbatim, trailing whitespace or an empty name included |
| `Ids.ClassifyDevice` | ids.py:103-104 | a line `"\t" + id + "  " + name` (id non-empty, without a two-space run, not starting with whitespace nor ending in a space; name non-empty and not ending in whitespace) is stripped and read as device id `id` and device name `name`, later double spaces staying in the name; an id starting with `#` is read like any other |
| `Ids.Step` | ids.py:99-105 | one line raises exactly when it is malformed; otherwise the rows are only appended to, by one row exactly for a device line, and the current vendor changes only on a header |
| `Ids.RunFrom` | ids.py:96-105 | a successful pass keeps the rows it started with as a prefix; a raised error carries the text of a malformed line of the input |
| `Ids.ParseLines` | ids.py:96-106 | when the pass over the lines raises, the offending line is one of them and is malformed |
| `Ids.Parse` | ids.py:91-108 | when parse_data raises, the offending line is one of the newline-free lines of the text |
| `Ids.ParseData` | ids.py:82-108 | the loop over the lines, carrying the current vendor and appending rows, returns exactly the specified result `Parse(data)`, error included |
| `Ids.SentinelEndsParse` | ids.py:96-98 | no line at or after a sentinel changes the result of the pass, from any starting state |
| `Ids.SkippedLineIsInert` | ids.py:99-100 | removing a comment or blank line from any position changes nothing in the result of the pass, from any starting state |
| `Ids.ParseFailsIff` | ids.py:101-104 | the pass raises if and only if some line before the first sentinel is malformed |
| `Ids.RowCount` | ids.py:103-105 | a successful pass keeps the rows it started with and adds exactly one per device line before the sentinel |
| `Ids.LastHeaderCons` | ids.py:101-102 | the latest header of `[l] + q` is the latest header of `q`, or `l` itself when `q` has none and `l` is a header: the latest header read off the back equals the one found by reading the first line off the front |
| `Ids.RowOfDeviceLine` | ids.py:96-105 | the row of the k-th device line sits at position (rows before it + device lines above it), holds the vendor of the latest header above it (or the starting vendor when there is none) and the line's own device id and name |
| `Ids.ParseStopsAtSentinel` | ids.py:97-98 | for raw lines: the result with a sentinel line and anything after it equals the result of the lines before it |
| `Ids.ParseSkipsLine` | ids.py:99-100 | for raw lines: inserting a comment or whitespace-only line other than the sentinel anywhere changes nothing |
| `Ids.ParseRaisesIff` | ids.py:101-104 | for raw lines: parse_data raises exactly when a header or device line before the sentinel has no two-space run |
| `Ids.ParsedRowCount` | ids.py:101-105 | for raw lines: a successful parse has one row per tab-led, non-blank, non-comment line before the sentinel |
| `Ids.ParsedRowAt` | ids.py:93-105 | for raw lines: the device line k yields the row at the count of device lines above it, with the latest header's vendor (None/None when there is none) and the halves of its stripped text |
| `Ids.HeaderThenDevice` | ids.py:101-105 | a header line followed by one device line parses to the single row carrying the header's id and name and the device line's id and name |
| `Ids.IntelExample` | ids.py:82-108 | `"8086  Intel Corporation"` over `"\t0a2b  Device  With Spaces"` parses to the one row (8086, Intel Corporation, 0a2b, Device  With Spaces) |
| `Ids.FormatData` | ids.py:111-125 | one pair per row, in order; each pair gives back its row, and its device's vendor is its vendor's id |
| `IdsStore.Apply` | ids.py:143-155 | only `CREATE TABLE` and `INSERT` can be refused by the engine; an accepted statement keeps a missing table empty, leaves the other table untouched; an `INSERT` leaves changes pending, `commit` clears them, and `DROP`/`CREATE` leave the pending flag as it was (autocommit outside a transaction) |
| `IdsStore.Connection.Execute` | ids.py:143-155 | keeps the connection's invariant; a statement succeeds exactly when the engine accepts it and the environment does not fail it; it then changes the tables as the engine specifies, and otherwise keeps the connection's invariant (sqlite may roll back the open transaction after a fault) |
| `IdsStore.Connection.UpdateDb` | ids.py:128-159 | keeps the connection's invariant; returns true exactly when none of its statements fails; then the vendors table holds one row (vendor id, name) per pair and the devices table one row (device id, name, vendor id) per pair, in order, nothing of the old contents, and the changes are committed |
| `IdsStore.DeviceVendorsListed` | ids.py:150-153 | every device row written names the id of some vendor row written in the same run |
| `IdsStore.StoredRowsOfParsed` | ids.py:120-125 | through format_data and update_db, parsed row i becomes vendor row i and device row i, the device row pointing at the row's vendor id |

## Left out

- `get_ids` (ids.py:67-79): the HTTP fetch is network I/O; the model starts from the text it returns.
- `main` (ids.py:162-189): orchestration around the fetch and printing. As written it reads `status_code` on the `None` that `get_ids` returns for a non-200 response, so its failure branch cannot run; it is not modelled.
- usb-lookup.py: argument parsing, prompts, screen clearing, printing, and the `search_*` / `reverse_device_search` single-query wrappers; none of it belongs to the ingestion path.
- pandas: the DataFrame built at ids.py:107 and walked by `iterrows` at ids.py:121 is modelled as the sequence of rows itself.
- sqlite: beyond which statements open a transaction, the engine's transaction handling, what a failed update leaves in the tables, and any rollback are not specified; `UpdateDb` only promises its return value on failure.
- Connection.Execute: after a failed statement only the connection's invariant is promised, not the tables' contents, because sqlite may roll back the open transaction on a fault such as a full disk or a busy file. A failure of `con.cursor()` itself is not separate from a failure of the first statement, which has the same outcome.
- The error message printed by `update_db` on failure (ids.py:158) is output only.
