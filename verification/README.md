# QR-code settings update, modelled in Dafny

The service stores QR-code configurations (color, size, image format,
error-correction level, encoded data) in a single table keyed by id. Its one
piece of logic is the settings update: the free-text format is normalised to
SVG or PNG, the free-text error level to LOW, MEDIUM, QUARTILE or HIGH, a
column map is built that leaves out the columns whose value is None, the row
with the given id is updated with it, and the response echoes the id and
reports whether a record came back.

Modules, in dependency order:

- `Optional` (optional.dfy): `Option`, standing for Python's `Optional` / `None`.
- `Ascii` (ascii.dfy): upper-casing of strings over the ASCII letters, and case-insensitive equality.
- `Enums` (enums.dfy): the `QRFormat` and `ErrorLevel` enumerations and their names.
- `Normalize` (normalize.dfy): `ParseFormat` and `ParseErrorLevel`, with the level lookup table.
- `Config` (config.dfy): the `QRCodeConfig` row, the update map (`Changes`) and the field-level merge.
- `Store` (store.dfy): the table as `map<string, QRCodeConfig>`, each row filed under its own id, and update-by-id, standing for the ORM's `update`.
- `UpdateService` (update_service.dfy): `BuildUpdate`, the handler `UpdateQRCodeSettings` and its response.

Two behaviours of the handler worth noting:

- The handler does not check that `size` is positive; any integer is written.
- A missing id is not an error inside the handler. The ORM's `update` returns no record, and the handler answers `updated = false`.

## Model

| member | source | states |
|---|---|---|
| `Ascii.ToUpper` | project/update_qr_code_settings_service.py:42 | upper-casing keeps the length and upper-cases each character in place (ASCII letters only) |
| `Ascii.ToUpperIdempotent` | project/update_qr_code_settings_service.py:42 | upper-casing an upper-cased string changes nothing |
| `Ascii.UpperEqualIffEqualIgnoringCase` | project/update_qr_code_settings_service.py:42 | two strings have the same upper-case form exactly when they differ only in the case of their letters |
| `Enums.LevelNameInjective` | project/update_qr_code_settings_service.py:45-49 | the four level names are pairwise distinct, so the lookup table is unambiguous |
| `Normalize.ParseFormat` | project/update_qr_code_settings_service.py:40-44 | the format is SVG exactly when the input equals "SVG" up to letter case, and PNG for every other input, including the empty string |
| `Normalize.LevelTableIsNames` | project/update_qr_code_settings_service.py:45-49 | the lookup table maps each level's name to that level and holds no other key |
| `Normalize.ParseErrorLevel` | project/update_qr_code_settings_service.py:45-50 | an input naming a level in any case selects that level; an input naming none selects HIGH |
| `Normalize.LevelLookupMatchesNames` | project/update_qr_code_settings_service.py:45-50 | looking up the upper-cased input in the table succeeds exactly when the input names a level up to case, and then yields that level |
| `Normalize.ParseErrorLevelCharacterised` | project/update_qr_code_settings_service.py:45-50 | both directions: a level is selected exactly by its own name up to case, and HIGH additionally by every input that names no level |
| `Normalize.FormatCaseInsensitive` | project/update_qr_code_settings_service.py:40-44 | inputs that differ only in letter case select the same format |
| `Normalize.ErrorLevelCaseInsensitive` | project/update_qr_code_settings_service.py:45-50 | inputs that differ only in letter case select the same level |
| `Normalize.FormatNameRoundTrip` | project/update_qr_code_settings_service.py:40-44 | parsing a format's own name gives back that format |
| `Normalize.LevelNameRoundTrip` | project/update_qr_code_settings_service.py:45-50 | parsing a level's own name gives back that level |
| `Normalize.FormatExamples` | project/update_qr_code_settings_service.py:40-44 | "svg", "Svg" and "SVG" select SVG; "png", "", "jpeg", "svgz" and "sv" select PNG |
| `Normalize.ErrorLevelNamedExamples` | project/update_qr_code_settings_service.py:45-49 | "low", "Medium", "quartile" and "hIgH" select their levels |
| `Normalize.ErrorLevelFallbackExamples` | project/update_qr_code_settings_service.py:50 | "", "H", "lowest" and "med" fall back to HIGH |
| `Config.ApplyChanges` | project/update_qr_code_settings_service.py:62-64 | merging an update overwrites exactly the columns named in it; every other column and the id keep their stored values |
| `Config.ApplyNothing` | project/update_qr_code_settings_service.py:62-64 | an empty update leaves the row unchanged |
| `Config.ApplySequential` | project/update_qr_code_settings_service.py:62-64 | two updates in turn equal one update in which the later one wins on shared columns |
| `Config.ApplyIdempotent` | project/update_qr_code_settings_service.py:62-64 | merging the same update twice gives the same row as merging it once |
| `Store.Update` | project/update_qr_code_settings_service.py:62-64 | update-by-id returns a record exactly when the id exists (on a table whose rows are filed under their own ids: exactly when some row's id column equals it); that row is merged, all other rows and the set of ids are untouched, and rows stay filed under their own ids |
| `Store.UpdateIdempotent` | project/update_qr_code_settings_service.py:62-64 | running the same update-by-id twice leaves the table and the returned record as running it once |
| `UpdateService.BuildUpdate` | project/update_qr_code_settings_service.py:51-61 | the column map always holds color, size, format and error level with the given values, and holds data exactly when data was supplied |
| `UpdateService.UpdateQRCodeSettings` | project/update_qr_code_settings_service.py:18-65 | on a table whose rows are filed under their own ids, the response echoes the id and reports updated exactly when the store returned a record, i.e. when some row's id column equals the id; the row then holds the new color and size, the normalised format and level, and the new data only if given; no other row changes |
| `UpdateService.NoDataKeepsData` | project/update_qr_code_settings_service.py:51-64 | an update with data None leaves the stored data as it was |
| `UpdateService.UpdateTwiceSameAsOnce` | project/update_qr_code_settings_service.py:40-65 | calling the handler twice with the same arguments gives the same table and the same response as calling it once |
| `UpdateService.StoredEnumsAreNormalised` | project/update_qr_code_settings_service.py:40-64 | the stored format is SVG exactly for case variants of "svg", and the stored level is HIGH whenever the input names no level |
| `UpdateService.PatchExample` | project/update_qr_code_settings_service.py:18-65 | color "red", size 300, format "png", level "low" and no data on an existing row answer updated true and store PNG and LOW with the data unchanged |
| `UpdateService.MissingIdExample` | project/update_qr_code_settings_service.py:62-65 | an update for an id with no row changes nothing and answers updated false |

## Left out

- project/server.py: HTTP routing and parameter coercion, the connect/disconnect lifecycle of the database client, and the catch-all that turns any exception into a 500 JSON body. These are framework and I/O plumbing.
- The ORM's query execution, transactions, connection handling and any exception it raises. Its `update` is modelled as `Store.Update`: the merged record when the id exists, nothing otherwise.
- Store.Update: requires the column map to be well typed (each column gets a value of its declared type). The ORM's schema validation of ill-typed maps is not modelled; the handler only ever passes well-typed maps (`UpdateService.BuildUpdate` ensures it).
- Ascii.ToUpper: upper-cases the ASCII letters a-z only. Python's `str.upper()` also maps other Unicode letters and can change a string's length.
- Normalize.ParseFormat: because of the ASCII-only upper-casing, an input such as "ſvg" (long s), which Python upper-cases to "SVG", selects PNG here instead of SVG.
- Normalize.ParseErrorLevel: for the same reason, an input such as "quartıle" (dotless i), which Python upper-cases to "QUARTILE", selects HIGH here instead of QUARTILE.
- UpdateService.UpdateQRCodeSettings: `size` is an unbounded integer. The width of the database column is set by the database schema, which is not part of this model.
- UpdateService.BuildUpdate: color and size are taken as always present, as the handler's signature requires. Only data can be None, so only data is ever filtered out.
- The truthiness of the ORM's return value: a returned record is taken as truthy, so `updated` is true exactly when a record came back.
- The create path and QR image rendering. `project.create_qr_code_service` is not part of this model, and rendering is done by an external library.
- Async execution and concurrent updates to the same row (last writer wins).
