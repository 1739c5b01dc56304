# WP-Members user export, modelled in Dafny

This project models `wpmem_export_users` from the WP-Members plugin
(`admin/user-export.php`). The function writes a CSV download of site users.
It runs in five steps:

1. It merges the caller's arguments, after the `wpmem_export_args` filter, over the defaults.
2. It drops the requested fields whose storage key is excluded.
3. It writes a UTF-8 byte order mark and a header record.
4. It writes one record per user. Each field comes from the user's identity record or from the user's metadata.
5. On a partial export (scope other than `"all"`), it sets the user's `exported` metadata to `1` after writing that user's record.

Each record is read over the metadata store as the earlier users left it, as in the source. This is observable only when a requested field's key is `exported` and a user is listed twice. `Export.RecordsIgnoreMarks` shows that otherwise every record reads the store as it was before the export.

Modules, one file each:

- `wrappers.dfy` (`Wrappers`): `Option`, standing for an array key the caller may leave out.
- `decimal.dfy` (`Decimal`): the decimal text a numeric user ID becomes in a CSV cell.
- `users.dfy` (`Users`): the identity record, the four identity keys, the metadata store as a map (a missing entry reads as `""`), and PHP string truthiness.
- `export_args.dfy` (`ExportArgs`): the field triple, the caller's arguments, the defaults and the merge.
- `field_filter.dfy` (`FieldFilter`): the effective field list, plus a separate reference definition by kept positions.
- `columns.dfy` (`Columns`): the column layout. Header text and each user's cell are defined per column, so the header and every row line up by construction.
- `rows.dfy` (`Rows`): the header and row builders, written as the source appends to `$header` and `$row`.
- `export.dfy` (`Export`): the output sink and the metadata store as classes, and the export loop.

Collaborators are parameters:

- The `wpmem_export_args` filter is a function `CallerArgs -> CallerArgs`.
- The field catalog from `wpmem_fields()` is `Site.catalog`.
- The `get_users` listing is `Site.allUsers`.
- `get_userdata` reads the map `Site.directory`.
- `get_user_meta` and `update_user_meta` act on `MetaStore.values`.
- `$wpmem->mod_reg`, `$wpmem->use_exp` and `defined('WPMEM_EXP_MODULE')` are `Settings`.
- The date text for the default file name is the string `today`.

## Model

| member | source | states |
|---|---|---|
| `ExportArgs.Resolve` | admin/user-export.php:33-48 | The filter is applied to the caller's array before defaulting. A missing `export` key means `"all"`. A missing `filename` key means `wp-members-user-export-<date>.csv`. A missing `export_fields` key means the catalog. A missing `exclude_fields` key means password, confirm_password, confirm_email. Every key the filtered array supplies overrides its default. |
| `ExportArgs.NoArgsMeansDefaults` | admin/user-export.php:33-48 | With no arguments and a pass-through filter, the export runs on exactly the defaults. |
| `ExportArgs.MergeResolved` | admin/user-export.php:48 | Merging a fully supplied array returns that array unchanged, whatever the defaults. |
| `FieldFilter.EffectiveFields` | admin/user-export.php:62-64 | The filter never grows the list. |
| `FieldFilter.EffectiveFieldsMembers` | admin/user-export.php:62-64 | A field is in the effective list if and only if it is requested and its key is not excluded. |
| `FieldFilter.KeptPositionsSpec` | admin/user-export.php:62-64 | The reference positions are in range and strictly ascending. A position is kept if and only if its field's key is not excluded. |
| `FieldFilter.EffectiveFieldsAtKept` | admin/user-export.php:62-64 | The effective list is the requested list read at the kept positions, in order: the same length, and entry k is the field at the k-th kept position. |
| `FieldFilter.EffectiveFieldsAppend` | admin/user-export.php:62-64 | Filtering commutes with concatenation, so the filter preserves order. |
| `FieldFilter.ExcludeAbsentKey` | admin/user-export.php:62-64 | Excluding a key that no field has changes nothing. |
| `FieldFilter.ExcludeOneMore` | admin/user-export.php:62-64 | Excluding one more key, held by exactly one field, removes that one field and leaves every other kept field in place. |
| `FieldFilter.NothingExcluded` | admin/user-export.php:37-64 | A caller-supplied empty exclude list replaces the default, and then every requested field is exported, including password fields. |
| `Columns.LayoutPositions` | admin/user-export.php:69-84 | The layout is as follows. `User ID` and `Username` come first. Field i is at 2 + i. `Activated?` is present if and only if `mod_reg == 1`. `Subscription` and `Expires` are present if and only if the module is defined and `use_exp == 1`. `Registered` and `IP` come last. The width is 2 + fields + (0 or 1) + (0 or 2) + 2. |
| `Columns.FieldValueSource` | admin/user-export.php:97-100 | An identity-key field does not depend on the metadata store. Any other field does not depend on the identity record. |
| `Columns.RowCellsFrame` | admin/user-export.php:98-120 | Two stores that agree on the keys the layout reads for a user give that user the same row. |
| `Columns.RowCellsAt` | admin/user-export.php:102-120 | Cell i of a user's row is that user's cell in column i. |
| `Columns.HeaderCellsAt` | admin/user-export.php:69-84 | Cell i of the header is column i's header text. |
| `Columns.RowMatchesHeader` | admin/user-export.php:69-120 | A data row has exactly as many cells as the header: 2 + fields + (0 or 1) + (0 or 2) + 2. |
| `Rows.BuildHeader` | admin/user-export.php:69-84 | The header built by appending is the column layout's header text, column by column. |
| `Rows.FieldValues` | admin/user-export.php:97-100 | The field block has one value per effective field. Value i resolves field i. |
| `Rows.BuildRow` | admin/user-export.php:95-120 | The row built by appending is the layout's cells for that user, column by column: ID, login, field block, "Yes"/"No" from `active` truthiness, raw `exp_type` and `expires`, `user_registered`, `wpmem_reg_ip`. |
| `Rows.EmailPhoneHeader` | admin/user-export.php:69-84 | Worked case with fields Email (identity key) and Phone (metadata key), no exclusions and no optional columns. The header is User ID, Username, Email, Phone, Registered, IP. |
| `Rows.EmailPhoneRow` | admin/user-export.php:95-120 | The same case for user 1, alice, a@b.com, with no metadata. The row is 1, alice, a@b.com, "", the registration time, "". |
| `Decimal.Show` | admin/user-export.php:104 | The ID cell is at least one digit, all decimal, with no leading zero. |
| `Decimal.ParseShow` | admin/user-export.php:104 | Reading the ID cell back gives the user's ID. |
| `Decimal.ShowInjective` | admin/user-export.php:104 | Distinct IDs give distinct ID cells. |
| `Export.ExportRecords` | admin/user-export.php:93-122 | There is exactly one record per listed user. Each record has one cell per column. |
| `Export.MarkAllLookup` | admin/user-export.php:125-127 | After a partial export, `exported` reads "1" for every listed user. Every other (user, key) reads as before. |
| `Export.MarkAllKeys` | admin/user-export.php:125-127 | A partial export adds exactly the listed users' `exported` entries to the store. |
| `Export.MarkAllFull` | admin/user-export.php:125-127 | An export of all users leaves the metadata store unchanged. |
| `Export.RecordsIgnoreMarks` | admin/user-export.php:98-127 | If no column reads `exported`, every record equals the user's row over the store as it was before the export. |
| `Export.WriteRecords` | admin/user-export.php:93-128 | The output gains one record per listed user, in list order. Each record is read over the store as earlier users left it. A partial export marks every listed user, and an export of all users leaves the store unchanged. |
| `Export.Sink.Put` | admin/user-export.php:67 | Raw bytes are appended to the output. |
| `Export.Sink.PutCsv` | admin/user-export.php:86 | One record is appended to the output. |
| `Export.MetaStore.Update` | admin/user-export.php:126 | Exactly one (user, key) entry is set. |
| `Export.ExportUsers` | admin/user-export.php:26-130 | The output is: the old output, then the BOM bytes EF BB BF, then the header, then one record per target user in list order. The target users are all users when the scope is "all", otherwise the caller's list, and none when no list was given. The store ends up with every target user marked on a partial export, and unchanged otherwise. The returned file name is the resolved `filename`. |

## Left out

- HTTP response headers (lines 57-60), output buffering, the final `print` and `exit()`: these are I/O and process control. The download name is returned instead of being sent.
- The date in the default file name (line 30) depends on the clock. It is the parameter `today`.
- Translation through `__()`: labels and "Yes"/"No" are fixed strings.
- The byte encoding done by `fputcsv` (quoting, escaping, line ends): records are modelled as sequences of cell strings.
- PHP loose comparison: `in_array` on exclude keys, `'all' == $args['export']` and `mod_reg == 1` are modelled as exact string or integer equality. They differ only for numeric strings and non-string argument values.
- `wp_parse_args` also accepts objects and query strings, and keeps unknown keys. Only the array form with the four known keys is modelled.
- Metadata values are single strings. Serialized arrays and multi-valued keys are not modelled. `update_user_meta(..., 1)` is stored as "1".
- A listed user missing from the directory: the source dereferences the missing record. `Export.ExportUsers` requires every target user to be in the directory.
