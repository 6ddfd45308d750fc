# Project-manager front end: a Dafny model

This project models the rules of a React/Supabase project-management front end. The
application keeps construction-budget projects whose items live in a spreadsheet-like grid.
Administrators manage roles, columns and per-column permissions. Collaborators see only
their own projects, with unread-message badges. Projects are imported from CSV or XLSX
files and exported to XLSX. Only the logic between the database calls is modelled; each
call becomes a parameter that carries its outcome.

The model has one module per source file:

- `UserPermissions` (`src/hooks/useUserPermissions.ts`) works out, for a user and a project:
  - the user's role;
  - each project column's level (`none` / `view` / `edit`);
  - the `canEdit` / `canDelete` / `canCreate` flags;
  - the column queries `canViewColumn` and `canEditColumn`.
- `RolePermissionManager` (`src/components/admin/RolePermissionManager.tsx`) holds:
  - the default column table and the "apontador" default rules;
  - the permission lookup and upsert;
  - role and column creation, with name normalisation and column numbering;
  - role deletion, which refuses `admin` and cascades to the role's permissions;
  - column deletion.
- `UnreadMessages` (`src/hooks/useUnreadMessages.ts`) counts unread messages per project and marks a project's messages as read.
- `ProjectImport` (`src/hooks/useProjectImport.ts`) turns CSV text or a decoded sheet into records and dispatches on the file extension.
- `FileUpload` (`src/components/admin/FileUpload.tsx`) maps header aliases to item fields, filters rows, dispatches on file type and builds the rows to insert.
- `ProjectImportCreation` (`src/hooks/useProjectImportWithCreation.ts`) creates a project from an import: name check, custom columns, valid-row filter, item rows and `dynamic_data`.
- `ExcelExport` (`src/hooks/useExcelExport.ts`) covers value formatting, the header and data rows, column widths and the file name.
- `UserRoleAssignment` (`src/components/admin/UserRoleAssignment.tsx`) covers:
  - email enrichment;
  - assignment upserted by email;
  - removal by id;
  - the role colour;
  - grouping by role name, and the statistics cards.
- `CollaboratorDashboard` (`src/components/dashboard/CollaboratorDashboard.tsx`) covers the search filter, description shortening, the unread badge count and opening a project.
- `ImportProjectDialog` (`src/components/ui/import-project-dialog.tsx`) covers file acceptance and the open / importing / reset cycle of the dialog.
- `NotificationBadge` (`src/components/ui/notification-badge.tsx`) maps a count to its label.

Shared modules:

- `Wrappers` holds `Option` and `Result`.
- `Seqs` holds filter, select, map, dedupe and group-size lemmas.
- `Text` holds the JavaScript string operations used by the source: `trim`, `toLowerCase`, the `\s+` to `_` replacement, `split`, `endsWith`, `includes` and number printing.
- `Records` holds insertion-ordered string records, which stand for JavaScript objects built key by key.
- `Files` holds an uploaded file: its name, its MIME type, its text and its decoded sheet.

Mutable component and hook state becomes a Dafny `class` whose methods change its fields. Each such method is specified by pure functions, and lemmas prove what the source promises about those functions. Loops that build arrays or dictionaries become `while` loops proved against those same functions.

## Model

| member | source | states |
|---|---|---|
| UserPermissions.UserRole | src/hooks/useUserPermissions.ts:40 | the role is never empty, and it is the profile role whenever that is present and non-empty (otherwise `collaborator`) |
| UserPermissions.AllEditable | src/hooks/useUserPermissions.ts:71-74 | an admin's map has exactly the project's columns as keys, each at `edit` |
| UserPermissions.RestrictionsOnlyLower | src/hooks/useUserPermissions.ts:76-94 | stored rules only lower levels: a column is in the result iff it started there or has a restrictive rule; it ends at `edit` iff it started at `edit` and no `none`/`view` rule names it |
| UserPermissions.EditRulesIgnored | src/hooks/useUserPermissions.ts:91-93 | applying the rules gives the same map as applying only the `none`/`view` rules, so a stored `edit` rule changes nothing |
| UserPermissions.NoProjectNoColumns | src/hooks/useUserPermissions.ts:43-63 | with no project id, the column map is empty and the project role is the profile role |
| UserPermissions.AdminEditsEveryColumn | src/hooks/useUserPermissions.ts:58-74 | when the profile or the project role is `admin`, every project column maps to `edit`, can be edited and viewed, and `canDelete` holds |
| UserPermissions.NonAdminColumnLevel | src/hooks/useUserPermissions.ts:76-134 | for a non-admin, a project column can be edited iff every stored rule for it says `edit` |
| UserPermissions.FlagsFollowRoles | src/hooks/useUserPermissions.ts:99-107 | `canDelete` iff admin; `canCreate` iff admin or project role `collaborator`; `canEdit` iff either of those or some column is editable |
| UserPermissions.Permissions.CanViewColumn | src/hooks/useUserPermissions.ts:117-124 | an unmapped key is visible; a mapped one is visible unless its level is `none` |
| UserPermissions.Permissions.CanEditColumn | src/hooks/useUserPermissions.ts:126-134 | a mapped key is editable iff its level is `edit`; an unmapped one iff the project role is `collaborator` or the profile role is `admin` |
| UserPermissions.UnmappedColumn | src/hooks/useUserPermissions.ts:40-134 | a key is missing from the map iff there is no project, or it is no project column and, for a non-admin, no `none`/`view` rule names it; such a key is visible, and editable exactly for a project collaborator or a profile admin |
| UserPermissions.EditImpliesView | src/hooks/useUserPermissions.ts:117-134 | any key that `canEditColumn` allows, `canViewColumn` allows too |
| UserPermissions.PermissionsHook.constructor | src/hooks/useUserPermissions.ts:15-22 | the hook starts with the initial permissions and `loading` set |
| UserPermissions.PermissionsHook.LoadUserPermissions | src/hooks/useUserPermissions.ts:28-115 | a signed-in user gets exactly the resolved permissions; with no user they stay unchanged; `loading` ends false |
| RolePermissionManager.DefaultTablesConsistent | src/components/admin/RolePermissionManager.tsx:126-176 | the 13 default columns are system columns numbered 1 to 13 with distinct keys; the apontador table has one rule per default column, in the same order; only `unidade` is `edit` and only `distribuidor` is `none` |
| RolePermissionManager.DefaultColumnsNumbered | src/components/admin/RolePermissionManager.tsx:126-140 | there are 13 default columns and the i-th has order i + 1 |
| RolePermissionManager.DefaultKeysDistinct | src/components/admin/RolePermissionManager.tsx:126-140 | the default column keys are pairwise distinct |
| RolePermissionManager.ApontadorRulesCoverDefaults | src/components/admin/RolePermissionManager.tsx:162-176 | the apontador rules name exactly the default column keys, in order |
| RolePermissionManager.ApontadorRuleLevels | src/components/admin/RolePermissionManager.tsx:162-176 | an apontador rule is `edit` iff its column is `unidade`, and `none` iff it is `distribuidor` |
| RolePermissionManager.ApontadorRuleFor | src/components/admin/RolePermissionManager.tsx:162-176 | each default column has exactly one apontador rule, with the level stated above |
| RolePermissionManager.SingleRuleDecides | src/hooks/useUserPermissions.ts:76-134 | for a non-admin, a column with exactly one stored rule can be edited iff that rule is `edit` and viewed iff it is not `none` |
| RolePermissionManager.ApontadorDefaults | src/components/admin/RolePermissionManager.tsx:162-176 | with the default tables, an apontador edits only `unidade` and sees every default column except `distribuidor` |
| RolePermissionManager.LastRestrictiveRuleWins | src/hooks/useUserPermissions.ts:83-94 | when a column has several restrictive rules, the last of them sets its level |
| RolePermissionManager.FindPermission | src/components/admin/RolePermissionManager.tsx:193-202 | returns the first (role, column) row that matches, or none when no row matches |
| RolePermissionManager.PermissionLevel | src/components/admin/RolePermissionManager.tsx:193-202 | `admin` always gets `edit`; any other role gets the level of the first stored row for that role and column, or `view` when there is none |
| RolePermissionManager.UpsertThenLookup | src/components/admin/RolePermissionManager.tsx:204-240 | after an upsert, looking up that non-admin pair yields the new level; the list keeps its length when the pair existed and grows by one otherwise |
| RolePermissionManager.UpsertLeavesOtherPairs | src/components/admin/RolePermissionManager.tsx:204-240 | an upsert leaves the level of every other (role, column) pair unchanged |
| RolePermissionManager.MaxOrder | src/components/admin/RolePermissionManager.tsx:310 | is at least 0, at least every existing order, and either 0 or some column's order |
| RolePermissionManager.NewColumn | src/components/admin/RolePermissionManager.tsx:310-321 | the new column's key is the slug of the entered key; its order is above every existing order, and either 1 or one more than an existing order |
| RolePermissionManager.DefaultViewPermissions | src/components/admin/RolePermissionManager.tsx:332-347 | exactly one `view` row per distinct name among the four built-in roles and the custom roles, all for the new column |
| RolePermissionManager.Manager.constructor | src/components/admin/RolePermissionManager.tsx:50-67 | the manager starts on the loaded lists, with the first role selected and empty forms |
| RolePermissionManager.Manager.UpdatePermission | src/components/admin/RolePermissionManager.tsx:204-254 | on success, the list is upserted and a non-admin lookup of the pair gives the new level; on error nothing changes |
| RolePermissionManager.Manager.CreateRole | src/components/admin/RolePermissionManager.tsx:256-297 | a blank name or a failed insert changes nothing; otherwise one role with the slugged name is appended and the form is reset |
| RolePermissionManager.Manager.CreateColumn | src/components/admin/RolePermissionManager.tsx:299-377 | a blank key or label, or a failed insert, changes nothing; otherwise the new column is appended with its default `view` rows and the form is reset |
| RolePermissionManager.Manager.DeleteColumn | src/components/admin/RolePermissionManager.tsx:379-402 | on success, exactly the columns with that id are removed and the rest keep their order |
| RolePermissionManager.Manager.DeleteRole | src/components/admin/RolePermissionManager.tsx:404-465 | refuses `admin`, an unconfirmed deletion and a failed deletion; otherwise removes the role and exactly its permissions, and selects the first remaining role |
| RolePermissionManager.PermissionColorsDistinct | src/components/admin/RolePermissionManager.tsx:478-487 | the three levels have three different colours |
| Text.Slug | src/components/admin/RolePermissionManager.tsx:270 | a stored role name or column key has no whitespace and no upper-case letter |
| UnreadMessages.CountsAreGroupSizes | src/hooks/useUnreadMessages.ts:50-58 | `counts[p]` is the number of project p's messages not in the read set; a project has an entry iff that number is positive |
| UnreadMessages.TotalUnread | src/hooks/useUnreadMessages.ts:53-58 | the counts over all projects add up to the number of unread messages |
| UnreadMessages.CountsMatchGroups | src/hooks/useUnreadMessages.ts:53-58 | the sum of the counts over any project list equals the sum of that list's unread group sizes |
| UnreadMessages.MarkReadRecount | src/hooks/useUnreadMessages.ts:110-119 | once all of project p's messages are read, p's count is 0 and has no entry, and every other project's count is unchanged |
| UnreadMessages.ProjectIdsMarkOnlyProject | src/hooks/useUnreadMessages.ts:78-93 | with distinct message ids, marking project p's ids marks exactly p's messages |
| UnreadMessages.ReadInserts | src/hooks/useUnreadMessages.ts:95-108 | the read records are all for this user, and their message ids are exactly the project's message ids not yet read, in order |
| UnreadMessages.UnreadMessagesHook.constructor | src/hooks/useUnreadMessages.ts:12-13 | the hook starts with no counts and `loading` set |
| UnreadMessages.UnreadMessagesHook.FetchUnreadCounts | src/hooks/useUnreadMessages.ts:15-66 | no user, or no messages, gives an empty map; a failed query keeps the old map; otherwise the map is the per-project unread count |
| UnreadMessages.UnreadMessagesHook.MarkProjectMessagesAsRead | src/hooks/useUnreadMessages.ts:68-124 | sends exactly the read records for the project's unread messages; after a successful insert that project's count is 0 and the others are unchanged; otherwise nothing changes |
| ProjectImport.BuildRecordKeys | src/hooks/useProjectImport.ts:25-27 | a record's keys are the headers in first-occurrence order |
| ProjectImport.BuildRecordGet | src/hooks/useProjectImport.ts:25-27 | the value under a header is the field at that header's last index, or `''` when the row is shorter |
| ProjectImport.RecordsShape | src/hooks/useProjectImport.ts:22-27 | every record built from the rows has the same keys and holds its own row's field under each header |
| ProjectImport.ParseCsv | src/hooks/useProjectImport.ts:13-34 | one record per non-blank line after the header |
| ProjectImport.ParseCsvRecord | src/hooks/useProjectImport.ts:13-34 | each CSV record has a key for every normalised header, whose value is the trimmed field at that index of its own line |
| ProjectImport.DataRecords | src/hooks/useProjectImport.ts:60-71 | one record per data row that has some non-empty cell |
| ProjectImport.PresentColumns | src/hooks/useProjectImport.ts:53-68 | the header positions visited are exactly those of the present header cells, in increasing order |
| ProjectImport.SheetRecordKeys | src/hooks/useProjectImport.ts:53-68 | a row's record has one key per distinct name of a present header cell, and a name is a key iff some present header cell has it; a blank header cell names no key |
| ProjectImport.SheetRecordGet | src/hooks/useProjectImport.ts:66-68 | the name of a present header cell with no later cell of that name holds the row's cell text in its column, `''` for a blank or missing cell |
| ProjectImport.BlankHeaderNamesNothing | src/hooks/useProjectImport.ts:53-68 | a header row `a`, blank gives records whose only key is `a` |
| ProjectImport.SheetRecord | src/hooks/useProjectImport.ts:53-71 | the k-th sheet record comes from the k-th data row with content; its keys are the merged names of the present header cells, and each such name holds that row's cell text in the column of its last cell |
| ProjectImport.ParseSheet | src/hooks/useProjectImport.ts:36-83 | an empty sheet is rejected with `Arquivo vazio`; otherwise the result is the sheet's records, one per data row with a non-empty cell, in order |
| ProjectImport.NonEmpty | src/hooks/useProjectImport.ts:109-111 | succeeds exactly when there is at least one record, returning the records unchanged; otherwise fails with the no-data message |
| ProjectImport.CsvImported | src/hooks/useProjectImport.ts:92-111 | a read error fails with the CSV read message; a parse without records fails with the no-data message; a success is exactly the non-empty CSV parse |
| ProjectImport.SheetImported | src/hooks/useProjectImport.ts:36-111 | a read error, the decoder's message and `Arquivo vazio` for a sheet without rows are the failures before parsing; a sheet without records fails with the no-data message; a success is exactly the sheet's non-empty records |
| ProjectImport.Imported | src/hooks/useProjectImport.ts:85-123 | a name ending in `.csv` takes the CSV branch, else one ending in `.xlsx` the sheet branch, anything else fails as unsupported; a success is never empty |
| ProjectImport.SameKeys | src/hooks/useProjectImport.ts:25-27 | records built from the same headers share one distinct key list |
| ProjectImport.ImportedKeys | src/hooks/useProjectImport.ts:85-123 | every imported record has the same distinct keys as the first one |
| ProjectImport.CsvKeys | src/hooks/useProjectImport.ts:13-34 | every CSV record has the same distinct keys as the first one |
| ProjectImport.SheetKeys | src/hooks/useProjectImport.ts:36-83 | every sheet record has the same distinct keys as the first one |
| ProjectImport.ProjectImporter.constructor | src/hooks/useProjectImport.ts:10-11 | the importer starts idle with no error |
| ProjectImport.ProjectImporter.ImportProjects | src/hooks/useProjectImport.ts:85-123 | the result is the dispatched import; the error state matches its failure; `loading` ends false |
| FileUpload.ColumnNamesAreHeaders | src/components/admin/FileUpload.tsx:53-106 | every item field's database column name is itself a header alias for that field |
| FileUpload.ColumnNamesDistinct | src/components/admin/FileUpload.tsx:53-106 | different fields have different column names |
| FileUpload.FieldValueOf | src/components/admin/FileUpload.tsx:63-101 | a numeric field holds the parsed number, or 0 when the text does not parse; any other field holds the text itself |
| FileUpload.AssignField | src/components/admin/FileUpload.tsx:49-107 | a field named by some header holds the value at that header's last index |
| FileUpload.AssignUnset | src/components/admin/FileUpload.tsx:49-107 | a field that no header names stays unset |
| FileUpload.BuildItemField | src/components/admin/FileUpload.tsx:53-106 | under the alias table, a recognised header fills its field from the value at its last index |
| FileUpload.BuildItemUnset | src/components/admin/FileUpload.tsx:53-106 | under the alias table, a field that no header names is left undefined |
| FileUpload.CsvItems | src/components/admin/FileUpload.tsx:44-112 | never yields more items than lines, and every item kept has a non-empty `descricao` |
| FileUpload.KeptIffDescription | src/components/admin/FileUpload.tsx:49-111 | with no description header nothing is kept; otherwise a row's item is kept iff the value in the last description column is not empty, and that value is its description |
| FileUpload.CsvLineKept | src/components/admin/FileUpload.tsx:45-111 | a line with fewer values than headers gives nothing; otherwise its item is kept iff the trimmed value in the last description column is not empty |
| FileUpload.ParseCsvLine | src/components/admin/FileUpload.tsx:45-111 | returns the line's items; a short line or a header row without a description column gives none; otherwise the item is kept iff the trimmed value in the last description column is not empty |
| FileUpload.ParseCsv | src/components/admin/FileUpload.tsx:39-115 | the loop returns the items of the data lines after the header, in order |
| FileUpload.SheetItems | src/components/admin/FileUpload.tsx:136-204 | never yields more items than rows, and every item kept has a non-empty `descricao` |
| FileUpload.SheetRowKept | src/components/admin/FileUpload.tsx:137-203 | an empty row gives nothing; otherwise its item is kept iff the trimmed cell text in the last description column is not empty (`''` for a blank or missing cell) |
| FileUpload.ParseSheetRow | src/components/admin/FileUpload.tsx:137-203 | returns the row's items; an empty row or a header row without a description column gives none; otherwise the item is kept iff the trimmed cell text in the last description column is not empty |
| FileUpload.ParseSheet | src/components/admin/FileUpload.tsx:117-214 | fewer than 2 rows is rejected; otherwise the result is the items of the data rows after the header |
| FileUpload.ParsersAgree | src/components/admin/FileUpload.tsx:133-204 | the sheet path applied to a CSV split into cells gives the same headers and items as the CSV path, when no line is short |
| FileUpload.HeaderRowAgrees | src/components/admin/FileUpload.tsx:133 | a sheet header row normalises like the CSV header line |
| FileUpload.DataLinesAgree | src/components/admin/FileUpload.tsx:136-204 | on lines that are not short, the sheet path and the CSV path keep the same items |
| FileUpload.InsertFor | src/components/admin/FileUpload.tsx:238-267 | the inserted row carries the project id, every parsed field except the item code, and the management defaults |
| FileUpload.ManagementDefaultsShape | src/components/admin/FileUpload.tsx:253-266 | the management columns are distinct; the four date columns start `null` and all others start `''` |
| FileUpload.Uploader.constructor | src/components/admin/FileUpload.tsx:34-36 | the uploader starts idle with a count of 0 |
| FileUpload.Uploader.ProcessFile | src/components/admin/FileUpload.tsx:216-301 | dispatches CSV, then XLSX, by MIME type or name, and refuses anything else; no items is an error; success sends one row per item and reports that count |
| ProjectImportCreation.SystemColumnsAreStored | src/hooks/useProjectImportWithCreation.ts:54-60 | a key is a system column iff it is a stored text, numeric or management column |
| ProjectImportCreation.Or | src/hooks/useProjectImportWithCreation.ts:88-91 | `a || b` is truthy iff a or b is |
| ProjectImportCreation.CustomColumns | src/hooks/useProjectImportWithCreation.ts:50-63 | the custom columns are exactly the first record's keys that are not system columns |
| ProjectImportCreation.Capitalize | src/hooks/useProjectImportWithCreation.ts:69 | the label is the key with only its first character upper-cased |
| ProjectImportCreation.ColumnInserts | src/hooks/useProjectImportWithCreation.ts:66-75 | one column per custom key, in order: the project id, the key, the key with its first letter upper-cased as label, type `text`, width `120px`, order 100 + i, neither system nor calculated |
| ProjectImportCreation.CustomColumnsShape | src/hooks/useProjectImportWithCreation.ts:63-75 | the custom columns have increasing orders above the 13 system orders and distinct, non-system keys, and are plain text columns |
| ProjectImportCreation.DynamicDataGet | src/hooks/useProjectImportWithCreation.ts:131-137 | `dynamic_data` holds a key iff it is a custom key defined in the row, with the row's value |
| ProjectImportCreation.BuildDynamicData | src/hooks/useProjectImportWithCreation.ts:131-137 | the loop builds exactly that `dynamic_data` |
| ProjectImportCreation.ValidRowHasDescription | src/hooks/useProjectImportWithCreation.ts:88-103 | a valid row's stored `descricao` is non-empty |
| ProjectImportCreation.RecordFullyStored | src/hooks/useProjectImportWithCreation.ts:100-143 | every key of an imported row is either a system column or kept in that item's `dynamic_data` with its value |
| ProjectImportCreation.BuildItemRows | src/hooks/useProjectImportWithCreation.ts:100-143 | builds one item row per valid record, in order |
| ProjectImportCreation.CreateProject | src/hooks/useProjectImportWithCreation.ts:32-163 | inserts the trimmed name and description; each insert's failure stops the rest; no valid row is an error; otherwise succeeds with the new project id |
| ProjectImportCreation.ImportWithCreation.constructor | src/hooks/useProjectImportWithCreation.ts:7-8 | the hook starts idle with no error |
| ProjectImportCreation.ImportWithCreation.ImportAndCreateProject | src/hooks/useProjectImportWithCreation.ts:11-167 | a name shorter than 3 after trimming, or a failed import, creates nothing; otherwise the project, columns and items are those above; the error state matches the outcome |
| ExcelExport.NumberOrZero | src/hooks/useExcelExport.ts:31 | a stored number is itself; text is its parsed number, or 0 when it does not parse |
| ExcelExport.FormatValue | src/hooks/useExcelExport.ts:26-39 | a missing value is `''`; currency and number give the value as a number: a stored number, the parsed text, or 0 when the text does not parse; percentage gives the text of that number followed by `%`; any other type gives the text itself, or the text of a stored number |
| ExcelExport.BlankExactlyWhenMissing | src/hooks/useExcelExport.ts:26-39 | a cell is blank exactly when its value is null, undefined or `''` |
| ExcelExport.CellValue | src/hooks/useExcelExport.ts:76-81 | the item's own field wins; `dynamic_data` is used only when the field is undefined |
| ExcelExport.WorkbookShape | src/hooks/useExcelExport.ts:73-102 | the header row is the labels in column order; one row per item with one cell per column; widths are at least 15 and at least the label; the file name is the project name with each character other than an ASCII letter or digit replaced by `_`, then `_`, the date part and `.xlsx` |
| ExcelExport.ExcelExporter.constructor | src/hooks/useExcelExport.ts:23 | the exporter starts idle |
| ExcelExport.ExcelExporter.ExportProjectToExcel | src/hooks/useExcelExport.ts:41-120 | a query error fails; missing columns or items produce no workbook; otherwise it exports that workbook; `isExporting` ends false |
| UserRoleAssignment.LastFour | src/components/admin/UserRoleAssignment.tsx:85 | is the id's last four characters, or the whole of a shorter id |
| UserRoleAssignment.SimulatedEmail | src/components/admin/UserRoleAssignment.tsx:85 | ends in `@exemplo.com` and is never the not-found text |
| UserRoleAssignment.EmailDirectory | src/components/admin/UserRoleAssignment.tsx:84-86 | maps exactly the profile ids, each to its simulated email |
| UserRoleAssignment.BuildDirectory | src/components/admin/UserRoleAssignment.tsx:72-87 | the loop builds exactly that directory |
| UserRoleAssignment.Enriched | src/components/admin/UserRoleAssignment.tsx:89-92 | keeps every assignment in order and sets its email, or `Email não encontrado` when there is no profile |
| UserRoleAssignment.FindByEmail | src/components/admin/UserRoleAssignment.tsx:127 | finds the first assignment with that email, or none when no assignment has it |
| UserRoleAssignment.AssignThenLookup | src/components/admin/UserRoleAssignment.tsx:127-168 | afterwards the email has the new role; the list keeps its length when the email existed and grows by one otherwise |
| UserRoleAssignment.AssignChangesOneRow | src/components/admin/UserRoleAssignment.tsx:127-168 | an existing email changes only that entry's role; a new email appends exactly one entry carrying it |
| UserRoleAssignment.AssignLeavesOtherEmails | src/components/admin/UserRoleAssignment.tsx:127-168 | every other email keeps its role |
| UserRoleAssignment.FindRole | src/components/admin/UserRoleAssignment.tsx:217 | returns the first listed role with that name, or none when no role has it |
| UserRoleAssignment.RoleColor | src/components/admin/UserRoleAssignment.tsx:216-219 | is a listed role's colour or `#6366f1`, and never empty |
| UserRoleAssignment.RoleColorOfListedRole | src/components/admin/UserRoleAssignment.tsx:216-219 | with distinct role names, a listed role with a colour gets its own colour |
| UserRoleAssignment.GroupsAreSelections | src/components/admin/UserRoleAssignment.tsx:221-232 | there is one group per role name in use, and each group holds that role's assignments in order |
| UserRoleAssignment.StatisticsConsistent | src/components/admin/UserRoleAssignment.tsx:366-388 | the admin and apontador cards count their roles' assignments; active roles are the distinct role names; group sizes add up to the total |
| UserRoleAssignment.GroupSizeIsSelection | src/components/admin/UserRoleAssignment.tsx:221-232 | a group's size is the number of assignments with that role |
| UserRoleAssignment.GroupSizesAddUp | src/components/admin/UserRoleAssignment.tsx:221-232 | the group sizes sum to the number of assignments |
| UserRoleAssignment.ActiveRolesAreDistinctNames | src/components/admin/UserRoleAssignment.tsx:371-374 | the number of groups is the number of distinct role names |
| UserRoleAssignment.Panel.constructor | src/components/admin/UserRoleAssignment.tsx:37-45 | the panel starts loading with empty lists and an empty form |
| UserRoleAssignment.Panel.LoadData | src/components/admin/UserRoleAssignment.tsx:53-106 | when both queries succeed, the roles and the enriched assignments are shown; otherwise nothing changes; `loading` ends false |
| UserRoleAssignment.Panel.AssignUserToRole | src/components/admin/UserRoleAssignment.tsx:108-189 | a blank email or no role changes nothing; a failed write keeps the form; success upserts by email, gives the email the role and clears the form |
| UserRoleAssignment.Panel.RemoveUserFromProject | src/components/admin/UserRoleAssignment.tsx:191-214 | on success, exactly the entries with that id are removed, so with distinct ids the list shrinks by one when the id was present |
| UserRoleAssignment.Panel.GetRolesByName | src/components/admin/UserRoleAssignment.tsx:221-232 | returns the grouping whose groups are the assignments of each role, in order |
| CollaboratorDashboard.FilteredProjects | src/components/dashboard/CollaboratorDashboard.tsx:107-110 | keeps exactly the projects whose lower-cased name or description contains the lower-cased term |
| CollaboratorDashboard.SearchKeepsOrder | src/components/dashboard/CollaboratorDashboard.tsx:107-110 | filtering preserves the projects' order |
| CollaboratorDashboard.EmptySearchKeepsAll | src/components/dashboard/CollaboratorDashboard.tsx:107-110 | an empty search term keeps every project |
| CollaboratorDashboard.SearchIgnoresCase | src/components/dashboard/CollaboratorDashboard.tsx:107-110 | the term's letter case does not change the result |
| CollaboratorDashboard.DescriptionShortening | src/components/dashboard/CollaboratorDashboard.tsx:267-273 | a description of up to 25 characters is shown unchanged; a longer one shows its first 25 characters and `...`; shortening twice changes nothing |
| CollaboratorDashboard.DescriptionView | src/components/dashboard/CollaboratorDashboard.tsx:267-273 | a description block appears iff the project has a description, with "Leia mais" iff it is longer than 25 characters |
| CollaboratorDashboard.BadgeCount | src/components/dashboard/CollaboratorDashboard.tsx:262 | the badge count is positive iff the project has a positive unread count |
| CollaboratorDashboard.Dashboard.constructor | src/components/dashboard/CollaboratorDashboard.tsx:35-42 | the dashboard starts loading, with no projects, no selection and an empty search |
| CollaboratorDashboard.Dashboard.FetchProjects | src/components/dashboard/CollaboratorDashboard.tsx:44-79 | a successful query replaces the projects; an error keeps them; `loading` ends false |
| CollaboratorDashboard.Dashboard.HandleProjectOpen | src/components/dashboard/CollaboratorDashboard.tsx:99-105 | always selects the project; marks its messages read only when its unread count is positive |
| ImportProjectDialog.RequestFor | src/components/ui/import-project-dialog.tsx:62 | passes the trimmed name, and the trimmed description or `undefined` when it is blank |
| ImportProjectDialog.AcceptedFileDispatch | src/components/ui/import-project-dialog.tsx:21-29 | a file accepted only by MIME type reaches the importer's unsupported-format error; a `.csv` name never does |
| ImportProjectDialog.Dialog.constructor | src/components/ui/import-project-dialog.tsx:15-19 | the dialog starts closed, idle and empty |
| ImportProjectDialog.Dialog.EnabledIffImportable | src/components/ui/import-project-dialog.tsx:174 | the Import button is enabled iff a file is selected, the name is not blank and no import is running |
| ImportProjectDialog.Dialog.HandleFileSelect | src/components/ui/import-project-dialog.tsx:21-29 | a CSV or XLSX file by type or name is selected; any other file leaves the selection unchanged |
| ImportProjectDialog.Dialog.BeginImport | src/components/ui/import-project-dialog.tsx:58-62 | starts an import iff a file is selected and the name is not blank, setting `isImporting` and passing the request |
| ImportProjectDialog.Dialog.FinishImport | src/components/ui/import-project-dialog.tsx:63-71 | success clears the form and closes the dialog; failure keeps them; `isImporting` is false either way |
| ImportProjectDialog.Dialog.HandleImport | src/components/ui/import-project-dialog.tsx:58-73 | the full handler: proceeds only when importable, passes the trimmed request, resets the form only on success, and always ends not importing |
| ImportProjectDialog.Dialog.HandleOpenChange | src/components/ui/import-project-dialog.tsx:75-84 | ignored while importing; otherwise sets `open`, and closing clears the file, name and description |
| NotificationBadge.BadgeLabelCases | src/components/ui/notification-badge.tsx:19-31 | 0 shows nothing; counts above 99 show `99+`; 1 to 99 show their own digits, without a leading zero; negative counts show, with a minus sign |
| NotificationBadge.LabelsDistinguishSmallCounts | src/components/ui/notification-badge.tsx:31 | different counts from 1 to 99 get different labels |

## Left out

- `analyze_excel.py` and the two `.cjs` diagnostic scripts are not part of this model. They only print statistics of one spreadsheet.
- Every Supabase query, insert, update, delete and auth call is a parameter of the method that makes it: its returned rows, or whether it failed. Database ordering, filtering by project and row-level security are the database's concern.
- Parts of the XLSX library are not modelled; their results are inputs instead:
  - decoding with `XLSX.read` and `sheet_to_json` (the decoded sheet is an input, cells given as text or absent);
  - encoding with `aoa_to_sheet` and `writeFile` (the export's result is the workbook data);
  - `FileReader` (its failure is a case of the uploaded file).
- `parseFloat` and `Number(...)` are a function parameter from text to an optional real. The `|| 0` default is kept. `String(number)` in the export is a parameter too. Floating-point rounding is not modelled.
- Unicode case mapping: `toLowerCase` and `toUpperCase` are modelled for ASCII and Latin-1 letters only.
- String lengths count characters, not UTF-16 code units.
- ExcelExport.WorkbookShape: `replace(/[^a-zA-Z0-9]/g, '_')` works on UTF-16 code units, so a character outside the Basic Multilingual Plane becomes `__` in the source but a single `_` in the model.
- `Date` and `toISOString` in the export file name are a date-text parameter. The simulated user id built from `Date.now()` is a parameter too.
- Realtime subscriptions in `useUnreadMessages.ts` are left out, because their purpose is asynchronous push. The chat, the grid, the admin dashboard, the upload modal, the example dialog and the index page are left out for the same reason or because they are presentation only.
- JSX rendering, toasts, `alert` and navigation are not modelled. `confirm` in role deletion is a boolean parameter.
- Handlers that only set presentation state are not modelled: drag-and-drop highlighting, the description dialog and logout.
- `src/integrations/supabase/types.ts` holds type declarations only. Its `permission_level` enum is the `Level` datatype.
- `RolePermissionManager.tsx`'s `loadData`, `createDefaultColumns` and `createApontadorDefaultPermissions` are database round-trips. Only the tables they insert are modelled, by `DefaultColumns` and `ApontadorRules`.
- RolePermissionManager.Manager.DeleteRole: the source deletes permissions, assignments and the role in three separate requests. The model treats them as one outcome, so a partial deletion is not represented.
- RolePermissionManager.Manager.CreateColumn: the default-permission rows are returned rather than stored in the manager's state, because the source does not add them to `permissions` either.
- JavaScript objects are modelled as insertion-ordered records. `Object.keys` lists integer-like keys first, and keys such as `__proto__` behave specially; neither is modelled.
- `sheet_to_json` without `defval` leaves a blank cell as a hole in a sparse row. A hole is modelled as an absent cell, which `forEach` and `some` skip. An explicit `null` cell only arises with `defval: null`, which the source does not pass, so it is not modelled separately.
- The empty-import branch of `useProjectImportWithCreation.ts` (lines 27-29) cannot be reached, because `importProjects` never returns an empty list (`ProjectImport.Imported`). `ProjectImportCreation.CreateProject` therefore requires a non-empty list of records.
- NotificationBadge: the count is an integer, so JavaScript's fractional and `NaN` counts are not modelled.
- `usePagination` is not part of this model: its source is not available. The simulated e-mail format is modelled as written, not as a real address lookup.
