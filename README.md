# HydroTracker core, modelled in Dafny

HydroTracker is an Android water-intake tracker. This project models the
parts of it that hold decisions rather than layout, and proves what they
promise:

- **Container presets.** The volume-to-icon table (`ContainerIconMapper`),
  the stored preset record, the `container_presets` table as the DAO sees it
  (an id-to-row map with an AUTOINCREMENT counter), and the repository built
  on it: add with the mapper's icon and the next display order, update that
  keeps identity, delete, reset to the seven defaults, seed when empty.
  The repository's seven defaults carry exactly the icon the mapper assigns
  to their volumes.
- **Schema migrations.** The six registered migrations act on a schema of
  tables (columns and rows) and indices. `SqliteDb` stands for the
  connection: `PRAGMA table_info` reads a column list and `execSQL` updates
  the schema. The cursor loops of 3→4 and 4→5 are methods with loop
  invariants. Opening picks a chain of registered migrations up to version 6.
  The proofs show a chain from every older version, that no migration loses a
  column or a row, and which migrations are idempotent.
- **Validation and small state machines from the screens.**
  - The add and edit preset sheets.
  - The custom-amount and edit-entry dialogs.
  - The quick-add container choice, the preset carousel, the motivational
    message and the collapsing action button of the home screen.
  - The version-tap developer-options switch of the settings screen.
  - The settings screen's small markdown renderer: line classification, and
    `**bold**` spans found by a lazy regular expression.
- **The statistics script** (`stats/graph.py`), its data preparation only:
  cumulative star numbering, the download total, the one-entry history
  update and the zero point put in front of the download series.

Kotlin `Double` values are `Doubles.Double`: a finite real, an infinity or
NaN, with Kotlin's comparison rules. Every ordering comparison with NaN is
false. A text field is held as the result of `toDoubleOrNull()` on it, an
`Option<Double>`.

Files, one module each: `wrappers.dfy`, `doubles.dfy`, `text.dfy`,
`icon_mapper.dfy`, `preset_entity.dfy`, `preset_dao.dfy`,
`preset_repository.dfy`, `migrations.dfy`, `preset_sheets.dfy`,
`home_screen.dfy`, `settings_screen.dfy`, `markdown_text.dfy`,
`markdown_lines.dfy`, `stats_graph.dfy`.

Stateful code is a class whose methods are specified against a pure
transition function. For example, `PresetRepository.ContainerPresetRepository.AddPreset` ensures
that the new table state is `Added(old state, name, volume)`, and the lemmas
about `Added` carry the promises.

## Model

| member | source | states |
|---|---|---|
| Doubles.TruncateToInt | app/src/main/java/com/cemcakmak/hydrotracker/presentation/home/ContainerPresetBottomSheets.kt:41 | Kotlin `Double.toInt()` on a finite value drops the fraction toward zero: the result lies within 1 of the value, on the side of zero |
| Doubles.ToInt | app/src/main/java/com/cemcakmak/hydrotracker/presentation/home/ContainerPresetBottomSheets.kt:41 | `toInt()` saturates at `Int.MIN_VALUE`/`Int.MAX_VALUE`, maps NaN to 0 and agrees with truncation in range |
| Text.TrimStart | app/src/main/java/com/cemcakmak/hydrotracker/presentation/home/ContainerPresetBottomSheets.kt:201 | the result is a suffix of the input that does not start with a whitespace character; everything dropped is whitespace |
| Text.TrimEnd | app/src/main/java/com/cemcakmak/hydrotracker/presentation/home/ContainerPresetBottomSheets.kt:201 | the result is a prefix of the input that does not end with whitespace; everything dropped is whitespace |
| Text.TrimIsInnerSlice | app/src/main/java/com/cemcakmak/hydrotracker/presentation/home/ContainerPresetBottomSheets.kt:201-204 | `trim()` is a contiguous slice of the input, empty exactly when the input is blank, otherwise starting and ending with a non-whitespace character |
| Text.RemoveSurrounding | app/src/main/java/com/cemcakmak/hydrotracker/presentation/settings/SettingsScreen.kt:1508 | `removeSurrounding(d)` strips `d` from both ends only when the text is long enough to hold both copies and starts and ends with it; otherwise the text is unchanged |
| Text.SplitLines | app/src/main/java/com/cemcakmak/hydrotracker/presentation/settings/SettingsScreen.kt:1451 | `split("\n")` yields at least one piece and no piece contains a line feed |
| Text.IndexOfLineFeed | app/src/main/java/com/cemcakmak/hydrotracker/presentation/settings/SettingsScreen.kt:1451 | the position of the first line feed in a text that has one |
| Text.SplitJoinRoundTrip | app/src/main/java/com/cemcakmak/hydrotracker/presentation/settings/SettingsScreen.kt:1451 | joining the pieces with line feeds gives back the input |
| IconMapper.IconIndexFrom | app/src/main/java/com/cemcakmak/hydrotracker/utils/ContainerIconMapper.kt:69-76 | the threshold loop, started at any position, returns an index of the seven-entry table |
| IconMapper.IconIndexForVolume | app/src/main/java/com/cemcakmak/hydrotracker/utils/ContainerIconMapper.kt:69-76 | `getIconForVolume` always returns an index into the seven-entry table |
| IconMapper.IconForVolume | app/src/main/java/com/cemcakmak/hydrotracker/utils/ContainerIconMapper.kt:35-76 | the icon for every volume is one of the seven entries of `iconsByVolume` |
| IconMapper.IconIndexMatchesBands | app/src/main/java/com/cemcakmak/hydrotracker/utils/ContainerIconMapper.kt:56-76 | each finite volume gets exactly the icon of its band: up to 125 LocalCafe, then glass_cup, water_loss, water_medium, water_full, water_bottle, and above 750 water_bottle_large |
| IconMapper.NonFiniteVolumes | app/src/main/java/com/cemcakmak/hydrotracker/utils/ContainerIconMapper.kt:56-76 | NaN and +infinity exceed no comparison and fall through to the last icon; -infinity gets the first |
| IconMapper.MonotoneInVolume | app/src/main/java/com/cemcakmak/hydrotracker/utils/ContainerIconMapper.kt:56-74 | a larger volume never gets an icon earlier in the table |
| IconMapper.NonPositiveIsCoffeeCup | app/src/main/java/com/cemcakmak/hydrotracker/utils/ContainerIconMapper.kt:57-72 | zero and negative volumes get LocalCafe |
| IconMapper.IconTypesByPosition | app/src/main/java/com/cemcakmak/hydrotracker/utils/ContainerIconMapper.kt:35-43 | only the first icon is VECTOR; the other six are DRAWABLE |
| IconMapper.FindIconFrom | app/src/main/java/com/cemcakmak/hydrotracker/utils/ContainerIconMapper.kt:81-85 | the search returns the first icon from position `k` with the given type and name, or none when no later icon matches |
| IconMapper.IconByName | app/src/main/java/com/cemcakmak/hydrotracker/utils/ContainerIconMapper.kt:81-85 | `getIconByName` returns an icon of `iconsByVolume` with that type and name, and null exactly when none exists |
| IconMapper.FindIconReaches | app/src/main/java/com/cemcakmak/hydrotracker/utils/ContainerIconMapper.kt:81-85 | a search from any earlier position finds a matching icon |
| IconMapper.IconByNameRoundTrip | app/src/main/java/com/cemcakmak/hydrotracker/utils/ContainerIconMapper.kt:81-85 | `getIconByName(i.type.name, i.name)` returns `i` for every listed icon |
| IconMapper.IconByNameMismatchedType | app/src/main/java/com/cemcakmak/hydrotracker/utils/ContainerIconMapper.kt:81-85 | a listed name with the wrong type, such as (VECTOR, glass_cup), yields null |
| IconMapper.DrawableResId | app/src/main/java/com/cemcakmak/hydrotracker/utils/ContainerIconMapper.kt:105-115 | for a listed icon name the resource is that icon's own drawable entry |
| IconMapper.VectorIconFor | app/src/main/java/com/cemcakmak/hydrotracker/utils/ContainerIconMapper.kt:120-125 | for a listed icon name the result is that icon's own vector entry |
| IconMapper.DrawableResIdExactlyForDrawables | app/src/main/java/com/cemcakmak/hydrotracker/utils/ContainerIconMapper.kt:105-115 | `getDrawableResId` is non-null exactly for the names of the six DRAWABLE icons |
| IconMapper.VectorIconOnlyForLocalCafe | app/src/main/java/com/cemcakmak/hydrotracker/utils/ContainerIconMapper.kt:120-125 | `getVectorIcon` is non-null exactly for "LocalCafe", the name of the only VECTOR icon |
| PresetEntity.NewPresetEntity | app/src/main/java/com/cemcakmak/hydrotracker/data/database/entities/ContainerPresetEntity.kt:11-32 | a new entity is unsaved (id 0, generated on insert); unless told otherwise it is not a default preset and has display order 0 |
| PresetDao.MaxDisplayOrder | app/src/main/java/com/cemcakmak/hydrotracker/data/database/dao/ContainerPresetDao.kt:37-38 | `COALESCE(MAX(display_order), 0)`: 0 on an empty table, otherwise the order of some stored row and at least every row's |
| PresetDao.MaxDisplayOrderUnique | app/src/main/java/com/cemcakmak/hydrotracker/data/database/dao/ContainerPresetDao.kt:37-38 | any number meeting that description is the maximum |
| PresetDao.InsertByVolume | app/src/main/java/com/cemcakmak/hydrotracker/data/database/dao/ContainerPresetDao.kt:10-14 | inserting into a volume-sorted list keeps it sorted and adds exactly that row |
| PresetDao.PrependSorted | app/src/main/java/com/cemcakmak/hydrotracker/data/database/dao/ContainerPresetDao.kt:10-14 | a row no larger than the head of a sorted list can be put in front of it |
| PresetDao.ListedStep | app/src/main/java/com/cemcakmak/hydrotracker/data/database/dao/ContainerPresetDao.kt:10-14 | adding one more stored row to the listing so far keeps it sorted and holding exactly the rows visited |
| PresetDao.ListRow | app/src/main/java/com/cemcakmak/hydrotracker/data/database/dao/ContainerPresetDao.kt:10-14 | one step of the listing loop keeps the listing sorted and holding exactly the rows visited |
| PresetDao.ListByVolume | app/src/main/java/com/cemcakmak/hydrotracker/data/database/dao/ContainerPresetDao.kt:10-14 | after visiting every id the listing holds exactly the stored rows, sorted by volume |
| PresetDao.ListedNothing | app/src/main/java/com/cemcakmak/hydrotracker/data/database/dao/ContainerPresetDao.kt:10-14 | the empty listing is the listing of no ids |
| PresetDao.MoveKey | app/src/main/java/com/cemcakmak/hydrotracker/data/database/dao/ContainerPresetDao.kt:10-14 | moving one id from the unvisited to the visited ids keeps the two disjoint and covering |
| PresetDao.DistinctIds | app/src/main/java/com/cemcakmak/hydrotracker/data/database/dao/ContainerPresetDao.kt:10-14 | rows listed from distinct ids are distinct |
| PresetDao.IdsBound | app/src/main/java/com/cemcakmak/hydrotracker/data/database/dao/ContainerPresetDao.kt:10-14 | the listing holds as many rows as ids visited |
| PresetDao.ListedAll | app/src/main/java/com/cemcakmak/hydrotracker/data/database/dao/ContainerPresetDao.kt:10-14 | when every id is visited the listing is a permutation of the table sorted by volume |
| PresetDao.ListedRowsAreStored | app/src/main/java/com/cemcakmak/hydrotracker/data/database/dao/ContainerPresetDao.kt:13-14 | every listed row is stored under its own id |
| PresetDao.InsertNewAddsOneRow | app/src/main/java/com/cemcakmak/hydrotracker/data/database/dao/ContainerPresetDao.kt:19-20 | inserting an entity with id 0 stores it under a fresh id, adds one row and leaves the others unchanged |
| PresetDao.InsertExistingReplaces | app/src/main/java/com/cemcakmak/hydrotracker/data/database/dao/ContainerPresetDao.kt:19-20 | inserting an entity with an existing id replaces that row (REPLACE) and keeps the row count |
| PresetDao.InsertAllNewKeys | app/src/main/java/com/cemcakmak/hydrotracker/data/database/dao/ContainerPresetDao.kt:22-23 | `insertPresets` of new entities stores each one under a fresh id |
| PresetDao.InsertAllKeepsRows | app/src/main/java/com/cemcakmak/hydrotracker/data/database/dao/ContainerPresetDao.kt:22-23 | `insertPresets` of new entities leaves existing rows unchanged |
| PresetDao.InsertAllNew | app/src/main/java/com/cemcakmak/hydrotracker/data/database/dao/ContainerPresetDao.kt:22-23 | `insertPresets` of n new entities adds exactly n rows |
| PresetDao.UpdateTouchesOnlyItsRow | app/src/main/java/com/cemcakmak/hydrotracker/data/database/dao/ContainerPresetDao.kt:25-26 | `@Update` overwrites the row with the entity's id and nothing else; an absent id changes nothing |
| PresetDao.DeleteRemovesOnlyItsRow | app/src/main/java/com/cemcakmak/hydrotracker/data/database/dao/ContainerPresetDao.kt:28-29 | `deletePresetById` removes exactly that id, and an absent id is a no-op |
| PresetDao.DeleteAllEmptiesTable | app/src/main/java/com/cemcakmak/hydrotracker/data/database/dao/ContainerPresetDao.kt:31-35 | after `deleteAllPresets` the count is 0 |
| PresetDao.DisplayOrderMayRepeat | app/src/main/java/com/cemcakmak/hydrotracker/data/database/entities/ContainerPresetEntity.kt:5-10 | the display-order index is not unique: two stored rows may share an order |
| PresetDao.NewEntityGetsGeneratedId | app/src/main/java/com/cemcakmak/hydrotracker/data/database/entities/ContainerPresetEntity.kt:12-13 | an entity with id 0 is never stored under id 0 |
| PresetDao.PresetTable.constructor | app/src/main/java/com/cemcakmak/hydrotracker/data/database/DatabaseInitializer.kt:144-154 | the freshly created table is empty and AUTOINCREMENT starts at id 1 |
| PresetDao.PresetTable.GetAllPresetsSync | app/src/main/java/com/cemcakmak/hydrotracker/data/database/dao/ContainerPresetDao.kt:13-14 | returns every row once, sorted by volume, and changes nothing |
| PresetDao.PresetTable.GetPresetById | app/src/main/java/com/cemcakmak/hydrotracker/data/database/dao/ContainerPresetDao.kt:16-17 | returns the row with that id, or null |
| PresetDao.PresetTable.InsertPreset | app/src/main/java/com/cemcakmak/hydrotracker/data/database/dao/ContainerPresetDao.kt:19-20 | the new state and the returned row id are `Insert(old state, entity)` |
| PresetDao.PresetTable.InsertPresets | app/src/main/java/com/cemcakmak/hydrotracker/data/database/dao/ContainerPresetDao.kt:22-23 | the new state inserts each entity in turn |
| PresetDao.PresetTable.UpdatePreset | app/src/main/java/com/cemcakmak/hydrotracker/data/database/dao/ContainerPresetDao.kt:25-26 | the new state overwrites only the matching row |
| PresetDao.PresetTable.DeletePresetById | app/src/main/java/com/cemcakmak/hydrotracker/data/database/dao/ContainerPresetDao.kt:28-29 | the new state lacks only that id |
| PresetDao.PresetTable.DeleteAllPresets | app/src/main/java/com/cemcakmak/hydrotracker/data/database/dao/ContainerPresetDao.kt:31-32 | the new state has no rows |
| PresetDao.PresetTable.GetPresetCount | app/src/main/java/com/cemcakmak/hydrotracker/data/database/dao/ContainerPresetDao.kt:34-35 | returns the number of rows |
| PresetDao.PresetTable.GetMaxDisplayOrder | app/src/main/java/com/cemcakmak/hydrotracker/data/database/dao/ContainerPresetDao.kt:37-38 | returns the largest display order, or 0 on an empty table |
| PresetRepository.ToContainerPreset | app/src/main/java/com/cemcakmak/hydrotracker/data/database/repository/ContainerPresetRepository.kt:177-195 | id, name and volume are copied; isCustom is the negation of isDefault; a vector icon is set only for VECTOR and a drawable only for DRAWABLE, never both |
| PresetRepository.StoredIconResolves | app/src/main/java/com/cemcakmak/hydrotracker/data/database/repository/ContainerPresetRepository.kt:177-195 | a row whose icon is one of the mapper's icons is shown with that icon |
| PresetRepository.DefaultPresetEntities | app/src/main/java/com/cemcakmak/hydrotracker/data/database/repository/ContainerPresetRepository.kt:111-170 | seven unsaved entities, all default, display orders 0..6, icon types VECTOR or DRAWABLE, strictly increasing volumes |
| PresetRepository.DefaultsMatchMapper | app/src/main/java/com/cemcakmak/hydrotracker/data/database/repository/ContainerPresetRepository.kt:111-170 | each default's icon type and name are what `getIconForVolume` assigns to its volume |
| PresetRepository.AddAppendsCustomPreset | app/src/main/java/com/cemcakmak/hydrotracker/data/database/repository/ContainerPresetRepository.kt:33-47 | `addPreset` adds exactly one row under a fresh id, not a default, with the given name and volume, the mapper's icon type and name for the volume and a display order of the largest stored order plus 1 (so above every existing row's, and 1 on an empty table), and leaves every other row unchanged |
| PresetRepository.AddedPresetShowsMapperIcon | app/src/main/java/com/cemcakmak/hydrotracker/data/database/repository/ContainerPresetRepository.kt:33-47 | the added row shows the mapper's icon for its volume and counts as custom |
| PresetRepository.UpdateKeepsIdentity | app/src/main/java/com/cemcakmak/hydrotracker/data/database/repository/ContainerPresetRepository.kt:52-64 | `updatePreset` on an absent id changes nothing; otherwise name and volume take the new values, iconType and iconName become the mapper's type and name for the new volume, id, isDefault and displayOrder are kept, and no other row changes |
| PresetRepository.SeedAddsDefaults | app/src/main/java/com/cemcakmak/hydrotracker/data/database/repository/ContainerPresetRepository.kt:95-98 | `seedDefaults` adds the seven defaults under fresh ids and keeps existing rows |
| PresetRepository.ResetLeavesSevenFreshRows | app/src/main/java/com/cemcakmak/hydrotracker/data/database/repository/ContainerPresetRepository.kt:76-79 | after `resetToDefaults` the table has exactly seven rows, all under fresh ids that were not in the old table |
| PresetRepository.ResetLeavesOnlyDefaults | app/src/main/java/com/cemcakmak/hydrotracker/data/database/repository/ContainerPresetRepository.kt:76-79 | after `resetToDefaults` the j-th fresh id holds the j-th default, so only defaults remain |
| PresetRepository.SeedOnlyWhenEmpty | app/src/main/java/com/cemcakmak/hydrotracker/data/database/repository/ContainerPresetRepository.kt:85-90 | `seedDefaultsIfNeeded` changes nothing on a non-empty table and seeds an empty one |
| PresetRepository.SeedIdempotent | app/src/main/java/com/cemcakmak/hydrotracker/data/database/repository/ContainerPresetRepository.kt:85-90 | calling `seedDefaultsIfNeeded` twice on an empty table leaves seven rows, not fourteen |
| PresetRepository.UnknownIconTypeShowsNoIcon | app/src/main/java/com/cemcakmak/hydrotracker/data/database/repository/ContainerPresetRepository.kt:177-195 | a row whose icon type is neither VECTOR nor DRAWABLE is shown with no icon |
| PresetRepository.ContainerPresetRepository.constructor | app/src/main/java/com/cemcakmak/hydrotracker/data/database/repository/ContainerPresetRepository.kt:11-13 | the repository works on the given DAO |
| PresetRepository.ContainerPresetRepository.GetAllPresetsSync | app/src/main/java/com/cemcakmak/hydrotracker/data/database/repository/ContainerPresetRepository.kt:26-28 | one preset per stored row, each the mapping of its row, sorted by volume, with distinct ids |
| PresetRepository.ContainerPresetRepository.AddPreset | app/src/main/java/com/cemcakmak/hydrotracker/data/database/repository/ContainerPresetRepository.kt:33-47 | the new table is `Added(old table, name, volume)` |
| PresetRepository.ContainerPresetRepository.UpdatePreset | app/src/main/java/com/cemcakmak/hydrotracker/data/database/repository/ContainerPresetRepository.kt:52-64 | the new table is `Updated(old table, …)` |
| PresetRepository.ContainerPresetRepository.DeletePreset | app/src/main/java/com/cemcakmak/hydrotracker/data/database/repository/ContainerPresetRepository.kt:69-71 | the new table lacks only that id |
| PresetRepository.ContainerPresetRepository.ResetToDefaults | app/src/main/java/com/cemcakmak/hydrotracker/data/database/repository/ContainerPresetRepository.kt:76-79 | the new table is `Reset(old table)` |
| PresetRepository.ContainerPresetRepository.SeedDefaultsIfNeeded | app/src/main/java/com/cemcakmak/hydrotracker/data/database/repository/ContainerPresetRepository.kt:85-90 | the new table is `SeededIfNeeded(old table)` |
| PresetRepository.ContainerPresetRepository.SeedDefaults | app/src/main/java/com/cemcakmak/hydrotracker/data/database/repository/ContainerPresetRepository.kt:95-98 | the new table is `Seeded(old table)` |
| PresetRepository.ContainerPresetRepository.GetPresetCount | app/src/main/java/com/cemcakmak/hydrotracker/data/database/repository/ContainerPresetRepository.kt:103-105 | returns the row count |
| Migrations.TableInfo | app/src/main/java/com/cemcakmak/hydrotracker/data/database/DatabaseInitializer.kt:51 | `PRAGMA table_info` of a missing table lists no column |
| Migrations.WithColumn | app/src/main/java/com/cemcakmak/hydrotracker/data/database/DatabaseInitializer.kt:65-67 | adding a column appends it to the columns and gives every existing row the column's default, keeping the row count |
| Migrations.AddColumn | app/src/main/java/com/cemcakmak/hydrotracker/data/database/DatabaseInitializer.kt:28-30 | `ALTER TABLE … ADD COLUMN` fails exactly on a missing table, a duplicate column, or a NOT NULL column without a default; otherwise it keeps the table names and indices |
| Migrations.CreateTableIfNotExists | app/src/main/java/com/cemcakmak/hydrotracker/data/database/DatabaseInitializer.kt:144-154 | creates the table when absent and leaves an existing one unchanged |
| Migrations.CreateIndexIfNotExists | app/src/main/java/com/cemcakmak/hydrotracker/data/database/DatabaseInitializer.kt:157-160 | an existing index name changes nothing; a missing table fails; success keeps the tables and records the index |
| Migrations.FirstMissing | app/src/main/java/com/cemcakmak/hydrotracker/data/database/DatabaseInitializer.kt:157-160 | the first indexed column the table lacks, or none |
| Migrations.BestStepFrom | app/src/main/java/com/cemcakmak/hydrotracker/data/database/DatabaseInitializer.kt:178 | the migration found starts at the current version and does not pass the target |
| Migrations.BestStepIsFurthest | app/src/main/java/com/cemcakmak/hydrotracker/data/database/DatabaseInitializer.kt:178 | no registered migration from that version reaches further without passing the target |
| Migrations.PathFromIsChain | app/src/main/java/com/cemcakmak/hydrotracker/data/database/DatabaseInitializer.kt:178 | the chosen path is a chain of registered migrations from the start version to 6 |
| Migrations.BestSteps | app/src/main/java/com/cemcakmak/hydrotracker/data/database/DatabaseInitializer.kt:178 | from 1 the step is 1→3, from 2 it is 2→3, and from 3, 4 and 5 the next single migration |
| Migrations.BestStepsFromOneAndTwo | app/src/main/java/com/cemcakmak/hydrotracker/data/database/DatabaseInitializer.kt:178 | from 1 the step is 1→3 and from 2 it is 2→3 |
| Migrations.BestStepsFromThreeOn | app/src/main/java/com/cemcakmak/hydrotracker/data/database/DatabaseInitializer.kt:178 | from 3, 4 and 5 the step is the single next migration |
| Migrations.TablePreservedReflexive | app/src/main/java/com/cemcakmak/hydrotracker/data/database/DatabaseInitializer.kt:17-169 | a table preserves itself |
| Migrations.TablePreservedTransitive | app/src/main/java/com/cemcakmak/hydrotracker/data/database/DatabaseInitializer.kt:17-169 | preservation composes |
| Migrations.WithColumnPreserves | app/src/main/java/com/cemcakmak/hydrotracker/data/database/DatabaseInitializer.kt:65-67 | adding a column not yet present keeps every column and row value and keeps the table well formed |
| Migrations.SameTablesPreserve | app/src/main/java/com/cemcakmak/hydrotracker/data/database/DatabaseInitializer.kt:17-22 | an unchanged schema is preserved |
| Migrations.ReplaceTablePreserves | app/src/main/java/com/cemcakmak/hydrotracker/data/database/DatabaseInitializer.kt:28-30 | replacing one table by a preserving one preserves the schema |
| Migrations.AddTablePreserves | app/src/main/java/com/cemcakmak/hydrotracker/data/database/DatabaseInitializer.kt:144-154 | adding a new table preserves the schema |
| Migrations.AddColumnPreserves | app/src/main/java/com/cemcakmak/hydrotracker/data/database/DatabaseInitializer.kt:28-30 | a successful `ADD COLUMN` loses no column and no row |
| Migrations.MigrationPreserves | app/src/main/java/com/cemcakmak/hydrotracker/data/database/DatabaseInitializer.kt:17-169 | no registered migration removes a column or a row, and every one keeps the schema well formed |
| Migrations.GuardedAddPreserves | app/src/main/java/com/cemcakmak/hydrotracker/data/database/DatabaseInitializer.kt:51-70 | the guarded add loses no column and no row and keeps the schema well formed |
| Migrations.PresetTableWellFormed | app/src/main/java/com/cemcakmak/hydrotracker/data/database/DatabaseInitializer.kt:144-154 | the created preset table is well formed |
| Migrations.Migrate5To6Preserves | app/src/main/java/com/cemcakmak/hydrotracker/data/database/DatabaseInitializer.kt:144-160 | 5→6 loses no column and no row |
| Migrations.ApplyPathPreserves | app/src/main/java/com/cemcakmak/hydrotracker/data/database/DatabaseInitializer.kt:17-178 | running any chain of migrations loses no column and no row |
| Migrations.Migrate1To2IsIdentity | app/src/main/java/com/cemcakmak/hydrotracker/data/database/DatabaseInitializer.kt:17-22 | 1→2 leaves the schema unchanged |
| Migrations.HealthConnectMigrationNotIdempotent | app/src/main/java/com/cemcakmak/hydrotracker/data/database/DatabaseInitializer.kt:25-42 | 1→3 and 2→3 add the column without a check, so a second run fails |
| Migrations.AddColumnIfMissingIdempotent | app/src/main/java/com/cemcakmak/hydrotracker/data/database/DatabaseInitializer.kt:51-70 | the guarded add run twice equals run once |
| Migrations.GuardedMigrationsIdempotent | app/src/main/java/com/cemcakmak/hydrotracker/data/database/DatabaseInitializer.kt:45-169 | 3→4, 4→5 and 5→6 run twice equal run once |
| Migrations.AddColumnIfMissingDefaults | app/src/main/java/com/cemcakmak/hydrotracker/data/database/DatabaseInitializer.kt:97-117 | the guarded add always succeeds on an existing table; with the column present it changes nothing, otherwise every existing row reads the column's default |
| Migrations.Migrate5To6Effect | app/src/main/java/com/cemcakmak/hydrotracker/data/database/DatabaseInitializer.kt:138-169 | 5→6 creates the seven-column preset table and its display_order index and leaves water_intake_entries untouched |
| Migrations.PathExists | app/src/main/java/com/cemcakmak/hydrotracker/data/database/DatabaseInitializer.kt:178 | a chain of registered migrations leads from every version 1..5 to 6 |
| Migrations.UpgradePaths | app/src/main/java/com/cemcakmak/hydrotracker/data/database/DatabaseInitializer.kt:178 | the chains chosen from 1, 2 and 3, spelled out |
| Migrations.WithIntakeColumn | app/src/main/java/com/cemcakmak/hydrotracker/data/database/DatabaseInitializer.kt:28-30 | adding an intake column keeps the table names and indices |
| Migrations.ApplyPathCons | app/src/main/java/com/cemcakmak/hydrotracker/data/database/DatabaseInitializer.kt:178 | running a chain is running its first migration, then the rest |
| Migrations.AddKeepsLacking | app/src/main/java/com/cemcakmak/hydrotracker/data/database/DatabaseInitializer.kt:51-117 | adding one intake column keeps the later columns absent |
| Migrations.AddIntakeColumn | app/src/main/java/com/cemcakmak/hydrotracker/data/database/DatabaseInitializer.kt:51-117 | an absent intake column is added, guarded or not, as `WithIntakeColumn` |
| Migrations.FirstThreeSteps | app/src/main/java/com/cemcakmak/hydrotracker/data/database/DatabaseInitializer.kt:25-117 | on a version-one schema, running 1→3, 3→4, 4→5 and then anything equals running that on the schema with the three columns added |
| Migrations.VersionFiveRows | app/src/main/java/com/cemcakmak/hydrotracker/data/database/DatabaseInitializer.kt:25-117 | each intake row of a version-one database comes out with null sync id, is_hidden 0 and beverage_type 'WATER' |
| Migrations.UpgradeFromVersionOne | app/src/main/java/com/cemcakmak/hydrotracker/data/database/DatabaseInitializer.kt:17-178 | running the migrations from version one to 6 succeeds and the rows survive with the defaulted new columns (Room's later schema validation is not modelled) |
| Migrations.OpenFromVersionOne | app/src/main/java/com/cemcakmak/hydrotracker/data/database/DatabaseInitializer.kt:171-181 | opening a version-one database runs 5→6 on the schema with the three columns added, and that succeeds |
| Migrations.PathFromOneRuns | app/src/main/java/com/cemcakmak/hydrotracker/data/database/DatabaseInitializer.kt:25-169 | the chosen chain from 1 runs as the three column additions followed by 5→6 |
| Migrations.OpenAlongPath | app/src/main/java/com/cemcakmak/hydrotracker/data/database/DatabaseInitializer.kt:171-181 | opening an older database succeeds or fails exactly as its chosen chain of migrations does (Room's later schema validation is not modelled) |
| Migrations.ApplyPathSingle | app/src/main/java/com/cemcakmak/hydrotracker/data/database/DatabaseInitializer.kt:178 | a one-step chain runs that migration |
| Migrations.ApplyPathSplit | app/src/main/java/com/cemcakmak/hydrotracker/data/database/DatabaseInitializer.kt:178 | a chain runs as a successful prefix followed by the rest |
| Migrations.OpenOtherVersions | app/src/main/java/com/cemcakmak/hydrotracker/data/database/DatabaseInitializer.kt:171-180 | version 6 opens unchanged; a newer file is recreated from the entity schema (destructive downgrade); no version 1..5 lacks a path |
| Migrations.ErrorsPropagate | app/src/main/java/com/cemcakmak/hydrotracker/data/database/DatabaseInitializer.kt:83-86 | an error in 3→4 makes opening a version-3 database fail with that same error |
| Migrations.SqliteDb.constructor | app/src/main/java/com/cemcakmak/hydrotracker/data/database/DatabaseInitializer.kt:171-177 | the connection holds the given schema and version |
| Migrations.SqliteDb.QueryTableInfo | app/src/main/java/com/cemcakmak/hydrotracker/data/database/DatabaseInitializer.kt:51 | returns the table's column names and changes nothing |
| Migrations.SqliteDb.ExecAddColumn | app/src/main/java/com/cemcakmak/hydrotracker/data/database/DatabaseInitializer.kt:28-30 | applies `AddColumn` to the schema, or leaves it unchanged and reports the error |
| Migrations.SqliteDb.ExecCreateTable | app/src/main/java/com/cemcakmak/hydrotracker/data/database/DatabaseInitializer.kt:144-154 | applies `CreateTableIfNotExists` |
| Migrations.SqliteDb.ExecCreateIndex | app/src/main/java/com/cemcakmak/hydrotracker/data/database/DatabaseInitializer.kt:157-160 | applies `CreateIndexIfNotExists`, or reports its error and leaves the schema |
| Migrations.ColumnExists | app/src/main/java/com/cemcakmak/hydrotracker/data/database/DatabaseInitializer.kt:51-61 | the cursor loop finds the column exactly when `table_info` lists it |
| Migrations.CountColumns | app/src/main/java/com/cemcakmak/hydrotracker/data/database/DatabaseInitializer.kt:74-79 | the counting loop returns the number of listed columns |
| Migrations.AddColumnUnlessListed | app/src/main/java/com/cemcakmak/hydrotracker/data/database/DatabaseInitializer.kt:51-79 | the cursor check then the add give exactly `AddColumnIfMissing`, error included |
| Migrations.Migrate | app/src/main/java/com/cemcakmak/hydrotracker/data/database/DatabaseInitializer.kt:17-169 | running one registered migration on the connection gives `Apply` of it, error included |
| Migrations.RunPath | app/src/main/java/com/cemcakmak/hydrotracker/data/database/DatabaseInitializer.kt:178 | running a chain on the connection gives `ApplyPath` of it, error included |
| Migrations.OpenDatabase | app/src/main/java/com/cemcakmak/hydrotracker/data/database/DatabaseInitializer.kt:171-185 | opening gives `Open` of the stored version and schema; success leaves version 6, a failure leaves the file as it was |
| PresetSheets.SaveAsWritten | app/src/main/java/com/cemcakmak/hydrotracker/presentation/home/ContainerPresetBottomSheets.kt:198-209 | the handler as written: name error iff the trimmed name is empty, callback iff neither error is set, with the trimmed name |
| PresetSheets.SaveAsWrittenAcceptsNaN | app/src/main/java/com/cemcakmak/hydrotracker/presentation/home/ContainerPresetBottomSheets.kt:202-205 | the typed text "NaN" passes the as-written check and is handed to `onSave` |
| PresetSheets.Validate | app/src/main/java/com/cemcakmak/hydrotracker/presentation/home/ContainerPresetBottomSheets.kt:198-209 | callback iff the trimmed name is non-empty and the volume is a finite number in (0, 5000]; both errors are computed independently; the trimmed name is passed on. This is the corrected check: unlike the handler as written (`SaveAsWritten`), it refuses a NaN volume |
| PresetSheets.AsWrittenAgreesExceptNaN | app/src/main/java/com/cemcakmak/hydrotracker/presentation/home/ContainerPresetBottomSheets.kt:204-205 | the corrected and the as-written check agree on every input except a NaN volume |
| PresetSheets.AcceptedNameIsTrimmed | app/src/main/java/com/cemcakmak/hydrotracker/presentation/home/ContainerPresetBottomSheets.kt:201-208 | the name handed on has no surrounding whitespace, and a blank name is never handed on |
| PresetSheets.PreviewVolume | app/src/main/java/com/cemcakmak/hydrotracker/presentation/home/ContainerPresetBottomSheets.kt:47-50 | the typed number, or the fallback while the text does not parse |
| PresetSheets.InitialVolumeText | app/src/main/java/com/cemcakmak/hydrotracker/presentation/home/ContainerPresetBottomSheets.kt:41 | the edit sheet's volume field opens on `preset.volume.toInt()`: a finite number within 1 of the volume |
| PresetSheets.EditPresetSheet.constructor | app/src/main/java/com/cemcakmak/hydrotracker/presentation/home/ContainerPresetBottomSheets.kt:33-44 | the sheet opens on the preset's name and truncated volume, no errors, no dialog |
| PresetSheets.EditPresetSheet.PreviewIcon | app/src/main/java/com/cemcakmak/hydrotracker/presentation/home/ContainerPresetBottomSheets.kt:47-50 | the mapper's icon for the typed volume, or for the preset's volume when the text does not parse |
| PresetSheets.EditPresetSheet.EditName | app/src/main/java/com/cemcakmak/hydrotracker/presentation/home/ContainerPresetBottomSheets.kt:109-112 | typing a name clears only the name error |
| PresetSheets.EditPresetSheet.EditVolume | app/src/main/java/com/cemcakmak/hydrotracker/presentation/home/ContainerPresetBottomSheets.kt:129-132 | typing a volume clears only the volume error |
| PresetSheets.EditPresetSheet.PressSave | app/src/main/java/com/cemcakmak/hydrotracker/presentation/home/ContainerPresetBottomSheets.kt:198-209 | sets both flags and returns the callback's arguments exactly as the corrected `Validate` decides, leaving the fields as typed; the handler as written would also pass a NaN volume on (see Findings) |
| PresetSheets.EditPresetSheet.PressDelete | app/src/main/java/com/cemcakmak/hydrotracker/presentation/home/ContainerPresetBottomSheets.kt:174-177 | Delete only opens the confirmation |
| PresetSheets.EditPresetSheet.CancelDelete | app/src/main/java/com/cemcakmak/hydrotracker/presentation/home/ContainerPresetBottomSheets.kt:266-270 | Cancel closes the confirmation without deleting |
| PresetSheets.EditPresetSheet.ConfirmDelete | app/src/main/java/com/cemcakmak/hydrotracker/presentation/home/ContainerPresetBottomSheets.kt:280-285 | `onDelete` runs exactly when the confirmation is open |
| PresetSheets.UntouchedSaveTruncates | app/src/main/java/com/cemcakmak/hydrotracker/presentation/home/ContainerPresetBottomSheets.kt:41 | saving an untouched sheet of a 250.7 ml preset stores 250 ml |
| PresetSheets.UntouchedSaveAccepted | app/src/main/java/com/cemcakmak/hydrotracker/presentation/home/ContainerPresetBottomSheets.kt:40-41 | an untouched sheet of a valid preset of at least 1 ml saves |
| PresetSheets.AddPresetSheet.constructor | app/src/main/java/com/cemcakmak/hydrotracker/presentation/home/ContainerPresetBottomSheets.kt:308-316 | the add sheet opens empty, with no errors |
| PresetSheets.AddPresetSheet.PreviewIcon | app/src/main/java/com/cemcakmak/hydrotracker/presentation/home/ContainerPresetBottomSheets.kt:319-322 | the mapper's icon for the typed volume, or for 250 ml |
| PresetSheets.AddPresetSheet.EditName | app/src/main/java/com/cemcakmak/hydrotracker/presentation/home/ContainerPresetBottomSheets.kt:381-384 | typing a name clears only the name error |
| PresetSheets.AddPresetSheet.EditVolume | app/src/main/java/com/cemcakmak/hydrotracker/presentation/home/ContainerPresetBottomSheets.kt:399-402 | typing a volume clears only the volume error |
| PresetSheets.AddPresetSheet.PressAdd | app/src/main/java/com/cemcakmak/hydrotracker/presentation/home/ContainerPresetBottomSheets.kt:435-445 | sets both flags and returns the callback's arguments exactly as the corrected `Validate` decides; the handler as written would also pass a NaN volume on (see Findings) |
| PresetSheets.FreshAddSheet | app/src/main/java/com/cemcakmak/hydrotracker/presentation/home/ContainerPresetBottomSheets.kt:313-322 | Add on a fresh sheet shows both errors; its preview is the 250 ml icon |
| HomeScreen.FindByNameFrom | app/src/main/java/com/cemcakmak/hydrotracker/presentation/home/HomeScreen.kt:128-129 | `find { it.name == name }`: the first preset with that name, or none when no preset has it |
| HomeScreen.QuickAddPreset | app/src/main/java/com/cemcakmak/hydrotracker/presentation/home/HomeScreen.kt:126-130 | the first default whose name matches, else a "Custom" container whose volume is the amount |
| HomeScreen.AmountAcceptedIsFiniteRange | app/src/main/java/com/cemcakmak/hydrotracker/presentation/home/HomeScreen.kt:959-966 | `amount > 0 && amount <= 5000` accepts exactly the finite amounts in (0, 5000]; NaN and the infinities are refused |
| HomeScreen.CustomWaterDialog.constructor | app/src/main/java/com/cemcakmak/hydrotracker/presentation/home/HomeScreen.kt:807-814 | the dialog opens empty, with no error |
| HomeScreen.CustomWaterDialog.EditAmount | app/src/main/java/com/cemcakmak/hydrotracker/presentation/home/HomeScreen.kt:932-937 | typing clears the error |
| HomeScreen.CustomWaterDialog.PressAdd | app/src/main/java/com/cemcakmak/hydrotracker/presentation/home/HomeScreen.kt:959-966 | the amount is confirmed iff it is in range; otherwise only the error is raised |
| HomeScreen.RecordCustomAmount | app/src/main/java/com/cemcakmak/hydrotracker/presentation/home/HomeScreen.kt:622-623 | a confirmed custom amount is recorded as a "Custom" container of that volume when no default is named "Custom" |
| HomeScreen.EditedEntry | app/src/main/java/com/cemcakmak/hydrotracker/presentation/home/HomeScreen.kt:1250-1255 | the copy changes amount, container type, beverage type and timestamp and keeps every other field |
| HomeScreen.EditWaterDialog.constructor | app/src/main/java/com/cemcakmak/hydrotracker/presentation/home/HomeScreen.kt:978-986 | the dialog opens on the entry's amount, container type and beverage, no error |
| HomeScreen.EditWaterDialog.PickPreset | app/src/main/java/com/cemcakmak/hydrotracker/presentation/home/HomeScreen.kt:1083-1096 | picking a preset sets container name and amount to the preset's; no menu for an external entry |
| HomeScreen.EditWaterDialog.PickCustom | app/src/main/java/com/cemcakmak/hydrotracker/presentation/home/HomeScreen.kt:1098-1103 | picking "Custom" changes only the container name |
| HomeScreen.EditWaterDialog.PickBeverage | app/src/main/java/com/cemcakmak/hydrotracker/presentation/home/HomeScreen.kt:1110-1170 | picking a beverage changes only the beverage; no menu for an external entry |
| HomeScreen.EditWaterDialog.EditAmount | app/src/main/java/com/cemcakmak/hydrotracker/presentation/home/HomeScreen.kt:1209-1214 | amount edits are ignored for an external entry and otherwise clear the error |
| HomeScreen.EditWaterDialog.PressUpdate | app/src/main/java/com/cemcakmak/hydrotracker/presentation/home/HomeScreen.kt:1233-1260 | an edited copy is handed on iff the entry is not external and the amount is in range; otherwise the error is raised |
| HomeScreen.EditKeepsIdentity | app/src/main/java/com/cemcakmak/hydrotracker/presentation/home/HomeScreen.kt:1239-1255 | an accepted edit differs from the entry only in the four edited fields, and its amount is in range |
| HomeScreen.CarouselItemAt | app/src/main/java/com/cemcakmak/hydrotracker/presentation/home/HomeScreen.kt:520-548 | indices below `presets.size` show that preset; the last index is the Add card |
| HomeScreen.CarouselLayout | app/src/main/java/com/cemcakmak/hydrotracker/presentation/home/HomeScreen.kt:496-548 | `presets.size + 1` slots: every preset once, in order, then exactly one Add card |
| HomeScreen.TapPresetCardRecords | app/src/main/java/com/cemcakmak/hydrotracker/presentation/home/HomeScreen.kt:520-527 | tapping a custom preset's card records a "Custom" container of its volume; a default's card records that default |
| HomeScreen.MotivationalMessage | app/src/main/java/com/cemcakmak/hydrotracker/presentation/home/HomeScreen.kt:1662-1670 | the goal message exactly when the goal is reached |
| HomeScreen.MotivationBands | app/src/main/java/com/cemcakmak/hydrotracker/presentation/home/HomeScreen.kt:1662-1670 | otherwise progress ≥ 0.75, ≥ 0.5, ≥ 0.25 pick the three messages, below that the activity tip |
| HomeScreen.MotivationMonotone | app/src/main/java/com/cemcakmak/hydrotracker/presentation/home/HomeScreen.kt:1662-1670 | more progress never gives a less encouraging message |
| HomeScreen.NaNProgressShowsTip | app/src/main/java/com/cemcakmak/hydrotracker/presentation/home/HomeScreen.kt:1662-1670 | a NaN progress shows the activity tip |
| HomeScreen.FabBehaviour | app/src/main/java/com/cemcakmak/hydrotracker/presentation/home/HomeScreen.kt:274-286 | expanded at the top, collapsed while scrolling down below the top; a repeated evaluation at the same position expands only at the top |
| HomeScreen.FabState.constructor | app/src/main/java/com/cemcakmak/hydrotracker/presentation/home/HomeScreen.kt:273 | the remembered scroll value starts at 0 |
| HomeScreen.FabState.Evaluate | app/src/main/java/com/cemcakmak/hydrotracker/presentation/home/HomeScreen.kt:274-286 | expanded iff the scroll value decreased or is ≤ 0; the remembered value becomes the current one |
| SettingsScreen.InitialState | app/src/main/java/com/cemcakmak/hydrotracker/presentation/settings/SettingsScreen.kt:78-84 | no taps, last tap at 0, developer options as loaded |
| SettingsScreen.Tap | app/src/main/java/com/cemcakmak/hydrotracker/presentation/settings/SettingsScreen.kt:296-322 | a tap more than 3000 ms after the last starts a series at 1, a quicker one adds 1; while the options are off, a tap turns them on exactly when the new count reaches 10, and then stores that and resets the counter; while they are on the count keeps growing; the last tap time is always updated; taps never turn the options off |
| SettingsScreen.Disable | app/src/main/java/com/cemcakmak/hydrotracker/presentation/settings/SettingsScreen.kt:271-274 | `onDisableDeveloperOptions` turns the options off and stores that |
| SettingsScreen.TapsNeverDisable | app/src/main/java/com/cemcakmak/hydrotracker/presentation/settings/SettingsScreen.kt:309 | no series of taps turns developer options off |
| SettingsScreen.QuickSeriesCounts | app/src/main/java/com/cemcakmak/hydrotracker/presentation/settings/SettingsScreen.kt:299-306 | within one quick series the n-th tap (n < 10) leaves the counter at n |
| SettingsScreen.TenthQuickTapActivates | app/src/main/java/com/cemcakmak/hydrotracker/presentation/settings/SettingsScreen.kt:309-321 | the tenth tap of a quick series turns the options on, stores that and resets the counter |
| SettingsScreen.ReenableAfterDisable | app/src/main/java/com/cemcakmak/hydrotracker/presentation/settings/SettingsScreen.kt:271-274 | disabling keeps the counter, so after nine or more quick taps counted while on, one quick tap after a disable turns the options back on |
| SettingsScreen.OneTapReenables | app/src/main/java/com/cemcakmak/hydrotracker/presentation/settings/SettingsScreen.kt:299-309 | an example: nine taps counted while on, a disable, then one tap a second later turns the options on |
| SettingsScreen.FewTapsNeverEnable | app/src/main/java/com/cemcakmak/hydrotracker/presentation/settings/SettingsScreen.kt:299-321 | fewer than ten taps since the counter was at its current value never turn the options on |
| SettingsScreen.DeveloperOptions.constructor | app/src/main/java/com/cemcakmak/hydrotracker/presentation/settings/SettingsScreen.kt:78-84 | the screen starts in `InitialState` |
| SettingsScreen.DeveloperOptions.OnVersionTap | app/src/main/java/com/cemcakmak/hydrotracker/presentation/settings/SettingsScreen.kt:296-322 | the new state is `Tap(old state, now)`; reports whether this tap turned the options on |
| SettingsScreen.DeveloperOptions.OnDisableDeveloperOptions | app/src/main/java/com/cemcakmak/hydrotracker/presentation/settings/SettingsScreen.kt:271-274 | the new state is `Disable(old state)` |
| MarkdownText.CloseFrom | app/src/main/java/com/cemcakmak/hydrotracker/presentation/settings/SettingsScreen.kt:1542 | the first `**` at or after a position with no line terminator before it, or none |
| MarkdownText.CloseIsShortest | app/src/main/java/com/cemcakmak/hydrotracker/presentation/settings/SettingsScreen.kt:1542 | the lazy group `(.*?)` closes at the earliest possible `**` |
| MarkdownText.NextMatch | app/src/main/java/com/cemcakmak/hydrotracker/presentation/settings/SettingsScreen.kt:1542-1544 | a match found from a position starts there or later and has `**` at both ends |
| MarkdownText.NextMatchIsLeftmost | app/src/main/java/com/cemcakmak/hydrotracker/presentation/settings/SettingsScreen.kt:1544 | no match starts between the search position and the match found |
| MarkdownText.BuildStep | app/src/main/java/com/cemcakmak/hydrotracker/presentation/settings/SettingsScreen.kt:1546-1556 | one loop step emits the text before the match, then the inner group in bold |
| MarkdownText.MatchesStep | app/src/main/java/com/cemcakmak/hydrotracker/presentation/settings/SettingsScreen.kt:1546-1548 | findAll yields the leftmost match, then continues after that match's closing delimiter |
| MarkdownText.BuildUnfold | app/src/main/java/com/cemcakmak/hydrotracker/presentation/settings/SettingsScreen.kt:1546-1556 | with a match at (i, j), the builder emits the text from the cursor up to i, then the bold group, then continues after j |
| MarkdownText.MatchesFormChain | app/src/main/java/com/cemcakmak/hydrotracker/presentation/settings/SettingsScreen.kt:1544 | `findAll` yields non-overlapping matches in increasing order |
| MarkdownText.BuildIsAssemble | app/src/main/java/com/cemcakmak/hydrotracker/presentation/settings/SettingsScreen.kt:1544-1561 | the output is the segments assembled from the match list |
| MarkdownText.AssembleMatch | app/src/main/java/com/cemcakmak/hydrotracker/presentation/settings/SettingsScreen.kt:1546-1556 | assembling a list that starts with a match emits the text before it, the bold group, then the rest |
| MarkdownText.UnparseAppend | app/src/main/java/com/cemcakmak/hydrotracker/presentation/settings/SettingsScreen.kt:1546-1561 | putting the delimiters back distributes over concatenation |
| MarkdownText.BuildRoundTrip | app/src/main/java/com/cemcakmak/hydrotracker/presentation/settings/SettingsScreen.kt:1546-1561 | putting `**` back around every bold segment gives back the input |
| MarkdownText.RoundTripLast | app/src/main/java/com/cemcakmak/hydrotracker/presentation/settings/SettingsScreen.kt:1558-1561 | the remaining text after the last match is appended unchanged |
| MarkdownText.RoundTripStep | app/src/main/java/com/cemcakmak/hydrotracker/presentation/settings/SettingsScreen.kt:1546-1556 | each step restores its slice of the input |
| MarkdownText.UnparseMatch | app/src/main/java/com/cemcakmak/hydrotracker/presentation/settings/SettingsScreen.kt:1548-1555 | a bold segment restored with its delimiters is the matched text |
| MarkdownText.UnparsePair | app/src/main/java/com/cemcakmak/hydrotracker/presentation/settings/SettingsScreen.kt:1548-1555 | the plain prefix and restored bold segment cover the input up to the match end |
| MarkdownText.SliceAroundMatch | app/src/main/java/com/cemcakmak/hydrotracker/presentation/settings/SettingsScreen.kt:1548-1555 | the input splits at a match into before, match and after |
| MarkdownText.UnparseLength | app/src/main/java/com/cemcakmak/hydrotracker/presentation/settings/SettingsScreen.kt:1546-1561 | the output text is shorter than the input by exactly four characters per bold segment |
| MarkdownText.PlainTextLength | app/src/main/java/com/cemcakmak/hydrotracker/presentation/settings/SettingsScreen.kt:1546-1561 | the plain text is the input with the delimiters of each match removed |
| MarkdownText.NoPairUnchanged | app/src/main/java/com/cemcakmak/hydrotracker/presentation/settings/SettingsScreen.kt:1544-1561 | non-empty text with no `**…**` pair comes out as a single unchanged plain segment |
| MarkdownText.NoDelimiterUnchanged | app/src/main/java/com/cemcakmak/hydrotracker/presentation/settings/SettingsScreen.kt:1542-1561 | text without `**` comes out unchanged |
| MarkdownText.BoldSpansAreShortest | app/src/main/java/com/cemcakmak/hydrotracker/presentation/settings/SettingsScreen.kt:1542-1553 | every bold span is a shortest group: it contains no `**` and no line terminator |
| MarkdownText.GroupIsShortest | app/src/main/java/com/cemcakmak/hydrotracker/presentation/settings/SettingsScreen.kt:1542 | the group of one match is shortest |
| MarkdownText.BoldSpansPrepend | app/src/main/java/com/cemcakmak/hydrotracker/presentation/settings/SettingsScreen.kt:1551-1553 | a shortest group in front keeps all spans shortest |
| MarkdownText.AppendMatches | app/src/main/java/com/cemcakmak/hydrotracker/presentation/settings/SettingsScreen.kt:1546-1556 | the loop over the matches builds exactly the assembled segments |
| MarkdownText.AssembleHead | app/src/main/java/com/cemcakmak/hydrotracker/presentation/settings/SettingsScreen.kt:1546-1555 | assembling from the first match emits its two segments, then assembles the rest |
| MarkdownText.ParseInlineMarkdown | app/src/main/java/com/cemcakmak/hydrotracker/presentation/settings/SettingsScreen.kt:1539-1563 | the builder's output equals the match-by-match specification |
| MarkdownLines.ClassifyLine | app/src/main/java/com/cemcakmak/hydrotracker/presentation/settings/SettingsScreen.kt:1458-1533 | headings and bullets drop exactly their prefix; whole-line bold is the trimmed line without its `**` pair; a paragraph keeps all its text |
| MarkdownLines.TrimKeepsStart | app/src/main/java/com/cemcakmak/hydrotracker/presentation/settings/SettingsScreen.kt:1506 | trimming a line that starts with a non-space keeps its start |
| MarkdownLines.PrefixChar | app/src/main/java/com/cemcakmak/hydrotracker/presentation/settings/SettingsScreen.kt:1459-1486 | a line starts with each character of its prefix |
| MarkdownLines.PrefixDecidesKind | app/src/main/java/com/cemcakmak/hydrotracker/presentation/settings/SettingsScreen.kt:1458-1505 | a line is a heading of level 1, 2 or 3, or a bullet, exactly when it starts with that prefix |
| MarkdownLines.SpacerExactlyBlank | app/src/main/java/com/cemcakmak/hydrotracker/presentation/settings/SettingsScreen.kt:1514-1516 | a line is a spacer exactly when it is blank |
| MarkdownLines.BlankPassesEarlierTests | app/src/main/java/com/cemcakmak/hydrotracker/presentation/settings/SettingsScreen.kt:1458-1514 | a blank line trims to nothing, so it is not whole-line bold, and has none of the four prefixes |
| MarkdownLines.DividerExactlyDashes | app/src/main/java/com/cemcakmak/hydrotracker/presentation/settings/SettingsScreen.kt:1517-1524 | a line is a divider exactly when it trims to `---` |
| MarkdownLines.DashesPassEarlierTests | app/src/main/java/com/cemcakmak/hydrotracker/presentation/settings/SettingsScreen.kt:1458-1517 | a line trimming to `---` is not blank, not whole-line bold and has none of the four prefixes |
| MarkdownLines.ParsedMarkdownText | app/src/main/java/com/cemcakmak/hydrotracker/presentation/settings/SettingsScreen.kt:1446-1536 | one classified line per piece of `split("\n")`, in order |
| StatsGraph.Insert | stats/graph.py:70 | inserting a timestamp adds exactly it to the multiset |
| StatsGraph.InsertSorted | stats/graph.py:70 | inserting into a sorted list keeps it sorted |
| StatsGraph.HeadBelowTail | stats/graph.py:70 | the head of a sorted list is no larger than anything after it |
| StatsGraph.SortDates | stats/graph.py:70 | `sort()` keeps the length and the multiset of timestamps |
| StatsGraph.SortDatesSorted | stats/graph.py:70 | `sort()` yields a non-decreasing list |
| StatsGraph.SortedHeadIsLeast | stats/graph.py:70 | the head of a sorted list is its minimum |
| StatsGraph.SortedTail | stats/graph.py:70 | the tail of a sorted list is sorted |
| StatsGraph.SortedPermutationUnique | stats/graph.py:70 | two sorted lists with the same multiset are equal, so the sort is determined by its input |
| StatsGraph.CumulativeStarsShape | stats/graph.py:70-77 | one entry per star; the i-th holds count i+1; dates are non-decreasing and are exactly the starred times |
| StatsGraph.StarsHistoryIgnoresArrivalOrder | stats/graph.py:57-75 | the order the pages arrive in does not change the history |
| StatsGraph.FetchStarsHistory | stats/graph.py:70-77 | the loop builds exactly the cumulative history |
| StatsGraph.AssetDownloads | stats/graph.py:106 | `asset.get('download_count', 0)` |
| StatsGraph.DownloadsSumAppend | stats/graph.py:91-110 | the total over two page lists is the sum of the totals |
| StatsGraph.DownloadsSumNonNegative | stats/graph.py:104-106 | with non-negative counts the total is non-negative |
| StatsGraph.AssetsSumNonNegative | stats/graph.py:105-106 | with non-negative counts an asset total is non-negative |
| StatsGraph.AddAssets | stats/graph.py:105-106 | the inner loop adds one release's asset counts, missing counts as 0 |
| StatsGraph.FetchTotalDownloads | stats/graph.py:104-106 | the loops return the sum of every asset's count, missing assets and counts as 0 |
| StatsGraph.Loaded | stats/graph.py:120-126 | a missing or undecodable file loads as the empty history |
| StatsGraph.RunsAppend | stats/graph.py:120-138 | after several runs the history is the loaded one followed by one entry per run |
| StatsGraph.HistoryStore.constructor | stats/graph.py:120-126 | the store holds the given file |
| StatsGraph.HistoryStore.UpdateDownloadHistory | stats/graph.py:115-138 | returns the prior history plus exactly one entry (now, count) and writes that list back |
| StatsGraph.Earliest | stats/graph.py:155 | `min(dates)` is one of the dates and no larger than any |
| StatsGraph.ProcessDownloadData | stats/graph.py:140-163 | equal lengths; an empty history gives one zero point at the first star or nothing; a history later than the first star gets one zero point in front; otherwise the history is kept in its order |
| StatsGraph.FirstStarDate | stats/graph.py:321 | the first star's date, or now when there are no stars |
| StatsGraph.FirstStarIsEarliest | stats/graph.py:70-75 | the first star's date is no later than any star's |

## Left out

- Compose rendering, animations, haptics, snackbars, sheet and dialog visibility, and navigation are not modelled. Only the state the handlers read and write is kept.
- Health Connect reads, writes, permissions and sync are not modelled. The code behind them is an external SDK.
- Coroutines, the `Flow` variant `getAllPresets` and the `@Volatile`/`synchronized` database singleton are not modelled. `getAllPresetsSync` covers the query itself.
- `repairDatabase` and `validateDatabase` are not modelled. They delete and reopen files.
- The SQL engine is modelled only as far as the migrations use it: `ADD COLUMN`, `CREATE TABLE IF NOT EXISTS`, `CREATE INDEX IF NOT EXISTS` and `PRAGMA table_info`.
- Room's path selection is not part of this model. It is modelled as taking, at each version, the registered migration that reaches furthest without passing version 6.
- The schema Room creates from the entities, for a new or downgraded file, is a parameter (`created`).
- Calendar arithmetic when an edited entry is retimed is left out. The new timestamp is a parameter of `PressUpdate`.
- `System.currentTimeMillis()` and `datetime.now()` become parameters.
- `WaterIntakeEntry.isExternalEntry()` and `getBeverageType()` are not part of this model. They enter as parameters.
- `ContainerPreset.getDefaultPresets()` is not part of this model. It enters as a parameter.
- The text of the activity-level hydration tip is not part of this model; it is `ActivityTip`.
- Text-to-number parsing is not modelled. `toDoubleOrNull()` is taken as its result, an optional `Double` that may be NaN or infinite. Reals stand for doubles, so rounding is not modelled and the band and range boundaries are exact.
- The motivational message's `Float` progress is modelled as a `Double`.
- The persisted developer-options flag is modelled as stored even when the user repository is absent (a null repository skips the write in the source).
- 32- and 64-bit overflow of ids, counts, display orders and download totals is not modelled. `Double.toInt()` saturation is modelled.
- `AnnotatedString` is modelled as a list of plain and bold segments.
- `getIconType`, `getIconName` and `getAllIcons` are plain accessors and are not modelled separately.
- `graph.py`: the GitHub API pagination and error exits are left out. Each page's items are given as lists, and `DownloadsSumAppend` shows the total does not depend on how releases are split into pages.
- `graph.py`: JSON file I/O, `isoformat`/`fromisoformat` and `strptime` are left out. Dates are integer timestamps, and the history file is one of missing, undecodable or decoded entries.
- `graph.py`: a JSON value of the wrong shape (a non-list history, a non-numeric count) is left out, as are comparisons between naive and aware datetimes. These raise in the script.
- `graph.py`: plotting and the mock-data generator are left out.
- `StatsGraph.SortDates`: Python's `list.sort` is modelled as an insertion sort on timestamps. Any two sorts give the same list (`SortedPermutationUnique`).
- `StatsGraph.ProcessDownloadData`: `first_star_date` is an `Option`. `main` always passes a date, so only the `Some` case is reached from the script.
- `PresetSheets.EditPresetSheet.PressSave` and `PresetSheets.AddPresetSheet.PressAdd` follow the corrected `Validate`, not the handlers as written: on the volume text "NaN" the source calls `onSave`/`onAdd`, and these members refuse it. The as-written behaviour is `SaveAsWritten`.
- Storing a NaN volume is not modelled. Entity and repository volumes are reals, so what the `volume REAL NOT NULL` column (DatabaseInitializer.kt:148) would do with a NaN is outside the model.
- Room's schema validation after the migrations is not modelled. Room checks the migrated schema against the entities and throws on a mismatch, so `OpenAlongPath`, `OpenDatabase` and `UpgradeFromVersionOne` describe only the migration steps.
- The migrations' `println` logging (DatabaseInitializer.kt, lines 48-165) is left out. It prints the progress, the counted columns and the caught error, and changes nothing; the error is still rethrown.

## Findings

| source | as written | input that shows it | evidently intended | confidence | as-written member | corrected member |
|---|---|---|---|---|---|---|
| app/src/main/java/com/cemcakmak/hydrotracker/presentation/home/ContainerPresetBottomSheets.kt:205 | the edit and add sheets (lines 205 and 441) reject a volume only when it is `null`, `<= 0` or `> 5000`; both comparisons are false for NaN | the volume text "NaN", which `toDoubleOrNull()` parses to NaN, passes both checks and is handed to `onSave`/`onAdd`, and from there to the repository | accept only finite volumes in (0, 5000], as the custom-amount dialog does with `amount > 0 && amount <= 5000` (HomeScreen.kt:961) | medium, not executed | PresetSheets.SaveAsWritten (counterexample PresetSheets.SaveAsWrittenAcceptsNaN) | PresetSheets.Validate (PresetSheets.AsWrittenAgreesExceptNaN) |
