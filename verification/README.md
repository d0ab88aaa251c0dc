# Solar plant data backend: record lifecycle, keys and cascades in Dafny

This project models the behaviour of the Django data model behind a
power-plant operations backend. The backend stores plant groups, plant
details, GIS weather, loggers and their daily generation, utility plant ids
and their monthly revenue and expense, daily production, curtailment events,
and mail notifications. The model is an in-memory store with one table per
entity. Each table maps a primary key to a row. All operations are pure
functions of the store. A save also takes the current clock reading, and the
admin save takes the acting user as well. A delete takes the rows and users
to delete.

- `wrappers.dfy`, module `Wrappers`: `Option` for nullable columns, `Result`
  for writes, `Outcome` for the validator.
- `lifecycle.dfy`, module `Lifecycle`: the audited-record contract of
  `BaseModel`. It covers the status flag, `created_at`, `updated_at`, the
  owner, and the two-write `save`. The first write refreshes the stamps. The
  second, targeted write sets the stored status to `created_at == updated_at`
  for an instance that already had a key. This write is reproduced as written:
  with a strictly later clock, the status is `False` after every edit. The
  recompute is keyed to whether the instance had a primary key, not to
  whether a row existed: an instance given a key with no row behind it is
  inserted at that key, and its status is then recomputed.
- `models.dfy`, module `Models`: the eleven entities and the foreign key each
  one holds. It also gives each entity's unique constraint as a key with
  PostgreSQL NULL semantics (a NULL column never matches), the size limits of
  its columns (`max_length`, `max_digits`, 32-bit integers, 64-bit keys), and
  `CurtailmentEvent.clean`.
- `database.dfy`, module `Database`: the store, `save` on any entity, and the
  store invariant `Valid`. `Valid` means each table holds only its own entity,
  keys are unique, the id sequences are ahead of the stored keys, and no
  foreign key dangles, and every stored value fits its column. A write with a
  value its column cannot hold, or that breaks a unique constraint or a
  foreign key, is rejected and changes nothing.
- `cascade.dfy`, module `Cascade`: deletion along the `on_delete=CASCADE`
  foreign keys, including the owning user's foreign key.
- `admin.dfy`, module `Admin`: `BaseModelAdmin.save_model`. It makes the
  authenticated acting user the owner, then runs the model save.

The model follows the code:

- An insert keeps the status the instance carries, which defaults to `True`.
  The model does not force it to `True`.
- The owner is overwritten only by the admin save path, and only when the
  request's user is authenticated. Otherwise the instance keeps its owner,
  which defaults to user 1.
- A reference to a missing row is rejected the same way as a duplicate key.
  In PostgreSQL both are integrity errors. The model calls this one
  `ForeignKeyViolation`.

## Model

| member | source | states |
|---|---|---|
| `Lifecycle.Save` | project_backend/core/models.py:24-35 | a write that duplicates another row's unique key, or an insert at a primary key that is already stored, fails and leaves the table unchanged; otherwise every other row is unchanged, the row stores the instance's fields and owner, `updated_at` is the current reading, `created_at` is kept (or set on insert), and the status is the caller's on insert but `created_at == updated_at` when the instance already had a key |
| `Lifecycle.RecomputeStatus` | project_backend/core/models.py:28-35 | the targeted update changes only the status column of the one row, to whether its stored stamps are equal; every other column and row stays as the first write left it |
| `Lifecycle.SaveKeepsTableValid` | project_backend/core/models.py:24-26 | a successful save keeps the table free of duplicate keys and keeps the id sequence ahead of every stored key |
| `Lifecycle.NewInstanceStoredActive` | project_backend/core/models.py:16-19 | inserting a freshly constructed instance stores a new key, status `True`, owner user 1 and equal creation and update stamps |
| `Lifecycle.EditWithLaterClockClearsStatus` | project_backend/core/models.py:28-35 | saving an existing row at a clock later than its creation keeps `created_at` and leaves status `False`, whatever status the caller set |
| `Lifecycle.EditsNeverRestoreStatus` | project_backend/core/models.py:17-35 | over any series of edits at later clocks, `created_at` never changes, and the row has status `True` only if no edit went through |
| `Models.ParentIsOneLevelUp` | project_backend/core/models.py:68-189 | every cascading foreign key points exactly one level up the group → plant/logger/utility id → measurement/billing tree; only groups and mails have none |
| `Models.KeyCollisionIsSameUniqueKey` | project_backend/core/models.py:40-235 | for two rows of one table, the database's key comparison holds exactly when the declared unique columns are equal field by field and each nullable one is present in both |
| `Models.Clean` | project_backend/core/models.py:204-209 | the validator passes exactly when a time is missing or the start is strictly before the end (equal times fail); a failure is keyed to `end_time` with the fixed message |
| `Database.SaveObject` | project_backend/core/models.py:15-235 | a save fails exactly when a value does not fit its column (text over `max_length`, a decimal over `max_digits`, an integer over 32 bits, a primary, parent or owner key of `2^63` or more), the unique key or the primary key is taken, or the owner or parent row is missing; a misfit is reported as a data error, a taken key otherwise as a unique violation; on success the users and all other tables are unchanged and the entity's table is changed as `BaseModel.save` promises |
| `Database.SaveKeepsValid` | project_backend/core/models.py:40-235 | every successful save keeps the store valid: each table holds its own entity, keys are unique, ids are issued, no owner or parent reference dangles, and every stored value fits its column |
| `Database.StoredKeysDistinct` | project_backend/core/models.py:40-235 | when every table holds its own entity and keys are unique, no two rows of a table share `group_name`, `(system_name, system_id, group)`, `(power_plant, date)`, `logger_name`, `(logger_name, date)`, `plant_id`, `(plant_id, contract_id, rd)`, `(plant_id, rd)`, `(plant_id, production_date)`, `(plant_id, date)` or `(mail_date_time, body)`, with NULLs never equal |
| `Database.SaveRejectsExactlyDuplicates` | project_backend/core/models.py:40-235 | a save goes through exactly when its values, keys included, fit their columns, its owner and parent exist, it does not insert at a stored primary key, and no other row of the table has the same unique key field by field |
| `Database.SaveIgnoresCurtailmentTimes` | project_backend/core/models.py:204-209 | whether a curtailment is stored does not depend on its start and end times: `save` does not run `clean` |
| `Database.SaveStoresWhatCleanRejects` | project_backend/core/models.py:204-209 | a curtailment that `clean` rejects is stored exactly when the same row without times, which `clean` accepts, would be stored |
| `Cascade.Delete` | project_backend/core/models.py:19-189 | deletion removes every root and the deleted users; surviving rows are unchanged and the id sequences are not rewound |
| `Cascade.DeleteRow` | project_backend/core/models.py:68-189 | deleting a row of any entity removes it and leaves the users as they were |
| `Cascade.DeleteUser` | project_backend/core/models.py:19 | deleting a user removes the user and leaves no row owned by that user |
| `Cascade.ClosureIsReaches` | project_backend/core/models.py:19-189 | the level-by-level cascade collects exactly the rows that are a root, are owned by a deleted user, or reference a collected row |
| `Cascade.DeleteRemovesExactlyDependents` | project_backend/core/models.py:19-189 | a row survives a delete exactly when it was stored and does not transitively reference a deleted row or user |
| `Cascade.DeleteKeepsValid` | project_backend/core/models.py:19-189 | after any delete the store is still valid; in particular no foreign key of a remaining row, the owner included, points to a missing row |
| `Admin.AssignOwner` | project_backend/core/admin.py:12-15 | the override sets the owner to the authenticated request user, leaves an anonymous request's object unchanged, and never changes the key, status or fields |
| `Admin.SaveModel` | project_backend/core/admin.py:12-16 | the admin save fails exactly when, and with the same error as, the model save of the re-owned object: a value does not fit its column, the key is taken, or the re-owned object's owner or parent is missing, so an acting user who is not stored makes it fail; on success the users and other tables are unchanged and the entity's table is changed as `BaseModel.save` promises for the object with the authenticated user (or its own owner) as owner |
| `Admin.AnonymousAdminSaveIsModelSave` | project_backend/core/admin.py:14-16 | with no authenticated user the admin save is exactly the model save |
| `Admin.AdminEditClearsStatus` | project_backend/core/admin.py:12-16 | an admin edit at a later clock keeps `created_at`, leaves status `False` and gives the row to the acting user even if another user owned it |
| `Admin.AdminSaveKeepsValid` | project_backend/core/admin.py:16 | an admin save keeps the store valid |

## Left out

- Deployment settings, URL routing and the user views (token issuance, the current-user endpoints, logout). They are configuration or thin framework wrappers. The user table is modelled only as the set of stored user ids.
- Admin `list_display`, `search_fields` and `list_filter`, and the `__str__` methods. They are presentation only.
- Rounding of decimals to `decimal_places`. A decimal column holds its value already scaled to the column's places, as an integer with no arithmetic on it; only the `max_digits` bound is modelled.
- Column values PostgreSQL rejects for reasons other than their length or size: text containing a NUL character, and times of day past the end of the day. Times of day are unbounded naturals; Python's `time` type keeps them within a day.
- `Database.SaveObject` does not model PostgreSQL's size limit on a b-tree index entry (about 2,700 bytes after compression). The mail key `(mail_date_time, body)` is two text columns with no length limit, so a mail whose date-time and body are long and compress poorly cannot be stored, while the model stores it. Whether an entry fits depends on PostgreSQL's compression, which the model does not express.
- `Database.SaveRejectsExactlyDuplicates` inherits the same gap: a mail whose key is too large for the index fails in PostgreSQL even when no row has the same key.
- `Admin.SaveModel` inherits the same gap through the model save.
- The id sequence running past `2^63`. An explicit key must fit `bigint`, but the key the model hands out on insert is not bounded.
- The user model. Its file is not part of this model. Its key is taken to be `bigint`, like every other key under the project's default auto field.
- PostgreSQL's `varchar(n)` truncates, rather than rejects, a longer value whose excess characters are all spaces. The model rejects every value longer than `n`.
- Wall-clock time and time zones. Each save takes one abstract clock reading. Django reads the clock separately for `updated_at` and `created_at` on an insert, so its two stamps can differ by microseconds. The model stamps both with the same reading.
- `Lifecycle.Save` takes `created_at` of an existing row from the stored row. Django's update writes the instance's own `created_at` instead. For an instance that was loaded and not changed, the two agree. They differ when the caller assigns `created_at` before saving. They also differ for an instance built with the key of a stored row but never loaded: Django writes `created_at` as NULL, and the recompute then stores status `False`. The model keeps the stored stamp and stores `True` when the current reading equals it.
- `Lifecycle.Save` with a key that has no row behind it: Django falls back to an insert that reads the clock once for each stamp, so the recompute almost always stores `False`. The model uses one reading and stores `True`.
- `Lifecycle.Save` checks only the unique constraint and the primary key, because it is generic in the entity. The column limits and the foreign keys are checked by `Database.SaveObject`, which knows each entity's columns.
- `Lifecycle.Save` is `save()` with no arguments, which is how the admin's `save_model` calls it. The arguments `save` passes on (`force_insert`, `force_update`, `using`, `update_fields`) are not modelled. With `update_fields` only the listed columns are written; with `force_insert` a stored key fails.
- The stale in-memory `status` after the targeted update. The model is about the stored row only.
- The primary-key sequence. The model hands out a key above every stored key and moves past keys inserted explicitly. PostgreSQL's sequence does not move past explicit keys, and a failed insert still uses up a sequence value.
- Construction defaults that need outside state. `LoggerPowerGen.date` defaults to today, and the plant, logger and utility-id `group` defaults to 1. The model takes these fields as the caller gives them.
- Choice-list validation (`resource`, and `impact_category` whose default `"-"` is not a choice), `full_clean`, and the form-level unique checks. These are framework machinery (Django's `ModelForm`/`full_clean`), not code of this project. The `unique` and `unique_together` constraints, column lengths and numeric sizes they duplicate are modelled as the database enforces them. NOT NULL is modelled by type: a required column has no `None`.
- Transactions spanning several saves. Each save, or each admin request, is its own transaction, so a foreign key is checked when that save or request commits; the stored result is the same.
- Concurrent writers racing on a unique key. That is storage-engine behaviour.
- Other tables that reference users, such as authentication tokens. They are not part of this model, so a user delete cascades only through the eleven entities.
