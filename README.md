# Redshift-to-BigQuery migrator: a verified model of its core

The migrator moves a configured list of tables from a Redshift cluster to a
BigQuery dataset in three phases, run in order by `migrate`:

1. **unload**: one batch of `UNLOAD` statements is submitted, one statement per table;
2. **schemas**: each table is described and its `ColumnList` is saved to `tables/<table>/schema.json`;
3. **upload**: each table is handled in turn:
   - its S3 folder is listed and every object is downloaded to `tables/<table>/objects/<last key segment>`;
   - every downloaded file is loaded into BigQuery with a schema translated from the saved column list;
   - the local `tables/<table>` folder is then removed.

This project models that core in Dafny and proves what it guarantees.

- **Column-type translation** (`SchemaTranslation`):
  - the eight-entry type table;
  - the field built for one column (`FieldFor`);
  - the translation of a whole column list (`TableSchema`), and the loop of `get_table_schema` proved equal to it (`GetTableSchema`).
- **Local staging** (`Staging`):
  - the `split("/")[-1]` name of an object key;
  - the local paths of object files and schema files;
  - the read-1024-bytes-until-empty copy loop (`CopyStream`).
- **The three phases** (`Migration`):
  - each phase is a specification function over abstract collaborator outcomes (`Services`);
  - the local file system is a value (`Disk`: schema files and object files keyed by path);
  - every call to a collaborator and every folder removal is recorded in a trace of events;
  - the program's own loops (`GetTableSchemas`, `GetTableFolderObjects`, `UploadObject`, `UploadTable`, `UploadTables`, `Migrate`) are methods proved equal to those functions.
  - In the table below, each of these method rows also stands for the function it is proved equal to: `SchemaFetch`, `FolderObjects` (with `FetchObjects`), `ObjectUpload`, `TableUpload`, `UploadRun` and `MigrationRun`. The lemmas after them state what those functions guarantee. `LastSegment` likewise has its row under `LastSegmentSuffix` and `LastSegmentOfJoin`.
- **Properties of a run** (`MigrationProperties`): lemmas on the specification functions, covering:
  - ordering;
  - early stops;
  - what is downloaded and loaded;
  - cleanup;
  - the fate of a table listed twice.

The collaborators are parameters, not code.

- Redshift's `batch_execute_statement` is modelled as `unloadOk`.
- `describe_table` is `describe`: the `ColumnList`, or `None` when the call raises.
- `list_objects_v2(...).get("Contents")` is `contents`: the listed keys, or `None` when the response has no `Contents`.
- `get_object` is `body`: the object's bytes, or `None` when the call raises.
- A BigQuery load is `load`, with three outcomes:
  - the job completes;
  - the job completes with an `error_result`, which the code only notices by not printing "Done", and the run goes on;
  - the call raises, and the run stops.

### How a run can end

Every exception that ends the Python program is a `RunError` value in the model:

- the unload raises: `UnloadFailed`;
- a describe call raises: `DescribeFailed`;
- the listing has no `Contents`, so `len(None)` raises: `NoContents`;
- `get_object` raises: `FetchFailed`;
- a key's last segment is empty (the key ends in `/`), `.` or `..`, so the local path names a directory and `open` fails: `IsADirectory`;
- `schema.json` is missing: `SchemaFileMissing`;
- a column cannot be translated (`KeyError`): `SchemaUntranslatable`;
- the staged file is missing: `ObjectFileMissing`;
- the load raises: `LoadFailed`.

An empty object list makes `upload_tables` return at once. The later tables are skipped, nothing is removed, and the run still ends normally.

### Branch type in the model

The source tests the precision/scale branch against `"numeric"`. That is a value the type table never produces, so the branch is dead (see Findings).

- `FieldFor` takes the tag that its second branch compares with as a parameter.
- `AsWrittenBranch` (`"numeric"`) models the code as written.
- `IntendedBranch` (`"float64"`) models the evident intention: `numeric` is the only tag whose columns carry precision and scale, and it maps to `float64`.
- The upload phase (`ObjectUpload`, `UploadObject`) uses the translation as written, so every property of a run holds of the program as it stands.
- The corrected translation is stated and proved on its own (`IntendedKeepsPrecision`, and `GetTableSchema` for either branch type).

## Model

All source paths are in `src/redshift_to_bigquery_migrator/migrator.py`.

| member | source | states |
|---|---|---|
| SchemaTranslation.DestinationType | src/redshift_to_bigquery_migrator/migrator.py:133-142 | A tag translates exactly when it is one of the eight known tags (otherwise the lookup's KeyError). int2 and int4 go to integer. varchar and bpchar go to string. date, bool and timestamp go to themselves. numeric goes to float64. |
| SchemaTranslation.FieldFor | src/redshift_to_bigquery_migrator/migrator.py:153-174 | A column fails to translate exactly when: its tag is unknown; it is a string column without `length`; or it is of the branch type and lacks `scale` or `precision`. A translated field keeps the column's name and gets the table's type. Its mode is NULLABLE exactly when the column is nullable. It has a max_length exactly when it is a string, and then equal to `length`. It has precision and scale exactly when it is of the branch type, and then copied from the column. |
| SchemaTranslation.AsWrittenBranchUnreachable | src/redshift_to_bigquery_migrator/migrator.py:161 | No tag translates to "numeric", so the `elif` branch can never be taken. |
| SchemaTranslation.AsWrittenDropsPrecision | src/redshift_to_bigquery_migrator/migrator.py:161-168 | As written, no translated field carries precision or scale. A NOT NULL numeric(10,2) column becomes a plain REQUIRED float64 field. |
| SchemaTranslation.IntendedKeepsPrecision | src/redshift_to_bigquery_migrator/migrator.py:161-168 | With the branch testing float64, a numeric column translates exactly when it has both precision and scale. The field is then float64 with the column's mode, precision and scale. numeric(10,2) keeps 10 and 2. |
| SchemaTranslation.BranchesAgreeOffNumeric | src/redshift_to_bigquery_migrator/migrator.py:153-174 | The written and the corrected translation agree on every column whose tag is not numeric. |
| SchemaTranslation.TableSchema | src/redshift_to_bigquery_migrator/migrator.py:149-179 | A column list translates exactly when every column does. Then both result lists have its length. Index by index, the field is that column's translation and the name is that column's name. |
| SchemaTranslation.TableSchemaFirstFailure | src/redshift_to_bigquery_migrator/migrator.py:152-153 | A failed translation reports the error of the first column that does not translate. Every earlier column translates. |
| SchemaTranslation.TableSchemaFailsOnPrefix | src/redshift_to_bigquery_migrator/migrator.py:152-177 | Once a prefix of the column list fails, the whole list fails with the same error (the loop's exception aborts it). |
| SchemaTranslation.GetTableSchema | src/redshift_to_bigquery_migrator/migrator.py:145-179 | The loop that appends one field and one name per column returns exactly TableSchema of the column list. This includes the abort at the first untranslatable column. |
| Staging.LastSegmentSuffix | src/redshift_to_bigquery_migrator/migrator.py:114 | The name taken from a key contains no '/'. It is a suffix of the key, preceded by '/' unless it is the whole key. |
| Staging.LastSegmentOfJoin | src/redshift_to_bigquery_migrator/migrator.py:114 | A key made of any prefix, '/', and a '/'-free name yields exactly that name. |
| Staging.ObjectPathInFolder | src/redshift_to_bigquery_migrator/migrator.py:115 | Every object's local path lies inside `tables/<table>`. |
| Staging.SchemaPathInFolder | src/redshift_to_bigquery_migrator/migrator.py:95 | Every schema file lies inside `tables/<table>`, the folder the upload phase later removes. |
| Staging.SchemaPathInjective | src/redshift_to_bigquery_migrator/migrator.py:95 | Different tables have different schema.json paths. |
| Staging.ReadChunk | src/redshift_to_bigquery_migrator/migrator.py:121 | A read returns the next n bytes of the body. It returns fewer only at the end, and nothing once the body is exhausted. |
| Staging.CopyStream | src/redshift_to_bigquery_migrator/migrator.py:119-125 | The chunked copy leaves the file holding exactly the object's body. The writes concatenate to it, each write is a non-empty chunk of at most 1024 bytes, and all but the last are full. |
| Migration.RemoveFolder | src/redshift_to_bigquery_migrator/migrator.py:225 | Removing `tables/<t>` removes exactly the schema files and object files under that folder. Every other file keeps its content. |
| Migration.GetTableSchemas | src/redshift_to_bigquery_migrator/migrator.py:80-100 | The describe-and-save loop computes exactly the schema phase. |
| Migration.GetTableFolderObjects | src/redshift_to_bigquery_migrator/migrator.py:103-130 | The list-then-download loop, with the chunked copy for each body, computes exactly the folder listing: its paths, staged files, calls and failure. A key whose last segment is empty, `.` or `..` fails with IsADirectory, since its local path names a directory. |
| Migration.UploadObject | src/redshift_to_bigquery_migrator/migrator.py:182-199 | Uploading one object computes exactly what one object upload does: re-read schema.json and translate it as written (the dead `numeric` branch included), check the staged file, submit the load, stop only on a load that raises. |
| Migration.UploadTable | src/redshift_to_bigquery_migrator/migrator.py:206-226 | One iteration of upload_tables' loop computes exactly one table step. |
| Migration.UploadTables | src/redshift_to_bigquery_migrator/migrator.py:202-227 | The loop over the configured tables computes exactly the upload phase. |
| Migration.Migrate | src/redshift_to_bigquery_migrator/migrator.py:230-234 | migrate computes exactly the whole run: unload, then schemas, then upload. |
| MigrationProperties.SchemaFetchStopsAtFirstFailure | src/redshift_to_bigquery_migrator/migrator.py:84-99 | Tables are described in configured order, one call each, up to the first call that raises. The phase fails exactly when some describe call raises, and then with that table. No object file is touched. |
| MigrationProperties.SchemaFetchStoresSchemas | src/redshift_to_bigquery_migrator/migrator.py:95-98 | When every describe succeeds, each table's schema.json holds its ColumnList. Every other schema file is untouched: it was there before exactly when it is there after, with the same content. |
| MigrationProperties.FetchObjectsTrace | src/redshift_to_bigquery_migrator/migrator.py:112-119 | Downloads are attempted in listing order, one get_object per key, up to the first key that cannot be staged. |
| MigrationProperties.FetchObjectsPaths | src/redshift_to_bigquery_migrator/migrator.py:112-116 | The download succeeds exactly when every key can be staged. It then returns one path per key, `tables/<t>/objects/<last segment>`, in listing order. |
| MigrationProperties.FetchObjectsFailure | src/redshift_to_bigquery_migrator/migrator.py:119-120 | A failed download names the first key that cannot be staged. The failure is FetchFailed when its get_object raised, else IsADirectory for a key whose last segment is empty, `.` or `..`. |
| MigrationProperties.FetchObjectsPresent | src/redshift_to_bigquery_migrator/migrator.py:115-124 | After a successful download, every listed key's path holds a file. |
| MigrationProperties.FetchObjectsContentAt | src/redshift_to_bigquery_migrator/migrator.py:119-125 | The file at a key's path holds that key's body, unless a later key has the same last segment. |
| MigrationProperties.FetchObjectsContents | src/redshift_to_bigquery_migrator/migrator.py:119-125 | Every key that no later key overwrites has its body in its staged file. |
| MigrationProperties.FetchObjectsFrame | src/redshift_to_bigquery_migrator/migrator.py:112-125 | Files at paths that no listed key maps to are unchanged. |
| MigrationProperties.UploadObjectsShape | src/redshift_to_bigquery_migrator/migrator.py:217-222 | A table's uploads succeed exactly when: its schema translates as written; every staged file is present; and no load raises. A load with an error result does not stop them. The objects are loaded in order, each once, with the table's translated fields and the staged bytes. |
| MigrationProperties.TableUploadEvents | src/redshift_to_bigquery_migrator/migrator.py:206-225 | A table step starts with its listing. After that it has only downloads, loads and the folder removal of that same table. |
| MigrationProperties.TableUploadListing | src/redshift_to_bigquery_migrator/migrator.py:110-212 | A listing without Contents fails before any download. An empty listing ends the run as completed, with no upload and no cleanup. These are the only ways a table step completes the run. |
| MigrationProperties.TableUploadCompletes | src/redshift_to_bigquery_migrator/migrator.py:206-225 | A table the run moves past had a non-empty listing. Its trace has four parts: the listing; one download per key in order; one load per key in the same order, with the fields translated as written (so no precision or scale) and the staged bytes; and last the folder removal. So every object is uploaded before the folder goes. |
| MigrationProperties.TableUploadCleansUp | src/redshift_to_bigquery_migrator/migrator.py:225 | After such a table no file is left under `tables/<t>`, schema.json included. Files outside that folder are as they were. |
| MigrationProperties.TableStepListed | src/redshift_to_bigquery_migrator/migrator.py:206-210 | One table step lists exactly its own table's folder, once. |
| MigrationProperties.TableStepEnd | src/redshift_to_bigquery_migrator/migrator.py:211-225 | A step completes the run exactly on an empty listing. A step the run moves past ends by removing the table's folder. |
| MigrationProperties.UploadRunListedCount | src/redshift_to_bigquery_migrator/migrator.py:206-212 | The upload phase lists at most one folder per configured table, and at least one when a table is configured. |
| MigrationProperties.UploadRunInOrder | src/redshift_to_bigquery_migrator/migrator.py:206 | The listed tables are a prefix of the configured tables: they are handled in configured order. |
| MigrationProperties.UploadRunEventsListed | src/redshift_to_bigquery_migrator/migrator.py:206-226 | Every event of the upload phase belongs to that phase and concerns a table whose folder was listed. |
| MigrationProperties.UploadRunStopsEarly | src/redshift_to_bigquery_migrator/migrator.py:210-212 | Configured tables are left unlisted only after a failure, or after an empty listing of the last table listed. |
| MigrationProperties.UploadRunEndsAtEmptyListing | src/redshift_to_bigquery_migrator/migrator.py:211-212 | An empty listing is the last table listed and the last event. The run then completes. |
| MigrationProperties.UploadRunRemovesFolders | src/redshift_to_bigquery_migrator/migrator.py:225 | Every table before the last one listed has had its folder removed. |
| MigrationProperties.UploadRunCompletesAll | src/redshift_to_bigquery_migrator/migrator.py:206-227 | A run that completes without ending on an empty listing has listed every configured table and removed the last one's folder too. |
| MigrationProperties.TableUploadHaltKeepsStaging | src/redshift_to_bigquery_migrator/migrator.py:210-225 | A table step that ends the run records no folder removal and removes nothing. Every schema file stays, and the objects directory is what the listing and downloads left, so a failed table's files stay staged. |
| MigrationProperties.TableUploadWithoutSchema | src/redshift_to_bigquery_migrator/migrator.py:146-147 | A table with a non-empty, stageable listing but no schema.json fails with SchemaFileMissing on its first upload. Its objects are downloaded and nothing is loaded. |
| MigrationProperties.TableRepeatedFails | src/redshift_to_bigquery_migrator/migrator.py:225 | A table the run moved past fails with SchemaFileMissing when it comes up again right after. Its objects are downloaded again, but the folder removal took schema.json with it, so nothing is loaded. |
| MigrationProperties.UploadRunFailsInLastListed | src/redshift_to_bigquery_migrator/migrator.py:206-225 | A failed upload phase fails in the last table it listed. That table's step halts with the phase's outcome and local files, and its events are the last of the phase: nothing runs after it and nothing of it is removed. |
| MigrationProperties.UploadRunWithoutSchema | src/redshift_to_bigquery_migrator/migrator.py:206-222 | Once a configured table with a non-empty, stageable listing has no schema.json, the phase does not get past it. If it reaches that table, it fails there with SchemaFileMissing, and its last events are that table's listing and downloads. |
| MigrationProperties.UploadRunRepeatedTableFails | src/redshift_to_bigquery_migrator/migrator.py:206-225 | A table configured at two positions i < j, with any tables between: if the phase gets past position i, it does not get past position j. If it reaches j, it fails there with SchemaFileMissing. |
| MigrationProperties.MigrationPhases | src/redshift_to_bigquery_migrator/migrator.py:230-233 | The run's trace is the unload request, then the schema phase's describe calls, then the upload phase's events. A failed unload stops the run with nothing else done. |
| MigrationProperties.MigrationPhasesInOrder | src/redshift_to_bigquery_migrator/migrator.py:230-233 | The unload request comes first and only first. Event phases never go backwards. A failed unload is the whole run. |
| MigrationProperties.MigrationUploadNeedsSchemas | src/redshift_to_bigquery_migrator/migrator.py:230-233 | No download or load happens unless the unload went through and every table was described, in configured order. |
| MigrationProperties.DescribeFailureBlocksUpload | src/redshift_to_bigquery_migrator/migrator.py:88-94 | A describe call that raises ends the run with DescribeFailed for that table. The earlier tables were described, no later table is, and no object is downloaded. |
| MigrationProperties.MigrationUploadsWithFetchedSchemas | src/redshift_to_bigquery_migrator/migrator.py:230-233 | With the unload done and every table described, the upload phase starts from the schema files just written, each table's holding its ColumnList. The run ends as that phase does. |

## Left out

- Configuration and environment (lines 15-49): the table list, bucket, dataset and credentials are parameters; `tables` is the list `ts`.
- Building the UNLOAD statement text (`get_sql_file` and `get_unload_query`, lines 52-64): the unload is one abstract outcome of the whole batch.
- The unload runs asynchronously on the cluster. The model does not relate the objects listed later to the unload; `contents` is independent of it.
- The network clients (Redshift Data API, S3, BigQuery) are abstract outcomes, not code: whether a call raises, what it returns. Pagination of `list_objects_v2` (at most 1000 keys per response) is not modelled: `contents` is whatever the one call returns.
- JSON serialisation of `schema.json` and `json.load`: the schema file holds the parsed column list itself.
- `pandas.read_csv` and the dataframe: a staged file's bytes stand for its rows. A failure to parse the CSV is folded into the load that raises.
- Migration.ObjectUpload: does not separate a CSV parse failure from a load call that raises; both are LoadRaised, because the run stops the same way.
- Console output and the `step_idx` counters: they do not affect the run.
- `os.makedirs`: creating directories always succeeds in the model.
- Staging.CopyStream: assumes each `read(1024)` returns a full chunk until the end of the body. A short read before the end is not modelled, because the body is a value rather than a network stream.
- A table name containing '/' can make one table's schema path coincide with another table's object path. The model keeps schema files and object files in separate maps and does not capture that collision.
- Migration.RemoveFolder: paths are strings without normalisation, so table names that are empty, `.`, `..` or contain '/' are not resolved as the file system would resolve them. For the empty name, `rmtree("tables/")` removes every table's files, but the model removes only the paths that begin with `tables//`, which are that table's own schema and object paths.
- Services: the collaborators are functions of their arguments, so a repeated call answers exactly as the first did. A bucket, a cluster or a load whose answers change between two calls is not modelled; `UploadRunRepeatedTableFails` relies on the second listing of a table matching the first.
- SchemaTranslation.Column: `nullable` is a boolean. The source tests the truthiness of the JSON value, and `name`, `typeName` and `nullable` are taken to be present in every column entry.
- The BigQuery table and dataset names, the load job's dispositions and source format: they are constants of one load call.

## Findings

| source | as written | input that shows it | evidently intended | confidence | as-written member | corrected member |
|---|---|---|---|---|---|---|
| src/redshift_to_bigquery_migrator/migrator.py:161 | The precision/scale branch tests the translated type against "numeric". The type table never produces that value, since numeric translates to float64, so the branch is dead and no field ever gets precision or scale. | The column `Column("amount", "numeric", false, None, Some(10), Some(2))` translates to a REQUIRED float64 field with neither precision nor scale. | A numeric column's translated float64 field carries its precision 10 and scale 2. A numeric column lacking either attribute is refused. | not executed | SchemaTranslation.AsWrittenDropsPrecision | SchemaTranslation.IntendedKeepsPrecision |
