# odk2gn: scheduled sweeps and the priority-flora publish cycle

odk2gn links GeoNature monitoring modules to forms on an ODK Central server.
This project models two pieces of it in Dafny.

**The periodic sweeps** (`tasks.dfy`, module `Tasks`). Two Celery tasks are
registered at start-up:

- `synchronize_all_modules`, at minute 0 of every hour;
- `upgrade_all_forms`, daily at 12:00.

Each sweep does the following:

1. Walks the registered ODK forms in order.
2. Logs a start line for the form's module.
3. Invokes every command in a click command table whose name equals the form's
   `upgrade_command_name`. A `monitoring_module` form gets its module code,
   project id and form id; any other form gets only the project id and form id.
   The upgrade sweep also passes six `skip_*` flags, all false.
4. Logs an end line and pauses.

Nothing catches an exception raised by a callback, so the first one ends the
sweep.

The model works as follows:

- The sweep's observable behaviour is a trace of events: log lines, callbacks
  with their keyword arguments, and pauses.
- The trace a sweep makes when nothing raises is the function `Sweep`.
- Which callback raises is an oracle `raises(n)`: the n-th callback made
  (from 0) raises exactly when `raises(n)`.
- The loop `RunSweep` is proved to produce either the whole of `Sweep` or a
  prefix of it that ends at the first callback that raised.

**The priority-flora module** (`flore.dfy`, module `FlorePrioritaire`).

- `update_odk_form` runs one publish cycle against ODK Central:
  1. Builds the four CSV attachments, in the fixed order nomenclatures,
     taxa, observers, organizations.
  2. Asks for a draft. A status other than 200 fails an `assert`.
  3. Uploads every attachment. A 404 is logged as a warning, a 200 as an info
     line, any other status is ignored.
  4. Publishes. A status other than 200 fails an `assert`.
- `update_review_state` logs an error on a refused patch and does not raise.
- `get_submissions` asks for the submissions whose review state is not
  approved, hasIssues or rejected.
- The reference exports are modelled as pure functions:
  - the nomenclature query keeps only eight nomenclature types;
  - the three headers read back as their column lists.
- ODK Central is a class `Central`:
  - it records the requests sent to it;
  - it answers each one from a status oracle indexed by the request's position.
  - an attachment request carries the file's name and its table;
  - a form's submissions are an oracle, and a table request returns those
    that its filter admits, as the filter's clauses read back.
- The application log is a class `Logger` that records its entries.

## Model

| member | source | states |
|---|---|---|
| Tasks.RunSweep | odk2gn/tasks.py:44-83 | One sweep over the forms. If no callback raises, the trace is the whole ideal sweep. Otherwise the trace is a prefix of the ideal sweep, its last event is the first callback that raised, and no earlier callback raised. |
| Tasks.VisitForm | odk2gn/tasks.py:46-59 | One form's visit: start line, matching callbacks, end line, pause. It stops right after a callback that raises, and its trace is then a prefix of the form's block. |
| Tasks.SynchronizeAllModules | odk2gn/tasks.py:44-59 | The hourly sweep over the synchronize command table, with the outcome above. |
| Tasks.UpgradeAllForms | odk2gn/tasks.py:62-83 | The daily sweep over the upgrade command table, with the outcome above. |
| Tasks.CallbackArguments | odk2gn/tasks.py:50-81 | Defines the keyword arguments of a callback for each module type and each sweep; their keys and values are stated by CallbackArgumentsByModuleType. |
| Tasks.Callbacks | odk2gn/tasks.py:48-57 | Defines a form's callbacks: one per table entry whose name is the form's upgrade command name, in table order. |
| Tasks.FormEvents | odk2gn/tasks.py:46-59 | Defines a form's block: start line, its callbacks, end line, pause. |
| Tasks.Sweep | odk2gn/tasks.py:46 | Defines the ideal sweep: the forms' blocks one after another, in query order. |
| Tasks.ConcatMap | odk2gn/tasks.py:46 | Concatenates one block per item, in order; Sweep is defined through it. |
| Tasks.ConcatMapAppend | odk2gn/tasks.py:46 | The blocks of two runs of items are those of the first run, then those of the second. |
| Tasks.Matching | odk2gn/tasks.py:48-49 | The commands whose name equals the form's upgrade command name: all of them and nothing else, never more than the table holds. |
| Tasks.MatchingAppend | odk2gn/tasks.py:48-49 | Matching over a table split in two is the matches of the first part, then those of the second. |
| Tasks.MatchingNone | odk2gn/tasks.py:48-49 | A table without the name yields no match. |
| Tasks.NoMatchNoCallback | odk2gn/tasks.py:46-59 | A form whose upgrade command name is in no table entry produces only its start line, end line and pause. |
| Tasks.CallbacksAreMatches | odk2gn/tasks.py:48-57 | The i-th callback of a form is the i-th matching command, called with the form's arguments. |
| Tasks.CallbacksAreCallbacks | odk2gn/tasks.py:48-57 | Everything between a form's start and end lines is a callback. |
| Tasks.CallbacksAppend | odk2gn/tasks.py:48 | The callbacks over a split table are those of each part, in order. |
| Tasks.CallbacksStep | odk2gn/tasks.py:48-57 | Visiting one more table entry appends its callback exactly when its name matches. |
| Tasks.CallbacksPrefix | odk2gn/tasks.py:47-57 | The start line and the callbacks up to any table entry are a prefix of the form's block. |
| Tasks.CallbackArgumentsByModuleType | odk2gn/tasks.py:50-57 | A monitoring_module form's callback gets module_code, project_id and form_id. The upgrade sweep adds the six skip_* flags as false and passes exactly those nine keys; the synchronize sweep passes exactly those three keys. Any other form's callback gets exactly project_id and form_id. |
| Tasks.SweepStep | odk2gn/tasks.py:46 | The sweep over one more form appends that form's block. |
| Tasks.SweepAppend | odk2gn/tasks.py:46 | The sweep over two runs of forms is the sweep of the first, then that of the second. |
| Tasks.FormBlockInSweep | odk2gn/tasks.py:46-59 | Forms are visited in order and each once: form i's block sits between the sweep of the forms before it and the sweep of those after it. |
| Tasks.SweepAborts | odk2gn/tasks.py:46-57 | A callback raising while form i is visited ends the whole sweep with a prefix of the ideal sweep. |
| Tasks.SweepContinues | odk2gn/tasks.py:46-59 | A visit with no raise extends the trace by the form's whole block, and the callback count and the no-raise facts carry over. |
| Tasks.AbortedAfter | odk2gn/tasks.py:46-57 | A raise inside one block, after earlier blocks ran through, is a raised run of the whole trace. |
| Tasks.VisitOutcome | odk2gn/tasks.py:47-57 | A start line followed only by callbacks holds exactly that many callbacks. |
| Tasks.ClosingCounts | odk2gn/tasks.py:58-59 | The end line and the pause add no callback and exactly one pause. |
| Tasks.AllCallbacksCount | odk2gn/tasks.py:48-57 | A run of events that are all callbacks counts as many callbacks as it has events. |
| Tasks.CallbackCountAppend | odk2gn/tasks.py:46-57 | Callbacks in a concatenation add up. |
| Tasks.PauseCountAppend | odk2gn/tasks.py:59 | Pauses in a concatenation add up. |
| Tasks.CallbacksHaveNoPause | odk2gn/tasks.py:48-57 | Callbacks never pause. |
| Tasks.OnePausePerForm | odk2gn/tasks.py:59 | A completed sweep pauses exactly once per form. |
| Tasks.SweepCallbacksComeFromForms | odk2gn/tasks.py:46-57 | Every callback of a sweep is a table entry named like some visited form's upgrade command, called with that form's arguments. |
| Tasks.SweepIgnoresSynchronizeName | odk2gn/tasks.py:49 | Both sweeps key on upgrade_command_name: changing the forms' synchronize command names changes no sweep. |
| Tasks.CallbacksIgnoreSynchronizeName | odk2gn/tasks.py:67 | The same for the callbacks of a single form. |
| Tasks.Beat.constructor | odk2gn/tasks.py:26-27 | The beat schedule starts empty. |
| Tasks.Beat.AddPeriodicTask | odk2gn/tasks.py:28-37 | Registering a periodic task appends it to the beat schedule and changes nothing else. |
| Tasks.SetupPeriodicTasks | odk2gn/tasks.py:26-37 | Start-up registers the synchronize task, then the upgrade task, with their schedules and names. |
| Tasks.ScheduleTimes | odk2gn/tasks.py:28-37 | The synchronize task fires exactly at minute 0 of every hour; the upgrade task exactly at 12:00. |
| FlorePrioritaire.Join | odk2gn/flore_prioritaire/odk_flore_prioritaire.py:41 | Defines a header line: column names separated by commas, as a Python join does. |
| FlorePrioritaire.Split | odk2gn/flore_prioritaire/odk_flore_prioritaire.py:41 | Reading a header line yields at least one column. |
| FlorePrioritaire.SplitCommaFree | odk2gn/flore_prioritaire/odk_flore_prioritaire.py:41 | A comma-free prefix becomes part of the first column. |
| FlorePrioritaire.SplitAfterComma | odk2gn/flore_prioritaire/odk_flore_prioritaire.py:41 | A leading comma closes an empty first column. |
| FlorePrioritaire.SplitJoin | odk2gn/flore_prioritaire/odk_flore_prioritaire.py:41 | Comma-free column names joined by commas read back as the same columns. |
| FlorePrioritaire.HeaderColumns | odk2gn/flore_prioritaire/odk_flore_prioritaire.py:32-72 | The three headers read back as cd_nom/nom_complet/nom_vern, id_role/nom_complet and mnemonique/id_nomenclature/cd_nomenclature/label_default. |
| FlorePrioritaire.TaxonsHeaderColumns | odk2gn/flore_prioritaire/odk_flore_prioritaire.py:41 | The taxa header reads back as its three columns. |
| FlorePrioritaire.ObserversHeaderColumns | odk2gn/flore_prioritaire/odk_flore_prioritaire.py:48 | The observers header reads back as its two columns. |
| FlorePrioritaire.NomenclaturesHeaderColumns | odk2gn/flore_prioritaire/odk_flore_prioritaire.py:71 | The nomenclatures header reads back as its four columns. |
| FlorePrioritaire.Whitelisted | odk2gn/flore_prioritaire/odk_flore_prioritaire.py:60-69 | A row is kept if and only if its nomenclature type is one of the whitelisted mnemonics; no row is invented. |
| FlorePrioritaire.WhitelistedAppend | odk2gn/flore_prioritaire/odk_flore_prioritaire.py:69 | Filtering keeps the query's order. |
| FlorePrioritaire.WhitelistCodes | odk2gn/flore_prioritaire/odk_flore_prioritaire.py:60 | The whitelist is exactly the eight nomenclature types TYPE_PERTURBATION … COUNTING_TYPE. |
| FlorePrioritaire.GetTaxons | odk2gn/flore_prioritaire/odk_flore_prioritaire.py:32-42 | Defines the taxa export: the taxa header and one row per taxon. Its shape is stated by TaxonsExport. |
| FlorePrioritaire.GetObservers | odk2gn/flore_prioritaire/odk_flore_prioritaire.py:45-49 | Defines the observers export: the observers header and one row per observer. Its shape is stated by ObserversExport. |
| FlorePrioritaire.GetNomenclatures | odk2gn/flore_prioritaire/odk_flore_prioritaire.py:58-72 | Defines the nomenclatures export: the nomenclatures header and one row per whitelisted nomenclature. Its shape is stated by NomenclaturesExport. |
| FlorePrioritaire.TaxonsExport | odk2gn/flore_prioritaire/odk_flore_prioritaire.py:32-42 | The taxa export has the taxa header, one row per taxon in query order (cd_nom, nom_complet, nom_vern), and every row as wide as the header. |
| FlorePrioritaire.ObserversExport | odk2gn/flore_prioritaire/odk_flore_prioritaire.py:45-49 | The observers export has the observers header, one row per observer (id_role, nom_complet), and every row as wide as the header. |
| FlorePrioritaire.NomenclaturesExport | odk2gn/flore_prioritaire/odk_flore_prioritaire.py:58-72 | The nomenclatures export has the nomenclatures header and every row as wide as it. It has one row per whitelisted nomenclature, in query order, and its rows are exactly the whitelisted rows of the query, in both directions. |
| FlorePrioritaire.Attachments | odk2gn/flore_prioritaire/odk_flore_prioritaire.py:94-113 | Defines the files of a cycle: pf_nomenclatures, pf_taxons, pf_observers and pf_organizations, each holding its export. |
| FlorePrioritaire.WriteFiles | odk2gn/flore_prioritaire/odk_flore_prioritaire.py:94-113 | Returns exactly the four attachments of a cycle: names in the order pf_nomenclatures, pf_taxons, pf_observers, pf_organizations, each holding its export. |
| FlorePrioritaire.Clause | odk2gn/flore_prioritaire/odk_flore_prioritaire.py:177 | Defines one clause of the filter: the review state differs from the given state. |
| FlorePrioritaire.Exclusion | odk2gn/flore_prioritaire/odk_flore_prioritaire.py:177 | Defines the filter: one clause per excluded state, joined by "and". |
| FlorePrioritaire.UpToQuote | odk2gn/flore_prioritaire/odk_flore_prioritaire.py:177 | The text before the first quote: a quote-free prefix, followed by a quote unless it is the whole text. |
| FlorePrioritaire.ExcludedBy | odk2gn/flore_prioritaire/odk_flore_prioritaire.py:177 | Defines how the server reads a filter: the excluded states, clause by clause. |
| FlorePrioritaire.UpToQuoteOf | odk2gn/flore_prioritaire/odk_flore_prioritaire.py:177 | A quote-free state followed by a quote reads back as that state. |
| FlorePrioritaire.ClauseRead | odk2gn/flore_prioritaire/odk_flore_prioritaire.py:177 | A clause reads back as the prefix, its state, then a closing quote and what follows. |
| FlorePrioritaire.ReadLastClause | odk2gn/flore_prioritaire/odk_flore_prioritaire.py:177 | A lone clause reads back as its state. |
| FlorePrioritaire.ReadClause | odk2gn/flore_prioritaire/odk_flore_prioritaire.py:177 | A clause joined by "and" to more text reads back as its state, then what the text reads as. |
| FlorePrioritaire.ExcludedByExclusion | odk2gn/flore_prioritaire/odk_flore_prioritaire.py:177 | A filter built from quote-free states reads back as exactly those states, in order. |
| FlorePrioritaire.SubmissionsFilterExcludes | odk2gn/flore_prioritaire/odk_flore_prioritaire.py:177 | The filter sent excludes exactly approved, hasIssues and rejected, in that order. |
| FlorePrioritaire.Admits | odk2gn/flore_prioritaire/odk_flore_prioritaire.py:177 | Defines what a conjunction of "ne" clauses lets through: an unreviewed submission always, a reviewed one when its state is none of the excluded states. |
| FlorePrioritaire.ClosedStates | odk2gn/flore_prioritaire/odk_flore_prioritaire.py:177 | The filter turns away a submission exactly when its review state is approved, hasIssues or rejected; one not yet reviewed passes. |
| FlorePrioritaire.OpenSubmissions | odk2gn/flore_prioritaire/odk_flore_prioritaire.py:172-180 | A submission is returned if and only if it is in the form's table and the filter admits its review state; never more than the table holds. |
| FlorePrioritaire.OpenSubmissionsAppend | odk2gn/flore_prioritaire/odk_flore_prioritaire.py:172-180 | Filtering keeps table order: the open submissions of a split table are those of the first part, then those of the second. |
| FlorePrioritaire.Central.constructor | odk2gn/flore_prioritaire/odk_flore_prioritaire.py:28 | A fresh client has sent nothing. |
| FlorePrioritaire.Central.Send | odk2gn/flore_prioritaire/odk_flore_prioritaire.py:87-153 | A request is appended to the trace and answered with the status for its position. |
| FlorePrioritaire.Logger.constructor | odk2gn/flore_prioritaire/odk_flore_prioritaire.py:29 | A fresh log is empty. |
| FlorePrioritaire.Logger.Log | odk2gn/flore_prioritaire/odk_flore_prioritaire.py:121-157 | An entry is appended to the log. |
| FlorePrioritaire.Asserted200 | odk2gn/flore_prioritaire/odk_flore_prioritaire.py:91 | The step goes through if and only if the status is 200 (the same assertion closes publish). |
| FlorePrioritaire.ClassifyUpload | odk2gn/flore_prioritaire/odk_flore_prioritaire.py:121-129 | 404 means the file is not in the form, 200 means uploaded, and every other status is ignored; each case holds if and only if its condition does. |
| FlorePrioritaire.UploadLog | odk2gn/flore_prioritaire/odk_flore_prioritaire.py:121-129 | Defines an upload's log for each outcome: a warning naming the file, an info line naming it, or nothing. Stated by UploadLogByStatus. |
| FlorePrioritaire.UploadLogByStatus | odk2gn/flore_prioritaire/odk_flore_prioritaire.py:121-129 | A 404 logs exactly one warning naming the file, a 200 exactly one info line naming it, and anything else nothing. An upload never logs an error. |
| FlorePrioritaire.ReviewLog | odk2gn/flore_prioritaire/odk_flore_prioritaire.py:154-157 | A review-state patch logs nothing if and only if the status is 200, and otherwise exactly one entry, the error line. |
| FlorePrioritaire.Upload | odk2gn/flore_prioritaire/odk_flore_prioritaire.py:116-120 | Defines the request that attaches one file: its project, form, file name and table. |
| FlorePrioritaire.Uploads | odk2gn/flore_prioritaire/odk_flore_prioritaire.py:163-164 | Defines the uploads of a list of files: one attachment request per file, in order. |
| FlorePrioritaire.UploadsLog | odk2gn/flore_prioritaire/odk_flore_prioritaire.py:163-164 | Defines the log of a list of uploads: each file's upload log, in order, from the status each request is answered. |
| FlorePrioritaire.UploadsLogHasNoError | odk2gn/flore_prioritaire/odk_flore_prioritaire.py:163-164 | Whatever the server answers, the upload loop logs no error. |
| FlorePrioritaire.PublishCycle | odk2gn/flore_prioritaire/odk_flore_prioritaire.py:159-165 | A cycle sends the draft first, then for each file in order an attachment request carrying that file's name and table, then the publish. |
| FlorePrioritaire.CycleUploadsExports | odk2gn/flore_prioritaire/odk_flore_prioritaire.py:159-165 | The cycle of update_odk_form sends six requests: its second to fifth attach the nomenclatures, taxa, observers and organizations exports under their file names. |
| FlorePrioritaire.Draft | odk2gn/flore_prioritaire/odk_flore_prioritaire.py:87-91 | Sends one draft request; goes through if and only if it is answered 200. |
| FlorePrioritaire.UploadFile | odk2gn/flore_prioritaire/odk_flore_prioritaire.py:116-129 | Sends one attachment request carrying the file's name and table, and logs according to its status; never fails. |
| FlorePrioritaire.Publish | odk2gn/flore_prioritaire/odk_flore_prioritaire.py:132-138 | Sends one publish request; goes through if and only if it is answered 200. |
| FlorePrioritaire.UpdateReviewState | odk2gn/flore_prioritaire/odk_flore_prioritaire.py:140-157 | Sends one patch request; logs the error line unless it is answered 200; never fails. |
| FlorePrioritaire.GetSubmissions | odk2gn/flore_prioritaire/odk_flore_prioritaire.py:168-180 | Sends one table request carrying the review-state filter. It returns, in table order, the submissions that filter admits as the server reads it: exactly those whose review state is not approved, hasIssues or rejected. |
| FlorePrioritaire.UpdateOdkForm | odk2gn/flore_prioritaire/odk_flore_prioritaire.py:159-165 | If the draft is refused, nothing else is sent or logged and the cycle fails. Otherwise the requests are the whole publish cycle over the four attachments of write_files, the k-th upload carrying the k-th file's name and table. The log is the uploads' log, and the cycle succeeds if and only if the publish is answered 200. |
| FlorePrioritaire.UploadFiles | odk2gn/flore_prioritaire/odk_flore_prioritaire.py:163-164 | Uploads every file in order whatever each upload answers. It adds one attachment request per file, carrying its name and table, and that file's log entries. |
| FlorePrioritaire.CycleRequests | odk2gn/flore_prioritaire/odk_flore_prioritaire.py:162-165 | Draft, then the uploads, then publish: together the requests of a publish cycle. |
| FlorePrioritaire.UploadsGrow | odk2gn/flore_prioritaire/odk_flore_prioritaire.py:163-164 | One more file adds exactly its upload request after the earlier ones. |
| FlorePrioritaire.UploadsLogStep | odk2gn/flore_prioritaire/odk_flore_prioritaire.py:163-164 | One more upload adds exactly its log entries after the earlier ones. |

Three behaviours of the code that the model keeps as written:

- Both sweeps select commands by the form's `upgrade_command_name`, including
  the synchronize sweep (`odk2gn/tasks.py:49`).
- An exception from a callback is not contained per form: it ends the sweep.
- An attachment upload answered with neither 404 nor 200 is ignored, and the
  remaining uploads and the publish still happen
  (`odk_flore_prioritaire.py:127-129`).

## Left out

- Database queries (Taxref, user lists, nomenclatures): the exports take the
  query results as sequences of rows. The filtering by list id is not modelled.
- `write_files` calls `get_taxons()` and `get_observers()` without the list id
  those functions require. The model takes the datasets as parameters, so it
  does not model the resulting TypeError.
- The taxon's `cd_nom` cell is kept as text; the exports do not model the
  query's integer type.
- `get_organizations` is a placeholder. Its table is a parameter of
  `WriteFiles` and is passed through unchanged.
- `to_csv` (CSV serialisation and file handles) is left out, because it is
  byte-level file I/O. This includes two behaviours of the code: it hands the
  header string to `writerow`, which writes one column per character, and it
  returns the closed file object, and `upload_file` calls `.encode` on it
  (`odk_flore_prioritaire.py:119`). A file object has no such method, so as
  written the first upload raises AttributeError before anything is sent. The
  model takes each file's content to be its table, kept as a header and rows,
  and does not model that error.
- The header strings and the submissions filter are built from their column
  and state lists by `Join` and `Exclusion`, and the filter from its literal
  clause prefix, quote and `" and "` conjunction. They are not written out as
  single literals, and their equality with the code's literals is not stated.
- HTTP transport, base URL and path formatting, the UTF-8 encoding of upload
  bodies, and the token handshake and headers of `update_review_state`: a
  request is an abstract `Request` value answered by a status oracle.
- The `datetime.now()` version tag of `publish` is left out, because it is a
  clock reading.
- The table request's `expand="*"` option and the shape of the returned JSON
  are left out. The server's table is an oracle of submissions.
- `format_geoshape` and `update_priority_flora_db` are left out. The first is
  an empty placeholder. The second fetches the submissions and flattens each
  one with `flatdict`, and its code ends there (`odk_flore_prioritaire.py:187-191`);
  only its comment speaks of the database.
- `time.sleep(2)` is left out, because it is a clock; it appears only as a
  `Pause` event.
- Celery's task binding, the crontab parser and worker concurrency are left
  out. The schedule is a minute/hour pair whose firing times are proved.
- The click command objects are left out: a command is a key and a name, and
  a callback invocation is an event carrying its keyword arguments. What a
  callback does is left out, as it is code outside this model.
- `odk2gn/config_schema.py` (configuration validation) is not part of this
  model.
- The exact wording of the log lines (the sweeps' start and end lines and the
  French messages of the uploads and the review-state patch) is left out. A
  log entry is the constructor naming the line and what it names: the module
  code or the file name.
- The observer's `id_role` and the nomenclature's `id_nomenclature` are integer
  columns kept as text, like `cd_nom`.
- `GetSubmissions` discards the status of the table request, as the code
  does: a refused request is not modelled as raising, and the server's answer
  is taken from the submissions oracle.
