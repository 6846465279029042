# datastore-backup: a Dafny model of its command builders

This project models the core of `datastore-backup`. It is a small Node.js
command-line tool that backs up Google Cloud Datastore entity kinds to Cloud
Storage buckets. The tool builds `gcloud` command lines as strings and runs
them in a subprocess. Its core has two parts:

- `lib/cmd.js` turns command-line options into values:
  - it checks a frequency against the backup schedule (`validateFrequency`);
  - it picks the project id (`getProjectId`);
  - it names the backup bucket (`getBackupBucket`).
- `lib/datastore-backup.js` builds three `gcloud` commands and runs two of
  them:
  - the export command, inside `backup`;
  - the import (restore) command (`datastoreRestoreCommand`);
  - the operations-listing command (`datastoreStatusCommand`);
  - `backup` and `testRestoreFromBackup` run these commands.

The model follows the code as written, quirks included:

- Export and import put two spaces after the verb, because the
  authentication part starts with a space.
- `--account` is appended to the project id with no space between them.
  `isUndefined` decides whether it is appended, so the empty string counts
  as an account here.
- In the status command, a misplaced quote turns the account branch into
  the fixed text ` --account ' + options.account`. The account's value is
  never used. When the project id holds no quote (as no valid GCP project
  id does), the line holds one unmatched `'`, which `/bin/sh` rejects. So
  with a truthy account and such a project id, `testRestoreFromBackup`
  always throws.
  `index.js` never declares an `--account` option, so only callers of the
  library reach this branch.
- Without `--projectId`, the project id is gcloud's output with its
  trailing newline. The newline ends up in the bucket name and in every
  command, and the shell ends the export line at it. In the default run the
  bucket carries a second newline, so the export line falls into three lines.
- An empty list of kinds is not rejected. It renders as `--kinds=""`.
- `getBackupBucket` uses `||`, so an empty `--bucketPrefix` counts as
  absent.
- `validateFrequency` reads `backupSchedule[frequency]` as a JavaScript
  property. The schedule is parsed from JSON, so names inherited from
  `Object.prototype` count as defined. A frequency such as `constructor`
  gets no warning even though the schedule has no such key. The model
  includes this: `Js.PropertyDefined`.
- `execSync` throws when a command fails. `backup`, `getProjectId` and
  `testRestoreFromBackup` do not catch it, so a failure ends the sequence.
  The model returns `Shell.Failed` instead of throwing.

Files and modules:

- `js.dfy` (`Js`): an optional string (`undefined` or a string),
  `_.isUndefined`, truthiness, `||`, and property lookup on a JSON object.
- `strings.dfy` (`Strings`): `Array.prototype.join`. It also defines two
  readers used to state what a built string contains:
  - `Split` splits at one separator character;
  - `Tokens` splits a line into its space-separated words.
  The module proves that `Split` undoes `Join`.
- `shell.dfy` (`Shell`): the subprocess runner as a class `Executor`. It
  records every command it runs. A command whose quotes are left open
  fails, as `/bin/sh` reports a syntax error for it. Otherwise the outside world decides the
  outcome through a fixed function `reply`: the output, or a failure.
- `cmd.dfy` (`Cmd`): `lib/cmd.js`.
- `datastore_backup.dfy` (`DatastoreBackup`): `lib/datastore-backup.js`.
- `command_words.dfy` (`CommandWords`): for inputs that are plain text,
  whether each command line parses and the words the shell splits it
  into.

The code does not:

- build structured requests (it builds command strings);
- reject an empty list of kinds;
- resolve environments or deployments;
- return anything from `validateFrequency` (it only logs).

## Model

| member | source | states |
|---|---|---|
| `Js.IsUndefined` | lib/datastore-backup.js:19 | lodash `_.isUndefined`: only an absent value is undefined. Any present value, the empty string included, is defined. |
| `Js.Truthy` | lib/cmd.js:27 | JavaScript truthiness of an optional string: `undefined` and `""` are falsy. A defined value is truthy exactly when it is not empty. |
| `Js.PropertyDefined` | lib/cmd.js:14 | `obj[key]` is defined for every own key and every `Object.prototype` name. For any other key it is defined exactly when the key is present. |
| `Js.Or` | lib/cmd.js:42 | `a \|\| b` is `a` when `a` is truthy and `b` otherwise. |
| `Strings.Join` | lib/datastore-backup.js:23 | `join` of one part is that part, and of no parts is the empty string. |
| `Strings.SplitJoin` | lib/datastore-backup.js:55 | Splitting a join at its one-character separator gives the parts back, for at least one part and no part containing the separator. |
| `Cmd.ValidateFrequency` | lib/cmd.js:13-17 | Returns a warning exactly when `backupSchedule[frequency]` is undefined: the frequency is neither a schedule key nor an inherited `Object.prototype` name. The warning is `Frequency value (<f>) unknown!`. Otherwise there is nothing, so the caller always continues. |
| `Cmd.ValidateFrequencyWarnsIffUnscheduled` | lib/cmd.js:14 | For a frequency that is not an `Object.prototype` name, there is no warning if and only if the schedule has that key. |
| `Cmd.ValidateFrequencyMissesInherited` | lib/cmd.js:14 | No name inherited from `Object.prototype` (`constructor`, `toString`, `__proto__` and the rest) is ever reported, whether or not the schedule has it. |
| `Cmd.GetProjectId` | lib/cmd.js:25-31 | A truthy `--projectId` is returned unchanged and nothing is run. Otherwise `gcloud config get-value project 2> /dev/null` is run exactly once. Its output is the result, or its failure is passed on. |
| `Cmd.ConfigProjectCommandParses` | lib/cmd.js:28 | The fallback command has no quotes, so the shell always parses it. |
| `Cmd.GetBackupBucket` | lib/cmd.js:41-44 | The name ends with `_` + frequency. With a truthy prefix `p` it is `p_<frequency>`. Otherwise it is `<projectId>_backup_<frequency>`. |
| `Cmd.EmptyPrefixIsAbsent` | lib/cmd.js:42 | An empty `--bucketPrefix` gives the same name as no prefix. |
| `Cmd.PrefixOverridesProjectId` | lib/cmd.js:42 | With a truthy prefix, the name does not depend on the project id. |
| `Cmd.BackupBucketFields` | lib/cmd.js:41-44 | Split at `_`, the name gives the prefix's fields (or the project id's fields then `backup`) followed by the frequency. The only separator added is `_`, and a frequency without `_` comes back as the last field. |
| `Cmd.GetBackupBucketExamples` | test/cmd.js:16-22 | `project_backups_daily` and `some-project-id_backup_daily`, as the unit tests pin them. |
| `Shell.Executor.Exec` | lib/datastore-backup.js:29 | Appends the command to the record of commands run. A line whose quotes are left open fails. Otherwise the result is the outside world's outcome for it. |
| `DatastoreBackup.AuthOptions` | lib/datastore-backup.js:18-21 | The authentication part is ` --project <project>` followed directly by the account flag. |
| `DatastoreBackup.AccountFlag` | lib/datastore-backup.js:19-21 | The account flag is empty exactly when the account is undefined. Otherwise it is `--account ` followed by the account, even when the account is `""`. |
| `DatastoreBackup.KindsFlag` | lib/datastore-backup.js:23 | The flag is `--kinds="`, the comma-joined kinds, then `"`. |
| `DatastoreBackup.BucketUrl` | lib/datastore-backup.js:23 | The export destination is `gs://` followed by the bucket. |
| `DatastoreBackup.DatastoreExportCommand` | lib/datastore-backup.js:18-23 | The export line starts with `gcloud datastore export `, the authentication part and a space. It ends with ` --async gs://<bucket>`. |
| `DatastoreBackup.MetadataPath` | lib/datastore-backup.js:54 | The metadata object lies under `gs://<bucket>/<timestamp>/`, and its name ends with the timestamp and `.overall_export_metadata`. |
| `DatastoreBackup.DatastoreRestoreCommand` | lib/datastore-backup.js:49-56 | The import line starts with `gcloud datastore import `, the authentication part and a space. It ends with ` --async ` and the metadata path. |
| `DatastoreBackup.DatastoreStatusCommand` | lib/datastore-backup.js:58-65 | The status line starts with `gcloud datastore operations ` and the account part. It ends with ` --project <project> list`. |
| `DatastoreBackup.StatusAccountOptions` | lib/datastore-backup.js:59-62 | The account part is non-empty exactly when the account is truthy, and then it is the fixed text ` --account ' + options.account`. |
| `DatastoreBackup.Backup` | lib/datastore-backup.js:16-31 | In debug mode it returns `""` and runs nothing. Otherwise it runs exactly the export command once and returns its outcome. |
| `DatastoreBackup.TestRestoreFromBackup` | lib/datastore-backup.js:43-47 | Runs the import command for the singleton list `[kind]`. If that fails, nothing else runs and the operation fails. Otherwise it runs the status command and returns the first output, a newline, then the second output, or fails if the status command fails. With a truthy account and a quote-free project id it always fails. |
| `DatastoreBackup.StatusCommandUnterminated` | lib/datastore-backup.js:61 | With a truthy account and a quote-free project id, the status line holds exactly one `'`, so the shell finds a quote that is never closed. |
| `DatastoreBackup.DatastoreStatusCommandIgnoresAccount` | lib/datastore-backup.js:58-65 | Any two truthy accounts give the same status command. |
| `DatastoreBackup.MetadataPathFields` | lib/datastore-backup.js:54 | Split at `/`, the metadata path is `gs:`, an empty field, the bucket, the timestamp, and the timestamp + `.overall_export_metadata`. |
| `DatastoreBackup.KindsFlagRoundTrip` | lib/datastore-backup.js:55 | Reading the kinds back from `--kinds="..."` gives the kinds in input order, for a non-empty list with no comma in any kind. |
| `DatastoreBackup.EmptyKindsFlag` | lib/datastore-backup.js:23 | An empty kinds list renders as `--kinds=""`, the same flag as the list `[""]`. |
| `DatastoreBackup.UndefinedAccountDoubleSpace` | lib/datastore-backup.js:49-55 | With the account undefined, both export and import commands begin with the verb, two spaces, then `--project <project>`. |
| `DatastoreBackup.ProjectIdNewlineSplitsExport` | lib/datastore-backup.js:18-23 | When the project id ends with the newline gcloud prints, the export line splits at newlines into at least two lines, for every bucket, kinds and account. The first is `gcloud datastore export  --project <project>`, with no kinds and no destination. When the bucket, kinds and account hold no newline, there are exactly two lines. |
| `CommandWords.DefaultRunExportLines` | lib/datastore-backup.js:23 | In the default run (no `--projectId`, no `--bucketPrefix`), the bucket built by `getBackupBucket` from the newline-ended project id carries the newline too. The export line then splits into exactly three lines: `gcloud datastore export  --project <project>`, the rest up to the project id inside the bucket URL, and `_backup_<frequency>`. |
| `DatastoreBackup.DatastoreRestoreCommandExample` | test/datastore-backup.js:11-12 | The restore command for `EntityA,EntityB`, `gae-project`, `gae-project_backup` and `2020-01-01T00:00:00Z` is exactly the string in the unit test. |
| `CommandWords.ExportCommandParses` | lib/datastore-backup.js:23 | With plain-text inputs, the export line's one quoted stretch (the kinds) is closed, so the shell parses it. |
| `CommandWords.RestoreCommandParses` | lib/datastore-backup.js:55 | With plain-text inputs, the import line parses. |
| `CommandWords.StatusCommandParses` | lib/datastore-backup.js:58-65 | With a falsy account and a plain-text project id, the status line parses. |
| `CommandWords.DatastoreExportCommandWords` | lib/datastore-backup.js:18-23 | With plain-text inputs, the export's words are `gcloud datastore export --project`, then the authentication words, then `--kinds="<kinds>"`, `--async` and `gs://<bucket>`. The authentication words are the project id (none when it is empty) when the account is undefined. Otherwise they are `<project>--account` and then the account (none when it is empty). |
| `CommandWords.DatastoreRestoreCommandWords` | lib/datastore-backup.js:49-56 | With plain-text inputs, the import's words are the same, with `import` as the verb and the metadata path as the last word. As for the export, there is no project word when the project id is empty and no account word when the account is empty. |
| `CommandWords.DatastoreStatusCommandWords` | lib/datastore-backup.js:58-65 | With a falsy account and a plain-text project id, the status command's words are `gcloud datastore operations --project`, the project id and `list`. |

## Left out

- `index.js` is not part of this model. It holds the commander CLI wiring, JSON loading of the schedule, coloured console output, and the `list` command's `gsutil ls` call and output rewriting. It also refers to `invocation` and `BackupSchedule`, which are never defined, and treats `backup`'s string result as a promise.
- What gcloud, gsutil and the cloud services do with the commands is left out. The `Executor`'s `reply` function stands for all of it, including whether a command that the shell parses exits with an error.
- Shell.Executor.Exec: the only shell syntax error modelled is a quote left open. Other syntax errors, and a command that a newline splits into several lines, reach `reply`, which decides the outcome.
- Shell.Executor.Exec: the quote scan knows only `'`, `"` and `\`. It does not know `#` comments, `$(...)` or backquote substitutions (inside which quoting starts afresh) or here-documents. On such lines its verdict can differ from `sh`'s either way. It fails `echo ok #'open` and `echo "$(echo "'")"`, which `sh` runs. It passes the same substitution line with one more `'` at its end, which `sh` rejects. A kind such as `$(echo "'")` carries this into the export line. The lemmas over plain-text inputs are not affected, since plain text holds no `#`, `$`, backquote or `<`.
- Shell.Executor.Exec: `sh` reads a multi-line command line by line and runs each line before reading the next. When a later line leaves a quote open, the earlier lines have already run. The model only gives the overall `Failed` outcome, not the effects of those earlier lines.
- Exceptions are modelled as a `Failed` outcome that the caller passes on. The error message and the exit status are not modelled.
- `console.log` and colouring are left out. `ValidateFrequency` returns its warning line instead of printing it. The command that `backup` prints in debug mode is not modelled.
- Subprocess output is a Node `Buffer`. The model treats it as already decoded text, which is what `toString('utf8')` and string concatenation produce.
- Option values are modelled as strings or `undefined` only. `debug` is a boolean. Other JavaScript values, such as a boolean `account`, are not modelled.
- CommandWords.DatastoreExportCommandWords: states the words only for plain-text inputs (no blank, newline, quote or other shell-special character). It gives the words before quote removal, so the kinds word keeps the double quotes that the shell strips before gcloud sees it.
- CommandWords.DatastoreRestoreCommandWords: the same limits as for the export. The words are stated only for plain-text inputs, and the kinds word keeps its double quotes.
- CommandWords.DatastoreStatusCommandWords: states the words only for a falsy account and a plain-text project id. With a truthy account the line does not parse (`DatastoreBackup.StatusCommandUnterminated`), so gcloud receives no words.
- The tool itself does none of the following, so neither does the model: rejecting empty kinds, escaping kinds or accounts for the shell, resolving environments to several deployments, or unifying separators in bucket names.
