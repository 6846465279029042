/** lib/cmd.js: the helpers that turn the command-line options into the
    values the backup commands need — checking the frequency against the
    backup schedule, finding the project id and naming the backup bucket. */
module Cmd {
  import opened Js
  import opened Strings
  import Shell

  /** The global command-line options these helpers read (`program`):
      `--projectId` and `--bucketPrefix`, each possibly absent. */
  datatype Program = Program(projectId: Option<string>, bucketPrefix: Option<string>)

  /** The backup schedule file: frequency name to the entity kinds backed
      up at that frequency. */
  type BackupSchedule = map<string, seq<string>>

  /** `validateFrequency`: the warning it logs, if any. It never throws and
      returns nothing, so its caller always goes on; the only effect is
      this line on the console. The lookup `backupSchedule[frequency]` is
      JavaScript property access, so a name inherited from
      `Object.prototype` counts as defined. */
  function ValidateFrequency(schedule: BackupSchedule, frequency: string): (warning: Option<string>)
    ensures warning.Some? <==> !PropertyDefined(schedule, frequency)
    ensures warning.Some? ==> warning.value == "Frequency value (" + frequency + ") unknown!"
  {
    if !PropertyDefined(schedule, frequency) then
      Some("Frequency value (" + frequency + ") unknown!")
    else
      None
  }

  /** For every frequency that is not an `Object.prototype` name, the
      warning is issued exactly when the schedule has no entry for it. */
  lemma ValidateFrequencyWarnsIffUnscheduled(schedule: BackupSchedule, frequency: string)
    requires frequency !in ObjectPrototypeNames
    ensures ValidateFrequency(schedule, frequency).None? <==> frequency in schedule
  {
  }

  /** Inherited names are never reported, scheduled or not. */
  lemma ValidateFrequencyMissesInherited(schedule: BackupSchedule, frequency: string)
    requires frequency in ObjectPrototypeNames
    ensures ValidateFrequency(schedule, frequency) == None
  {
  }

  /** The fallback that asks gcloud for the active configuration's project. */
  const ConfigProjectCommand: string := "gcloud config get-value project 2> /dev/null"

  /** `getProjectId`: the `--projectId` option when it is truthy, and then
      nothing is run; otherwise the gcloud fallback is run once, and its
      output (including any trailing newline it prints) is the result, or
      its failure is passed on. */
  method GetProjectId(shell: Shell.Executor, program: Program) returns (projectId: Shell.Outcome)
    modifies shell
    ensures Truthy(program.projectId) ==>
              projectId == Shell.Ok(program.projectId.value) && shell.log == old(shell.log)
    ensures !Truthy(program.projectId) ==>
              shell.log == old(shell.log) + [ConfigProjectCommand] &&
              projectId == shell.reply(old(shell.log), ConfigProjectCommand)
  {
    if Truthy(program.projectId) {
      projectId := Shell.Ok(program.projectId.value);
    } else {
      ConfigProjectCommandParses();
      projectId := shell.Exec(ConfigProjectCommand);
    }
  }

  /** The fallback command has no quotes, so the shell always parses it. */
  lemma ConfigProjectCommandParses()
    ensures Shell.QuotesClosed(ConfigProjectCommand)
  {
    ConfigProjectCommandQuoteFree();
    Shell.ScanQuoteFree(Shell.Unquoted, ConfigProjectCommand);
  }

  lemma ConfigProjectCommandQuoteFree()
    ensures Shell.QuoteFree(ConfigProjectCommand)
  {
    ConfigProjectCommandHalves();
    QuoteFreeConfigVerb();
    QuoteFreeConfigKey();
  }

  lemma ConfigProjectCommandHalves()
    ensures ConfigProjectCommand == "gcloud config get-value " + "project 2> /dev/null"
  {
  }

  lemma QuoteFreeConfigVerb()
    ensures Shell.QuoteFree("gcloud config get-value ")
  {
  }

  lemma QuoteFreeConfigKey()
    ensures Shell.QuoteFree("project 2> /dev/null")
  {
  }

  /** `getBackupBucket`: the prefix is `--bucketPrefix` when truthy, else
      `<projectId>_backup`; the name is the prefix, `_`, the frequency. */
  function GetBackupBucket(program: Program, projectId: string, frequency: string): (bucket: string)
    ensures |bucket| > |frequency| && bucket[|bucket| - |frequency| - 1..] == "_" + frequency
    ensures Truthy(program.bucketPrefix) ==> bucket == program.bucketPrefix.value + "_" + frequency
    ensures !Truthy(program.bucketPrefix) ==> bucket == projectId + "_backup_" + frequency
  {
    var prefix := Or(program.bucketPrefix, projectId + "_backup");
    prefix + "_" + frequency
  }

  /** An empty `--bucketPrefix` is falsy, so it is the same as none. */
  lemma EmptyPrefixIsAbsent(projectIdOption: Option<string>, projectId: string, frequency: string)
    ensures GetBackupBucket(Program(projectIdOption, Some("")), projectId, frequency)
         == GetBackupBucket(Program(projectIdOption, None), projectId, frequency)
  {
  }

  /** With a truthy `--bucketPrefix` the project id plays no part. */
  lemma PrefixOverridesProjectId(program: Program, projectId1: string, projectId2: string, frequency: string)
    requires Truthy(program.bucketPrefix)
    ensures GetBackupBucket(program, projectId1, frequency) == GetBackupBucket(program, projectId2, frequency)
  {
  }

  /** Read back at underscores, the bucket name is the fields of the prefix
      (the explicit one, or the project id's followed by `backup`) and then
      the frequency: the only separator added is `_`, and a frequency
      without `_` is recovered as the last field. */
  lemma BackupBucketFields(program: Program, projectId: string, frequency: string)
    requires '_' !in frequency
    ensures Split(GetBackupBucket(program, projectId, frequency), '_') ==
            (if Truthy(program.bucketPrefix) then Split(program.bucketPrefix.value, '_')
             else Split(projectId, '_') + ["backup"]) + [frequency]
  {
    if Truthy(program.bucketPrefix) {
      ExplicitBucketFields(program.bucketPrefix.value, frequency);
    } else {
      DefaultBucketFields(projectId, frequency);
    }
  }

  lemma ExplicitBucketFields(prefix: string, frequency: string)
    requires '_' !in frequency
    ensures Split(prefix + "_" + frequency, '_') == Split(prefix, '_') + [frequency]
  {
    UnderscoreLiterals();
    SplitAppend(prefix, '_', frequency);
    SplitWithoutSeparator(frequency, '_');
  }

  lemma DefaultBucketFields(projectId: string, frequency: string)
    requires '_' !in frequency
    ensures Split(projectId + "_backup_" + frequency, '_') == Split(projectId, '_') + ["backup", frequency]
  {
    UnderscoreLiterals();
    assert projectId + "_backup_" + frequency == projectId + ['_'] + ("backup" + ['_'] + frequency);
    SplitAppend(projectId, '_', "backup" + ['_'] + frequency);
    SplitAppend("backup", '_', frequency);
    SplitWithoutSeparator("backup", '_');
    SplitWithoutSeparator(frequency, '_');
  }

  lemma UnderscoreLiterals()
    ensures "_" == ['_']
    ensures "_backup_" == ['_'] + "backup" + ['_']
  {
  }

  /** The two forms the project's unit tests pin down. */
  lemma GetBackupBucketExamples()
    ensures GetBackupBucket(Program(None, Some("project_backups")), "some-project-id", "daily")
         == "project_backups_daily"
    ensures GetBackupBucket(Program(None, None), "some-project-id", "daily")
         == "some-project-id_backup_daily"
  {
  }
}
