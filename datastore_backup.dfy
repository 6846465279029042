/** lib/datastore-backup.js: the gcloud command lines for a Datastore
    export, an import (restore) and the operations listing, and the two
    operations that run them — a backup and a single-kind test restore. */
module DatastoreBackup {
  import opened Js
  import opened Strings
  import Shell

  /** The per-invocation `options` object: `account` (possibly undefined)
      and `debug`. */
  datatype Options = Options(account: Option<string>, debug: bool)

  /** The authentication part shared by the export and import commands:
      ` --project <project>`, then the account flag glued on with no space
      in between. */
  function AuthOptions(project: string, account: Option<string>): (auth: string)
    ensures " --project " + project <= auth
    ensures auth[|" --project " + project|..] == AccountFlag(account)
  {
    " --project " + project + AccountFlag(account)
  }

  /** `--account <account>` when the account is defined at all (the empty
      string included, as `_.isUndefined` decides), nothing otherwise. */
  function AccountFlag(account: Option<string>): (flag: string)
    ensures flag == "" <==> IsUndefined(account)
    ensures !IsUndefined(account) ==> "--account " <= flag && flag[10..] == account.value
  {
    if !IsUndefined(account) then "--account " + account.value else ""
  }

  /** `--kinds="<kinds joined by commas>"`, kinds in the order given; an
      empty list is not rejected and gives `--kinds=""`. */
  function KindsFlag(kinds: seq<string>): (flag: string)
    ensures |flag| >= 10 && flag[..9] == "--kinds=\"" && flag[|flag| - 1] == '"'
    ensures flag[9..|flag| - 1] == Join(kinds, ",")
  {
    "--kinds=\"" + Join(kinds, ",") + "\""
  }

  /** The export destination: the bucket as a Cloud Storage URL. */
  function BucketUrl(bucket: string): (url: string)
    ensures |url| == |bucket| + 5 && url[..5] == "gs://" && url[5..] == bucket
  {
    "gs://" + bucket
  }

  /** The export command built inside `backup`: the verb, the
      authentication part, the kinds flag, `--async` and the bucket URL. */
  function DatastoreExportCommand(kinds: seq<string>, project: string, bucket: string, options: Options)
    : (command: string)
    ensures "gcloud datastore export " + AuthOptions(project, options.account) + " " <= command
    ensures var tail := " --async " + BucketUrl(bucket);
            |command| >= |tail| && command[|command| - |tail|..] == tail
  {
    "gcloud datastore export " + AuthOptions(project, options.account) + " " + KindsFlag(kinds)
      + " --async " + BucketUrl(bucket)
  }

  /** The file name ending of an export's overall metadata object. */
  const MetadataSuffix: string := ".overall_export_metadata"

  /** The export's metadata object for `timestamp`: inside the bucket, in a
      folder named by the timestamp, a file named by the timestamp again. */
  function MetadataPath(bucket: string, timestamp: string): (path: string)
    ensures BucketUrl(bucket) + "/" + timestamp + "/" <= path
    ensures var file := timestamp + MetadataSuffix;
            |path| >= |file| && path[|path| - |file|..] == file
  {
    BucketUrl(bucket) + "/" + timestamp + "/" + timestamp + MetadataSuffix
  }

  /** `datastoreRestoreCommand`: the verb, the authentication part, the
      kinds flag, `--async` and the metadata object to import. */
  function DatastoreRestoreCommand(kinds: seq<string>, project: string, bucket: string,
                                   timestamp: string, options: Options): (command: string)
    ensures "gcloud datastore import " + AuthOptions(project, options.account) + " " <= command
    ensures var tail := " --async " + MetadataPath(bucket, timestamp);
            |command| >= |tail| && command[|command| - |tail|..] == tail
  {
    "gcloud datastore import " + AuthOptions(project, options.account) + " " + KindsFlag(kinds)
      + " --async " + MetadataPath(bucket, timestamp)
  }

  /** The text the status command inserts for a truthy account. A quote in
      the wrong place turned the intended concatenation into literal text,
      so it holds one unmatched `'` and never the account's value. */
  const StatusAccountText: string := " --account ' + options.account"

  /** `datastoreStatusCommand`: the verb, the account part, then
      `--project <project> list`. */
  function DatastoreStatusCommand(project: string, options: Options): (command: string)
    ensures "gcloud datastore operations " + StatusAccountOptions(options.account) <= command
    ensures var tail := " --project " + project + " list";
            |command| >= |tail| && command[|command| - |tail|..] == tail
  {
    "gcloud datastore operations " + StatusAccountOptions(options.account) + " --project " + project + " list"
  }

  /** The status command's account part: the fixed text when the account
      is truthy, whatever its value, nothing otherwise. */
  function StatusAccountOptions(account: Option<string>): (part: string)
    ensures part != "" <==> Truthy(account)
    ensures Truthy(account) ==> part == StatusAccountText
  {
    if Truthy(account) then StatusAccountText else ""
  }

  /** `backup`: in debug mode nothing is run and the result is empty;
      otherwise the export command is run once, and its output is returned
      or its failure passed on. */
  method Backup(shell: Shell.Executor, kinds: seq<string>, project: string, bucket: string, options: Options)
    returns (outcome: Shell.Outcome)
    modifies shell
    ensures options.debug ==> outcome == Shell.Ok("") && shell.log == old(shell.log)
    ensures !options.debug ==>
              var command := DatastoreExportCommand(kinds, project, bucket, options);
              shell.log == old(shell.log) + [command] && outcome == shell.Response(old(shell.log), command)
  {
    var command := DatastoreExportCommand(kinds, project, bucket, options);
    if options.debug {
      outcome := Shell.Ok("");
    } else {
      outcome := shell.Exec(command);
    }
  }

  /** `testRestoreFromBackup`: runs the import for the one kind given; if
      that succeeds, runs the status command; if both succeed, returns both
      outputs separated by a newline. A failure ends the sequence. With a
      truthy account the status line leaves a quote open, so the operation
      never succeeds. */
  method TestRestoreFromBackup(shell: Shell.Executor, kind: string, project: string, bucket: string,
                               timestamp: string, options: Options)
    returns (outcome: Shell.Outcome)
    modifies shell
    ensures var restore := DatastoreRestoreCommand([kind], project, bucket, timestamp, options);
            var status := DatastoreStatusCommand(project, options);
            var first := shell.Response(old(shell.log), restore);
            var second := shell.Response(old(shell.log) + [restore], status);
            (first.Failed? ==> shell.log == old(shell.log) + [restore] && outcome == Shell.Failed) &&
            (first.Ok? ==> shell.log == old(shell.log) + [restore, status] &&
                           outcome == if second.Ok? then Shell.Ok(first.output + "\n" + second.output)
                                      else Shell.Failed)
    ensures Truthy(options.account) && Shell.QuoteFree(project) ==> outcome == Shell.Failed
  {
    if Truthy(options.account) && Shell.QuoteFree(project) {
      StatusCommandUnterminated(project, options);
    }
    var restore := DatastoreRestoreCommand([kind], project, bucket, timestamp, options);
    var status := DatastoreStatusCommand(project, options);
    var first := shell.Exec(restore);
    if first.Failed? {
      outcome := Shell.Failed;
    } else {
      var second := shell.Exec(status);
      if second.Ok? {
        outcome := Shell.Ok(first.output + "\n" + second.output);
      } else {
        outcome := Shell.Failed;
      }
    }
  }

  /** With a truthy account the status line holds exactly one `'`, so the
      shell finds a quote that is never closed. */
  lemma StatusCommandUnterminated(project: string, options: Options)
    requires Truthy(options.account) && Shell.QuoteFree(project)
    ensures !Shell.QuotesClosed(DatastoreStatusCommand(project, options))
    ensures |Split(DatastoreStatusCommand(project, options), '\'')| == 2
  {
    var head := "gcloud datastore operations  --account ";
    var tail := " + options.account" + " --project " + project + " list";
    StatusQuoteShape(project, options);
    Shell.SingleQuoteOpen(head, tail);
    SplitTwo(head, '\'', tail);
  }

  /** Any two truthy accounts give the same status command: the account's
      value is never used. */
  lemma DatastoreStatusCommandIgnoresAccount(project: string, options1: Options, options2: Options)
    requires Truthy(options1.account) && Truthy(options2.account)
    ensures DatastoreStatusCommand(project, options1) == DatastoreStatusCommand(project, options2)
  {
  }

  /** Read at slashes, the metadata path is the scheme `gs:`, an empty
      field, the bucket, the timestamp folder and the file named by the
      timestamp: the timestamp occurs twice. */
  lemma MetadataPathFields(bucket: string, timestamp: string)
    requires '/' !in bucket && '/' !in timestamp
    ensures Split(MetadataPath(bucket, timestamp), '/')
         == ["gs:", "", bucket, timestamp, timestamp + MetadataSuffix]
  {
    var file := timestamp + MetadataSuffix;
    var path := BucketUrl(bucket) + "/" + timestamp + "/" + file;
    assert MetadataPath(bucket, timestamp) == path;
    SchemeLiteral();
    assert path == "gs:" + ['/'] + ("" + ['/'] + (bucket + ['/'] + (timestamp + ['/'] + file)));
    FiveFields("gs:", "", bucket, timestamp, file, '/');
  }

  /** Reads the kinds back out of a `--kinds="..."` flag. */
  function FlagKinds(flag: string): Option<seq<string>>
  {
    if |flag| >= 10 && flag[..9] == "--kinds=\"" && flag[|flag| - 1] == '"'
    then Some(Split(flag[9..|flag| - 1], ','))
    else None
  }

  /** The kinds flag lists the kinds in the order given: reading it back
      yields them again, as long as there is at least one kind and none
      contains a comma. */
  lemma KindsFlagRoundTrip(kinds: seq<string>)
    requires |kinds| >= 1 && NoneContains(kinds, ',')
    ensures FlagKinds(KindsFlag(kinds)) == Some(kinds)
  {
    SplitJoin(kinds, ',');
  }

  /** An empty kinds list is not rejected: it renders as `--kinds=""`,
      the same flag as a list holding one empty name. */
  lemma EmptyKindsFlag()
    ensures KindsFlag([]) == "--kinds=\"\""
    ensures KindsFlag([]) == KindsFlag([""])
    ensures FlagKinds(KindsFlag([])) == Some([""])
  {
  }

  /** With the account undefined, the verb is followed by two spaces and
      then `--project` and the project id, in both the export and the
      import command. */
  lemma UndefinedAccountDoubleSpace(kinds: seq<string>, project: string, bucket: string,
                                    timestamp: string, debug: bool)
    ensures "gcloud datastore export  --project " + project
            <= DatastoreExportCommand(kinds, project, bucket, Options(None, debug))
    ensures "gcloud datastore import  --project " + project
            <= DatastoreRestoreCommand(kinds, project, bucket, timestamp, Options(None, debug))
  {
    VerbLiterals();
    assert AuthOptions(project, None) == " --project " + project;
  }

  /** A project id read from gcloud's output keeps its trailing newline,
      and the shell ends a command at a newline. The export line then
      falls into at least two lines, and the first is the verb and
      `--project` with no kinds and no destination. When the bucket, the
      kinds and the account hold no newline (a bucket named from
      `--bucketPrefix`, say), there are exactly two lines;
      CommandWords.DefaultRunExportLines covers the default bucket, which
      holds the newline too. */
  lemma ProjectIdNewlineSplitsExport(kinds: seq<string>, project: string, bucket: string, options: Options)
    requires '\n' !in project
    ensures var lines := Split(DatastoreExportCommand(kinds, project + "\n", bucket, options), '\n');
            |lines| >= 2 && lines[0] == "gcloud datastore export  --project " + project
    ensures '\n' !in bucket && NoneContains(kinds, '\n') &&
            (options.account.Some? ==> '\n' !in options.account.value) ==>
              |Split(DatastoreExportCommand(kinds, project + "\n", bucket, options), '\n')| == 2
  {
    var head := "gcloud datastore export  --project " + project;
    var tail := AccountFlag(options.account) + " " + KindsFlag(kinds) + " --async " + BucketUrl(bucket);
    NewlineExportShape(kinds, project, bucket, options);
    SplitAppend(head, '\n', tail);
    SplitWithoutSeparator(head, '\n');
    if '\n' !in bucket && NoneContains(kinds, '\n') && (options.account.Some? ==> '\n' !in options.account.value) {
      NewlineFreeTail(kinds, bucket, options.account);
      SplitWithoutSeparator(tail, '\n');
    }
  }

  /** The restore command the project's unit test pins, character for
      character. */
  lemma DatastoreRestoreCommandExample()
    ensures DatastoreRestoreCommand(["EntityA", "EntityB"], "gae-project", "gae-project_backup",
                                    "2020-01-01T00:00:00Z", Options(None, false))
         == "gcloud datastore import  --project gae-project --kinds=\"EntityA,EntityB\" --async "
            + "gs://gae-project_backup/2020-01-01T00:00:00Z/2020-01-01T00:00:00Z.overall_export_metadata"
  {
    ExampleKinds();
    ExampleAuth();
    ExampleMetadataPath();
    ExampleHead();
  }

  // Solver helpers: each joins string literals or unfolds a definition on
  // the unit test's inputs, so that the lemmas above stay small.

  lemma SchemeLiteral()
    ensures "gs://" == "gs:" + ['/'] + ("" + ['/'])
    ensures "/" == ['/']
  {
  }

  lemma FiveFields(f1: string, f2: string, f3: string, f4: string, f5: string, c: char)
    requires c !in f1 && c !in f2 && c !in f3 && c !in f4 && c !in f5
    ensures Split(f1 + [c] + (f2 + [c] + (f3 + [c] + (f4 + [c] + f5))), c) == [f1, f2, f3, f4, f5]
  {
    SplitAppend(f1, c, f2 + [c] + (f3 + [c] + (f4 + [c] + f5)));
    SplitAppend(f2, c, f3 + [c] + (f4 + [c] + f5));
    SplitAppend(f3, c, f4 + [c] + f5);
    SplitAppend(f4, c, f5);
    SplitWithoutSeparator(f1, c);
    SplitWithoutSeparator(f2, c);
    SplitWithoutSeparator(f3, c);
    SplitWithoutSeparator(f4, c);
    SplitWithoutSeparator(f5, c);
  }

  lemma StatusQuoteShape(project: string, options: Options)
    requires Truthy(options.account) && Shell.QuoteFree(project)
    ensures var tail := " + options.account" + " --project " + project + " list";
            DatastoreStatusCommand(project, options)
              == "gcloud datastore operations  --account " + ['\''] + tail
            && Shell.QuoteFree("gcloud datastore operations  --account ") && Shell.QuoteFree(tail)
  {
    StatusQuoteLiterals();
  }

  lemma NewlineExportShape(kinds: seq<string>, project: string, bucket: string, options: Options)
    ensures DatastoreExportCommand(kinds, project + "\n", bucket, options)
         == "gcloud datastore export  --project " + project + ['\n']
            + (AccountFlag(options.account) + " " + KindsFlag(kinds) + " --async " + BucketUrl(bucket))
  {
    VerbLiterals();
    assert "\n" == ['\n'];
  }

  lemma NewlineFreeTail(kinds: seq<string>, bucket: string, account: Option<string>)
    requires '\n' !in bucket && NoneContains(kinds, '\n')
    requires account.Some? ==> '\n' !in account.value
    ensures '\n' !in AccountFlag(account) + " " + KindsFlag(kinds) + " --async " + BucketUrl(bucket)
  {
    NewlineLiterals();
    JoinAvoids(kinds, ",", '\n');
  }

  lemma StatusQuoteLiterals()
    ensures "gcloud datastore operations " + StatusAccountText
         == "gcloud datastore operations  --account " + ['\''] + " + options.account"
    ensures Shell.QuoteFree("gcloud datastore operations  --account ")
    ensures Shell.QuoteFree(" + options.account") && Shell.QuoteFree(" --project ") && Shell.QuoteFree(" list")
  {
    StatusTextLiteral();
    StatusHeadLiteral();
    StatusQuoteFreeLiterals();
  }

  lemma StatusTextLiteral()
    ensures StatusAccountText == " --account " + ['\''] + " + options.account"
  {
  }

  lemma StatusHeadLiteral()
    ensures "gcloud datastore operations " + " --account " == "gcloud datastore operations  --account "
  {
  }

  lemma StatusQuoteFreeLiterals()
    ensures Shell.QuoteFree("gcloud datastore operations  --account ")
    ensures Shell.QuoteFree(" + options.account") && Shell.QuoteFree(" --project ") && Shell.QuoteFree(" list")
  {
    QuoteFreeHead();
    QuoteFreeAccount();
    QuoteFreeProject();
    QuoteFreeList();
  }

  lemma QuoteFreeHead()
    ensures Shell.QuoteFree("gcloud datastore operations  --account ")
  {
  }

  lemma QuoteFreeAccount()
    ensures Shell.QuoteFree(" + options.account")
  {
  }

  lemma QuoteFreeProject()
    ensures Shell.QuoteFree(" --project ")
  {
  }

  lemma QuoteFreeList()
    ensures Shell.QuoteFree(" list")
  {
  }

  lemma VerbLiterals()
    ensures "gcloud datastore export " + " --project " == "gcloud datastore export  --project "
    ensures "gcloud datastore import " + " --project " == "gcloud datastore import  --project "
  {
  }

  lemma NewlineLiterals()
    ensures '\n' !in "--kinds=\"" && '\n' !in "\"" && '\n' !in " --async " && '\n' !in "gs://"
    ensures '\n' !in "--account " && '\n' !in " "
    ensures "\n" == ['\n']
  {
  }

  lemma ExampleKinds()
    ensures KindsFlag(["EntityA", "EntityB"]) == "--kinds=\"EntityA,EntityB\""
  {
    assert Join(["EntityA", "EntityB"], ",") == "EntityA,EntityB";
  }

  lemma ExampleAuth()
    ensures AuthOptions("gae-project", None) == " --project gae-project"
  {
  }

  lemma ExampleMetadataPath()
    ensures MetadataPath("gae-project_backup", "2020-01-01T00:00:00Z")
         == "gs://gae-project_backup/2020-01-01T00:00:00Z/2020-01-01T00:00:00Z.overall_export_metadata"
  {
    ExamplePathStep1();
    ExamplePathStep2();
    ExamplePathStep3();
    ExamplePathStep4();
  }

  lemma ExamplePathStep1()
    ensures "gs://" + "gae-project_backup" + "/" == "gs://gae-project_backup/"
  {
  }

  lemma ExamplePathStep2()
    ensures "gs://gae-project_backup/" + "2020-01-01T00:00:00Z" + "/"
         == "gs://gae-project_backup/2020-01-01T00:00:00Z/"
  {
  }

  lemma ExamplePathStep3()
    ensures "gs://gae-project_backup/2020-01-01T00:00:00Z/" + "2020-01-01T00:00:00Z"
         == "gs://gae-project_backup/2020-01-01T00:00:00Z/2020-01-01T00:00:00Z"
  {
  }

  lemma ExamplePathStep4()
    ensures "gs://gae-project_backup/2020-01-01T00:00:00Z/2020-01-01T00:00:00Z" + MetadataSuffix
         == "gs://gae-project_backup/2020-01-01T00:00:00Z/2020-01-01T00:00:00Z.overall_export_metadata"
  {
  }

  lemma ExampleHead()
    ensures "gcloud datastore import " + " --project gae-project" + " " + "--kinds=\"EntityA,EntityB\"" + " --async "
         == "gcloud datastore import  --project gae-project --kinds=\"EntityA,EntityB\" --async "
  {
    ExampleHeadStep1();
    ExampleHeadStep2();
  }

  lemma ExampleHeadStep1()
    ensures "gcloud datastore import " + " --project gae-project" + " "
         == "gcloud datastore import  --project gae-project "
  {
  }

  lemma ExampleHeadStep2()
    ensures "gcloud datastore import  --project gae-project " + "--kinds=\"EntityA,EntityB\"" + " --async "
         == "gcloud datastore import  --project gae-project --kinds=\"EntityA,EntityB\" --async "
  {
  }
}
