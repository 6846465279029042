/** How `/bin/sh` reads the three command lines of lib/datastore-backup.js
    when every input is plain text (no blank, newline, quote or other
    character the shell treats specially): whether the line parses, and
    the words it is split into. These lemmas show the quirks of the
    concatenations in the shell's terms: the double space after the verb
    is harmless, `--account` fuses with the project id, and the status
    command parses only when the account is falsy. */
module CommandWords {
  import opened Js
  import opened Strings
  import opened Shell
  import opened DatastoreBackup
  import Cmd

  /** The words the authentication part of an export or import contributes
      after `--project`: the project id alone when the account is undefined;
      otherwise the project id with `--account` stuck to it, then the
      account (which vanishes when it is the empty string). */
  function AuthWords(project: string, account: Option<string>): seq<string>
  {
    if IsUndefined(account) then Word(project) else [project + "--account"] + Word(account.value)
  }

  /** The project id and the account (when defined) are plain text. */
  predicate PlainAuth(project: string, account: Option<string>)
  {
    Plain(project) && (account.Some? ==> Plain(account.value))
  }

  /** Every kind is plain text. */
  predicate PlainKinds(kinds: seq<string>)
  {
    forall i :: 0 <= i < |kinds| ==> Plain(kinds[i])
  }

  /** With plain inputs the export line parses: its one quoted stretch,
      the kinds, is closed. */
  lemma ExportCommandParses(kinds: seq<string>, project: string, bucket: string, options: Options)
    requires PlainAuth(project, options.account) && PlainKinds(kinds) && Plain(bucket)
    ensures QuotesClosed(DatastoreExportCommand(kinds, project, bucket, options))
  {
    var before := "gcloud datastore export " + AuthOptions(project, options.account) + " " + "--kinds=";
    var after := " --async " + BucketUrl(bucket);
    ExportQuoting(kinds, project, bucket, options);
    AuthQuoteFree(project, options.account);
    KindsQuoteFree(kinds);
    PlainFacts(bucket);
    QuoteFreeLiterals();
    DoubleQuotedClosed(before, Join(kinds, ","), after);
  }

  /** With plain inputs the import line parses. */
  lemma RestoreCommandParses(kinds: seq<string>, project: string, bucket: string,
                             timestamp: string, options: Options)
    requires PlainAuth(project, options.account) && PlainKinds(kinds) && Plain(bucket) && Plain(timestamp)
    ensures QuotesClosed(DatastoreRestoreCommand(kinds, project, bucket, timestamp, options))
  {
    var before := "gcloud datastore import " + AuthOptions(project, options.account) + " " + "--kinds=";
    var after := " --async " + MetadataPath(bucket, timestamp);
    RestoreQuoting(kinds, project, bucket, timestamp, options);
    AuthQuoteFree(project, options.account);
    KindsQuoteFree(kinds);
    PlainFacts(bucket);
    PlainFacts(timestamp);
    QuoteFreeLiterals();
    DoubleQuotedClosed(before, Join(kinds, ","), after);
  }

  /** With a falsy account and a plain project id the status line parses
      (with a truthy account it never does: StatusCommandUnterminated). */
  lemma StatusCommandParses(project: string, options: Options)
    requires !Truthy(options.account) && Plain(project)
    ensures QuotesClosed(DatastoreStatusCommand(project, options))
  {
    PlainFacts(project);
    QuoteFreeLiterals();
    ScanQuoteFree(Unquoted, DatastoreStatusCommand(project, options));
  }

  /** The words of an export: `gcloud datastore export --project`, the
      authentication words, the kinds flag, `--async`, the bucket URL. */
  lemma DatastoreExportCommandWords(kinds: seq<string>, project: string, bucket: string, options: Options)
    requires PlainAuth(project, options.account) && PlainKinds(kinds) && Plain(bucket)
    ensures Tokens(DatastoreExportCommand(kinds, project, bucket, options))
         == ["gcloud", "datastore", "export", "--project"] + AuthWords(project, options.account)
            + [KindsFlag(kinds), "--async", BucketUrl(bucket)]
  {
    var auth := AuthOptions(project, options.account);
    var rest := KindsFlag(kinds) + " " + ("--async" + " " + BucketUrl(bucket));
    PlainFacts(bucket);
    ExportCommandShape(kinds, project, bucket, options);
    GcloudDatastoreWords("export", auth + " " + rest);
    AuthOptionsWords(project, options.account, rest);
    AsyncTargetWords(kinds, BucketUrl(bucket));
  }

  /** The words of an import: as for an export, with the metadata object of
      the chosen export as the last word. */
  lemma DatastoreRestoreCommandWords(kinds: seq<string>, project: string, bucket: string,
                                     timestamp: string, options: Options)
    requires PlainAuth(project, options.account) && PlainKinds(kinds) && Plain(bucket) && Plain(timestamp)
    ensures Tokens(DatastoreRestoreCommand(kinds, project, bucket, timestamp, options))
         == ["gcloud", "datastore", "import", "--project"] + AuthWords(project, options.account)
            + [KindsFlag(kinds), "--async", MetadataPath(bucket, timestamp)]
  {
    var auth := AuthOptions(project, options.account);
    var path := MetadataPath(bucket, timestamp);
    var rest := KindsFlag(kinds) + " " + ("--async" + " " + path);
    PlainFacts(bucket);
    PlainFacts(timestamp);
    RestoreCommandShape(kinds, project, bucket, timestamp, options);
    MetadataPathSpaceFree(bucket, timestamp);
    GcloudDatastoreWords("import", auth + " " + rest);
    AuthOptionsWords(project, options.account, rest);
    AsyncTargetWords(kinds, path);
  }

  /** The words of the operations listing with a falsy account:
      `gcloud datastore operations --project`, the project id, `list`. */
  lemma DatastoreStatusCommandWords(project: string, options: Options)
    requires !Truthy(options.account) && Plain(project)
    ensures Tokens(DatastoreStatusCommand(project, options))
         == ["gcloud", "datastore", "operations", "--project"] + Word(project) + ["list"]
  {
    var tail := "--project" + " " + (project + " " + "list");
    PlainFacts(project);
    StatusCommandShape(project, options);
    GcloudDatastoreWords("operations", " " + tail);
    TokensLeadingSpace(tail);
    ProjectListWords(project);
  }

  /** The tool's default run, with neither `--projectId` nor
      `--bucketPrefix`: the project id is gcloud's output with its trailing
      newline, and the default bucket name carries that newline too. The
      export line then falls into exactly three lines: the verb and
      `--project`, the rest up to the project id inside the bucket URL,
      and `_backup_<frequency>`. */
  lemma DefaultRunExportLines(kinds: seq<string>, project: string, frequency: string, options: Options)
    requires '\n' !in project && '\n' !in frequency && NoneContains(kinds, '\n')
    requires options.account.Some? ==> '\n' !in options.account.value
    ensures var bucket := Cmd.GetBackupBucket(Cmd.Program(None, None), project + "\n", frequency);
            var lines := Split(DatastoreExportCommand(kinds, project + "\n", bucket, options), '\n');
            |lines| == 3 && lines[0] == "gcloud datastore export  --project " + project
            && lines[2] == "_backup_" + frequency
  {
    var bucket := Cmd.GetBackupBucket(Cmd.Program(None, None), project + "\n", frequency);
    var head := "gcloud datastore export  --project " + project;
    var middle := AccountFlag(options.account) + " " + KindsFlag(kinds) + " --async " + BucketUrl(project);
    var last := "_backup_" + frequency;
    NewlineExportShape(kinds, project, bucket, options);
    DefaultBucketTail(kinds, project, frequency, options.account);
    NewlineFreeTail(kinds, project, options.account);
    NewlineFreeBackup(frequency);
    SplitAppend(head, '\n', middle + ['\n'] + last);
    SplitWithoutSeparator(head, '\n');
    SplitTwo(middle, '\n', last);
  }

  /** Words of the end of the status command. */
  lemma ProjectListWords(project: string)
    requires ' ' !in project
    ensures Tokens("--project" + " " + (project + " " + "list")) == ["--project"] + Word(project) + ["list"]
  {
    TokensCons("--project", project + " " + "list");
    TokensCons(project, "list");
    TokensOfWord("list");
  }

  /** Words of `gcloud datastore <verb> ` followed by more text. */
  lemma GcloudDatastoreWords(verb: string, rest: string)
    requires ' ' !in verb && verb != ""
    ensures Tokens("gcloud datastore " + verb + " " + rest) == ["gcloud", "datastore", verb] + Tokens(rest)
  {
    GcloudShape(verb, rest);
    TokensCons("gcloud", "datastore" + " " + (verb + " " + rest));
    TokensCons("datastore", verb + " " + rest);
    TokensCons(verb, rest);
  }

  /** Words of the export/import authentication part followed by more text. */
  lemma AuthOptionsWords(project: string, account: Option<string>, rest: string)
    requires PlainAuth(project, account)
    ensures Tokens(AuthOptions(project, account) + " " + rest)
         == ["--project"] + AuthWords(project, account) + Tokens(rest)
  {
    PlainFacts(project);
    if IsUndefined(account) {
      UndefinedAuthWords(project, rest);
    } else {
      PlainFacts(account.value);
      DefinedAuthWords(project, account.value, rest);
    }
  }

  /** The authentication words without an account. */
  lemma UndefinedAuthWords(project: string, rest: string)
    requires ' ' !in project
    ensures Tokens(AuthOptions(project, None) + " " + rest)
         == ["--project"] + AuthWords(project, None) + Tokens(rest)
  {
    AuthShapeUndefined(project, rest);
    TokensLeadingSpace("--project" + " " + (project + " " + rest));
    TokensCons("--project", project + " " + rest);
    TokensCons(project, rest);
  }

  /** The authentication words with an account. */
  lemma DefinedAuthWords(project: string, a: string, rest: string)
    requires ' ' !in project && ' ' !in a
    ensures Tokens(AuthOptions(project, Some(a)) + " " + rest)
         == ["--project"] + AuthWords(project, Some(a)) + Tokens(rest)
  {
    var fused := project + "--account";
    AuthShapeDefined(project, a, rest);
    TokensLeadingSpace("--project" + " " + (fused + " " + (a + " " + rest)));
    TokensCons("--project", fused + " " + (a + " " + rest));
    TokensCons(fused, a + " " + rest);
    TokensCons(a, rest);
  }

  /** Words of the end of an export or import command. */
  lemma AsyncTargetWords(kinds: seq<string>, target: string)
    requires PlainKinds(kinds) && ' ' !in target && target != ""
    ensures Tokens(KindsFlag(kinds) + " " + ("--async" + " " + target)) == [KindsFlag(kinds), "--async", target]
  {
    KindsSpaceFree(kinds);
    JoinAvoids(kinds, ",", ' ');
    TokensCons(KindsFlag(kinds), "--async" + " " + target);
    TokensCons("--async", target);
    TokensOfWord(target);
  }

  // Solver helpers: the command lines regrouped at their spaces and
  // quotes, the literals they are built from split the same way, and the
  // absence of quotes and spaces carried from the inputs to the parts.

  lemma DefaultBucketTail(kinds: seq<string>, project: string, frequency: string, account: Option<string>)
    ensures var bucket := Cmd.GetBackupBucket(Cmd.Program(None, None), project + "\n", frequency);
            AccountFlag(account) + " " + KindsFlag(kinds) + " --async " + BucketUrl(bucket)
              == (AccountFlag(account) + " " + KindsFlag(kinds) + " --async " + BucketUrl(project))
                 + ['\n'] + ("_backup_" + frequency)
  {
    assert "\n" == ['\n'];
  }

  lemma NewlineFreeBackup(frequency: string)
    requires '\n' !in frequency
    ensures '\n' !in "_backup_" + frequency
  {
  }

  lemma KindsQuoteFree(kinds: seq<string>)
    requires PlainKinds(kinds)
    ensures QuoteFree(Join(kinds, ","))
  {
    forall i | 0 <= i < |kinds|
      ensures QuoteFree(kinds[i])
    {
      PlainFacts(kinds[i]);
    }
    JoinAvoids(kinds, ",", '\'');
    JoinAvoids(kinds, ",", '"');
    JoinAvoids(kinds, ",", '\\');
  }

  lemma KindsSpaceFree(kinds: seq<string>)
    requires PlainKinds(kinds)
    ensures NoneContains(kinds, ' ')
  {
    forall i | 0 <= i < |kinds|
      ensures ' ' !in kinds[i]
    {
      PlainFacts(kinds[i]);
    }
  }

  lemma AuthQuoteFree(project: string, account: Option<string>)
    requires PlainAuth(project, account)
    ensures QuoteFree(AuthOptions(project, account))
  {
    PlainFacts(project);
    if account.Some? {
      PlainFacts(account.value);
    }
    QuoteFreeLiterals();
  }

  lemma ExportQuoting(kinds: seq<string>, project: string, bucket: string, options: Options)
    ensures DatastoreExportCommand(kinds, project, bucket, options)
         == "gcloud datastore export " + AuthOptions(project, options.account) + " " + "--kinds="
            + ['"'] + Join(kinds, ",") + ['"'] + (" --async " + BucketUrl(bucket))
  {
    KindsLiteral();
  }

  lemma RestoreQuoting(kinds: seq<string>, project: string, bucket: string,
                       timestamp: string, options: Options)
    ensures DatastoreRestoreCommand(kinds, project, bucket, timestamp, options)
         == "gcloud datastore import " + AuthOptions(project, options.account) + " " + "--kinds="
            + ['"'] + Join(kinds, ",") + ['"'] + (" --async " + MetadataPath(bucket, timestamp))
  {
    KindsLiteral();
  }

  lemma ExportCommandShape(kinds: seq<string>, project: string, bucket: string, options: Options)
    ensures DatastoreExportCommand(kinds, project, bucket, options)
         == "gcloud datastore " + "export" + " " + (AuthOptions(project, options.account) + " "
            + (KindsFlag(kinds) + " " + ("--async" + " " + BucketUrl(bucket))))
  {
    ExportLiterals();
  }

  lemma RestoreCommandShape(kinds: seq<string>, project: string, bucket: string,
                            timestamp: string, options: Options)
    ensures DatastoreRestoreCommand(kinds, project, bucket, timestamp, options)
         == "gcloud datastore " + "import" + " " + (AuthOptions(project, options.account) + " "
            + (KindsFlag(kinds) + " " + ("--async" + " " + MetadataPath(bucket, timestamp))))
  {
    ImportLiterals();
  }

  lemma MetadataPathSpaceFree(bucket: string, timestamp: string)
    requires ' ' !in bucket && ' ' !in timestamp
    ensures ' ' !in MetadataPath(bucket, timestamp)
  {
  }

  lemma StatusCommandShape(project: string, options: Options)
    requires !Truthy(options.account)
    ensures DatastoreStatusCommand(project, options)
         == "gcloud datastore " + "operations" + " " + (" " + ("--project" + " " + (project + " " + "list")))
  {
    StatusLiterals();
  }

  lemma GcloudShape(verb: string, rest: string)
    ensures "gcloud datastore " + verb + " " + rest == "gcloud" + " " + ("datastore" + " " + (verb + " " + rest))
  {
    GcloudLiteral();
  }

  lemma AuthShapeUndefined(project: string, rest: string)
    ensures AuthOptions(project, None) + " " + rest
         == " " + ("--project" + " " + (project + " " + rest))
  {
    AuthLiterals();
  }

  lemma AuthShapeDefined(project: string, account: string, rest: string)
    ensures AuthOptions(project, Some(account)) + " " + rest
         == " " + ("--project" + " " + ((project + "--account") + " " + (account + " " + rest)))
  {
    AuthLiterals();
  }

  lemma GcloudLiteral()
    ensures "gcloud datastore " == "gcloud" + " " + "datastore" + " "
  {
  }

  lemma KindsLiteral()
    ensures "--kinds=\"" == "--kinds=" + ['"']
    ensures "\"" == ['"']
  {
  }

  lemma QuoteFreeLiterals()
    ensures QuoteFree("gcloud datastore export ") && QuoteFree("gcloud datastore import ")
    ensures QuoteFree("gcloud datastore operations ") && QuoteFree(" list")
    ensures QuoteFree(" --project ") && QuoteFree("--account ") && QuoteFree(" ") && QuoteFree("--kinds=")
    ensures QuoteFree(" --async ") && QuoteFree("gs://") && QuoteFree("/") && QuoteFree(MetadataSuffix)
  {
    QuoteFreeProject();
    QuoteFreeList();
    QuoteFreeExportVerb();
    QuoteFreeImportVerb();
    QuoteFreeOperationsVerb();
    QuoteFreeAccountFlag();
    QuoteFreeSpace();
    QuoteFreeKindsName();
    QuoteFreeAsync();
    QuoteFreeScheme();
    QuoteFreeSlash();
    QuoteFreeSuffix();
  }

  lemma QuoteFreeExportVerb()
    ensures QuoteFree("gcloud datastore export ")
  {
  }

  lemma QuoteFreeImportVerb()
    ensures QuoteFree("gcloud datastore import ")
  {
  }

  lemma QuoteFreeOperationsVerb()
    ensures QuoteFree("gcloud datastore operations ")
  {
  }

  lemma QuoteFreeAccountFlag()
    ensures QuoteFree("--account ")
  {
  }

  lemma QuoteFreeSpace()
    ensures QuoteFree(" ")
  {
  }

  lemma QuoteFreeKindsName()
    ensures QuoteFree("--kinds=")
  {
  }

  lemma QuoteFreeAsync()
    ensures QuoteFree(" --async ")
  {
  }

  lemma QuoteFreeScheme()
    ensures QuoteFree("gs://")
  {
  }

  lemma QuoteFreeSlash()
    ensures QuoteFree("/")
  {
  }

  lemma QuoteFreeSuffix()
    ensures QuoteFree(MetadataSuffix)
  {
  }

  lemma ExportLiterals()
    ensures "gcloud datastore export " == "gcloud datastore " + "export" + " "
    ensures " --async " == " " + "--async" + " "
  {
  }

  lemma ImportLiterals()
    ensures "gcloud datastore import " == "gcloud datastore " + "import" + " "
    ensures " --async " == " " + "--async" + " "
  {
  }

  lemma AuthLiterals()
    ensures " --project " == " " + "--project" + " "
    ensures "--account " == "--account" + " "
  {
  }

  lemma StatusLiterals()
    ensures "gcloud datastore operations " == "gcloud datastore " + "operations" + " "
    ensures " --project " == " " + "--project" + " "
    ensures " list" == " " + "list"
  {
  }
}
