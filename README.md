# ser-distribute, modelled in Dafny

Sense Excel Reporting (SER) renders Qlik reports in jobs. A job result lists
its reports, each with the files it rendered and a `distribute` section
that says where the files go. ser-distribute delivers them:

- copies into a folder behind a Qlik `lib://` data connection;
- uploads to an FTP or FTPS server;
- shared content on the Qlik Sense hub, optionally given to an owner;
- e-mails merged per recipient key;
- summaries posted to Microsoft Teams or Slack.

Every delivery yields a result record. The records are ordered by task
name. Within a task, one error makes every record of that task an error.

This project models that core. It covers two generations of the code:

- **The library path.** `DistributeManager.Run` walks the job results.
  The four actions (`FileSystemAction`, `FtpAction`, `HubAction`,
  `MailAction`) and the messengers do the deliveries.
- **The older path.** `Distribute.Run` reads result files from disk and
  hands file, hub and mail locations to `ExecuteManager`. The older
  messengers and mail report sit beside it.

Both paths share the settings types, the result types and the
certificate callback.

| Dafny module | file | models |
|---|---|---|
| `Wrappers`, `Text`, `Paths`, `Json` | wrappers.dfy, text.dfy, paths.dfy, json.dfy | Option/Result, the .NET string and `Path` operations used, JSON values |
| `Jobs` | jobs.dfy | job results, reports, connections, the disk and the file system object |
| `DistributeResults` | results.dfy | the result records and their labels |
| `DistributeSettings`, `ActionSettings`, `LegacySettings`, `ServiceMailSettings` | settings.dfy, actionsettings.dfy, legacysettings.dfy, servicemailsettings.dfy | the settings classes, their defaults and derived keys |
| `BaseAction`, `JobResultExtension`, `EMailReports` | baseaction.dfy, jobdata.dfy, emailreport.dfy | the shared action helpers, the job state text, the mail report |
| `FileSystemAction`, `FtpAction`, `HubAction`, `MailAction` | filesystemaction.dfy, ftpaction.dfy, hubaction.dfy, mailaction.dfy | the four actions, as classes over the objects they change |
| `Messenger`, `ServiceMessenger` | messenger.dfy, servicemessenger.dfy | the older and the service messengers |
| `ResultNormalizer` | normalizer.dfy | ordering by task name and the error spreading |
| `CryptoResolver` | crypto.dfy | decryption of the string values of a JSON settings object |
| `CertificateValidation` | validation.dfy | both server-certificate callbacks |
| `DistributeManager` | distributemanager.dfy | the library's run loop |
| `ExecuteManager`, `LegacyMail`, `Distribute` | executemanager.dfy, legacymail.dfy, distribute.dfy | the older run, its copy, hub upload and mail sending |

Operations that change state in place are methods of classes. Examples
are the actions, the hub, the FTP server, the file system, the outbox
and both managers. Each method is proved against a function over
values, and the properties are lemmas about those functions.

Whatever the code cannot see is a parameter:

- the hub's answers, the FTP server's behaviour and the SMTP environment;
- the `Uri` parser, the data-connection resolver and the decryption;
- the typed JSON deserialisers.

Where the design text and the code disagree, the model follows the code.
These behaviours are modelled as the code has them:

- A location key that starts with no known delivery type gives null
  settings in `GetSettings` (src/DistributeManager.cs:49-50). Reading
  `settings.Active` then throws (:177), so `DistributeManager.Run`
  returns null for the whole run. The location is not skipped
  (`DistributeManager.ClassifyDefaults`, `DistributeManager.DistributeLocation`).
- Each action's result list is cleared once per report
  (src/DistributeManager.cs:163-166), not once per location. A second file,
  FTP or hub location in the same report appends that sink's earlier
  results again (`DistributeManager.Dispatch` returns all of them).
- String values inside an array are decrypted into a copy of the array,
  so they stay encrypted (`CryptoResolver.ArrayStringsNotDecrypted`).
- `FileSystemAction` tests for "lib://" ignoring case
  (src/Actions/FileSystemAction.cs:86). `ResolveLibPath` tests case
  sensitively (:28), so a "LIB://" target is not resolved and is used
  as a plain path.
- FTP DELETEALLFIRST deletes the remote file even when it is missing
  (src/Actions/FtpAction.cs:74). The server's reply to that delete is a
  failure of the upload (`FtpAction.Behaviour.missingFileReply`).

## Model

| member | source | states |
|---|---|---|
| `DistributeResults.Kind.Label` | src/DistributeResults.cs:34-100 | every declared result subclass has a nonempty DistributionMode label |
| `DistributeResults.LabelsDistinct` | src/DistributeResults.cs:34-100 | two declared subclasses with the same label are the same subclass: the labels tell the subclasses apart |
| `BaseAction.CheckJobResult` | DistributeService/Model/Actions/BaseAction.cs:23-26 | construction fails with "The job result must not be null." exactly when the job is null, and otherwise keeps the job |
| `BaseAction.NormalizeReportName` | DistributeService/Model/Actions/BaseAction.cs:30-33 | the name keeps its length and each invalid file-name character, and only those, becomes '_' |
| `BaseAction.NormalizeReportNameValid` | DistributeService/Model/Actions/BaseAction.cs:30-33 | a normalised name holds no invalid file-name character, and normalising it again changes nothing |
| `BaseAction.GetFormatedState` | DistributeService/Model/Actions/BaseAction.cs:35-38 | the state is the job status upper-cased character by character, with no lower-case letter left; "Unknown state" without a job |
| `BaseAction.ErrorState` | DistributeService/Model/Actions/BaseAction.cs:35-38 | a job whose status is ERROR reports the state "ERROR" |
| `JobResultExtension.FileDataList.constructor` | src/JobResultExtension.cs:12 | the shared list starts out null |
| `JobResultExtension.FileDataList.SetData` | src/JobResultExtension.cs:15-18 | the shared list becomes the given list, whichever job it is called on |
| `JobResultExtension.FileDataList.GetData` | src/JobResultExtension.cs:20-25 | the shared list, or an empty list before any SetData |
| `JobResultExtension.FileDataList.GetDataByName` | src/JobResultExtension.cs:27-32 | a null or empty name or a missing list give null; otherwise the result is the first entry of the list with that file name (FirstOrDefault), and null only when no entry has it |
| `JobResultExtension.SharedAcrossJobs` | src/JobResultExtension.cs:12-25 | the data set through one job is what GetData returns on any other job |
| `EMailReports.AttachmentOf` | src/EMailReport.cs:35-38 | the attachment carries the file's bytes and is named the report name followed by the extension of the rendered file |
| `EMailReports.EMailReport.constructor` | src/EMailReport.cs:23-29 | settings, server settings and mail information are kept and the attachment list starts empty |
| `EMailReports.EMailReport.AddReport` | src/EMailReport.cs:33-41 | a null file throws and adds nothing; otherwise exactly its attachment is appended |
| `DistributeSettings.ModeOf` | src/DistributeSettings.cs:62-78 | the values 0, 1 and 2 are the declared modes CREATEONLY, OVERRIDE and DELETEALLFIRST; every other value is undefined |
| `DistributeSettings.MailTypeOf` | src/DistributeSettings.cs:15-31 | the values 0, 1 and 2 are the declared mail types; every other value is undefined |
| `DistributeSettings.AbsentModeIsCreateOnly` | src/DistributeSettings.cs:62-78 | a Mode the JSON leaves out is the enum's zero value, CREATEONLY |
| `DistributeSettings.NewMailServerSettings` | src/DistributeSettings.cs:272-316 | a new server setting has port 25, no send delay, no host, sender or credentials, and SSL and certificates off |
| `DistributeSettings.NewMailSettings` | src/DistributeSettings.cs:209-257 | new mail settings send attachments as TEXT with no reports, subject, message or recipients |
| `DistributeSettings.KeySeesBcc` | src/DistributeSettings.cs:263-266 | settings that differ in their blind copies get different grouping keys |
| `DistributeSettings.KeyIgnoresDelivery` | src/DistributeSettings.cs:263-266 | settings that agree on subject, message and recipients share a grouping key, whatever else differs |
| `ActionSettings.NewMailSettings` | src/Settings/MailSettings.cs:22-33 | new mail settings send attachments as TEXT with no subject, message or recipients |
| `ActionSettings.NewMailServerSettings` | src/Settings/MailSettings.cs:43-57 | a new server setting has port 25, no send delay, and SSL, certificates and Base64 passwords off |
| `ActionSettings.TrimmedKey` | src/Settings/MailSettings.cs:36-39 | the key throws exactly when the subject or the message is null |
| `ActionSettings.TrimmedKeyCollides` | src/Settings/MailSettings.cs:36-39 | settings whose subjects and messages differ only in surrounding white space, with the same recipients, share a key |
| `ActionSettings.TrimmedKeyPadding` | src/Settings/MailSettings.cs:36-39 | a subject padded with spaces gives the same key as the bare subject |
| `ServiceMailSettings.MailSettings.Type` | DistributeService/Model/Settings/MailSettings.cs:25 | the settings type of service mail settings is always MAIL |
| `ServiceMailSettings.NewMailSettings` | DistributeService/Model/Settings/MailSettings.cs:22-35 | new mail settings send attachments as TEXT, with no server, activation, subject, message or recipients |
| `ServiceMailSettings.KeyIsUntrimmed` | DistributeService/Model/Settings/MailSettings.cs:38-41 | unlike the trimmed key, a subject with a leading space gives a different key |
| `ServiceMailSettings.AddReportAppends` | DistributeService/Model/Settings/MailSettings.cs:81-89 | adding a report appends one attachment (the name plus the file's extension, with its bytes), keeps the earlier ones and the settings, and the report names are those of the latest call only |
| `ServiceMailSettings.EMailReport.constructor` | DistributeService/Model/Settings/MailSettings.cs:71-77 | a new report keeps what it was created with and has no attachments and no names |
| `ServiceMailSettings.EMailReport.AddReport` | DistributeService/Model/Settings/MailSettings.cs:81-89 | a null file throws and changes nothing; otherwise the package grows as AddReportAppends says |
| `LegacySettings.ModeOf` | src/Settings.cs:30-35 | the values 0, 1 and 2 are OVERRIDE, DELETEALLFIRST and CREATEONLY, in that order; every other value is undefined |
| `LegacySettings.MailTypeOf` | src/Settings.cs:16-21 | the values 0, 1 and 2 are the declared mail types; every other value is undefined |
| `LegacySettings.SettingsTypeOf` | src/Settings.cs:23-28 | the values 0, 1 and 2 are MAIL, FILE and HUB; every other value is undefined |
| `LegacySettings.AbsentModeDiffers` | src/Settings.cs:30-35 | a Mode the JSON leaves out is OVERRIDE here but CREATEONLY in the newer settings; the value 3 names no type here; 2 is MARKUP |
| `LegacySettings.NewMailServerSettings` | src/Settings.cs:99-109 | Port has no initialiser, so a new server setting has port 0, SSL off and no host, sender or credentials |
| `LegacySettings.NewMailSettings` | src/Settings.cs:77-91 | new mail settings are TEXT mail with no activation, subject, message, recipients, server, paths or report name |
| `LegacySettings.KeyAgrees` | src/Settings.cs:93-96 | the grouping key has the same format as in src/DistributeSettings.cs: equal subject, message and recipients give equal keys across versions |
| `LegacySettings.KeySeesBcc` | src/Settings.cs:93-96 | settings that differ in their blind copies get different keys |
| `ResultNormalizer.SortByTaskName` | src/DistributeManager.cs:284 | ordering by task name keeps every result: the output is a permutation of the input |
| `ResultNormalizer.SortSorted` | src/DistributeManager.cs:284 | after ordering, no result comes after a result of a later task name |
| `ResultNormalizer.SortStable` | src/DistributeManager.cs:284 | OrderBy is stable: the results of each task keep their relative order |
| `ResultNormalizer.Keys` | src/DistributeManager.cs:64 | the task names of the results, each once, exactly those that occur |
| `ResultNormalizer.GroupByTaskName` | src/DistributeManager.cs:64 | one group per task name, in the order of the names' first results, each group being that task's results in order |
| `ResultNormalizer.GroupsNonEmpty` | src/DistributeManager.cs:64 | no group is empty |
| `ResultNormalizer.Fix` | src/DistributeManager.cs:65-76 | a result's fixed form differs from it at most in its state |
| `ResultNormalizer.NormalizeRegroups` | src/DistributeManager.cs:62-78 | normalising is fixing each result's state and then grouping and concatenating |
| `ResultNormalizer.NormalizePermutes` | src/DistributeManager.cs:62-78 | normalising neither adds nor drops a result: up to order the output is each input result with its state fixed |
| `ResultNormalizer.NormalizeInPlace` | src/DistributeManager.cs:62-78 | when each task's results already lie together, as after ordering, every result stays in place and only states change |
| `ResultNormalizer.WorstCaseWins` | src/DistributeManager.cs:65-76 | an output result whose task has several results, one of them an error, has the state "ERROR"; any other output result is an unchanged input result, in particular a task's only result |
| `ResultNormalizer.SortThenNormalize` | src/DistributeManager.cs:284-285 | what Run serialises is the ordered results, each with its task's worst case applied |
| `ResultNormalizer.NormalizeReportState` | src/DistributeManager.cs:62-78 | the loops compute exactly the normalisation above |
| `ResultNormalizer.FixGroups` | src/DistributeManager.cs:65-76 | the outer loop fixes every group and keeps their number and order |
| `ResultNormalizer.FixOne` | src/DistributeManager.cs:67-75 | the inner loop over a group overwrites all states with "ERROR" at the first "error" of a group with several results, and otherwise leaves the group alone |
| `ResultNormalizer.Concat` | src/DistributeManager.cs:77 | SelectMany concatenates the groups in order |
| `ResultNormalizer.SetAllError` | src/DistributeManager.cs:71-72 | every state of the group becomes "ERROR" and nothing else changes |
| `CryptoResolver.DecryptOrKeep` | src/CryptoResolver.cs:31-43 | the decrypted text when decryption succeeds, and the text unchanged when it throws |
| `CryptoResolver.Resolve` | src/CryptoResolver.cs:91-109 | without a crypter the argument comes back as it is, a null object gives null, a failing walk is rethrown with "The resolve of the evaluate section has an error.", and the walk fails exactly when the visit of some property value fails |
| `CryptoResolver.ObjectValuesShape` | src/CryptoResolver.cs:45-89 | the resolved object keeps its properties' names and order, and a plain value under a property becomes its decrypted text |
| `CryptoResolver.OverValue` | src/CryptoResolver.cs:55-62 | a plain value under a property is replaced by the decrypted text of the value |
| `CryptoResolver.ObjectValuesFails` | src/CryptoResolver.cs:72-89 | the walk fails exactly when the visit of some property value fails |
| `CryptoResolver.ValueItemsUnchanged` | src/CryptoResolver.cs:63-68 | an array of plain values comes back unchanged: the decrypted texts go to a copy of the array |
| `CryptoResolver.MixedItemsFail` | src/CryptoResolver.cs:63-68 | a plain value in an array that also holds a container makes the walk throw, since the container cannot be read as a string |
| `CryptoResolver.ArrayStringsNotDecrypted` | src/CryptoResolver.cs:55-68 | strings in an array under a property stay encrypted while a string property beside them is decrypted |
| `CryptoResolver.NestedArraySkipsLevel` | src/CryptoResolver.cs:72-89 | an object directly in an array is resolved, while an object in an array in an array is skipped and keeps its encrypted string |
| `CryptoResolver.ValuesBecomeText` | src/CryptoResolver.cs:57-61 | a Boolean under a property becomes the text "True" and a null becomes "" |
| `CryptoResolver.EmptyArrayItemFails` | src/CryptoResolver.cs:65-67 | an empty array as an array item is cast to a string and the resolve fails |
| `CryptoResolver.Resolver.constructor` | src/CryptoResolver.cs:23-27 | there is a crypter exactly when the key file exists, loaded from that file |
| `CryptoResolver.Resolver.ResolveObject` | src/CryptoResolver.cs:91-109 | the result is the Resolve above; the resolver keeps the resolved copy and never changes the argument |
| `FileSystemAction.FindDataConnection` | src/Actions/FileSystemAction.cs:42 | the first data connection with the name, or none when no connection has it |
| `FileSystemAction.ResolveLibPath` | src/Actions/FileSystemAction.cs:25-56 | a path not starting with "lib://" comes back unchanged; a lib path needs a connection and its data connections, with the messages of the source |
| `FileSystemAction.ResolveLibPathNamed` | src/Actions/FileSystemAction.cs:35-49 | for "lib://NAME/REST" the connection called NAME decides: its path combined with REST, backslashes read as '/', or the error naming NAME |
| `FileSystemAction.Copy.Targets` | src/Actions/FileSystemAction.cs:114-122 | one target file per report path, in order |
| `FileSystemAction.Copy.Data` | src/Actions/FileSystemAction.cs:124 | one looked-up rendered file per report path, in order |
| `FileSystemAction.WriteAllBytes` | src/Actions/FileSystemAction.cs:130 | writing succeeds exactly when the target file's folder exists |
| `FileSystemAction.CopyOne` | src/Actions/FileSystemAction.cs:126-155 | a successful copy yields the success result naming the target file; CREATEONLY never changes an existing file |
| `FileSystemAction.ModeRules` | src/Actions/FileSystemAction.cs:126-145 | OVERRIDE and DELETEALLFIRST create the target folder and write the bytes when the data exists, and fail on missing data; CREATEONLY fails on an existing file and otherwise writes only into an existing folder; an undefined mode fails and changes nothing |
| `FileSystemAction.TargetInCreatedFolder` | src/Actions/FileSystemAction.cs:117-136 | the target file lies in the target folder, so OVERRIDE and DELETEALLFIRST always write it when the report has data for the path |
| `FileSystemAction.TargetFilesDistinct` | src/Actions/FileSystemAction.cs:117-122 | with several paths, different paths get different target files |
| `FileSystemAction.Advance` | src/Actions/FileSystemAction.cs:146-156 | one loop turn appends exactly the path's success result, or adds nothing when the path throws |
| `FileSystemAction.CopyPathsStops` | src/Actions/FileSystemAction.cs:158-171 | once a path has thrown, the later paths change nothing |
| `FileSystemAction.CopyPathsCount` | src/Actions/FileSystemAction.cs:115-156 | the loop adds one result per path until the first failure |
| `FileSystemAction.CopyPathsResults` | src/Actions/FileSystemAction.cs:147-155 | every result the loop adds is the success naming its own path's target file |
| `FileSystemAction.CreateOnlyKeepsFiles` | src/Actions/FileSystemAction.cs:138-142 | in CREATEONLY mode no file that existed before is changed |
| `FileSystemAction.CopyOutcomeResults` | src/Actions/FileSystemAction.cs:60-171 | a failed check gives one error result and leaves the disk alone; otherwise one success per copied path with its target file and the job's upper-cased state, then, if a path failed, one error result with its message and nothing for the later paths |
| `FileSystemAction.FileSystemAction.constructor` | src/Actions/FileSystemAction.cs:21 | a new action has no results and an empty path cache |
| `FileSystemAction.FileSystemAction.CopyFile` | src/Actions/FileSystemAction.cs:60-178 | the disk and results are CopyOutcome's; a failure sets the job to ERROR with its message and otherwise the job is untouched; afterwards the cache is empty and the connection free |
| `FileSystemAction.FileSystemAction.ResolveTarget` | src/Actions/FileSystemAction.cs:62-110 | the checks before the loop: an empty name, a missing target, a non-lib target with a connection, the cached folder or a fresh resolution |
| `FileSystemAction.FileSystemAction.CopyPathsLoop` | src/Actions/FileSystemAction.cs:114-156 | the loop's disk, results and failure are those of CopyPaths over all paths |
| `FtpAction.EnumNumber` | src/Actions/FtpAction.cs:50 | a number Enum.Parse accepts starts with a digit or a sign |
| `FtpAction.ParseEncryptionMode` | src/Actions/FtpAction.cs:48-50 | no setting gives no encryption; a blank setting fails with the message of Enum.Parse |
| `FtpAction.ParseEncryptionModeName` | src/Actions/FtpAction.cs:50 | each member name parses to that member |
| `FtpAction.EnumNumberOfNat` | src/Actions/FtpAction.cs:50 | the decimal text of a number reads back as that number |
| `FtpAction.ParseEncryptionModeNumber` | src/Actions/FtpAction.cs:50 | a signed decimal number parses to the member with that value, or to an undefined mode keeping the number |
| `FtpAction.SignedNumberText` | src/Actions/FtpAction.cs:50 | the text of a signed number is no member name, has no surrounding space and reads back as the number |
| `FtpAction.NoSurroundingSpace` | src/Actions/FtpAction.cs:50 | trimming text without surrounding space leaves it unchanged |
| `FtpAction.RemoteFilesDistinct` | src/Actions/FtpAction.cs:58-63 | with several paths, different paths get different remote files |
| `FtpAction.FtpServer.constructor` | src/Actions/FtpAction.cs:47 | the server starts with the given remote files and behaviour |
| `FtpAction.Upload.Targets` | src/Actions/FtpAction.cs:56-63 | one remote file per report path, in order |
| `FtpAction.UploadOne` | src/Actions/FtpAction.cs:66-102 | a path that uploads yields the success result naming its "ftp://" path |
| `FtpAction.ModePolicy` | src/Actions/FtpAction.cs:66-90 | CREATEONLY skips an existing remote file and leaves it as it was; OVERRIDE replaces it; DELETEALLFIRST fails on a missing remote file; an undefined mode fails and changes nothing; the remote folder exists after the mode step |
| `FtpAction.UploadPathsStops` | src/Actions/FtpAction.cs:105-118 | once a path has thrown, the later paths change nothing |
| `FtpAction.UploadPathsCount` | src/Actions/FtpAction.cs:56-103 | the loop adds one result per path until the first failure |
| `FtpAction.UploadPathsResults` | src/Actions/FtpAction.cs:91-100 | every result the loop adds is the success naming its own path's remote file |
| `FtpAction.ConcludedUpload` | src/Actions/FtpAction.cs:56-118 | after the catch block the uploaded paths' successes come first, then at most one error result with the failure's message |
| `FtpAction.UploadOutcomeResults` | src/Actions/FtpAction.cs:20-118 | a failed check gives one error result and leaves the server alone; otherwise one success per uploaded path with its "ftp://" path and the job's upper-cased state, then, after a failure, one error result and nothing for the later paths |
| `FtpAction.PrepareChecks` | src/Actions/FtpAction.cs:26-53 | an empty name, a missing remote path, an unparsable encryption mode and a failed connection are checked in that order, and passing all of them is what lets the loop run |
| `FtpAction.CreateOnlyKeepsRemoteFiles` | src/Actions/FtpAction.cs:69-71 | in CREATEONLY mode no remote file that existed before is changed |
| `FtpAction.FtpAction.constructor` | src/Actions/FtpAction.cs:16 | a new action has no results |
| `FtpAction.FtpAction.FtpUpload` | src/Actions/FtpAction.cs:20-119 | the server and results are UploadOutcome's; a failure sets the job to ERROR with its message and otherwise the job is untouched |
| `FtpAction.FtpAction.CheckUpload` | src/Actions/FtpAction.cs:26-53 | the checks before the loop end as Prepare does: the empty-name error, the missing-path error, the encryption mode's parse error, the connection error, or the trimmed remote path |
| `FtpAction.FtpAction.UploadPathsLoop` | src/Actions/FtpAction.cs:56-103 | the loop's server, results and failure are those of UploadPaths over all paths |
| `HubAction.ExtensionLabel` | src/Actions/HubAction.cs:27 | the extension label has no dot and no lower-case letter |
| `HubAction.ContentNameFormat` | src/Actions/HubAction.cs:25-28 | the content name is the report name without its extension, then the upper-cased extension without its dot in parentheses |
| `HubAction.ContentNameSeesOnlyExtension` | src/Actions/HubAction.cs:25-28 | two rendered files of a report get the same content name exactly when their extensions agree up to case |
| `HubAction.FullLinkShape` | src/Actions/HubAction.cs:91-94 | the full link is the scheme, "://", the host and then the link |
| `HubAction.QlikHub.constructor` | src/Actions/HubAction.cs:133 | the hub starts with the given store and behaviour |
| `HubAction.FindContent` | src/Actions/HubAction.cs:30-53 | the first content of the name, owned by the user when there is one, or none when no content matches |
| `HubAction.SerEntries` | src/Actions/HubAction.cs:75 | the number of report marks is at most the number of metadata entries |
| `HubAction.Deletable` | src/Actions/HubAction.cs:75-79 | a record is deleted exactly when it has one report mark and its owner equals the purge owner ignoring case; missing metadata or two marks make the purge throw |
| `HubAction.Named` | src/Actions/HubAction.cs:72 | exactly the listed records of the content name |
| `HubAction.RemoveContent` | src/Actions/HubAction.cs:79 | exactly the records without the deleted id |
| `HubAction.PurgeMatchesRemovesOnly` | src/Actions/HubAction.cs:73-80 | the purge of one content name keeps only records it had, and removes only deletable records of that name |
| `HubAction.UniqueIdsSame` | src/Actions/HubAction.cs:79 | two records with the same id in a store of unique ids are the same record |
| `HubAction.PurgePathsRemovesOnly` | src/Actions/HubAction.cs:55-89 | the purge over all paths only removes deletable records whose names are the paths' content names |
| `HubAction.PurgeMatchesStops` | src/Actions/HubAction.cs:85-88 | once the purge has thrown, later records change nothing |
| `HubAction.PurgePathsStops` | src/Actions/HubAction.cs:85-88 | once the purge has thrown, later paths change nothing |
| `HubAction.PathNames` | src/Actions/HubAction.cs:68-71 | one content name per report path, in order |
| `HubAction.ResolveOwner` | src/Actions/HubAction.cs:132-149 | without an owner the session user; with one, the owner, failing when the user query has no reply, "[]" or several users, and taking the id of a single user |
| `HubAction.ItemOf` | src/Actions/HubAction.cs:115-119 | the item of a path carries its rendered file, found by file name, and the content name of that file |
| `HubAction.HubUpload.Items` | src/Actions/HubAction.cs:111-119 | one item per report path, in order |
| `HubAction.UpdateContent` | src/Actions/HubAction.cs:189-201 | only the record with the id gets the new data and references |
| `HubAction.ChangeOwner` | src/Actions/HubAction.cs:210-234 | only the record with the id gets the new owner and type |
| `HubAction.Publish` | src/Actions/HubAction.cs:150-208 | absent content is created with the next id; existing content is updated in OVERRIDE mode and refused otherwise with the source's message |
| `HubAction.FindLink` | src/Actions/HubAction.cs:241 | the external path of the first reference whose logical path contains "/" and the file name, or none when no reference does |
| `HubAction.Finish` | src/Actions/HubAction.cs:210-254 | a path that finishes yields a success result for its content name |
| `HubAction.UploadOne` | src/Actions/HubAction.cs:113-259 | a path succeeds only with rendered data, a copy path other than the rendered file itself and a mode of OVERRIDE or CREATEONLY, and then yields a success result for its content name |
| `HubAction.SelfCopyFails` | src/Actions/HubAction.cs:119-120 | a rendered file that is its own copy path fails with File.Copy's sharing violation and changes neither the hub nor the disk |
| `HubAction.SalesIsOwnCopy` | src/Actions/HubAction.cs:119 | the report "Sales" rendered to C:\job\Sales.xlsx has that file as its copy path |
| `HubAction.Outcome` | src/Actions/HubAction.cs:261-273 | a failed path gives the error result with its message and no report name; a successful one its own result |
| `HubAction.UploadPaths` | src/Actions/HubAction.cs:111-278 | the loop adds exactly one result per path |
| `HubAction.UploadPathsPrefix` | src/Actions/HubAction.cs:111-278 | later paths leave the results of earlier ones alone |
| `HubAction.UploadPathsResultAt` | src/Actions/HubAction.cs:111-273 | the result of each path is the outcome of its own step |
| `HubAction.FailureSticks` | src/Actions/HubAction.cs:264-265 | once a path has failed the job keeps a failure |
| `HubAction.UploadPathsFailure` | src/Actions/HubAction.cs:261-273 | the job has a failure exactly when some path failed |
| `HubAction.UploadResultAt` | src/Actions/HubAction.cs:245-272 | each result is a success exactly when its path succeeded, carrying the content name and a state that is "ERROR" after an earlier failure; otherwise the error result |
| `HubAction.StateAfterFailure` | src/Actions/HubAction.cs:248-265 | a path uploaded after a failed one reports the state "ERROR" |
| `HubAction.UnknownModeFailsAll` | src/Actions/HubAction.cs:256-259 | a mode other than OVERRIDE and CREATEONLY fails every path |
| `HubAction.HubOutcomeResults` | src/Actions/HubAction.cs:97-279 | the call throws exactly on an empty report name or a missing session user; otherwise one result per path; DELETEALLFIRST first purges only the owner's reports of the report's content names, then uploads in CREATEONLY mode, or, when the purge threw, fails every path |
| `HubAction.ModeRules` | src/Actions/HubAction.cs:122-208 | without an owner: absent content is created; CREATEONLY refuses existing content and leaves the hub alone; OVERRIDE replaces it; any other mode fails and changes nothing |
| `HubAction.OwnerRules` | src/Actions/HubAction.cs:134-234 | an owner not found or found twice fails the path with the source's message and changes nothing; a single owner is given the stored content |
| `HubAction.HubAction.constructor` | src/Actions/HubAction.cs:21 | a new action has no results |
| `HubAction.HubAction.UploadToHub` | src/Actions/HubAction.cs:97-279 | a thrown check changes nothing; otherwise hub, disk and results are HubOutcome's and the job holds the last failure |
| `HubAction.HubAction.UploadPathsLoop` | src/Actions/HubAction.cs:111-278 | the loop's hub, disk, results and job failure are those of UploadPaths, and the connection is freed after any path |
| `MailAction.FindKey` | src/Actions/MailAction.cs:74 | the package whose key is the settings' key, or none when no package has it |
| `MailAction.FilesOf` | src/Actions/MailAction.cs:69-73 | the rendered file of each path, found by file name, in order |
| `MailAction.AddFileKeys` | src/Actions/MailAction.cs:74-86 | adding a file keeps one package per key and adds the settings' key |
| `MailAction.AddPathKeys` | src/Actions/MailAction.cs:69-87 | a path that does not fail keeps one package per key and adds the settings' key |
| `MailAction.PathsKeys` | src/Actions/MailAction.cs:69-87 | the paths of a report add the key of their settings |
| `MailAction.ReportKeys` | src/Actions/MailAction.cs:67-88 | a report adds the key of its settings exactly when it has a path |
| `MailAction.ReportsKeys` | src/Actions/MailAction.cs:67-88 | the reports of a settings add its key when one of them has a path |
| `MailAction.SettingsKeysOf` | src/Actions/MailAction.cs:64-89 | a settings adds its key when one of its reports has a path |
| `MailAction.AllKeys` | src/Actions/MailAction.cs:63-89 | the merged list has distinct keys, one for each settings with a path |
| `MailAction.DistinctCount` | src/Actions/MailAction.cs:74 | distinct keys make one package per key |
| `MailAction.MergeStops` | src/Actions/MailAction.cs:203-217 | once a merge step has thrown, later steps change nothing |
| `MailAction.OneMailPerKey` | src/Actions/MailAction.cs:63-89 | settings with equal keys share one mail: one package per key of the settings that have a path, no key twice |
| `MailAction.BodyOf` | src/Actions/MailAction.cs:109-126 | an unknown mail type throws with the source's message; otherwise the body is HTML exactly when the type is not TEXT |
| `MailAction.ValidOnly` | src/Actions/MailAction.cs:138-148 | exactly the addresses MailAddress accepts, never more than were given |
| `MailAction.ValidOnlyAppend` | src/Actions/MailAction.cs:138-140 | the accepted addresses keep their order |
| `MailAction.Addresses` | src/Actions/MailAction.cs:103-105 | no entry of a split recipient field is empty or holds a ';' |
| `MailAction.ResultToShape` | src/Actions/MailAction.cs:102 | the recipients shown in a result have no ';' and no trailing ','; without a field the fixed text |
| `MailAction.Wrap32` | src/Actions/MailAction.cs:174 | the int product wraps into 32 bits, congruent to the exact product |
| `MailAction.DelayRange` | src/Actions/MailAction.cs:172-174 | no delay for a non-positive setting; seconds become milliseconds while the product fits; 2147484 seconds wrap to a negative delay |
| `MailAction.SendOneThrows` | src/Actions/MailAction.cs:110-186 | a package throws exactly on an unknown body type, an invalid sender, missing server settings, or, with a valid To recipient, a negative delay or a failing SMTP host |
| `MailAction.NoRecipientNoMail` | src/Actions/MailAction.cs:176-197 | without a valid To recipient nothing is sent and the result is an ERROR with the source's message; otherwise the mail goes out and its result succeeds with the job's state |
| `MailAction.SentMail` | src/Actions/MailAction.cs:96-181 | the mail sent has the valid addresses of its fields, attachments only when asked for, the trimmed subject, the body by its type, a valid sender and the delay in milliseconds |
| `MailAction.SendPackages` | src/Actions/MailAction.cs:93-201 | one result per package until an exception ends the loop |
| `MailAction.SendPackagesStops` | src/Actions/MailAction.cs:203-217 | once a package has thrown, no later package is looked at |
| `MailAction.OneResultPerMail` | src/Actions/MailAction.cs:93-201 | without an exception every merged mail gets one result |
| `MailAction.ThrownLast` | src/Actions/MailAction.cs:203-217 | an exception ends the sending with one ERROR result carrying its message, which also fails the job |
| `MailAction.ResultsGrow` | src/Actions/MailAction.cs:93-201 | the results and mails of earlier packages stay in front of later ones |
| `MailAction.Outbox.constructor` | src/Actions/MailAction.cs:150 | the SMTP side starts with no mails |
| `MailAction.Outbox.Send` | src/Actions/MailAction.cs:181 | sending appends the mail |
| `MailAction.KeepValid` | src/Actions/MailAction.cs:138-148 | the loop keeps exactly ValidOnly's addresses |
| `MailAction.AddReportPaths` | src/Actions/MailAction.cs:69-87 | the path loop is MergeReport |
| `MailAction.AddSettingsReports` | src/Actions/MailAction.cs:66-88 | the report loop is MergeSettings |
| `MailAction.BuildMailList` | src/Actions/MailAction.cs:63-89 | the settings loop is MergeAll |
| `MailAction.MailAction.constructor` | src/Actions/MailAction.cs:25-28 | a new action keeps the key path and has no settings and no results |
| `MailAction.MailAction.AddMailSettings` | src/Actions/MailAction.cs:48-53 | the settings are appended, typed MAIL and carrying the report |
| `MailAction.MailAction.SendMails` | src/Actions/MailAction.cs:55-218 | results and mails are those of SendMailsOutcome, and the job holds its last failure |
| `MailAction.MailAction.SendLoop` | src/Actions/MailAction.cs:93-217 | the loop's results, mails and job failure are those of SendPackages over all packages |
| `LegacyMail.Attach` | src/ExecuteManager.cs:457-462 | a file that is there becomes an attachment named after the report with the file's extension; a missing file cannot be opened |
| `LegacyMail.EMailReport.constructor` | src/ExecuteManager.cs:447-453 | settings, server settings and mail information as given, no attachments |
| `LegacyMail.EMailReport.AddReport` | src/ExecuteManager.cs:457-465 | a file that is there appends its attachment; a missing one throws and adds nothing |
| `LegacyMail.Single` | src/ExecuteManager.cs:369 | the only report with the key, none, or a failure when several have it, which never happens while keys are distinct |
| `LegacyMail.FoldStops` | src/ExecuteManager.cs:430-433 | once the grouping has thrown, later items change nothing |
| `LegacyMail.AddPathKeeps` | src/ExecuteManager.cs:369-379 | a path fails only on a missing file; otherwise keys stay distinct and there is exactly one attachment more |
| `LegacyMail.FoldAddsOne` | src/ExecuteManager.cs:365-381 | a fold of such a step fails exactly when an item is rejected, and otherwise keeps keys distinct and adds one attachment per item |
| `LegacyMail.AddPathAddsOne` | src/ExecuteManager.cs:367-380 | adding a path is such a step, failing exactly on a missing file |
| `LegacyMail.EntriesFold` | src/ExecuteManager.cs:365-381 | the grouping of the first entries fails exactly when one of them names a missing file, and otherwise attaches each of their paths once |
| `LegacyMail.GroupAllMeaning` | src/ExecuteManager.cs:364-381 | the grouping throws exactly when an entry names a file that is not there; otherwise no two merged reports share a key and every path is attached exactly once |
| `LegacyMail.GroupEntry` | src/ExecuteManager.cs:367-380 | the path loop of one entry is the fold of AddPath |
| `LegacyMail.Group` | src/ExecuteManager.cs:364-381 | the entry loop is GroupAll |
| `LegacyMail.Recipients` | src/ExecuteManager.cs:386-420 | no recipient kept from a field is empty or holds a ';' |
| `LegacyMail.Body` | src/ExecuteManager.cs:394-398 | as written: a message with "</html>" only sets the HTML flag and leaves the body unset; otherwise "{n}" becomes a line break |
| `LegacyMail.HtmlBodyLost` | src/ExecuteManager.cs:395-396 | an HTML message is never the body of its mail |
| `LegacyMail.IntendedBody` | src/ExecuteManager.cs:394-398 | the body is always set: an HTML message as it is, any other as Body has it |
| `LegacyMail.Compose` | src/ExecuteManager.cs:386-425 | a mail goes out only with a message, server settings, a valid sender and recipients, a non-negative port, a host the server accepts and at least one recipient; it carries the fields' recipients, the subject, the attachments, and the body as Body leaves it: no body, only the HTML flag, for a message containing "</html>" |
| `LegacyMail.SendAllMeaning` | src/ExecuteManager.cs:384-433 | the mails sent are the composed mails of the first reports, and the report after them failed |
| `LegacyMail.SendAllStops` | src/ExecuteManager.cs:430-433 | once a report has failed, later reports send nothing |
| `LegacyMail.NoRecipientEndsSending` | src/ExecuteManager.cs:404-433 | a merged report without any recipient is not sent and neither is any report after it |
| `LegacyMail.Server.constructor` | src/ExecuteManager.cs:422 | the server starts with no mails |
| `LegacyMail.SendLoop` | src/ExecuteManager.cs:384-428 | the server receives SendAll's mails, in order: the mails Compose builds, with the body left unset for an HTML message |
| `Messenger.HtmlMessage` | src/Messenger/BaseMessenger.cs:43-76 | an error result is the error sentence; a successful result of a kind without a sentence throws with the source's message; FTP and mail results read as in the service version |
| `Messenger.HubLinkVersions` | src/Messenger/BaseMessenger.cs:47-51 | this version links a hub result's Link where the service version links its FullLink, so the two differ whenever the links do |
| `Messenger.BaseAddress` | src/Messenger/BaseMessenger.cs:23 | the address is the scheme, ":\" and the host; without a URL it is ":\" alone |
| `Messenger.Client` | src/Messenger/BaseMessenger.cs:21-24 | the client is built exactly when there is a URL and its address parses as a URI; otherwise `new Uri` throws with its message |
| `Messenger.SlackFallbackWhenEmpty` | src/Messenger/Slack.cs:21-40 | with no results the message is the greeting and the explainer; with results it is the greeting, the introduction and one line per result |
| `Messenger.Slack.constructor` | src/Messenger/Slack.cs:15 | a Slack messenger keeps its URL and job and the base address of the URL, and can only be built when the client can |
| `Messenger.Slack.SendMessage` | src/Messenger/Slack.cs:17-73 | the outcome of posting the Slack text: delivered as "Slack" with the job's state on a 2xx reply, otherwise an "ERROR" result with the failure's message |
| `Messenger.ComposeSlack` | src/Messenger/Slack.cs:21-40 | the message built is SlackMessage |
| `Messenger.OldTeamsEmpty` | src/Messenger/MicrosoftTeams.cs:23-35 | no results post an empty text |
| `Messenger.OldErrorStateIsNotError` | src/Messenger/MicrosoftTeams.cs:60 | the misspelt state does not lower-case to "error" |
| `Messenger.MisspeltStateEscapes` | src/Messenger/MicrosoftTeams.cs:60 | as written: next to the undelivered Teams message of its task, a successful result keeps its state through the normaliser |
| `Messenger.IntendedStateForcesError` | src/Messenger/MicrosoftTeams.cs:60 | with "ERROR" the undelivered message turns the other result of its task into "ERROR" |
| `Messenger.MicrosoftTeams.constructor` | src/Messenger/MicrosoftTeams.cs:15 | a Teams messenger keeps its URL and job and the base address of the URL, and can only be built when the client can |
| `Messenger.MicrosoftTeams.SendMessage` | src/Messenger/MicrosoftTeams.cs:19-63 | the outcome of posting one HTML line per result under the older title: delivered as "Microsoft Teams" on a 2xx reply, otherwise a result in the misspelt state "ERRROR" with the failure's message |
| `ServiceMessenger.TextMessage` | DistributeService/Model/Messenger/BaseMessenger.cs:43-76 | a failed result names its report; a successful one shows the field of its sink; any other successful kind throws with the source's message |
| `ServiceMessenger.InfixInjective` | DistributeService/Model/Messenger/BaseMessenger.cs:50-65 | equal sentences with the same frame have equal fields |
| `ServiceMessenger.TextShowsOnlyTheField` | DistributeService/Model/Messenger/BaseMessenger.cs:47-66 | two successful results of one kind read the same exactly when the field they show agrees: a hub result shows its FullLink |
| `ServiceMessenger.HtmlMessage` | DistributeService/Model/Messenger/BaseMessenger.cs:78-111 | the same sentences in paragraphs with links under the report name; an error result reads as in the text, and an undescribable success throws |
| `ServiceMessenger.LinesUpToPrefix` | DistributeService/Model/Messenger/MicrosoftTeams.cs:30-34 | the first lines do not depend on the later results |
| `ServiceMessenger.LinesUpToSuffix` | DistributeService/Model/Messenger/MicrosoftTeams.cs:30-34 | the lines of later results follow those of the earlier ones |
| `ServiceMessenger.LinesInOrder` | DistributeService/Model/Messenger/MicrosoftTeams.cs:30-34 | one line per result in list order, each its sentence and a line break |
| `ServiceMessenger.LinesFail` | DistributeService/Model/Messenger/MicrosoftTeams.cs:30-34 | the message fails exactly when some result cannot be rendered, with the exception of the first such result |
| `ServiceMessenger.LinesStop` | DistributeService/Model/Messenger/MicrosoftTeams.cs:66-76 | once a render has thrown, later results change nothing |
| `ServiceMessenger.BuildLines` | DistributeService/Model/Messenger/MicrosoftTeams.cs:30-34 | the loop's message is Lines |
| `ServiceMessenger.BaseAddress` | DistributeService/Model/Messenger/BaseMessenger.cs:23 | the address is the scheme, "://" and the host; without a URL it is "://" alone |
| `ServiceMessenger.TeamsFallback` | DistributeService/Model/Messenger/MicrosoftTeams.cs:23-42 | the explainer comes exactly when there are no results |
| `ServiceMessenger.TeamsStartsWithGreeting` | DistributeService/Model/Messenger/MicrosoftTeams.cs:23-48 | the trimmed message still starts with the greeting |
| `ServiceMessenger.TrimEndKeeps` | DistributeService/Model/Messenger/MicrosoftTeams.cs:48 | trimming the end keeps every character up to a non-white one |
| `ServiceMessenger.PostOutcome` | DistributeService/Model/Messenger/MicrosoftTeams.cs:44-76 | a delivered message exactly when the body rendered and the hook answered 2xx, with the messenger's name and the job's state; otherwise the error state with the render's exception, the post's exception or the non-2xx reply's text; a missing job throws |
| `ServiceMessenger.PostResult` | DistributeService/Model/Messenger/MicrosoftTeams.cs:44-76 | delivered exactly when the body rendered and the post answered 2xx, with the messenger's name, the state and the fixed message; otherwise the error state and the render's exception, the post's exception or the reply's text |
| `ServiceMessenger.Client` | DistributeService/Model/Messenger/BaseMessenger.cs:21-24 | the client is built exactly when there is a URL and its address parses as a URI; otherwise `new Uri` throws with its message |
| `ServiceMessenger.MicrosoftTeams.constructor` | DistributeService/Model/Messenger/MicrosoftTeams.cs:15 | the messenger keeps its URL and job and the base address, and can only be built when the client can |
| `ServiceMessenger.MicrosoftTeams.SendMessage` | DistributeService/Model/Messenger/MicrosoftTeams.cs:19-77 | the outcome of posting the Teams message under "AG Reporting Results", "ERROR" when undelivered |
| `ServiceMessenger.ComposeTeams` | DistributeService/Model/Messenger/MicrosoftTeams.cs:23-42 | the built message is TeamsMessage |
| `ServiceMessenger.Deliver` | DistributeService/Model/Messenger/MicrosoftTeams.cs:44-76 | posting a built message gives PostOutcome |
| `ServiceMessenger.UndescribableFails` | DistributeService/Model/Messenger/MicrosoftTeams.cs:30-34 | a successful result the messenger cannot describe makes the whole message fail |
| `CertificateValidation.RequestUri` | src/ValidationCallback.cs:37-43 | a web request always gives its address; an unknown sender gives none |
| `CertificateValidation.NormalizeThumbprint` | src/ValidationCallback.cs:56 | the compared thumbprint has no ':', no ' ' and no upper-case letter |
| `CertificateValidation.ItemAccepts` | src/ValidationCallback.cs:51-66 | an entry throws (and is skipped) without thumbprint, hash or parsable URL; otherwise it accepts exactly when the thumbprints agree ignoring separators and case and its host, if it names one, is the request's host |
| `CertificateValidation.AnyAccepts` | src/ValidationCallback.cs:49-67 | some entry accepts |
| `CertificateValidation.Validate` | src/ValidationCallback.cs:26-76 | accept without policy errors; otherwise accept exactly when there is a connection and either verification is off or the request has a URI and some entry accepts; a missing connection refuses |
| `CertificateValidation.ThumbprintNormalized` | src/ValidationCallback.cs:56-57 | separators and case in the pinned thumbprint do not matter |
| `CertificateValidation.ThrowingEntrySkipped` | src/ValidationCallback.cs:63-66 | an entry that throws does not stop a later entry from accepting |
| `CertificateValidation.LegacyItemAccepts` | src/ExecuteManager.cs:134-142 | the URL is required (a null or empty one, which `new Uri` refuses, throws and skips the entry), and the stripped thumbprint must equal the hash in its case, with the hosts equal ignoring case |
| `CertificateValidation.LegacyAnyAccepts` | src/ExecuteManager.cs:132-143 | some entry accepts under the older rule |
| `CertificateValidation.LegacyValidate` | src/ExecuteManager.cs:112-147 | accept without policy errors; a missing connection, or a missing list when the list is read, throws out of the callback; otherwise as the older entries say |
| `CertificateValidation.RulesDiffer` | src/ExecuteManager.cs:136-139 | an entry without URL accepts any host under the newer rule and throws under the older one; the older rule refuses a thumbprint in the other case |
| `Distribute.ChildActive` | src/Distribute.cs:28 | indexing a child by "active" gives an object's property value, and throws on anything that is not an object |
| `Distribute.FirstActive` | src/Distribute.cs:28 | the list is built from every item, so it throws exactly when some item is not an object; otherwise the first "active" value |
| `Distribute.FirstLookup` | src/Distribute.cs:28 | the first "active" value of the object items, or none when none has one |
| `Distribute.ProbeActive` | src/Distribute.cs:28 | no token leaves the activation unset; a token converts to a boolean or throws |
| `Distribute.ReadType` | src/Distribute.cs:41 | a number is the enum value it is; a string names MAIL, FILE or HUB ignoring case; anything else throws |
| `Distribute.Probe` | src/Distribute.cs:22-48 | a throw gives null; the keys "mail", "hub" and "file" are classified with the probed activation; any other location is deserialised from its first token |
| `Distribute.LastNamed` | src/Distribute.cs:41 | the last member of the name, or none when no member has it |
| `Distribute.ReadBaseMeaning` | src/Distribute.cs:41 | deserialising succeeds exactly when every "active" and "type" member converts; then the last member of each name decides, with no "active" leaving it unset and no "type" giving MAIL |
| `Distribute.Deliver` | src/Distribute.cs:78-111 | null settings throw; an inactive location is skipped; file and hub locations run their sink; a mail location adds its settings with the report's paths and name, or throws when they decode to null; a location of unknown type is skipped; nothing else changes |
| `Distribute.ScanStops` | src/Distribute.cs:129-133 | after a throw no later step runs |
| `Distribute.JobFile` | src/Distribute.cs:57-121 | a missing file is skipped, an unreadable one throws, a job that did not succeed is skipped, and mails sent only grow |
| `Distribute.RunResult` | src/Distribute.cs:124-133 | null after a throw, the on-demand link in on-demand mode, "OK" otherwise |
| `Distribute.LocationsCollect` | src/Distribute.cs:78-112 | while a report is delivered, mail settings are only appended, each with the report's paths and name |
| `Distribute.ReportsCollect` | src/Distribute.cs:75-113 | over all reports the collected mail settings only grow, each carrying the paths and name of one report |
| `Distribute.JobFileSendsLast` | src/Distribute.cs:73-121 | a job's reports are delivered first; then, unless that threw, the collected mails are sent against the disk the deliveries left, and only when some were collected |
| `Distribute.JobFilesSend` | src/Distribute.cs:57-122 | until a throw the mails sent only grow, each job file adding its own after the earlier ones |
| `Distribute.FileLocation` | src/Distribute.cs:85-90 | a file location runs CopyFile on the manager |
| `Distribute.HubLocation` | src/Distribute.cs:91-98 | a hub location runs UploadToHub, its task awaited |
| `Distribute.DeliverLocation` | src/Distribute.cs:80-111 | one location on the manager is Deliver |
| `Distribute.DeliverLocations` | src/Distribute.cs:77-112 | the location loop of a report is DeliverReport |
| `Distribute.DeliverReports` | src/Distribute.cs:75-113 | the report loop of a job is Reports |
| `Distribute.ProcessFile` | src/Distribute.cs:59-121 | one result file on the manager is JobFile |
| `Distribute.ProcessFiles` | src/Distribute.cs:57-122 | the listing loop is JobFiles |
| `Distribute.Run` | src/Distribute.cs:50-134 | a new manager processes the listing; the hub, the disk and the mails sent end as JobFiles says, each mail as Compose builds it with the body left unset for an HTML message, and the result is RunResult's |
| `DistributeManager.ToBool` | src/DistributeManager.cs:37 | `ToObject<bool>`: a boolean is itself, a number is true unless zero, a string converts exactly when it reads "true" or "false" ignoring case and surrounding blanks, and null, arrays and objects throw |
| `DistributeManager.ActiveOf` | src/DistributeManager.cs:37 | the activation of a property's value: not an object throws, no "active" member is inactive, otherwise the member's conversion |
| `DistributeManager.PrefixesExclusive` | src/DistributeManager.cs:39-48 | no property name starts with two of the prefixes, so the order of the tests does not matter |
| `DistributeManager.TypeOfNameMeaning` | src/DistributeManager.cs:39-50 | the type is MAIL, HUB, FILE, FTP or MESSENGER exactly when the name starts with that prefix, and none exactly when it starts with none of them |
| `DistributeManager.ClassifyMeaning` | src/DistributeManager.cs:31-60 | the settings of an array item are null; a property has settings exactly when its "active" converts and its name has a known prefix, and then they carry that activation and type |
| `DistributeManager.ClassifyDefaults` | src/DistributeManager.cs:37-50 | a known prefix without "active" gives inactive settings; an unknown prefix gives null |
| `DistributeManager.ActiveAsString` | src/DistributeManager.cs:37 | "active" given as the string "True" is active |
| `DistributeManager.ActiveAsNumber` | src/DistributeManager.cs:37 | "active" given as the number 0 is inactive |
| `DistributeManager.ActiveUnparsable` | src/DistributeManager.cs:37 | "active" given as the string "yes" makes the settings null |
| `DistributeManager.ClassifyAll` | src/DistributeManager.cs:171-177 | the classification of every location, one per location |
| `DistributeManager.ClassifyAllMeaning` | src/DistributeManager.cs:171-177 | the locations of a report classify exactly when each does, and then each classification is the one at its position |
| `DistributeManager.CountsPartition` | src/DistributeManager.cs:177-242 | every active location is counted under exactly one of the five delivery types |
| `DistributeManager.ProbesPartition` | src/DistributeManager.cs:177-242 | active settings of defined types split into the five types without remainder |
| `DistributeManager.TaskNamesDistinct` | src/DistributeManager.cs:97-98 | two positions in the job list never get the same task name |
| `DistributeManager.StatusResult` | src/DistributeManager.cs:99-151 | SUCCESS and WARNING pass on to delivery; every other status gives one error result of the task, successful only for INACTIVE and ABORT, with the status upper-cased as state (ERROR for RETRYERROR) and the job's exception or the status's default text as message |
| `DistributeManager.NoDeliveryResult` | src/DistributeManager.cs:246-255 | a report without an active location gives a successful distribution result of the task with the fixed message and the job's state |
| `DistributeManager.Cancellation.constructor` | src/DistributeManager.cs:83 | a token is known by the check at which it is first seen canceled, and no check has been made yet |
| `DistributeManager.Cancellation.ThrowIfCancellationRequested` | src/DistributeManager.cs:95 | each check is counted, and throws exactly when the token has been canceled by then |
| `DistributeManager.ConnectionManager.constructor` | src/DistributeManager.cs:86 | a connection manager over its pool and its choice of connection |
| `DistributeManager.ConnectionManager.Chosen` | src/DistributeManager.cs:205 | the connection for a list of configurations is null or one of the pool |
| `DistributeManager.ConnectionManager.GetConnection` | src/DistributeManager.cs:205 | GetConnection hands out the chosen connection |
| `DistributeManager.ConnectionManager.MakeFree` | src/DistributeManager.cs:279 | afterwards every pooled connection is free |
| `DistributeManager.MessengerEntry.Outcome` | src/DistributeManager.cs:273 | a messenger without a job throws; otherwise its result is the message its class builds from the results, for its job's task and formatted state |
| `DistributeManager.MessengerEntry.Message` | src/DistributeManager.cs:273 | a messenger result of the task: delivered in the job's state, or undelivered in the misspelt state for Teams and "ERROR" for Slack |
| `DistributeManager.Messages` | src/DistributeManager.cs:270-274 | one messenger result of the task per messenger, in order, each built from the results before the loop and the messages before it |
| `DistributeManager.MessengerEntry.SendMessage` | src/DistributeManager.cs:273 | sending through a created messenger is its class's SendMessage |
| `DistributeManager.Dispatch` | src/DistributeManager.cs:180-242 | a messenger location appends a Teams or Slack messenger of the job, as the decoded settings name it, over their address; a mail location appends its decoded settings, typed MAIL and with the report added; a file, FTP or hub location returns all of its sink's results so far, which only grew; null settings throw, as do a missing connection and an unknown messenger; an unknown type returns nothing |
| `DistributeManager.CreateMessenger` | src/DistributeManager.cs:182-198 | null settings throw; an undefined messenger throws "Unkown messenger"; otherwise exactly when its address parses, the messenger the settings name (Teams or Slack) is appended for the job, holding the settings' address, and nothing is delivered |
| `DistributeManager.DeliverFile` | src/DistributeManager.cs:199-210 | null settings throw; no connection throws the FILE message; otherwise the copy's results, which only grew, are returned |
| `DistributeManager.DeliverHub` | src/DistributeManager.cs:219-231 | null settings throw; no connection throws the HUB message; a successful upload returns the hub sink's results, which only grew |
| `DistributeManager.DistributeLocation` | src/DistributeManager.cs:171-243 | unclassifiable settings throw; a location that is not an active file, FTP or hub location returns nothing; an active one returns exactly its sink's results, which only grew; an active messenger location appends the Teams or Slack messenger its decoded settings name, over their address, and an active mail location appends its decoded settings typed MAIL with the report added |
| `DistributeManager.DistributeLocations` | src/DistributeManager.cs:171-244 | after the loop every location was classified and the count is the number of active ones; what the report adds is the concatenation of the locations' outcomes in order, each empty or the sink's results at that point; the messengers and mail settings grew by the messenger and mail locations |
| `DistributeManager.OutcomesSnoc` | src/DistributeManager.cs:208-217 | one more location keeps every outcome empty or within its sink's results, and extends what the report adds by that outcome |
| `DistributeManager.NoActiveEmpty` | src/DistributeManager.cs:177 | with no active location the outcomes add nothing |
| `DistributeManager.NoActiveNoOutcome` | src/DistributeManager.cs:246-255 | a report with no active location adds just the no-delivery result |
| `DistributeManager.DistributeReport` | src/DistributeManager.cs:168-255 | a report adds, after the results so far, its locations' outcomes in order, or the no-delivery result when nothing was active; the messengers and cached mail settings grow by its active messenger and mail locations |
| `DistributeManager.ReportStep` | src/DistributeManager.cs:158-256 | one more report, after a cancellation check and with the sinks' results cleared, extends the results, the consistency of the handled reports and the messenger and mail counts by that report |
| `DistributeManager.DistributeReports` | src/DistributeManager.cs:158-256 | the reports in order add their parts after the results, each handled as DistributeReport says, with one messenger per active messenger location and one cached mail setting per active mail location |
| `DistributeManager.SendMessages` | src/DistributeManager.cs:270-274 | the messenger loop adds Messages: one result per messenger, each built from every result before it |
| `DistributeManager.SendJobMessages` | src/DistributeManager.cs:266-275 | the results end with Messages for the job's task and state, and nothing is added without messengers |
| `DistributeManager.SendJobMails` | src/DistributeManager.cs:258-264 | without cached mail settings nothing is sent and nothing changes; otherwise the results gain exactly SendMails' results, the outbox its mails, and the job's state becomes what the sending left |
| `DistributeManager.DeliverJob` | src/DistributeManager.cs:153-275 | a delivered job adds its reports' parts, then the results of sending its cached mail settings in the state the last report left (none without an active mail location), then one message per active messenger location, each built from everything before it |
| `DistributeManager.RunJob` | src/DistributeManager.cs:92-275 | the job is named "Task n"; a status other than SUCCESS and WARNING adds its status result and touches nothing else; otherwise its chunk is added and the job was delivered as DeliveredAs says |
| `DistributeManager.NamedMeaning` | src/DistributeManager.cs:91-98 | a job object listed more than once ends with the name of its last position |
| `DistributeManager.JobRun` | src/DistributeManager.cs:92-275 | job i is named by its position, its trace records its status before the run, no other job object changes, and the results become those collected from the traces, each job consistent with what came before it |
| `DistributeManager.JobStep` | src/DistributeManager.cs:92-276 | a job after a cancellation check: a canceled token throws; otherwise the results are those collected from the jobs handled, each consistent after the results before it |
| `DistributeManager.RunJobs` | src/DistributeManager.cs:91-276 | the job loop: a canceled token throws, an empty list adds nothing and checks nothing, and a completed loop collects every job's chunk in order, each job handled after the results of the jobs before it and named by its last position |
| `DistributeManager.JobsConsistentMeaning` | src/DistributeManager.cs:92-276 | in a consistent run, job k was handled as the source does after the results of the jobs before it |
| `DistributeManager.JobsConsistentSnoc` | src/DistributeManager.cs:92-276 | a run stays consistent when the next job is handled after everything collected so far |
| `DistributeManager.JobsLoop` | src/DistributeManager.cs:92-276 | the foreach over the jobs: a canceled token throws at the first check, an empty list checks nothing, and a completed loop collects every job's chunk, each job consistent after the ones before it and named by its last position |
| `DistributeManager.DistributeManager.constructor` | src/DistributeManager.cs:20-28 | no error message is set at first |
| `DistributeManager.DistributeManager.Run` | src/DistributeManager.cs:83-304 | the connections end free; a failure or a cancellation returns null and sets the error message; a success leaves it and returns the collected results, every job handled as the source does after the jobs before it, ordered by task name and normalised |
| `DistributeManager.DistributeManager.Finish` | src/DistributeManager.cs:278-303 | after the loop: the connections are freed, the token is checked once more, the results sorted and normalised; a failure sets the error message |
| `ExecuteManager.Copied` | src/ExecuteManager.cs:189 | File.Copy succeeds exactly when the source is there, the target's folder exists, overwriting is allowed or the target is absent, and the target is not the source itself; then the target holds the source's bytes, otherwise the disk is unchanged |
| `ExecuteManager.CopyFileRun` | src/ExecuteManager.cs:150-211 | resolved folders are never forgotten or changed, and a new one is only ever the settings' own lower-cased lib:// target |
| `ExecuteManager.CachedTarget` | src/ExecuteManager.cs:170-171 | a target resolved before is taken from the cache, so the resolver is not consulted again |
| `ExecuteManager.CopyPathsStops` | src/ExecuteManager.cs:182-210 | the catch lies outside the loop: after a failed copy no later path is copied |
| `ExecuteManager.CopyLoop` | src/ExecuteManager.cs:182-205 | the copy loop leaves the disk CopyPaths describes |
| `ExecuteManager.CreateOnlyKeepsTarget` | src/ExecuteManager.cs:198-200 | CREATEONLY onto an existing target file fails at the first path and leaves the disk as it was |
| `ExecuteManager.OverrideLastWins` | src/ExecuteManager.cs:187-191 | OVERRIDE of several paths to one target file leaves the last path's bytes there, with the folder created |
| `ExecuteManager.DeleteAllFirstOverrides` | src/ExecuteManager.cs:192-197 | DELETEALLFIRST, deleting then copying without overwrite, ends as OVERRIDE does |
| `ExecuteManager.Place` | src/ExecuteManager.cs:225-231 | outside on-demand mode the path is used as it is; in on-demand mode the report-named file is used, moved there only when absent, which needs the source and the folder |
| `ExecuteManager.OwnerId` | src/ExecuteManager.cs:242-253 | no owner asks nothing; an owner must match exactly one hub user, whose id is taken, else it throws |
| `ExecuteManager.ContentDataOf` | src/ExecuteManager.cs:262-267 | the request data is the file's bytes under its file name, and reading a missing file throws |
| `ExecuteManager.Store` | src/ExecuteManager.cs:255-294 | absent content is created with the next id, the name and the uploading user; existing content is updated in OVERRIDE mode and given back unchanged in CREATEONLY mode; reading a missing file throws |
| `ExecuteManager.UploadPath` | src/ExecuteManager.cs:238-324 | an owner that does not resolve throws; an owner with a user id never lets the loop go on; no owner never returns a task; the disk and the purged owners are untouched |
| `ExecuteManager.UploadPathCases` | src/ExecuteManager.cs:255-323 | a failing store throws; otherwise the store's record, or in on-demand mode a fresh lookup giving the link, ends the path as Owned says |
| `ExecuteManager.Owned` | src/ExecuteManager.cs:302-323 | the loop goes on exactly when there is no user id, and then nothing changes |
| `ExecuteManager.EffectiveMode` | src/ExecuteManager.cs:233-234 | an owner purged before forces CREATEONLY; otherwise the mode is kept |
| `ExecuteManager.UploadAt` | src/ExecuteManager.cs:224-349 | one path keeps its mode or falls back to CREATEONLY, and owners once purged stay recorded |
| `ExecuteManager.Dispatch` | src/ExecuteManager.cs:236-349 | the mode's branch for one path keeps its mode or falls back to CREATEONLY, and owners once purged stay recorded |
| `ExecuteManager.UploadFrom` | src/ExecuteManager.cs:222-351 | over the remaining paths the purged owners only grow |
| `ExecuteManager.PurgeOwner` | src/ExecuteManager.cs:332-340 | every record of the listing taken before the loop that the owner owns is deleted by its id, and nothing else changes |
| `ExecuteManager.PurgeOwnedKeeps` | src/ExecuteManager.cs:336-340 | a record survives the purge exactly when no record of the snapshot owned by the owner has its id |
| `ExecuteManager.PurgeOwnedMeaning` | src/ExecuteManager.cs:336-340 | with distinct ids the purge leaves exactly the records somebody else owns |
| `ExecuteManager.PurgeRecorded` | src/ExecuteManager.cs:325-345 | DELETEALLFIRST for an owner not yet purged records the owner, falls back to CREATEONLY and goes on |
| `ExecuteManager.PurgedOnce` | src/ExecuteManager.cs:233-234 | once an owner is recorded, DELETEALLFIRST uploads exactly as CREATEONLY does |
| `ExecuteManager.OwnerEndsUpload` | src/ExecuteManager.cs:302-323 | with an owner who resolves to one hub user, OVERRIDE and CREATEONLY stop after the first path |
| `ExecuteManager.OwnerEndsPath` | src/ExecuteManager.cs:302-323 | with such an owner a path never lets the loop go on |
| `ExecuteManager.ExecuteManager.constructor` | src/ExecuteManager.cs:36-41 | a new manager has purged no owner and resolved no folder, and the static connection keeps what it held |
| `ExecuteManager.ExecuteManager.UploadPathStep` | src/ExecuteManager.cs:238-324 | the OVERRIDE and CREATEONLY branch changes the hub and the link as UploadPath says |
| `ExecuteManager.ExecuteManager.StoredStep` | src/ExecuteManager.cs:295-323 | once the record is stored, the hub keeps it, the link comes from a fresh lookup in on-demand mode, and the record goes to the owner as Owned says |
| `ExecuteManager.ExecuteManager.OwnStep` | src/ExecuteManager.cs:302-323 | the owner change as Owned says |
| `ExecuteManager.ExecuteManager.UploadPathAt` | src/ExecuteManager.cs:224-349 | the body of the upload loop for one path as UploadAt says |
| `ExecuteManager.ExecuteManager.DispatchStep` | src/ExecuteManager.cs:233-349 | the mode's branch as Dispatch says |
| `ExecuteManager.ExecuteManager.PurgeAndRetry` | src/ExecuteManager.cs:325-345 | the purge, the owner recorded and all paths uploaded again in CREATEONLY mode |
| `ExecuteManager.ExecuteManager.UploadLoop` | src/ExecuteManager.cs:222-351 | the path loop as UploadFrom says, returning a task exactly when an owner change ended it |
| `ExecuteManager.ExecuteManager.UploadToHub` | src/ExecuteManager.cs:213-358 | the settings' first connection becomes the static one; hub, disk, purged owners and link change as UploadRun says, which uploads nothing when there is no connection or its credentials make no valid cookie; a task is returned exactly when an owner change ended the loop |
| `ExecuteManager.BadCookieUploadsNothing` | src/ExecuteManager.cs:216-221 | a connection with null credentials, or a key that is null, empty or holds '=', ';' or ',', throws at new Cookie and leaves the hub and the disk as they were |
| `ExecuteManager.CookieNames` | src/ExecuteManager.cs:220-221 | the Qlik session cookie's name is accepted; names with '=', a leading space or a leading '$' are refused |
| `ExecuteManager.ExecuteManager.SendMails` | src/ExecuteManager.cs:360-434 | the server receives the mails SendMailsRun composes, after those it had, with the body left unset for an HTML message |
| `ExecuteManager.ExecuteManager.CopyFile` | src/ExecuteManager.cs:150-211 | the settings' first connection becomes the static one; the folder cache and the disk change as CopyFileRun says; the link and the purged owners are untouched |
| `ExecuteManager.ExecuteManager.LookupTarget` | src/ExecuteManager.cs:168-178 | a cached lib folder is reused as is; otherwise it is resolved with the connection (none without one) and cached only when resolved |

## Left out

- Distribute.ReadType: Newtonsoft's string-to-enum conversion of the `type` member also accepts numeric strings ("2"), surrounding white space and comma lists. The model reads only a number or a name ignoring case, and throws on those other forms.
- FtpAction.ParseEncryptionMode: `Enum.Parse` also accepts comma lists such as "Implicit, Explicit". The model reads a trimmed single name (case-sensitive) or a signed number, and refuses comma lists.
- HubAction.HubAction.UploadToHub: the hub (`HubAction.Behaviour`, `HubAction.QlikHub`) answers every create, update, delete and owner-change request successfully. A failing hub request is not modelled.
- Distribute.HubStep: the owner-change task that `UploadToHub` returns is treated as completed. A faulted task is not modelled; in the code it aborts the run at `Task.WaitAll`. The tasks are also taken one after the other, with the later locations, not concurrently.
- MailAction.SendOne: the `UseCertificate` branch is not modelled. That branch looks up the certificate files and loads an `X509Certificate2`, and either step can throw. The `SmtpClient` constructor's throw on a negative port is not modelled either.
- Text.ToLower: only ASCII letters are mapped. `ToLowerInvariant` also maps other Unicode letters. This affects targets, hosts and thumbprints.
- Text.IsWhiteSpace: only the ASCII and Latin-1 white-space characters count. `Char.IsWhiteSpace` also accepts U+1680, U+2000 to U+200A, U+2028, U+2029, U+202F, U+205F and U+3000, so `Trim`, `TrimEnd` and `Boolean.Parse` strip less in the model.
- DistributeManager.ToBool: `Boolean.Parse` also strips '\0' and the other Unicode white space around the text. "true\0" and "true" followed by U+3000 are true in the code and throw in the model.
- DistributeManager.TypeOfName: the prefix tests use an ordinal prefix. The code's `string.StartsWith(string)` compares by the current culture and skips ignorable code points such as U+00AD, so "\u00ADmail" is a mail location in the code and no location type in the model.
- ExecuteManager.CopyFileRun: the "lib://" test of the target is an ordinal prefix, where the code's `StartsWith` is culture-sensitive, as for TypeOfName.
- FileSystemAction.ResolveLibPath: the "lib://" test of the path is an ordinal prefix, where the code's `StartsWith` is culture-sensitive, as for TypeOfName.
- ExecuteManager.CookieName: the name rule is that of .NET (Core). The .NET Framework's `Cookie` also refuses a space inside the name.
- Text.ToUpper: only ASCII letters are mapped. `ToUpperInvariant` also maps other Unicode letters. This affects states and content-name extensions.
- ResultNormalizer.SortByTaskName: task names are ordered ordinally, character by character. The code's `OrderBy` on strings uses the current culture's comparison.
- Json: numbers are integers only. Floating-point JSON values are not modelled.
- DistributeManager.Decoders: the typed settings deserialisers (`GetSettings<T>(location)`, `JsonConvert.DeserializeObject`) are parameters. The model does not define them. The type-only probe and the older path's `BaseDeliverySettings` reading are modelled in full.
- MailAction.Wrap32: only `SendDelay * 1000` wraps to 32 bits. Every other `int` of the code is an unbounded integer in the model.
- HubAction.HubAction.UploadToHub: the two versions in the code do not fit together. `DistributeManager` calls `UploadToHub(report, settings, connection)`, while the action's `UploadToHub(report, settings)` takes the connection and the session user from its settings. The model passes the session user and the connection as parameters.
- Messenger.Slack.SendMessage: the older Slack messenger calls `GetTextMessageFromResult`, which only the service's `BaseMessenger` defines. The model renders the text with the service's `ServiceMessenger.TextMessage`.
- MailAction.MailAction.constructor: `DistributeManager` builds the mail action from the job alone and appends to `MailSettings`. The action itself has a constructor that also takes a private-key path, and an `AddMailSettings(settings, report)` method. The model uses the action's own API, and the key path is a parameter of the run.
- Jobs.Disk: the disk is a map from path to bytes plus a set of folders. Paths are compared by their spelling, with no normalisation of case, `..` or repeated separators.
- DistributeManager.DistributeReport: a location's outcome is stated as empty, or as exactly its sink's results at that point (`DistributeLocation`), and a later active location of the same type returns an extension of an earlier one. What the sink's results contain is stated per call by `FileSystemAction.FileSystemAction.CopyFile`, `FtpAction.FtpAction.FtpUpload` and `HubAction.HubAction.UploadToHub`. It is not carried into the report trace, which would have to follow the world's state from report to report.
- DistributeManager.ReportStep: the same gap as DistributeReport. The sinks' results are tied to their position and type, not to the files, uploads and hub records behind them.
- DistributeManager.DistributeReports: the same gap as DistributeReport.
- DistributeManager.RunJob: the same gap as DistributeReport. The mails and the messages of a delivered job are tied in full (`MailPart`, `Messages`); the sinks' results only as DistributeReport says.
- DistributeManager.JobStep: the same gap as RunJob.
- DistributeManager.RunJobs: the same gap as RunJob.
- DistributeManager.JobsLoop: the same gap as RunJob.
- DistributeManager.DeliverJob: which messenger and which mail setting each location adds is stated per call by `DistributeManager.DistributeLocation`. The job's trace ties the cached mail settings and the created messengers to the locations only by their number, and to the results by what they produce.
- DistributeManager.DistributeManager.Run: logging, the JSON serialisation of the results and the `CancellationToken` itself are left out. A token is modelled by the check at which it is first seen canceled.
- ExecuteManager.ExecuteManager.SendMails: the SMTP client is a parameter (`LegacyMail.Smtp`), and so is the file system the attachments are read from.
- CertificateValidation: X.509 chains and the certificate's hash computation are parameters. `ServicePointManager`'s callback registration is the constructor's only effect on global state, and it is not modelled.
- The clock, the network (websockets, QRS, FTP, SMTP, HTTP posts), the file system and process-wide static state are parameters or objects of the model. They are never reached for real.

## Findings

| source | as written | input that shows it | evidently intended | confidence | as-written member | corrected member |
|---|---|---|---|---|---|---|
| src/Messenger/MicrosoftTeams.cs:60 | an undelivered Teams message gets the state "ERRROR", which the normaliser does not read as an error | one successful result of a task, then that task's Teams message whose post fails | the state "ERROR", as the Slack messenger (src/Messenger/Slack.cs:70) and the service's Teams messenger write it, so that the task's other results turn into errors | not executed | `Messenger.MisspeltStateEscapes` | `Messenger.IntendedStateForcesError` |
| src/ExecuteManager.cs:394-398 | a message containing "</html>" only sets `IsBodyHtml`; `Body` is never assigned, so the mail goes out empty | the mail message "<html></html>" | the HTML message is the body of the mail | not executed | `LegacyMail.HtmlBodyLost` | `LegacyMail.IntendedBody` |

The rest of the model follows the code as written:

- `Messenger.MicrosoftTeams.SendMessage` and `DistributeManager.MessengerEntry.Outcome` give an undelivered Teams message the state "ERRROR" (`Messenger.OldErrorState`).
- `LegacyMail.Compose` takes its body from `LegacyMail.Body`, so an HTML message goes out with no body.

The corrected definitions stand beside them with their properties proved; nothing else uses them.
