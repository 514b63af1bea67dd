/** The FTP sink of src/Actions/FtpAction.cs: the remote file names, the
    mode → remote-exists policy, the directory creation and the results. The
    FTP client library is not part of this model; the server is a map of
    remote files and a set of directories, and what the library does beyond
    that (connecting, a refused store, the reply to deleting a missing file)
    is given by the server's fixed behaviour. */
module FtpAction {
  import opened Wrappers
  import Text
  import Paths
  import Jobs
  import R = DistributeResults
  import BaseAction
  import S = ActionSettings
  import DS = DistributeSettings
  import FileSystemAction

  const NoFileNameMessage: string := "The report has no filename."
  const SuccessMessage: string := "FTP upload was executed successfully."
  const EmptyEnumMessage: string := "Must specify valid information for parsing in the string."

  function NoTargetMessage(reportName: string): string {
    "No target ftp path for report '" + reportName + "' found."
  }

  function UploadFailedMessage(remoteFile: string): string {
    "The FTP File '" + remoteFile + "' upload failed."
  }

  /** FtpEncryptionMode, with any other number it is given. */
  datatype EncryptionMode = NoEncryption | Implicit | Explicit | UndefinedEncryption(value: int)

  /** The member with a numeric value; a value no member has is kept. */
  function FromValue(n: int): EncryptionMode {
    if n == 0 then NoEncryption else if n == 1 then Implicit else if n == 2 then Explicit else UndefinedEncryption(n)
  }

  predicate AllDigits(s: string) {
    forall i :: 0 <= i < |s| ==> Text.IsDigit(s[i])
  }

  /** The value Enum.Parse reads from a number: decimal digits with an
      optional leading sign. */
  function EnumNumber(t: string): (r: Option<int>)
    ensures r.Some? ==> t != [] && (Text.IsDigit(t[0]) || t[0] == '+' || t[0] == '-')
  {
    if |t| > 1 && (t[0] == '+' || t[0] == '-') && AllDigits(t[1..]) then
      var n := Text.ParseNat(t[1..]);
      Some(if t[0] == '-' then -(n as int) else n)
    else if t != [] && AllDigits(t) then Some(Text.ParseNat(t))
    else None
  }

  /** Enum.Parse(typeof(FtpEncryptionMode), s) for a member name or a
      signed decimal number, surrounding white space ignored; a null
      setting is None. */
  function ParseEncryptionMode(s: Option<string>): (r: Result<EncryptionMode>)
    ensures s.None? ==> r == Success(NoEncryption)
    ensures s.Some? && Text.Trim(s.value) == "" ==> r == Failure(EmptyEnumMessage)
  {
    match s
    case None => Success(NoEncryption)
    case Some(v) =>
      var t := Text.Trim(v);
      if t == "" then Failure(EmptyEnumMessage)
      else if t == "None" then Success(NoEncryption)
      else if t == "Implicit" then Success(Implicit)
      else if t == "Explicit" then Success(Explicit)
      else match EnumNumber(t)
        case Some(n) => Success(FromValue(n))
        case None => Failure("Requested value '" + v + "' was not found.")
  }

  /** Each member's name parses to that member. */
  lemma ParseEncryptionModeName(name: string, m: EncryptionMode)
    requires (name, m) in {("None", NoEncryption), ("Implicit", Implicit), ("Explicit", Explicit)}
    ensures ParseEncryptionMode(Some(name)) == Success(m)
  {
    assert !Text.IsWhiteSpace(name[0]) && !Text.IsWhiteSpace(name[|name| - 1]);
    NoSurroundingSpace(name);
    if name == "None" {
      assert ParseEncryptionMode(Some(name)) == Success(NoEncryption);
    } else if name == "Implicit" {
      assert ParseEncryptionMode(Some(name)) == Success(Implicit);
    } else {
      assert ParseEncryptionMode(Some(name)) == Success(Explicit);
    }
  }

  /** The decimal text of a number reads back as that number. */
  lemma EnumNumberOfNat(n: nat)
    ensures EnumNumber(Text.NatToString(n)) == Some(n)
  {
    var t := Text.NatToString(n);
    Text.ParseNatToString(n);
    assert Text.IsDigit(t[0]);
  }

  /** A number given as text, with or without a sign, names the member
      with that value. */
  lemma ParseEncryptionModeNumber(n: nat, sign: string)
    requires sign in {"", "+", "-"}
    ensures ParseEncryptionMode(Some(sign + Text.NatToString(n)))
            == Success(FromValue(if sign == "-" then -(n as int) else n))
  {
    var t := sign + Text.NatToString(n);
    SignedNumberText(n, sign);
    NoSurroundingSpace(t);
  }

  /** The text of a signed number has no surrounding space, is no member
      name and reads back as the number. */
  lemma SignedNumberText(n: nat, sign: string)
    requires sign in {"", "+", "-"}
    ensures var t := sign + Text.NatToString(n);
      && t != [] && !Text.IsWhiteSpace(t[0]) && !Text.IsWhiteSpace(t[|t| - 1])
      && t != "None" && t != "Implicit" && t != "Explicit"
      && EnumNumber(t) == Some(if sign == "-" then -(n as int) else n)
  {
    var d := Text.NatToString(n);
    var t := sign + d;
    assert t[|t| - 1] == d[|d| - 1];
    assert Text.IsDigit(t[|t| - 1]) && !Text.IsWhiteSpace(t[|t| - 1]);
    assert t[0] == (if sign == "" then d[0] else sign[0]);
    assert !Text.IsWhiteSpace(t[0]);
    assert t != "None" && t != "Implicit" && t != "Explicit" by {
      assert t[0] != 'N' && t[0] != 'I' && t[0] != 'E';
    }
    if sign == "" {
      EnumNumberOfNat(n);
      assert t == d;
    } else {
      assert t[1..] == d;
      Text.ParseNatToString(n);
      assert EnumNumber(t) == Some(if sign == "-" then -(n as int) else n);
    }
  }

  lemma NoSurroundingSpace(t: string)
    requires t != [] && !Text.IsWhiteSpace(t[0]) && !Text.IsWhiteSpace(t[|t| - 1])
    ensures Text.TrimStart(t) == t && Text.TrimEnd(t) == t && Text.Trim(t) == t
  {
  }

  /** The remote file a report path is uploaded to. */
  function RemoteFile(targetPath: string, reportName: string, path: string, k: nat, many: bool): string {
    targetPath + "/" + BaseAction.NormalizeReportName(reportName)
      + (if many then "_" + Text.NatToString(k) else "") + Paths.GetExtension(path)
  }

  /** With several paths the remote files of different paths differ. */
  lemma RemoteFilesDistinct(targetPath: string, reportName: string, p1: string, p2: string, k1: nat, k2: nat)
    requires k1 != k2
    ensures RemoteFile(targetPath, reportName, p1, k1, true) != RemoteFile(targetPath, reportName, p2, k2, true)
  {
    var pre := targetPath + "/" + BaseAction.NormalizeReportName(reportName);
    var d1, d2 := Text.NatToString(k1), Text.NatToString(k2);
    var e1, e2 := Paths.GetExtension(p1), Paths.GetExtension(p2);
    var x1, x2 := RemoteFile(targetPath, reportName, p1, k1, true), RemoteFile(targetPath, reportName, p2, k2, true);
    assert x1 == pre + ("_" + d1) + e1 && x2 == pre + ("_" + d2) + e2;
    if x1 == x2 {
      FileSystemAction.NumberedNameInjective(pre, d1, e1, d2, e2);
      Text.NatToStringInjective(k1, k2);
    }
  }

  /** The remote side: file contents by path and the directories. */
  datatype Remote = Remote(files: map<string, seq<Jobs.byte>>, dirs: set<string>)

  /** What the client library does on this server beyond the map: the
      message Connect fails with, if it fails, the remote paths whose store
      reports a failed status, and the reply to deleting a missing file. */
  datatype Behaviour = Behaviour(connectFailure: Option<string>, refused: set<string>, missingFileReply: string)

  /** An FTP server. */
  class FtpServer {
    var remote: Remote
    const behaviour: Behaviour

    constructor(remote: Remote, behaviour: Behaviour)
      ensures this.remote == remote && this.behaviour == behaviour
    {
      this.remote := remote;
      this.behaviour := behaviour;
    }
  }

  /** The fixed inputs of the upload loop. */
  datatype Upload = Upload(report: Jobs.Report, mode: DS.DistributeMode, targetPath: string, host: string,
                           behaviour: Behaviour, task: string, state: string)
  {
    /** The remote file of every path of the report, in order. */
    function Targets(): (t: seq<string>)
      ensures |t| == |report.paths|
      ensures forall j :: 0 <= j < |t| ==> t[j] == Target(j)
    {
      seq(|report.paths|, j requires 0 <= j < |report.paths| => Target(j))
    }

    /** The remote file of the path at index `j`, numbered from 1. */
    function Target(j: nat): string
      requires j < |report.paths|
    {
      RemoteFile(targetPath, report.name, report.paths[j], j + 1, |report.paths| > 1)
    }

    /** The result of a path that was uploaded (or skipped). */
    function Succeeded(remoteFile: string): R.BaseResult {
      R.BaseResult(R.Ftp("ftp://" + host + remoteFile), task, true, SuccessMessage, report.name, state)
    }
  }

  /** The error result of the early return and of the catch block. */
  function Failed(task: string, reportName: string, message: string): R.BaseResult {
    R.BaseResult(R.Ftp(""), task, false, message, reportName, "ERROR")
  }

  datatype Step = Step(remote: Remote, result: Result<R.BaseResult>)

  /** The remote-exists policy of a mode, after its own action: Skip (false)
      or Overwrite (true). DELETEALLFIRST deletes the remote file first,
      which fails when there is none. */
  function ApplyMode(u: Upload, remote: Remote, remoteFile: string): Result<(Remote, bool)> {
    match u.mode
    case CREATEONLY => Success((remote, false))
    case DELETEALLFIRST =>
      if remoteFile in remote.files then Success((remote.(files := remote.files - {remoteFile}), false))
      else Failure(u.behaviour.missingFileReply)
    case OVERRIDE => Success((remote, true))
    case UndefinedMode(_) => Failure("Unkown distribute mode " + u.mode.Name())
  }

  /** One path: the mode, the directory, then the upload of the local file. */
  function UploadOne(u: Upload, remote: Remote, disk: Jobs.Disk, remoteFile: string, localPath: string): (s: Step)
    ensures s.result.Success? ==> s.result.value == u.Succeeded(remoteFile)
  {
    match ApplyMode(u, remote, remoteFile)
    case Failure(e) => Step(remote, Failure(e))
    case Success((r, overwrite)) =>
      var r2 := if u.targetPath in r.dirs || u.targetPath in r.files then r else r.(dirs := r.dirs + {u.targetPath});
      if localPath !in disk.files then Step(r2, Failure(Jobs.FileNotFound(localPath)))
      else if remoteFile in r2.files && !overwrite then Step(r2, Success(u.Succeeded(remoteFile)))
      else if remoteFile in u.behaviour.refused then Step(r2, Failure(UploadFailedMessage(remoteFile)))
      else Step(r2.(files := r2.files[remoteFile := disk.files[localPath]]), Success(u.Succeeded(remoteFile)))
  }

  /** The upload loop after its first `n` paths. */
  datatype Progress = Progress(remote: Remote, results: seq<R.BaseResult>, failure: Option<string>)

  function UploadPaths(u: Upload, targets: seq<string>, disk: Jobs.Disk, remote: Remote, n: nat): Progress
    requires n <= |targets| && n <= |u.report.paths|
  {
    if n == 0 then Progress(remote, [], None)
    else
      var p := UploadPaths(u, targets, disk, remote, n - 1);
      if p.failure.Some? then p
      else
        var s := UploadOne(u, p.remote, disk, targets[n - 1], u.report.paths[n - 1]);
        match s.result
        case Success(r) => Progress(s.remote, p.results + [r], None)
        case Failure(e) => Progress(s.remote, p.results, Some(e))
  }

  /** The checks before the loop: the trimmed remote path, or the message
      of the error result the call ends with. */
  function Prepare(report: Jobs.Report, settings: S.FTPSettings, behaviour: Behaviour): Result<string> {
    if report.name == "" then Failure(NoFileNameMessage)
    else if settings.remotePath.None? then Failure(NoTargetMessage(report.name))
    else
      match ParseEncryptionMode(settings.encryptionMode)
      case Failure(e) => Failure(e)
      case Success(_) =>
        match behaviour.connectFailure
        case Some(e) => Failure(e)
        case None => Success(Text.Trim(settings.remotePath.value))
  }

  /** The catch block: a failure adds one error result. */
  function Conclude(p: Progress, task: string, reportName: string): Progress {
    match p.failure
    case None => p
    case Some(e) => p.(results := p.results + [Failed(task, reportName, e)])
  }

  /** What one FtpUpload call does to the server, the results it adds and
      the message the job is failed with, if any. */
  function UploadOutcome(report: Jobs.Report, settings: S.FTPSettings, behaviour: Behaviour, remote: Remote,
                         disk: Jobs.Disk, task: string, status: Jobs.TaskStatus): Progress
  {
    match Prepare(report, settings, behaviour)
    case Failure(e) => Conclude(Progress(remote, [], Some(e)), task, report.name)
    case Success(targetPath) =>
      var u := Upload(report, settings.mode, targetPath, DS.Str(settings.host), behaviour, task, Text.ToUpper(status.Name()));
      Conclude(UploadPaths(u, u.Targets(), disk, remote, |report.paths|), task, report.name)
  }

  lemma {:induction false} UploadPathsStops(u: Upload, targets: seq<string>, disk: Jobs.Disk, remote: Remote, i: nat, n: nat)
    requires i <= n <= |targets| && n <= |u.report.paths|
    requires UploadPaths(u, targets, disk, remote, i).failure.Some?
    ensures UploadPaths(u, targets, disk, remote, n) == UploadPaths(u, targets, disk, remote, i)
    decreases n
  {
    if n > i {
      UploadPathsStops(u, targets, disk, remote, i, n - 1);
    }
  }

  lemma {:induction false} UploadPathsCount(u: Upload, targets: seq<string>, disk: Jobs.Disk, remote: Remote, n: nat)
    requires n <= |targets| && n <= |u.report.paths|
    ensures var p := UploadPaths(u, targets, disk, remote, n);
      (p.failure.None? ==> |p.results| == n) && (p.failure.Some? ==> |p.results| < n)
    decreases n
  {
    if n > 0 {
      UploadPathsCount(u, targets, disk, remote, n - 1);
    }
  }

  lemma {:induction false} UploadPathsResults(u: Upload, targets: seq<string>, disk: Jobs.Disk, remote: Remote, n: nat)
    requires n <= |targets| && n <= |u.report.paths|
    ensures var p := UploadPaths(u, targets, disk, remote, n);
      |p.results| <= n && forall j :: 0 <= j < |p.results| ==> p.results[j] == u.Succeeded(targets[j])
    decreases n
  {
    if n > 0 {
      UploadPathsResults(u, targets, disk, remote, n - 1);
      UploadPathsCount(u, targets, disk, remote, n - 1);
      UploadPathsStep(u, targets, disk, remote, n);
      var p := UploadPaths(u, targets, disk, remote, n - 1);
      if p.failure.None? {
        StepKeepsSuccesses(u, p.results, UploadPaths(u, targets, disk, remote, n).results, targets, n);
      }
    }
  }

  /** A turn of the loop on path `n` that adds its success, or nothing,
      keeps the results those of the first paths' remote files. */
  lemma StepKeepsSuccesses(u: Upload, before: seq<R.BaseResult>, after: seq<R.BaseResult>, targets: seq<string>, n: nat)
    requires 0 < n <= |targets| && |before| == n - 1
    requires forall j :: 0 <= j < |before| ==> before[j] == u.Succeeded(targets[j])
    requires after == before + [u.Succeeded(targets[n - 1])] || after == before
    ensures |after| <= n && forall j :: 0 <= j < |after| ==> after[j] == u.Succeeded(targets[j])
  {
    forall j | 0 <= j < |after|
      ensures after[j] == u.Succeeded(targets[j])
    {
      if j < |before| {
        assert after[j] == before[j];
      }
    }
  }

  /** One more path either adds its success, or ends the loop with no
      new result; after a failure nothing changes. */
  lemma UploadPathsStep(u: Upload, targets: seq<string>, disk: Jobs.Disk, remote: Remote, n: nat)
    requires 0 < n <= |targets| && n <= |u.report.paths|
    ensures var p := UploadPaths(u, targets, disk, remote, n - 1);
      var q := UploadPaths(u, targets, disk, remote, n);
      && (p.failure.Some? ==> q == p)
      && (p.failure.None? ==>
            (q.failure.None? && q.results == p.results + [u.Succeeded(targets[n - 1])])
            || (q.failure.Some? && q.results == p.results))
  {
  }

  lemma ConcludedUpload(u: Upload, targets: seq<string>, disk: Jobs.Disk, remote: Remote)
    requires |targets| == |u.report.paths|
    ensures var o := Conclude(UploadPaths(u, targets, disk, remote, |targets|), u.task, u.report.name);
      var uploaded := if o.failure.Some? then |o.results| - 1 else |o.results|;
      && 0 <= uploaded <= |targets|
      && (o.failure.None? ==> uploaded == |targets|)
      && (o.failure.Some? ==> uploaded < |targets| && o.results[uploaded] == Failed(u.task, u.report.name, o.failure.value))
      && forall j :: 0 <= j < uploaded ==> o.results[j] == u.Succeeded(targets[j])
  {
    UploadPathsCount(u, targets, disk, remote, |targets|);
    UploadPathsResults(u, targets, disk, remote, |targets|);
  }

  /** The results of an FtpUpload call: a failed check gives one error
      result and leaves the server alone; otherwise one success per
      uploaded path with its "ftp://" path and, after a failure, one error
      result and nothing for the later paths. */
  lemma UploadOutcomeResults(report: Jobs.Report, settings: S.FTPSettings, behaviour: Behaviour, remote: Remote,
                             disk: Jobs.Disk, task: string, status: Jobs.TaskStatus)
    ensures var o := UploadOutcome(report, settings, behaviour, remote, disk, task, status);
      match Prepare(report, settings, behaviour)
      case Failure(e) => o.remote == remote && o.results == [Failed(task, report.name, e)] && o.failure == Some(e)
      case Success(targetPath) =>
        var uploaded := if o.failure.Some? then |o.results| - 1 else |o.results|;
        && 0 <= uploaded <= |report.paths|
        && (o.failure.None? ==> uploaded == |report.paths|)
        && (o.failure.Some? ==> uploaded < |report.paths| && o.results[uploaded] == Failed(task, report.name, o.failure.value))
        && forall j :: 0 <= j < uploaded ==>
             o.results[j] == R.BaseResult(
               R.Ftp("ftp://" + DS.Str(settings.host) + RemoteFile(targetPath, report.name, report.paths[j], j + 1, |report.paths| > 1)),
               task, true, SuccessMessage, report.name, Text.ToUpper(status.Name()))
  {
    match Prepare(report, settings, behaviour)
    case Failure(e) =>
    case Success(targetPath) =>
      var u := Upload(report, settings.mode, targetPath, DS.Str(settings.host), behaviour, task, Text.ToUpper(status.Name()));
      ConcludedUpload(u, u.Targets(), disk, remote);
  }

  /** An empty name, a missing remote path, an unparsable encryption mode
      and a failed connection are the checks, in that order. */
  lemma PrepareChecks(report: Jobs.Report, settings: S.FTPSettings, behaviour: Behaviour)
    ensures report.name == "" ==> Prepare(report, settings, behaviour) == Failure(NoFileNameMessage)
    ensures report.name != "" && settings.remotePath.None? ==>
              Prepare(report, settings, behaviour) == Failure(NoTargetMessage(report.name))
    ensures Prepare(report, settings, behaviour).Success? <==>
              report.name != "" && settings.remotePath.Some?
              && ParseEncryptionMode(settings.encryptionMode).Success? && behaviour.connectFailure.None?
  {
  }

  /** The mode → remote-exists policy: CREATEONLY skips an existing remote
      file and leaves it as it was; OVERRIDE replaces it with the local
      bytes; DELETEALLFIRST fails on a missing remote file and otherwise
      stores the local bytes; an undefined mode fails and changes nothing.
      A path that got past its mode has the remote directory, a failed
      store leaves the files as its mode left them, and no other remote
      file changes. */
  lemma ModePolicy(u: Upload, remote: Remote, disk: Jobs.Disk, f: string, local: string)
    ensures var s := UploadOne(u, remote, disk, f, local);
      var stored := local in disk.files && f !in u.behaviour.refused;
      && (u.mode == DS.CREATEONLY && f in remote.files ==>
            s.remote.files == remote.files && (local in disk.files ==> s.result == Success(u.Succeeded(f))))
      && (u.mode == DS.CREATEONLY && f !in remote.files && stored ==>
            s.result.Success? && s.remote.files == remote.files[f := disk.files[local]])
      && (u.mode == DS.OVERRIDE && stored ==>
            s.result.Success? && s.remote.files == remote.files[f := disk.files[local]])
      && (u.mode == DS.DELETEALLFIRST && f !in remote.files ==>
            s == Step(remote, Failure(u.behaviour.missingFileReply)))
      && (u.mode == DS.DELETEALLFIRST && f in remote.files && stored ==>
            s.result.Success? && s.remote.files == remote.files[f := disk.files[local]])
      && (u.mode.UndefinedMode? ==> s.remote == remote && s.result.Failure?)
      && (ApplyMode(u, remote, f).Success? ==> u.targetPath in s.remote.dirs || u.targetPath in s.remote.files)
      && (s.result.Success? ==> local in disk.files)
      && (s.result.Failure? ==> s.remote.files == remote.files - (if u.mode == DS.DELETEALLFIRST then {f} else {}))
      && (forall g :: g != f ==> (g in s.remote.files <==> g in remote.files))
      && (forall g :: g != f && g in remote.files ==> s.remote.files[g] == remote.files[g])
  {
    var s := UploadOne(u, remote, disk, f, local);
    if u.mode == DS.DELETEALLFIRST && f in remote.files && local in disk.files {
      assert (remote.files - {f})[f := disk.files[local]] == remote.files[f := disk.files[local]];
    }
    if u.mode != DS.DELETEALLFIRST {
      assert remote.files - {} == remote.files;
    }
  }

  /** In CREATEONLY mode no remote file that existed is changed. */
  lemma {:induction false} CreateOnlyKeepsRemoteFiles(u: Upload, targets: seq<string>, disk: Jobs.Disk, remote: Remote, n: nat)
    requires u.mode == DS.CREATEONLY && n <= |targets| && n <= |u.report.paths|
    ensures var r := UploadPaths(u, targets, disk, remote, n).remote;
      forall f :: f in remote.files ==> f in r.files && r.files[f] == remote.files[f]
    decreases n
  {
    if n > 0 {
      CreateOnlyKeepsRemoteFiles(u, targets, disk, remote, n - 1);
      var p := UploadPaths(u, targets, disk, remote, n - 1);
      if p.failure.None? {
        ModePolicy(u, p.remote, disk, targets[n - 1], u.report.paths[n - 1]);
      }
    }
  }

  /** The FTP sink of one job. */
  class FtpAction {
    const jobResult: Jobs.JobResult
    var results: seq<R.BaseResult>

    constructor(jobResult: Jobs.JobResult)
      ensures this.jobResult == jobResult && results == []
    {
      this.jobResult := jobResult;
      results := [];
    }

    /** Uploads the report's local files to the server. */
    method FtpUpload(report: Jobs.Report, settings: S.FTPSettings, server: FtpServer, fs: Jobs.FileSystem)
      modifies this, jobResult, server
      ensures var o := UploadOutcome(report, settings, server.behaviour, old(server.remote), fs.disk,
                                     old(jobResult.taskName), old(jobResult.status));
        && server.remote == o.remote
        && results == old(results) + o.results
        && (o.failure.Some? ==> jobResult.status == Jobs.ERROR && jobResult.exception == o.failure)
        && (o.failure.None? ==> jobResult.status == old(jobResult.status) && jobResult.exception == old(jobResult.exception))
      ensures jobResult.taskName == old(jobResult.taskName)
    {
      var task := jobResult.taskName;
      var prepared := CheckUpload(report, settings, server);
      ghost var p: Progress;
      var failure: Option<string>;
      if prepared.Failure? {
        failure := Some(prepared.error);
        p := Progress(server.remote, [], failure);
      } else {
        var u := Upload(report, settings.mode, prepared.value, DS.Str(settings.host), server.behaviour, task,
                        BaseAction.GetFormatedState(jobResult));
        ghost var results0 := results;
        failure := UploadPathsLoop(u, u.Targets(), fs, server);
        p := UploadPaths(u, u.Targets(), fs.disk, old(server.remote), |report.paths|);
        assert results == results0 + p.results;
      }
      assert UploadOutcome(report, settings, server.behaviour, old(server.remote), fs.disk, task, old(jobResult.status))
          == Conclude(p, task, report.name);
      if failure.Some? {
        jobResult.Fail(failure.value);
        results := results + [Failed(task, report.name, failure.value)];
      }
    }

    /** The checks before the loop, in the order the action makes them. */
    method CheckUpload(report: Jobs.Report, settings: S.FTPSettings, server: FtpServer) returns (prepared: Result<string>)
      ensures prepared == Prepare(report, settings, server.behaviour)
    {
      if report.name == "" {
        prepared := Failure(NoFileNameMessage);
      } else if settings.remotePath.None? {
        prepared := Failure(NoTargetMessage(report.name));
      } else {
        var encryption := ParseEncryptionMode(settings.encryptionMode);
        if encryption.Failure? {
          prepared := Failure(encryption.error);
        } else if server.behaviour.connectFailure.Some? {
          prepared := Failure(server.behaviour.connectFailure.value);
        } else {
          prepared := Success(Text.Trim(settings.remotePath.value));
        }
      }
    }

    /** The loop over the report's paths, up to the first failure. */
    method UploadPathsLoop(u: Upload, targets: seq<string>, fs: Jobs.FileSystem, server: FtpServer)
      returns (failure: Option<string>)
      requires |targets| == |u.report.paths|
      modifies this`results, server
      ensures var p := UploadPaths(u, targets, fs.disk, old(server.remote), |targets|);
        server.remote == p.remote && results == old(results) + p.results && failure == p.failure
    {
      failure := None;
      var i := 0;
      while i < |targets| && failure.None?
        invariant 0 <= i <= |targets|
        invariant var p := UploadPaths(u, targets, fs.disk, old(server.remote), i);
          server.remote == p.remote && results == old(results) + p.results && failure == p.failure
      {
        var s := UploadOne(u, server.remote, fs.disk, targets[i], u.report.paths[i]);
        server.remote := s.remote;
        if s.result.Success? {
          results := results + [s.result.value];
        } else {
          failure := Some(s.result.error);
        }
        i := i + 1;
      }
      if failure.Some? {
        UploadPathsStops(u, targets, fs.disk, old(server.remote), i, |targets|);
      }
    }
  }
}
