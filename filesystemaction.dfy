/** The file sink of src/Actions/FileSystemAction.cs: resolving a
    "lib://" target through the Qlik data connections, naming the target
    files, the CREATEONLY / OVERRIDE / DELETEALLFIRST rules, and turning
    failures into results. */
module FileSystemAction {
  import opened Wrappers
  import Text
  import Paths
  import Jobs
  import R = DistributeResults
  import BaseAction
  import S = ActionSettings
  import DS = DistributeSettings

  const LibPrefix: string := "lib://"
  const NoConnectionMessage: string := "Could not create a connection to Qlik. (FILE)"
  const NoDataConnectionsMessage: string := "No data connections receive from qlik."
  const EmptyNameMessage: string := "The report filename is empty."
  const SuccessMessage: string := "Report was successful created."

  function NoTargetMessage(reportName: string): string {
    "No target file path for report '" + reportName + "' found."
  }

  function NoNamedConnectionMessage(name: string): string {
    "No data connection with name '" + name + "' found."
  }

  function NotLibMessage(target: string): string {
    "Target value '" + target + "' is not a 'lib://' connection."
  }

  /** The first data connection called `name`. */
  function FindDataConnection(cs: seq<Jobs.DataConnection>, name: string): (r: Option<Jobs.DataConnection>)
    ensures r.Some? ==> r.value in cs && r.value.name == name
    ensures r.None? ==> forall k :: 0 <= k < |cs| ==> cs[k].name != name
  {
    if cs == [] then None
    else if cs[0].name == name then Some(cs[0])
    else FindDataConnection(cs[1..], name)
  }

  /** The '/'-separated segments of a path with '\' read as '/'. */
  function Segments(path: string): seq<string> {
    Text.SplitOn(Text.ReplaceChar(path, '\\', '/'), {'/'})
  }

  /** A "lib://" path splits into "lib:", "" and the segments of the rest. */
  lemma LibSegments(tail: string)
    ensures Segments(LibPrefix + tail) == ["lib:", ""] + Segments(tail)
  {
    var p := LibPrefix + tail;
    var rp := Text.ReplaceChar(p, '\\', '/');
    var rt := Text.ReplaceChar(tail, '\\', '/');
    assert rp == "lib:" + ['/'] + ("" + ['/'] + rt);
    Text.SplitOnPiece("lib:", '/', "" + ['/'] + rt, {'/'});
    Text.SplitOnPiece("", '/', rt, {'/'});
  }

  /** ResolveLibPath: a "lib://" path names a data connection in its third
      segment; the segments after it are joined under that connection's
      path. Any other path is returned as it is. */
  function ResolveLibPath(path: string, socketConnection: Jobs.Connection?): (r: Result<string>)
    ensures !(LibPrefix <= path) ==> r == Success(path)
    ensures LibPrefix <= path && socketConnection == null ==> r == Failure(NoConnectionMessage)
    ensures LibPrefix <= path && socketConnection != null && socketConnection.dataConnections.None? ==>
              r == Failure(NoDataConnectionsMessage)
  {
    if !(LibPrefix <= path) then Success(path)
    else if socketConnection == null then Failure(NoConnectionMessage)
    else
      var segments := Segments(path);
      LibSegments(path[|LibPrefix|..]);
      assert path == LibPrefix + path[|LibPrefix|..];
      var name := segments[2];
      match socketConnection.dataConnections
      case None => Failure(NoDataConnectionsMessage)
      case Some(cs) =>
        match FindDataConnection(cs, name)
        case None => Failure(NoNamedConnectionMessage(name))
        case Some(lib) => Success(Paths.Combine(lib.connectionString, Text.Join("/", segments[3..])))
  }

  /** For "lib://NAME/REST" the connection called NAME decides: its path
      joined with REST ('\' read as '/'), or an error naming NAME. */
  lemma ResolveLibPathNamed(name: string, rest: string, socketConnection: Jobs.Connection)
    requires forall i :: 0 <= i < |name| ==> name[i] != '/' && name[i] != '\\'
    requires socketConnection.dataConnections.Some?
    ensures var r := ResolveLibPath(LibPrefix + name + "/" + rest, socketConnection);
      match FindDataConnection(socketConnection.dataConnections.value, name)
      case None => r == Failure(NoNamedConnectionMessage(name))
      case Some(lib) => r == Success(Paths.Combine(lib.connectionString, Text.ReplaceChar(rest, '\\', '/')))
  {
    var path := LibPrefix + name + "/" + rest;
    NamedSegments(name, rest);
    assert LibPrefix <= path;
    ResolveLibPathUnfold(path, socketConnection, name, Text.ReplaceChar(rest, '\\', '/'));
  }

  lemma ReplaceInTail(name: string, rest: string)
    requires forall i :: 0 <= i < |name| ==> name[i] != '\\'
    ensures Text.ReplaceChar(name + "/" + rest, '\\', '/') == name + "/" + Text.ReplaceChar(rest, '\\', '/')
  {
    Text.ReplaceCharConcat(name + "/", rest, '\\', '/');
    Text.ReplaceCharConcat(name, "/", '\\', '/');
    var rs := Text.ReplaceChar("/", '\\', '/');
    assert rs[0] == '/';
    assert rs == "/";
    var rn := Text.ReplaceChar(name, '\\', '/');
    assert forall i :: 0 <= i < |name| ==> rn[i] == name[i];
    assert rn == name;
  }

  lemma NamedSegments(name: string, rest: string)
    requires forall i :: 0 <= i < |name| ==> name[i] != '/' && name[i] != '\\'
    ensures var segments := Segments(LibPrefix + name + "/" + rest);
      |segments| >= 3 && segments[2] == name && Text.Join("/", segments[3..]) == Text.ReplaceChar(rest, '\\', '/')
  {
    var tail := name + "/" + rest;
    var path := LibPrefix + name + "/" + rest;
    assert path == LibPrefix + tail;
    var rr := Text.ReplaceChar(rest, '\\', '/');
    ReplaceInTail(name, rest);
    var segs := Segments(tail);
    assert segs == [name] + Text.SplitOn(rr, {'/'}) by {
      assert name + "/" + rr == name + ['/'] + rr;
      Text.SplitOnPiece(name, '/', rr, {'/'});
    }
    LibSegments(tail);
    assert Segments(path)[2] == name && Segments(path)[3..] == segs[1..];
    Text.JoinSplitOnChar(rr, '/');
  }

  lemma ResolveLibPathUnfold(path: string, socketConnection: Jobs.Connection, name: string, joined: string)
    requires LibPrefix <= path && socketConnection.dataConnections.Some?
    requires var segments := Segments(path);
      |segments| >= 3 && segments[2] == name && Text.Join("/", segments[3..]) == joined
    ensures ResolveLibPath(path, socketConnection) ==
        match FindDataConnection(socketConnection.dataConnections.value, name)
        case None => Failure(NoNamedConnectionMessage(name))
        case Some(lib) => Success(Paths.Combine(lib.connectionString, joined))
  {
    LibSegments(path[|LibPrefix|..]);
    assert path == LibPrefix + path[|LibPrefix|..];
  }

  /** The file a report path is copied to: the cleaned report name, a 1-based
      number when the report has several paths, and the path's extension. */
  function TargetFile(targetPath: string, reportName: string, path: string, k: nat, many: bool): string {
    Paths.Combine(targetPath, BaseAction.NormalizeReportName(reportName)
                  + (if many then "_" + Text.NatToString(k) else "") + Paths.GetExtension(path))
  }

  /** The fixed inputs of the copy loop: the report, the mode, the resolved
      target directory, the task name and the state label of its results. */
  datatype Copy = Copy(report: Jobs.Report, mode: DS.DistributeMode, targetPath: string, task: string, state: string)
  {
    /** The target file of every path of the report, in order. */
    function Targets(): (t: seq<string>)
      ensures |t| == |report.paths|
      ensures forall j :: 0 <= j < |t| ==> t[j] == Target(j)
    {
      seq(|report.paths|, j requires 0 <= j < |report.paths| => Target(j))
    }

    /** The target file of the path at index `j`. */
    function Target(j: nat): string
      requires j < |report.paths|
    {
      TargetFile(targetPath, report.name, report.paths[j], j + 1, |report.paths| > 1)
    }

    /** The rendered file of every path of the report, in order. */
    function Data(): (d: seq<Option<Jobs.FileData>>)
      ensures |d| == |report.paths|
    {
      seq(|report.paths|, j requires 0 <= j < |report.paths| =>
        Jobs.FirstFileData(report.data, Paths.GetFileName(report.paths[j])))
    }

    /** The result of a path that was copied. */
    function Succeeded(targetFile: string): R.BaseResult {
      R.BaseResult(R.File(targetFile), task, true, SuccessMessage, report.name, state)
    }
  }

  /** The error result of the early returns and of the catch block. */
  function Failed(task: string, reportName: string, message: string): R.BaseResult {
    R.BaseResult(R.File(""), task, false, message, reportName, "ERROR")
  }

  /** One path's copy: the disk afterwards (a failing step may already have
      changed it) and the result or the exception. */
  datatype Step = Step(disk: Jobs.Disk, result: Result<R.BaseResult>)

  /** File.WriteAllBytes(targetFile, data): the folder of the target
      file must exist. */
  function WriteAllBytes(disk: Jobs.Disk, targetFile: string, data: seq<Jobs.byte>, ok: R.BaseResult): (s: Step)
    ensures s.result.Success? <==> disk.HasFolderOf(targetFile)
  {
    if disk.HasFolderOf(targetFile) then Step(disk.Write(targetFile, data), Success(ok))
    else Step(disk, Failure(Jobs.PathNotFound(targetFile)))
  }

  /** Copies the rendered file of `path` to `targetFile` under the mode. */
  function CopyOne(c: Copy, disk: Jobs.Disk, targetFile: string, fileData: Option<Jobs.FileData>): (s: Step)
    ensures c.mode == DS.CREATEONLY ==> forall f :: f in disk.files ==> f in s.disk.files && s.disk.files[f] == disk.files[f]
    ensures s.result.Success? ==> s.result.value == c.Succeeded(targetFile)
  {
    var ok := c.Succeeded(targetFile);
    match c.mode
    case OVERRIDE =>
      var d := disk.CreateDirectory(c.targetPath);
      if fileData.None? then Step(d, Failure(NullReferenceMessage))
      else WriteAllBytes(d, targetFile, fileData.value.data, ok)
    case DELETEALLFIRST =>
      var d := (if targetFile in disk.files then disk.Delete(targetFile) else disk).CreateDirectory(c.targetPath);
      if fileData.None? then Step(d, Failure(NullReferenceMessage))
      else WriteAllBytes(d, targetFile, fileData.value.data, ok)
    case CREATEONLY =>
      if targetFile in disk.files then Step(disk, Failure("The file '" + targetFile + "' does not exist."))
      else if fileData.None? then Step(disk, Failure(NullReferenceMessage))
      else WriteAllBytes(disk, targetFile, fileData.value.data, ok)
    case UndefinedMode(_) =>
      Step(disk, Failure("Unkown distribute mode " + c.mode.Name()))
  }

  /** The copy loop after its first `n` paths: the disk, the results added
      and the exception that ended it, if any. */
  datatype Progress = Progress(disk: Jobs.Disk, results: seq<R.BaseResult>, failure: Option<string>)

  function CopyPaths(c: Copy, targets: seq<string>, data: seq<Option<Jobs.FileData>>, disk: Jobs.Disk, n: nat): Progress
    requires n <= |targets| && n <= |data|
  {
    if n == 0 then Progress(disk, [], None)
    else
      var p := CopyPaths(c, targets, data, disk, n - 1);
      if p.failure.Some? then p
      else Advance(c, p, targets[n - 1], data[n - 1])
  }

  /** One turn of the copy loop: the path's success is appended, or its
      exception ends the loop with no result added. */
  function Advance(c: Copy, p: Progress, targetFile: string, fileData: Option<Jobs.FileData>): (q: Progress)
    ensures q.failure.None? ==> q.results == p.results + [c.Succeeded(targetFile)]
    ensures q.failure.Some? ==> q.results == p.results
  {
    var s := CopyOne(c, p.disk, targetFile, fileData);
    match s.result
    case Success(r) => Progress(s.disk, p.results + [r], None)
    case Failure(e) => Progress(s.disk, p.results, Some(e))
  }

  /** The checks before the copy loop: the resolved target directory, or
      the message of the error result the call ends with. */
  function Prepare(report: Jobs.Report, settings: S.FileSettings, socketConnection: Jobs.Connection?,
                   cache: map<string, string>): Result<string>
  {
    if report.name == "" then Failure(EmptyNameMessage)
    else if settings.target.None? then Failure(NoTargetMessage(report.name))
    else
      var target := Text.Trim(settings.target.value);
      if !(LibPrefix <= Text.ToLower(target)) && socketConnection != null then Failure(NotLibMessage(target))
      else if target in cache then Success(cache[target])
      else ResolveLibPath(target, socketConnection)
  }

  /** What one CopyFile call does: the disk afterwards, the results it adds
      and the message the job is failed with, if any. */
  function CopyOutcome(report: Jobs.Report, settings: S.FileSettings, socketConnection: Jobs.Connection?,
                       cache: map<string, string>, disk: Jobs.Disk, task: string, status: Jobs.TaskStatus): Progress
  {
    match Prepare(report, settings, socketConnection, cache)
    case Failure(e) => Conclude(Progress(disk, [], Some(e)), task, report.name)
    case Success(targetPath) =>
      var c := Copy(report, settings.mode, targetPath, task, Text.ToUpper(status.Name()));
      Conclude(CopyPaths(c, c.Targets(), c.Data(), disk, |report.paths|), task, report.name)
  }

  /** The catch block: a failure adds one error result. */
  function Conclude(p: Progress, task: string, reportName: string): Progress {
    match p.failure
    case None => p
    case Some(e) => p.(results := p.results + [Failed(task, reportName, e)])
  }

  /** The results of a CopyFile call: a failed check gives one error
      result and leaves the disk alone; otherwise one success per copied
      path, carrying its target file and the job's upper-cased status, and,
      when a path failed, one error result with the failure's message and
      no results for the paths after it. */
  lemma CopyOutcomeResults(report: Jobs.Report, settings: S.FileSettings, socketConnection: Jobs.Connection?,
                           cache: map<string, string>, disk: Jobs.Disk, task: string, status: Jobs.TaskStatus)
    ensures var o := CopyOutcome(report, settings, socketConnection, cache, disk, task, status);
      match Prepare(report, settings, socketConnection, cache)
      case Failure(e) => o.disk == disk && o.results == [Failed(task, report.name, e)] && o.failure == Some(e)
      case Success(targetPath) =>
        var copied := if o.failure.Some? then |o.results| - 1 else |o.results|;
        && 0 <= copied <= |report.paths|
        && (o.failure.None? ==> copied == |report.paths|)
        && (o.failure.Some? ==> copied < |report.paths| && o.results[copied] == Failed(task, report.name, o.failure.value))
        && forall j :: 0 <= j < copied ==>
             o.results[j] == R.BaseResult(R.File(TargetFile(targetPath, report.name, report.paths[j], j + 1, |report.paths| > 1)),
                                          task, true, SuccessMessage, report.name, Text.ToUpper(status.Name()))
  {
    match Prepare(report, settings, socketConnection, cache)
    case Failure(e) =>
    case Success(targetPath) =>
      var c := Copy(report, settings.mode, targetPath, task, Text.ToUpper(status.Name()));
      ConcludedCopy(c, c.Targets(), c.Data(), disk);
  }

  lemma ConcludedCopy(c: Copy, targets: seq<string>, data: seq<Option<Jobs.FileData>>, disk: Jobs.Disk)
    requires |targets| == |data|
    ensures var o := Conclude(CopyPaths(c, targets, data, disk, |targets|), c.task, c.report.name);
      var copied := if o.failure.Some? then |o.results| - 1 else |o.results|;
      && 0 <= copied <= |targets|
      && (o.failure.None? ==> copied == |targets|)
      && (o.failure.Some? ==> copied < |targets| && o.results[copied] == Failed(c.task, c.report.name, o.failure.value))
      && forall j :: 0 <= j < copied ==> o.results[j] == c.Succeeded(targets[j])
  {
    CopyPathsCount(c, targets, data, disk, |targets|);
    CopyPathsResults(c, targets, data, disk, |targets|);
  }

  /** Once a path has failed, the later paths change nothing. */
  lemma {:induction false} CopyPathsStops(c: Copy, targets: seq<string>, data: seq<Option<Jobs.FileData>>, disk: Jobs.Disk, i: nat, n: nat)
    requires i <= n <= |targets| && n <= |data|
    requires CopyPaths(c, targets, data, disk, i).failure.Some?
    ensures CopyPaths(c, targets, data, disk, n) == CopyPaths(c, targets, data, disk, i)
    decreases n
  {
    if n > i {
      CopyPathsStops(c, targets, data, disk, i, n - 1);
    }
  }

  /** The loop adds one result per path until the first failure, after
      which no path is processed. */
  lemma {:induction false} CopyPathsCount(c: Copy, targets: seq<string>, data: seq<Option<Jobs.FileData>>, disk: Jobs.Disk, n: nat)
    requires n <= |targets| && n <= |data|
    ensures var p := CopyPaths(c, targets, data, disk, n);
      (p.failure.None? ==> |p.results| == n) && (p.failure.Some? ==> |p.results| < n)
    decreases n
  {
    if n > 0 {
      CopyPathsCount(c, targets, data, disk, n - 1);
    }
  }

  /** A turn of the loop on path `n` keeps the results those of the first
      paths' target files. */
  lemma AdvanceKeepsSuccesses(c: Copy, p: Progress, targets: seq<string>, n: nat, fileData: Option<Jobs.FileData>)
    requires 0 < n <= |targets| && |p.results| == n - 1
    requires forall j :: 0 <= j < |p.results| ==> p.results[j] == c.Succeeded(targets[j])
    ensures var q := Advance(c, p, targets[n - 1], fileData);
      |q.results| <= n && forall j :: 0 <= j < |q.results| ==> q.results[j] == c.Succeeded(targets[j])
  {
    var q := Advance(c, p, targets[n - 1], fileData);
    forall j | 0 <= j < |q.results|
      ensures q.results[j] == c.Succeeded(targets[j])
    {
      if j < |p.results| {
        assert q.results[j] == p.results[j];
      }
    }
  }

  /** Every result the loop adds is a success naming its path's target file. */
  lemma {:induction false} CopyPathsResults(c: Copy, targets: seq<string>, data: seq<Option<Jobs.FileData>>, disk: Jobs.Disk, n: nat)
    requires n <= |targets| && n <= |data|
    ensures var p := CopyPaths(c, targets, data, disk, n);
      |p.results| <= n && forall j :: 0 <= j < |p.results| ==> p.results[j] == c.Succeeded(targets[j])
    decreases n
  {
    if n > 0 {
      CopyPathsResults(c, targets, data, disk, n - 1);
      var p := CopyPaths(c, targets, data, disk, n - 1);
      if p.failure.None? {
        CopyPathsCount(c, targets, data, disk, n - 1);
        AdvanceKeepsSuccesses(c, p, targets, n, data[n - 1]);
      }
    }
  }

  /** In CREATEONLY mode no file that existed is changed. */
  lemma {:induction false} CreateOnlyKeepsFiles(c: Copy, targets: seq<string>, data: seq<Option<Jobs.FileData>>, disk: Jobs.Disk, n: nat)
    requires c.mode == DS.CREATEONLY && n <= |targets| && n <= |data|
    ensures var d := CopyPaths(c, targets, data, disk, n).disk;
      forall f :: f in disk.files ==> f in d.files && d.files[f] == disk.files[f]
    decreases n
  {
    if n > 0 {
      CreateOnlyKeepsFiles(c, targets, data, disk, n - 1);
    }
  }

  /** OVERRIDE and DELETEALLFIRST create the target folder and write the
      report's bytes to the target file whenever the report has data for the
      path and the file lies in that folder; CREATEONLY fails when the
      target file exists, and otherwise writes only into a folder that
      exists; an undefined mode fails and changes nothing. */
  lemma ModeRules(c: Copy, disk: Jobs.Disk, t: string, fd: Option<Jobs.FileData>)
    ensures var s := CopyOne(c, disk, t, fd);
      ((c.mode == DS.OVERRIDE || c.mode == DS.DELETEALLFIRST) && fd.Some? ==>
         && c.targetPath in s.disk.dirs
         && (s.result.Success? <==> s.disk.HasFolderOf(t))
         && (s.result.Success? ==> t in s.disk.files && s.disk.files[t] == fd.value.data))
      && ((c.mode == DS.OVERRIDE || c.mode == DS.DELETEALLFIRST) && fd.None? ==> s.result == Failure(NullReferenceMessage))
      && (c.mode == DS.CREATEONLY && t in disk.files ==> s.result.Failure? && s.disk == disk)
      && (c.mode == DS.CREATEONLY && t !in disk.files && fd.Some? ==>
            (s.result.Success? <==> disk.HasFolderOf(t))
            && s.disk.files == (if s.result.Success? then disk.files[t := fd.value.data] else disk.files))
      && (c.mode.UndefinedMode? ==> s.result.Failure? && s.disk == disk)
  {
  }

  /** The target file of a path lies in the target folder, so OVERRIDE
      and DELETEALLFIRST, which create that folder, write it whenever the
      report has data for the path. */
  lemma TargetInCreatedFolder(c: Copy, disk: Jobs.Disk, j: nat)
    requires j < |c.report.paths| && c.report.name != []
    requires c.mode == DS.OVERRIDE || c.mode == DS.DELETEALLFIRST
    ensures var fd := Jobs.FirstFileData(c.report.data, Paths.GetFileName(c.report.paths[j]));
      fd.Some? ==> CopyOne(c, disk, c.Target(j), fd).result == Success(c.Succeeded(c.Target(j)))
  {
    var many := |c.report.paths| > 1;
    var x := BaseAction.NormalizeReportName(c.report.name) + (if many then "_" + Text.NatToString(j + 1) else "")
             + Paths.GetExtension(c.report.paths[j]);
    TargetPlain(c.targetPath, c.report.name, c.report.paths[j], j + 1, many);
    var fd := Jobs.FirstFileData(c.report.data, Paths.GetFileName(c.report.paths[j]));
    if fd.Some? {
      WritesIntoCreatedFolder(c, disk, x, fd.value);
    }
  }

  lemma WritesIntoCreatedFolder(c: Copy, disk: Jobs.Disk, x: string, fd: Jobs.FileData)
    requires c.mode == DS.OVERRIDE || c.mode == DS.DELETEALLFIRST
    requires x != [] && !Paths.IsRooted(x) && forall j :: 0 <= j < |x| ==> !Paths.IsSeparator(x[j])
    ensures CopyOne(c, disk, Paths.Combine(c.targetPath, x), Some(fd)).result
            == Success(c.Succeeded(Paths.Combine(c.targetPath, x)))
  {
    Paths.DirectoryOfCombine(c.targetPath, x);
  }

  /** A target file is a plain file name in the target folder. */
  lemma TargetPlain(targetPath: string, reportName: string, path: string, k: nat, many: bool)
    requires reportName != []
    ensures var x := BaseAction.NormalizeReportName(reportName) + (if many then "_" + Text.NatToString(k) else "")
                     + Paths.GetExtension(path);
      && TargetFile(targetPath, reportName, path, k, many) == Paths.Combine(targetPath, x)
      && x != [] && !Paths.IsRooted(x) && forall j :: 0 <= j < |x| ==> !Paths.IsSeparator(x[j])
  {
    var num := if many then "_" + Text.NatToString(k) else "";
    if many {
      NumberSuffix(k);
    }
    Paths.ExtensionPlain(path);
    PlainName(reportName, num, Paths.GetExtension(path));
  }

  lemma NumberSuffix(k: nat)
    ensures var num := "_" + Text.NatToString(k);
      num[0] == '_' && forall j :: 0 <= j < |num| ==> num[j] == '_' || Text.IsDigit(num[j])
  {
    var d := Text.NatToString(k);
    var num := "_" + d;
    forall j | 0 < j < |num| ensures Text.IsDigit(num[j]) {
      assert num[j] == d[j - 1];
    }
  }

  /** The cleaned report name, an optional "_N" and an extension form a
      plain file name: not empty, not rooted, without separators. */
  lemma PlainName(reportName: string, num: string, e: string)
    requires reportName != []
    requires num == [] || num[0] == '_'
    requires forall j :: 0 <= j < |num| ==> num[j] == '_' || Text.IsDigit(num[j])
    requires e == [] || e[0] == '.'
    requires forall j :: 0 <= j < |e| ==> !Paths.IsSeparator(e[j])
    ensures var x := BaseAction.NormalizeReportName(reportName) + num + e;
      x != [] && !Paths.IsRooted(x) && forall j :: 0 <= j < |x| ==> !Paths.IsSeparator(x[j])
  {
    var n := BaseAction.NormalizeReportName(reportName);
    BaseAction.NormalizeReportNameValid(reportName);
    var x := n + num + e;
    assert x == n + (num + e);
    FileNameNotRooted(reportName, num + e);
    forall j | 0 <= j < |x| ensures !Paths.IsSeparator(x[j]) {
      if j < |n| {
        assert x[j] == n[j];
      } else if j < |n| + |num| {
        assert x[j] == num[j - |n|];
      } else {
        assert x[j] == e[j - |n| - |num|];
      }
    }
  }

  /** A report name and extension never form a rooted path. */
  lemma {:induction false} FileNameNotRooted(reportName: string, suffix: string)
    requires reportName != []
    requires suffix == [] || suffix[0] == '_' || suffix[0] == '.' || Text.IsDigit(suffix[0])
    ensures var x := BaseAction.NormalizeReportName(reportName) + suffix; x != [] && !Paths.IsRooted(x)
  {
    var n := BaseAction.NormalizeReportName(reportName);
    var x := n + suffix;
    assert x[0] == n[0];
    assert !Paths.IsSeparator(n[0]);
    if |x| >= 2 {
      if |n| >= 2 {
        assert x[1] == n[1] && x[1] != ':';
      } else {
        assert x[1] == suffix[0];
      }
    }
  }

  /** With several paths the target files of different paths differ. */
  lemma TargetFilesDistinct(targetPath: string, reportName: string, p1: string, p2: string, k1: nat, k2: nat)
    requires reportName != [] && k1 != k2
    ensures TargetFile(targetPath, reportName, p1, k1, true) != TargetFile(targetPath, reportName, p2, k2, true)
  {
    var n := BaseAction.NormalizeReportName(reportName);
    var x1 := NumberedTarget(targetPath, reportName, p1, k1);
    var x2 := NumberedTarget(targetPath, reportName, p2, k2);
    NumberedNamesDiffer(n, k1, k2, Paths.GetExtension(p1), Paths.GetExtension(p2));
    CombineInjective(targetPath, x1, x2);
  }

  /** A numbered target file is its file name, which is not rooted,
      combined with the target folder. */
  lemma NumberedTarget(targetPath: string, reportName: string, path: string, k: nat) returns (x: string)
    requires reportName != []
    ensures x == BaseAction.NormalizeReportName(reportName) + ("_" + Text.NatToString(k)) + Paths.GetExtension(path)
    ensures x != [] && !Paths.IsRooted(x)
    ensures TargetFile(targetPath, reportName, path, k, true) == Paths.Combine(targetPath, x)
  {
    var n := BaseAction.NormalizeReportName(reportName);
    var d, e := Text.NatToString(k), Paths.GetExtension(path);
    x := n + ("_" + d) + e;
    FileNameNotRooted(reportName, "_" + d + e);
    assert x == n + ("_" + d + e);
  }

  /** Different numbers give different numbered names. */
  lemma NumberedNamesDiffer(n: string, k1: nat, k2: nat, e1: string, e2: string)
    requires k1 != k2 && (e1 == [] || e1[0] == '.') && (e2 == [] || e2[0] == '.')
    ensures n + ("_" + Text.NatToString(k1)) + e1 != n + ("_" + Text.NatToString(k2)) + e2
  {
    var d1, d2 := Text.NatToString(k1), Text.NatToString(k2);
    if n + ("_" + d1) + e1 == n + ("_" + d2) + e2 {
      NumberedNameInjective(n, d1, e1, d2, e2);
      Text.NatToStringInjective(k1, k2);
    }
  }

  lemma NumberedNameInjective(n: string, d1: string, e1: string, d2: string, e2: string)
    requires forall i :: 0 <= i < |d1| ==> Text.IsDigit(d1[i])
    requires forall i :: 0 <= i < |d2| ==> Text.IsDigit(d2[i])
    requires e1 == [] || e1[0] == '.'
    requires e2 == [] || e2[0] == '.'
    requires n + ("_" + d1) + e1 == n + ("_" + d2) + e2
    ensures d1 == d2
  {
    var x1, x2 := n + ("_" + d1) + e1, n + ("_" + d2) + e2;
    assert x1[|n| + 1..] == d1 + e1 && x2[|n| + 1..] == d2 + e2;
    Text.DigitsThenExtension(d1, e1, d2, e2);
  }

  lemma CombineInjective(dir: string, x: string, y: string)
    requires x != [] && y != [] && !Paths.IsRooted(x) && !Paths.IsRooted(y)
    ensures Paths.Combine(dir, x) == Paths.Combine(dir, y) ==> x == y
  {
    var c1, c2 := Paths.Combine(dir, x), Paths.Combine(dir, y);
    if dir != [] {
      var pre := if Paths.IsSeparator(dir[|dir| - 1]) then dir else dir + "\\";
      assert c1 == pre + x && c2 == pre + y;
      assert c1[|pre|..] == x && c2[|pre|..] == y;
    }
  }

  /** The file sink of one job: the results of its last report and the
      cache of resolved targets. */
  class FileSystemAction {
    const jobResult: Jobs.JobResult
    var results: seq<R.BaseResult>
    var pathCache: map<string, string>

    constructor(jobResult: Jobs.JobResult)
      ensures this.jobResult == jobResult && results == [] && pathCache == map[]
    {
      this.jobResult := jobResult;
      results := [];
      pathCache := map[];
    }

    /** Copies the report's files to the target of `settings`; afterwards
        the cache is empty and the connection is free again. */
    method CopyFile(report: Jobs.Report, settings: S.FileSettings, socketConnection: Jobs.Connection?, fs: Jobs.FileSystem)
      modifies this, jobResult, fs, socketConnection
      ensures var o := CopyOutcome(report, settings, socketConnection, old(pathCache), old(fs.disk),
                                   old(jobResult.taskName), old(jobResult.status));
        && fs.disk == o.disk
        && results == old(results) + o.results
        && (o.failure.Some? ==> jobResult.status == Jobs.ERROR && jobResult.exception == o.failure)
        && (o.failure.None? ==> jobResult.status == old(jobResult.status) && jobResult.exception == old(jobResult.exception))
      ensures jobResult.taskName == old(jobResult.taskName)
      ensures pathCache == map[]
      ensures socketConnection != null ==> socketConnection.isFree
    {
      var task := jobResult.taskName;
      var resolved := ResolveTarget(report, settings, socketConnection);
      ghost var p: Progress;
      var failure: Option<string>;
      if resolved.Failure? {
        failure := Some(resolved.error);
        p := Progress(fs.disk, [], failure);
      } else {
        var c := Copy(report, settings.mode, resolved.value, task, BaseAction.GetFormatedState(jobResult));
        var targets, data := c.Targets(), c.Data();
        failure := CopyPathsLoop(c, targets, data, fs);
        p := CopyPaths(c, targets, data, old(fs.disk), |report.paths|);
      }
      assert CopyOutcome(report, settings, socketConnection, old(pathCache), old(fs.disk), task, old(jobResult.status))
          == Conclude(p, task, report.name);
      if failure.Some? {
        jobResult.Fail(failure.value);
        results := results + [Failed(task, report.name, failure.value)];
        assert results == old(results) + (p.results + [Failed(task, report.name, failure.value)]);
      }
      pathCache := map[];
      if socketConnection != null {
        socketConnection.isFree := true;
      }
    }

    /** The checks before the copy loop; a target resolved through the
        connection is remembered in the cache. */
    method ResolveTarget(report: Jobs.Report, settings: S.FileSettings, socketConnection: Jobs.Connection?)
      returns (resolved: Result<string>)
      modifies this`pathCache
      ensures resolved == Prepare(report, settings, socketConnection, old(pathCache))
    {
      if report.name == "" {
        resolved := Failure(EmptyNameMessage);
      } else if settings.target.None? {
        resolved := Failure(NoTargetMessage(report.name));
      } else {
        var target := Text.Trim(settings.target.value);
        if !(LibPrefix <= Text.ToLower(target)) && socketConnection != null {
          resolved := Failure(NotLibMessage(target));
        } else if target in pathCache {
          resolved := Success(pathCache[target]);
        } else {
          resolved := ResolveLibPath(target, socketConnection);
          if resolved.Success? {
            pathCache := pathCache[target := resolved.value];
          }
        }
      }
    }

    /** The loop over the report's paths, up to the first failure. */
    method CopyPathsLoop(c: Copy, targets: seq<string>, data: seq<Option<Jobs.FileData>>, fs: Jobs.FileSystem)
      returns (failure: Option<string>)
      requires |targets| == |data|
      modifies this`results, fs
      ensures var p := CopyPaths(c, targets, data, old(fs.disk), |targets|);
        fs.disk == p.disk && results == old(results) + p.results && failure == p.failure
    {
      failure := None;
      var i := 0;
      while i < |targets| && failure.None?
        invariant 0 <= i <= |targets|
        invariant var p := CopyPaths(c, targets, data, old(fs.disk), i);
          fs.disk == p.disk && results == old(results) + p.results && failure == p.failure
      {
        failure := CopyNext(c, targets, data, fs, i, old(fs.disk), old(results));
        i := i + 1;
      }
      if failure.Some? {
        CopyPathsStops(c, targets, data, old(fs.disk), i, |targets|);
      }
    }

    /** One turn of the copy loop: path `i` is copied after the first `i`
        paths, started from `disk0` and `results0`, all succeeded. */
    method CopyNext(c: Copy, targets: seq<string>, data: seq<Option<Jobs.FileData>>, fs: Jobs.FileSystem, i: nat,
                    ghost disk0: Jobs.Disk, ghost results0: seq<R.BaseResult>)
      returns (failure: Option<string>)
      requires i < |targets| == |data|
      requires var p := CopyPaths(c, targets, data, disk0, i);
        fs.disk == p.disk && results == results0 + p.results && p.failure.None?
      modifies this`results, fs
      ensures var p := CopyPaths(c, targets, data, disk0, i + 1);
        fs.disk == p.disk && results == results0 + p.results && failure == p.failure
    {
      var s := CopyOne(c, fs.disk, targets[i], data[i]);
      fs.disk := s.disk;
      if s.result.Success? {
        results := results + [s.result.value];
        failure := None;
      } else {
        failure := Some(s.result.error);
      }
    }
  }
}
