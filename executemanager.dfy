/** The older delivery of src/ExecuteManager.cs: copying reports into a
    "lib://" folder, uploading them to the Qlik hub with a one-time purge
    per owner, and sending the collected mails. The manager remembers the
    folders it resolved, the owners it purged, the on-demand link and the
    connection that the certificate callback reads. */
module ExecuteManager {
  import opened Wrappers
  import Text
  import Paths
  import Jobs
  import Hub = HubAction
  import LS = LegacySettings
  import DS = DistributeSettings
  import V = CertificateValidation
  import EMailReports
  import LegacyMail

  const LibPrefix: string := "lib://"

  // ---------------------------------------------------------------------
  // Copying into a lib folder
  // ---------------------------------------------------------------------

  /** NormalizeLibPath: the folder that a "lib://" target names, found
      among the app's data connections over the connection given; None
      when no data connection has that name or the lookup fails. */
  type LibResolver = (string, V.SerConnection) -> Option<string>

  /** `settings?.Connections?.FirstOrDefault()`: null settings, a missing
      list and an empty list all give null. */
  function FirstConnection(settings: Option<LS.DeliverySettings>): Option<V.SerConnection> {
    if settings.None? || settings.value.connections.None? || |settings.value.connections.value| == 0 then None
    else settings.value.connections.value[0]
  }

  /** `settings.Target?.ToLowerInvariant()?.Trim()` */
  function TargetOf(settings: LS.DeliverySettings): Option<string> {
    if settings.target.None? then None else Some(Text.Trim(Text.ToLower(settings.target.value)))
  }

  /** The disk after copying, and whether File.Copy succeeded; after a
      failure the disk keeps what the step did before the copy. */
  datatype Copying = Copying(disk: Jobs.Disk, ok: bool)

  function Copied(disk: Jobs.Disk, source: string, target: string, overwrite: bool): (c: Copying)
    ensures c.ok <==> source in disk.files && disk.HasFolderOf(target) && (overwrite || target !in disk.files) && source != target
    ensures c.ok ==> c.disk == disk.Write(target, disk.files[source])
    ensures !c.ok ==> c.disk == disk
  {
    match disk.Copy(source, target, overwrite)
    case Success(d) => Copying(d, true)
    case Failure(_) => Copying(disk, false)
  }

  /** One path copied to the target file: OVERRIDE creates the folder and
      overwrites, DELETEALLFIRST deletes an existing target, creates the
      folder and copies, CREATEONLY copies without overwriting, and any
      other mode copies nothing. */
  function CopyOne(disk: Jobs.Disk, mode: LS.DistributeMode, source: string, targetPath: string, targetFile: string): Copying {
    match mode
    case OVERRIDE => Copied(disk.CreateDirectory(targetPath), source, targetFile, true)
    case DELETEALLFIRST =>
      var cleared := if targetFile in disk.files then disk.Delete(targetFile) else disk;
      Copied(cleared.CreateDirectory(targetPath), source, targetFile, false)
    case CREATEONLY => Copied(disk, source, targetFile, false)
    case UndefinedMode(_) => Copying(disk, true)
  }

  /** The first `n` paths copied, up to the first failure: the catch is
      outside the loop. */
  function CopyPaths(disk: Jobs.Disk, mode: LS.DistributeMode, paths: seq<string>, targetPath: string, targetFile: string,
                     n: nat): Copying
    requires n <= |paths|
  {
    if n == 0 then Copying(disk, true)
    else
      var c := CopyPaths(disk, mode, paths, targetPath, targetFile, n - 1);
      if !c.ok then c else CopyOne(c.disk, mode, paths[n - 1], targetPath, targetFile)
  }

  /** The folder a lib target stands for: the one resolved before, else a
      fresh resolution, which needs a connection. */
  function TargetPath(mapper: map<string, string>, target: string, connection: Option<V.SerConnection>,
                      resolve: LibResolver): Option<string>
  {
    if target in mapper then Some(mapper[target])
    else if connection.None? then None
    else resolve(target, connection.value)
  }

  /** What CopyFile leaves behind: the resolved folders and the disk. */
  datatype CopyRun = CopyRun(pathMapper: map<string, string>, disk: Jobs.Disk)

  /** CopyFile: null settings, no target, a target that is not a lib
      folder and a folder that cannot be resolved copy nothing; otherwise
      the folder is remembered and every path is copied to the same file,
      the report name in that folder. */
  function CopyFileRun(mapper: map<string, string>, disk: Jobs.Disk, settings: Option<LS.DeliverySettings>,
                       paths: seq<string>, reportName: string, resolve: LibResolver): (r: CopyRun)
    ensures forall t :: t in mapper ==> t in r.pathMapper && r.pathMapper[t] == mapper[t]
    ensures forall t :: t in r.pathMapper && t !in mapper ==>
              settings.Some? && TargetOf(settings.value) == Some(t) && LibPrefix <= t
  {
    if settings.None? then CopyRun(mapper, disk)
    else match TargetOf(settings.value)
      case None => CopyRun(mapper, disk)
      case Some(target) =>
        if !(LibPrefix <= target) then CopyRun(mapper, disk)
        else match TargetPath(mapper, target, FirstConnection(settings), resolve)
          case None => CopyRun(mapper, disk)
          case Some(targetPath) =>
            var c := CopyPaths(disk, settings.value.mode, paths, targetPath, Paths.Combine(targetPath, reportName), |paths|);
            CopyRun(mapper[target := targetPath], c.disk)
  }

  /** A folder resolved before is taken from the cache: the resolver is
      not asked again. */
  lemma CachedTarget(mapper: map<string, string>, disk: Jobs.Disk, settings: LS.DeliverySettings, paths: seq<string>,
                     reportName: string, resolve: LibResolver, other: LibResolver)
    requires TargetOf(settings).Some? && TargetOf(settings).value in mapper
    ensures CopyFileRun(mapper, disk, Some(settings), paths, reportName, resolve)
            == CopyFileRun(mapper, disk, Some(settings), paths, reportName, other)
  {
  }

  lemma {:induction false} CopyPathsStops(disk: Jobs.Disk, mode: LS.DistributeMode, paths: seq<string>, targetPath: string,
                                          targetFile: string, n: nat, m: nat)
    requires n <= m <= |paths| && !CopyPaths(disk, mode, paths, targetPath, targetFile, n).ok
    ensures CopyPaths(disk, mode, paths, targetPath, targetFile, m) == CopyPaths(disk, mode, paths, targetPath, targetFile, n)
    decreases m - n
  {
    if m > n {
      CopyPathsStops(disk, mode, paths, targetPath, targetFile, n, m - 1);
    }
  }

  /** The loop of CopyFile over the paths, up to the first failing copy. */
  method CopyLoop(mode: LS.DistributeMode, paths: seq<string>, targetPath: string, targetFile: string, fs: Jobs.FileSystem)
    modifies fs
    ensures fs.disk == CopyPaths(old(fs.disk), mode, paths, targetPath, targetFile, |paths|).disk
  {
    ghost var disk0 := fs.disk;
    var i := 0;
    while i < |paths|
      invariant 0 <= i <= |paths|
      invariant CopyPaths(disk0, mode, paths, targetPath, targetFile, i) == Copying(fs.disk, true)
    {
      var overwrite := false;
      match mode {
        case OVERRIDE =>
          fs.disk := fs.disk.CreateDirectory(targetPath);
          overwrite := true;
        case DELETEALLFIRST =>
          if targetFile in fs.disk.files {
            fs.disk := fs.disk.Delete(targetFile);
          }
          fs.disk := fs.disk.CreateDirectory(targetPath);
        case CREATEONLY =>
        case UndefinedMode(_) =>
          i := i + 1;
          continue;
      }
      var copied := fs.disk.Copy(paths[i], targetFile, overwrite);
      if copied.Failure? {
        assert !CopyPaths(disk0, mode, paths, targetPath, targetFile, i + 1).ok;
        CopyPathsStops(disk0, mode, paths, targetPath, targetFile, i + 1, |paths|);
        return;
      }
      fs.disk := copied.value;
      i := i + 1;
    }
  }

  // ---------------------------------------------------------------------
  // Uploading to the hub
  // ---------------------------------------------------------------------

  const CreatedDescription: string := "Created by Sense Excel Reporting"
  const ReportType: string := "Qlik report"

  /** What an upload changes: the hub, the disk, the owners purged and the
      on-demand link. */
  datatype HubRun = HubRun(store: Hub.HubStore, disk: Jobs.Disk, hubDeleteAll: seq<Option<string>>, link: Option<string>)

  /** How the handling of a path ends: the loop goes on, the method
      returns the owner change as its task, or it throws (and the catch
      returns null). */
  datatype Flow = Continued | Returned | Thrown

  datatype Step = Step(run: HubRun, flow: Flow)

  /** The copy of a rendered file under the report's name that on-demand
      mode uploads. */
  function OnDemandPath(path: string, reportName: string): string {
    Paths.Combine(Paths.GetDirectoryName(path), reportName)
  }

  /** The file that is uploaded and the disk after placing it: in
      on-demand mode the file is moved to its report name unless a file of
      that name is there already. */
  datatype Placed = Placed(path: string, disk: Jobs.Disk)

  function Place(disk: Jobs.Disk, path: string, reportName: string, ondemand: bool): (r: Result<Placed>)
    ensures !ondemand ==> r == Success(Placed(path, disk))
    ensures ondemand && OnDemandPath(path, reportName) in disk.files ==>
              r == Success(Placed(OnDemandPath(path, reportName), disk))
    ensures ondemand && OnDemandPath(path, reportName) !in disk.files ==>
              (r.Success? <==> path in disk.files && disk.HasFolderOf(OnDemandPath(path, reportName)))
              && (r.Success? ==> r.value.path == OnDemandPath(path, reportName)
                                 && r.value.disk.files == (disk.files - {path})[OnDemandPath(path, reportName) := disk.files[path]])
  {
    if !ondemand then Success(Placed(path, disk))
    else
      var newPath := OnDemandPath(path, reportName);
      if newPath in disk.files then Success(Placed(newPath, disk))
      else match disk.Move(path, newPath)
        case Failure(e) => Failure(e)
        case Success(d) => Success(Placed(newPath, d))
  }

  /** The id of the owner's hub user (no owner: none, and no query); the
      query must list exactly one user, else it throws. */
  function OwnerId(owner: Option<string>, b: Hub.Behaviour): (r: Result<Option<string>>)
    ensures owner.None? ==> r == Success(None)
    ensures owner.Some? ==> (r.Success? <==> owner.value in b.users && |b.users[owner.value].ids| == 1)
    ensures owner.Some? && r.Success? ==> r.value == Some(b.users[owner.value].ids[0])
  {
    match owner
    case None => Success(None)
    case Some(o) =>
      if o !in b.users then Failure("Qlik user " + o + " with qrs not found or session not connected.")
      else if |b.users[o].ids| != 1 then Failure("Too many User found. " + b.users[o].text)
      else Success(Some(b.users[o].ids[0]))
  }

  /** The file sent with a create or update request, read from the disk. */
  function ContentDataOf(disk: Jobs.Disk, path: string): (r: Result<Hub.ContentData>)
    ensures r.Success? <==> path in disk.files
    ensures r.Success? ==> r.value.fileData == disk.files[path] && r.value.externalPath == Paths.GetFileName(path)
  {
    if path !in disk.files then Failure(Jobs.FileNotFound(path))
    else Success(Hub.ContentData("application/" + Text.TrimChar(Paths.GetExtension(path), '.'), Paths.GetFileName(path),
                                 disk.files[path]))
  }

  /** The record the hub creates: owned by the user the QRS connection acts
      as, with the references the hub publishes for the file. */
  function NewContent(b: Hub.Behaviour, id: nat, name: string, data: Hub.ContentData): Hub.Content {
    Hub.Content(id, name, "", CreatedDescription, b.apiUser, [], b.createdMetaData, b.Published(data.externalPath), Some(data))
  }

  /** The hub after storing a path, and the record the request returned. */
  datatype Stored = Stored(store: Hub.HubStore, info: Hub.Content)

  /** Absent content is created; existing content is updated in OVERRIDE
      mode and given back unchanged in CREATEONLY mode, without error. */
  function Store(b: Hub.Behaviour, store: Hub.HubStore, disk: Jobs.Disk, mode: LS.DistributeMode, name: string,
                 path: string, user: Option<string>): (r: Result<Stored>)
    ensures var existing := Hub.FindContent(store.contents, name, user);
      && (existing.Some? && mode != LS.OVERRIDE ==> r == Success(Stored(store, existing.value)))
      && (r.Failure? <==> (existing.None? || mode == LS.OVERRIDE) && path !in disk.files)
      && (existing.None? && r.Success? ==>
            r.value.store.contents == store.contents + [r.value.info] && r.value.store.nextId == store.nextId + 1
            && r.value.info.id == store.nextId && r.value.info.name == name && r.value.info.owner == b.apiUser
            && r.value.info.data == Some(ContentDataOf(disk, path).value))
      && (existing.Some? && mode == LS.OVERRIDE && r.Success? ==>
            r.value.info.id == existing.value.id && r.value.info.data == Some(ContentDataOf(disk, path).value)
            && r.value.store.contents == Hub.UpdateContent(store.contents, existing.value.id, ContentDataOf(disk, path).value,
                                                            r.value.info.references))
  {
    match Hub.FindContent(store.contents, name, user)
    case None =>
      (match ContentDataOf(disk, path)
       case Failure(e) => Failure(e)
       case Success(data) =>
         var c := NewContent(b, store.nextId, name, data);
         Success(Stored(Hub.HubStore(store.contents + [c], store.nextId + 1), c)))
    case Some(c) =>
      if mode != LS.OVERRIDE then Success(Stored(store, c))
      else match ContentDataOf(disk, path)
        case Failure(e) => Failure(e)
        case Success(data) =>
          var refs := b.Published(data.externalPath);
          Success(Stored(store.(contents := Hub.UpdateContent(store.contents, c.id, data, refs)),
                         c.(data := Some(data), references := refs)))
  }

  /** The on-demand link of a record: the external path of its first
      reference. */
  function LinkOf(info: Option<Hub.Content>): Option<string> {
    if info.None? || |info.value.references| == 0 then None else Some(info.value.references[0].externalPath)
  }

  /** One path in OVERRIDE or CREATEONLY mode, after placing the file: the
      owner's user is looked up, the content stored, the link taken in
      on-demand mode (from a fresh lookup), and when the owner has a user
      id the record is given to that user and the method returns. */
  function UploadPath(b: Hub.Behaviour, run: HubRun, mode: LS.DistributeMode, owner: Option<string>, contentName: string,
                      path: string, ondemand: bool): (r: Step)
    ensures r.run.disk == run.disk && r.run.hubDeleteAll == run.hubDeleteAll
    ensures OwnerId(owner, b).Failure? ==> r == Step(run, Thrown)
    ensures OwnerId(owner, b).Success? && OwnerId(owner, b).value.Some? ==> !r.flow.Continued?
    ensures OwnerId(owner, b) == Success(None) ==> !r.flow.Returned?
  {
    match OwnerId(owner, b)
    case Failure(_) => Step(run, Thrown)
    case Success(userId) =>
      match Store(b, run.store, run.disk, mode, contentName, path, owner)
      case Failure(_) => Step(run, Thrown)
      case Success(stored) =>
        var info := if ondemand then Hub.FindContent(stored.store.contents, contentName, owner) else Some(stored.info);
        Owned(run.(store := stored.store, link := if ondemand then LinkOf(info) else run.link), userId, info, owner)
  }

  /** UploadPath by its steps: a failing store throws; a stored record
      ends as Owned says. */
  lemma UploadPathCases(b: Hub.Behaviour, run: HubRun, mode: LS.DistributeMode, owner: Option<string>, contentName: string,
                        path: string, ondemand: bool)
    ensures OwnerId(owner, b).Success? && Store(b, run.store, run.disk, mode, contentName, path, owner).Failure? ==>
              UploadPath(b, run, mode, owner, contentName, path, ondemand) == Step(run, Thrown)
    ensures OwnerId(owner, b).Success? && Store(b, run.store, run.disk, mode, contentName, path, owner).Success? ==>
              var stored := Store(b, run.store, run.disk, mode, contentName, path, owner).value;
              var info := if ondemand then Hub.FindContent(stored.store.contents, contentName, owner) else Some(stored.info);
              UploadPath(b, run, mode, owner, contentName, path, ondemand)
              == Owned(run.(store := stored.store, link := if ondemand then LinkOf(info) else run.link),
                       OwnerId(owner, b).value, info, owner)
  {
  }

  /** The end of a path: without a user id the loop goes on; with one, the
      record (when the lookup found it) is given to the owner and the
      method returns. */
  function Owned(run: HubRun, userId: Option<string>, info: Option<Hub.Content>, owner: Option<string>): (r: Step)
    requires userId.Some? ==> owner.Some?
    ensures r.run.disk == run.disk && r.run.hubDeleteAll == run.hubDeleteAll && r.run.link == run.link
    ensures r.flow.Continued? <==> userId.None?
    ensures r.flow.Continued? ==> r.run == run
  {
    if userId.None? then Step(run, Continued)
    else if info.None? then Step(run, Thrown)
    else Step(run.(store := run.store.(contents := Hub.ChangeOwner(run.store.contents, info.value.id, owner.value, ReportType))),
              Returned)
  }

  /** The records that the purge of `owner` leaves after deleting, by id,
      the first `n` records of `snapshot` that the owner owns. */
  function PurgeOwned(contents: seq<Hub.Content>, snapshot: seq<Hub.Content>, owner: string, n: nat): seq<Hub.Content>
    requires n <= |snapshot|
  {
    if n == 0 then contents
    else
      var c := PurgeOwned(contents, snapshot, owner, n - 1);
      if snapshot[n - 1].owner == owner then Hub.RemoveContent(c, snapshot[n - 1].id) else c
  }

  /** The recursion rank of a mode: DELETEALLFIRST calls the upload again
      in CREATEONLY mode. */
  function Rank(mode: LS.DistributeMode): nat {
    if mode == LS.DELETEALLFIRST then 1 else 0
  }

  /** One path and the mode the loop goes on with. */
  datatype Next = Next(step: Step, mode: LS.DistributeMode)

  /** The path at `i`: the file is placed first, then the mode decides. */
  function UploadAt(b: Hub.Behaviour, run: HubRun, mode: LS.DistributeMode, owner: Option<string>, paths: seq<string>,
                    reportName: string, ondemand: bool, i: nat): (r: Next)
    requires i < |paths|
    ensures r.mode == mode || r.mode == LS.CREATEONLY
    ensures run.hubDeleteAll <= r.step.run.hubDeleteAll
    decreases Rank(mode), |paths| - i, 1
  {
    match Place(run.disk, paths[i], reportName, ondemand)
    case Failure(_) => Next(Step(run, Thrown), mode)
    case Success(placed) =>
      Dispatch(b, run.(disk := placed.disk), EffectiveMode(run.hubDeleteAll, owner, mode), owner, paths, reportName,
               ondemand, i, placed.path)
  }

  /** An owner purged before turns the mode into CREATEONLY, for this path
      and the rest of the loop. */
  function EffectiveMode(hubDeleteAll: seq<Option<string>>, owner: Option<string>, mode: LS.DistributeMode): (m: LS.DistributeMode)
    ensures m == mode || m == LS.CREATEONLY
    ensures owner in hubDeleteAll ==> m == LS.CREATEONLY
  {
    if owner in hubDeleteAll then LS.CREATEONLY else mode
  }

  /** The hub once every record `owner` owns is deleted and the owner is
      recorded as purged. */
  function Purged(run: HubRun, owner: string): HubRun {
    run.(store := run.store.(contents := PurgeOwned(run.store.contents, run.store.contents, owner, |run.store.contents|)),
         hubDeleteAll := run.hubDeleteAll + [Some(owner)])
  }

  /** The path at `i` once its file is at `path`, in the effective mode.
      OVERRIDE and CREATEONLY upload the
      path. DELETEALLFIRST deletes every record the owner owns (whatever
      its name), records the owner, uploads all paths again in CREATEONLY
      mode (a failure there is caught by that call) and goes on in
      CREATEONLY mode; any other mode throws. */
  function Dispatch(b: Hub.Behaviour, run: HubRun, mode: LS.DistributeMode, owner: Option<string>, paths: seq<string>,
                    reportName: string, ondemand: bool, i: nat, path: string): (r: Next)
    requires i < |paths|
    ensures r.mode == mode || r.mode == LS.CREATEONLY
    ensures run.hubDeleteAll <= r.step.run.hubDeleteAll
    decreases Rank(mode), |paths| - i, 0
  {
    if mode == LS.OVERRIDE || mode == LS.CREATEONLY then
      Next(UploadPath(b, run, mode, owner, Hub.ContentName(reportName, paths[i]), path, ondemand), mode)
    else if mode == LS.DELETEALLFIRST then
      if owner.None? then Next(Step(run, Thrown), mode)
      else
        var inner := UploadFrom(b, Purged(run, owner.value), LS.CREATEONLY, owner, paths, reportName, ondemand, 0);
        Next(Step(inner.run, Continued), LS.CREATEONLY)
    else Next(Step(run, Thrown), mode)
  }

  /** The paths from `i` on, stopping at the first path that returns or
      throws. */
  function UploadFrom(b: Hub.Behaviour, run: HubRun, mode: LS.DistributeMode, owner: Option<string>, paths: seq<string>,
                      reportName: string, ondemand: bool, i: nat): (r: Step)
    requires i <= |paths|
    ensures run.hubDeleteAll <= r.run.hubDeleteAll
    decreases Rank(mode), |paths| - i, 2
  {
    if i == |paths| then Step(run, Continued)
    else
      var n := UploadAt(b, run, mode, owner, paths, reportName, ondemand, i);
      if n.step.flow.Continued? then UploadFrom(b, n.step.run, n.mode, owner, paths, reportName, ondemand, i + 1)
      else n.step
  }

  /** One path of the upload, unfolded. */
  lemma UploadFromNext(b: Hub.Behaviour, run: HubRun, mode: LS.DistributeMode, owner: Option<string>, paths: seq<string>,
                       reportName: string, ondemand: bool, i: nat)
    requires i < |paths|
    ensures var n := UploadAt(b, run, mode, owner, paths, reportName, ondemand, i);
            UploadFrom(b, run, mode, owner, paths, reportName, ondemand, i)
            == if n.step.flow.Continued? then UploadFrom(b, n.step.run, n.mode, owner, paths, reportName, ondemand, i + 1)
               else n.step
  {
  }

  /** The loop's view of one path: what is left of the upload after the
      path at `i` has moved the run from `before` to `after`. */
  lemma UploadFromStep(b: Hub.Behaviour, spec: Step, before: HubRun, mode: LS.DistributeMode, owner: Option<string>,
                       paths: seq<string>, reportName: string, ondemand: bool, i: nat, after: Step, m: LS.DistributeMode)
    requires i < |paths|
    requires spec == UploadFrom(b, before, mode, owner, paths, reportName, ondemand, i)
    requires Next(after, m) == UploadAt(b, before, mode, owner, paths, reportName, ondemand, i)
    ensures after.flow.Continued? ==> spec == UploadFrom(b, after.run, m, owner, paths, reportName, ondemand, i + 1)
    ensures !after.flow.Continued? ==> spec == after
  {
    UploadFromNext(b, before, mode, owner, paths, reportName, ondemand, i);
  }

  /** The characters `new Cookie(name, value)` refuses in a name. */
  const CookieReserved: set<char> := {'\t', '\r', '\n', '=', ';', ','}

  /** The name rule of `new Cookie(name, value)`: not null or empty, not
      starting with '$', no space at either end and no reserved character;
      anything else throws a CookieException. The value is not checked
      there. */
  predicate CookieName(name: Option<string>) {
    && name.Some? && name.value != []
    && name.value[0] != '$' && name.value[0] != ' ' && name.value[|name.value| - 1] != ' '
    && forall k :: 0 <= k < |name.value| ==> name.value[k] !in CookieReserved
  }

  /** The hub session is built from the connection's credentials: null
      credentials throw a NullReferenceException, a bad key a
      CookieException. */
  predicate HubCookie(connection: V.SerConnection) {
    connection.credentials.Some? && CookieName(connection.credentials.value.key)
  }

  /** UploadToHub: no connection, or no cookie to be built from it, throws
      at once; otherwise the paths are uploaded from the first. */
  function UploadRun(b: Hub.Behaviour, run: HubRun, settings: Option<LS.DeliverySettings>, paths: seq<string>,
                     reportName: string, ondemand: bool): Step
  {
    if FirstConnection(settings).None? || !HubCookie(FirstConnection(settings).value) then Step(run, Thrown)
    else UploadFrom(b, run, settings.value.mode, settings.value.owner, paths, reportName, ondemand, 0)
  }

  /** A connection without credentials, or whose key is missing, empty or
      holds '=', ';' or ',', uploads nothing and changes nothing. */
  lemma BadCookieUploadsNothing(b: Hub.Behaviour, run: HubRun, settings: Option<LS.DeliverySettings>, paths: seq<string>,
                                reportName: string, ondemand: bool)
    requires FirstConnection(settings).Some?
    requires var c := FirstConnection(settings).value;
      || c.credentials.None? || c.credentials.value.key.None? || c.credentials.value.key == Some("")
      || (c.credentials.value.key.Some? && ('=' in c.credentials.value.key.value || ';' in c.credentials.value.key.value
                                            || ',' in c.credentials.value.key.value))
    ensures UploadRun(b, run, settings, paths, reportName, ondemand) == Step(run, Thrown)
  {
  }

  /** The Qlik session cookie's own name passes the rule; a name with '='
      or a leading space does not. */
  lemma CookieNames()
    ensures CookieName(Some("X-Qlik-Session"))
    ensures !CookieName(Some("X=Qlik")) && !CookieName(Some(" X")) && !CookieName(Some("$X"))
  {
    assert "X=Qlik"[1] == '=';
  }

  /** The purge loop: every record of the listing taken before it that
      the owner owns is deleted by its id. */
  method PurgeOwner(hub: Hub.QlikHub, owner: string)
    modifies hub
    ensures hub.store == old(hub.store).(contents := PurgeOwned(old(hub.store.contents), old(hub.store.contents), owner,
                                                                  |old(hub.store.contents)|))
  {
    var snapshot := hub.store.contents;
    var i := 0;
    while i < |snapshot|
      invariant 0 <= i <= |snapshot|
      invariant hub.store == old(hub.store).(contents := PurgeOwned(snapshot, snapshot, owner, i))
    {
      if snapshot[i].owner == owner {
        hub.store := hub.store.(contents := Hub.RemoveContent(hub.store.contents, snapshot[i].id));
      }
      i := i + 1;
    }
  }

  // ---------------------------------------------------------------------
  // Properties of copying and uploading
  // ---------------------------------------------------------------------

  /** CREATEONLY onto a target file that exists: the first copy throws and
      the disk is left as it was. */
  lemma {:induction false} CreateOnlyKeepsTarget(disk: Jobs.Disk, paths: seq<string>, targetPath: string, targetFile: string,
                                                 n: nat)
    requires 0 < n <= |paths| && targetFile in disk.files
    ensures CopyPaths(disk, LS.CREATEONLY, paths, targetPath, targetFile, n) == Copying(disk, false)
  {
    assert CopyPaths(disk, LS.CREATEONLY, paths, targetPath, targetFile, 1) == Copying(disk, false);
    CopyPathsStops(disk, LS.CREATEONLY, paths, targetPath, targetFile, 1, n);
  }

  /** OVERRIDE with every source on the disk (none of them the target):
      all copies succeed, the folder is created and the target file holds
      the last path's bytes; nothing else changes. */
  lemma {:induction false} OverrideLastWins(disk: Jobs.Disk, paths: seq<string>, targetPath: string, targetFile: string,
                                            n: nat)
    requires 0 < n <= |paths|
    requires forall k :: 0 <= k < |paths| ==> paths[k] in disk.files && paths[k] != targetFile
    requires disk.CreateDirectory(targetPath).HasFolderOf(targetFile)
    ensures CopyPaths(disk, LS.OVERRIDE, paths, targetPath, targetFile, n)
            == Copying(disk.CreateDirectory(targetPath).Write(targetFile, disk.files[paths[n - 1]]), true)
  {
    if n > 1 {
      OverrideLastWins(disk, paths, targetPath, targetFile, n - 1);
    }
  }

  /** DELETEALLFIRST with every source on the disk (none of them the
      target) has the effect of OVERRIDE. */
  lemma {:induction false} DeleteAllFirstOverrides(disk: Jobs.Disk, paths: seq<string>, targetPath: string, targetFile: string,
                                                   n: nat)
    requires n <= |paths|
    requires forall k :: 0 <= k < |paths| ==> paths[k] in disk.files && paths[k] != targetFile
    requires disk.CreateDirectory(targetPath).HasFolderOf(targetFile)
    ensures CopyPaths(disk, LS.DELETEALLFIRST, paths, targetPath, targetFile, n)
            == CopyPaths(disk, LS.OVERRIDE, paths, targetPath, targetFile, n)
  {
    if n > 0 {
      DeleteAllFirstOverrides(disk, paths, targetPath, targetFile, n - 1);
      var c := CopyPaths(disk, LS.OVERRIDE, paths, targetPath, targetFile, n - 1);
      var cleared := if targetFile in c.disk.files then c.disk.Delete(targetFile) else c.disk;
      if n > 1 {
        OverrideLastWins(disk, paths, targetPath, targetFile, n - 1);
      }
      assert cleared.CreateDirectory(targetPath).Write(targetFile, disk.files[paths[n - 1]])
             == c.disk.CreateDirectory(targetPath).Write(targetFile, disk.files[paths[n - 1]]);
    }
  }

  /** The purge deletes exactly the records that share an id with a
      record of the snapshot the owner owns. */
  lemma {:induction false} PurgeOwnedKeeps(contents: seq<Hub.Content>, snapshot: seq<Hub.Content>, owner: string, n: nat)
    requires n <= |snapshot|
    ensures forall c :: c in PurgeOwned(contents, snapshot, owner, n) <==>
                          c in contents && forall k :: 0 <= k < n ==> !(snapshot[k].owner == owner && snapshot[k].id == c.id)
  {
    if n > 0 {
      PurgeOwnedKeeps(contents, snapshot, owner, n - 1);
    }
  }

  /** On a hub whose ids are distinct, the purge of an owner leaves
      exactly the records somebody else owns. */
  lemma PurgeOwnedMeaning(contents: seq<Hub.Content>, owner: string)
    requires Hub.UniqueIds(contents)
    ensures forall c :: c in PurgeOwned(contents, contents, owner, |contents|) <==> c in contents && c.owner != owner
  {
    PurgeOwnedKeeps(contents, contents, owner, |contents|);
    forall c | c in contents && c.owner != owner
      ensures forall k :: 0 <= k < |contents| ==> !(contents[k].owner == owner && contents[k].id == c.id)
    {
      var j :| 0 <= j < |contents| && contents[j] == c;
      forall k | 0 <= k < |contents| && contents[k].id == c.id
        ensures contents[k].owner != owner
      {
        assert k == j;
      }
    }
  }

  /** DELETEALLFIRST purges an owner's records once: a path placed for an
      owner not purged yet records the owner, and the upload goes on in
      CREATEONLY mode. */
  lemma PurgeRecorded(b: Hub.Behaviour, run: HubRun, owner: string, paths: seq<string>, reportName: string, ondemand: bool,
                      i: nat)
    requires i < |paths| && Some(owner) !in run.hubDeleteAll
    requires Place(run.disk, paths[i], reportName, ondemand).Success?
    ensures var n := UploadAt(b, run, LS.DELETEALLFIRST, Some(owner), paths, reportName, ondemand, i);
              Some(owner) in n.step.run.hubDeleteAll && n.mode == LS.CREATEONLY && n.step.flow.Continued?
  {
    var placed := Place(run.disk, paths[i], reportName, ondemand).value;
    var purged := Purged(run.(disk := placed.disk), owner);
    assert purged.hubDeleteAll[|run.hubDeleteAll|] == Some(owner);
    var inner := UploadFrom(b, purged, LS.CREATEONLY, Some(owner), paths, reportName, ondemand, 0);
    assert inner.run.hubDeleteAll[|run.hubDeleteAll|] == Some(owner);
  }

  /** ... and once an owner is recorded, DELETEALLFIRST uploads as
      CREATEONLY does: nothing is purged again. */
  lemma PurgedOnce(b: Hub.Behaviour, run: HubRun, owner: string, paths: seq<string>, reportName: string, ondemand: bool,
                   i: nat)
    requires i <= |paths| && Some(owner) in run.hubDeleteAll
    ensures UploadFrom(b, run, LS.DELETEALLFIRST, Some(owner), paths, reportName, ondemand, i)
            == UploadFrom(b, run, LS.CREATEONLY, Some(owner), paths, reportName, ondemand, i)
  {
    if i < |paths| {
      assert EffectiveMode(run.hubDeleteAll, Some(owner), LS.DELETEALLFIRST)
             == EffectiveMode(run.hubDeleteAll, Some(owner), LS.CREATEONLY);
    }
  }

  /** With an owner that resolves to one hub user, OVERRIDE and CREATEONLY
      end with the first path: the owner change is returned as the task,
      or the path throws; the later paths are not uploaded. */
  lemma OwnerEndsUpload(b: Hub.Behaviour, run: HubRun, mode: LS.DistributeMode, owner: string, paths: seq<string>,
                        reportName: string, ondemand: bool, i: nat)
    requires i < |paths| && (mode == LS.OVERRIDE || mode == LS.CREATEONLY)
    requires owner in b.users && |b.users[owner].ids| == 1
    ensures UploadFrom(b, run, mode, Some(owner), paths, reportName, ondemand, i)
            == UploadAt(b, run, mode, Some(owner), paths, reportName, ondemand, i).step
    ensures !UploadFrom(b, run, mode, Some(owner), paths, reportName, ondemand, i).flow.Continued?
  {
    OwnerEndsPath(b, run, mode, owner, paths, reportName, ondemand, i);
  }

  lemma OwnerEndsPath(b: Hub.Behaviour, run: HubRun, mode: LS.DistributeMode, owner: string, paths: seq<string>,
                      reportName: string, ondemand: bool, i: nat)
    requires i < |paths| && (mode == LS.OVERRIDE || mode == LS.CREATEONLY)
    requires owner in b.users && |b.users[owner].ids| == 1
    ensures !UploadAt(b, run, mode, Some(owner), paths, reportName, ondemand, i).step.flow.Continued?
  {
    match Place(run.disk, paths[i], reportName, ondemand)
    case Failure(_) =>
    case Success(placed) =>
      assert OwnerId(Some(owner), b) == Success(Some(b.users[owner].ids[0]));
  }

  // ---------------------------------------------------------------------
  // The manager
  // ---------------------------------------------------------------------

  /** The state of a manager: the on-demand link, the connection last
      given (GlobalConnection), the owners purged and the resolved
      folders. */
  datatype Manager = Manager(link: Option<string>, global: Option<V.SerConnection>, hubDeleteAll: seq<Option<string>>,
                             pathMapper: map<string, string>)

  class ExecuteManager {
    var onDemandDownloadLink: Option<string>
    /** A static field in the source: it keeps the connection of the
        latest call across managers. */
    var globalConnection: Option<V.SerConnection>
    var hubDeleteAll: seq<Option<string>>
    var pathMapper: map<string, string>

    function State(): Manager
      reads this
    {
      Manager(onDemandDownloadLink, globalConnection, hubDeleteAll, pathMapper)
    }

    /** A new manager has purged no owner and resolved no folder; the
        static connection keeps whatever an earlier manager left in it. */
    constructor(global: Option<V.SerConnection>)
      ensures State() == Manager(None, global, [], map[])
    {
      onDemandDownloadLink := None;
      globalConnection := global;
      hubDeleteAll := [];
      pathMapper := map[];
    }

    /** The certificate callback the constructor registers, judged with
        the connection the manager was last given. */
    function ValidateRemoteCertificate(sender: V.Sender, hash: Option<string>, errors: V.PolicyErrors,
                                       parse: V.UriParser): Result<bool>
      reads this
    {
      V.LegacyValidate(globalConnection, sender, hash, errors, parse)
    }

    /** What an upload changes, as it is now. */
    function Run(hub: Hub.QlikHub, fs: Jobs.FileSystem): HubRun
      reads this, hub, fs
    {
      HubRun(hub.store, fs.disk, hubDeleteAll, onDemandDownloadLink)
    }

    /** One path of UploadToHub in OVERRIDE or CREATEONLY mode, once the
        file is in place. */
    method UploadPathStep(mode: LS.DistributeMode, owner: Option<string>, contentName: string, path: string, ondemand: bool,
                          hub: Hub.QlikHub, fs: Jobs.FileSystem)
      returns (flow: Flow)
      modifies this, hub
      ensures globalConnection == old(globalConnection) && pathMapper == old(pathMapper)
      ensures Step(Run(hub, fs), flow) == UploadPath(hub.behaviour, old(Run(hub, fs)), mode, owner, contentName, path, ondemand)
    {
      ghost var run := Run(hub, fs);
      UploadPathCases(hub.behaviour, run, mode, owner, contentName, path, ondemand);
      var hubUserId := OwnerId(owner, hub.behaviour);
      if hubUserId.Failure? {
        return Thrown;
      }
      var stored := Store(hub.behaviour, hub.store, fs.disk, mode, contentName, path, owner);
      if stored.Failure? {
        return Thrown;
      }
      flow := StoredStep(hubUserId.value, stored.value, owner, contentName, ondemand, hub, fs);
    }

    /** The rest of a path once its record is stored: the store is kept,
        the link taken in on-demand mode, and the record given to the
        owner's user. */
    method StoredStep(userId: Option<string>, stored: Stored, owner: Option<string>, contentName: string, ondemand: bool,
                      hub: Hub.QlikHub, fs: Jobs.FileSystem)
      returns (flow: Flow)
      requires userId.Some? ==> owner.Some?
      modifies this`onDemandDownloadLink, hub
      ensures var info := if ondemand then Hub.FindContent(stored.store.contents, contentName, owner) else Some(stored.info);
        Step(Run(hub, fs), flow)
        == Owned(old(Run(hub, fs)).(store := stored.store, link := if ondemand then LinkOf(info) else old(onDemandDownloadLink)),
                 userId, info, owner)
    {
      ghost var run := Run(hub, fs);
      hub.store := stored.store;
      var hubInfo := Some(stored.info);
      if ondemand {
        hubInfo := Hub.FindContent(hub.store.contents, contentName, owner);
        onDemandDownloadLink := LinkOf(hubInfo);
      }
      assert Run(hub, fs) == run.(store := stored.store, link := if ondemand then LinkOf(hubInfo) else run.link);
      flow := OwnStep(userId, hubInfo, owner, hub, fs);
    }

    /** The owner change that ends a path, as Owned says. */
    method OwnStep(userId: Option<string>, info: Option<Hub.Content>, owner: Option<string>, hub: Hub.QlikHub,
                   fs: Jobs.FileSystem)
      returns (flow: Flow)
      requires userId.Some? ==> owner.Some?
      modifies hub
      ensures Step(Run(hub, fs), flow) == Owned(old(Run(hub, fs)), userId, info, owner)
    {
      if userId.None? {
        return Continued;
      }
      if info.None? {
        return Thrown;
      }
      hub.store := hub.store.(contents := Hub.ChangeOwner(hub.store.contents, info.value.id, owner.value, ReportType));
      flow := Returned;
    }

    /** The body of the loop of UploadToHub for the path at `i`, as
        UploadAt says: in on-demand mode the file is first renamed to the
        report name unless a file of that name is there. */
    method UploadPathAt(settings: LS.DeliverySettings, mode: LS.DistributeMode, paths: seq<string>, i: nat,
                        reportName: string, ondemand: bool, hub: Hub.QlikHub, fs: Jobs.FileSystem)
      returns (flow: Flow, m: LS.DistributeMode)
      requires i < |paths| && (mode == settings.mode || mode == LS.CREATEONLY)
      requires FirstConnection(Some(settings)).Some? && globalConnection == FirstConnection(Some(settings))
      requires HubCookie(FirstConnection(Some(settings)).value)
      modifies this, hub, fs
      ensures globalConnection == old(globalConnection) && pathMapper == old(pathMapper)
      ensures Next(Step(Run(hub, fs), flow), m)
           == UploadAt(hub.behaviour, old(Run(hub, fs)), mode, settings.owner, paths, reportName, ondemand, i)
      decreases Rank(settings.mode), |paths| - i, 2
    {
      ghost var run := Run(hub, fs);
      var path := paths[i];
      var newPath := path;
      if ondemand {
        newPath := OnDemandPath(path, reportName);
        if newPath !in fs.disk.files {
          var moved := fs.disk.Move(path, newPath);
          if moved.Failure? {
            return Thrown, mode;
          }
          fs.disk := moved.value;
        }
      }
      assert Place(run.disk, path, reportName, ondemand) == Success(Placed(newPath, fs.disk));
      var effective := EffectiveMode(hubDeleteAll, settings.owner, mode);
      flow, m := DispatchStep(settings, effective, paths, i, reportName, ondemand, newPath, hub, fs);
    }

    /** The mode's part of a path, as Dispatch says. */
    method DispatchStep(settings: LS.DeliverySettings, mode: LS.DistributeMode, paths: seq<string>, i: nat,
                        reportName: string, ondemand: bool, path: string, hub: Hub.QlikHub, fs: Jobs.FileSystem)
      returns (flow: Flow, m: LS.DistributeMode)
      requires i < |paths| && (mode == settings.mode || mode == LS.CREATEONLY)
      requires FirstConnection(Some(settings)).Some? && globalConnection == FirstConnection(Some(settings))
      requires HubCookie(FirstConnection(Some(settings)).value)
      modifies this, hub, fs
      ensures globalConnection == old(globalConnection) && pathMapper == old(pathMapper)
      ensures Next(Step(Run(hub, fs), flow), m)
           == Dispatch(hub.behaviour, old(Run(hub, fs)), mode, settings.owner, paths, reportName, ondemand, i, path)
      decreases Rank(settings.mode), |paths| - i, 1
    {
      var owner := settings.owner;
      m := mode;
      if m == LS.OVERRIDE || m == LS.CREATEONLY {
        flow := UploadPathStep(m, owner, Hub.ContentName(reportName, paths[i]), path, ondemand, hub, fs);
      } else if m == LS.DELETEALLFIRST {
        if owner.None? {
          // new DomainUser(null)
          return Thrown, m;
        }
        PurgeAndRetry(settings, paths, i, reportName, ondemand, hub, fs);
        flow, m := Continued, LS.CREATEONLY;
      } else {
        flow := Thrown;
      }
    }

    /** DELETEALLFIRST: the purge, the owner recorded, and the upload of all
        paths again in CREATEONLY mode. */
    method PurgeAndRetry(settings: LS.DeliverySettings, paths: seq<string>, i: nat, reportName: string, ondemand: bool,
                         hub: Hub.QlikHub, fs: Jobs.FileSystem)
      requires settings.mode == LS.DELETEALLFIRST && settings.owner.Some? && i < |paths|
      requires FirstConnection(Some(settings)).Some? && globalConnection == FirstConnection(Some(settings))
      requires HubCookie(FirstConnection(Some(settings)).value)
      modifies this, hub, fs
      ensures globalConnection == old(globalConnection) && pathMapper == old(pathMapper)
      ensures Run(hub, fs) == UploadFrom(hub.behaviour, Purged(old(Run(hub, fs)), settings.owner.value), LS.CREATEONLY,
                                         settings.owner, paths, reportName, ondemand, 0).run
      decreases Rank(settings.mode), |paths| - i, 0
    {
      ghost var run := Run(hub, fs);
      PurgeOwner(hub, settings.owner.value);
      hubDeleteAll := hubDeleteAll + [settings.owner];
      assert Run(hub, fs) == Purged(run, settings.owner.value);
      var retry := settings.(mode := LS.CREATEONLY);
      assert FirstConnection(Some(retry)) == globalConnection;
      var ignored := UploadToHub(Some(retry), paths, reportName, ondemand, hub, fs);
    }

    /** UploadToHub: the connection of the settings becomes the one the
        callback reads; the hub, the disk, the purged owners and the link
        change as UploadRun says, and a task is returned exactly when an
        owner change ended the loop. */
    method UploadToHub(settings: Option<LS.DeliverySettings>, paths: seq<string>, reportName: string, ondemand: bool,
                       hub: Hub.QlikHub, fs: Jobs.FileSystem)
      returns (task: bool)
      modifies this, hub, fs
      ensures globalConnection == FirstConnection(settings) && pathMapper == old(pathMapper)
      ensures var s := UploadRun(hub.behaviour, old(Run(hub, fs)), settings, paths, reportName, ondemand);
        Run(hub, fs) == s.run && (task <==> s.flow.Returned?)
      decreases if settings.Some? then Rank(settings.value.mode) else 0, |paths| + 2
    {
      var currentConnection := FirstConnection(settings);
      globalConnection := currentConnection;
      if currentConnection.None? || !HubCookie(currentConnection.value) {
        return false;
      }
      task := UploadLoop(settings.value, paths, reportName, ondemand, hub, fs);
    }

    /** The loop of UploadToHub over the paths, as UploadFrom says. */
    method UploadLoop(settings: LS.DeliverySettings, paths: seq<string>, reportName: string, ondemand: bool,
                      hub: Hub.QlikHub, fs: Jobs.FileSystem)
      returns (task: bool)
      requires FirstConnection(Some(settings)).Some? && globalConnection == FirstConnection(Some(settings))
      requires HubCookie(FirstConnection(Some(settings)).value)
      modifies this, hub, fs
      ensures globalConnection == old(globalConnection) && pathMapper == old(pathMapper)
      ensures var s := UploadFrom(hub.behaviour, old(Run(hub, fs)), settings.mode, settings.owner, paths, reportName,
                                  ondemand, 0);
        Run(hub, fs) == s.run && (task <==> s.flow.Returned?)
      decreases Rank(settings.mode), |paths| + 1
    {
      var mode := settings.mode;
      ghost var spec := UploadFrom(hub.behaviour, Run(hub, fs), mode, settings.owner, paths, reportName, ondemand, 0);
      var flow := Continued;
      var i := 0;
      while i < |paths| && flow.Continued?
        invariant 0 <= i <= |paths|
        invariant mode == settings.mode || mode == LS.CREATEONLY
        invariant globalConnection == old(globalConnection) && pathMapper == old(pathMapper)
        invariant flow.Continued? ==>
                    spec == UploadFrom(hub.behaviour, Run(hub, fs), mode, settings.owner, paths, reportName, ondemand, i)
        invariant !flow.Continued? ==> spec == Step(Run(hub, fs), flow)
        decreases |paths| - i
      {
        ghost var before := Run(hub, fs);
        var m;
        flow, m := UploadPathAt(settings, mode, paths, i, reportName, ondemand, hub, fs);
        UploadFromStep(hub.behaviour, spec, before, mode, settings.owner, paths, reportName, ondemand, i,
                       Step(Run(hub, fs), flow), m);
        mode := m;
        i := i + 1;
      }
      task := flow.Returned?;
    }

    /** SendMails: the entries are grouped into one mail per settings key
        and the mails are sent in order; a throw while grouping sends
        nothing, and the first mail that fails ends the sending. */
    method SendMails(settingsList: seq<LS.MailSettings>, fs: Jobs.FileSystem, server: LegacyMail.Server)
      modifies server
      ensures server.sent == old(server.sent) + LegacyMail.SendMailsRun(settingsList, fs.disk, server.smtp)
    {
      var mailList := LegacyMail.Group(settingsList, fs.disk);
      if mailList.Success? {
        LegacyMail.SendLoop(mailList.value, server);
      }
    }

    /** CopyFile: the connection of the settings becomes the one the
        callback reads, and the disk and the folder cache change as
        CopyFileRun says. */
    method CopyFile(settings: Option<LS.DeliverySettings>, paths: seq<string>, reportName: string, resolve: LibResolver,
                    fs: Jobs.FileSystem)
      modifies this, fs
      ensures globalConnection == FirstConnection(settings)
      ensures onDemandDownloadLink == old(onDemandDownloadLink) && hubDeleteAll == old(hubDeleteAll)
      ensures CopyRun(pathMapper, fs.disk) == CopyFileRun(old(pathMapper), old(fs.disk), settings, paths, reportName, resolve)
    {
      var currentConnection := FirstConnection(settings);
      globalConnection := currentConnection;
      if settings.None? {
        return;
      }
      var target := TargetOf(settings.value);
      if target.None? {
        return;
      }
      if !(LibPrefix <= target.value) {
        return;
      }
      var targetPath := LookupTarget(target.value, currentConnection, resolve);
      if targetPath.None? {
        return;
      }
      CopyLoop(settings.value.mode, paths, targetPath.value, Paths.Combine(targetPath.value, reportName), fs);
    }

    /** The folder of a lib target: from the cache, or resolved with the
        connection and then cached; None when it cannot be resolved. */
    method LookupTarget(target: string, connection: Option<V.SerConnection>, resolve: LibResolver)
      returns (targetPath: Option<string>)
      modifies this`pathMapper
      ensures targetPath == TargetPath(old(pathMapper), target, connection, resolve)
      ensures targetPath.Some? ==> pathMapper == old(pathMapper)[target := targetPath.value]
      ensures targetPath.None? ==> pathMapper == old(pathMapper)
    {
      if target in pathMapper {
        assert pathMapper[target := pathMapper[target]] == pathMapper;
        return Some(pathMapper[target]);
      }
      // NormalizeLibPath reads the connection's credentials
      if connection.None? {
        return None;
      }
      targetPath := resolve(target, connection.value);
      if targetPath.Some? {
        pathMapper := pathMapper[target := targetPath.value];
      }
    }
  }
}
