/** The hub sink of src/Actions/HubAction.cs: content names, the owner
    lookup, the optional purge of earlier reports, the create / update /
    refuse rules of the modes and the download link of the result. The QRS
    client is not part of this model: the hub is a sequence of content
    records, and what the server decides beyond that (the user query, the
    references it publishes, the metadata of new content) is given by the
    hub's fixed behaviour. A Qlik user is modelled by its string form. */
module HubAction {
  import opened Wrappers
  import Text
  import Paths
  import Jobs
  import R = DistributeResults
  import S = ActionSettings
  import BaseAction
  import DS = DistributeSettings

  const EmptyNameMessage: string := "The report filename is empty."
  const NoSessionUserMessage: string := "The session user is empty."
  const SuccessMessage: string := "Upload to the hub was successful."
  const CreatedDescription: string := "Created by Analytics Gate"
  const SerTag: string := "SER"
  const NullSourceMessage: string := "Value cannot be null. (Parameter 'source')"
  const MoreThanOneMessage: string := "Sequence contains more than one element"

  function AlreadyExistMessage(contentName: string): string {
    "The shared content '" + contentName + "' already exist."
  }

  function UnknownModeMessage(mode: DS.DistributeMode): string {
    "Unknown hub mode " + mode.Name()
  }

  function UserNotFoundMessage(owner: string): string {
    "Qlik user " + owner + " was not found or session not connected (QRS)."
  }

  function TooManyUsersMessage(reply: string): string {
    "Too many User found. " + reply
  }

  function NoLinkMessage(filename: string, references: Option<nat>, user: string): string {
    "The download link is empty. Please check the security rules. (Name: " + filename + " - References: "
      + (if references.Some? then Text.NatToString(references.value) else "") + ") - User: " + user + "."
  }

  /** GetContentName: the report name without its extension, then the
      extension of the rendered file upper-cased and without its dot, in
      parentheses. */
  function ContentName(reportName: string, fileName: string): string {
    Paths.GetFileNameWithoutExtension(reportName) + " ("
      + Text.ToUpper(Text.TrimStartChar(Paths.GetExtension(fileName), '.')) + ")"
  }

  /** The upper-cased extension of a file, without its dot. */
  function ExtensionLabel(fileName: string): (l: string)
    ensures forall i :: 0 <= i < |l| ==> l[i] != '.' && !('a' <= l[i] <= 'z')
  {
    var ext := Paths.GetExtension(fileName);
    if ext == [] then "" else Text.ToUpper(ext[1..])
  }

  /** The content name is "{stem} ({EXT})": the extension loses its one dot
      and its lower-case letters. */
  lemma ContentNameFormat(reportName: string, fileName: string)
    ensures ContentName(reportName, fileName)
         == Paths.GetFileNameWithoutExtension(reportName) + " (" + ExtensionLabel(fileName) + ")"
  {
    var ext := Paths.GetExtension(fileName);
    Paths.ExtensionHasOneDot(fileName);
    if ext != [] {
      assert ext[1..] == [] || ext[1..][0] != '.';
      assert Text.TrimStartChar(ext, '.') == Text.TrimStartChar(ext[1..], '.');
    }
  }

  /** Two rendered files of a report get the same content name exactly
      when their extensions agree up to case. */
  lemma ContentNameSeesOnlyExtension(reportName: string, f1: string, f2: string)
    ensures ContentName(reportName, f1) == ContentName(reportName, f2) <==> ExtensionLabel(f1) == ExtensionLabel(f2)
  {
    ContentNameFormat(reportName, f1);
    ContentNameFormat(reportName, f2);
    var pre := Paths.GetFileNameWithoutExtension(reportName) + " (";
    var x1, x2 := pre + ExtensionLabel(f1) + ")", pre + ExtensionLabel(f2) + ")";
    if x1 == x2 {
      assert x1[|pre|..|x1| - 1] == ExtensionLabel(f1);
      assert x2[|pre|..|x2| - 1] == ExtensionLabel(f2);
    }
  }

  /** GetFullLink: the scheme and host of the QRS address before the link. */
  function FullLink(baseUrl: S.Uri, link: string): string {
    baseUrl.scheme + "://" + baseUrl.host + link
  }

  /** The full link is "{scheme}://" and the host, ending with the link. */
  lemma FullLinkShape(baseUrl: S.Uri, link: string)
    ensures var r := FullLink(baseUrl, link);
      && |r| == |baseUrl.scheme| + 3 + |baseUrl.host| + |link|
      && r[|r| - |link|..] == link
      && r[..|baseUrl.scheme| + 3] == baseUrl.scheme + "://"
      && r[|baseUrl.scheme| + 3..|r| - |link|] == baseUrl.host
  {
  }

  datatype Reference = Reference(logicalPath: string, externalPath: string)

  datatype MetaEntry = MetaEntry(key: string, value: string)

  /** The file stored with a content record. */
  datatype ContentData = ContentData(contentType: string, externalPath: string, fileData: seq<Jobs.byte>)

  /** A shared-content record of the hub; the owner by its string form. */
  datatype Content = Content(
    id: nat,
    name: string,
    reportType: string,
    description: string,
    owner: string,
    tags: seq<string>,
    metaData: Option<seq<MetaEntry>>,
    references: seq<Reference>,
    data: Option<ContentData>)

  /** The reply of the QRS "user" endpoint and the ids of the users it lists. */
  datatype UserReply = UserReply(text: string, ids: seq<string>)

  /** What the hub decides: the user the QRS connection acts as (the owner
      of what it creates), the address of the QRS API, the replies to user
      queries by user (no entry: no reply), the references it publishes for
      a stored file by its external path, and the metadata of new content. */
  datatype Behaviour = Behaviour(
    apiUser: string,
    connectUri: S.Uri,
    users: map<string, UserReply>,
    references: map<string, seq<Reference>>,
    createdMetaData: Option<seq<MetaEntry>>)
  {
    function Published(externalPath: string): seq<Reference> {
      if externalPath in references then references[externalPath] else []
    }
  }

  datatype HubStore = HubStore(contents: seq<Content>, nextId: nat)

  /** The Qlik hub. */
  class QlikHub {
    var store: HubStore
    const behaviour: Behaviour

    constructor(store: HubStore, behaviour: Behaviour)
      ensures this.store == store && this.behaviour == behaviour
    {
      this.store := store;
      this.behaviour := behaviour;
    }
  }

  predicate Matches(c: Content, name: string, user: Option<string>) {
    c.name == name && (user.None? || c.owner == user.value)
  }

  /** GetSharedContentFromUser: the first content of that name, owned by
      the user when there is one. */
  function FindContent(contents: seq<Content>, name: string, user: Option<string>): (r: Option<Content>)
    ensures r.None? ==> forall k :: 0 <= k < |contents| ==> !Matches(contents[k], name, user)
    ensures r.Some? ==> exists k :: 0 <= k < |contents| && contents[k] == r.value && Matches(r.value, name, user)
                          && forall j :: 0 <= j < k ==> !Matches(contents[j], name, user)
  {
    if contents == [] then None
    else if Matches(contents[0], name, user) then Some(contents[0])
    else
      var r := FindContent(contents[1..], name, user);
      assert forall k :: 1 <= k < |contents| ==> contents[k] == contents[1..][k - 1];
      r
  }

  /** How many metadata entries say "ser-type" = "report". */
  function SerEntries(m: seq<MetaEntry>): (n: nat)
    ensures n <= |m|
  {
    if m == [] then 0
    else (if m[0].key == "ser-type" && m[0].value == "report" then 1 else 0) + SerEntries(m[1..])
  }

  /** Whether the purge deletes a content record of a matching name: it
      must be marked as a report and be owned by `owner`, compared
      case-insensitively. Missing metadata and more than one mark make the
      purge fail. */
  function Deletable(c: Content, owner: string): (r: Result<bool>)
    ensures r == Success(true) <==>
              c.metaData.Some? && SerEntries(c.metaData.value) == 1 && Text.ToLower(c.owner) == Text.ToLower(owner)
    ensures r.Failure? <==> c.metaData.None? || SerEntries(c.metaData.value) > 1
  {
    match c.metaData
    case None => Failure(NullSourceMessage)
    case Some(m) =>
      var marks := SerEntries(m);
      if marks > 1 then Failure(MoreThanOneMessage)
      else Success(marks == 1 && Text.ToLower(c.owner) == Text.ToLower(owner))
  }

  /** The records of `contents` called `name`, in order. */
  function Named(contents: seq<Content>, name: string): (r: seq<Content>)
    ensures forall c :: c in r <==> c in contents && c.name == name
  {
    if contents == [] then []
    else (if contents[0].name == name then [contents[0]] else []) + Named(contents[1..], name)
  }

  /** The records of `contents` whose id is not `id`, in order. */
  function RemoveContent(contents: seq<Content>, id: nat): (r: seq<Content>)
    ensures forall c :: c in r <==> c in contents && c.id != id
  {
    if contents == [] then []
    else (if contents[0].id == id then [] else [contents[0]]) + RemoveContent(contents[1..], id)
  }

  predicate UniqueIds(contents: seq<Content>) {
    forall i, j :: 0 <= i < j < |contents| ==> contents[i].id != contents[j].id
  }

  /** The purge so far: the contents, and whether nothing failed yet. */
  datatype Purge = Purge(contents: seq<Content>, ok: bool)

  /** The purge of the first `n` records of the same name. */
  function PurgeMatches(contents: seq<Content>, matches: seq<Content>, owner: string, n: nat): Purge
    requires n <= |matches|
  {
    if n == 0 then Purge(contents, true)
    else
      var p := PurgeMatches(contents, matches, owner, n - 1);
      if !p.ok then p
      else
        match Deletable(matches[n - 1], owner)
        case Failure(_) => Purge(p.contents, false)
        case Success(delete) => if delete then Purge(RemoveContent(p.contents, matches[n - 1].id), true) else p
  }

  /** The content name of each path of the report, when it has rendered
      data. */
  function PathNames(report: Jobs.Report): (names: seq<Option<string>>)
    ensures |names| == |report.paths|
    ensures forall j :: 0 <= j < |names| ==> names[j] == ContentNameOfPath(report, j)
  {
    seq(|report.paths|, j requires 0 <= j < |report.paths| => ContentNameOfPath(report, j))
  }

  function ContentNameOfPath(report: Jobs.Report, j: nat): Option<string>
    requires j < |report.paths|
  {
    match Jobs.FirstFileData(report.data, Paths.GetFileName(report.paths[j]))
    case None => None
    case Some(fd) => Some(ContentName(report.name, fd.filename))
  }

  /** The purge over the first `n` paths, by their content names; the
      records are those the hub listed before the purge began. A path
      without rendered data makes the purge fail. */
  function PurgePaths(names: seq<Option<string>>, snapshot: seq<Content>, owner: string, contents: seq<Content>, n: nat): Purge
    requires n <= |names|
  {
    if n == 0 then Purge(contents, true)
    else
      var p := PurgePaths(names, snapshot, owner, contents, n - 1);
      if !p.ok then p
      else
        match names[n - 1]
        case None => Purge(p.contents, false)
        case Some(name) =>
          var matches := Named(snapshot, name);
          PurgeMatches(p.contents, matches, owner, |matches|)
  }

  /** A purge only removes records, and only deletable ones whose name is
      one of `names`; the contents it keeps are unchanged. */
  predicate PurgedFrom(names: seq<Option<string>>, owner: string, before: seq<Content>, after: seq<Content>) {
    && (forall c :: c in after ==> c in before)
    && (forall c :: c in before && c !in after ==> Deletable(c, owner) == Success(true) && Some(c.name) in names)
  }

  lemma {:induction false} PurgeMatchesRemovesOnly(contents: seq<Content>, snapshot: seq<Content>, name: string,
                                                   owner: string, n: nat)
    requires UniqueIds(snapshot) && forall c :: c in contents ==> c in snapshot
    requires n <= |Named(snapshot, name)|
    ensures var after := PurgeMatches(contents, Named(snapshot, name), owner, n).contents;
      && (forall c :: c in after ==> c in contents)
      && (forall c :: c in contents && c !in after ==> Deletable(c, owner) == Success(true) && c.name == name)
    decreases n
  {
    var matches := Named(snapshot, name);
    if n > 0 {
      PurgeMatchesRemovesOnly(contents, snapshot, name, owner, n - 1);
      var p := PurgeMatches(contents, matches, owner, n - 1);
      var m := matches[n - 1];
      assert m in matches;
      forall c | c in p.contents && c.id == m.id
        ensures c == m
      {
        UniqueIdsSame(snapshot, c, m);
      }
    }
  }

  lemma UniqueIdsSame(s: seq<Content>, a: Content, b: Content)
    requires UniqueIds(s) && a in s && b in s && a.id == b.id
    ensures a == b
  {
    var i :| 0 <= i < |s| && s[i] == a;
    var j :| 0 <= j < |s| && s[j] == b;
    assert !(i < j) && !(j < i);
  }

  lemma {:induction false} PurgePathsRemovesOnly(names: seq<Option<string>>, owner: string, contents: seq<Content>, n: nat)
    requires UniqueIds(contents) && n <= |names|
    ensures PurgedFrom(names, owner, contents, PurgePaths(names, contents, owner, contents, n).contents)
    decreases n
  {
    if n > 0 {
      PurgePathsRemovesOnly(names, owner, contents, n - 1);
      var p := PurgePaths(names, contents, owner, contents, n - 1);
      if p.ok && names[n - 1].Some? {
        var name := names[n - 1].value;
        assert Some(name) in names;
        PurgeMatchesRemovesOnly(p.contents, contents, name, owner, |Named(contents, name)|);
      }
    }
  }

  /** The user query for an owner: the user content is looked up for, and
      the id the content is then given to, if any. */
  datatype Publisher = Publisher(hubUser: string, hubUserId: Option<string>)

  function ResolveOwner(owner: Option<string>, sessionUser: string, b: Behaviour): (r: Result<Publisher>)
    ensures owner.None? ==> r == Success(Publisher(sessionUser, None))
    ensures owner.Some? && r.Success? ==> r.value.hubUser == owner.value
    ensures owner.Some? ==>
      (r.Failure? <==> owner.value !in b.users || b.users[owner.value].text == "[]" || |b.users[owner.value].ids| > 1)
    ensures owner.Some? && r.Success? ==>
      r.value.hubUserId == (if |b.users[owner.value].ids| == 1 then Some(b.users[owner.value].ids[0]) else None)
  {
    match owner
    case None => Success(Publisher(sessionUser, None))
    case Some(o) =>
      if o !in b.users || b.users[o].text == "[]" then Failure(UserNotFoundMessage(o))
      else if |b.users[o].ids| > 1 then Failure(TooManyUsersMessage(b.users[o].text))
      else if |b.users[o].ids| == 1 then Success(Publisher(o, Some(b.users[o].ids[0])))
      else Success(Publisher(o, None))
  }

  /** What the upload of one path needs of the report: the path, its
      rendered data (when found), the content name, the copy under the
      report's name, the file sent and the name its link must contain. */
  datatype Item = Item(path: string, fileData: Option<Jobs.FileData>, contentName: string, copyPath: string,
                       data: ContentData, filename: string)

  /** The copy of a rendered file under the report's name, beside it. */
  function CopyPath(reportName: string, path: string): string {
    Paths.Combine(Paths.GetDirectoryName(path), reportName + Paths.GetExtension(path))
  }

  function ItemOf(report: Jobs.Report, path: string): (item: Item)
    ensures item.path == path
    ensures item.fileData == Jobs.FirstFileData(report.data, Paths.GetFileName(path))
    ensures item.fileData.Some? ==>
      item.contentName == ContentName(report.name, item.fileData.value.filename)
      && item.data.fileData == item.fileData.value.data
  {
    var fd := Jobs.FirstFileData(report.data, Paths.GetFileName(path));
    var copyPath := CopyPath(report.name, path);
    var name := if fd.Some? then ContentName(report.name, fd.value.filename) else "";
    var data := if fd.Some?
                then ContentData("application/" + Text.TrimChar(Paths.GetExtension(fd.value.filename), '.'),
                                 Paths.GetFileName(copyPath), fd.value.data)
                else ContentData("", "", []);
    Item(path, fd, name, copyPath, data, Text.ReplaceChar(Paths.GetFileName(copyPath), '+', ' '))
  }

  /** The fixed inputs of the upload loop; `mode` is the mode after the
      purge. */
  datatype HubUpload = HubUpload(report: Jobs.Report, mode: DS.DistributeMode, sessionUser: string,
                                 owner: Option<string>, sharedContentType: string, behaviour: Behaviour,
                                 task: string, state: string)
  {
    /** The item of every path of the report, in order. */
    function Items(): (t: seq<Item>)
      ensures |t| == |report.paths|
      ensures forall j :: 0 <= j < |t| ==> t[j] == ItemAt(j)
    {
      seq(|report.paths|, j requires 0 <= j < |report.paths| => ItemAt(j))
    }

    function ItemAt(j: nat): Item
      requires j < |report.paths|
    {
      ItemOf(report, report.paths[j])
    }
  }

  /** The content the upload stores under, and the id it was stored with. */
  datatype Published = Published(store: HubStore, id: nat)

  function UpdateContent(contents: seq<Content>, id: nat, data: ContentData, refs: seq<Reference>): (r: seq<Content>)
    ensures |r| == |contents|
    ensures forall i :: 0 <= i < |r| ==>
      r[i] == if contents[i].id == id then contents[i].(data := Some(data), references := refs) else contents[i]
  {
    seq(|contents|, i requires 0 <= i < |contents| =>
      if contents[i].id == id then contents[i].(data := Some(data), references := refs) else contents[i])
  }

  function ChangeOwner(contents: seq<Content>, id: nat, owner: string, reportType: string): (r: seq<Content>)
    ensures |r| == |contents|
    ensures forall i :: 0 <= i < |r| ==>
      r[i] == if contents[i].id == id then contents[i].(owner := owner, reportType := reportType) else contents[i]
  {
    seq(|contents|, i requires 0 <= i < |contents| =>
      if contents[i].id == id then contents[i].(owner := owner, reportType := reportType) else contents[i])
  }

  /** The record a created content gets. */
  function NewContent(u: HubUpload, id: nat, contentName: string, data: ContentData): Content {
    Content(id, contentName, u.sharedContentType, CreatedDescription, u.behaviour.apiUser, [SerTag],
            u.behaviour.createdMetaData, u.behaviour.Published(data.externalPath), Some(data))
  }

  /** Absent content is created; existing content is updated in OVERRIDE
      mode and refused in CREATEONLY mode. */
  function Publish(u: HubUpload, store: HubStore, contentName: string, data: ContentData, hubUser: string): (r: Result<Published>)
    ensures var existing := FindContent(store.contents, contentName, Some(hubUser));
      && (existing.None? ==>
            r == Success(Published(HubStore(store.contents + [NewContent(u, store.nextId, contentName, data)], store.nextId + 1),
                                   store.nextId)))
      && (existing.Some? && u.mode == DS.OVERRIDE ==>
            r == Success(Published(store.(contents := UpdateContent(store.contents, existing.value.id, data,
                                                                     u.behaviour.Published(data.externalPath))),
                                   existing.value.id)))
      && (existing.Some? && u.mode != DS.OVERRIDE ==> r == Failure(AlreadyExistMessage(contentName)))
  {
    match FindContent(store.contents, contentName, Some(hubUser))
    case None =>
      Success(Published(HubStore(store.contents + [NewContent(u, store.nextId, contentName, data)], store.nextId + 1), store.nextId))
    case Some(c) =>
      if u.mode == DS.OVERRIDE then
        Success(Published(store.(contents := UpdateContent(store.contents, c.id, data, u.behaviour.Published(data.externalPath))), c.id))
      else Failure(AlreadyExistMessage(contentName))
  }

  /** The first reference of the content whose logical path contains
      "/{filename}", by its external path. */
  function FindLink(refs: seq<Reference>, filename: string): (r: Option<string>)
    ensures r.Some? ==> exists k :: 0 <= k < |refs| && refs[k].externalPath == r.value
                          && Text.Contains(refs[k].logicalPath, "/" + filename)
    ensures r.None? ==> forall k :: 0 <= k < |refs| ==> !Text.Contains(refs[k].logicalPath, "/" + filename)
  {
    if refs == [] then None
    else if Text.Contains(refs[0].logicalPath, "/" + filename) then Some(refs[0].externalPath)
    else
      var r := FindLink(refs[1..], filename);
      assert forall k :: 1 <= k < |refs| ==> refs[k] == refs[1..][k - 1];
      r
  }

  datatype Step = Step(store: HubStore, disk: Jobs.Disk, result: Result<R.BaseResult>)

  /** The error result of the catch block; it names no report. */
  function Failed(task: string, message: string): R.BaseResult {
    R.BaseResult(R.Hub("", ""), task, false, message, "", "ERROR")
  }

  /** The result of an uploaded path. */
  function Succeeded(u: HubUpload, contentName: string, link: string, failedBefore: bool): R.BaseResult {
    R.BaseResult(R.Hub(link, FullLink(u.behaviour.connectUri, link)), u.task, true, SuccessMessage, contentName,
                 if failedBefore then "ERROR" else u.state)
  }

  /** `r` is the result of an uploaded path, with some download link. */
  predicate SucceededFor(r: R.BaseResult, u: HubUpload, contentName: string, failedBefore: bool) {
    r.kind.Hub? && r == Succeeded(u, contentName, r.kind.link, failedBefore)
  }

  /** After the content is stored: the owner change, then the download
      link, looked up afresh. */
  function Finish(u: HubUpload, item: Item, publisher: Publisher, published: Published, disk: Jobs.Disk, failedBefore: bool): (s: Step)
    ensures s.result.Success? ==> SucceededFor(s.result.value, u, item.contentName, failedBefore)
  {
    var store := if publisher.hubUserId.None? then published.store
                 else published.store.(contents := ChangeOwner(published.store.contents, published.id,
                                                               publisher.hubUser, u.sharedContentType));
    var info := FindContent(store.contents, item.contentName, Some(publisher.hubUser));
    var link := if info.None? then None else FindLink(info.value.references, item.filename);
    if link.None? then
      var count := if info.None? then None else Some(|info.value.references|);
      Step(store, disk, Failure(NoLinkMessage(item.filename, count, publisher.hubUser)))
    else Step(store, disk, Success(Succeeded(u, item.contentName, link.value, failedBefore)))
  }

  /** One path of the upload loop; `failedBefore` says whether an earlier
      path failed, which has set the job to ERROR. */
  function UploadOne(u: HubUpload, store: HubStore, disk: Jobs.Disk, item: Item, failedBefore: bool): (s: Step)
    ensures s.result.Success? ==>
      && item.fileData.Some? && (u.mode == DS.OVERRIDE || u.mode == DS.CREATEONLY)
      && item.path != item.copyPath
      && SucceededFor(s.result.value, u, item.contentName, failedBefore)
  {
    if item.fileData.None? then Step(store, disk, Failure(NullReferenceMessage))
    else
      match disk.Copy(item.path, item.copyPath, true)
      case Failure(e) => Step(store, disk, Failure(e))
      case Success(disk2) =>
        if u.mode != DS.OVERRIDE && u.mode != DS.CREATEONLY then Step(store, disk2, Failure(UnknownModeMessage(u.mode)))
        else
          match ResolveOwner(u.owner, u.sessionUser, u.behaviour)
          case Failure(e) => Step(store, disk2, Failure(e))
          case Success(publisher) =>
            match Publish(u, store, item.contentName, item.data, publisher.hubUser)
            case Failure(e) => Step(store, disk2, Failure(e))
            case Success(published) => Finish(u, item, publisher, published, disk2, failedBefore)
  }

  /** The upload loop after its first `n` paths; `lastFailure` is the
      message the job was last failed with. */
  datatype Progress = Progress(store: HubStore, disk: Jobs.Disk, results: seq<R.BaseResult>, lastFailure: Option<string>)

  /** A per-path step: the hub and the disk before it, the path's item, and
      whether an earlier path failed. */
  type StepFn = (HubStore, Jobs.Disk, Item, bool) -> Step

  /** The step of the hub upload. */
  function StepOf(u: HubUpload): StepFn {
    (store: HubStore, disk: Jobs.Disk, item: Item, failedBefore: bool) => UploadOne(u, store, disk, item, failedBefore)
  }

  /** The result the loop adds for a step: its own, or the error result of
      the catch block. */
  function Outcome(s: Step, task: string): (r: R.BaseResult)
    ensures s.result.Failure? ==> r == Failed(task, s.result.error)
    ensures s.result.Success? ==> r == s.result.value
  {
    match s.result
    case Success(r) => r
    case Failure(e) => Failed(task, e)
  }

  /** The loop over the first `n` paths with the per-path step `step`
      (StepOf for the hub upload); a failing step fails the job and the
      loop goes on. */
  function UploadPaths(step: StepFn, task: string, items: seq<Item>, disk: Jobs.Disk, store: HubStore, n: nat): (p: Progress)
    requires n <= |items|
    ensures |p.results| == n
  {
    if n == 0 then Progress(store, disk, [], None)
    else
      var p := UploadPaths(step, task, items, disk, store, n - 1);
      var s := step(p.store, p.disk, items[n - 1], p.lastFailure.Some?);
      Progress(s.store, s.disk, p.results + [Outcome(s, task)],
               if s.result.Failure? then Some(s.result.error) else p.lastFailure)
  }

  /** The step the loop takes for path `j`. */
  function StepAt(step: StepFn, task: string, items: seq<Item>, disk: Jobs.Disk, store: HubStore, j: nat): Step
    requires j < |items|
  {
    var p := UploadPaths(step, task, items, disk, store, j);
    step(p.store, p.disk, items[j], p.lastFailure.Some?)
  }

  /** The owner whose reports the purge deletes. */
  function PurgeOwner(settings: S.HubSettings, sessionUser: string): string {
    if settings.owner.Some? then settings.owner.value else sessionUser
  }

  /** The purge a DELETEALLFIRST upload starts with. */
  function PurgeOf(report: Jobs.Report, settings: S.HubSettings, sessionUser: string, contents: seq<Content>): Purge {
    PurgePaths(PathNames(report), contents, PurgeOwner(settings, sessionUser), contents, |report.paths|)
  }

  /** The upload loop's inputs after the checks and the purge. */
  function UploadOf(report: Jobs.Report, settings: S.HubSettings, sessionUser: string, behaviour: Behaviour,
                    contents: seq<Content>, task: string, status: Jobs.TaskStatus): HubUpload
  {
    var mode := if settings.mode == DS.DELETEALLFIRST && PurgeOf(report, settings, sessionUser, contents).ok
                then DS.CREATEONLY else settings.mode;
    HubUpload(report, mode, sessionUser, settings.owner, DS.Str(settings.sharedContentType), behaviour,
              task, Text.ToUpper(status.Name()))
  }

  /** What one UploadToHub call does: Failure is the exception it throws
      before touching anything; otherwise the hub, the disk, the results it
      adds and the job's last failure. */
  function HubOutcome(report: Jobs.Report, settings: S.HubSettings, sessionUser: Option<string>, behaviour: Behaviour,
                      store: HubStore, disk: Jobs.Disk, task: string, status: Jobs.TaskStatus): Result<Progress>
  {
    if report.name == "" then Failure(EmptyNameMessage)
    else if sessionUser.None? then Failure(NoSessionUserMessage)
    else
      var contents := if settings.mode == DS.DELETEALLFIRST
                      then PurgeOf(report, settings, sessionUser.value, store.contents).contents
                      else store.contents;
      var u := UploadOf(report, settings, sessionUser.value, behaviour, store.contents, task, status);
      Success(UploadPaths(StepOf(u), u.task, u.Items(), disk, store.(contents := contents), |report.paths|))
  }

  /** Later paths leave the results of earlier ones alone. */
  lemma {:induction false} UploadPathsPrefix(step: StepFn, task: string, items: seq<Item>, disk: Jobs.Disk, store: HubStore,
                                             m: nat, n: nat, j: nat)
    requires j < m <= n <= |items|
    ensures UploadPaths(step, task, items, disk, store, n).results[j] == UploadPaths(step, task, items, disk, store, m).results[j]
    decreases n
  {
    if m < n {
      UploadPathsPrefix(step, task, items, disk, store, m, n - 1, j);
    }
  }

  /** The result of path `j` is the outcome of its step. */
  lemma UploadPathsResultAt(step: StepFn, task: string, items: seq<Item>, disk: Jobs.Disk, store: HubStore, n: nat, j: nat)
    requires j < n <= |items|
    ensures UploadPaths(step, task, items, disk, store, n).results[j] == Outcome(StepAt(step, task, items, disk, store, j), task)
  {
    UploadPathsPrefix(step, task, items, disk, store, j + 1, n, j);
  }

  /** Once a path has failed the job keeps a failure. */
  lemma {:induction false} FailureSticks(step: StepFn, task: string, items: seq<Item>, disk: Jobs.Disk, store: HubStore,
                                         m: nat, n: nat)
    requires m <= n <= |items| && UploadPaths(step, task, items, disk, store, m).lastFailure.Some?
    ensures UploadPaths(step, task, items, disk, store, n).lastFailure.Some?
    decreases n
  {
    if m < n {
      FailureSticks(step, task, items, disk, store, m, n - 1);
    }
  }

  /** The job keeps a failure exactly when some step failed. */
  lemma {:induction false} UploadPathsFailure(step: StepFn, task: string, items: seq<Item>, disk: Jobs.Disk, store: HubStore, n: nat)
    requires n <= |items|
    ensures UploadPaths(step, task, items, disk, store, n).lastFailure.Some? <==>
              exists j :: 0 <= j < n && StepAt(step, task, items, disk, store, j).result.Failure?
    decreases n
  {
    if n > 0 {
      UploadPathsFailure(step, task, items, disk, store, n - 1);
      if StepAt(step, task, items, disk, store, n - 1).result.Failure? {
        assert UploadPaths(step, task, items, disk, store, n).lastFailure.Some?;
      }
    }
  }

  /** The result of each hub path: the success result of its content
      name, whose state is "ERROR" exactly when an earlier path failed (or
      the job's state), or the error result of its failure. */
  lemma UploadResultAt(u: HubUpload, items: seq<Item>, disk: Jobs.Disk, store: HubStore, n: nat, j: nat)
    requires j < n <= |items|
    ensures var r := UploadPaths(StepOf(u), u.task, items, disk, store, n).results[j];
      && (r.success <==> StepAt(StepOf(u), u.task, items, disk, store, j).result.Success?)
      && (r.success ==> SucceededFor(r, u, items[j].contentName,
                                     UploadPaths(StepOf(u), u.task, items, disk, store, j).lastFailure.Some?))
      && (!r.success ==> r == Failed(u.task, r.message))
  {
    UploadPathsResultAt(StepOf(u), u.task, items, disk, store, n, j);
    var p := UploadPaths(StepOf(u), u.task, items, disk, store, j);
    assert StepAt(StepOf(u), u.task, items, disk, store, j) == UploadOne(u, p.store, p.disk, items[j], p.lastFailure.Some?);
  }

  /** A path after a failed one reports the job's new state, "ERROR". */
  lemma StateAfterFailure(u: HubUpload, items: seq<Item>, disk: Jobs.Disk, store: HubStore, n: nat, j: nat, k: nat)
    requires j < k < n <= |items|
    requires !UploadPaths(StepOf(u), u.task, items, disk, store, n).results[j].success
    ensures UploadPaths(StepOf(u), u.task, items, disk, store, n).results[k].reportState == "ERROR"
  {
    UploadResultAt(u, items, disk, store, n, j);
    UploadPathsFailure(StepOf(u), u.task, items, disk, store, k);
    UploadResultAt(u, items, disk, store, n, k);
  }

  /** An unknown mode fails every path. */
  lemma {:induction false} UnknownModeFailsAll(u: HubUpload, items: seq<Item>, disk: Jobs.Disk, store: HubStore, n: nat)
    requires u.mode != DS.OVERRIDE && u.mode != DS.CREATEONLY && n <= |items|
    ensures forall j :: 0 <= j < n ==> !UploadPaths(StepOf(u), u.task, items, disk, store, n).results[j].success
    decreases n
  {
    if n > 0 {
      UnknownModeFailsAll(u, items, disk, store, n - 1);
      var p := UploadPaths(StepOf(u), u.task, items, disk, store, n - 1);
      assert StepOf(u)(p.store, p.disk, items[n - 1], p.lastFailure.Some?).result.Failure?;
    }
  }

  /** The purge, then the loop: one result per path; with DELETEALLFIRST
      the purge only deletes the owner's reports of the report's content
      names, a completed purge uploads in CREATEONLY mode, and a failed one
      leaves the mode, so that every path fails as an unknown hub mode. */
  lemma HubOutcomeResults(report: Jobs.Report, settings: S.HubSettings, sessionUser: Option<string>, behaviour: Behaviour,
                          store: HubStore, disk: Jobs.Disk, task: string, status: Jobs.TaskStatus)
    requires UniqueIds(store.contents)
    ensures var o := HubOutcome(report, settings, sessionUser, behaviour, store, disk, task, status);
      && (o.Failure? <==> report.name == "" || sessionUser.None?)
      && (o.Success? ==> |o.value.results| == |report.paths|)
      && (o.Success? && settings.mode == DS.DELETEALLFIRST ==>
            var purge := PurgeOf(report, settings, sessionUser.value, store.contents);
            && PurgedFrom(PathNames(report), PurgeOwner(settings, sessionUser.value), store.contents, purge.contents)
            && (purge.ok ==> UploadOf(report, settings, sessionUser.value, behaviour, store.contents, task, status).mode == DS.CREATEONLY)
            && (!purge.ok ==> forall j :: 0 <= j < |report.paths| ==> !o.value.results[j].success))
  {
    var o := HubOutcome(report, settings, sessionUser, behaviour, store, disk, task, status);
    if o.Success? && settings.mode == DS.DELETEALLFIRST {
      var purge := PurgeOf(report, settings, sessionUser.value, store.contents);
      PurgePathsRemovesOnly(PathNames(report), PurgeOwner(settings, sessionUser.value), store.contents, |report.paths|);
      if !purge.ok {
        var u := UploadOf(report, settings, sessionUser.value, behaviour, store.contents, task, status);
        UnknownModeFailsAll(u, u.Items(), disk, store.(contents := purge.contents), |report.paths|);
      }
    }
  }

  /** The mode rules of one path whose data and copy succeed and that has
      no configured owner: absent content is created under the content
      name, owned by the QRS user; CREATEONLY refuses existing content and
      leaves the hub as it was; OVERRIDE replaces the existing record's
      file and references and nothing else, and leaves the other records. */
  lemma ModeRules(u: HubUpload, store: HubStore, disk: Jobs.Disk, item: Item, failedBefore: bool)
    requires u.owner.None? && item.fileData.Some? && item.path in disk.files && disk.HasFolderOf(item.copyPath)
    requires item.path != item.copyPath
    ensures var existing := FindContent(store.contents, item.contentName, Some(u.sessionUser));
      var s := UploadOne(u, store, disk, item, failedBefore);
      && (u.mode == DS.CREATEONLY && existing.Some? ==>
            s.store == store && s.result == Failure(AlreadyExistMessage(item.contentName)))
      && ((u.mode == DS.CREATEONLY || u.mode == DS.OVERRIDE) && existing.None? ==>
            s.store == HubStore(store.contents + [NewContent(u, store.nextId, item.contentName, item.data)], store.nextId + 1))
      && (u.mode == DS.OVERRIDE && existing.Some? ==>
            s.store == store.(contents := UpdateContent(store.contents, existing.value.id, item.data,
                                                        u.behaviour.Published(item.data.externalPath))))
      && (u.mode != DS.CREATEONLY && u.mode != DS.OVERRIDE ==>
            s.store == store && s.result == Failure(UnknownModeMessage(u.mode)))
  {
  }

  /** A rendered file that already carries the report's name is its own
      copy path; copying it onto itself throws, so the path fails with
      that exception and nothing else changes. */
  lemma SelfCopyFails(u: HubUpload, store: HubStore, disk: Jobs.Disk, item: Item, failedBefore: bool)
    requires item.fileData.Some? && item.path in disk.files && disk.HasFolderOf(item.path)
    requires item.copyPath == item.path
    ensures UploadOne(u, store, disk, item, failedBefore) == Step(store, disk, Failure(Jobs.InUse(item.path)))
  {
  }

  /** A report "Sales" rendered to "C:\\job\\Sales.xlsx" is such a file. */
  lemma SalesIsOwnCopy()
    ensures CopyPath("Sales", "C:\\job\\Sales.xlsx") == "C:\\job\\Sales.xlsx"
  {
    var path := "C:\\job\\Sales.xlsx";
    assert path[6] in Paths.Separators;
    assert forall j :: 6 < j < |path| ==> path[j] !in Paths.Separators;
    assert Paths.LastIndexIn(path, Paths.Separators) == 6;
    assert Paths.GetDirectoryName(path) == "C:\\job";
    assert Paths.GetFileName(path) == "Sales.xlsx";
    assert "Sales.xlsx"[5] == '.';
    assert forall j :: 5 < j < 10 ==> "Sales.xlsx"[j] != '.';
    assert Paths.LastIndexIn("Sales.xlsx", {'.'}) == 5;
    assert Paths.GetExtension(path) == ".xlsx";
    assert "Sales" + ".xlsx" == "Sales.xlsx";
    assert !Paths.IsRooted("Sales.xlsx");
    assert Paths.Combine("C:\\job", "Sales.xlsx") == "C:\\job" + "\\" + "Sales.xlsx" == path;
  }

  /** An owner whose user query fails makes the path fail without changing
      the hub; once exactly one user is found, the stored content is given
      to the owner. */
  lemma OwnerRules(u: HubUpload, store: HubStore, disk: Jobs.Disk, item: Item, failedBefore: bool)
    requires u.owner.Some? && (u.mode == DS.CREATEONLY || u.mode == DS.OVERRIDE)
    requires item.fileData.Some? && item.path in disk.files && disk.HasFolderOf(item.copyPath)
    requires item.path != item.copyPath
    ensures var o := u.owner.value;
      var s := UploadOne(u, store, disk, item, failedBefore);
      && ((o !in u.behaviour.users || u.behaviour.users[o].text == "[]") ==>
            s.store == store && s.result == Failure(UserNotFoundMessage(o)))
      && (o in u.behaviour.users && u.behaviour.users[o].text != "[]" && |u.behaviour.users[o].ids| > 1 ==>
            s.store == store && s.result == Failure(TooManyUsersMessage(u.behaviour.users[o].text)))
      && (o in u.behaviour.users && u.behaviour.users[o].text != "[]" && |u.behaviour.users[o].ids| == 1 ==>
            var pub := Publish(u, store, item.contentName, item.data, o);
            pub.Success? ==>
              s.store.contents == ChangeOwner(pub.value.store.contents, pub.value.id, o, u.sharedContentType))
  {
  }

  /** The hub sink of one job. */
  class HubAction {
    const jobResult: Jobs.JobResult
    var results: seq<R.BaseResult>

    constructor(jobResult: Jobs.JobResult)
      ensures this.jobResult == jobResult && results == []
    {
      this.jobResult := jobResult;
      results := [];
    }

    /** Uploads the report's rendered files to the hub. An empty report
        name or a missing session user is thrown to the caller; a failing
        path adds an error result and the loop goes on. */
    method UploadToHub(report: Jobs.Report, settings: S.HubSettings, sessionUser: Option<string>,
                       connection: Jobs.Connection, hub: QlikHub, fs: Jobs.FileSystem)
      returns (thrown: Option<string>)
      modifies this, jobResult, hub, fs, connection
      ensures jobResult.taskName == old(jobResult.taskName)
      ensures match HubOutcome(report, settings, sessionUser, hub.behaviour, old(hub.store), old(fs.disk),
                               old(jobResult.taskName), old(jobResult.status))
        case Failure(e) =>
          && thrown == Some(e) && results == old(results) && hub.store == old(hub.store) && fs.disk == old(fs.disk)
          && jobResult.status == old(jobResult.status) && jobResult.exception == old(jobResult.exception)
          && connection.isFree == old(connection.isFree)
        case Success(p) =>
          && thrown.None? && hub.store == p.store && fs.disk == p.disk && results == old(results) + p.results
          && (p.lastFailure.Some? ==> jobResult.status == Jobs.ERROR && jobResult.exception == p.lastFailure)
          && (p.lastFailure.None? ==> jobResult.status == old(jobResult.status) && jobResult.exception == old(jobResult.exception))
          && connection.isFree == (old(connection.isFree) || |report.paths| > 0)
    {
      if report.name == "" {
        return Some(EmptyNameMessage);
      }
      if sessionUser.None? {
        return Some(NoSessionUserMessage);
      }
      var mode := settings.mode;
      if mode == DS.DELETEALLFIRST {
        mode := DeleteReportsFromHub(report, settings, sessionUser.value, hub);
      }
      var u := HubUpload(report, mode, sessionUser.value, settings.owner, DS.Str(settings.sharedContentType),
                         hub.behaviour, jobResult.taskName, BaseAction.GetFormatedState(jobResult));
      assert u == UploadOf(report, settings, sessionUser.value, hub.behaviour, old(hub.store.contents),
                           old(jobResult.taskName), old(jobResult.status));
      UploadPathsLoop(StepOf(u), u.task, u.Items(), connection, hub, fs);
      thrown := None;
    }

    /** The loop over the report's paths; each path's failure sets the job
        to ERROR and adds an error result, and the connection is released
        after every path. */
    method UploadPathsLoop(step: StepFn, task: string, items: seq<Item>, connection: Jobs.Connection, hub: QlikHub, fs: Jobs.FileSystem)
      modifies this`results, jobResult, hub, fs, connection
      ensures var p := UploadPaths(step, task, items, old(fs.disk), old(hub.store), |items|);
        && hub.store == p.store && fs.disk == p.disk && results == old(results) + p.results
        && (p.lastFailure.Some? ==> jobResult.status == Jobs.ERROR && jobResult.exception == p.lastFailure)
        && (p.lastFailure.None? ==> jobResult.status == old(jobResult.status) && jobResult.exception == old(jobResult.exception))
        && connection.isFree == (old(connection.isFree) || |items| > 0)
        && jobResult.taskName == old(jobResult.taskName)
    {
      var i := 0;
      var failedBefore := false;
      while i < |items|
        invariant 0 <= i <= |items|
        invariant var p := UploadPaths(step, task, items, old(fs.disk), old(hub.store), i);
          && hub.store == p.store && fs.disk == p.disk && results == old(results) + p.results
          && failedBefore == p.lastFailure.Some?
          && (p.lastFailure.Some? ==> jobResult.status == Jobs.ERROR && jobResult.exception == p.lastFailure)
          && (p.lastFailure.None? ==> jobResult.status == old(jobResult.status) && jobResult.exception == old(jobResult.exception))
        invariant connection.isFree == (old(connection.isFree) || i > 0)
        invariant jobResult.taskName == old(jobResult.taskName)
      {
        failedBefore := UploadNext(step, task, items, hub, fs, i, failedBefore,
                                   old(fs.disk), old(hub.store), old(results), old(jobResult.status), old(jobResult.exception));
        connection.isFree := true;
        i := i + 1;
      }
    }

    /** One turn of the upload loop: path `i` after the first `i` paths,
        started from `disk0`, `store0` and `results0` with the job at
        `status0` and `exception0`. */
    method UploadNext(step: StepFn, task: string, items: seq<Item>, hub: QlikHub, fs: Jobs.FileSystem, i: nat, failedBefore: bool,
                      ghost disk0: Jobs.Disk, ghost store0: HubStore, ghost results0: seq<R.BaseResult>,
                      ghost status0: Jobs.TaskStatus, ghost exception0: Option<string>)
      returns (failed: bool)
      requires i < |items|
      requires var p := UploadPaths(step, task, items, disk0, store0, i);
        && hub.store == p.store && fs.disk == p.disk && results == results0 + p.results
        && failedBefore == p.lastFailure.Some?
        && (p.lastFailure.Some? ==> jobResult.status == Jobs.ERROR && jobResult.exception == p.lastFailure)
        && (p.lastFailure.None? ==> jobResult.status == status0 && jobResult.exception == exception0)
      modifies this`results, jobResult, hub, fs
      ensures var p := UploadPaths(step, task, items, disk0, store0, i + 1);
        && hub.store == p.store && fs.disk == p.disk && results == results0 + p.results
        && failed == p.lastFailure.Some?
        && (p.lastFailure.Some? ==> jobResult.status == Jobs.ERROR && jobResult.exception == p.lastFailure)
        && (p.lastFailure.None? ==> jobResult.status == status0 && jobResult.exception == exception0)
      ensures jobResult.taskName == old(jobResult.taskName)
    {
      failed := failedBefore;
      var s := step(hub.store, fs.disk, items[i], failedBefore);
      hub.store := s.store;
      fs.disk := s.disk;
      if s.result.Success? {
        results := results + [s.result.value];
      } else {
        jobResult.Fail(s.result.error);
        results := results + [Failed(task, s.result.error)];
        failed := true;
      }
    }

    /** Deletes the earlier reports of the owner (the configured one, or
        the session user) and gives the mode the upload then uses:
        CREATEONLY once the purge completes; when it fails, the error is
        swallowed and the mode stays as it was. */
    static method DeleteReportsFromHub(report: Jobs.Report, settings: S.HubSettings, sessionUser: string, hub: QlikHub)
      returns (mode: DS.DistributeMode)
      modifies hub
      ensures var purge := PurgeOf(report, settings, sessionUser, old(hub.store.contents));
        && hub.store == old(hub.store).(contents := purge.contents)
        && mode == if purge.ok then DS.CREATEONLY else settings.mode
    {
      var ok := PurgeLoop(PathNames(report), hub.store.contents, PurgeOwner(settings, sessionUser), hub);
      mode := if ok then DS.CREATEONLY else settings.mode;
    }

    /** The outer loop of the purge, over the content names of the paths;
        the records of each name are looked up in `snapshot`. */
    static method PurgeLoop(names: seq<Option<string>>, snapshot: seq<Content>, owner: string, hub: QlikHub)
      returns (ok: bool)
      modifies hub
      ensures var purge := PurgePaths(names, snapshot, owner, old(hub.store.contents), |names|);
        hub.store == old(hub.store).(contents := purge.contents) && ok == purge.ok
    {
      ok := true;
      var i := 0;
      while i < |names| && ok
        invariant 0 <= i <= |names|
        invariant var purge := PurgePaths(names, snapshot, owner, old(hub.store.contents), i);
          hub.store == old(hub.store).(contents := purge.contents) && ok == purge.ok
      {
        if names[i].None? {
          ok := false;
        } else {
          ok := DeleteMatches(Named(snapshot, names[i].value), owner, hub);
        }
        i := i + 1;
      }
      if !ok {
        PurgePathsStops(names, snapshot, owner, old(hub.store.contents), i, |names|);
      }
    }

    /** The inner loop of the purge over the records of one name. */
    static method DeleteMatches(matches: seq<Content>, owner: string, hub: QlikHub) returns (ok: bool)
      modifies hub
      ensures var purge := PurgeMatches(old(hub.store.contents), matches, owner, |matches|);
        hub.store == old(hub.store).(contents := purge.contents) && ok == purge.ok
    {
      ok := true;
      var k := 0;
      while k < |matches| && ok
        invariant 0 <= k <= |matches|
        invariant var purge := PurgeMatches(old(hub.store.contents), matches, owner, k);
          hub.store == old(hub.store).(contents := purge.contents) && ok == purge.ok
      {
        var check := Deletable(matches[k], owner);
        if check.Failure? {
          ok := false;
        } else if check.value {
          hub.store := hub.store.(contents := RemoveContent(hub.store.contents, matches[k].id));
        }
        k := k + 1;
      }
      if !ok {
        PurgeMatchesStops(old(hub.store.contents), matches, owner, k, |matches|);
      }
    }
  }

  lemma {:induction false} PurgeMatchesStops(contents: seq<Content>, matches: seq<Content>, owner: string, i: nat, n: nat)
    requires i <= n <= |matches| && !PurgeMatches(contents, matches, owner, i).ok
    ensures PurgeMatches(contents, matches, owner, n) == PurgeMatches(contents, matches, owner, i)
    decreases n
  {
    if n > i {
      PurgeMatchesStops(contents, matches, owner, i, n - 1);
    }
  }

  lemma {:induction false} PurgePathsStops(names: seq<Option<string>>, snapshot: seq<Content>, owner: string,
                                           contents: seq<Content>, i: nat, n: nat)
    requires i <= n <= |names| && !PurgePaths(names, snapshot, owner, contents, i).ok
    ensures PurgePaths(names, snapshot, owner, contents, n) == PurgePaths(names, snapshot, owner, contents, i)
    decreases n
  {
    if n > i {
      PurgePathsStops(names, snapshot, owner, contents, i, n - 1);
    }
  }
}
