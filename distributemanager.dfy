/** The fan-out of the distribution (src/DistributeManager.cs): every job
    result gets a task name, a job whose status rules out delivery gets one
    status result, and every active location of every report of the other
    jobs goes to its sink; mails are sent once per job, then the messengers
    report what was collected so far. The collected results are sorted by
    task name and their states normalised. */
module DistributeManager {
  import opened Wrappers
  import Text
  import J = Json
  import Jobs
  import R = DistributeResults
  import S = ActionSettings
  import DS = DistributeSettings
  import BaseAction
  import SM = ServiceMessenger
  import M = Messenger
  import N = ResultNormalizer
  import FS = FileSystemAction
  import Ftp = FtpAction
  import Hub = HubAction
  import Mail = MailAction

  // ---------------------------------------------------------------------
  // Locations and their types
  // ---------------------------------------------------------------------

  /** A child of a report's "distribute" section: a property of an object
      or an item of an array. */
  datatype Location = PropertyLocation(prop: J.Prop) | ItemLocation(item: J.Json)

  /** `distribute?.Children()`: the properties of an object, the items of
      an array; a missing section or a plain value has none. */
  function Locations(distribute: Option<J.Json>): seq<Location> {
    if distribute.None? then []
    else match distribute.value
      case JObj(ps) => seq(|ps|, i requires 0 <= i < |ps| => PropertyLocation(ps[i]))
      case JArr(items) => seq(|items|, i requires 0 <= i < |items| => ItemLocation(items[i]))
      case _ => []
  }

  /** `ToObject<bool>()`: a boolean, a number (zero is false), or a string
      that `Boolean.Parse` accepts; anything else throws (None). */
  function ToBool(j: J.Json): (b: Option<bool>)
    ensures j.JBool? ==> b == Some(j.b)
    ensures j.JInt? ==> b == Some(j.i != 0)
    ensures j.JStr? ==> (b == Some(true) <==> Text.ToLower(Text.Trim(j.s)) == "true")
    ensures j.JStr? ==> (b == Some(false) <==> Text.ToLower(Text.Trim(j.s)) == "false")
    ensures j.JNull? || j.JArr? || j.JObj? ==> b.None?
  {
    match j
    case JBool(v) => Some(v)
    case JInt(i) => Some(i != 0)
    case JStr(s) =>
      var t := Text.ToLower(Text.Trim(s));
      if t == "true" then Some(true) else if t == "false" then Some(false) else None
    case _ => None
  }

  /** `json.Children()["active"]...FirstOrDefault()?.ToObject<bool>() ?? false`
      on a property: the children are its value; an object without "active"
      is inactive, an "active" that does not convert throws, and so does
      indexing a value that is not an object (None: the settings are null). */
  function ActiveOf(value: J.Json): (a: Option<bool>)
    ensures !value.JObj? ==> a.None?
    ensures value.JObj? && J.Lookup(value.props, "active").None? ==> a == Some(false)
    ensures value.JObj? && J.Lookup(value.props, "active").Some? ==> a == ToBool(J.Lookup(value.props, "active").value)
  {
    if !value.JObj? then None
    else match J.Lookup(value.props, "active")
      case None => Some(false)
      case Some(v) => ToBool(v)
  }

  /** The delivery type a property name starts with, tried in the order
      mail, hub, file, ftp, messenger; no other name has one. */
  function TypeOfName(name: string): (t: Option<S.SettingsType>)
  {
    if "mail" <= name then Some(S.MAIL)
    else if "hub" <= name then Some(S.HUB)
    else if "file" <= name then Some(S.FILE)
    else if "ftp" <= name then Some(S.FTP)
    else if "messenger" <= name then Some(S.MESSENGER)
    else None
  }

  /** No name starts with two of the prefixes. */
  lemma PrefixesExclusive(name: string)
    ensures "mail" <= name ==> !("hub" <= name || "file" <= name || "ftp" <= name || "messenger" <= name)
    ensures "hub" <= name ==> !("file" <= name || "ftp" <= name || "messenger" <= name)
    ensures "file" <= name ==> !("ftp" <= name || "messenger" <= name)
    ensures "ftp" <= name ==> !("messenger" <= name)
  {
    if |name| >= 2 {
      assert "mail" <= name ==> name[0] == 'm' && name[1] == 'a';
      assert "messenger" <= name ==> name[0] == 'm' && name[1] == 'e';
      assert "hub" <= name ==> name[0] == 'h';
      assert "file" <= name ==> name[0] == 'f' && name[1] == 'i';
      assert "ftp" <= name ==> name[0] == 'f' && name[1] == 't';
    }
  }

  /** `GetSettings<DistributeSettings>(location, true)`: the type and the
      activation of a location; None (null) for an array item, for a name
      without a known prefix, and when reading "active" throws. */
  function Classify(l: Location): (p: Option<S.Probe>)
  {
    match l
    case ItemLocation(_) => None
    case PropertyLocation(prop) =>
      match ActiveOf(prop.value)
      case None => None
      case Some(a) =>
        match TypeOfName(prop.name)
        case None => None
        case Some(t) => Some(S.Probe(a, t))
  }

  /** The prefixes decide the type, and no name has two of them. */
  lemma TypeOfNameMeaning(name: string)
    ensures TypeOfName(name) == Some(S.MAIL) <==> "mail" <= name
    ensures TypeOfName(name) == Some(S.HUB) <==> "hub" <= name
    ensures TypeOfName(name) == Some(S.FILE) <==> "file" <= name
    ensures TypeOfName(name) == Some(S.FTP) <==> "ftp" <= name
    ensures TypeOfName(name) == Some(S.MESSENGER) <==> "messenger" <= name
    ensures TypeOfName(name).None? <==> !("mail" <= name || "hub" <= name || "file" <= name || "ftp" <= name || "messenger" <= name)
  {
    PrefixesExclusive(name);
  }

  /** An array item is never classified; a property is when its "active"
      converts and its name has a known prefix. */
  lemma ClassifyMeaning(l: Location)
    ensures l.ItemLocation? ==> Classify(l).None?
    ensures Classify(l).Some? <==> l.PropertyLocation? && ActiveOf(l.prop.value).Some? && TypeOfName(l.prop.name).Some?
    ensures Classify(l).Some? ==> Classify(l).value.active == ActiveOf(l.prop.value).value
    ensures Classify(l).Some? ==> Classify(l).value.settingsType == TypeOfName(l.prop.name).value && !Classify(l).value.settingsType.UndefinedSettingsType?
  {
  }

  /** `f` applied to every item in order; None as soon as one gives None. */
  function CollectAll<T, U>(f: T -> Option<U>, xs: seq<T>): (ys: Option<seq<U>>)
    ensures ys.Some? ==> |ys.value| == |xs|
  {
    if xs == [] then Some([])
    else match CollectAll(f, xs[..|xs| - 1])
      case None => None
      case Some(init) =>
        match f(xs[|xs| - 1])
        case None => None
        case Some(y) => Some(init + [y])
  }

  /** CollectAll succeeds exactly when `f` does on every item, and then
      holds its results. */
  lemma {:induction false} CollectAllMeaning<T, U>(f: T -> Option<U>, xs: seq<T>)
    ensures CollectAll(f, xs).Some? <==> forall k :: 0 <= k < |xs| ==> f(xs[k]).Some?
    ensures CollectAll(f, xs).Some? ==> forall k :: 0 <= k < |xs| ==> f(xs[k]) == Some(CollectAll(f, xs).value[k])
  {
    if xs != [] {
      var init := xs[..|xs| - 1];
      CollectAllMeaning(f, init);
      assert forall k :: 0 <= k < |init| ==> init[k] == xs[k];
      if CollectAll(f, xs).Some? {
        var ys := CollectAll(f, init).value;
        var y := f(xs[|xs| - 1]).value;
        assert CollectAll(f, xs).value == ys + [y];
        assert forall k :: 0 <= k < |init| ==> (ys + [y])[k] == ys[k];
      }
    }
  }

  /** The probes of all locations in order; None when one of them is null,
      which makes the report throw. */
  function ClassifyAll(ls: seq<Location>): (ps: Option<seq<S.Probe>>)
    ensures ps.Some? ==> |ps.value| == |ls|
  {
    CollectAll(Classify, ls)
  }

  /** ClassifyAll succeeds exactly when every location is classified, and
      then holds their probes. */
  lemma ClassifyAllMeaning(ls: seq<Location>)
    ensures ClassifyAll(ls).Some? <==> forall k :: 0 <= k < |ls| ==> Classify(ls[k]).Some?
    ensures ClassifyAll(ls).Some? ==> forall k :: 0 <= k < |ls| ==> Classify(ls[k]) == Some(ClassifyAll(ls).value[k])
  {
    CollectAllMeaning(Classify, ls);
  }

  /** Probes that are the classifications of the locations are what
      ClassifyAll returns. */
  lemma ClassifyAllOf(ls: seq<Location>, ps: seq<S.Probe>)
    requires |ps| == |ls| && forall k :: 0 <= k < |ls| ==> Classify(ls[k]) == Some(ps[k])
    ensures ClassifyAll(ls) == Some(ps)
  {
    ClassifyAllMeaning(ls);
    var qs := ClassifyAll(ls).value;
    assert forall k :: 0 <= k < |ls| ==> qs[k] == ps[k];
    assert qs == ps;
  }

  /** Classifying one more location of a prefix. */
  lemma ClassifyAllSnoc(ls: seq<Location>, j: nat, ps: seq<S.Probe>, p: S.Probe)
    requires j < |ls| && ClassifyAll(ls[..j]) == Some(ps) && Classify(ls[j]) == Some(p)
    ensures ClassifyAll(ls[..j + 1]) == Some(ps + [p])
  {
    assert ls[..j + 1][..j] == ls[..j];
  }

  /** The number of active probes. */
  function ActiveProbes(ps: seq<S.Probe>): (c: nat)
    ensures c <= |ps|
  {
    if ps == [] then 0 else ActiveProbes(ps[..|ps| - 1]) + (if ps[|ps| - 1].active then 1 else 0)
  }

  /** The number of active probes of type `t`. */
  function ProbesOf(ps: seq<S.Probe>, t: S.SettingsType): (c: nat)
    ensures c <= ActiveProbes(ps)
  {
    if ps == [] then 0
    else ProbesOf(ps[..|ps| - 1], t) + (if ps[|ps| - 1].active && ps[|ps| - 1].settingsType == t then 1 else 0)
  }

  lemma ProbesSnoc(ps: seq<S.Probe>, p: S.Probe)
    ensures ActiveProbes(ps + [p]) == ActiveProbes(ps) + (if p.active then 1 else 0)
    ensures forall t :: ProbesOf(ps + [p], t) == ProbesOf(ps, t) + (if p.active && p.settingsType == t then 1 else 0)
  {
    assert (ps + [p])[..|ps|] == ps;
  }

  function ReportLocations(r: Jobs.Report): seq<Location> {
    Locations(r.distribute)
  }

  function ReportProbes(r: Jobs.Report): Option<seq<S.Probe>> {
    ClassifyAll(ReportLocations(r))
  }

  /** The active locations of type `t` in the first `n` reports. */
  function ReportsCountOf(reports: seq<Jobs.Report>, t: S.SettingsType, n: nat): nat
    requires n <= |reports|
  {
    if n == 0 then 0
    else ReportsCountOf(reports, t, n - 1) + ProbesOf(ReportProbes(reports[n - 1]).GetOr([]), t)
  }

  /** A property of an object whose name starts like a delivery type is
      inactive unless it says otherwise, and one whose name starts with
      none of them is null. */
  lemma ClassifyDefaults(name: string, props: seq<J.Prop>)
    ensures J.Lookup(props, "active").None? && TypeOfName(name).Some? ==>
              Classify(PropertyLocation(J.Prop(name, J.JObj(props)))) == Some(S.Probe(false, TypeOfName(name).value))
    ensures TypeOfName(name).None? ==> Classify(PropertyLocation(J.Prop(name, J.JObj(props)))).None?
  {
  }

  /** "active" may be written as a string in any case, or as a number;
      a string Boolean.Parse refuses makes the settings null. */
  lemma ActiveAsString()
    ensures ActiveOf(J.JObj([J.Prop("active", J.JStr("True"))])) == Some(true)
  {
    var word := "True";
    assert J.Lookup([J.Prop("active", J.JStr(word))], "active") == Some(J.JStr(word));
    assert !Text.IsWhiteSpace(word[0]) && !Text.IsWhiteSpace(word[3]);
    assert Text.Trim(word) == word;
    var lower := Text.ToLower(word);
    assert lower[0] == 't' && lower[1] == 'r' && lower[2] == 'u' && lower[3] == 'e';
    assert lower == "true";
  }

  lemma ActiveAsNumber()
    ensures ActiveOf(J.JObj([J.Prop("active", J.JInt(0))])) == Some(false)
  {
    assert J.Lookup([J.Prop("active", J.JInt(0))], "active") == Some(J.JInt(0));
  }

  lemma ActiveUnparsable()
    ensures ActiveOf(J.JObj([J.Prop("active", J.JStr("yes"))])).None?
  {
    var yes := "yes";
    assert J.Lookup([J.Prop("active", J.JStr(yes))], "active") == Some(J.JStr(yes));
    assert !Text.IsWhiteSpace(yes[0]) && !Text.IsWhiteSpace(yes[2]);
    assert Text.Trim(yes) == yes;
    assert |Text.ToLower(Text.Trim(yes))| == 3;
  }

  /** Every active location has exactly one of the five types. */
  lemma {:induction false} CountsPartition(ls: seq<Location>)
    requires ClassifyAll(ls).Some?
    ensures var ps := ClassifyAll(ls).value;
      ActiveProbes(ps) == ProbesOf(ps, S.MAIL) + ProbesOf(ps, S.HUB) + ProbesOf(ps, S.FILE)
                          + ProbesOf(ps, S.FTP) + ProbesOf(ps, S.MESSENGER)
  {
    ClassifyAllMeaning(ls);
    ProbesPartition(ClassifyAll(ls).value);
  }

  lemma {:induction false} ProbesPartition(ps: seq<S.Probe>)
    requires forall k :: 0 <= k < |ps| ==> !ps[k].settingsType.UndefinedSettingsType?
    ensures ActiveProbes(ps) == ProbesOf(ps, S.MAIL) + ProbesOf(ps, S.HUB) + ProbesOf(ps, S.FILE)
                                + ProbesOf(ps, S.FTP) + ProbesOf(ps, S.MESSENGER)
  {
    if ps != [] {
      var init := ps[..|ps| - 1];
      assert forall k :: 0 <= k < |init| ==> init[k] == ps[k];
      ProbesPartition(init);
    }
  }

  // ---------------------------------------------------------------------
  // Results the manager makes itself
  // ---------------------------------------------------------------------

  /** "Task 1", "Task 2", ... in the order of the job list. */
  function TaskName(index: nat): string {
    "Task " + Text.NatToString(index)
  }

  /** The name of the job at position m of the list, "Task <m+1>". */
  function PositionName(m: nat): string {
    TaskName(m + 1)
  }

  /** Different positions get different task names. */
  lemma TaskNamesDistinct(i: nat, k: nat)
    requires i != k
    ensures TaskName(i) != TaskName(k)
  {
    if TaskName(i) == TaskName(k) {
      assert TaskName(i)[5..] == Text.NatToString(i);
      assert TaskName(k)[5..] == Text.NatToString(k);
      Text.NatToStringInjective(i, k);
    }
  }

  const NoDeliveryMessage: string := "No delivery type was selected for the report."
  const CanceledMessage: string := "The operation was canceled."

  /** The exception thrown when no connection to Qlik can be made for the
      sink `sink`. */
  function NoConnectionMessage(sink: string): string {
    "Could not create a connection to Qlik. (" + sink + ")"
  }

  function UnknownMessengerMessage(value: int): string {
    "Unkown messenger '" + Text.IntToString(value) + "'."
  }

  /** The result of a job that is not delivered because of its status, or
      None when the status lets it through (SUCCESS and WARNING). The
      message is the job's exception where it has one. */
  function StatusResult(status: Jobs.TaskStatus, exception: Option<string>, task: string): (r: Option<R.BaseResult>)
    ensures r.None? <==> status == Jobs.SUCCESS || status == Jobs.WARNING
    ensures r.Some? ==> r.value.kind == R.Error && r.value.taskName == task && r.value.reportName == ""
    ensures r.Some? ==> (r.value.success <==> status == Jobs.INACTIVE || status == Jobs.ABORT)
    ensures r.Some? && status != Jobs.RETRYERROR ==> r.value.reportState == Text.ToUpper(status.Name())
    ensures status == Jobs.RETRYERROR ==> r.value.reportState == "ERROR"
    ensures r.Some? && exception.Some? ==> r.value.message == exception.value
    ensures r.Some? && exception.None? ==>
      r.value.message == (match status
                          case ERROR => "Unknown error"
                          case RETRYERROR => "Unknown error"
                          case INACTIVE => "inactive task"
                          case ABORT => "Task was canceled"
                          case _ => "Unknown task status")
  {
    match status
    case ERROR => Some(R.BaseResult(R.Error, task, false, exception.GetOr("Unknown error"), "", "ERROR"))
    case RETRYERROR => Some(R.BaseResult(R.Error, task, false, exception.GetOr("Unknown error"), "", "ERROR"))
    case INACTIVE => Some(R.BaseResult(R.Error, task, true, exception.GetOr("inactive task"), "", "INACTIVE"))
    case ABORT => Some(R.BaseResult(R.Error, task, true, exception.GetOr("Task was canceled"), "", "ABORT"))
    case SUCCESS => None
    case WARNING => None
    case Other(n) => Some(R.BaseResult(R.Error, task, false, exception.GetOr("Unknown task status"), "", Text.ToUpper(n)))
  }

  /** The result of a report none of whose locations is active. */
  function NoDeliveryResult(task: string, state: string): (r: R.BaseResult)
    ensures r.kind == R.Distibution && r.success && r.message == NoDeliveryMessage
    ensures r.taskName == task && r.reportState == state
  {
    R.BaseResult(R.Distibution, task, true, NoDeliveryMessage, "", state)
  }

  // ---------------------------------------------------------------------
  // The objects Run works with
  // ---------------------------------------------------------------------

  /** A CancellationToken, by the number of the check at which it is first
      seen canceled (None: no token, or one never canceled). */
  class Cancellation {
    const cancelAt: Option<nat>
    var checks: nat

    constructor(cancelAt: Option<nat>)
      ensures this.cancelAt == cancelAt && checks == 0
    {
      this.cancelAt := cancelAt;
      checks := 0;
    }

    /** ThrowIfCancellationRequested: true when it throws. Once canceled,
        every later check throws too. */
    method ThrowIfCancellationRequested() returns (canceled: bool)
      modifies this
      ensures checks == old(checks) + 1
      ensures canceled <==> cancelAt.Some? && cancelAt.value <= old(checks)
    {
      canceled := cancelAt.Some? && cancelAt.value <= checks;
      checks := checks + 1;
    }
  }

  /** The ConnectionManager of the Qlik helper library, which is not part
      of this model, by its pool of websocket connections and by which of
      them it hands out for a list of connection configurations. */
  class ConnectionManager {
    const pool: seq<Jobs.Connection>
    const choose: seq<J.Json> -> Option<nat>

    constructor(pool: seq<Jobs.Connection>, choose: seq<J.Json> -> Option<nat>)
      ensures this.pool == pool && this.choose == choose
    {
      this.pool := pool;
      this.choose := choose;
    }

    /** The connection for `configs`, null when none can be made. */
    function Chosen(configs: seq<J.Json>): (c: Jobs.Connection?)
      ensures c != null <==> choose(configs).Some? && choose(configs).value < |pool|
      ensures c != null ==> c in pool
    {
      match choose(configs)
      case Some(k) => if k < |pool| then pool[k] else null
      case None => null
    }

    method GetConnection(configs: seq<J.Json>) returns (c: Jobs.Connection?)
      ensures c == Chosen(configs)
    {
      c := Chosen(configs);
    }

    /** Marks every pooled connection free. */
    method MakeFree()
      modifies pool
      ensures forall c :: c in pool ==> c.isFree
    {
      for i := 0 to |pool|
        invariant forall k :: 0 <= k < i ==> pool[k].isFree
      {
        pool[i].isFree := true;
      }
    }
  }

  /** A messenger created for a job: the older Teams or the Slack one. */
  datatype MessengerEntry = TeamsEntry(teams: M.MicrosoftTeams) | SlackEntry(slack: M.Slack) {
    function Job(): Jobs.JobResult? {
      match this
      case TeamsEntry(t) => t.jobResult
      case SlackEntry(s) => s.jobResult
    }

    /** The result it posts for `results` when its job has the task name
        `task` and the formatted state `state`: an undelivered Teams
        message has the misspelt state, a Slack one "ERROR". */
    function Message(results: seq<R.BaseResult>, post: SM.Post, task: string, state: string): (r: R.BaseResult)
      ensures r.kind == R.Messenger && r.taskName == task
      ensures r.success ==> r.reportState == state
      ensures !r.success ==> r.reportState == if TeamsEntry? then M.OldErrorState else "ERROR"
    {
      match this
      case TeamsEntry(t) =>
        SM.PostResult(SM.Lines(M.HtmlMessage, results), M.OldTeamsPayload, t.url, post, task, state, SM.TeamsName,
                      M.OldErrorState)
      case SlackEntry(s) =>
        SM.PostResult(M.SlackMessage(results), M.SlackPayload, s.url, post, task, state, M.SlackName, "ERROR")
    }

    /** What its SendMessage returns for `results`: Message in the job's
        task and formatted state; a missing job throws. */
    function Outcome(results: seq<R.BaseResult>, post: SM.Post): (r: Result<R.BaseResult>)
      reads Job()
      ensures r.Failure? <==> Job() == null
      ensures r.Success? ==> r.value == Message(results, post, Job().taskName, BaseAction.GetFormatedState(Job()))
    {
      match this
      case TeamsEntry(t) =>
        SM.PostOutcome(SM.Lines(M.HtmlMessage, results), M.OldTeamsPayload, t.url, post, t.jobResult, SM.TeamsName, M.OldErrorState)
      case SlackEntry(s) =>
        SM.PostOutcome(M.SlackMessage(results), M.SlackPayload, s.url, post, s.jobResult, M.SlackName, "ERROR")
    }

    /** BaseMessenger.SendMessage, dispatched to the messenger's class. */
    method SendMessage(results: seq<R.BaseResult>, post: SM.Post) returns (r: Result<R.BaseResult>)
      ensures r == Outcome(results, post)
    {
      match this
      case TeamsEntry(t) =>
        r := t.SendMessage(results, post);
      case SlackEntry(s) =>
        r := s.SendMessage(results, post);
    }
  }

  /** What the messengers `ms` of a job with task name `task` in the
      formatted state `state` add after `before`, in order: each message is
      built from every result collected before it, the earlier messages
      included, and is a messenger result of the task. */
  function Messages(ms: seq<MessengerEntry>, task: string, state: string, before: seq<R.BaseResult>, post: SM.Post)
    : (r: seq<R.BaseResult>)
    ensures |r| == |ms|
    ensures forall k :: 0 <= k < |r| ==> r[k].kind == R.Messenger && r[k].taskName == task
  {
    if ms == [] then []
    else
      var m := Messages(ms[..|ms| - 1], task, state, before, post);
      m + [ms[|ms| - 1].Message(before + m, post, task, state)]
  }

  /** The hub settings as deserialised, with the session user they carry. */
  datatype HubDecoded = HubDecoded(settings: S.HubSettings, sessionUser: Option<string>)

  /** `GetSettings<T>(location)` for each sink: the settings deserialised
      from the property's value, None when deserialising fails (null). */
  datatype Decoders = Decoders(
    file: J.Json -> Option<S.FileSettings>,
    ftp: J.Json -> Option<S.FTPSettings>,
    hub: J.Json -> Option<HubDecoded>,
    mail: J.Json -> Option<DS.MailSettings>,
    messenger: J.Json -> Option<S.MessengerSettings>)

  /** What the sinks depend on besides the objects they change: the
      decoders, the mail environment, the messengers' HTTP post and the key
      path the mail sink is created with. */
  datatype Services = Services(decoders: Decoders, mailEnv: Mail.Environment, post: SM.Post, privateKeyPath: string,
                               parseUri: S.UriParser)

  /** The state the sinks change: the local file system, the FTP server,
      the Qlik hub and the sent mails. */
  datatype World = World(fs: Jobs.FileSystem, ftp: Ftp.FtpServer, hub: Hub.QlikHub, outbox: Mail.Outbox)

  /** The four sinks of one job. */
  datatype Actions = Actions(file: FS.FileSystemAction, ftp: Ftp.FtpAction, hub: Hub.HubAction, mail: Mail.MailAction)

  predicate ActionsOf(a: Actions, job: Jobs.JobResult) {
    a.file.jobResult == job && a.ftp.jobResult == job && a.hub.jobResult == job && a.mail.jobResult == job
  }

  // ---------------------------------------------------------------------
  // What a run collects
  // ---------------------------------------------------------------------

  /** One report: how many of its locations were active, what each
      location returned, and the job's state when the report was finished. */
  datatype ReportTrace = ReportTrace(activated: nat, outcomes: seq<seq<R.BaseResult>>, state: string)

  /** One job: its status and exception when it was reached, its reports,
      the mail settings it cached and the job's state when they were sent,
      the results of sending them, the messengers it created and the job's
      state when they were used, and their results. */
  datatype JobTrace = JobTrace(status: Jobs.TaskStatus, exception: Option<string>, reports: seq<ReportTrace>,
                               mailSettings: seq<DS.MailSettings>, mailState: string, mail: seq<R.BaseResult>,
                               messengers: seq<MessengerEntry>, messageState: string, messages: seq<R.BaseResult>)

  /** What a report adds: what its locations returned, in order, or the
      no-delivery result when nothing was active. */
  function ReportPart(t: ReportTrace, task: string): seq<R.BaseResult> {
    N.Flatten(t.outcomes) + if t.activated == 0 then [NoDeliveryResult(task, t.state)] else []
  }

  function ReportsPart(ts: seq<ReportTrace>, task: string): seq<R.BaseResult> {
    if ts == [] then [] else ReportsPart(ts[..|ts| - 1], task) + ReportPart(ts[|ts| - 1], task)
  }

  /** What a job adds: its status result, or its reports, mails and
      messages in that order. */
  function Chunk(t: JobTrace, task: string): seq<R.BaseResult> {
    match StatusResult(t.status, t.exception, task)
    case Some(e) => [e]
    case None => ReportsPart(t.reports, task) + t.mail + t.messages
  }

  /** Everything the jobs add, the k-th (from 0) as "Task k+1". */
  function Collected(ts: seq<JobTrace>): seq<R.BaseResult> {
    if ts == [] then [] else Collected(ts[..|ts| - 1]) + Chunk(ts[|ts| - 1], TaskName(|ts|))
  }

  /** An active file, FTP or hub location: one that returns its sink's
      results. */
  predicate SinkProbe(p: S.Probe) {
    p.active && (p.settingsType == S.FILE || p.settingsType == S.FTP || p.settingsType == S.HUB)
  }

  /** The results of the sink of type `t`, given the file, FTP and hub
      sinks' results. */
  function SinkResults(files: seq<R.BaseResult>, ftps: seq<R.BaseResult>, hubs: seq<R.BaseResult>, t: S.SettingsType)
    : seq<R.BaseResult>
  {
    if t == S.FILE then files else if t == S.FTP then ftps else hubs
  }

  /** What the locations of a report returned: nothing for one that is
      inactive or not a file, FTP or hub location, and for the others the
      sink's results so far, so that a later location of the same sink
      returns again everything an earlier one returned. */
  ghost predicate OutcomesConsistent(os: seq<seq<R.BaseResult>>, probes: seq<S.Probe>) {
    && |os| == |probes|
    && (forall k :: 0 <= k < |os| && !SinkProbe(probes[k]) ==> os[k] == [])
    && (forall j, k :: 0 <= j < k < |os| && SinkProbe(probes[j]) && probes[k] == probes[j] ==> os[j] <= os[k])
  }

  /** A report was handled as the source does: every location is
      classified, the active ones are counted, and each returned what
      OutcomesConsistent says. */
  ghost predicate ReportConsistent(t: ReportTrace, report: Jobs.Report) {
    && ReportProbes(report).Some?
    && t.activated == ActiveProbes(ReportProbes(report).value)
    && OutcomesConsistent(t.outcomes, ReportProbes(report).value)
  }

  /** With no active location a report returns nothing from the sinks. */
  lemma {:induction false} NoActiveNoOutcome(t: ReportTrace, report: Jobs.Report, task: string)
    requires ReportConsistent(t, report) && t.activated == 0
    ensures ReportPart(t, task) == [NoDeliveryResult(task, t.state)]
  {
    NoActiveEmpty(t.outcomes, ReportProbes(report).value);
  }

  lemma {:induction false} NoActiveEmpty(os: seq<seq<R.BaseResult>>, probes: seq<S.Probe>)
    requires OutcomesConsistent(os, probes) && ActiveProbes(probes) == 0
    ensures N.Flatten(os) == []
  {
    if os != [] {
      var n := |os| - 1;
      assert probes[..n] + [probes[n]] == probes;
      ProbesSnoc(probes[..n], probes[n]);
      assert !probes[n].active;
      assert OutcomesConsistent(os[..n], probes[..n]) by {
        forall j, k | 0 <= j < k < n && SinkProbe(probes[..n][j]) && probes[..n][k] == probes[..n][j]
          ensures os[..n][j] <= os[..n][k]
        {
          assert os[j] <= os[k];
        }
      }
      NoActiveEmpty(os[..n], probes[..n]);
    }
  }

  /** What sending the cached mail settings adds: nothing when none was
      cached, otherwise the results of SendMails. */
  function MailPart(list: seq<DS.MailSettings>, env: Mail.Environment, task: string, state: string)
    : seq<R.BaseResult>
  {
    if list == [] then [] else Mail.SendMailsOutcome(list, env, task, state).results
  }

  /** The job's formatted state after its mails: ERROR when sending threw,
      unchanged otherwise. */
  function StateAfterMails(list: seq<DS.MailSettings>, env: Mail.Environment, task: string, state: string): string {
    if list != [] && Mail.SendMailsOutcome(list, env, task, state).lastFailure.Some? then Text.ToUpper(Jobs.TaskStatus.ERROR.Name())
    else state
  }

  /** A job that passed the status check was delivered as the source does,
      after the results `before`: every report handled; the mail settings
      of its active mail locations sent in the state the last report left,
      when there are any; and one message per active messenger location,
      each built from everything collected before it, in the state the
      mails left. */
  ghost predicate DeliveredAs(t: JobTrace, task: string, reports: seq<Jobs.Report>, before: seq<R.BaseResult>,
                              services: Services) {
    && ReportsConsistent(t.reports, reports)
    && |t.mailSettings| == ReportsCountOf(reports, S.MAIL, |reports|)
    && (|t.reports| > 0 ==> t.mailState == t.reports[|t.reports| - 1].state)
    && t.mail == MailPart(t.mailSettings, services.mailEnv, task, t.mailState)
    && t.messageState == StateAfterMails(t.mailSettings, services.mailEnv, task, t.mailState)
    && |t.messengers| == ReportsCountOf(reports, S.MESSENGER, |reports|)
    && t.messages == Messages(t.messengers, task, t.messageState, before + ReportsPart(t.reports, task) + t.mail,
                              services.post)
  }

  /** A job was handled as the source does after the results `before`: a
      status result and nothing else, or delivered as DeliveredAs says. */
  ghost predicate JobConsistent(t: JobTrace, task: string, reports: seq<Jobs.Report>, before: seq<R.BaseResult>,
                                services: Services) {
    if StatusResult(t.status, t.exception, task).Some? then
      t.reports == [] && t.mail == [] && t.messages == []
    else
      DeliveredAs(t, task, reports, before, services)
  }

  /** Job k is reached for the first time, or for the last time. */
  predicate FirstVisit(jobs: seq<Jobs.JobResult>, k: nat)
    requires k < |jobs|
  {
    forall j :: 0 <= j < k ==> jobs[j] != jobs[k]
  }

  predicate LastVisit(jobs: seq<Jobs.JobResult>, k: nat)
    requires k < |jobs|
  {
    forall j :: k < j < |jobs| ==> jobs[j] != jobs[k]
  }

  /** The first position of job k's object, and the last among the first n. */
  function FirstIndex(jobs: seq<Jobs.JobResult>, k: nat): (m: nat)
    requires k < |jobs|
    ensures m <= k
  {
    FirstFrom(jobs, k, 0)
  }

  function FirstFrom(jobs: seq<Jobs.JobResult>, k: nat, n: nat): (m: nat)
    requires n <= k < |jobs|
    ensures n <= m <= k
    decreases k - n
  {
    if jobs[n] == jobs[k] then n else FirstFrom(jobs, k, n + 1)
  }

  /** FirstFrom finds the object of job k, and no position from n before
      it holds it. */
  lemma {:induction false} FirstFromFound(jobs: seq<Jobs.JobResult>, k: nat, n: nat)
    requires n <= k < |jobs|
    ensures jobs[FirstFrom(jobs, k, n)] == jobs[k]
    ensures forall j :: n <= j < FirstFrom(jobs, k, n) ==> jobs[j] != jobs[k]
    decreases k - n
  {
    if jobs[n] != jobs[k] {
      FirstFromFound(jobs, k, n + 1);
    }
  }

  function LastIndex(jobs: seq<Jobs.JobResult>, k: nat, n: nat): (m: nat)
    requires k < n <= |jobs|
    ensures k <= m < n
    decreases n
  {
    if jobs[n - 1] == jobs[k] then n - 1 else LastIndex(jobs, k, n - 1)
  }

  /** LastIndex finds the object of job k, and no later position of the
      first n holds it; it is k itself exactly when none does. */
  lemma {:induction false} LastIndexFound(jobs: seq<Jobs.JobResult>, k: nat, n: nat)
    requires k < n <= |jobs|
    ensures jobs[LastIndex(jobs, k, n)] == jobs[k]
    ensures forall j :: LastIndex(jobs, k, n) < j < n ==> jobs[j] != jobs[k]
    ensures LastIndex(jobs, k, n) == k <==> forall j :: k < j < n ==> jobs[j] != jobs[k]
    decreases n
  {
    if jobs[n - 1] != jobs[k] {
      LastIndexFound(jobs, k, n - 1);
    }
  }

  lemma FirstIndexVisit(jobs: seq<Jobs.JobResult>, k: nat)
    requires k < |jobs|
    ensures FirstIndex(jobs, k) == k <==> FirstVisit(jobs, k)
  {
    FirstFromFound(jobs, k, 0);
  }

  lemma LastIndexVisit(jobs: seq<Jobs.JobResult>, k: nat)
    requires k < |jobs|
    ensures LastIndex(jobs, k, |jobs|) == k <==> LastVisit(jobs, k)
  {
    LastIndexFound(jobs, k, |jobs|);
  }

  // ---------------------------------------------------------------------
  // The steps of Run
  // ---------------------------------------------------------------------

  /** The messenger a messenger location creates for its job: Teams or
      Slack as the settings name it, over the settings' address. */
  predicate EntryFor(e: MessengerEntry, settings: S.MessengerSettings, job: Jobs.JobResult) {
    && e.Job() == job
    && match settings.messenger
       case MICROSOFTTEAMS => e.TeamsEntry? && e.teams.url == settings.url && e.teams.baseAddress == M.BaseAddress(settings.url)
       case SLACK => e.SlackEntry? && e.slack.url == settings.url && e.slack.baseAddress == M.BaseAddress(settings.url)
       case UndefinedMessenger(_) => false
  }

  /** The mail setting a mail location caches: typed MAIL, with the report
      added to its reports. */
  function CachedMail(settings: DS.MailSettings, report: Jobs.Report): DS.MailSettings {
    settings.(settingsType := DS.MAIL, mailReports := settings.mailReports + [report])
  }

  /** The active location `prop` of type `t`: a messenger is created, a
      file, FTP or hub location is delivered at once and its sink's results
      so far are returned (all of them, not only this location's), a mail
      location is cached. Null settings throw a NullReferenceException. */
  method Dispatch(prop: J.Prop, t: S.SettingsType, report: Jobs.Report, job: Jobs.JobResult, a: Actions,
                  messengers: seq<MessengerEntry>, services: Services, w: World, connections: ConnectionManager)
    returns (outcome: Result<seq<R.BaseResult>>, ms: seq<MessengerEntry>)
    requires ActionsOf(a, job)
    modifies a.file, a.ftp, a.hub, a.mail`mailSettingsList, job, w.fs, w.ftp, w.hub, connections.pool
    ensures job.taskName == old(job.taskName)
    ensures t != S.MESSENGER || outcome.Failure? ==> ms == messengers
    ensures t == S.MESSENGER && outcome.Success? ==>
              && services.decoders.messenger(prop.value).Some?
              && |ms| == |messengers| + 1 && ms[..|messengers|] == messengers
              && EntryFor(ms[|messengers|], services.decoders.messenger(prop.value).value, job)
    ensures t != S.MAIL || outcome.Failure? ==> a.mail.mailSettingsList == old(a.mail.mailSettingsList)
    ensures t == S.MAIL && outcome.Success? ==>
              && services.decoders.mail(prop.value).Some?
              && a.mail.mailSettingsList == old(a.mail.mailSettingsList) + [CachedMail(services.decoders.mail(prop.value).value, report)]
    ensures outcome.Success? && t == S.FILE ==> outcome.value == a.file.results && old(a.file.results) <= a.file.results
    ensures outcome.Success? && t == S.FTP ==> outcome.value == a.ftp.results && old(a.ftp.results) <= a.ftp.results
    ensures outcome.Success? && t == S.HUB ==> outcome.value == a.hub.results && old(a.hub.results) <= a.hub.results
    ensures outcome.Success? && t != S.FILE && t != S.FTP && t != S.HUB ==> outcome.value == []
    ensures outcome.Success? ==>
              old(a.file.results) <= a.file.results && old(a.ftp.results) <= a.ftp.results && old(a.hub.results) <= a.hub.results
    ensures t == S.MESSENGER && services.decoders.messenger(prop.value).None? ==> outcome == Failure(NullReferenceMessage)
    ensures t == S.MESSENGER && services.decoders.messenger(prop.value).Some?
            && services.decoders.messenger(prop.value).value.messenger.UndefinedMessenger? ==>
              outcome == Failure(UnknownMessengerMessage(services.decoders.messenger(prop.value).value.messenger.value))
    ensures t == S.FILE && services.decoders.file(prop.value).None? ==> outcome == Failure(NullReferenceMessage)
    ensures t == S.FILE && services.decoders.file(prop.value).Some?
            && connections.Chosen(services.decoders.file(prop.value).value.connections) == null ==>
              outcome == Failure(NoConnectionMessage("FILE"))
    ensures t == S.FTP && services.decoders.ftp(prop.value).None? ==> outcome == Failure(NullReferenceMessage)
    ensures t == S.HUB && services.decoders.hub(prop.value).None? ==> outcome == Failure(NullReferenceMessage)
    ensures t == S.HUB && services.decoders.hub(prop.value).Some?
            && connections.Chosen(services.decoders.hub(prop.value).value.settings.connections) == null ==>
              outcome == Failure(NoConnectionMessage("HUB"))
    ensures t == S.MAIL && services.decoders.mail(prop.value).None? ==> outcome == Failure(NullReferenceMessage)
    ensures t.UndefinedSettingsType? ==> outcome == Success([])
  {
    ms := messengers;
    match t
    case MESSENGER =>
      outcome, ms := CreateMessenger(services.decoders.messenger(prop.value), job, messengers, services.parseUri);
    case FILE =>
      outcome := DeliverFile(services.decoders.file(prop.value), report, a.file, w.fs, connections);
    case FTP =>
      var settings := services.decoders.ftp(prop.value);
      if settings.None? {
        return Failure(NullReferenceMessage), ms;
      }
      a.ftp.FtpUpload(report, settings.value, w.ftp, w.fs);
      outcome := Success(a.ftp.results);
    case HUB =>
      outcome := DeliverHub(services.decoders.hub(prop.value), report, a.hub, w.hub, w.fs, connections);
    case MAIL =>
      var settings := services.decoders.mail(prop.value);
      if settings.None? {
        return Failure(NullReferenceMessage), ms;
      }
      a.mail.AddMailSettings(settings.value, report);
      outcome := Success([]);
    case UndefinedSettingsType(_) =>
      outcome := Success([]);
  }

  /** The messenger case: Teams or Slack for the job, whose base address
      must be a URI; anything else throws. */
  method CreateMessenger(settings: Option<S.MessengerSettings>, job: Jobs.JobResult, messengers: seq<MessengerEntry>,
                         parse: S.UriParser)
    returns (outcome: Result<seq<R.BaseResult>>, ms: seq<MessengerEntry>)
    ensures outcome.Success? ==>
              && outcome.value == [] && settings.Some?
              && |ms| == |messengers| + 1 && ms[..|messengers|] == messengers
              && EntryFor(ms[|messengers|], settings.value, job)
    ensures outcome.Failure? ==> ms == messengers
    ensures settings.None? ==> outcome == Failure(NullReferenceMessage)
    ensures settings.Some? && settings.value.messenger.UndefinedMessenger? ==>
              outcome == Failure(UnknownMessengerMessage(settings.value.messenger.value))
    ensures settings.Some? && !settings.value.messenger.UndefinedMessenger? ==>
              (outcome.Success? <==> M.Client(settings.value.url, parse).Success?)
    ensures settings.Some? && settings.value.url.None? ==> outcome.Failure?
  {
    ms := messengers;
    if settings.None? {
      return Failure(NullReferenceMessage), ms;
    }
    if !settings.value.messenger.UndefinedMessenger? {
      var client := M.Client(settings.value.url, parse);
      if client.Failure? {
        return Failure(client.error), ms;
      }
    }
    match settings.value.messenger
    case MICROSOFTTEAMS =>
      var teams := new M.MicrosoftTeams(settings.value.url, job, parse);
      ms := messengers + [TeamsEntry(teams)];
      assert TeamsEntry(teams).Job() == job;
      outcome := Success([]);
    case SLACK =>
      var slack := new M.Slack(settings.value.url, job, parse);
      ms := messengers + [SlackEntry(slack)];
      assert SlackEntry(slack).Job() == job;
      outcome := Success([]);
    case UndefinedMessenger(v) =>
      outcome := Failure(UnknownMessengerMessage(v));
  }

  /** The file case: a copy over the chosen connection. */
  method DeliverFile(settings: Option<S.FileSettings>, report: Jobs.Report, action: FS.FileSystemAction,
                     fs: Jobs.FileSystem, connections: ConnectionManager)
    returns (outcome: Result<seq<R.BaseResult>>)
    modifies action, action.jobResult, fs, connections.pool
    ensures action.jobResult.taskName == old(action.jobResult.taskName)
    ensures settings.None? ==> outcome == Failure(NullReferenceMessage)
    ensures settings.Some? && connections.Chosen(settings.value.connections) == null ==>
              outcome == Failure(NoConnectionMessage("FILE"))
    ensures settings.Some? && connections.Chosen(settings.value.connections) != null ==>
              outcome == Success(action.results) && old(action.results) <= action.results
  {
    if settings.None? {
      return Failure(NullReferenceMessage);
    }
    var connection := connections.GetConnection(settings.value.connections);
    if connection == null {
      return Failure(NoConnectionMessage("FILE"));
    }
    action.CopyFile(report, settings.value, connection, fs);
    outcome := Success(action.results);
  }

  /** The hub case: an upload over the chosen connection; what the upload
      throws is thrown on. */
  method DeliverHub(settings: Option<HubDecoded>, report: Jobs.Report, action: Hub.HubAction,
                    hub: Hub.QlikHub, fs: Jobs.FileSystem, connections: ConnectionManager)
    returns (outcome: Result<seq<R.BaseResult>>)
    modifies action, action.jobResult, hub, fs, connections.pool
    ensures action.jobResult.taskName == old(action.jobResult.taskName)
    ensures settings.None? ==> outcome == Failure(NullReferenceMessage)
    ensures settings.Some? && connections.Chosen(settings.value.settings.connections) == null ==>
              outcome == Failure(NoConnectionMessage("HUB"))
    ensures outcome.Success? ==> outcome.value == action.results && old(action.results) <= action.results
  {
    if settings.None? {
      return Failure(NullReferenceMessage);
    }
    var connection := connections.GetConnection(settings.value.settings.connections);
    if connection == null {
      return Failure(NoConnectionMessage("HUB"));
    }
    var thrown := action.UploadToHub(report, settings.value.settings, settings.value.sessionUser, connection, hub, fs);
    if thrown.Some? {
      return Failure(thrown.value);
    }
    outcome := Success(action.results);
  }

  /** One location of a report: a cancellation check, the classification
      (null settings throw), and the dispatch when it is active. */
  method DistributeLocation(l: Location, report: Jobs.Report, job: Jobs.JobResult, a: Actions,
                            messengers: seq<MessengerEntry>, services: Services, w: World,
                            connections: ConnectionManager, token: Cancellation)
    returns (outcome: Result<seq<R.BaseResult>>, ms: seq<MessengerEntry>, probe: S.Probe)
    requires ActionsOf(a, job)
    requires forall k :: 0 <= k < |messengers| ==> messengers[k].Job() == job
    modifies a.file, a.ftp, a.hub, a.mail`mailSettingsList, job, w.fs, w.ftp, w.hub, connections.pool, token
    ensures job.taskName == old(job.taskName)
    ensures forall k :: 0 <= k < |ms| ==> ms[k].Job() == job
    ensures Classify(l).None? ==> outcome.Failure?
    ensures outcome.Success? ==> Classify(l) == Some(probe)
    ensures outcome.Success? && !SinkProbe(probe) ==> outcome.value == []
    ensures outcome.Success? && SinkProbe(probe) ==>
              outcome.value == SinkResults(a.file.results, a.ftp.results, a.hub.results, probe.settingsType)
    ensures outcome.Success? ==>
              old(a.file.results) <= a.file.results && old(a.ftp.results) <= a.ftp.results && old(a.hub.results) <= a.hub.results
    ensures outcome.Success? ==> |ms| == |messengers| + (if probe.active && probe.settingsType == S.MESSENGER then 1 else 0)
    ensures outcome.Success? ==>
              |a.mail.mailSettingsList| == |old(a.mail.mailSettingsList)|
                                           + (if probe.active && probe.settingsType == S.MAIL then 1 else 0)
    ensures outcome.Success? && probe.active && probe.settingsType == S.MESSENGER ==>
              && l.PropertyLocation? && services.decoders.messenger(l.prop.value).Some?
              && |ms| == |messengers| + 1 && ms[..|messengers|] == messengers
              && EntryFor(ms[|messengers|], services.decoders.messenger(l.prop.value).value, job)
    ensures outcome.Success? && probe.active && probe.settingsType == S.MAIL ==>
              && l.PropertyLocation? && services.decoders.mail(l.prop.value).Some?
              && a.mail.mailSettingsList
                 == old(a.mail.mailSettingsList) + [CachedMail(services.decoders.mail(l.prop.value).value, report)]
  {
    ms := messengers;
    probe := S.Probe(false, S.MAIL);
    var canceled := token.ThrowIfCancellationRequested();
    if canceled {
      return Failure(CanceledMessage), ms, probe;
    }
    var classified := Classify(l);
    if classified.None? {
      return Failure(NullReferenceMessage), ms, probe;
    }
    probe := classified.value;
    if !probe.active {
      return Success([]), ms, probe;
    }
    outcome, ms := Dispatch(l.prop, probe.settingsType, report, job, a, messengers, services, w, connections);
  }

  /** The locations of one report, in order; a report without an active
      location gets the no-delivery result in the job's current state. */
  method DistributeReport(report: Jobs.Report, job: Jobs.JobResult, results: seq<R.BaseResult>, a: Actions,
                          messengers: seq<MessengerEntry>, services: Services, w: World,
                          connections: ConnectionManager, token: Cancellation)
    returns (outcome: Result<seq<R.BaseResult>>, ms: seq<MessengerEntry>, ghost rt: ReportTrace)
    requires ActionsOf(a, job)
    requires forall k :: 0 <= k < |messengers| ==> messengers[k].Job() == job
    modifies a.file, a.ftp, a.hub, a.mail`mailSettingsList, job, w.fs, w.ftp, w.hub, connections.pool, token
    ensures job.taskName == old(job.taskName)
    ensures forall k :: 0 <= k < |ms| ==> ms[k].Job() == job
    ensures outcome.Success? ==>
      && outcome.value == results + ReportPart(rt, job.taskName) && ReportConsistent(rt, report)
      && rt.state == BaseAction.GetFormatedState(job)
    ensures outcome.Success? ==>
      && |ms| == |messengers| + ProbesOf(ReportProbes(report).value, S.MESSENGER)
      && |a.mail.mailSettingsList| == |old(a.mail.mailSettingsList)| + ProbesOf(ReportProbes(report).value, S.MAIL)
  {
    rt := ReportTrace(0, [], "");
    var done, appended, count;
    ghost var probes, outcomes;
    done, ms, appended, count, probes, outcomes := DistributeLocations(ReportLocations(report), report, job, a,
                                                                       messengers, services, w, connections, token);
    if done.Failure? {
      return Failure(done.error), ms, rt;
    }
    var state := BaseAction.GetFormatedState(job);
    rt := ReportTrace(count, outcomes, state);
    var acc := results + appended;
    if count == 0 {
      acc := acc + [NoDeliveryResult(job.taskName, state)];
    }
    outcome := Success(acc);
  }

  /** The loop over the locations `ls` of `report`: what the locations
      returned, in order and concatenated, how many were active, and their
      probes. */
  method DistributeLocations(ls: seq<Location>, report: Jobs.Report, job: Jobs.JobResult, a: Actions,
                             messengers: seq<MessengerEntry>, services: Services, w: World,
                             connections: ConnectionManager, token: Cancellation)
    returns (outcome: Result<()>, ms: seq<MessengerEntry>, appended: seq<R.BaseResult>, count: nat,
             ghost probes: seq<S.Probe>, ghost outcomes: seq<seq<R.BaseResult>>)
    requires ActionsOf(a, job)
    requires forall k :: 0 <= k < |messengers| ==> messengers[k].Job() == job
    modifies a.file, a.ftp, a.hub, a.mail`mailSettingsList, job, w.fs, w.ftp, w.hub, connections.pool, token
    ensures job.taskName == old(job.taskName)
    ensures forall k :: 0 <= k < |ms| ==> ms[k].Job() == job
    ensures outcome.Success? ==>
      && ClassifyAll(ls) == Some(probes)
      && count == ActiveProbes(probes)
      && OutcomesConsistent(outcomes, probes)
      && appended == N.Flatten(outcomes)
      && |ms| == |messengers| + ProbesOf(probes, S.MESSENGER)
      && |a.mail.mailSettingsList| == |old(a.mail.mailSettingsList)| + ProbesOf(probes, S.MAIL)
  {
    appended, count, probes, outcomes := [], 0, [], [];
    ms := messengers;
    ghost var mailAction := a.mail;
    ghost var mails0 := |mailAction.mailSettingsList|;
    var j := 0;
    while j < |ls|
      invariant 0 <= j <= |ls|
      invariant ClassifyAll(ls[..j]) == Some(probes)
      invariant count == ActiveProbes(probes)
      invariant OutcomesConsistent(outcomes, probes)
      invariant OutcomesBelow(outcomes, probes, a.file.results, a.ftp.results, a.hub.results)
      invariant appended == N.Flatten(outcomes)
      invariant |ms| == |messengers| + ProbesOf(probes, S.MESSENGER)
      invariant forall k :: 0 <= k < |ms| ==> ms[k].Job() == job
      invariant |mailAction.mailSettingsList| == mails0 + ProbesOf(probes, S.MAIL)
      invariant job.taskName == old(job.taskName)
    {
      ghost var files, ftps, hubs := a.file.results, a.ftp.results, a.hub.results;
      var o, ms', probe := DistributeLocation(ls[j], report, job, a, ms, services, w, connections, token);
      if o.Failure? {
        return Failure(o.error), ms', appended, count, probes, outcomes;
      }
      OutcomesSnoc(outcomes, probes, o.value, probe, files, ftps, hubs, a.file.results, a.ftp.results, a.hub.results);
      ProbesSnoc(probes, probe);
      ClassifyAllSnoc(ls, j, probes, probe);
      var next := j + 1;
      assert ClassifyAll(ls[..next]) == Some(probes + [probe]);
      if probe.active {
        count := count + 1;
      }
      appended := appended + o.value;
      probes := probes + [probe];
      outcomes := outcomes + [o.value];
      ms := ms';
      j := next;
    }
    assert ls[..j] == ls;
    outcome := Success(());
  }

  /** Every sink location's outcome so far is a prefix of its sink's
      current results. */
  ghost predicate OutcomesBelow(os: seq<seq<R.BaseResult>>, probes: seq<S.Probe>, files: seq<R.BaseResult>,
                                ftps: seq<R.BaseResult>, hubs: seq<R.BaseResult>) {
    |os| == |probes|
    && forall k :: 0 <= k < |os| && SinkProbe(probes[k]) ==> os[k] <= SinkResults(files, ftps, hubs, probes[k].settingsType)
  }

  /** One more location: its outcome is empty or its sink's results, and
      the sinks' results only grew. */
  lemma OutcomesSnoc(os: seq<seq<R.BaseResult>>, probes: seq<S.Probe>, o: seq<R.BaseResult>, p: S.Probe,
                     files: seq<R.BaseResult>, ftps: seq<R.BaseResult>, hubs: seq<R.BaseResult>,
                     files': seq<R.BaseResult>, ftps': seq<R.BaseResult>, hubs': seq<R.BaseResult>)
    requires OutcomesConsistent(os, probes) && OutcomesBelow(os, probes, files, ftps, hubs)
    requires files <= files' && ftps <= ftps' && hubs <= hubs'
    requires !SinkProbe(p) ==> o == []
    requires SinkProbe(p) ==> o == SinkResults(files', ftps', hubs', p.settingsType)
    ensures OutcomesConsistent(os + [o], probes + [p]) && OutcomesBelow(os + [o], probes + [p], files', ftps', hubs')
    ensures N.Flatten(os + [o]) == N.Flatten(os) + o
  {
    var os', probes' := os + [o], probes + [p];
    assert os'[..|os|] == os;
    forall k | 0 <= k < |os'| && SinkProbe(probes'[k])
      ensures os'[k] <= SinkResults(files', ftps', hubs', probes'[k].settingsType)
    {
      if k < |os| {
        assert os[k] <= SinkResults(files, ftps, hubs, probes[k].settingsType);
      }
    }
    forall j, k | 0 <= j < k < |os'| && SinkProbe(probes'[j]) && probes'[k] == probes'[j]
      ensures os'[j] <= os'[k]
    {
      if k < |os| {
        assert os[j] <= os[k];
      } else {
        assert os[j] <= SinkResults(files, ftps, hubs, probes[j].settingsType);
      }
    }
  }

  /** ReportsPart grows by one report at a time. */
  lemma ReportsPartSnoc(ts: seq<ReportTrace>, t: ReportTrace, task: string)
    ensures ReportsPart(ts + [t], task) == ReportsPart(ts, task) + ReportPart(t, task)
  {
    assert (ts + [t])[..|ts|] == ts;
  }

  /** What follows `results` after reports `ts` and then `t`. */
  lemma ReportsPartAppend(results: seq<R.BaseResult>, acc: seq<R.BaseResult>, ts: seq<ReportTrace>, t: ReportTrace,
                          task: string, value: seq<R.BaseResult>)
    requires acc == results + ReportsPart(ts, task) && value == acc + ReportPart(t, task)
    ensures value == results + ReportsPart(ts + [t], task)
  {
    ReportsPartSnoc(ts, t, task);
  }

  /** Every report of `reports` was handled as the source does. */
  ghost predicate ReportsConsistent(ts: seq<ReportTrace>, reports: seq<Jobs.Report>) {
    ReportsConsistentUpTo(ts, reports, |reports|)
  }

  /** The first `n` reports were handled as the source does. */
  ghost predicate ReportsConsistentUpTo(ts: seq<ReportTrace>, reports: seq<Jobs.Report>, n: nat) {
    n <= |reports| && |ts| == n && forall k :: 0 <= k < n ==> ReportConsistent(ts[k], reports[k])
  }

  lemma ReportsConsistentSnoc(ts: seq<ReportTrace>, reports: seq<Jobs.Report>, i: nat, t: ReportTrace)
    requires i < |reports| && ReportsConsistentUpTo(ts, reports, i) && ReportConsistent(t, reports[i])
    ensures ReportsConsistentUpTo(ts + [t], reports, i + 1)
  {
  }

  /** Counting report `i` adds its active locations of type `t`. */
  lemma CountAdvance(reports: seq<Jobs.Report>, i: nat, t: S.SettingsType)
    requires i < |reports| && ReportProbes(reports[i]).Some?
    ensures ReportsCountOf(reports, t, i + 1) == ReportsCountOf(reports, t, i) + ProbesOf(ReportProbes(reports[i]).value, t)
  {
  }

  /** Report `i` of a job: a cancellation check, the sinks' results
      cleared, then its locations; what the reports before it added and
      counted grows by this report's part. */
  method ReportStep(i: nat, job: Jobs.JobResult, results: seq<R.BaseResult>, acc: seq<R.BaseResult>,
                    ghost rts: seq<ReportTrace>, a: Actions, messengers: seq<MessengerEntry>, services: Services, w: World,
                    connections: ConnectionManager, token: Cancellation)
    returns (outcome: Result<seq<R.BaseResult>>, ms: seq<MessengerEntry>, ghost rts': seq<ReportTrace>)
    requires i < |job.reports| && ActionsOf(a, job)
    requires acc == results + ReportsPart(rts, job.taskName)
    requires ReportsConsistentUpTo(rts, job.reports, i)
    requires |messengers| == ReportsCountOf(job.reports, S.MESSENGER, i)
    requires forall k :: 0 <= k < |messengers| ==> messengers[k].Job() == job
    requires |a.mail.mailSettingsList| == ReportsCountOf(job.reports, S.MAIL, i)
    modifies a.file, a.ftp, a.hub, a.mail, job, w.fs, w.ftp, w.hub, connections.pool, token
    ensures job.taskName == old(job.taskName)
    ensures a.mail.results == []
    ensures forall k :: 0 <= k < |ms| ==> ms[k].Job() == job
    ensures outcome.Success? ==>
      && outcome.value == results + ReportsPart(rts', job.taskName)
      && ReportsConsistentUpTo(rts', job.reports, i + 1)
      && rts'[i].state == BaseAction.GetFormatedState(job)
      && |ms| == ReportsCountOf(job.reports, S.MESSENGER, i + 1)
      && |a.mail.mailSettingsList| == ReportsCountOf(job.reports, S.MAIL, i + 1)
  {
    ms := messengers;
    rts' := rts;
    ghost var task := job.taskName;
    ghost var mailAction := a.mail;
    var canceled := token.ThrowIfCancellationRequested();
    if canceled {
      a.mail.results := [];
      return Failure(CanceledMessage), ms, rts';
    }
    a.file.results := [];
    a.ftp.results := [];
    a.hub.results := [];
    a.mail.results := [];
    ghost var rt;
    outcome, ms, rt := DistributeReport(job.reports[i], job, acc, a, messengers, services, w, connections, token);
    if outcome.Success? {
      rts' := rts + [rt];
      ReportsPartAppend(results, acc, rts, rt, task, outcome.value);
      ReportsConsistentSnoc(rts, job.reports, i, rt);
      CountAdvance(job.reports, i, S.MESSENGER);
      CountAdvance(job.reports, i, S.MAIL);
    }
  }

  /** The reports of a job in order, each after a cancellation check and
      with the sinks' results cleared. */
  method DistributeReports(job: Jobs.JobResult, results: seq<R.BaseResult>, a: Actions, services: Services, w: World,
                           connections: ConnectionManager, token: Cancellation)
    returns (outcome: Result<seq<R.BaseResult>>, ms: seq<MessengerEntry>, ghost rts: seq<ReportTrace>)
    requires ActionsOf(a, job) && a.mail.mailSettingsList == [] && a.mail.results == []
    modifies a.file, a.ftp, a.hub, a.mail, job, w.fs, w.ftp, w.hub, connections.pool, token
    ensures job.taskName == old(job.taskName)
    ensures a.mail.results == []
    ensures forall k :: 0 <= k < |ms| ==> ms[k].Job() == job
    ensures outcome.Success? ==>
      && outcome.value == results + ReportsPart(rts, job.taskName)
      && ReportsConsistent(rts, job.reports)
      && (|rts| > 0 ==> rts[|rts| - 1].state == BaseAction.GetFormatedState(job))
      && |ms| == ReportsCountOf(job.reports, S.MESSENGER, |job.reports|)
      && |a.mail.mailSettingsList| == ReportsCountOf(job.reports, S.MAIL, |job.reports|)
  {
    var acc := results;
    ms := [];
    rts := [];
    ghost var task := job.taskName;
    ghost var mailAction := a.mail;
    var i := 0;
    while i < |job.reports|
      invariant 0 <= i <= |job.reports|
      invariant acc == results + ReportsPart(rts, task)
      invariant ReportsConsistentUpTo(rts, job.reports, i)
      invariant i > 0 ==> rts[i - 1].state == BaseAction.GetFormatedState(job)
      invariant |ms| == ReportsCountOf(job.reports, S.MESSENGER, i)
      invariant forall k :: 0 <= k < |ms| ==> ms[k].Job() == job
      invariant |mailAction.mailSettingsList| == ReportsCountOf(job.reports, S.MAIL, i)
      invariant mailAction.results == []
      invariant job.taskName == task
    {
      var o, ms';
      o, ms', rts := ReportStep(i, job, results, acc, rts, a, ms, services, w, connections, token);
      if o.Failure? {
        return Failure(o.error), ms', rts;
      }
      acc := o.value;
      ms := ms';
      i := i + 1;
    }
    outcome := Success(acc);
  }

  /** The messengers of a job in order, each given every result so far. */
  method SendMessages(ms: seq<MessengerEntry>, job: Jobs.JobResult, results: seq<R.BaseResult>, post: SM.Post)
    returns (acc: seq<R.BaseResult>)
    requires forall k :: 0 <= k < |ms| ==> ms[k].Job() == job
    ensures acc == results + Messages(ms, job.taskName, BaseAction.GetFormatedState(job), results, post)
  {
    ghost var task, state := job.taskName, BaseAction.GetFormatedState(job);
    acc := results;
    for i := 0 to |ms|
      invariant acc == results + Messages(ms[..i], task, state, results, post)
    {
      assert ms[..i + 1][..i] == ms[..i];
      ghost var m := Messages(ms[..i], task, state, results, post);
      var r := ms[i].SendMessage(acc, post);
      assert r.value == ms[i].Message(results + m, post, task, state);
      acc := acc + [r.value];
    }
    assert ms[..|ms|] == ms;
  }

  /** A job that passed the status check: its reports, then its mails
      when some were cached, then its messages. The trace records what
      each part was made from. */
  method DeliverJob(job: Jobs.JobResult, results: seq<R.BaseResult>, a: Actions, services: Services, w: World,
                    connections: ConnectionManager, token: Cancellation)
    returns (outcome: Result<seq<R.BaseResult>>, ghost t: JobTrace)
    requires ActionsOf(a, job) && a.mail.mailSettingsList == [] && a.mail.results == []
    modifies a.file, a.ftp, a.hub, a.mail, job, w.fs, w.ftp, w.hub, w.outbox, connections.pool, token
    ensures job.taskName == old(job.taskName)
    ensures outcome.Success? ==>
      && outcome.value == results + ReportsPart(t.reports, job.taskName) + t.mail + t.messages
      && DeliveredAs(t, job.taskName, job.reports, results, services)
  {
    t := JobTrace(job.status, job.exception, [], [], "", [], [], "", []);
    var o, ms;
    ghost var reports;
    o, ms, reports := DistributeReports(job, results, a, services, w, connections, token);
    if o.Failure? {
      return Failure(o.error), t;
    }
    ghost var mailSettings, mailState := a.mail.mailSettingsList, BaseAction.GetFormatedState(job);
    var acc;
    ghost var mail;
    acc, mail := SendJobMails(a.mail, o.value, services.mailEnv, w.outbox);
    ghost var messageState := BaseAction.GetFormatedState(job);
    var final;
    ghost var messages;
    final, messages := SendJobMessages(ms, job, acc, services.post);
    t := JobTrace(t.status, t.exception, reports, mailSettings, mailState, mail, ms, messageState, messages);
    outcome := Success(final);
  }

  /** The messenger part of a job: what Messages says, after `results`. */
  method SendJobMessages(ms: seq<MessengerEntry>, job: Jobs.JobResult, results: seq<R.BaseResult>, post: SM.Post)
    returns (final: seq<R.BaseResult>, ghost messages: seq<R.BaseResult>)
    requires forall k :: 0 <= k < |ms| ==> ms[k].Job() == job
    ensures final == results + messages
    ensures messages == Messages(ms, job.taskName, BaseAction.GetFormatedState(job), results, post)
  {
    final := SendMessages(ms, job, results, post);
    messages := Messages(ms, job.taskName, BaseAction.GetFormatedState(job), results, post);
  }

  /** The mails of a job, sent when some were cached; what sending them
      adds to the action's (empty) results is added to `results`, and the
      job is left in StateAfterMails. */
  method SendJobMails(action: Mail.MailAction, results: seq<R.BaseResult>, env: Mail.Environment, outbox: Mail.Outbox)
    returns (acc: seq<R.BaseResult>, ghost mail: seq<R.BaseResult>)
    requires action.results == []
    modifies action`results, action.jobResult, outbox
    ensures action.jobResult.taskName == old(action.jobResult.taskName)
    ensures acc == results + mail
    ensures mail == MailPart(action.mailSettingsList, env, old(action.jobResult.taskName),
                             old(BaseAction.GetFormatedState(action.jobResult)))
    ensures BaseAction.GetFormatedState(action.jobResult) ==
              StateAfterMails(action.mailSettingsList, env, old(action.jobResult.taskName),
                              old(BaseAction.GetFormatedState(action.jobResult)))
    ensures action.mailSettingsList == [] ==> unchanged(action, action.jobResult, outbox)
    ensures action.mailSettingsList != [] ==>
      outbox.mails == old(outbox.mails) + Mail.SendMailsOutcome(action.mailSettingsList, env, old(action.jobResult.taskName),
                                                                 old(BaseAction.GetFormatedState(action.jobResult))).mails
  {
    acc, mail := results, [];
    if |action.mailSettingsList| > 0 {
      action.SendMails(env, outbox);
      mail := action.results;
      acc := acc + action.results;
    }
  }

  /** One job, reached as the `index`-th: it is named "Task <index>", a
      status other than SUCCESS and WARNING yields its status result and
      nothing else, and otherwise it is delivered with four new sinks. */
  method RunJob(job: Jobs.JobResult, index: nat, results: seq<R.BaseResult>, services: Services, w: World,
                connections: ConnectionManager, token: Cancellation)
    returns (outcome: Result<seq<R.BaseResult>>, ghost trace: JobTrace)
    modifies job, w.fs, w.ftp, w.hub, w.outbox, connections.pool, token
    ensures job.taskName == TaskName(index)
    ensures trace.status == old(job.status) && trace.exception == old(job.exception)
    ensures outcome.Success? ==>
      && outcome.value == results + Chunk(trace, TaskName(index))
      && JobConsistent(trace, TaskName(index), job.reports, results, services)
    ensures StatusResult(old(job.status), old(job.exception), TaskName(index)).Some? ==>
      && outcome.Success?
      && job.status == old(job.status) && job.exception == old(job.exception)
      && unchanged(w.fs, w.ftp, w.hub, w.outbox, connections.pool, token)
  {
    job.taskName := TaskName(index);
    trace := JobTrace(job.status, job.exception, [], [], "", [], [], "", []);
    var skipped := StatusResult(job.status, job.exception, job.taskName);
    if skipped.Some? {
      return Success(results + [skipped.value]), trace;
    }
    var fileAction := new FS.FileSystemAction(job);
    var ftpAction := new Ftp.FtpAction(job);
    var hubAction := new Hub.HubAction(job);
    var mailAction := new Mail.MailAction(job, services.privateKeyPath);
    var a := Actions(fileAction, ftpAction, hubAction, mailAction);
    ghost var t;
    outcome, t := DeliverJob(job, results, a, services, w, connections, token);
    trace := t.(status := trace.status, exception := trace.exception);
    if outcome.Success? {
      DeliveredChunk(trace, job.taskName, results, outcome.value);
    }
  }

  /** A delivered job's results are its chunk. */
  lemma DeliveredChunk(t: JobTrace, task: string, results: seq<R.BaseResult>, value: seq<R.BaseResult>)
    requires StatusResult(t.status, t.exception, task).None?
    requires value == results + ReportsPart(t.reports, task) + t.mail + t.messages
    ensures value == results + Chunk(t, task)
  {
    var rp := ReportsPart(t.reports, task);
    assert Chunk(t, task) == rp + t.mail + t.messages;
    assert results + (rp + t.mail + t.messages) == results + rp + t.mail + t.messages;
  }

  /** The first |ts| jobs were handled as the source does, each after
      what the jobs before it collected. */
  ghost predicate JobsConsistent(ts: seq<JobTrace>, jobs: seq<Jobs.JobResult>, services: Services) {
    && |ts| <= |jobs|
    && (ts != [] ==>
          && JobsConsistent(ts[..|ts| - 1], jobs, services)
          && JobConsistent(ts[|ts| - 1], TaskName(|ts|), jobs[|ts| - 1].reports, Collected(ts[..|ts| - 1]), services))
  }

  lemma JobsConsistentSnoc(ts: seq<JobTrace>, jobs: seq<Jobs.JobResult>, services: Services, t: JobTrace, n: nat)
    requires n == |ts| + 1
    requires JobsConsistent(ts, jobs, services) && |ts| < |jobs|
    requires JobConsistent(t, TaskName(n), jobs[|ts|].reports, Collected(ts), services)
    ensures JobsConsistent(ts + [t], jobs, services)
  {
    var ts' := ts + [t];
    assert ts'[..|ts'| - 1] == ts && ts'[|ts'| - 1] == t && |ts'| == n;
  }

  /** Every job of a consistent run was handled as the source does, after
      what the jobs before it collected. */
  lemma {:induction false} JobsConsistentMeaning(ts: seq<JobTrace>, jobs: seq<Jobs.JobResult>, services: Services, k: nat)
    requires JobsConsistent(ts, jobs, services) && k < |ts|
    ensures JobConsistent(ts[k], TaskName(k + 1), jobs[k].reports, Collected(ts[..k]), services)
    decreases |ts|
  {
    if k < |ts| - 1 {
      var init := ts[..|ts| - 1];
      JobsConsistentMeaning(init, jobs, services, k);
      assert init[k] == ts[k] && init[..k] == ts[..k];
    }
  }

  /** Collected grows by one job at a time. */
  lemma CollectedSnoc(ts: seq<JobTrace>, t: JobTrace, n: nat)
    requires n == |ts| + 1
    ensures Collected(ts + [t]) == Collected(ts) + Chunk(t, TaskName(n))
  {
    assert (ts + [t])[..|ts|] == ts;
    assert |ts + [t]| == n;
  }

  /** The jobs among the first n carry the name of the last position
      among them that holds their object. */
  ghost predicate Named(jobs: seq<Jobs.JobResult>, n: nat)
    requires n <= |jobs|
    reads jobs
  {
    forall k :: 0 <= k < n ==> jobs[k].taskName == PositionName(LastIndex(jobs, k, n))
  }

  /** The traces of the first n jobs that start a job object's visits
      hold the status and exception that object had before the run. */
  ghost predicate TracesStart(jobs: seq<Jobs.JobResult>, traces: seq<JobTrace>, statuses: seq<Jobs.TaskStatus>,
                              exceptions: seq<Option<string>>, n: nat)
    requires n <= |traces| && n <= |jobs| == |statuses| == |exceptions|
  {
    forall k :: 0 <= k < n && FirstIndex(jobs, k) == k ==>
      traces[k].status == statuses[k] && traces[k].exception == exceptions[k]
  }

  lemma TracesStartSnoc(jobs: seq<Jobs.JobResult>, traces: seq<JobTrace>, t: JobTrace, statuses: seq<Jobs.TaskStatus>,
                        exceptions: seq<Option<string>>, i: nat, n: nat)
    requires i == |traces| < |jobs| == |statuses| == |exceptions| && n == i + 1
    requires TracesStart(jobs, traces, statuses, exceptions, i)
    requires FirstIndex(jobs, i) == i ==> t.status == statuses[i] && t.exception == exceptions[i]
    ensures TracesStart(jobs, traces + [t], statuses, exceptions, n)
  {
    assert forall k :: 0 <= k < i ==> (traces + [t])[k] == traces[k];
  }

  /** After the whole list, every first visit's trace holds the starting
      status and exception. */
  lemma TracesStartMeaning(jobs: seq<Jobs.JobResult>, traces: seq<JobTrace>, statuses: seq<Jobs.TaskStatus>,
                           exceptions: seq<Option<string>>)
    requires |traces| == |jobs| == |statuses| == |exceptions|
    requires TracesStart(jobs, traces, statuses, exceptions, |jobs|)
    ensures forall k :: 0 <= k < |jobs| && FirstVisit(jobs, k) ==>
              traces[k].status == statuses[k] && traces[k].exception == exceptions[k]
  {
    forall k | 0 <= k < |jobs| && FirstVisit(jobs, k)
      ensures traces[k].status == statuses[k] && traces[k].exception == exceptions[k]
    {
      FirstIndexVisit(jobs, k);
    }
  }

  /** The job objects not reached before position n still have the
      status and exception they had before the run. */
  ghost predicate StatusKept(jobs: seq<Jobs.JobResult>, statuses: seq<Jobs.TaskStatus>, exceptions: seq<Option<string>>,
                             n: nat)
    requires |jobs| == |statuses| == |exceptions|
    reads jobs
  {
    forall k :: 0 <= k < |jobs| && FirstIndex(jobs, k) >= n ==>
      jobs[k].status == statuses[k] && jobs[k].exception == exceptions[k]
  }

  /** A job object first reached after position i is not job i's and is
      first reached at i or later. */
  lemma FirstAfter(jobs: seq<Jobs.JobResult>, i: nat, next: nat)
    requires i < |jobs| && next == i + 1
    ensures forall k :: 0 <= k < |jobs| && FirstIndex(jobs, k) >= next ==> jobs[k] != jobs[i] && FirstIndex(jobs, k) >= i
  {
    forall k | 0 <= k < |jobs| && FirstIndex(jobs, k) >= next
      ensures jobs[k] != jobs[i]
    {
      FirstFromFound(jobs, k, 0);
    }
  }

  /** After the whole list, the last position holding a job object names
      it. */
  lemma NamedMeaning(jobs: seq<Jobs.JobResult>)
    requires Named(jobs, |jobs|)
    ensures forall k :: 0 <= k < |jobs| && LastVisit(jobs, k) ==> jobs[k].taskName == TaskName(k + 1)
  {
    forall k | 0 <= k < |jobs| && LastVisit(jobs, k)
      ensures jobs[k].taskName == TaskName(k + 1)
    {
      LastIndexVisit(jobs, k);
      assert LastIndex(jobs, k, |jobs|) == k;
    }
  }

  /** Naming job i keeps the other names of the prefix. */
  lemma NamedSnoc(jobs: seq<Jobs.JobResult>, i: nat, next: nat)
    requires i < |jobs| && next == i + 1
    requires jobs[i].taskName == TaskName(next)
    requires forall k :: 0 <= k < i && jobs[k] != jobs[i] ==> jobs[k].taskName == PositionName(LastIndex(jobs, k, i))
    ensures Named(jobs, next)
  {
    forall k | 0 <= k < next
      ensures jobs[k].taskName == PositionName(LastIndex(jobs, k, next))
    {
      if jobs[k] == jobs[i] {
        assert LastIndex(jobs, k, next) == i;
      } else {
        assert LastIndex(jobs, k, next) == LastIndex(jobs, k, i);
      }
    }
  }

  /** Job `i` of a run as the (i+1)-th: the results and traces so far
      grow by its chunk; job i's object is renamed and no other job object
      changes. */
  method JobRun(jobs: seq<Jobs.JobResult>, i: nat, next: nat, acc: seq<R.BaseResult>, ghost traces: seq<JobTrace>,
                ghost statuses: seq<Jobs.TaskStatus>, ghost exceptions: seq<Option<string>>,
                services: Services, w: World, connections: ConnectionManager, token: Cancellation)
    returns (outcome: Result<seq<R.BaseResult>>, ghost t: JobTrace)
    requires i == |traces| < |jobs| && next == i + 1 && acc == Collected(traces) && JobsConsistent(traces, jobs, services)
    requires |jobs| == |statuses| == |exceptions| && StatusKept(jobs, statuses, exceptions, i) && Named(jobs, i)
    modifies jobs[i], w.fs, w.ftp, w.hub, w.outbox, connections.pool, token
    ensures jobs[i].taskName == TaskName(next)
    ensures t.status == old(jobs[i].status) && t.exception == old(jobs[i].exception)
    ensures forall k :: 0 <= k < |jobs| && jobs[k] != jobs[i] ==>
              && jobs[k].taskName == old(jobs[k].taskName)
              && jobs[k].status == old(jobs[k].status) && jobs[k].exception == old(jobs[k].exception)
    ensures outcome.Success? ==> outcome.value == Collected(traces + [t]) && JobsConsistent(traces + [t], jobs, services)
    ensures StatusKept(jobs, statuses, exceptions, next) && Named(jobs, next)
  {
    FirstAfter(jobs, i, next);
    outcome, t := RunJob(jobs[i], next, acc, services, w, connections, token);
    NamedSnoc(jobs, i, next);
    if outcome.Success? {
      CollectedSnoc(traces, t, next);
      JobsConsistentSnoc(traces, jobs, services, t, next);
    }
  }

  /** Job `i` of a run: a cancellation check, then the job; the loop's
      bookkeeping advances by one position. */
  method JobStep(jobs: seq<Jobs.JobResult>, i: nat, next: nat, acc: seq<R.BaseResult>, ghost traces: seq<JobTrace>,
                 ghost statuses: seq<Jobs.TaskStatus>, ghost exceptions: seq<Option<string>>,
                 services: Services, w: World, connections: ConnectionManager, token: Cancellation)
    returns (outcome: Result<seq<R.BaseResult>>, ghost t: JobTrace)
    requires i == |traces| < |jobs| == |statuses| == |exceptions| && next == i + 1
    requires acc == Collected(traces) && JobsConsistent(traces, jobs, services)
    requires TracesStart(jobs, traces, statuses, exceptions, i) && StatusKept(jobs, statuses, exceptions, i)
    requires Named(jobs, i)
    modifies jobs[i], w.fs, w.ftp, w.hub, w.outbox, connections.pool, token
    ensures token.cancelAt.Some? && token.cancelAt.value <= old(token.checks) ==> outcome == Failure(CanceledMessage)
    ensures outcome.Success? ==>
      && outcome.value == Collected(traces + [t])
      && JobsConsistent(traces + [t], jobs, services)
      && TracesStart(jobs, traces + [t], statuses, exceptions, next)
      && StatusKept(jobs, statuses, exceptions, next)
      && Named(jobs, next)
  {
    t := JobTrace(jobs[i].status, jobs[i].exception, [], [], "", [], [], "", []);
    var canceled := token.ThrowIfCancellationRequested();
    if canceled {
      return Failure(CanceledMessage), t;
    }
    assert FirstIndex(jobs, i) == i ==> jobs[i].status == statuses[i] && jobs[i].exception == exceptions[i];
    outcome, t := JobRun(jobs, i, next, acc, traces, statuses, exceptions, services, w, connections, token);
    if outcome.Success? {
      TracesStartSnoc(jobs, traces, t, statuses, exceptions, i, next);
    }
  }

  /** The loop of Run over the jobs: each is named "Task <k>" by its
      position after a cancellation check; the first failure ends it. */
  method RunJobs(jobs: seq<Jobs.JobResult>, token: Cancellation, connections: ConnectionManager, services: Services,
                 w: World) returns (outcome: Result<seq<R.BaseResult>>, ghost traces: seq<JobTrace>)
    modifies jobs, token, connections.pool, w.fs, w.ftp, w.hub, w.outbox
    ensures |jobs| > 0 && token.cancelAt.Some? && token.cancelAt.value <= old(token.checks) ==>
              outcome == Failure(CanceledMessage)
    ensures |jobs| == 0 ==> outcome == Success([]) && token.checks == old(token.checks)
    ensures outcome.Success? ==>
      && |traces| == |jobs|
      && outcome.value == Collected(traces)
      && JobsConsistent(traces, jobs, services)
      && (forall k :: 0 <= k < |jobs| && FirstVisit(jobs, k) ==>
            traces[k].status == old(jobs[k].status) && traces[k].exception == old(jobs[k].exception))
      && (forall k :: 0 <= k < |jobs| && LastVisit(jobs, k) ==> jobs[k].taskName == TaskName(k + 1))
  {
    ghost var statuses := seq(|jobs|, k requires 0 <= k < |jobs| reads jobs => jobs[k].status);
    ghost var exceptions := seq(|jobs|, k requires 0 <= k < |jobs| reads jobs => jobs[k].exception);
    assert forall k :: 0 <= k < |jobs| ==> statuses[k] == old(jobs[k].status) && exceptions[k] == old(jobs[k].exception);
    outcome, traces := JobsLoop(jobs, statuses, exceptions, token, connections, services, w);
    if outcome.Success? {
      TracesStartMeaning(jobs, traces, statuses, exceptions);
      NamedMeaning(jobs);
    }
  }

  /** The loop itself, with the statuses and exceptions the jobs had
      before it. */
  method JobsLoop(jobs: seq<Jobs.JobResult>, ghost statuses: seq<Jobs.TaskStatus>, ghost exceptions: seq<Option<string>>,
                  token: Cancellation, connections: ConnectionManager, services: Services, w: World)
    returns (outcome: Result<seq<R.BaseResult>>, ghost traces: seq<JobTrace>)
    requires |jobs| == |statuses| == |exceptions| && StatusKept(jobs, statuses, exceptions, 0)
    modifies jobs, token, connections.pool, w.fs, w.ftp, w.hub, w.outbox
    ensures |jobs| > 0 && token.cancelAt.Some? && token.cancelAt.value <= old(token.checks) ==>
              outcome == Failure(CanceledMessage)
    ensures |jobs| == 0 ==> outcome == Success([]) && token.checks == old(token.checks)
    ensures outcome.Success? ==>
      && |traces| == |jobs|
      && outcome.value == Collected(traces)
      && JobsConsistent(traces, jobs, services)
      && TracesStart(jobs, traces, statuses, exceptions, |jobs|)
      && Named(jobs, |jobs|)
  {
    var acc := [];
    traces := [];
    var i := 0;
    while i < |jobs|
      invariant 0 <= i <= |jobs| && |traces| == i
      invariant acc == Collected(traces)
      invariant JobsConsistent(traces, jobs, services)
      invariant TracesStart(jobs, traces, statuses, exceptions, i)
      invariant StatusKept(jobs, statuses, exceptions, i)
      invariant Named(jobs, i)
      invariant i == 0 ==> token.checks == old(token.checks)
      invariant token.cancelAt.Some? && token.cancelAt.value <= old(token.checks) ==> i == 0
    {
      var next := i + 1;
      var o, t := JobStep(jobs, i, next, acc, traces, statuses, exceptions, services, w, connections, token);
      if o.Failure? {
        return Failure(o.error), traces;
      }
      acc := o.value;
      traces := traces + [t];
      i := next;
    }
    outcome := Success(acc);
  }

  /** The distribution of a list of job results; ErrorMessage is the
      message of the exception a failed run ends with. */
  class DistributeManager {
    var errorMessage: Option<string>

    constructor()
      ensures errorMessage.None?
    {
      errorMessage := None;
    }

    /** Run: the jobs in order, each named "Task <k>" by its position and
        preceded by a cancellation check; then the connections are freed,
        the token is checked once more, and the results are sorted by task
        name and normalised. A failure anywhere ends the run with None and
        sets the error message; the connections are freed either way. */
    method Run(jobs: seq<Jobs.JobResult>, token: Cancellation, connections: ConnectionManager, services: Services,
               w: World) returns (r: Option<seq<R.BaseResult>>, ghost traces: seq<JobTrace>)
      modifies this, jobs, token, connections.pool, w.fs, w.ftp, w.hub, w.outbox
      ensures forall c :: c in connections.pool ==> c.isFree
      ensures r.None? ==> errorMessage.Some?
      ensures r.Some? ==> errorMessage == old(errorMessage)
      ensures token.cancelAt.Some? && token.cancelAt.value <= old(token.checks) ==>
                r.None? && errorMessage == Some(CanceledMessage)
      ensures r.Some? ==> token.cancelAt.None? || token.cancelAt.value >= token.checks
      ensures r.Some? ==>
        && |traces| == |jobs|
        && r.value == N.Normalize(N.SortByTaskName(Collected(traces)))
        && JobsConsistent(traces, jobs, services)
        && (forall k :: 0 <= k < |jobs| && FirstVisit(jobs, k) ==>
              traces[k].status == old(jobs[k].status) && traces[k].exception == old(jobs[k].exception))
        && (forall k :: 0 <= k < |jobs| && LastVisit(jobs, k) ==> jobs[k].taskName == TaskName(k + 1))
    {
      var outcome;
      outcome, traces := RunJobs(jobs, token, connections, services, w);
      label Looped:
      r := Finish(outcome, token, connections);
      assert forall k :: 0 <= k < |jobs| ==> jobs[k].taskName == old@Looped(jobs[k].taskName);
    }

    /** The end of Run: after a successful loop the connections are freed
        and the token is checked once more, and the results are sorted and
        normalised; a failure sets the error message; the connections are
        freed either way. */
    method Finish(outcome: Result<seq<R.BaseResult>>, token: Cancellation, connections: ConnectionManager)
      returns (r: Option<seq<R.BaseResult>>)
      modifies this, token, connections.pool
      ensures forall c :: c in connections.pool ==> c.isFree
      ensures outcome.Failure? ==> r.None? && errorMessage == Some(outcome.error)
      ensures outcome.Success? && token.cancelAt.Some? && token.cancelAt.value <= old(token.checks) ==>
                r.None? && errorMessage == Some(CanceledMessage)
      ensures r.None? ==> errorMessage.Some?
      ensures r.Some? ==>
        && outcome.Success? && errorMessage == old(errorMessage)
        && r.value == N.Normalize(N.SortByTaskName(outcome.value))
        && (token.cancelAt.None? || token.cancelAt.value >= token.checks)
    {
      var current := outcome;
      if current.Success? {
        connections.MakeFree();
        var canceled := token.ThrowIfCancellationRequested();
        if canceled {
          current := Failure(CanceledMessage);
        }
      }
      if current.Failure? {
        errorMessage := Some(current.error);
        r := None;
      } else {
        var sorted := N.SortByTaskName(current.value);
        var normalized := N.NormalizeReportState(sorted);
        r := Some(normalized);
      }
      // the finally block
      connections.MakeFree();
    }
  }
}
