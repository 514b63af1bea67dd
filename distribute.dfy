/** The older entry point (src/Distribute.cs): the job result files of a
    folder are read one after the other; for every successful job each
    location of each report is classified by a type-only probe and sent to
    the file copy, the hub upload or the mail list of one ExecuteManager,
    and the collected mails go out once all reports of the file are done. */
module Distribute {
  import opened Wrappers
  import Text
  import J = Json
  import Jobs
  import LS = LegacySettings
  import V = CertificateValidation
  import Hub = HubAction
  import EM = ExecuteManager
  import LegacyMail
  import DM = DistributeManager

  // ---------------------------------------------------------------------
  // The type-only probe
  // ---------------------------------------------------------------------

  /** BaseDeliverySettings: the activation (None when the JSON has none)
      and the delivery type. */
  datatype BaseSettings = BaseSettings(active: Option<bool>, settingsType: LS.SettingsType)

  /** `token["active"]` on one child: an object gives the property's value
      or nothing; any other token cannot be indexed by name and throws. */
  function ChildActive(j: J.Json): (r: Result<Option<J.Json>>)
    ensures r.Success? <==> j.JObj?
    ensures j.JObj? ==> r.value == J.Lookup(j.props, "active")
  {
    if j.JObj? then Success(J.Lookup(j.props, "active")) else Failure("Cannot access child value.")
  }

  /** `items["active"].ToList().FirstOrDefault()` on the items of an
      array: the list is built from every item, so any item that is not
      an object throws, wherever it stands; otherwise the first "active"
      value, in order. */
  function FirstActive(items: seq<J.Json>): (r: Result<Option<J.Json>>)
    ensures r.Failure? <==> exists k :: 0 <= k < |items| && !items[k].JObj?
    ensures r.Success? ==> FirstFound(items, r.value)
  {
    if exists k :: 0 <= k < |items| && !items[k].JObj? then Failure("Cannot access child value.")
    else Success(FirstLookup(items))
  }

  /** `v` is the first "active" value of the object items, or None when
      none of them has one. */
  ghost predicate FirstFound(items: seq<J.Json>, v: Option<J.Json>)
    requires forall k :: 0 <= k < |items| ==> items[k].JObj?
  {
    match v
    case None => forall k :: 0 <= k < |items| ==> J.Lookup(items[k].props, "active").None?
    case Some(_) =>
      exists k :: 0 <= k < |items| && J.Lookup(items[k].props, "active") == v
                  && forall m :: 0 <= m < k ==> J.Lookup(items[m].props, "active").None?
  }

  function FirstLookup(items: seq<J.Json>): (v: Option<J.Json>)
    requires forall k :: 0 <= k < |items| ==> items[k].JObj?
    ensures FirstFound(items, v)
  {
    if items == [] then None
    else
      var head := J.Lookup(items[0].props, "active");
      if head.Some? then head
      else
        var v := FirstLookup(items[1..]);
        assert forall k :: 1 <= k < |items| ==> items[k] == items[1..][k - 1];
        assert FirstFound(items, v) by {
          if v.Some? {
            var k :| 0 <= k < |items[1..]| && J.Lookup(items[1..][k].props, "active") == v
                     && forall m :: 0 <= m < k ==> J.Lookup(items[1..][m].props, "active").None?;
            assert J.Lookup(items[k + 1].props, "active") == v;
          }
        }
        v
  }

  /** `json.Children()["active"].FirstOrDefault()`: a property's only child
      is its value; the children of an object item are properties, which
      throw when indexed; an array item offers its items; a plain value
      has no children. */
  function ActiveToken(l: DM.Location): Result<Option<J.Json>> {
    match l
    case PropertyLocation(p) => ChildActive(p.value)
    case ItemLocation(item) =>
      match item
      case JObj(props) => if props == [] then Success(None) else Failure("Cannot access child value.")
      case JArr(items) => FirstActive(items)
      case _ => Success(None)
  }

  /** `...?.ToObject<bool>() ?? null`: no token leaves the activation
      unset; a token that is no boolean throws. */
  function ProbeActive(l: DM.Location): (r: Result<Option<bool>>)
    ensures ActiveToken(l).Failure? ==> r.Failure?
    ensures ActiveToken(l) == Success(None) ==> r == Success(None)
    ensures ActiveToken(l).Success? && ActiveToken(l).value.Some? ==>
              (r.Success? <==> DM.ToBool(ActiveToken(l).value.value).Some?)
              && (r.Success? ==> r.value == DM.ToBool(ActiveToken(l).value.value))
  {
    match ActiveToken(l)
    case Failure(e) => Failure(e)
    case Success(None) => Success(None)
    case Success(Some(v)) =>
      match DM.ToBool(v)
      case None => Failure("Can not convert to Boolean.")
      case Some(b) => Success(Some(b))
  }

  /** The type an exact key names in the type-only probe. */
  function KeyType(name: string): Option<LS.SettingsType> {
    if name == "mail" then Some(LS.MAIL)
    else if name == "hub" then Some(LS.HUB)
    else if name == "file" then Some(LS.FILE)
    else None
  }

  /** `json.First()`, the token full deserialisation reads: a property's
      value or an array item's first item. The first child of an object
      item is a property, whose text is no settings object, and a plain
      value or an empty container has no first child: both throw. */
  function FirstToken(l: DM.Location): Option<J.Json> {
    match l
    case PropertyLocation(p) => Some(p.value)
    case ItemLocation(item) => if item.JArr? && item.items != [] then Some(item.items[0]) else None
  }

  /** A JSON member name bound to a settings property (names match
      ignoring case). */
  predicate Names(p: J.Prop, property: string) {
    Text.ToLower(p.name) == property
  }

  /** A `bool?` read from JSON: null and the empty string leave it unset;
      a boolean, a number or a boolean string set it; anything else
      throws. */
  function ReadActive(v: J.Json): Option<Option<bool>> {
    match v
    case JNull => Some(None)
    case JStr(s) => if s == [] then Some(None) else (match DM.ToBool(v) case None => None case Some(b) => Some(Some(b)))
    case JBool(b) => Some(Some(b))
    case JInt(i) => Some(Some(i != 0))
    case _ => None
  }

  /** A SettingsType read from JSON: a number is the enum value it is, a
      string names a member (ignoring case); null and anything else
      throw. */
  function ReadType(v: J.Json): (t: Option<LS.SettingsType>)
    ensures v.JInt? ==> t == Some(LS.SettingsTypeOf(v.i))
    ensures v.JStr? ==> (t.Some? <==> Text.ToLower(v.s) in {"mail", "file", "hub"})
    ensures !v.JInt? && !v.JStr? ==> t.None?
  {
    match v
    case JInt(i) => Some(LS.SettingsTypeOf(i))
    case JStr(s) =>
      var n := Text.ToLower(s);
      if n == "mail" then Some(LS.MAIL) else if n == "file" then Some(LS.FILE) else if n == "hub" then Some(LS.HUB) else None
    case _ => None
  }

  /** The first `n` members of an object read in order into
      BaseDeliverySettings: a later member of the same name overwrites an
      earlier one, other members are ignored, and the first value that
      does not convert throws. */
  function ReadBase(props: seq<J.Prop>, n: nat): Option<BaseSettings>
    requires n <= |props|
  {
    if n == 0 then Some(BaseSettings(None, LS.MAIL))
    else match ReadBase(props, n - 1)
      case None => None
      case Some(s) =>
        var p := props[n - 1];
        if Names(p, "active") then (match ReadActive(p.value) case None => None case Some(a) => Some(s.(active := a)))
        else if Names(p, "type") then (match ReadType(p.value) case None => None case Some(t) => Some(s.(settingsType := t)))
        else Some(s)
  }

  /** JsonConvert.DeserializeObject<BaseDeliverySettings>: "null" gives
      null; an object is read member by member; any other token throws
      (both give the null settings the caller gets). */
  function Deserialize(j: J.Json): Option<BaseSettings> {
    match j
    case JObj(props) => ReadBase(props, |props|)
    case _ => None
  }

  /** GetSettings<BaseDeliverySettings>(location, true): None stands for
      the null result, after a throw or a null from the deserialiser. */
  function Probe(l: DM.Location): (r: Option<BaseSettings>)
    ensures ProbeActive(l).Failure? ==> r.None?
    ensures ProbeActive(l).Success? && l.PropertyLocation? && KeyType(l.prop.name).Some? ==>
              r == Some(BaseSettings(ProbeActive(l).value, KeyType(l.prop.name).value))
    ensures ProbeActive(l).Success? && !(l.PropertyLocation? && KeyType(l.prop.name).Some?) ==>
              r == (if FirstToken(l).None? then None else Deserialize(FirstToken(l).value))
  {
    match ProbeActive(l)
    case Failure(_) => None
    case Success(active) =>
      if l.PropertyLocation? && KeyType(l.prop.name).Some? then Some(BaseSettings(active, KeyType(l.prop.name).value))
      else if FirstToken(l).None? then None
      else Deserialize(FirstToken(l).value)
  }

  /** The last of the first `n` members that is called `property`, if
      any. */
  function LastNamed(props: seq<J.Prop>, property: string, n: nat): (r: Option<nat>)
    requires n <= |props|
    ensures r.Some? ==> r.value < n && Names(props[r.value], property)
                        && forall k :: r.value < k < n ==> !Names(props[k], property)
    ensures r.None? ==> forall k :: 0 <= k < n ==> !Names(props[k], property)
  {
    if n == 0 then None
    else if Names(props[n - 1], property) then Some(n - 1)
    else LastNamed(props, property, n - 1)
  }

  /** Reading succeeds exactly when every "active" and "type" member
      converts, and then the last member of each name decides: with no
      "active" the activation stays unset and with no "type" the type is
      MAIL, the enum's zero value. */
  lemma {:induction false} ReadBaseMeaning(props: seq<J.Prop>, n: nat)
    requires n <= |props|
    ensures ReadBase(props, n).Some? <==>
              forall k :: 0 <= k < n ==> (Names(props[k], "active") ==> ReadActive(props[k].value).Some?)
                                         && (Names(props[k], "type") ==> ReadType(props[k].value).Some?)
    ensures ReadBase(props, n).Some? ==>
              var a := LastNamed(props, "active", n);
              ReadBase(props, n).value.active == (if a.None? then None else ReadActive(props[a.value].value).value)
    ensures ReadBase(props, n).Some? ==>
              var t := LastNamed(props, "type", n);
              ReadBase(props, n).value.settingsType == (if t.None? then LS.MAIL else ReadType(props[t.value].value).value)
  {
    if n > 0 {
      ReadBaseMeaning(props, n - 1);
      NamesExclusive(props[n - 1]);
    }
  }

  /** A member named "active" is never also named "type". */
  lemma NamesExclusive(p: J.Prop)
    ensures !(Names(p, "active") && Names(p, "type"))
  {
    if Names(p, "active") {
      assert Text.ToLower(p.name)[0] == 'a';
    }
  }

  /** The three exact keys are classified without reading the settings:
      a "type" member does not change the type, and an object without
      "active" leaves the activation unset. */
  lemma ExactKeys(name: string, props: seq<J.Prop>)
    requires name in {"mail", "hub", "file"} && J.Lookup(props, "active").None?
    ensures Probe(DM.PropertyLocation(J.Prop(name, J.JObj(props)))) == Some(BaseSettings(None, KeyType(name).value))
    ensures KeyType(name).value == (if name == "mail" then LS.MAIL else if name == "hub" then LS.HUB else LS.FILE)
    ensures Probe(DM.PropertyLocation(J.Prop("mail", J.JObj([J.Prop("type", J.JStr("hub"))]))))
            == Some(BaseSettings(None, LS.MAIL))
  {
    var props1 := [J.Prop("type", J.JStr("hub"))];
    assert J.Lookup(props1, "active").None? by {
      assert props1[0].name != "active";
    }
  }

  /** Any other key is deserialised: "hub1" without a "type" member is a
      MAIL location, and "mail" in another case is not an exact key. */
  lemma OtherKeysDeserialise()
    ensures Probe(DM.PropertyLocation(J.Prop("hub1", J.JObj([])))) == Some(BaseSettings(None, LS.MAIL))
    ensures Probe(DM.PropertyLocation(J.Prop("Mail", J.JObj([J.Prop("Type", J.JInt(2))]))))
            == Some(BaseSettings(None, LS.HUB))
  {
    var l := DM.PropertyLocation(J.Prop("hub1", J.JObj([])));
    assert ProbeActive(l) == Success(None);
    assert KeyType("hub1").None?;
    var props := [J.Prop("Type", J.JInt(2))];
    var m := DM.PropertyLocation(J.Prop("Mail", J.JObj(props)));
    assert J.Lookup(props, "active").None? by {
      assert props[0].name != "active";
    }
    assert ProbeActive(m) == Success(None);
    assert KeyType("Mail").None? by {
      assert "Mail"[0] != "mail"[0] && "Mail"[0] != "hub"[0] && "Mail"[0] != "file"[0];
    }
    assert Text.ToLower("Type") == "type";
    assert Names(props[0], "type");
    NamesExclusive(props[0]);
    assert ReadBase(props, 1) == Some(BaseSettings(None, LS.HUB));
  }

  // ---------------------------------------------------------------------
  // Run
  // ---------------------------------------------------------------------

  /** What JsonConvert makes of a result file: a job result with its status
      and reports, or a throw (a "null" document too, whose status cannot
      be read). */
  datatype ResultFile = Unreadable | Parsed(status: Jobs.TaskStatus, reports: seq<Jobs.Report>)

  /** What a run depends on besides the state: the typed deserialisers of a
      location (GetSettings<FileSettings>, <HubSettings> and
      <MailSettings>; None is null), the result file parser, the lib folder
      resolver, the hub, the mail server and the on-demand flag. */
  datatype Env = Env(
    file: DM.Location -> Option<LS.DeliverySettings>,
    hub: DM.Location -> Option<LS.DeliverySettings>,
    mail: DM.Location -> Option<LS.MailSettings>,
    parse: seq<Jobs.byte> -> ResultFile,
    resolve: EM.LibResolver,
    b: Hub.Behaviour,
    smtp: LegacyMail.Smtp,
    onDemand: bool)

  /** What the manager and the sinks hold: the connection the certificate
      callback reads, the resolved folders, and the hub, the disk, the
      purged owners and the on-demand link. */
  datatype World = World(global: Option<V.SerConnection>, pathMapper: map<string, string>, run: EM.HubRun)

  /** The work on one job file so far: the world, the mail settings
      collected and whether the run threw. */
  datatype Pass = Pass(world: World, mails: seq<LS.MailSettings>, thrown: bool)

  /** A file location: CopyFile with the decoded settings. */
  function FileStep(env: Env, w: World, settings: Option<LS.DeliverySettings>, report: Jobs.Report): World {
    var c := EM.CopyFileRun(w.pathMapper, w.run.disk, settings, report.paths, report.name, env.resolve);
    World(EM.FirstConnection(settings), c.pathMapper, w.run.(disk := c.disk))
  }

  /** A hub location: UploadToHub with the decoded settings; the task it
      returns is awaited, so its owner change is part of the hub. */
  function HubStep(env: Env, w: World, settings: Option<LS.DeliverySettings>, report: Jobs.Report): World {
    World(EM.FirstConnection(settings), w.pathMapper,
          EM.UploadRun(env.b, w.run, settings, report.paths, report.name, env.onDemand).run)
  }

  /** Mail settings as they are collected: with the report's paths and
      name. */
  function MailOf(m: LS.MailSettings, report: Jobs.Report): LS.MailSettings {
    m.(paths := Some(report.paths), reportName := Some(report.name))
  }

  /** One location of a report: null settings throw; a location whose
      "active" is false is skipped (a missing one counts as true); a mail
      location whose settings decode to null throws; an unknown type is
      skipped. */
  function Deliver(env: Env, report: Jobs.Report, p: Pass, l: DM.Location): (r: Pass)
    ensures Probe(l).None? ==> r == p.(thrown := true)
    ensures Probe(l).Some? && Probe(l).value.active == Some(false) ==> r == p
    ensures Probe(l).Some? && Probe(l).value.active != Some(false) && Probe(l).value.settingsType == LS.FILE ==>
              r == p.(world := FileStep(env, p.world, env.file(l), report))
    ensures Probe(l).Some? && Probe(l).value.active != Some(false) && Probe(l).value.settingsType == LS.HUB ==>
              r == p.(world := HubStep(env, p.world, env.hub(l), report))
    ensures Probe(l).Some? && Probe(l).value.active != Some(false) && Probe(l).value.settingsType == LS.MAIL ==>
              r == if env.mail(l).None? then p.(thrown := true) else p.(mails := p.mails + [MailOf(env.mail(l).value, report)])
    ensures Probe(l).Some? && Probe(l).value.settingsType.UndefinedSettingsType? ==> r == p
    ensures r.thrown != p.thrown ==> r.world == p.world && r.mails == p.mails
    ensures r.mails != p.mails ==> Probe(l).Some? && Probe(l).value.settingsType == LS.MAIL
                                   && Probe(l).value.active != Some(false) && env.mail(l).Some?
                                   && r.mails == p.mails + [MailOf(env.mail(l).value, report)]
  {
    match Probe(l)
    case None => p.(thrown := true)
    case Some(s) =>
      if s.active == Some(false) then p
      else match s.settingsType
        case FILE => p.(world := FileStep(env, p.world, env.file(l), report))
        case HUB => p.(world := HubStep(env, p.world, env.hub(l), report))
        case MAIL =>
          if env.mail(l).None? then p.(thrown := true) else p.(mails := p.mails + [MailOf(env.mail(l).value, report)])
        case UndefinedSettingsType(_) => p
  }

  /** The first `n` steps over `items` from `s`, up to the first state
      that has thrown: the shape of each foreach below, whose exception
      leaves the rest undone. */
  function Scan<C, T, S>(step: (C, S, T) -> S, thrown: S -> bool, c: C, s: S, items: seq<T>, n: nat): S
    requires n <= |items|
  {
    if n == 0 then s
    else
      var q := Scan(step, thrown, c, s, items, n - 1);
      if thrown(q) then q else step(c, q, items[n - 1])
  }

  /** After a throw no later step runs. */
  lemma {:induction false} ScanStops<C, T, S>(step: (C, S, T) -> S, thrown: S -> bool, c: C, s: S, items: seq<T>,
                                             i: nat, n: nat)
    requires i <= n <= |items| && thrown(Scan(step, thrown, c, s, items, i))
    ensures Scan(step, thrown, c, s, items, n) == Scan(step, thrown, c, s, items, i)
    decreases n - i
  {
    if i < n {
      ScanStops(step, thrown, c, s, items, i, n - 1);
    }
  }

  /** One more step, while nothing has thrown. */
  lemma ScanNext<C, T, S>(step: (C, S, T) -> S, thrown: S -> bool, c: C, s: S, items: seq<T>, i: nat)
    requires i < |items| && !thrown(Scan(step, thrown, c, s, items, i))
    ensures Scan(step, thrown, c, s, items, i + 1) == step(c, Scan(step, thrown, c, s, items, i), items[i])
  {
  }

  function PassThrown(p: Pass): bool { p.thrown }

  /** What a location is delivered with. */
  datatype ReportContext = ReportContext(env: Env, report: Jobs.Report)

  function DeliverIn(c: ReportContext, p: Pass, l: DM.Location): Pass {
    Deliver(c.env, c.report, p, l)
  }

  /** The first `n` locations of a report, up to the first throw. */
  function Locations(env: Env, report: Jobs.Report, locs: seq<DM.Location>, p: Pass, n: nat): Pass
    requires n <= |locs|
  {
    Scan(DeliverIn, PassThrown, ReportContext(env, report), p, locs, n)
  }

  /** All locations of a report (`report?.Distribute?.Children()`). */
  function DeliverReport(env: Env, p: Pass, report: Jobs.Report): Pass {
    var locs := DM.Locations(report.distribute);
    Locations(env, report, locs, p, |locs|)
  }

  function DeliverReportIn(env: Env, p: Pass, report: Jobs.Report): Pass {
    DeliverReport(env, p, report)
  }

  /** The first `n` reports of a job, up to the first throw. */
  function Reports(env: Env, reports: seq<Jobs.Report>, p: Pass, n: nat): Pass
    requires n <= |reports|
  {
    Scan(DeliverReportIn, PassThrown, env, p, reports, n)
  }

  /** The run so far: the world, the mails sent and whether it threw. */
  datatype Done = Done(world: World, sent: seq<LegacyMail.Mail>, thrown: bool)

  /** One path of the listing: a file that is gone is skipped, one that
      does not parse throws, a job that did not succeed is skipped;
      otherwise every report is delivered and, once all are done and only
      when some mail settings were collected, the mails are sent. */
  function JobFile(env: Env, d: Done, path: string): (r: Done)
    ensures path !in d.world.run.disk.files ==> r == d
    ensures path in d.world.run.disk.files && env.parse(d.world.run.disk.files[path]).Unreadable? ==> r == d.(thrown := true)
    ensures path in d.world.run.disk.files && env.parse(d.world.run.disk.files[path]).Parsed? ==>
              env.parse(d.world.run.disk.files[path]).status != Jobs.SUCCESS ==> r == d
    ensures r.thrown || d.sent <= r.sent
  {
    if path !in d.world.run.disk.files then d
    else match env.parse(d.world.run.disk.files[path])
      case Unreadable => d.(thrown := true)
      case Parsed(status, reports) =>
        if status != Jobs.SUCCESS then d
        else
          var p := Reports(env, reports, Pass(d.world, [], false), |reports|);
          if p.thrown then Done(p.world, d.sent, true)
          else if |p.mails| == 0 then Done(p.world, d.sent, false)
          else Done(p.world, d.sent + LegacyMail.SendMailsRun(p.mails, p.world.run.disk, env.smtp), false)
  }

  function DoneThrown(d: Done): bool { d.thrown }

  function JobFileIn(env: Env, d: Done, path: string): Done {
    JobFile(env, d, path)
  }

  /** The first `n` paths of the listing, up to the first throw. */
  function JobFiles(env: Env, d: Done, listing: seq<string>, n: nat): Done
    requires n <= |listing|
  {
    Scan(JobFileIn, DoneThrown, env, d, listing, n)
  }

  /** The state a run starts from: a new manager, which has resolved no
      folder and purged no owner, and the connection an earlier manager
      left in the static field. */
  function Start(global: Option<V.SerConnection>, store: Hub.HubStore, disk: Jobs.Disk): World {
    World(global, map[], EM.HubRun(store, disk, [], None))
  }

  /** Run's result: null after a throw, else the on-demand link in
      on-demand mode and "OK" otherwise. */
  function RunResult(env: Env, d: Done): (r: Option<string>)
    ensures d.thrown ==> r.None?
    ensures !d.thrown && !env.onDemand ==> r == Some("OK")
    ensures !d.thrown && env.onDemand ==> r == d.world.run.link
  {
    if d.thrown then None else if env.onDemand then d.world.run.link else Some("OK")
  }

  // Properties of a run

  /** `after` extends `before` with mail settings that carry the report's
      paths and name. */
  ghost predicate Collected(before: seq<LS.MailSettings>, after: seq<LS.MailSettings>, report: Jobs.Report) {
    before <= after
    && forall k :: |before| <= k < |after| ==>
         after[k].paths == Some(report.paths) && after[k].reportName == Some(report.name)
  }

  /** While a report is delivered, mail settings are only appended, each
      with the report's paths and name; nothing is sent. */
  lemma {:induction false} LocationsCollect(env: Env, report: Jobs.Report, locs: seq<DM.Location>, p: Pass, n: nat)
    requires n <= |locs|
    ensures Collected(p.mails, Locations(env, report, locs, p, n).mails, report)
  {
    if n > 0 {
      LocationsCollect(env, report, locs, p, n - 1);
      var q := Locations(env, report, locs, p, n - 1);
      if !q.thrown {
        var r := Deliver(env, report, q, locs[n - 1]);
        assert Collected(q.mails, r.mails, report);
      }
    }
  }

  /** Over all reports of a job the collected mail settings only grow, and
      each carries the paths and name of one of the reports. */
  lemma {:induction false} ReportsCollect(env: Env, reports: seq<Jobs.Report>, p: Pass, n: nat)
    requires n <= |reports|
    ensures var r := Reports(env, reports, p, n);
              p.mails <= r.mails
              && forall k :: |p.mails| <= k < |r.mails| ==>
                   exists j :: 0 <= j < n && r.mails[k].paths == Some(reports[j].paths)
                                          && r.mails[k].reportName == Some(reports[j].name)
  {
    if n > 0 {
      ReportsCollect(env, reports, p, n - 1);
      var q := Reports(env, reports, p, n - 1);
      if !q.thrown {
        var locs := DM.Locations(reports[n - 1].distribute);
        LocationsCollect(env, reports[n - 1], locs, q, |locs|);
        var r := Reports(env, reports, p, n);
        forall k | |p.mails| <= k < |r.mails|
          ensures exists j :: 0 <= j < n && r.mails[k].paths == Some(reports[j].paths)
                                         && r.mails[k].reportName == Some(reports[j].name)
        {
          if k < |q.mails| {
            var j :| 0 <= j < n - 1 && q.mails[k].paths == Some(reports[j].paths)
                                    && q.mails[k].reportName == Some(reports[j].name);
            assert r.mails[k] == q.mails[k];
          } else {
            assert r.mails[k].paths == Some(reports[n - 1].paths);
          }
        }
      }
    }
  }

  /** A job that succeeded: its reports are delivered first; then, unless
      that threw, the collected mails (each with the paths and name of one
      of the reports) are sent against the disk as the deliveries left it. */
  lemma JobFileSendsLast(env: Env, d: Done, path: string)
    requires path in d.world.run.disk.files
    requires env.parse(d.world.run.disk.files[path]).Parsed?
    requires env.parse(d.world.run.disk.files[path]).status == Jobs.SUCCESS
    ensures var reports := env.parse(d.world.run.disk.files[path]).reports;
            var p := Reports(env, reports, Pass(d.world, [], false), |reports|);
            var r := JobFile(env, d, path);
              r.world == p.world && r.thrown == p.thrown
              && (!p.thrown ==> r.sent == d.sent + (if p.mails == [] then []
                                                    else LegacyMail.SendMailsRun(p.mails, p.world.run.disk, env.smtp)))
              && forall k :: 0 <= k < |p.mails| ==>
                   exists j :: 0 <= j < |reports| && p.mails[k].paths == Some(reports[j].paths)
                                                  && p.mails[k].reportName == Some(reports[j].name)
  {
    var reports := env.parse(d.world.run.disk.files[path]).reports;
    ReportsCollect(env, reports, Pass(d.world, [], false), |reports|);
  }

  /** Until a throw the mails sent only grow: each job file adds its own
      after the ones before. */
  lemma {:induction false} JobFilesSend(env: Env, d: Done, listing: seq<string>, n: nat)
    requires n <= |listing|
    ensures JobFiles(env, d, listing, n).thrown || d.sent <= JobFiles(env, d, listing, n).sent
  {
    if n > 0 {
      JobFilesSend(env, d, listing, n - 1);
    }
  }

  // ---------------------------------------------------------------------
  // The run on the manager, the hub, the disk and the mail server
  // ---------------------------------------------------------------------

  /** The world as the manager, the hub and the disk hold it. */
  function WorldOf(execute: EM.ExecuteManager, hub: Hub.QlikHub, fs: Jobs.FileSystem): World
    reads execute, hub, fs
  {
    World(execute.globalConnection, execute.pathMapper, execute.Run(hub, fs))
  }

  /** A file location on the manager. */
  method FileLocation(env: Env, report: Jobs.Report, l: DM.Location, execute: EM.ExecuteManager, hub: Hub.QlikHub,
                      fs: Jobs.FileSystem)
    modifies execute, fs
    ensures WorldOf(execute, hub, fs) == FileStep(env, old(WorldOf(execute, hub, fs)), env.file(l), report)
  {
    var fileSettings := env.file(l);
    execute.CopyFile(fileSettings, report.paths, report.name, env.resolve, fs);
  }

  /** A hub location on the manager; the returned task is awaited. */
  method HubLocation(env: Env, report: Jobs.Report, l: DM.Location, execute: EM.ExecuteManager, hub: Hub.QlikHub,
                     fs: Jobs.FileSystem)
    requires env.b == hub.behaviour
    modifies execute, hub, fs
    ensures WorldOf(execute, hub, fs) == HubStep(env, old(WorldOf(execute, hub, fs)), env.hub(l), report)
  {
    var hubSettings := env.hub(l);
    var task := execute.UploadToHub(hubSettings, report.paths, report.name, env.onDemand, hub, fs);
  }

  /** One location: the probe, then the sink its type names. */
  method DeliverLocation(env: Env, report: Jobs.Report, l: DM.Location, mails: seq<LS.MailSettings>,
                         execute: EM.ExecuteManager, hub: Hub.QlikHub, fs: Jobs.FileSystem)
    returns (collected: seq<LS.MailSettings>, thrown: bool)
    requires env.b == hub.behaviour
    modifies execute, hub, fs
    ensures Pass(WorldOf(execute, hub, fs), collected, thrown)
            == Deliver(env, report, Pass(old(WorldOf(execute, hub, fs)), mails, false), l)
  {
    collected, thrown := mails, false;
    var settings := Probe(l);
    if settings.None? {
      // settings.Active on null
      thrown := true;
      return;
    }
    if settings.value.active == Some(false) {
      return;
    }
    match settings.value.settingsType {
      case FILE =>
        FileLocation(env, report, l, execute, hub, fs);
      case HUB =>
        HubLocation(env, report, l, execute, hub, fs);
      case MAIL =>
        var mailSettings := env.mail(l);
        if mailSettings.None? {
          thrown := true;
        } else {
          collected := mails + [MailOf(mailSettings.value, report)];
        }
      case UndefinedSettingsType(_) =>
    }
  }

  /** The loop over the locations of a report. */
  method DeliverLocations(env: Env, report: Jobs.Report, mails: seq<LS.MailSettings>, execute: EM.ExecuteManager,
                          hub: Hub.QlikHub, fs: Jobs.FileSystem)
    returns (collected: seq<LS.MailSettings>, thrown: bool)
    requires env.b == hub.behaviour
    modifies execute, hub, fs
    ensures Pass(WorldOf(execute, hub, fs), collected, thrown)
            == DeliverReport(env, Pass(old(WorldOf(execute, hub, fs)), mails, false), report)
  {
    ghost var p := Pass(WorldOf(execute, hub, fs), mails, false);
    var locs := DM.Locations(report.distribute);
    collected, thrown := mails, false;
    var i := 0;
    while i < |locs| && !thrown
      invariant 0 <= i <= |locs|
      invariant Pass(WorldOf(execute, hub, fs), collected, thrown) == Locations(env, report, locs, p, i)
    {
      ScanNext(DeliverIn, PassThrown, ReportContext(env, report), p, locs, i);
      collected, thrown := DeliverLocation(env, report, locs[i], collected, execute, hub, fs);
      i := i + 1;
    }
    if thrown {
      ScanStops(DeliverIn, PassThrown, ReportContext(env, report), p, locs, i, |locs|);
    }
  }

  /** The loop over the reports of a job. */
  method DeliverReports(env: Env, reports: seq<Jobs.Report>, execute: EM.ExecuteManager, hub: Hub.QlikHub,
                        fs: Jobs.FileSystem)
    returns (mails: seq<LS.MailSettings>, thrown: bool)
    requires env.b == hub.behaviour
    modifies execute, hub, fs
    ensures Pass(WorldOf(execute, hub, fs), mails, thrown)
            == Reports(env, reports, Pass(old(WorldOf(execute, hub, fs)), [], false), |reports|)
  {
    ghost var p := Pass(WorldOf(execute, hub, fs), [], false);
    mails, thrown := [], false;
    var i := 0;
    while i < |reports| && !thrown
      invariant 0 <= i <= |reports|
      invariant Pass(WorldOf(execute, hub, fs), mails, thrown) == Reports(env, reports, p, i)
    {
      ScanNext(DeliverReportIn, PassThrown, env, p, reports, i);
      mails, thrown := DeliverLocations(env, reports[i], mails, execute, hub, fs);
      i := i + 1;
    }
    if thrown {
      ScanStops(DeliverReportIn, PassThrown, env, p, reports, i, |reports|);
    }
  }

  /** One result file of the listing. */
  method ProcessFile(env: Env, path: string, execute: EM.ExecuteManager, hub: Hub.QlikHub, fs: Jobs.FileSystem,
                     server: LegacyMail.Server)
    returns (thrown: bool)
    requires env.b == hub.behaviour && env.smtp == server.smtp
    modifies execute, hub, fs, server
    ensures Done(WorldOf(execute, hub, fs), server.sent, thrown)
            == JobFile(env, Done(old(WorldOf(execute, hub, fs)), old(server.sent), false), path)
  {
    if path !in fs.disk.files {
      return false;
    }
    var result := env.parse(fs.disk.files[path]);
    if result.Unreadable? {
      return true;
    }
    if result.status != Jobs.SUCCESS {
      return false;
    }
    var mails;
    mails, thrown := DeliverReports(env, result.reports, execute, hub, fs);
    if thrown {
      return;
    }
    if |mails| > 0 {
      execute.SendMails(mails, fs, server);
    }
  }

  /** The loop over the listing of the result folder. */
  method ProcessFiles(env: Env, listing: seq<string>, execute: EM.ExecuteManager, hub: Hub.QlikHub, fs: Jobs.FileSystem,
                      server: LegacyMail.Server)
    returns (thrown: bool)
    requires env.b == hub.behaviour && env.smtp == server.smtp
    modifies execute, hub, fs, server
    ensures Done(WorldOf(execute, hub, fs), server.sent, thrown)
            == JobFiles(env, Done(old(WorldOf(execute, hub, fs)), old(server.sent), false), listing, |listing|)
  {
    ghost var d := Done(WorldOf(execute, hub, fs), server.sent, false);
    thrown := false;
    var i := 0;
    while i < |listing| && !thrown
      invariant 0 <= i <= |listing|
      invariant Done(WorldOf(execute, hub, fs), server.sent, thrown) == JobFiles(env, d, listing, i)
    {
      ScanNext(JobFileIn, DoneThrown, env, d, listing, i);
      thrown := ProcessFile(env, listing[i], execute, hub, fs, server);
      i := i + 1;
    }
    if thrown {
      ScanStops(JobFileIn, DoneThrown, env, d, listing, i, |listing|);
    }
  }

  /** Run: the result files listed in the folder (`listing`, in the order
      the directory gives them) are processed by a new manager; the hub,
      the disk and the mails sent end as JobFiles says, and the result is
      RunResult's. */
  method Run(env: Env, listing: seq<string>, global: Option<V.SerConnection>, hub: Hub.QlikHub, fs: Jobs.FileSystem,
             server: LegacyMail.Server)
    returns (result: Option<string>)
    requires env.b == hub.behaviour && env.smtp == server.smtp
    modifies hub, fs, server
    ensures var d := JobFiles(env, Done(Start(global, old(hub.store), old(fs.disk)), old(server.sent), false), listing,
                              |listing|);
              result == RunResult(env, d) && hub.store == d.world.run.store && fs.disk == d.world.run.disk
              && server.sent == d.sent
  {
    var execute := new EM.ExecuteManager(global);
    var thrown := ProcessFiles(env, listing, execute, hub, fs, server);
    if thrown {
      return None;
    }
    result := if env.onDemand then execute.onDemandDownloadLink else Some("OK");
  }
}
