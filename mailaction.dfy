/** The mail sink of src/Actions/MailAction.cs: the mail settings of all
    reports are merged by their key into mail packages, and each package is
    sent as one mail. The settings are those of src/DistributeSettings.cs,
    the packages those of the distribution service. Address validation,
    the Markdown conversion and the SMTP server are an oracle, the
    Environment. */
module MailAction {
  import opened Wrappers
  import Text
  import Paths
  import Jobs
  import R = DistributeResults
  import DS = DistributeSettings
  import SM = ServiceMailSettings
  import EMailReports
  import BaseAction

  type Package = SM.MailPackage<DS.MailSettings, DS.MailServerSettings>

  const NoRecipientText: string := "No mail recipient was specified."
  const NoSubjectText: string := "No subject was specified."
  const NoSenderText: string := "No sender was specified."
  const SentMessage: string := "Sending the mail(s) was successful."
  const NoAddressMessage: string := "Mail without mail Address could not be sent."
  /** The FormatException of MailAddress. */
  const InvalidAddressMessage: string := "The specified string is not in the form required for an e-mail address."
  /** The ArgumentOutOfRangeException of Task.Delay. */
  const DelayOutOfRangeMessage: string :=
    "The value needs to be either -1 (signifying an infinite timeout), 0 or a positive integer. (Parameter 'millisecondsDelay')"

  function MailTypeName(t: DS.EMailType): string {
    match t
    case TEXT => "TEXT"
    case HTML => "HTML"
    case MARKDOWN => "MARKDOWN"
    case UndefinedMailType(v) => Text.IntToString(v)
  }

  function UnknownMailTypeMessage(t: DS.EMailType): string {
    "Unknown mail type " + MailTypeName(t) + "."
  }

  /** What the model cannot compute: which addresses MailAddress accepts,
      Markdown.ToHtml, and the SMTP hosts whose send fails, with the
      message the failure surfaces with. */
  datatype Environment = Environment(validAddresses: set<string>, toHtml: string -> string, failingHosts: map<string, string>)

  // ---------------------------------------------------------------------
  // Merging the settings into packages

  /** The merge so far: the packages, the report names of the current
      settings ("name," per path), and the exception that ended it. */
  datatype Grouping = Grouping(packages: seq<Package>, names: string, failure: Option<string>)

  function KeyOf(p: Package): string {
    DS.Key(p.settings)
  }

  /** The package of a key, if there is one (SingleOrDefault; the keys of
      the packages are distinct, see Distinct). */
  function FindKey(packages: seq<Package>, key: string): (r: Option<nat>)
    ensures r.Some? ==> r.value < |packages| && KeyOf(packages[r.value]) == key
    ensures r.None? ==> forall k :: 0 <= k < |packages| ==> KeyOf(packages[k]) != key
  {
    if packages == [] then None
    else if KeyOf(packages[0]) == key then Some(0)
    else
      match FindKey(packages[1..], key)
      case None => None
      case Some(k) => Some(k + 1)
  }

  predicate Distinct(packages: seq<Package>) {
    forall i, j :: 0 <= i < j < |packages| ==> KeyOf(packages[i]) != KeyOf(packages[j])
  }

  function Keys(packages: seq<Package>): set<string> {
    set k | 0 <= k < |packages| :: KeyOf(packages[k])
  }

  /** The name a merged attachment gets: the report names so far, trimmed,
      without the trailing commas. */
  function MergedName(names: string): string {
    Text.TrimEndChar(Text.Trim(names), ',')
  }

  /** The packages after one more rendered file for the settings `s`: a
      new package for a new key, its attachment named after the report, or
      one more attachment of the key's package, named `mergedName`. */
  function AddFile(packages: seq<Package>, s: DS.MailSettings, fd: Jobs.FileData, reportName: string, mergedName: string): seq<Package> {
    match FindKey(packages, DS.Key(s))
    case None => packages + [SM.MailPackage(s, s.mailServer, DS.Key(s), [], None).AddReport(fd, reportName)]
    case Some(k) => packages[k := packages[k].AddReport(fd, mergedName)]
  }

  /** The rendered data of each path of a report (FirstOrDefault by file
      name). */
  function FilesOf(report: Jobs.Report): (files: seq<Option<Jobs.FileData>>)
    ensures |files| == |report.paths|
    ensures forall j :: 0 <= j < |files| ==> files[j] == FileOf(report, j)
  {
    seq(|report.paths|, j requires 0 <= j < |report.paths| => FileOf(report, j))
  }

  function FileOf(report: Jobs.Report, j: nat): Option<Jobs.FileData>
    requires j < |report.paths|
  {
    Jobs.FirstFileData(report.data, Paths.GetFileName(report.paths[j]))
  }

  /** One path of a report named `reportName`, with its rendered data
      `fd`; the report names so far name a merged attachment. A path
      without rendered data fails in AddReport. */
  function AddPath(s: DS.MailSettings, reportName: string, fd: Option<Jobs.FileData>, packages: seq<Package>, names: string): (g: Grouping)
  {
    var names' := names + reportName + ",";
    if fd.None? then Grouping(packages, names', Some(NullReferenceMessage))
    else Grouping(AddFile(packages, s, fd.value, reportName, MergedName(names')), names', None)
  }

  /** The merge over `items`, one `step` per item in the context `c`, up
      to the first failure: an exception leaves all the loops. */
  function Merge<C, T>(step: (C, Grouping, T) -> Grouping, c: C, items: seq<T>, start: Grouping, n: nat): Grouping
    requires n <= |items|
  {
    if n == 0 then start
    else
      var g := Merge(step, c, items, start, n - 1);
      if g.failure.Some? then g else step(c, g, items[n - 1])
  }

  /** One more step, while nothing has failed. */
  lemma MergeNext<C, T>(step: (C, Grouping, T) -> Grouping, c: C, items: seq<T>, start: Grouping, i: nat)
    requires i < |items| && Merge(step, c, items, start, i).failure.None?
    ensures Merge(step, c, items, start, i + 1) == step(c, Merge(step, c, items, start, i), items[i])
  {
  }

  /** One more step, given its outcome `g'`. */
  lemma MergeNextIs<C, T>(step: (C, Grouping, T) -> Grouping, c: C, items: seq<T>, start: Grouping, i: nat,
                         g: Grouping, g': Grouping)
    requires i < |items| && g == Merge(step, c, items, start, i) && g.failure.None? && g' == step(c, g, items[i])
    ensures g' == Merge(step, c, items, start, i + 1)
  {
  }

  /** The loop over the items ends with the whole merge: all items are
      done or one has failed. */
  lemma MergeEnd<C, T>(step: (C, Grouping, T) -> Grouping, c: C, items: seq<T>, start: Grouping, i: nat, g: Grouping)
    requires i <= |items| && g == Merge(step, c, items, start, i) && (i == |items| || g.failure.Some?)
    ensures g == Merge(step, c, items, start, |items|)
  {
    if g.failure.Some? {
      MergeStops(step, c, items, start, i, |items|);
    }
  }

  /** The settings and the report whose paths are merged. */
  datatype PathContext = PathContext(settings: DS.MailSettings, reportName: string)

  /** One path of a report, with its rendered data. */
  function AddPathIn(c: PathContext, g: Grouping, fd: Option<Jobs.FileData>): Grouping {
    AddPath(c.settings, c.reportName, fd, g.packages, g.names)
  }

  /** All paths of one report of the settings `s`. */
  function MergeReport(s: DS.MailSettings, g: Grouping, report: Jobs.Report): Grouping {
    Merge(AddPathIn, PathContext(s, report.name), FilesOf(report), g, |report.paths|)
  }

  /** All reports of one settings; the report names start afresh. */
  function MergeSettings(u: (), g: Grouping, s: DS.MailSettings): Grouping {
    Merge(MergeReport, s, s.mailReports, Grouping(g.packages, "", None), |s.mailReports|)
  }

  /** The mail list of all settings. */
  function MergeAll(list: seq<DS.MailSettings>): Grouping {
    Merge(MergeSettings, (), list, Grouping([], "", None), |list|)
  }

  /** Whether some report of the settings has a path. */
  predicate HasPath(s: DS.MailSettings) {
    exists r :: r in s.mailReports && |r.paths| > 0
  }

  lemma AddFileKeys(packages: seq<Package>, s: DS.MailSettings, fd: Jobs.FileData, reportName: string, mergedName: string)
    requires Distinct(packages)
    ensures var q := AddFile(packages, s, fd, reportName, mergedName);
      Distinct(q) && Keys(q) == Keys(packages) + {DS.Key(s)}
  {
    match FindKey(packages, DS.Key(s))
    case None =>
      KeysAppend(packages, SM.MailPackage(s, s.mailServer, DS.Key(s), [], None).AddReport(fd, reportName));
    case Some(k) =>
      KeysSame(packages, packages[k := packages[k].AddReport(fd, mergedName)]);
      assert KeyOf(packages[k]) in Keys(packages);
  }

  lemma AddPathKeys(s: DS.MailSettings, reportName: string, fd: Option<Jobs.FileData>, packages: seq<Package>, names: string)
    requires Distinct(packages)
    ensures var g := AddPath(s, reportName, fd, packages, names);
      g.failure.None? ==> Distinct(g.packages) && Keys(g.packages) == Keys(packages) + {DS.Key(s)}
  {
    if fd.Some? {
      AddFileKeys(packages, s, fd.value, reportName, MergedName(names + reportName + ","));
    }
  }

  /** A package of a new key adds that key. */
  lemma KeysAppend(packages: seq<Package>, p: Package)
    requires Distinct(packages) && forall k :: 0 <= k < |packages| ==> KeyOf(packages[k]) != KeyOf(p)
    ensures Distinct(packages + [p]) && Keys(packages + [p]) == Keys(packages) + {KeyOf(p)}
  {
    var q := packages + [p];
    assert forall k :: 0 <= k < |packages| ==> q[k] == packages[k];
    assert q[|packages|] == p;
    forall x | x in Keys(q) ensures x in Keys(packages) + {KeyOf(p)} {
      var k :| 0 <= k < |q| && KeyOf(q[k]) == x;
      if k < |packages| { assert KeyOf(packages[k]) == x; }
    }
    forall x | x in Keys(packages) ensures x in Keys(q) {
      var k :| 0 <= k < |packages| && KeyOf(packages[k]) == x;
      assert KeyOf(q[k]) == x;
    }
    assert KeyOf(q[|packages|]) in Keys(q);
  }

  /** Packages with the same keys, index by index, have the same key set. */
  lemma KeysSame(a: seq<Package>, b: seq<Package>)
    requires |a| == |b| && forall k :: 0 <= k < |a| ==> KeyOf(a[k]) == KeyOf(b[k])
    ensures Keys(a) == Keys(b) && (Distinct(a) ==> Distinct(b))
  {
    forall x | x in Keys(a) ensures x in Keys(b) {
      var k :| 0 <= k < |a| && KeyOf(a[k]) == x;
      assert KeyOf(b[k]) == x;
    }
    forall x | x in Keys(b) ensures x in Keys(a) {
      var k :| 0 <= k < |b| && KeyOf(b[k]) == x;
      assert KeyOf(a[k]) == x;
    }
  }

  /** Without a failure, the packages have distinct keys and these keys. */
  predicate KeysHold(g: Grouping, keys: set<string>) {
    g.failure.None? ==> Distinct(g.packages) && Keys(g.packages) == keys
  }

  /** The paths of a report add the key of their settings. */
  lemma {:induction false} PathsKeys(s: DS.MailSettings, reportName: string, files: seq<Option<Jobs.FileData>>, start: Grouping, n: nat)
    requires 0 < n <= |files| && Distinct(start.packages) && start.failure.None?
    ensures KeysHold(Merge(AddPathIn, PathContext(s, reportName), files, start, n), Keys(start.packages) + {DS.Key(s)})
    decreases n
  {
    if n == 1 {
      AddPathKeys(s, reportName, files[0], start.packages, start.names);
    } else {
      PathsKeys(s, reportName, files, start, n - 1);
      PathsKeysStep(s, reportName, files, start, n, Merge(AddPathIn, PathContext(s, reportName), files, start, n - 1));
    }
  }

  lemma PathsKeysStep(s: DS.MailSettings, reportName: string, files: seq<Option<Jobs.FileData>>, start: Grouping, n: nat, g: Grouping)
    requires 1 < n <= |files| && g == Merge(AddPathIn, PathContext(s, reportName), files, start, n - 1)
    requires KeysHold(g, Keys(start.packages) + {DS.Key(s)})
    ensures KeysHold(Merge(AddPathIn, PathContext(s, reportName), files, start, n), Keys(start.packages) + {DS.Key(s)})
  {
    if g.failure.None? {
      AddPathKeys(s, reportName, files[n - 1], g.packages, g.names);
    }
  }

  /** A report adds the key of its settings if it has a path. */
  lemma ReportKeys(s: DS.MailSettings, g: Grouping, report: Jobs.Report)
    requires Distinct(g.packages) && g.failure.None?
    ensures KeysHold(MergeReport(s, g, report), Keys(g.packages) + (if |report.paths| > 0 then {DS.Key(s)} else {}))
  {
    if |report.paths| > 0 {
      PathsKeys(s, report.name, FilesOf(report), g, |report.paths|);
    }
  }

  /** Whether one of the first `n` reports has a path. */
  predicate SomePath(reports: seq<Jobs.Report>, n: nat)
    requires n <= |reports|
  {
    exists j :: 0 <= j < n && |reports[j].paths| > 0
  }

  lemma {:induction false} ReportsKeys(s: DS.MailSettings, start: Grouping, n: nat)
    requires n <= |s.mailReports| && Distinct(start.packages) && start.failure.None?
    ensures KeysHold(Merge(MergeReport, s, s.mailReports, start, n),
                     Keys(start.packages) + (if SomePath(s.mailReports, n) then {DS.Key(s)} else {}))
    decreases n
  {
    if n > 0 {
      ReportsKeys(s, start, n - 1);
      ReportsKeysStep(s, start, n, Merge(MergeReport, s, s.mailReports, start, n - 1));
    }
  }

  lemma ReportsKeysStep(s: DS.MailSettings, start: Grouping, n: nat, g: Grouping)
    requires 0 < n <= |s.mailReports| && g == Merge(MergeReport, s, s.mailReports, start, n - 1)
    requires Distinct(start.packages)
    requires KeysHold(g, Keys(start.packages) + (if SomePath(s.mailReports, n - 1) then {DS.Key(s)} else {}))
    ensures KeysHold(Merge(MergeReport, s, s.mailReports, start, n),
                     Keys(start.packages) + (if SomePath(s.mailReports, n) then {DS.Key(s)} else {}))
  {
    var r := s.mailReports[n - 1];
    assert SomePath(s.mailReports, n) <==> SomePath(s.mailReports, n - 1) || |r.paths| > 0;
    if g.failure.None? {
      ReportKeys(s, g, r);
    }
  }

  /** A settings adds its key if one of its reports has a path. */
  lemma SettingsKeysOf(g: Grouping, s: DS.MailSettings)
    requires Distinct(g.packages) && g.failure.None?
    ensures KeysHold(MergeSettings((), g, s), Keys(g.packages) + (if HasPath(s) then {DS.Key(s)} else {}))
  {
    ReportsKeys(s, Grouping(g.packages, "", None), |s.mailReports|);
    HasPathIndex(s);
  }

  /** The keys of the first `n` settings that have a path. */
  function SettingsKeys(list: seq<DS.MailSettings>, n: nat): set<string>
    requires n <= |list|
  {
    set i | 0 <= i < n && HasPath(list[i]) :: DS.Key(list[i])
  }

  /** Without a failure, the packages have distinct keys, one for each key
      of the settings that have a path. */
  lemma {:induction false} AllKeys(list: seq<DS.MailSettings>, n: nat)
    requires n <= |list|
    ensures KeysHold(Merge(MergeSettings, (), list, Grouping([], "", None), n), SettingsKeys(list, n))
    decreases n
  {
    if n > 0 {
      AllKeys(list, n - 1);
      AllKeysStep(list, n, Merge(MergeSettings, (), list, Grouping([], "", None), n - 1));
    }
  }

  lemma AllKeysStep(list: seq<DS.MailSettings>, n: nat, g: Grouping)
    requires 0 < n <= |list| && g == Merge(MergeSettings, (), list, Grouping([], "", None), n - 1)
    requires KeysHold(g, SettingsKeys(list, n - 1))
    ensures KeysHold(Merge(MergeSettings, (), list, Grouping([], "", None), n), SettingsKeys(list, n))
  {
    if g.failure.None? {
      SettingsKeysOf(g, list[n - 1]);
      SettingsKeysStep(list, n);
    }
  }

  lemma HasPathIndex(s: DS.MailSettings)
    ensures HasPath(s) <==> SomePath(s.mailReports, |s.mailReports|)
  {
    if HasPath(s) {
      var r :| r in s.mailReports && |r.paths| > 0;
      var j :| 0 <= j < |s.mailReports| && s.mailReports[j] == r;
    }
  }

  lemma SettingsKeysStep(list: seq<DS.MailSettings>, n: nat)
    requires 0 < n <= |list|
    ensures SettingsKeys(list, n) == SettingsKeys(list, n - 1) + (if HasPath(list[n - 1]) then {DS.Key(list[n - 1])} else {})
  {
  }

  /** Distinct keys make one package per key. */
  lemma {:induction false} DistinctCount(packages: seq<Package>)
    requires Distinct(packages)
    ensures |Keys(packages)| == |packages|
    decreases |packages|
  {
    if packages != [] {
      var init := packages[..|packages| - 1];
      var last := KeyOf(packages[|packages| - 1]);
      DistinctCount(init);
      KeysSnoc(packages);
      assert last !in Keys(init);
    }
  }

  /** The keys of a non-empty list are those of all but its last package,
      and the last one's. */
  lemma KeysSnoc(packages: seq<Package>)
    requires packages != []
    ensures Keys(packages) == Keys(packages[..|packages| - 1]) + {KeyOf(packages[|packages| - 1])}
  {
    var init := packages[..|packages| - 1];
    var last := KeyOf(packages[|packages| - 1]);
    forall x | x in Keys(packages) ensures x in Keys(init) + {last} {
      var k :| 0 <= k < |packages| && KeyOf(packages[k]) == x;
      if k < |init| { assert KeyOf(init[k]) == x; }
    }
    forall x | x in Keys(init) ensures x in Keys(packages) {
      var k :| 0 <= k < |init| && KeyOf(init[k]) == x;
      assert KeyOf(packages[k]) == x;
    }
  }

  // ---------------------------------------------------------------------
  // Sending the packages

  /** The body and whether it is HTML, by the body type; an unknown type
      throws. */
  datatype Body = Body(text: string, isHtml: bool)

  function BodyOf(mailType: DS.EMailType, message: Option<string>, toHtml: string -> string): (r: Result<Body>)
    ensures r.Failure? <==> mailType.UndefinedMailType?
    ensures r.Failure? ==> r.error == UnknownMailTypeMessage(mailType)
    ensures r.Success? ==> (r.value.isHtml <==> !mailType.TEXT?)
  {
    var msg := if message.None? then "" else Text.Trim(message.value);
    match mailType
    case TEXT => Success(Body(Text.ReplaceAll(msg, "{n}", Text.NewLine), false))
    case HTML => Success(Body(msg, true))
    case MARKDOWN => Success(Body(toHtml(msg), true))
    case UndefinedMailType(_) => Failure(UnknownMailTypeMessage(mailType))
  }

  /** The addresses the collection gets: the valid ones, in order. */
  function ValidOnly(addresses: seq<string>, valid: set<string>): (r: seq<string>)
    ensures forall a :: a in r <==> a in addresses && a in valid
    ensures |r| <= |addresses|
  {
    if addresses == [] then []
    else (if addresses[0] in valid then [addresses[0]] else []) + ValidOnly(addresses[1..], valid)
  }

  /** A recipient field split on ';' without empty entries; null is no
      address. */
  function Addresses(field: Option<string>): (r: seq<string>)
    ensures forall k :: 0 <= k < |r| ==> r[k] != [] && ';' !in r[k]
  {
    if field.None? then []
    else
      var parts := Text.SplitOn(field.value, {';'});
      var r := Text.RemoveEmpty(parts);
      assert forall k :: 0 <= k < |r| ==> r[k] in parts by { RemoveEmptyIn(parts); }
      r
  }

  lemma {:induction false} RemoveEmptyIn(parts: seq<string>)
    ensures forall x :: x in Text.RemoveEmpty(parts) ==> x in parts
  {
    if parts != [] {
      RemoveEmptyIn(parts[1..]);
    }
  }

  /** The recipients of the result: ';' become ',', trailing commas go. */
  function ResultTo(to: Option<string>): string {
    if to.None? then NoRecipientText else Text.TrimEndChar(Text.ReplaceChar(to.value, ';', ','), ',')
  }

  function SubjectOf(subject: Option<string>): string {
    if subject.None? then NoSubjectText else Text.Trim(subject.value)
  }

  /** An int product: 32-bit two's complement wrap-around. */
  function Wrap32(x: int): (r: int)
    ensures -0x8000_0000 <= r < 0x8000_0000
    ensures (r - x) % 0x1_0000_0000 == 0
  {
    var m := x % 0x1_0000_0000;
    if m >= 0x8000_0000 then m - 0x1_0000_0000 else m
  }

  /** The delay before sending, in milliseconds. */
  function DelayOf(sendDelay: int): int {
    if sendDelay > 0 then Wrap32(sendDelay * 1000) else 0
  }

  /** A delay in seconds becomes milliseconds while the product fits into
      an int; a positive delay of more than 2147483 seconds wraps around to
      a negative number. */
  lemma DelayRange(sendDelay: int)
    ensures sendDelay <= 0 ==> DelayOf(sendDelay) == 0
    ensures 0 < sendDelay <= 2147483 ==> DelayOf(sendDelay) == sendDelay * 1000
    ensures sendDelay == 2147484 ==> DelayOf(sendDelay) < 0
  {
  }

  /** The mail handed to the SMTP client. */
  datatype Mail = Mail(
    from: string,
    to: seq<string>,
    cc: seq<string>,
    bcc: seq<string>,
    subject: string,
    body: Body,
    attachments: seq<EMailReports.Attachment>,
    host: string,
    port: int,
    credentials: Option<(string, string)>,
    useSsl: bool,
    delay: int)

  /** The result record of a package, as far as it is filled before the
      body type is looked at. */
  function PackageResult(p: Package, task: string, success: bool, message: string, state: string): R.BaseResult {
    R.BaseResult(R.Mail(ResultTo(p.settings.to), SubjectOf(p.settings.subject)), task, success, message,
                 DS.Str(p.reportNames), state)
  }

  /** What a package gives when nothing throws: the result, the mail sent
      (none without a valid To recipient), and whether it failed for want
      of a recipient. */
  datatype Sending = Sending(result: R.BaseResult, sent: Option<Mail>, noRecipient: bool)

  /** How one package is sent, given the job's formatted state. */
  type Sender = (Package, string) -> Result<Sending>

  function Credentials(server: DS.MailServerSettings): Option<(string, string)> {
    if DS.Str(server.username) != "" && DS.Str(server.password) != ""
    then Some((server.username.value, server.password.value)) else None
  }

  /** One package; Failure is the exception that ends the sending.
      `state` is the job's formatted state when the mail goes out. */
  function SendOne(p: Package, env: Environment, task: string, state: string): (r: Result<Sending>)
  {
    match BodyOf(p.settings.mailType, p.settings.message, env.toHtml)
    case Failure(e) => Failure(e)
    case Success(body) =>
      var from := if p.serverSettings.None? || p.serverSettings.value.from.None? then NoSenderText
                  else p.serverSettings.value.from.value;
      if from !in env.validAddresses then Failure(InvalidAddressMessage)
      else if p.serverSettings.None? then Failure(NullReferenceMessage)
      else
        var server := p.serverSettings.value;
        var to := ValidOnly(Addresses(p.settings.to), env.validAddresses);
        var delay := DelayOf(server.sendDelay);
        if to == [] then Success(Sending(PackageResult(p, task, false, NoAddressMessage, "ERROR"), None, true))
        else if delay < 0 then Failure(DelayOutOfRangeMessage)
        else if DS.Str(server.host) in env.failingHosts then Failure(env.failingHosts[DS.Str(server.host)])
        else
          var mail := Mail(from, to, ValidOnly(Addresses(p.settings.cc), env.validAddresses),
                           ValidOnly(Addresses(p.settings.bcc), env.validAddresses), SubjectOf(p.settings.subject), body,
                           if p.settings.sendAttachment then p.reportPaths else [], DS.Str(server.host), server.port,
                           Credentials(server), server.useSsl, delay);
          Success(Sending(PackageResult(p, task, true, SentMessage, state), Some(mail), false))
  }

  /** The sender of the action: SendOne in the given environment. */
  function SendOf(env: Environment, task: string): Sender {
    (p: Package, state: string) => SendOne(p, env, task, state)
  }

  /** The sending so far: the results, the mails sent, the message the job
      was last failed with, and whether an exception ended it. */
  datatype Delivery = Delivery(results: seq<R.BaseResult>, mails: seq<Mail>, lastFailure: Option<string>, thrown: bool)

  /** The first `n` packages. A package without recipients fails the job
      and the loop goes on; an exception adds the error result of that
      package and ends the loop. */
  function SendPackages(send: Sender, packages: seq<Package>, task: string, state: string, n: nat): (d: Delivery)
    requires n <= |packages|
    ensures |d.results| <= n
    ensures !d.thrown ==> |d.results| == n
  {
    if n == 0 then Delivery([], [], None, false)
    else
      var d := SendPackages(send, packages, task, state, n - 1);
      if d.thrown then d
      else
        var p := packages[n - 1];
        match send(p, if d.lastFailure.Some? then "ERROR" else state)
        case Failure(e) => Delivery(d.results + [PackageResult(p, task, false, e, "ERROR")], d.mails, Some(e), true)
        case Success(s) =>
          Delivery(d.results + [s.result], d.mails + (if s.sent.Some? then [s.sent.value] else []),
                   if s.noRecipient then Some(NoAddressMessage) else d.lastFailure, false)
  }

  /** The error result of an exception while merging, before any package
      is looked at. */
  function MergeFailed(task: string, message: string): R.BaseResult {
    R.BaseResult(R.Mail("", ""), task, false, message, "", "ERROR")
  }

  /** SendMails: merge, then send. */
  function SendMailsOutcome(list: seq<DS.MailSettings>, env: Environment, task: string, state: string): Delivery {
    var g := MergeAll(list);
    if g.failure.Some? then Delivery([MergeFailed(task, g.failure.value)], [], g.failure, true)
    else SendPackages(SendOf(env, task), g.packages, task, state, |g.packages|)
  }

  // ---------------------------------------------------------------------
  // What the merge and the sending promise

  /** A failed step is the end of the merge. */
  lemma {:induction false} MergeStops<C, T>(step: (C, Grouping, T) -> Grouping, c: C, items: seq<T>, start: Grouping, i: nat, n: nat)
    requires i <= n <= |items| && Merge(step, c, items, start, i).failure.Some?
    ensures Merge(step, c, items, start, n) == Merge(step, c, items, start, i)
    decreases n
  {
    if n > i {
      MergeStops(step, c, items, start, i, n - 1);
    }
  }

  /** Once a package has thrown, no later package is looked at. */
  lemma {:induction false} SendPackagesStops(send: Sender, packages: seq<Package>, task: string, state: string, i: nat, n: nat)
    requires i <= n <= |packages| && SendPackages(send, packages, task, state, i).thrown
    ensures SendPackages(send, packages, task, state, n) == SendPackages(send, packages, task, state, i)
    decreases n
  {
    if n > i {
      SendPackagesStops(send, packages, task, state, i, n - 1);
    }
  }

  /** Settings with equal keys share one mail: when the merge succeeds
      there is one package for each key of the settings that have a
      path, and no key twice. */
  lemma OneMailPerKey(list: seq<DS.MailSettings>)
    ensures var g := MergeAll(list);
      g.failure.None? ==>
        Distinct(g.packages) && Keys(g.packages) == SettingsKeys(list, |list|) && |g.packages| == |SettingsKeys(list, |list|)|
  {
    AllKeys(list, |list|);
    var g := MergeAll(list);
    if g.failure.None? {
      DistinctCount(g.packages);
    }
  }

  /** Without an exception every merged mail gets one result. */
  lemma OneResultPerMail(list: seq<DS.MailSettings>, env: Environment, task: string, state: string)
    ensures var d := SendMailsOutcome(list, env, task, state);
      !d.thrown ==> |d.results| == |SettingsKeys(list, |list|)|
  {
    OneMailPerKey(list);
  }

  /** A package throws exactly when its body type is unknown, its sender
      is not a valid address, it has no server settings, or it has a valid
      recipient and then the delay or the SMTP server fails. */
  lemma SendOneThrows(p: Package, env: Environment, task: string, state: string)
    ensures var from := if p.serverSettings.None? || p.serverSettings.value.from.None? then NoSenderText
                        else p.serverSettings.value.from.value;
      SendOne(p, env, task, state).Failure? <==>
        || p.settings.mailType.UndefinedMailType?
        || from !in env.validAddresses
        || p.serverSettings.None?
        || (ValidOnly(Addresses(p.settings.to), env.validAddresses) != [] &&
            (DelayOf(p.serverSettings.value.sendDelay) < 0 || DS.Str(p.serverSettings.value.host) in env.failingHosts))
  {
  }

  /** Without a valid To recipient nothing is sent and the result is an
      ERROR; otherwise the mail goes out and its result succeeds. */
  lemma NoRecipientNoMail(p: Package, env: Environment, task: string, state: string)
    requires SendOne(p, env, task, state).Success?
    ensures var s := SendOne(p, env, task, state).value;
      && (s.noRecipient <==> ValidOnly(Addresses(p.settings.to), env.validAddresses) == [])
      && (s.noRecipient <==> s.sent.None?)
      && (s.noRecipient ==>
            !s.result.success && s.result.reportState == "ERROR" && s.result.message == NoAddressMessage)
      && (!s.noRecipient ==> s.result.success && s.result.reportState == state && s.result.message == SentMessage)
  {
  }

  /** The mail sent: valid addresses from the ';'-separated fields, the
      attachments only when they are asked for, the trimmed subject, the
      body by its type, and the delay in milliseconds. */
  lemma SentMail(p: Package, env: Environment, task: string, state: string)
    requires SendOne(p, env, task, state).Success? && SendOne(p, env, task, state).value.sent.Some?
    ensures var m := SendOne(p, env, task, state).value.sent.value;
      && m.to != []
      && (forall a :: a in m.to ==> a in env.validAddresses && a in Addresses(p.settings.to))
      && (forall a :: a in m.cc ==> a in env.validAddresses && a in Addresses(p.settings.cc))
      && (forall a :: a in m.bcc ==> a in env.validAddresses && a in Addresses(p.settings.bcc))
      && m.attachments == (if p.settings.sendAttachment then p.reportPaths else [])
      && m.subject == SubjectOf(p.settings.subject)
      && Success(m.body) == BodyOf(p.settings.mailType, p.settings.message, env.toHtml)
      && m.from in env.validAddresses
      && 0 <= m.delay
      && (0 < p.serverSettings.value.sendDelay <= 2147483 ==> m.delay == p.serverSettings.value.sendDelay * 1000)
  {
    DelayRange(p.serverSettings.value.sendDelay);
  }

  /** The recipients shown in a result: no ';' and no trailing ','. */
  lemma ResultToShape(to: string)
    ensures var r := ResultTo(Some(to));
      ';' !in r && (r == [] || r[|r| - 1] != ',')
    ensures ResultTo(None) == NoRecipientText
  {
    var t := Text.ReplaceChar(to, ';', ',');
    var r := Text.TrimEndChar(t, ',');
    assert forall i :: 0 <= i < |r| ==> r[i] == t[i];
  }

  /** An exception ends the sending with one ERROR result carrying its
      message, which also fails the job. */
  lemma {:induction false} ThrownLast(send: Sender, packages: seq<Package>, task: string, state: string, n: nat)
    requires n <= |packages|
    ensures var d := SendPackages(send, packages, task, state, n);
      d.thrown ==>
        && |d.results| > 0 && d.lastFailure.Some?
        && var last := d.results[|d.results| - 1];
          !last.success && last.reportState == "ERROR" && last.message == d.lastFailure.value && last.taskName == task
    decreases n
  {
    if n > 0 {
      ThrownLast(send, packages, task, state, n - 1);
    }
  }

  /** The results of the first packages stay in front of the later ones. */
  lemma {:induction false} ResultsGrow(send: Sender, packages: seq<Package>, task: string, state: string, i: nat, n: nat)
    requires i <= n <= |packages|
    ensures var d := SendPackages(send, packages, task, state, i);
      var e := SendPackages(send, packages, task, state, n);
      && |d.results| <= |e.results| && e.results[..|d.results|] == d.results
      && |d.mails| <= |e.mails| && e.mails[..|d.mails|] == d.mails
    decreases n
  {
    if n > i {
      ResultsGrow(send, packages, task, state, i, n - 1);
      var d := SendPackages(send, packages, task, state, i);
      var e1 := SendPackages(send, packages, task, state, n - 1);
      var e := SendPackages(send, packages, task, state, n);
      assert e.results[..|e1.results|] == e1.results;
      assert e.mails[..|e1.mails|] == e1.mails;
      assert e.results[..|d.results|] == e1.results[..|d.results|];
      assert e.mails[..|d.mails|] == e1.mails[..|d.mails|];
    }
  }

  /** ValidOnly keeps the order of the addresses it keeps. */
  lemma {:induction false} ValidOnlyAppend(addresses: seq<string>, a: string, valid: set<string>)
    ensures ValidOnly(addresses + [a], valid) == ValidOnly(addresses, valid) + (if a in valid then [a] else [])
    decreases |addresses|
  {
    if addresses != [] {
      assert (addresses + [a])[1..] == addresses[1..] + [a];
      ValidOnlyAppend(addresses[1..], a, valid);
    }
  }

  // ---------------------------------------------------------------------
  // The action

  /** The SMTP side: the mails handed to it so far. */
  class Outbox {
    var mails: seq<Mail>

    constructor()
      ensures mails == []
    {
      mails := [];
    }

    method Send(mail: Mail)
      modifies this
      ensures mails == old(mails) + [mail]
    {
      mails := mails + [mail];
    }
  }

  /** The addresses of a field that MailAddress accepts, in order. */
  method KeepValid(addresses: seq<string>, valid: set<string>) returns (r: seq<string>)
    ensures r == ValidOnly(addresses, valid)
  {
    r := [];
    var i := 0;
    while i < |addresses|
      invariant 0 <= i <= |addresses|
      invariant r == ValidOnly(addresses[..i], valid)
    {
      ValidOnlyAppend(addresses[..i], addresses[i], valid);
      assert addresses[..i + 1] == addresses[..i] + [addresses[i]];
      if addresses[i] in valid {
        r := r + [addresses[i]];
      }
      i := i + 1;
    }
    assert addresses[..i] == addresses;
  }

  /** Sends one package: the body by its type, the sender, the recipients,
      the server, the delay, then the SMTP server. */
  method SendPackage(p: Package, env: Environment, task: string, state: string, outbox: Outbox) returns (r: Result<Sending>)
    modifies outbox
    ensures r == SendOne(p, env, task, state)
    ensures outbox.mails == old(outbox.mails) + (if r.Success? && r.value.sent.Some? then [r.value.sent.value] else [])
  {
    var body := BodyOf(p.settings.mailType, p.settings.message, env.toHtml);
    if body.Failure? {
      return Failure(body.error);
    }
    var from := if p.serverSettings.None? || p.serverSettings.value.from.None? then NoSenderText
                else p.serverSettings.value.from.value;
    if from !in env.validAddresses {
      return Failure(InvalidAddressMessage);
    }
    var attachments := if p.settings.sendAttachment then p.reportPaths else [];
    var to := KeepValid(Addresses(p.settings.to), env.validAddresses);
    var cc := KeepValid(Addresses(p.settings.cc), env.validAddresses);
    var bcc := KeepValid(Addresses(p.settings.bcc), env.validAddresses);
    if p.serverSettings.None? {
      return Failure(NullReferenceMessage);
    }
    var server := p.serverSettings.value;
    var delay := 0;
    if server.sendDelay > 0 {
      delay := Wrap32(server.sendDelay * 1000);
    }
    if to == [] {
      return Success(Sending(PackageResult(p, task, false, NoAddressMessage, "ERROR"), None, true));
    }
    if delay < 0 {
      return Failure(DelayOutOfRangeMessage);
    }
    if DS.Str(server.host) in env.failingHosts {
      return Failure(env.failingHosts[DS.Str(server.host)]);
    }
    var mail := Mail(from, to, cc, bcc, SubjectOf(p.settings.subject), body.value, attachments, DS.Str(server.host),
                     server.port, Credentials(server), server.useSsl, delay);
    outbox.Send(mail);
    r := Success(Sending(PackageResult(p, task, true, SentMessage, state), Some(mail), false));
  }

  /** The paths of one report, up to the first failure: the rendered
      data of each path is looked up by its file name (FilesOf) and added
      to the package of the settings' key (AddPathIn). */
  method AddReportPaths(s: DS.MailSettings, report: Jobs.Report, start: Grouping)
    returns (g: Grouping)
    ensures g == MergeReport(s, start, report)
  {
    var files := FilesOf(report);
    var c := PathContext(s, report.name);
    g := start;
    var i := 0;
    while i < |files| && g.failure.None?
      invariant 0 <= i <= |files|
      invariant g == Merge(AddPathIn, c, files, start, i)
    {
      var g' := AddPathIn(c, g, files[i]);
      MergeNextIs(AddPathIn, c, files, start, i, g, g');
      g := g';
      i := i + 1;
    }
    MergeEnd(AddPathIn, c, files, start, i, g);
  }

  /** The reports of one settings, up to the first failure. */
  method AddSettingsReports(start: Grouping, s: DS.MailSettings) returns (g: Grouping)
    ensures g == MergeSettings((), start, s)
  {
    var begin := Grouping(start.packages, "", None);
    g := begin;
    var i := 0;
    while i < |s.mailReports| && g.failure.None?
      invariant 0 <= i <= |s.mailReports|
      invariant g == Merge(MergeReport, s, s.mailReports, begin, i)
    {
      g := NextReport(s, begin, i, g);
      i := i + 1;
    }
    MergeEnd(MergeReport, s, s.mailReports, begin, i, g);
  }

  /** The paths of the settings' next report, merged into the grouping so far. */
  method NextReport(s: DS.MailSettings, begin: Grouping, i: nat, g: Grouping) returns (g': Grouping)
    requires i < |s.mailReports| && g == Merge(MergeReport, s, s.mailReports, begin, i) && g.failure.None?
    ensures g' == Merge(MergeReport, s, s.mailReports, begin, i + 1)
  {
    g' := AddReportPaths(s, s.mailReports[i], g);
    MergeNextIs(MergeReport, s, s.mailReports, begin, i, g, g');
  }

  /** The mail list of all settings, up to the first failure. */
  method BuildMailList(list: seq<DS.MailSettings>) returns (g: Grouping)
    ensures g == MergeAll(list)
  {
    g := Grouping([], "", None);
    var i := 0;
    while i < |list| && g.failure.None?
      invariant 0 <= i <= |list|
      invariant g == Merge(MergeSettings, (), list, Grouping([], "", None), i)
    {
      var g' := AddSettingsReports(g, list[i]);
      MergeNextIs(MergeSettings, (), list, Grouping([], "", None), i, g, g');
      g := g';
      i := i + 1;
    }
    MergeEnd(MergeSettings, (), list, Grouping([], "", None), i, g);
  }

  /** The mail sink of one job. */
  class MailAction {
    const jobResult: Jobs.JobResult
    const privateKeyPath: string
    var mailSettingsList: seq<DS.MailSettings>
    var results: seq<R.BaseResult>

    constructor(jobResult: Jobs.JobResult, privateKeyPath: string)
      ensures this.jobResult == jobResult && this.privateKeyPath == privateKeyPath
      ensures mailSettingsList == [] && results == []
    {
      this.jobResult := jobResult;
      this.privateKeyPath := privateKeyPath;
      mailSettingsList := [];
      results := [];
    }

    /** The settings become mail settings that carry the report. */
    method AddMailSettings(settings: DS.MailSettings, report: Jobs.Report)
      modifies this`mailSettingsList
      ensures mailSettingsList ==
        old(mailSettingsList) + [settings.(settingsType := DS.MAIL, mailReports := settings.mailReports + [report])]
    {
      var s := settings.(settingsType := DS.MAIL);
      s := s.(mailReports := s.mailReports + [report]);
      mailSettingsList := mailSettingsList + [s];
    }

    /** Merges the settings by key and sends one mail per key. */
    method SendMails(env: Environment, outbox: Outbox)
      modifies this`results, jobResult, outbox
      ensures var d := SendMailsOutcome(mailSettingsList, env, old(jobResult.taskName), old(BaseAction.GetFormatedState(jobResult)));
        && results == old(results) + d.results
        && outbox.mails == old(outbox.mails) + d.mails
        && (d.lastFailure.Some? ==> jobResult.status == Jobs.ERROR && jobResult.exception == d.lastFailure)
        && (d.lastFailure.None? ==> jobResult.status == old(jobResult.status) && jobResult.exception == old(jobResult.exception))
      ensures jobResult.taskName == old(jobResult.taskName)
    {
      var task := jobResult.taskName;
      var g := BuildMailList(mailSettingsList);
      if g.failure.Some? {
        jobResult.Fail(g.failure.value);
        results := results + [MergeFailed(task, g.failure.value)];
      } else {
        SendLoop(SendOf(env, task), g.packages, task, outbox);
      }
    }

    /** The packages in order, up to the first exception. */
    method SendLoop(send: Sender, packages: seq<Package>, task: string, outbox: Outbox)
      modifies this`results, jobResult, outbox
      ensures var d := SendPackages(send, packages, task, old(BaseAction.GetFormatedState(jobResult)), |packages|);
        && results == old(results) + d.results
        && outbox.mails == old(outbox.mails) + d.mails
        && (d.lastFailure.Some? ==> jobResult.status == Jobs.ERROR && jobResult.exception == d.lastFailure)
        && (d.lastFailure.None? ==> jobResult.status == old(jobResult.status) && jobResult.exception == old(jobResult.exception))
      ensures jobResult.taskName == old(jobResult.taskName)
    {
      ghost var state := BaseAction.GetFormatedState(jobResult);
      var thrown := false;
      var i := 0;
      while i < |packages| && !thrown
        invariant 0 <= i <= |packages|
        invariant var d := SendPackages(send, packages, task, state, i);
          && results == old(results) + d.results
          && outbox.mails == old(outbox.mails) + d.mails
          && thrown == d.thrown
          && (d.lastFailure.Some? ==> jobResult.status == Jobs.ERROR && jobResult.exception == d.lastFailure)
          && (d.lastFailure.None? ==> jobResult.status == old(jobResult.status) && jobResult.exception == old(jobResult.exception))
        invariant jobResult.taskName == old(jobResult.taskName)
      {
        ghost var d := SendPackages(send, packages, task, state, i);
        var current := BaseAction.GetFormatedState(jobResult);
        if d.lastFailure.Some? {
          BaseAction.ErrorState(jobResult);
        }
        assert current == if d.lastFailure.Some? then "ERROR" else state;
        var p := packages[i];
        var r := send(p, current);
        if r.Success? && r.value.sent.Some? {
          outbox.Send(r.value.sent.value);
        }
        if r.Failure? {
          results := results + [PackageResult(p, task, false, r.error, "ERROR")];
          jobResult.Fail(r.error);
          thrown := true;
        } else {
          results := results + [r.value.result];
          if r.value.noRecipient {
            jobResult.Fail(NoAddressMessage);
          }
        }
        i := i + 1;
      }
      if thrown {
        SendPackagesStops(send, packages, task, state, i, |packages|);
      }
    }
  }
}
