/** The mail part of src/ExecuteManager.cs: the reports of all mail
    settings are merged per settings key into one mail each, and the
    mails are then sent one after the other until one fails. */
module LegacyMail {
  import opened Wrappers
  import Text
  import Jobs
  import DS = DistributeSettings
  import LS = LegacySettings
  import EMailReports

  /** The attachment of a rendered file: named after the report, with the
      extension of the file; a file that is not there cannot be opened. */
  function Attach(disk: Jobs.Disk, path: string, name: Option<string>): (r: Result<EMailReports.Attachment>)
    ensures r.Success? <==> path in disk.files
    ensures r.Success? ==> r.value == EMailReports.AttachmentOf(Jobs.FileData(path, disk.files[path]), DS.Str(name))
  {
    if path !in disk.files then Failure(Jobs.FileNotFound(path))
    else Success(EMailReports.AttachmentOf(Jobs.FileData(path, disk.files[path]), DS.Str(name)))
  }

  /** EMailReport of src/ExecuteManager.cs: the settings, the server
      settings and the mail information as given, and the attachments
      added so far. */
  class EMailReport {
    const settings: LS.MailSettings
    const serverSettings: Option<LS.MailServerSettings>
    const mailInfo: string
    var reportPaths: seq<EMailReports.Attachment>

    constructor(settings: LS.MailSettings, serverSettings: Option<LS.MailServerSettings>, mailInfo: string)
      ensures this.settings == settings && this.serverSettings == serverSettings && this.mailInfo == mailInfo
      ensures reportPaths == []
    {
      this.settings := settings;
      this.serverSettings := serverSettings;
      this.mailInfo := mailInfo;
      reportPaths := [];
    }

    /** AddReport: the file is opened as an attachment named after the
        report; a missing file throws and adds nothing. */
    method AddReport(disk: Jobs.Disk, reportPath: string, name: Option<string>) returns (thrown: bool)
      modifies this
      ensures thrown <==> reportPath !in disk.files
      ensures thrown ==> reportPaths == old(reportPaths)
      ensures !thrown ==> reportPaths == old(reportPaths) + [Attach(disk, reportPath, name).value]
    {
      var attachment := Attach(disk, reportPath, name);
      if attachment.Failure? {
        return true;
      }
      reportPaths := reportPaths + [attachment.value];
      thrown := false;
    }

    /** The report as a value. */
    function Value(): Pending
      reads this
    {
      Pending(settings, serverSettings, mailInfo, reportPaths)
    }
  }

  /** A mail report as a value: what an EMailReport holds. */
  datatype Pending = Pending(settings: LS.MailSettings, serverSettings: Option<LS.MailServerSettings>, mailInfo: string,
                             attachments: seq<EMailReports.Attachment>)

  /** No two reports of the list have the same settings key. */
  predicate KeysDistinct(list: seq<Pending>) {
    forall j, k :: 0 <= j < k < |list| ==> LS.Key(list[j].settings) != LS.Key(list[k].settings)
  }

  /** SingleOrDefault over the settings keys: the index of the only report
      with the key, none, or a failure when several have it. */
  function Single(list: seq<Pending>, key: string): (r: Result<Option<nat>>)
    ensures r.Success? && r.value.Some? ==> r.value.value < |list| && LS.Key(list[r.value.value].settings) == key
    ensures r.Success? && r.value.None? ==> forall j :: 0 <= j < |list| ==> LS.Key(list[j].settings) != key
    ensures KeysDistinct(list) ==> r.Success?
  {
    if |list| == 0 then Success(None)
    else
      var rest := Single(list[1..], key);
      assert KeysDistinct(list) ==> KeysDistinct(list[1..]) by {
        if KeysDistinct(list) {
          forall j, k | 0 <= j < k < |list[1..]|
            ensures LS.Key(list[1..][j].settings) != LS.Key(list[1..][k].settings)
          {
            assert list[1..][j] == list[j + 1] && list[1..][k] == list[k + 1];
          }
        }
      }
      if rest.Failure? then rest
      else if LS.Key(list[0].settings) == key then
        if rest.value.Some? then
          assert list[1..][rest.value.value] == list[rest.value.value + 1];
          var several: Result<Option<nat>> := Failure("Sequence contains more than one matching element");
          several
        else Success(Some(0))
      else if rest.value.Some? then
        assert list[1..][rest.value.value] == list[rest.value.value + 1];
        Success(Some(rest.value.value + 1))
      else
        assert forall j :: 1 <= j < |list| ==> list[j] == list[1..][j - 1];
        Success(None)
  }

  /** One path of a settings entry: its attachment goes to the report with
      the entry's key, or to a new report at the end of the list. */
  function AddPath(list: seq<Pending>, m: LS.MailSettings, disk: Jobs.Disk, path: string): Result<seq<Pending>> {
    match Single(list, LS.Key(m))
    case Failure(e) => Failure(e)
    case Success(found) =>
      match Attach(disk, path, m.reportName)
      case Failure(e) => Failure(e)
      case Success(a) =>
        if found.None? then Success(list + [Pending(m, m.mailServer, LS.Key(m), [a])])
        else Success(list[found.value := list[found.value].(attachments := list[found.value].attachments + [a])])
  }

  /** The first `n` items folded into `start` by `step`; the first failure
      ends the fold. */
  function Fold<C, T>(step: (C, seq<Pending>, T) -> Result<seq<Pending>>, c: C, items: seq<T>, start: seq<Pending>, n: nat)
    : Result<seq<Pending>>
    requires n <= |items|
  {
    if n == 0 then Success(start)
    else match Fold(step, c, items, start, n - 1)
      case Failure(e) => Failure(e)
      case Success(g) => step(c, g, items[n - 1])
  }

  lemma {:induction false} FoldStops<C, T>(step: (C, seq<Pending>, T) -> Result<seq<Pending>>, c: C, items: seq<T>,
                                           start: seq<Pending>, i: nat, n: nat)
    requires i <= n <= |items| && Fold(step, c, items, start, i).Failure?
    ensures Fold(step, c, items, start, n) == Fold(step, c, items, start, i)
    decreases n - i
  {
    if i < n {
      FoldStops(step, c, items, start, i, n - 1);
    }
  }

  /** What a path is added with: its settings entry and the disk. */
  datatype Context = Context(m: LS.MailSettings, disk: Jobs.Disk)

  function AddPathIn(c: Context, list: seq<Pending>, path: string): Result<seq<Pending>> {
    AddPath(list, c.m, c.disk, path)
  }

  /** The paths of a settings entry; an entry without paths throws. */
  function GroupEntryIn(disk: Jobs.Disk, list: seq<Pending>, m: LS.MailSettings): Result<seq<Pending>> {
    if m.paths.None? then Failure(NullReferenceMessage)
    else Fold(AddPathIn, Context(m, disk), m.paths.value, list, |m.paths.value|)
  }

  /** The merged reports of all settings entries. */
  function GroupAll(settingsList: seq<LS.MailSettings>, disk: Jobs.Disk): Result<seq<Pending>> {
    Fold(GroupEntryIn, disk, settingsList, [], |settingsList|)
  }

  /** The number of attachments of all reports. */
  function Attachments(list: seq<Pending>): nat {
    if list == [] then 0 else Attachments(list[..|list| - 1]) + |list[|list| - 1].attachments|
  }

  lemma {:induction false} AttachmentsAppend(list: seq<Pending>, p: Pending)
    ensures Attachments(list + [p]) == Attachments(list) + |p.attachments|
  {
    assert (list + [p])[..|list + [p]| - 1] == list;
  }

  lemma {:induction false} AttachmentsUpdate(list: seq<Pending>, j: nat, p: Pending)
    requires j < |list|
    ensures Attachments(list[j := p]) + |list[j].attachments| == Attachments(list) + |p.attachments|
    decreases |list|
  {
    var last := |list| - 1;
    assert list[j := p][..last] == if j == last then list[..last] else list[..last][j := p];
    if j < last {
      AttachmentsUpdate(list[..last], j, p);
    }
  }

  lemma {:induction false} AppendKeeps(list: seq<Pending>, p: Pending)
    requires KeysDistinct(list)
    requires forall j :: 0 <= j < |list| ==> LS.Key(list[j].settings) != LS.Key(p.settings)
    ensures KeysDistinct(list + [p]) && Attachments(list + [p]) == Attachments(list) + |p.attachments|
  {
    AttachmentsAppend(list, p);
    assert forall j :: 0 <= j < |list| ==> (list + [p])[j] == list[j];
  }

  lemma {:induction false} UpdateKeeps(list: seq<Pending>, j: nat, p: Pending)
    requires KeysDistinct(list) && j < |list| && p.settings == list[j].settings
    ensures KeysDistinct(list[j := p]) && Attachments(list[j := p]) + |list[j].attachments| == Attachments(list) + |p.attachments|
  {
    AttachmentsUpdate(list, j, p);
    assert forall k :: 0 <= k < |list| ==> list[j := p][k].settings == list[k].settings;
  }

  /** A path added to reports with distinct keys: the keys stay distinct
      and there is exactly one attachment more; only a missing file throws. */
  lemma {:induction false} AddPathKeeps(list: seq<Pending>, m: LS.MailSettings, disk: Jobs.Disk, path: string)
    requires KeysDistinct(list)
    ensures AddPath(list, m, disk, path).Success? <==> path in disk.files
    ensures AddPath(list, m, disk, path).Success? ==>
              KeysDistinct(AddPath(list, m, disk, path).value)
              && Attachments(AddPath(list, m, disk, path).value) == Attachments(list) + 1
  {
    var found := Single(list, LS.Key(m));
    var a := Attach(disk, path, m.reportName);
    if a.Success? {
      if found.value.None? {
        AppendKeeps(list, Pending(m, m.mailServer, LS.Key(m), [a.value]));
      } else {
        var j := found.value.value;
        UpdateKeeps(list, j, list[j].(attachments := list[j].attachments + [a.value]));
      }
    }
  }

  /** A step that, on reports with distinct keys, fails exactly on the
      items `ok` rejects and otherwise keeps the keys distinct and adds one
      attachment. */
  ghost predicate AddsOne<C, T>(step: (C, seq<Pending>, T) -> Result<seq<Pending>>, ok: (C, T) -> bool, c: C, items: seq<T>) {
    forall g: seq<Pending>, k :: 0 <= k < |items| ==> AddsOneAt(step, ok, c, g, items[k])
  }

  /** The step applied to `g` and the item `x`, as AddsOne requires it. */
  ghost predicate AddsOneAt<C, T>(step: (C, seq<Pending>, T) -> Result<seq<Pending>>, ok: (C, T) -> bool, c: C,
                                  g: seq<Pending>, x: T) {
    KeysDistinct(g) ==>
      && (step(c, g, x).Success? <==> ok(c, x))
      && (step(c, g, x).Success? ==> KeysDistinct(step(c, g, x).value) && Attachments(step(c, g, x).value) == Attachments(g) + 1)
  }

  /** All of the first `n` items are accepted by `ok`. */
  predicate AllOk<C, T>(ok: (C, T) -> bool, c: C, items: seq<T>, n: nat)
    requires n <= |items|
  {
    n == 0 || (AllOk(ok, c, items, n - 1) && ok(c, items[n - 1]))
  }

  lemma {:induction false} AllOkMeaning<C, T>(ok: (C, T) -> bool, c: C, items: seq<T>, n: nat)
    requires n <= |items|
    ensures AllOk(ok, c, items, n) <==> forall k :: 0 <= k < n ==> ok(c, items[k])
  {
    if n > 0 {
      AllOkMeaning(ok, c, items, n - 1);
    }
  }

  /** What FoldAddsOne states about the fold `r` of the first `n` items. */
  predicate AddedAll<C, T>(ok: (C, T) -> bool, c: C, items: seq<T>, start: seq<Pending>, n: nat, r: Result<seq<Pending>>)
    requires n <= |items|
  {
    && (r.Success? <==> AllOk(ok, c, items, n))
    && (r.Success? ==> KeysDistinct(r.value) && Attachments(r.value) == Attachments(start) + n)
  }

  /** A fold of such a step fails exactly when an item is rejected, and
      otherwise keeps the keys distinct and adds one attachment per item. */
  lemma {:induction false} FoldAddsOne<C, T>(step: (C, seq<Pending>, T) -> Result<seq<Pending>>, ok: (C, T) -> bool, c: C,
                                             items: seq<T>, start: seq<Pending>, n: nat)
    requires n <= |items| && KeysDistinct(start) && AddsOne(step, ok, c, items)
    ensures AddedAll(ok, c, items, start, n, Fold(step, c, items, start, n))
  {
    if n > 0 {
      FoldAddsOne(step, ok, c, items, start, n - 1);
      var prev := Fold(step, c, items, start, n - 1);
      if prev.Success? {
        assert AddsOneAt(step, ok, c, prev.value, items[n - 1]);
      }
    }
  }

  /** A path is accepted when its file is on the disk. */
  predicate OnDiskIn(c: Context, path: string) {
    path in c.disk.files
  }

  /** Adding a path is such a step: it fails exactly on a missing file. */
  lemma AddPathAddsOne(c: Context, paths: seq<string>)
    ensures AddsOne(AddPathIn, OnDiskIn, c, paths)
  {
    forall g: seq<Pending>, k | 0 <= k < |paths|
      ensures AddsOneAt(AddPathIn, OnDiskIn, c, g, paths[k])
    {
      if KeysDistinct(g) {
        AddPathKeeps(g, c.m, c.disk, paths[k]);
      }
    }
  }

  /** Every path of an entry is on the disk. */
  predicate Readable(m: LS.MailSettings, disk: Jobs.Disk) {
    m.paths.Some? && forall k :: 0 <= k < |m.paths.value| ==> m.paths.value[k] in disk.files
  }

  /** The number of paths of the first `n` entries. */
  function PathCount(settingsList: seq<LS.MailSettings>, n: nat): nat
    requires n <= |settingsList|
  {
    if n == 0 then 0
    else PathCount(settingsList, n - 1) + (if settingsList[n - 1].paths.Some? then |settingsList[n - 1].paths.value| else 0)
  }

  /** What EntriesFold states about the grouping `r` of the first `n`
      entries. */
  predicate EntriesHold(settingsList: seq<LS.MailSettings>, disk: Jobs.Disk, n: nat, r: Result<seq<Pending>>)
    requires n <= |settingsList|
  {
    && (r.Success? <==> forall j :: 0 <= j < n ==> Readable(settingsList[j], disk))
    && (r.Success? ==> KeysDistinct(r.value) && Attachments(r.value) == PathCount(settingsList, n))
  }

  lemma {:induction false} EntriesFold(settingsList: seq<LS.MailSettings>, disk: Jobs.Disk, n: nat)
    requires n <= |settingsList|
    ensures EntriesHold(settingsList, disk, n, Fold(GroupEntryIn, disk, settingsList, [], n))
  {
    if n > 0 {
      EntriesFold(settingsList, disk, n - 1);
      EntriesStep(settingsList, disk, n, Fold(GroupEntryIn, disk, settingsList, [], n - 1));
    }
  }

  lemma {:induction false} EntriesStep(settingsList: seq<LS.MailSettings>, disk: Jobs.Disk, n: nat, g: Result<seq<Pending>>)
    requires 0 < n <= |settingsList|
    requires g == Fold(GroupEntryIn, disk, settingsList, [], n - 1) && EntriesHold(settingsList, disk, n - 1, g)
    ensures EntriesHold(settingsList, disk, n, Fold(GroupEntryIn, disk, settingsList, [], n))
  {
    var m := settingsList[n - 1];
    if g.Success? && m.paths.Some? {
      AddPathAddsOne(Context(m, disk), m.paths.value);
      FoldAddsOne(AddPathIn, OnDiskIn, Context(m, disk), m.paths.value, g.value, |m.paths.value|);
      AllOkMeaning(OnDiskIn, Context(m, disk), m.paths.value, |m.paths.value|);
    }
  }

  /** The grouping of SendMails throws exactly when an entry has no paths
      or names a file that is not there (SingleOrDefault never finds two
      reports with one key); otherwise no two merged reports share a key
      and every path is attached exactly once. */
  lemma GroupAllMeaning(settingsList: seq<LS.MailSettings>, disk: Jobs.Disk)
    ensures GroupAll(settingsList, disk).Success? <==> forall j :: 0 <= j < |settingsList| ==> Readable(settingsList[j], disk)
    ensures GroupAll(settingsList, disk).Success? ==>
              KeysDistinct(GroupAll(settingsList, disk).value)
              && Attachments(GroupAll(settingsList, disk).value) == PathCount(settingsList, |settingsList|)
  {
    EntriesFold(settingsList, disk, |settingsList|);
  }

  /** The inner loop of SendMails over the paths of one settings entry: a
      report with the entry's key is looked up; when there is none a new
      report is made, given the attachment and appended, otherwise the
      attachment is added to the one found. */
  method GroupEntry(list: seq<Pending>, m: LS.MailSettings, disk: Jobs.Disk, paths: seq<string>)
    returns (r: Result<seq<Pending>>)
    ensures r == Fold(AddPathIn, Context(m, disk), paths, list, |paths|)
  {
    var c := Context(m, disk);
    r := Success(list);
    var i := 0;
    while i < |paths|
      invariant 0 <= i <= |paths|
      invariant r == Fold(AddPathIn, c, paths, list, i)
    {
      // after a throw the remaining paths change nothing
      if r.Success? {
        r := AddPathIn(c, r.value, paths[i]);
      }
      i := i + 1;
    }
  }

  /** The outer loop of SendMails over the settings entries. */
  method Group(settingsList: seq<LS.MailSettings>, disk: Jobs.Disk) returns (r: Result<seq<Pending>>)
    ensures r == GroupAll(settingsList, disk)
  {
    r := Success([]);
    var i := 0;
    while i < |settingsList| && r.Success?
      invariant 0 <= i <= |settingsList|
      invariant r == Fold(GroupEntryIn, disk, settingsList, [], i)
    {
      var mailSettings := settingsList[i];
      if mailSettings.paths.None? {
        r := Failure(NullReferenceMessage);
      } else {
        r := GroupEntry(r.value, mailSettings, disk, mailSettings.paths.value);
      }
      i := i + 1;
    }
    if r.Failure? {
      FoldStops(GroupEntryIn, disk, settingsList, [], i, |settingsList|);
    }
  }

  // ---------------------------------------------------------------------
  // Sending

  /** A mail as MailMessage and SmtpClient hold it. */
  datatype Mail = Mail(from: string, to: seq<string>, cc: seq<string>, bcc: seq<string>, subject: Option<string>,
                       body: Option<string>, isBodyHtml: bool, attachments: seq<EMailReports.Attachment>,
                       host: string, port: int, username: Option<string>, password: Option<string>)

  /** What parsing and the mail server decide: the addresses MailAddress
      accepts and the hosts a send to fails on. */
  datatype Smtp = Smtp(validAddresses: set<string>, failingHosts: set<string>)

  /** The recipients of a field: split at ';', empty parts skipped. */
  function Recipients(field: Option<string>): (r: seq<string>)
    ensures forall k :: 0 <= k < |r| ==> r[k] != [] && ';' !in r[k]
  {
    if field.None? then []
    else
      var r := Text.RemoveEmpty(Text.SplitOn(field.value, {';'}));
      assert forall k :: 0 <= k < |r| ==> ';' !in r[k] by {
        RemoveEmptyFrom(Text.SplitOn(field.value, {';'}), ';');
      }
      r
  }

  lemma {:induction false} RemoveEmptyFrom(parts: seq<string>, c: char)
    requires forall k :: 0 <= k < |parts| ==> c !in parts[k]
    ensures forall k :: 0 <= k < |Text.RemoveEmpty(parts)| ==> c !in Text.RemoveEmpty(parts)[k]
    decreases |parts|
  {
    if parts != [] {
      RemoveEmptyFrom(parts[1..], c);
    }
  }

  /** All addresses of a list are accepted. */
  predicate AllValid(addresses: seq<string>, smtp: Smtp) {
    forall k :: 0 <= k < |addresses| ==> addresses[k] in smtp.validAddresses
  }

  /** The body of a message: one containing "</html>" only sets the HTML
      flag and the body stays unset; otherwise "{n}" becomes a line break. */
  function Body(message: string): (r: (Option<string>, bool))
    ensures r.1 <==> Text.Contains(message, "</html>")
    ensures r.1 ==> r.0.None?
    ensures !r.1 ==> r.0 == Some(Text.ReplaceAll(message, "{n}", "\r\n"))
  {
    if Text.Contains(message, "</html>") then (None, true) else (Some(Text.ReplaceAll(message, "{n}", "\r\n")), false)
  }

  /** A message containing "</html>" leaves the mail without a body: the
      HTML text itself is never sent. */
  lemma HtmlBodyLost(message: string)
    requires Text.Contains(message, "</html>")
    ensures Body(message).0 != Some(message) && Body(message).1
  {
  }

  /** The body as the branch evidently means it: an HTML message is sent
      as it is, any other with "{n}" as a line break. */
  function IntendedBody(message: string): (r: (Option<string>, bool))
    ensures r.1 <==> Text.Contains(message, "</html>")
    ensures r.0.Some?
    ensures r.1 ==> r.0 == Some(message)
    ensures !r.1 ==> r.0 == Body(message).0
  {
    if Text.Contains(message, "</html>") then (Some(message), true) else (Some(Text.ReplaceAll(message, "{n}", "\r\n")), false)
  }

  /** SmtpClient.Send refuses a mail without a recipient. */
  const NoRecipientMessage := "A recipient must be specified."

  /** The mail for a merged report, or why it cannot be sent: a missing
      message or server settings throw, a missing or malformed sender or
      recipient throws, a negative port is refused, a mail without any
      recipient is refused, and the server may refuse the mail. */
  function Compose(p: Pending, smtp: Smtp): (r: Result<Mail>)
    ensures r.Success? ==> && p.settings.message.Some? && p.serverSettings.Some?
                           && p.serverSettings.value.from.Some? && p.serverSettings.value.from.value in smtp.validAddresses
                           && p.serverSettings.value.port >= 0 && p.serverSettings.value.host.Some?
                           && p.serverSettings.value.host.value != [] && p.serverSettings.value.host.value !in smtp.failingHosts
    ensures r.Success? ==> r.value.to != [] || r.value.cc != [] || r.value.bcc != []
    ensures r.Success? ==> && r.value.attachments == p.attachments && r.value.subject == p.settings.subject
                           && r.value.to == Recipients(p.settings.to) && r.value.cc == Recipients(p.settings.cc)
                           && r.value.bcc == Recipients(p.settings.bcc)
                           && AllValid(r.value.to, smtp) && AllValid(r.value.cc, smtp) && AllValid(r.value.bcc, smtp)
                           && (r.value.body, r.value.isBodyHtml) == Body(p.settings.message.value)
  {
    var to := Recipients(p.settings.to);
    var cc := Recipients(p.settings.cc);
    var bcc := Recipients(p.settings.bcc);
    if p.settings.message.None? then Failure(NullReferenceMessage)
    else
      var body := Body(p.settings.message.value);
      if p.serverSettings.None? then Failure(NullReferenceMessage)
      else
        var server := p.serverSettings.value;
        if server.from.None? then Failure("Value cannot be null. (Parameter 'address')")
        else if server.from.value !in smtp.validAddresses then Failure("The specified string is not in the form required for an e-mail address.")
        else if !AllValid(to, smtp) || !AllValid(cc, smtp) || !AllValid(bcc, smtp) then
          Failure("The specified string is not in the form required for an e-mail address.")
        else if server.port < 0 then Failure("Specified argument was out of the range of valid values. (Parameter 'port')")
        else if server.host.None? || server.host.value == [] then Failure("The SMTP host was not specified.")
        else if to == [] && cc == [] && bcc == [] then Failure(NoRecipientMessage)
        else if server.host.value in smtp.failingHosts then Failure("Failure sending mail.")
        else Success(Mail(server.from.value, to, cc, bcc, p.settings.subject, body.0, body.1, p.attachments,
                          server.host.value, server.port, server.username, server.password))
  }

  /** The mails of the first `n` reports that go out when `compose` turns
      a report into its mail: the first failure ends the sending. */
  function SendAllBy(compose: Pending -> Result<Mail>, list: seq<Pending>, n: nat): (sent: seq<Mail>)
    requires n <= |list|
    ensures |sent| <= n
    ensures forall k :: 0 <= k < |sent| ==> compose(list[k]) == Success(sent[k])
    ensures |sent| < n ==> compose(list[|sent|]).Failure?
  {
    if n == 0 then []
    else
      var sent := SendAllBy(compose, list, n - 1);
      var mail := compose(list[n - 1]);
      if |sent| < n - 1 || mail.Failure? then sent else sent + [mail.value]
  }

  /** The mails of the first `n` reports that go out: the first failure
      ends the sending. */
  function SendAll(list: seq<Pending>, smtp: Smtp, n: nat): (sent: seq<Mail>)
    requires n <= |list|
    ensures |sent| <= n
  {
    SendAllBy(p => Compose(p, smtp), list, n)
  }

  /** The mails sent are the composed mails of the first reports, in order;
      when fewer than `n` go out, the next report is one whose mail cannot
      be composed or sent. */
  lemma SendAllMeaning(list: seq<Pending>, smtp: Smtp, n: nat)
    requires n <= |list|
    ensures var sent := SendAll(list, smtp, n);
            && (forall k :: 0 <= k < |sent| ==> Compose(list[k], smtp) == Success(sent[k]))
            && (|sent| < n ==> Compose(list[|sent|], smtp).Failure?)
  {
    var sent := SendAllBy(p => Compose(p, smtp), list, n);
    assert forall k :: 0 <= k < |sent| ==> (p => Compose(p, smtp))(list[k]) == Success(sent[k]);
  }

  /** One more report: it is sent when every earlier one was and its
      mail can be composed. */
  lemma SendAllNext(list: seq<Pending>, smtp: Smtp, n: nat)
    requires 0 < n <= |list|
    ensures var sent := SendAll(list, smtp, n - 1);
            var mail := Compose(list[n - 1], smtp);
            SendAll(list, smtp, n) == if |sent| < n - 1 || mail.Failure? then sent else sent + [mail.value]
  {
  }

  /** A merged report without any recipient throws in SmtpClient.Send:
      neither it nor any report after it is sent. */
  lemma NoRecipientEndsSending(list: seq<Pending>, smtp: Smtp, k: nat)
    requires k < |list|
    requires var s := list[k].settings; Recipients(s.to) == [] && Recipients(s.cc) == [] && Recipients(s.bcc) == []
    ensures |SendAll(list, smtp, |list|)| <= k
  {
    SendAllMeaning(list, smtp, |list|);
  }

  /** SendMails: nothing is sent when the grouping throws; otherwise the
      merged reports are sent in order until one fails. */
  function SendMailsRun(settingsList: seq<LS.MailSettings>, disk: Jobs.Disk, smtp: Smtp): seq<Mail> {
    match GroupAll(settingsList, disk)
    case Failure(_) => []
    case Success(list) => SendAll(list, smtp, |list|)
  }

  /** The mail server: the mails it accepted, in order. */
  class Server {
    const smtp: Smtp
    var sent: seq<Mail>

    constructor(smtp: Smtp)
      ensures this.smtp == smtp && sent == []
    {
      this.smtp := smtp;
      sent := [];
    }
  }

  /** The sending loop of SendMails: each merged report is composed and
      sent; the first failure ends the loop. */
  method SendLoop(list: seq<Pending>, server: Server)
    modifies server
    ensures server.sent == old(server.sent) + SendAll(list, server.smtp, |list|)
  {
    var i := 0;
    var failed := false;
    while i < |list| && !failed
      invariant 0 <= i <= |list|
      invariant server.sent == old(server.sent) + SendAll(list, server.smtp, i)
      invariant !failed ==> |SendAll(list, server.smtp, i)| == i
      invariant failed ==> 0 < i && |SendAll(list, server.smtp, i)| < i
    {
      var mail := Compose(list[i], server.smtp);
      SendAllNext(list, server.smtp, i + 1);
      if mail.Failure? {
        failed := true;
      } else {
        server.sent := server.sent + [mail.value];
      }
      i := i + 1;
    }
    if failed {
      SendAllStops(list, server.smtp, i, |list|);
    }
  }

  lemma {:induction false} SendAllStops(list: seq<Pending>, smtp: Smtp, i: nat, n: nat)
    requires 0 < i <= n <= |list| && |SendAll(list, smtp, i)| < i
    ensures SendAll(list, smtp, n) == SendAll(list, smtp, i)
    decreases n - i
  {
    if i < n {
      SendAllStops(list, smtp, i, n - 1);
      SendAllNext(list, smtp, n);
    }
  }
}
