/** The mail settings of the distribution service
    (DistributeService/Model/Settings/MailSettings.cs): the settings, their
    grouping key, and the mail package that collects the attachments of
    the reports sent with the same settings. The body types and the server
    settings have the members, order and defaults of
    DistributeSettings; the settings types those of ActionSettings. */
module ServiceMailSettings {
  import opened Wrappers
  import Jobs
  import DS = DistributeSettings
  import S = ActionSettings
  import EMailReports
  import Paths

  type MailServerSettings = DS.MailServerSettings

  datatype MailSettings = MailSettings(
    active: Option<bool>,
    subject: Option<string>,
    message: Option<string>,
    sendAttachment: bool,
    mailType: DS.EMailType,
    to: Option<string>,
    cc: Option<string>,
    bcc: Option<string>,
    mailServer: Option<MailServerSettings>)
  {
    /** The type has a private setter initialised to MAIL. */
    function Type(): (t: S.SettingsType)
      ensures t == S.MAIL
    {
      S.MAIL
    }
  }

  /** A new MailSettings before JSON fills it. */
  function NewMailSettings(): (s: MailSettings)
    ensures s.sendAttachment && s.mailType == DS.TEXT && s.mailServer.None? && s.active.None?
    ensures s.subject.None? && s.message.None? && s.to.None? && s.cc.None? && s.bcc.None?
  {
    MailSettings(None, None, None, true, DS.TEXT, None, None, None, None)
  }

  /** MailSettings.ToString: nothing is trimmed. */
  function Key(m: MailSettings): string {
    DS.Str(m.subject) + "|" + DS.Str(m.message) + "|" + DS.Str(m.to) + "/" + DS.Str(m.cc) + "/" + DS.Str(m.bcc)
  }

  /** Unlike the trimmed key, a subject with surrounding white space gives
      a different key. */
  lemma KeyIsUntrimmed(m: MailSettings, subject: string)
    ensures Key(m.(subject := Some(" " + subject))) != Key(m.(subject := Some(subject)))
  {
    var a := m.(subject := Some(" " + subject));
    var b := m.(subject := Some(subject));
    var rest := "|" + DS.Str(m.message) + "|" + DS.Str(m.to) + "/" + DS.Str(m.cc) + "/" + DS.Str(m.bcc);
    assert Key(a) == " " + subject + rest && Key(b) == subject + rest;
    assert |Key(a)| == |Key(b)| + 1;
  }

  /** The contents of an EMailReport: what it was created with, its
      attachments, and the name given with the last report added. */
  datatype MailPackage<Settings, Server> = MailPackage(
    settings: Settings,
    serverSettings: Option<Server>,
    mailInfo: string,
    reportPaths: seq<EMailReports.Attachment>,
    reportNames: Option<string>)
  {
    /** AddReport once the file data is there. */
    function AddReport(fileData: Jobs.FileData, name: string): MailPackage<Settings, Server> {
      this.(reportPaths := reportPaths + [EMailReports.AttachmentOf(fileData, name)], reportNames := Some(name))
    }
  }

  /** AddReport grows the attachments by one and keeps the earlier ones;
      the report names are those of the latest call only. */
  lemma AddReportAppends<T, V>(p: MailPackage<T, V>, fileData: Jobs.FileData, name: string, next: Jobs.FileData, nextName: string)
    ensures var q := p.AddReport(fileData, name);
      && |q.reportPaths| == |p.reportPaths| + 1 && q.reportPaths[..|p.reportPaths|] == p.reportPaths
      && q.reportPaths[|p.reportPaths|].name == name + Paths.GetExtension(fileData.filename)
      && q.reportPaths[|p.reportPaths|].content == fileData.data
      && q.settings == p.settings && q.serverSettings == p.serverSettings && q.mailInfo == p.mailInfo
      && q.AddReport(next, nextName).reportNames == Some(nextName)
  {
    var q := p.AddReport(fileData, name);
    assert q.reportPaths[..|p.reportPaths|] == p.reportPaths;
  }

  /** The EMailReport of the service: a package whose attachments grow. */
  class EMailReport<Settings, Server> {
    const settings: Settings
    const serverSettings: Option<Server>
    const mailInfo: string
    var reportPaths: seq<EMailReports.Attachment>
    var reportNames: Option<string>

    function Package(): MailPackage<Settings, Server>
      reads this
    {
      MailPackage(settings, serverSettings, mailInfo, reportPaths, reportNames)
    }

    /** A new report has no attachments and no names. */
    constructor(settings: Settings, serverSettings: Option<Server>, mailInfo: string)
      ensures Package() == MailPackage(settings, serverSettings, mailInfo, [], None)
    {
      this.settings := settings;
      this.serverSettings := serverSettings;
      this.mailInfo := mailInfo;
      reportPaths := [];
      reportNames := None;
    }

    /** A missing file (null) fails on reading its data and changes
        nothing. */
    method AddReport(fileData: Option<Jobs.FileData>, name: string) returns (thrown: Option<string>)
      modifies this
      ensures fileData.None? ==> thrown == Some(NullReferenceMessage) && Package() == old(Package())
      ensures fileData.Some? ==> thrown.None? && Package() == old(Package()).AddReport(fileData.value, name)
    {
      if fileData.None? {
        return Some(NullReferenceMessage);
      }
      reportPaths := reportPaths + [EMailReports.AttachmentOf(fileData.value, name)];
      reportNames := Some(name);
      thrown := None;
    }
  }
}
