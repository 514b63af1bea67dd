/** The delivery settings of src/DistributeSettings.cs: enum orders,
    property defaults and the mail grouping key. A null string is None. */
module DistributeSettings {
  import opened Wrappers
  import Jobs
  import Text

  /** An enum property that JSON sets to a number outside the declared
      members keeps that number; `Undefined` carries it. */
  datatype EMailType = TEXT | HTML | MARKDOWN | UndefinedMailType(value: int)

  datatype SettingsType = MAIL | FILE | HUB | FTP | UndefinedSettingsType(value: int)

  datatype DistributeMode = CREATEONLY | OVERRIDE | DELETEALLFIRST | UndefinedMode(value: int) {
    function Name(): string {
      match this
      case CREATEONLY => "CREATEONLY"
      case OVERRIDE => "OVERRIDE"
      case DELETEALLFIRST => "DELETEALLFIRST"
      case UndefinedMode(v) => Text.IntToString(v)
    }
  }

  /** The member with underlying value `v`, in declaration order. */
  function ModeOf(v: int): (m: DistributeMode)
    ensures m.UndefinedMode? <==> !(0 <= v < 3)
  {
    if v == 0 then CREATEONLY else if v == 1 then OVERRIDE else if v == 2 then DELETEALLFIRST else UndefinedMode(v)
  }

  function MailTypeOf(v: int): (t: EMailType)
    ensures t.UndefinedMailType? <==> !(0 <= v < 3)
  {
    if v == 0 then TEXT else if v == 1 then HTML else if v == 2 then MARKDOWN else UndefinedMailType(v)
  }

  /** A Mode the JSON leaves out is the enum's zero value. */
  lemma AbsentModeIsCreateOnly()
    ensures ModeOf(0) == CREATEONLY
  {
  }

  /** WebDeliverySettings' Port default. */
  const DefaultWebPort: int := 21
  /** HubSettings' SharedContentType default. */
  const DefaultSharedContentType: string := "Qlik report"

  datatype MailServerSettings = MailServerSettings(
    host: Option<string>,
    from: Option<string>,
    port: int,
    username: Option<string>,
    password: Option<string>,
    useSsl: bool,
    useCertificate: bool,
    sendDelay: int)

  /** A new MailServerSettings before JSON fills it. */
  function NewMailServerSettings(): (s: MailServerSettings)
    ensures s.port == 25 && s.sendDelay == 0
    ensures s.host.None? && s.from.None? && s.username.None? && s.password.None?
    ensures !s.useSsl && !s.useCertificate
  {
    MailServerSettings(None, None, 25, None, None, false, false, 0)
  }

  datatype MailSettings = MailSettings(
    active: Option<bool>,
    settingsType: SettingsType,
    subject: Option<string>,
    message: Option<string>,
    sendAttachment: bool,
    mailType: EMailType,
    to: Option<string>,
    cc: Option<string>,
    bcc: Option<string>,
    mailServer: Option<MailServerSettings>,
    mailReports: seq<Jobs.Report>)

  /** A new MailSettings before JSON fills it. */
  function NewMailSettings(): (s: MailSettings)
    ensures s.sendAttachment && s.mailType == TEXT && s.mailReports == [] && s.settingsType == MAIL
    ensures s.subject.None? && s.message.None? && s.to.None? && s.cc.None? && s.bcc.None?
  {
    MailSettings(None, MAIL, None, None, true, TEXT, None, None, None, None, [])
  }

  /** String interpolation of a possibly null string. */
  function Str(s: Option<string>): string {
    s.GetOr("")
  }

  /** MailSettings.ToString, the key mails are grouped by. */
  function Key(m: MailSettings): string {
    Str(m.subject) + "|" + Str(m.message) + "|" + Str(m.to) + "/" + Str(m.cc) + "/" + Str(m.bcc)
  }

  /** The key distinguishes settings that differ only in their blind
      copies. */
  lemma KeySeesBcc(a: MailSettings, b: MailSettings)
    requires a.subject == b.subject && a.message == b.message && a.to == b.to && a.cc == b.cc
    requires Str(a.bcc) != Str(b.bcc)
    ensures Key(a) != Key(b)
  {
    var p := Str(a.subject) + "|" + Str(a.message) + "|" + Str(a.to) + "/" + Str(a.cc) + "/";
    assert Key(a) == p + Str(a.bcc) && Key(b) == p + Str(b.bcc);
    assert Key(a)[|p|..] == Str(a.bcc) && Key(b)[|p|..] == Str(b.bcc);
  }

  /** Settings that agree on subject, message and recipients share a key,
      whatever else (attachments, body type, server) they differ in. */
  lemma KeyIgnoresDelivery(a: MailSettings, b: MailSettings)
    requires a.subject == b.subject && a.message == b.message
    requires a.to == b.to && a.cc == b.cc && a.bcc == b.bcc
    ensures Key(a) == Key(b)
  {
  }
}
