/** The settings of the older distribution (src/Settings.cs) that
    src/Distribute.cs and src/ExecuteManager.cs read: their own enum
    orders, defaults and mail grouping key. A null string is None. */
module LegacySettings {
  import opened Wrappers
  import Text
  import DS = DistributeSettings
  import V = CertificateValidation

  /** An enum value outside the declared members is kept as its number. */
  datatype EMailType = TEXT | HTML | MARKUP | UndefinedMailType(value: int)

  /** Only three delivery types: there is no FTP here. */
  datatype SettingsType = MAIL | FILE | HUB | UndefinedSettingsType(value: int)

  /** OVERRIDE comes first in this version. */
  datatype DistributeMode = OVERRIDE | DELETEALLFIRST | CREATEONLY | UndefinedMode(value: int) {
    function Name(): string {
      match this
      case OVERRIDE => "OVERRIDE"
      case DELETEALLFIRST => "DELETEALLFIRST"
      case CREATEONLY => "CREATEONLY"
      case UndefinedMode(v) => Text.IntToString(v)
    }
  }

  /** The mode with underlying value `v`, in declaration order. */
  function ModeOf(v: int): (m: DistributeMode)
    ensures m.UndefinedMode? <==> !(0 <= v < 3)
    ensures 0 <= v < 3 ==> m.Name() == ["OVERRIDE", "DELETEALLFIRST", "CREATEONLY"][v]
  {
    if v == 0 then OVERRIDE else if v == 1 then DELETEALLFIRST else if v == 2 then CREATEONLY else UndefinedMode(v)
  }

  function MailTypeOf(v: int): (t: EMailType)
    ensures t.UndefinedMailType? <==> !(0 <= v < 3)
  {
    if v == 0 then TEXT else if v == 1 then HTML else if v == 2 then MARKUP else UndefinedMailType(v)
  }

  function SettingsTypeOf(v: int): (t: SettingsType)
    ensures t.UndefinedSettingsType? <==> !(0 <= v < 3)
  {
    if v == 0 then MAIL else if v == 1 then FILE else if v == 2 then HUB else UndefinedSettingsType(v)
  }

  /** A Mode the JSON leaves out is the enum's zero value: OVERRIDE here,
      CREATEONLY in DistributeSettings. The value 3, FTP in the newer
      settings types, names no type here. */
  lemma AbsentModeDiffers()
    ensures ModeOf(0) == OVERRIDE && DS.ModeOf(0) == DS.CREATEONLY
    ensures ModeOf(0).Name() != DS.ModeOf(0).Name()
    ensures SettingsTypeOf(3).UndefinedSettingsType?
    ensures MailTypeOf(2) == MARKUP
  {
    assert ModeOf(0).Name() == "OVERRIDE";
    assert DS.ModeOf(0).Name() == "CREATEONLY";
    assert "OVERRIDE"[0] != "CREATEONLY"[0];
  }

  /** FileSettings and HubSettings: whether the location is active, its
      type, target, mode, owner and connections (None when the JSON has
      none; an entry is None when it is null). */
  datatype DeliverySettings = DeliverySettings(
    active: Option<bool>,
    settingsType: SettingsType,
    target: Option<string>,
    mode: DistributeMode,
    owner: Option<string>,
    connections: Option<seq<Option<V.SerConnection>>>)

  /** MailServerSettings: Port has no initialiser, so it is 0. */
  datatype MailServerSettings = MailServerSettings(
    host: Option<string>,
    from: Option<string>,
    port: int,
    username: Option<string>,
    password: Option<string>,
    useSsl: bool)

  function NewMailServerSettings(): (s: MailServerSettings)
    ensures s.port == 0 && !s.useSsl
    ensures s.host.None? && s.from.None? && s.username.None? && s.password.None?
  {
    MailServerSettings(None, None, 0, None, None, false)
  }

  /** MailSettings, with the paths and report name that the distribution
      fills in (they are not read from JSON). */
  datatype MailSettings = MailSettings(
    active: Option<bool>,
    settingsType: SettingsType,
    subject: Option<string>,
    message: Option<string>,
    mailType: EMailType,
    to: Option<string>,
    cc: Option<string>,
    bcc: Option<string>,
    mailServer: Option<MailServerSettings>,
    paths: Option<seq<string>>,
    reportName: Option<string>)

  function NewMailSettings(): (s: MailSettings)
    ensures s.mailType == TEXT && s.settingsType == MAIL
    ensures s.active.None? && s.subject.None? && s.message.None? && s.to.None? && s.cc.None? && s.bcc.None?
    ensures s.mailServer.None? && s.paths.None? && s.reportName.None?
  {
    MailSettings(None, MAIL, None, None, TEXT, None, None, None, None, None, None)
  }

  /** MailSettings.ToString, the key mails are grouped by. */
  function Key(m: MailSettings): string {
    DS.Str(m.subject) + "|" + DS.Str(m.message) + "|" + DS.Str(m.to) + "/" + DS.Str(m.cc) + "/" + DS.Str(m.bcc)
  }

  /** The key has the format of DistributeSettings' key: settings with
      the same subject, message and recipients have the same key in both
      versions, and in both the blind copies are part of it. */
  lemma KeyAgrees(m: MailSettings, n: DS.MailSettings)
    requires m.subject == n.subject && m.message == n.message && m.to == n.to && m.cc == n.cc && m.bcc == n.bcc
    ensures Key(m) == DS.Key(n)
  {
  }

  lemma KeySeesBcc(a: MailSettings, b: MailSettings)
    requires a.subject == b.subject && a.message == b.message && a.to == b.to && a.cc == b.cc
    requires DS.Str(a.bcc) != DS.Str(b.bcc)
    ensures Key(a) != Key(b)
  {
    var p := DS.Str(a.subject) + "|" + DS.Str(a.message) + "|" + DS.Str(a.to) + "/" + DS.Str(a.cc) + "/";
    assert Key(a) == p + DS.Str(a.bcc) && Key(b) == p + DS.Str(b.bcc);
    assert Key(a)[|p|..] == DS.Str(a.bcc) && Key(b)[|p|..] == DS.Str(b.bcc);
  }
}
