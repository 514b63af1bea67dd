/** The settings the sinks of src/Actions and src/DistributeManager.cs read
    (the declarations under src/Settings). Typed settings come out of JSON
    deserialisation, which is not modelled; these are its results. */
module ActionSettings {
  import opened Wrappers
  import Json
  import DistributeSettings
  import Text

  datatype SettingsType = MAIL | FILE | HUB | FTP | MESSENGER | UndefinedSettingsType(value: int)

  /** The members and order are those of DistributeSettings.DistributeMode. */
  type DistributeMode = DistributeSettings.DistributeMode

  /** DistributeSettings: whether the location is active, and its type. */
  datatype Probe = Probe(active: bool, settingsType: SettingsType)

  /** FileSettings; `connections` are the raw connection configurations. */
  datatype FileSettings = FileSettings(target: Option<string>, mode: DistributeMode, connections: seq<Json.Json>)

  datatype FTPSettings = FTPSettings(
    host: Option<string>,
    username: Option<string>,
    password: Option<string>,
    encryptionMode: Option<string>,
    useSsl: bool,
    port: int,
    remotePath: Option<string>,
    mode: DistributeMode)

  datatype HubSettings = HubSettings(
    sharedContentType: Option<string>,
    owner: Option<string>,
    mode: DistributeMode,
    connections: seq<Json.Json>)

  datatype MessengerType = MICROSOFTTEAMS | SLACK | UndefinedMessenger(value: int)

  /** A System.Uri, by the parts the messengers read. */
  datatype Uri = Uri(scheme: string, host: string, text: string)

  /** `new Uri(text)`: the parsed URI, None when the constructor throws,
      as it does for an empty text. */
  type UriParser = p: string -> Option<Uri> | p("").None? witness (s: string) => None

  /** The UriFormatException of a text that is no URI. */
  const InvalidUriMessage: string := "Invalid URI: The format of the URI could not be determined."

  datatype MessengerSettings = MessengerSettings(messenger: MessengerType, url: Option<Uri>)

  /** The MailServerSettings of src/Settings/MailSettings.cs. */
  datatype MailServerSettings = MailServerSettings(
    host: Option<string>,
    from: Option<string>,
    port: int,
    username: Option<string>,
    password: Option<string>,
    useSsl: bool,
    useCertificate: bool,
    useBase64Password: bool,
    sendDelay: int,
    privateKey: Option<string>)

  /** The MailSettings of src/Settings/MailSettings.cs. */
  datatype MailSettings = MailSettings(
    subject: Option<string>,
    message: Option<string>,
    sendAttachment: bool,
    mailType: DistributeSettings.EMailType,
    to: Option<string>,
    cc: Option<string>,
    bcc: Option<string>,
    mailServer: Option<MailServerSettings>)

  function NewMailSettings(): (s: MailSettings)
    ensures s.sendAttachment && s.mailType == DistributeSettings.TEXT
    ensures s.subject.None? && s.message.None? && s.to.None? && s.cc.None? && s.bcc.None?
  {
    MailSettings(None, None, true, DistributeSettings.TEXT, None, None, None, None)
  }

  function NewMailServerSettings(): (s: MailServerSettings)
    ensures s.port == 25 && s.sendDelay == 0 && !s.useSsl && !s.useCertificate && !s.useBase64Password
  {
    MailServerSettings(None, None, 25, None, None, false, false, false, 0, None)
  }

  /** MailSettings.ToString with subject and message trimmed: a null
      subject or message makes Trim throw. */
  function TrimmedKey(m: MailSettings): (r: Result<string>)
    ensures r.Failure? <==> (m.subject.None? || m.message.None?)
    ensures r.Failure? ==> r.error == NullReferenceMessage
  {
    if m.subject.None? || m.message.None? then Failure(NullReferenceMessage)
    else
      var s := DistributeSettings.Str;
      Success(Text.Trim(m.subject.value) + "|" + Text.Trim(m.message.value) + "|" + s(m.to) + "/" + s(m.cc) + "/" + s(m.bcc))
  }

  /** Subjects and messages that differ only in surrounding white space
      give the same key. */
  lemma TrimmedKeyCollides(a: MailSettings, b: MailSettings)
    requires a.subject.Some? && b.subject.Some? && a.message.Some? && b.message.Some?
    requires Text.Trim(a.subject.value) == Text.Trim(b.subject.value)
    requires Text.Trim(a.message.value) == Text.Trim(b.message.value)
    requires a.to == b.to && a.cc == b.cc && a.bcc == b.bcc
    ensures TrimmedKey(a).Success? && TrimmedKey(a) == TrimmedKey(b)
  {
  }

  /** Surrounding white space on the subject does not change the key:
      " Report " and "Report" collide. */
  lemma TrimmedKeyPadding(m: MailSettings, subject: string)
    requires m.message.Some?
    ensures TrimmedKey(m.(subject := Some(" " + subject + " "))) == TrimmedKey(m.(subject := Some(subject)))
  {
    TrimPadding(subject);
  }

  lemma {:induction false} TrimPadding(s: string)
    ensures Text.Trim(" " + s + " ") == Text.Trim(s)
  {
    var p := " " + s + " ";
    assert p[1..] == s + " ";
    assert Text.TrimStart(p) == Text.TrimStart(s + " ");
    TrimStartAppendSpace(s);
    TrimEndSpace(Text.TrimStart(s));
  }

  lemma {:induction false} TrimStartAppendSpace(s: string)
    ensures Text.TrimStart(s + " ") == Text.TrimStart(s) + " " || (Text.TrimStart(s) == [] && Text.TrimStart(s + " ") == [])
    decreases |s|
  {
    if s != [] {
      assert (s + " ")[1..] == s[1..] + " ";
      if Text.IsWhiteSpace(s[0]) {
        TrimStartAppendSpace(s[1..]);
      }
    }
  }

  lemma TrimEndSpace(t: string)
    ensures Text.TrimEnd(t + " ") == Text.TrimEnd(t)
  {
    assert (t + " ")[..|t|] == t;
  }
}
