/** The mail package of src/EMailReport.cs: the settings a mail is sent
    with and the attachments collected for it. */
module EMailReports {
  import opened Wrappers
  import Jobs
  import Paths

  /** A mail attachment: the name the recipient sees and its bytes. */
  datatype Attachment = Attachment(name: string, content: seq<Jobs.byte>)

  /** The attachment of a rendered file under a report name: the name
      followed by the extension of the rendered file. */
  function AttachmentOf(fileData: Jobs.FileData, name: string): (a: Attachment)
    ensures a.content == fileData.data
    ensures |a.name| >= |name| && a.name[..|name|] == name
    ensures a.name[|name|..] == Paths.GetExtension(fileData.filename)
  {
    Attachment(name + Paths.GetExtension(fileData.filename), fileData.data)
  }

  /** Settings, server settings and mail information are kept as given;
      `Settings` and `Server` are the settings types of the caller. */
  class EMailReport<Settings, Server> {
    const settings: Settings
    const serverSettings: Option<Server>
    const mailInfo: string
    var reportPaths: seq<Attachment>

    constructor(settings: Settings, serverSettings: Option<Server>, mailInfo: string)
      ensures this.settings == settings && this.serverSettings == serverSettings && this.mailInfo == mailInfo
      ensures reportPaths == []
    {
      this.settings := settings;
      this.serverSettings := serverSettings;
      this.mailInfo := mailInfo;
      reportPaths := [];
    }

    /** Adds the attachment of a rendered file; a missing file (null) fails
        on reading its data and adds nothing. */
    method AddReport(fileData: Option<Jobs.FileData>, name: string) returns (thrown: Option<string>)
      modifies this
      ensures fileData.None? ==> thrown == Some(NullReferenceMessage) && reportPaths == old(reportPaths)
      ensures fileData.Some? ==> thrown.None? && reportPaths == old(reportPaths) + [AttachmentOf(fileData.value, name)]
    {
      if fileData.None? {
        return Some(NullReferenceMessage);
      }
      reportPaths := reportPaths + [AttachmentOf(fileData.value, name)];
      thrown := None;
    }
  }
}
