/** The outcome records the distribution returns (the BaseResult hierarchy
    as one tagged union). A null string field is "". */
module DistributeResults {

  /** Which subclass a result is, with the fields only that subclass has. */
  datatype Kind =
    | Distibution
    | Error
    | Hub(link: string, fullLink: string)
    | File(copyPath: string)
    | Ftp(ftpPath: string)
    | Http
    | Mail(to: string, subject: string)
    | Messenger
  {
    /** The fixed DistributionMode of the subclass; MessengerResult is not
        one of the declared subclasses. */
    function Label(): (l: string)
      requires !Messenger?
      ensures l != []
    {
      match this
      case Distibution => "Distibution"
      case Error => "Error"
      case Hub(_, _) => "Hub"
      case File(_) => "File System"
      case Ftp(_) => "FTP"
      case Http => "Http"
      case Mail(_, _) => "Mail"
    }
  }

  /** The fields every result carries. */
  datatype BaseResult = BaseResult(
    kind: Kind,
    taskName: string,
    success: bool,
    message: string,
    reportName: string,
    reportState: string)

  /** Two declared subclasses never share a label. */
  lemma LabelsDistinct(a: Kind, b: Kind)
    requires !a.Messenger? && !b.Messenger?
    requires a.Label() == b.Label()
    ensures a.Distibution? == b.Distibution? && a.Error? == b.Error? && a.Hub? == b.Hub?
    ensures a.File? == b.File? && a.Ftp? == b.Ftp? && a.Http? == b.Http? && a.Mail? == b.Mail?
  {
  }
}
