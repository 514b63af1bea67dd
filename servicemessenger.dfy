/** The messengers of the distribution service
    (DistributeService/Model/Messenger): the sentence each result is
    rendered as, in text and in HTML, the lines of a whole result list, and
    the Microsoft Teams message built from them. The web hook is a
    parameter: `post` says what the HTTP POST of a payload answers, or the
    message of the exception it throws. */
module ServiceMessenger {
  import opened Wrappers
  import Text
  import Jobs
  import R = DistributeResults
  import S = ActionSettings
  import BaseAction

  /** The name of the result class, as the "Unknown result type" message
      gives it. */
  function TypeName(k: R.Kind): string {
    match k
    case Distibution => "DistibutionResult"
    case Error => "ErrorResult"
    case Hub(_, _) => "HubResult"
    case File(_) => "FileResult"
    case Ftp(_) => "FTPResult"
    case Http => "HttpResult"
    case Mail(_, _) => "MailResult"
    case Messenger => "MessengerResult"
  }

  function UnknownTypeMessage(k: R.Kind): string {
    "Unknown result type '" + TypeName(k) + "'."
  }

  /** The variants whose success the messengers can describe. */
  predicate Describable(k: R.Kind) {
    k.Hub? || k.Ftp? || k.File? || k.Mail?
  }

  function ErrorSentence(reportName: string): string {
    "The generation of the report '" + reportName + "' has an error."
  }

  const HubTextPrefix: string := "Click on the following link "
  const HubTextSuffix: string := " to open the report on the hub."
  const FtpTextSuffix: string := " to open the report on the ftp server."
  const FileTextPrefix: string := "The file was saved to the path '"
  const MailTextPrefix: string := "The Mail was sent to '"
  const QuoteEnd: string := "'."

  /** GetTextMessageFromResult: a failed result names its report; a
      successful one shows the field of its sink; any other successful
      variant throws. */
  function TextMessage(r: R.BaseResult): (t: Result<string>)
    ensures t.Failure? <==> r.success && !Describable(r.kind)
    ensures t.Failure? ==> t.error == UnknownTypeMessage(r.kind)
    ensures !r.success ==> t == Success(ErrorSentence(r.reportName))
  {
    if !r.success then Success(ErrorSentence(r.reportName))
    else match r.kind
      case Hub(_, fullLink) => Success(HubTextPrefix + fullLink + HubTextSuffix)
      case Ftp(ftpPath) => Success(HubTextPrefix + ftpPath + FtpTextSuffix)
      case File(copyPath) => Success(FileTextPrefix + copyPath + QuoteEnd)
      case Mail(to, _) => Success(MailTextPrefix + to + QuoteEnd)
      case _ => Failure(UnknownTypeMessage(r.kind))
  }

  /** The field a successful result is described by. */
  function Shown(k: R.Kind): string
    requires Describable(k)
  {
    match k
    case Hub(_, fullLink) => fullLink
    case Ftp(ftpPath) => ftpPath
    case File(copyPath) => copyPath
    case Mail(to, _) => to
  }

  lemma {:induction false} InfixInjective(p: string, x: string, y: string, q: string)
    requires p + x + q == p + y + q
    ensures x == y
  {
    assert |x| == |y|;
    assert x == (p + x + q)[|p|..|p| + |x|];
    assert y == (p + y + q)[|p|..|p| + |y|];
  }

  /** Two successful results of the same variant get the same text exactly
      when the field they are described by agrees: a hub result is shown
      by its FullLink, not its Link, and nothing else of a result shows. */
  lemma {:induction false} TextShowsOnlyTheField(a: R.BaseResult, b: R.BaseResult)
    requires a.success && b.success && Describable(a.kind)
    requires a.kind.Hub? == b.kind.Hub? && a.kind.Ftp? == b.kind.Ftp? && a.kind.File? == b.kind.File?
    requires a.kind.Mail? == b.kind.Mail?
    ensures TextMessage(a) == TextMessage(b) <==> Shown(a.kind) == Shown(b.kind)
  {
    var x, y := Shown(a.kind), Shown(b.kind);
    if TextMessage(a) == TextMessage(b) {
      match a.kind
      case Hub(_, _) => InfixInjective(HubTextPrefix, x, y, HubTextSuffix);
      case Ftp(_) => InfixInjective(HubTextPrefix, x, y, FtpTextSuffix);
      case File(_) => InfixInjective(FileTextPrefix, x, y, QuoteEnd);
      case Mail(_, _) => InfixInjective(MailTextPrefix, x, y, QuoteEnd);
    }
  }

  const LinkOpen: string := "<p>Click on the following link <a href=\""
  const LinkMiddle: string := "\">"
  const HubHtmlEnd: string := "</a> to open the report on the hub.</p>"
  const FtpHtmlEnd: string := "</a> to open the report on the ftp server.</p>"
  const FileHtmlPrefix: string := "<p>The file was saved to the path '"
  const MailHtmlPrefix: string := "<p>The Mail was sent to '"
  const QuoteEndHtml: string := "'.</p>"

  /** GetHtmlMessageFromResult: as the text, in paragraphs, with the links
      under the report name; a failed result is the same sentence as in
      the text, without a paragraph. */
  function HtmlMessage(r: R.BaseResult): (t: Result<string>)
    ensures t.Failure? <==> r.success && !Describable(r.kind)
    ensures t.Failure? ==> t.error == UnknownTypeMessage(r.kind)
    ensures !r.success ==> t == TextMessage(r)
  {
    if !r.success then Success(ErrorSentence(r.reportName))
    else match r.kind
      case Hub(_, fullLink) => Success(LinkOpen + fullLink + LinkMiddle + r.reportName + HubHtmlEnd)
      case Ftp(ftpPath) => Success(LinkOpen + ftpPath + LinkMiddle + r.reportName + FtpHtmlEnd)
      case File(copyPath) => Success(FileHtmlPrefix + copyPath + QuoteEndHtml)
      case Mail(to, _) => Success(MailHtmlPrefix + to + QuoteEndHtml)
      case _ => Failure(UnknownTypeMessage(r.kind))
  }

  /** The rendered lines of the first `n` results, each followed by a line
      break (StringBuilder.AppendLine); the first render that throws ends
      the message with its exception. */
  function LinesUpTo(render: R.BaseResult -> Result<string>, results: seq<R.BaseResult>, n: nat): Result<string>
    requires n <= |results|
  {
    if n == 0 then Success("")
    else match LinesUpTo(render, results, n - 1)
      case Failure(e) => Failure(e)
      case Success(s) =>
        match render(results[n - 1])
        case Failure(e) => Failure(e)
        case Success(line) => Success(s + line + Text.NewLine)
  }

  function Lines(render: R.BaseResult -> Result<string>, results: seq<R.BaseResult>): Result<string> {
    LinesUpTo(render, results, |results|)
  }

  /** Two pieces of a message, one after the other; a failure in the first
      is the one thrown. */
  function Then(a: Result<string>, b: Result<string>): Result<string> {
    match a
    case Failure(e) => Failure(e)
    case Success(s) =>
      match b
      case Failure(e) => Failure(e)
      case Success(t) => Success(s + t)
  }

  lemma {:induction false} LinesUpToPrefix(render: R.BaseResult -> Result<string>, rs: seq<R.BaseResult>, ts: seq<R.BaseResult>, n: nat)
    requires n <= |rs|
    ensures LinesUpTo(render, rs + ts, n) == LinesUpTo(render, rs, n)
  {
    if n > 0 {
      LinesUpToPrefix(render, rs, ts, n - 1);
      assert (rs + ts)[n - 1] == rs[n - 1];
    }
  }

  lemma {:induction false} LinesUpToSuffix(render: R.BaseResult -> Result<string>, rs: seq<R.BaseResult>, ts: seq<R.BaseResult>, n: nat)
    requires n <= |ts|
    ensures LinesUpTo(render, rs + ts, |rs| + n) == Then(Lines(render, rs), LinesUpTo(render, ts, n))
  {
    if n == 0 {
      LinesUpToPrefix(render, rs, ts, |rs|);
      match Lines(render, rs)
      case Failure(_) =>
      case Success(s) => assert s + "" == s;
    } else {
      LinesUpToSuffix(render, rs, ts, n - 1);
      assert (rs + ts)[|rs| + n - 1] == ts[n - 1];
      match Lines(render, rs)
      case Failure(_) =>
      case Success(s) =>
        match LinesUpTo(render, ts, n - 1)
        case Failure(_) =>
        case Success(t) =>
          match render(ts[n - 1])
          case Failure(_) =>
          case Success(line) => assert s + t + line + Text.NewLine == s + (t + line + Text.NewLine);
    }
  }

  /** One line per result, in list order: the lines of two lists are the
      lines of the first followed by those of the second, and a single
      result is its sentence and a line break. */
  lemma LinesInOrder(render: R.BaseResult -> Result<string>, rs: seq<R.BaseResult>, ts: seq<R.BaseResult>, r: R.BaseResult)
    ensures Lines(render, rs + ts) == Then(Lines(render, rs), Lines(render, ts))
    ensures Lines(render, [r]) == Then(render(r), Success(Text.NewLine))
  {
    LinesUpToSuffix(render, rs, ts, |ts|);
    assert [r][0] == r;
    assert LinesUpTo(render, [r], 0) == Success("");
    match render(r)
    case Failure(_) =>
    case Success(line) =>
      assert "" + line + Text.NewLine == line + Text.NewLine;
      assert LinesUpTo(render, [r], 1) == Success("" + line + Text.NewLine);
  }

  /** The message fails exactly when some result cannot be rendered, and
      then with the exception of the first such result. */
  lemma {:induction false} LinesFail(render: R.BaseResult -> Result<string>, results: seq<R.BaseResult>, n: nat)
    requires n <= |results|
    ensures LinesUpTo(render, results, n).Failure? <==> exists i :: 0 <= i < n && render(results[i]).Failure?
    ensures LinesUpTo(render, results, n).Failure? ==>
              exists i :: 0 <= i < n && render(results[i]) == LinesUpTo(render, results, n)
                         && forall j :: 0 <= j < i ==> render(results[j]).Success?
  {
    if n > 0 {
      LinesFail(render, results, n - 1);
    }
  }

  /** The loop of SendMessage that appends one rendered line per result. */
  method BuildLines(render: R.BaseResult -> Result<string>, results: seq<R.BaseResult>) returns (r: Result<string>)
    ensures r == Lines(render, results)
  {
    var text := "";
    var i := 0;
    while i < |results|
      invariant 0 <= i <= |results|
      invariant LinesUpTo(render, results, i) == Success(text)
    {
      var line := render(results[i]);
      if line.Failure? {
        LinesStop(render, results, i + 1, |results|);
        return Failure(line.error);
      }
      text := text + line.value + Text.NewLine;
      i := i + 1;
    }
    r := Success(text);
  }

  lemma {:induction false} LinesStop(render: R.BaseResult -> Result<string>, results: seq<R.BaseResult>, i: nat, n: nat)
    requires i <= n <= |results|
    requires LinesUpTo(render, results, i).Failure?
    ensures LinesUpTo(render, results, n) == LinesUpTo(render, results, i)
    decreases n
  {
    if n > i {
      LinesStop(render, results, i, n - 1);
    }
  }

  /** The client's base address: the scheme and host of the web hook URL;
      a missing URL contributes empty parts. */
  function BaseAddress(url: Option<S.Uri>): (a: string)
    ensures url.None? ==> a == "://"
    ensures url.Some? ==> |a| == |url.value.scheme| + 3 + |url.value.host|
    ensures url.Some? ==>
      && a[..|url.value.scheme|] == url.value.scheme
      && a[|url.value.scheme|..|url.value.scheme| + 3] == "://"
      && a[|url.value.scheme| + 3..] == url.value.host
  {
    var scheme := if url.Some? then url.value.scheme else "";
    var host := if url.Some? then url.value.host else "";
    scheme + "://" + host
  }

  /** What is posted to the web hook (serialised as JSON); the members a
      messenger leaves out are None. */
  datatype Payload = Payload(contentType: Option<string>, title: Option<string>, text: string)

  /** The HTTP response: whether its status is 2xx, and its ToString. */
  datatype Response = Response(isSuccess: bool, text: string)

  type Post = (Option<S.Uri>, Payload) -> Result<Response>

  const TransferredMessage: string := "Message was successfully transferred to Microsoft Teams."
  const TeamsName: string := "Microsoft Teams"
  const TeamsTitle: string := "AG Reporting Results"
  const Greeting: string := "Hi,<br/>"
  const IntroRun: string := "<p>I wanted to inform you that the reports have now been run.</p>"
  const IntroResults: string := "<p>The results are as follows.</p>"
  const Fallback: string :=
    "<p>I would like to inform you that you have not yet selected a delivery method.</p>" + Text.NewLine
    + "<p>You can choose between Qlik hub, mail, file system and many more.</p>" + Text.NewLine
    + "<p>You can find more information under the following link.</p>" + Text.NewLine
    + "<p><a href=\"https://docs.analyticsgate.com/how-to/change-or-edit-the-reporting-json-script\">Overview</a></p>"
    + Text.NewLine

  /** The greeting, and the two introduction lines for a non-empty list. */
  function TeamsHead(results: seq<R.BaseResult>): string {
    Greeting + if |results| > 0 then IntroRun + Text.NewLine + IntroResults + Text.NewLine else ""
  }

  /** The message before trimming: the explainer is appended when nothing
      followed the greeting (at most 8 characters). */
  function TeamsBody(head: string, lines: string): string {
    var b := head + lines;
    if |b| <= 8 then b + Fallback else b
  }

  /** The explainer comes exactly when there are no results. */
  lemma TeamsFallback(results: seq<R.BaseResult>)
    ensures results == [] ==> Lines(HtmlMessage, results) == Success("")
    ensures results == [] ==> TeamsBody(TeamsHead(results), "") == Greeting + Fallback
    ensures results != [] ==> forall lines :: TeamsBody(TeamsHead(results), lines) == TeamsHead(results) + lines
  {
  }

  /** Greeting and results lead the message; trimming does not touch them. */
  lemma {:induction false} TeamsStartsWithGreeting(head: string, lines: string)
    requires |head| >= 8 && head[..8] == Greeting
    ensures |Text.Trim(TeamsBody(head, lines))| >= 8 && Text.Trim(TeamsBody(head, lines))[..8] == Greeting
  {
    var b := TeamsBody(head, lines);
    assert b[..8] == Greeting;
    assert !Text.IsWhiteSpace(b[0]) && !Text.IsWhiteSpace(b[7]);
    var t := Text.TrimEnd(b);
    assert Text.TrimStart(b) == b;
    if |t| < 8 {
      TrimEndKeeps(b, 7);
    }
  }

  /** TrimEnd keeps every character up to a non-white one. */
  lemma {:induction false} TrimEndKeeps(s: string, k: nat)
    requires k < |s| && !Text.IsWhiteSpace(s[k])
    ensures |Text.TrimEnd(s)| > k
    decreases |s|
  {
    if k < |s| - 1 && Text.IsWhiteSpace(s[|s| - 1]) {
      TrimEndKeeps(s[..|s| - 1], k);
    }
  }

  /** The result of a message the hook took, and of one that failed (the
      exception's message, no report name, state "ERROR"). */
  function Delivered(task: string, name: string, state: string): R.BaseResult {
    R.BaseResult(R.Messenger, task, true, TransferredMessage, name, state)
  }

  function Undelivered(task: string, message: string, state: string): R.BaseResult {
    R.BaseResult(R.Messenger, task, false, message, "", state)
  }

  /** The result of posting a built message for the task `task` in the
      state `state`: 2xx is delivered, anything else (a thrown render, a
      failing post, another status) is not, and carries the exception's
      message or the reply's text. */
  function PostResult(body: Result<string>, payload: string -> Payload, url: Option<S.Uri>, post: Post,
                      task: string, state: string, name: string, errorState: string): (r: R.BaseResult)
    ensures r.kind == R.Messenger && r.taskName == task
    ensures r.success <==>
              body.Success? && post(url, payload(body.value)).Success? && post(url, payload(body.value)).value.isSuccess
    ensures r.success ==> r.reportName == name && r.reportState == state && r.message == TransferredMessage
    ensures !r.success ==> r.reportName == "" && r.reportState == errorState
    ensures body.Failure? ==> r.message == body.error
    ensures body.Success? && post(url, payload(body.value)).Failure? ==> r.message == post(url, payload(body.value)).error
    ensures body.Success? && post(url, payload(body.value)).Success? && !post(url, payload(body.value)).value.isSuccess ==>
              r.message == post(url, payload(body.value)).value.text
  {
    match body
    case Failure(e) => Undelivered(task, e, errorState)
    case Success(text) =>
      match post(url, payload(text))
      case Failure(e) => Undelivered(task, e, errorState)
      case Success(response) =>
        if response.isSuccess then Delivered(task, name, state)
        else Undelivered(task, response.text, errorState)
  }

  /** The outcome of posting a built message for `job`: PostResult in the
      job's formatted state. A missing job fails in the catch as well and
      is thrown. */
  function PostOutcome(body: Result<string>, payload: string -> Payload, url: Option<S.Uri>, post: Post,
                       job: Jobs.JobResult?, name: string, errorState: string): (r: Result<R.BaseResult>)
    reads job
    ensures r.Failure? <==> job == null
    ensures r.Success? ==> r.value.kind == R.Messenger && r.value.taskName == job.taskName
    ensures r.Success? ==> (r.value.success <==>
              body.Success? && post(url, payload(body.value)).Success? && post(url, payload(body.value)).value.isSuccess)
    ensures r.Success? && r.value.success ==>
              r.value.reportName == name && r.value.reportState == BaseAction.GetFormatedState(job)
    ensures r.Success? && !r.value.success ==> r.value.reportState == errorState
    ensures r.Success? && !r.value.success && body.Failure? ==> r.value.message == body.error
    ensures r.Success? && body.Success? && post(url, payload(body.value)).Failure? ==>
              r.value.message == post(url, payload(body.value)).error
    ensures r.Success? && body.Success? && post(url, payload(body.value)).Success?
            && !post(url, payload(body.value)).value.isSuccess ==>
              r.value.message == post(url, payload(body.value)).value.text
  {
    if job == null then Failure(NullReferenceMessage)
    else Success(PostResult(body, payload, url, post, job.taskName, BaseAction.GetFormatedState(job), name, errorState))
  }

  function TeamsPayload(text: string): Payload {
    Payload(Some("html"), Some(TeamsTitle), Text.Trim(text))
  }

  /** The message SendMessage posts: greeting, introduction, lines, and the
      explainer when there is nothing to report. */
  function TeamsMessage(results: seq<R.BaseResult>): Result<string> {
    match Lines(HtmlMessage, results)
    case Failure(e) => Failure(e)
    case Success(lines) => Success(TeamsBody(TeamsHead(results), lines))
  }

  /** The client's base address, or the exception of `new Uri`: without a
      URL the address is "://", which is no URI. */
  function Client(url: Option<S.Uri>, parse: S.UriParser): (r: Result<string>)
    ensures r.Success? <==> url.Some? && parse(BaseAddress(url)).Some?
    ensures r.Success? ==> r.value == BaseAddress(url)
    ensures r.Failure? ==> r.error == S.InvalidUriMessage
  {
    if url.None? || parse(BaseAddress(url)).None? then Failure(S.InvalidUriMessage) else Success(BaseAddress(url))
  }

  /** The Microsoft Teams messenger of the service. */
  class MicrosoftTeams {
    const url: Option<S.Uri>
    const jobResult: Jobs.JobResult?
    const baseAddress: string

    constructor(url: Option<S.Uri>, jobResult: Jobs.JobResult?, parse: S.UriParser)
      requires Client(url, parse).Success?
      ensures this.url == url && this.jobResult == jobResult && baseAddress == BaseAddress(url)
    {
      this.url := url;
      this.jobResult := jobResult;
      baseAddress := BaseAddress(url);
    }

    /** Posts the rendered results; see PostOutcome. */
    method SendMessage(results: seq<R.BaseResult>, post: Post) returns (r: Result<R.BaseResult>)
      ensures r == PostOutcome(TeamsMessage(results), TeamsPayload, url, post, jobResult, TeamsName, "ERROR")
    {
      var body := ComposeTeams(results);
      r := Deliver(body, TeamsPayload, url, post, jobResult, TeamsName, "ERROR");
    }
  }

  /** The StringBuilder of SendMessage: greeting, introduction, one line
      per result, then the length check. */
  method ComposeTeams(results: seq<R.BaseResult>) returns (body: Result<string>)
    ensures body == TeamsMessage(results)
  {
    var head := Greeting;
    if |results| > 0 {
      head := head + (IntroRun + Text.NewLine + IntroResults + Text.NewLine);
    }
    assert head == TeamsHead(results);
    var lines := BuildLines(HtmlMessage, results);
    if lines.Failure? {
      return Failure(lines.error);
    }
    var b := head + lines.value;
    if |b| <= 8 {
      b := b + Fallback;
    }
    body := Success(b);
  }

  /** Posts a built message and turns the response, or the exception,
      into the messenger's result. */
  method Deliver(body: Result<string>, payload: string -> Payload, url: Option<S.Uri>, post: Post,
                 job: Jobs.JobResult?, name: string, errorState: string) returns (r: Result<R.BaseResult>)
    ensures r == PostOutcome(body, payload, url, post, job, name, errorState)
  {
    if job == null {
      return Failure(NullReferenceMessage);
    }
    if body.Failure? {
      return Success(Undelivered(job.taskName, body.error, errorState));
    }
    var response := post(url, payload(body.value));
    if response.Failure? {
      r := Success(Undelivered(job.taskName, response.error, errorState));
    } else if response.value.isSuccess {
      r := Success(Delivered(job.taskName, name, BaseAction.GetFormatedState(job)));
    } else {
      r := Success(Undelivered(job.taskName, response.value.text, errorState));
    }
  }

  /** A successful result the messenger cannot describe (a distribution or
      error result, another messenger's) makes the whole message fail. */
  lemma UndescribableFails(results: seq<R.BaseResult>, i: nat)
    requires i < |results| && results[i].success && !Describable(results[i].kind)
    ensures TeamsMessage(results).Failure?
  {
    LinesFail(HtmlMessage, results, |results|);
  }
}
