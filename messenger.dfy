/** The messengers the distribution manager sends with (src/Messenger):
    the older HTML sentences, Slack's plain-text message and the older
    Microsoft Teams message. Slack renders with the text sentences of the
    service messenger, the only GetTextMessageFromResult there is. */
module Messenger {
  import opened Wrappers
  import Text
  import Jobs
  import R = DistributeResults
  import S = ActionSettings
  import SM = ServiceMessenger
  import N = ResultNormalizer

  const LinkOpen: string := SM.LinkOpen
  const FileHtmlPrefix: string := "<p>The file was saved to '"

  /** GetHtmlMessageFromResult: a hub result links its Link, a file result
      says where it was saved; the rest as the service messenger says it. */
  function HtmlMessage(r: R.BaseResult): (t: Result<string>)
    ensures t.Failure? <==> r.success && !SM.Describable(r.kind)
    ensures t.Failure? ==> t.error == SM.UnknownTypeMessage(r.kind)
    ensures !r.success ==> t == Success(SM.ErrorSentence(r.reportName))
    ensures r.kind.Ftp? || r.kind.Mail? ==> t == SM.HtmlMessage(r)
  {
    if !r.success then Success(SM.ErrorSentence(r.reportName))
    else match r.kind
      case Hub(link, _) => Success(LinkOpen + link + SM.LinkMiddle + r.reportName + SM.HubHtmlEnd)
      case Ftp(ftpPath) => Success(LinkOpen + ftpPath + SM.LinkMiddle + r.reportName + SM.FtpHtmlEnd)
      case File(copyPath) => Success(FileHtmlPrefix + copyPath + SM.QuoteEndHtml)
      case Mail(to, _) => Success(SM.MailHtmlPrefix + to + SM.QuoteEndHtml)
      case _ => Failure(SM.UnknownTypeMessage(r.kind))
  }

  /** The older HTML of a hub result is the service's HTML of the same
      result with its FullLink in place of its Link, so the two differ
      whenever the links do. */
  lemma {:induction false} HubLinkVersions(r: R.BaseResult)
    requires r.success && r.kind.Hub?
    ensures HtmlMessage(r) == SM.HtmlMessage(r.(kind := R.Hub(r.kind.fullLink, r.kind.link)))
    ensures r.kind.link != r.kind.fullLink ==> HtmlMessage(r) != SM.HtmlMessage(r)
  {
    var tail := SM.LinkMiddle + r.reportName + SM.HubHtmlEnd;
    Regroup(LinkOpen, r.kind.link, SM.LinkMiddle, r.reportName, SM.HubHtmlEnd);
    Regroup(LinkOpen, r.kind.fullLink, SM.LinkMiddle, r.reportName, SM.HubHtmlEnd);
    if r.kind.link != r.kind.fullLink && HtmlMessage(r) == SM.HtmlMessage(r) {
      SM.InfixInjective(LinkOpen, r.kind.link, r.kind.fullLink, tail);
    }
  }

  lemma Regroup(p: string, x: string, m: string, n: string, e: string)
    ensures p + x + m + n + e == p + x + (m + n + e)
  {
  }

  /** The client's base address as this version writes it: scheme, ":\",
      host. */
  function BaseAddress(url: Option<S.Uri>): (a: string)
    ensures url.None? ==> a == ":\\"
    ensures url.Some? ==> |a| == |url.value.scheme| + 2 + |url.value.host|
    ensures url.Some? ==>
      && a[..|url.value.scheme|] == url.value.scheme
      && a[|url.value.scheme|..|url.value.scheme| + 2] == ":\\"
      && a[|url.value.scheme| + 2..] == url.value.host
  {
    var scheme := if url.Some? then url.value.scheme else "";
    var host := if url.Some? then url.value.host else "";
    scheme + ":\\" + host
  }

  const SlackName: string := "Slack"
  const SlackGreeting: string := "Hi,"
  const SlackIntroRun: string := "I wanted to inform you that the reports have now been run."
  const SlackIntroResults: string := "The results are as follows."
  const SlackFallback: string :=
    "I would like to inform you that you have not yet selected a delivery method." + Text.NewLine
    + "You can choose between Qlik hub, mail, file system and many more." + Text.NewLine
    + "You can find more information under the following link." + Text.NewLine
    + "https://docs.analyticsgate.com/how-to/change-or-edit-the-reporting-json-script" + Text.NewLine

  function SlackHead(results: seq<R.BaseResult>): string {
    SlackGreeting + if |results| > 0 then SlackIntroRun + Text.NewLine + SlackIntroResults + Text.NewLine else ""
  }

  /** Slack's message before trimming: greeting, introduction, one text
      line per result, and the explainer when nothing followed (at most 8
      characters). */
  function SlackMessage(results: seq<R.BaseResult>): Result<string> {
    match SM.Lines(SM.TextMessage, results)
    case Failure(e) => Failure(e)
    case Success(lines) =>
      var b := SlackHead(results) + lines;
      Success(if |b| <= 8 then b + SlackFallback else b)
  }

  /** The explainer is appended exactly when there are no results. */
  lemma SlackFallbackWhenEmpty(results: seq<R.BaseResult>)
    ensures results == [] ==> SlackMessage(results) == Success(SlackGreeting + SlackFallback)
    ensures results != [] && SlackMessage(results).Success? ==>
              SlackMessage(results).value == SlackHead(results) + SM.Lines(SM.TextMessage, results).value
  {
    if results == [] {
      assert SlackHead(results) + "" == SlackGreeting;
    }
  }

  /** The client's base address, or the exception of `new Uri`: without a
      URL the address is ":\", which is no URI. */
  function Client(url: Option<S.Uri>, parse: S.UriParser): (r: Result<string>)
    ensures r.Success? <==> url.Some? && parse(BaseAddress(url)).Some?
    ensures r.Success? ==> r.value == BaseAddress(url)
    ensures r.Failure? ==> r.error == S.InvalidUriMessage
  {
    if url.None? || parse(BaseAddress(url)).None? then Failure(S.InvalidUriMessage) else Success(BaseAddress(url))
  }

  /** Slack posts only the text. */
  function SlackPayload(text: string): SM.Payload {
    SM.Payload(None, None, Text.Trim(text))
  }

  class Slack {
    const url: Option<S.Uri>
    const jobResult: Jobs.JobResult?
    const baseAddress: string

    constructor(url: Option<S.Uri>, jobResult: Jobs.JobResult?, parse: S.UriParser)
      requires Client(url, parse).Success?
      ensures this.url == url && this.jobResult == jobResult && baseAddress == BaseAddress(url)
    {
      this.url := url;
      this.jobResult := jobResult;
      baseAddress := BaseAddress(url);
    }

    /** Posts the results as text; a delivered message is named "Slack"
        (with the Teams wording of its message). */
    method SendMessage(results: seq<R.BaseResult>, post: SM.Post) returns (r: Result<R.BaseResult>)
      ensures r == SM.PostOutcome(SlackMessage(results), SlackPayload, url, post, jobResult, SlackName, "ERROR")
    {
      var body := ComposeSlack(results);
      r := SM.Deliver(body, SlackPayload, url, post, jobResult, SlackName, "ERROR");
    }
  }

  method ComposeSlack(results: seq<R.BaseResult>) returns (body: Result<string>)
    ensures body == SlackMessage(results)
  {
    var head := SlackGreeting;
    if |results| > 0 {
      head := head + (SlackIntroRun + Text.NewLine + SlackIntroResults + Text.NewLine);
    }
    assert head == SlackHead(results);
    var lines := SM.BuildLines(SM.TextMessage, results);
    if lines.Failure? {
      return Failure(lines.error);
    }
    var b := head + lines.value;
    if |b| <= 8 {
      b := b + SlackFallback;
    }
    body := Success(b);
  }

  const OldTeamsTitle: string := "Message from AG Reporting"
  /** The state of an undelivered message, spelled as this version does. */
  const OldErrorState: string := "ERRROR"

  /** The older Teams message is only the lines, without greeting or
      explainer. */
  function OldTeamsPayload(text: string): SM.Payload {
    SM.Payload(Some("html"), Some(OldTeamsTitle), Text.Trim(text))
  }

  /** An empty result list posts an empty text. */
  lemma OldTeamsEmpty()
    ensures SM.Lines(HtmlMessage, []) == Success("") && OldTeamsPayload("").text == ""
  {
  }

  /** The misspelt state does not lower-case to "error". */
  lemma OldErrorStateIsNotError()
    ensures Text.ToLower(OldErrorState) != "error"
  {
    assert |Text.ToLower(OldErrorState)| == 6;
  }

  /** The state of an undelivered message as the other messengers spell
      it, which the normaliser recognises. */
  const IntendedErrorState: string := "ERROR"

  /** A successful result and the undelivered Teams message of the same
      task: with the misspelt state the normaliser sees no error, and the
      successful result keeps its state. */
  lemma MisspeltStateEscapes(ok: R.BaseResult, message: string)
    requires !N.IsError(ok)
    ensures var u := SM.Undelivered(ok.taskName, message, OldErrorState);
            N.Normalize([ok, u]) == [ok, u]
  {
    var u := SM.Undelivered(ok.taskName, message, OldErrorState);
    var x := [ok, u];
    OldErrorStateIsNotError();
    TwoOfOneTask(ok, u);
    assert !N.HasError(x);
    N.NormalizeInPlace(x);
    assert N.MapFix(x, x)[0] == ok;
    assert N.MapFix(x, x)[1] == u;
  }

  /** With the intended state the failed message turns every result of
      its task into "ERROR". */
  lemma IntendedStateForcesError(ok: R.BaseResult, message: string)
    ensures var u := SM.Undelivered(ok.taskName, message, IntendedErrorState);
            N.Normalize([ok, u]) == [ok.(reportState := "ERROR"), u]
  {
    var u := SM.Undelivered(ok.taskName, message, IntendedErrorState);
    var x := [ok, u];
    TwoOfOneTask(ok, u);
    assert N.IsError(x[1]);
    N.NormalizeInPlace(x);
    assert N.MapFix(x, x)[0] == ok.(reportState := "ERROR");
    assert N.MapFix(x, x)[1] == u;
  }

  /** Two results of one task lie together and form that task's group. */
  lemma TwoOfOneTask(a: R.BaseResult, b: R.BaseResult)
    requires a.taskName == b.taskName
    ensures N.Contiguous([a, b]) && N.Filter([a, b], a.taskName) == [a, b]
  {
    N.FilterAppend([a], [b], a.taskName);
    N.FilterSingle(a, a.taskName);
    N.FilterSingle(b, a.taskName);
    assert [a] + [b] == [a, b];
  }

  class MicrosoftTeams {
    const url: Option<S.Uri>
    const jobResult: Jobs.JobResult?
    const baseAddress: string

    constructor(url: Option<S.Uri>, jobResult: Jobs.JobResult?, parse: S.UriParser)
      requires Client(url, parse).Success?
      ensures this.url == url && this.jobResult == jobResult && baseAddress == BaseAddress(url)
    {
      this.url := url;
      this.jobResult := jobResult;
      baseAddress := BaseAddress(url);
    }

    /** Posts one HTML line per result; an undelivered message has the
        misspelt state OldErrorState (see MisspeltStateEscapes). */
    method SendMessage(results: seq<R.BaseResult>, post: SM.Post) returns (r: Result<R.BaseResult>)
      ensures r == SM.PostOutcome(SM.Lines(HtmlMessage, results), OldTeamsPayload, url, post, jobResult, SM.TeamsName, OldErrorState)
    {
      var lines := SM.BuildLines(HtmlMessage, results);
      r := SM.Deliver(lines, OldTeamsPayload, url, post, jobResult, SM.TeamsName, OldErrorState);
    }
  }
}
