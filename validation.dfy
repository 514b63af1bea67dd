/** The certificate callbacks: which TLS server certificates the
    distribution accepts (src/ValidationCallback.cs, and the older rule of
    src/ExecuteManager.cs). */
module CertificateValidation {
  import opened Wrappers
  import Text
  import S = ActionSettings

  /** A pinned certificate: the host it is for (none or empty: any host)
      and its thumbprint. */
  datatype SerThumbprint = SerThumbprint(url: Option<string>, thumbprint: Option<string>)

  /** The session cookie of a connection: its name (Key) and value; a
      null Key or Value is None. */
  datatype SerCredentials = SerCredentials(key: Option<string>, value: Option<string>)

  /** The parts of a Qlik connection configuration the distribution reads:
      the TLS settings (a null list of thumbprints is None, a null entry
      is None) and the credentials (None when null). */
  datatype SerConnection = SerConnection(sslVerify: bool, thumbprints: Option<seq<Option<SerThumbprint>>>,
                                         credentials: Option<SerCredentials>)

  /** Who asks: an HttpRequestMessage or HttpClient (whose URI may be
      missing), an HttpWebRequest (which always has an address), or
      anything else. */
  datatype Sender =
    | RequestMessage(requestUri: Option<S.Uri>)
    | Client(baseAddress: Option<S.Uri>)
    | WebRequest(address: S.Uri)
    | OtherSender

  /** The URI of the request the certificate is presented for. */
  function RequestUri(sender: Sender): (u: Option<S.Uri>)
    ensures sender.OtherSender? ==> u.None?
    ensures sender.WebRequest? ==> u == Some(sender.address)
  {
    match sender
    case RequestMessage(u) => u
    case Client(u) => u
    case WebRequest(u) => Some(u)
    case OtherSender => None
  }

  type UriParser = S.UriParser

  /** The policy errors of the handshake, as flags; 0 is None. */
  type PolicyErrors = nat

  /** A thumbprint as the callback compares it: without ':' and ' ',
      lower-cased. */
  function NormalizeThumbprint(t: string): (n: string)
    ensures forall i :: 0 <= i < |n| ==> n[i] != ':' && n[i] != ' ' && !('A' <= n[i] <= 'Z')
  {
    var stripped := Text.RemoveChar(Text.RemoveChar(t, ':'), ' ');
    assert forall i :: 0 <= i < |stripped| ==> stripped[i] != ':' && stripped[i] != ' ';
    Text.ToLower(stripped)
  }

  /** Whether one pinned entry accepts the certificate with hash `hash`
      (None: no certificate) for a request to `host`; None when checking
      the entry throws, which skips the entry. */
  function ItemAccepts(item: Option<SerThumbprint>, hash: Option<string>, host: string, parse: UriParser): (r: Option<bool>)
    ensures r.None? <==> item.None? || item.value.thumbprint.None? || hash.None?
                         || (item.value.url.Some? && item.value.url.value != "" && parse(item.value.url.value).None?)
    ensures r.Some? ==>
      (r.value <==>
        && NormalizeThumbprint(item.value.thumbprint.value) == Text.ToLower(hash.value)
        && (item.value.url.None? || item.value.url.value == ""
            || Text.ToLower(parse(item.value.url.value).value.host) == Text.ToLower(host)))
  {
    if item.None? then None
    else
      var uri: Option<Option<S.Uri>> :=
        if item.value.url.None? || item.value.url.value == "" then Some(None)
        else match parse(item.value.url.value)
          case None => None
          case Some(u) => Some(Some(u));
      if uri.None? || item.value.thumbprint.None? || hash.None? then None
      else
        Some(NormalizeThumbprint(item.value.thumbprint.value) == Text.ToLower(hash.value)
             && (uri.value.None? || Text.ToLower(uri.value.value.host) == Text.ToLower(host)))
  }

  /** The loop over the entries: true at the first entry that accepts. */
  function AnyAccepts(items: seq<Option<SerThumbprint>>, hash: Option<string>, host: string, parse: UriParser): (b: bool)
    ensures b <==> exists k :: 0 <= k < |items| && ItemAccepts(items[k], hash, host, parse) == Some(true)
  {
    if items == [] then false
    else if ItemAccepts(items[0], hash, host, parse) == Some(true) then true
    else
      var b := AnyAccepts(items[1..], hash, host, parse);
      assert forall k :: 1 <= k < |items| ==> items[k] == items[1..][k - 1];
      b
  }

  /** ValidationCallback.ValidateRemoteCertificate with the static
      connection `connection`: accept without policy errors or without
      verification; otherwise accept exactly when some entry's thumbprint
      matches and its host, if it names one, is the request's. A missing
      connection is an exception, which rejects. */
  function Validate(connection: Option<SerConnection>, sender: Sender, hash: Option<string>,
                    errors: PolicyErrors, parse: UriParser): (accept: bool)
    ensures errors == 0 ==> accept
    ensures errors != 0 ==>
      (accept <==>
        connection.Some? &&
        (!connection.value.sslVerify ||
         (RequestUri(sender).Some? &&
          exists k :: 0 <= k < |connection.value.thumbprints.GetOr([])| &&
            ItemAccepts(connection.value.thumbprints.GetOr([])[k], hash, RequestUri(sender).value.host, parse) == Some(true))))
  {
    if errors == 0 then true
    else if connection.None? then false
    else if !connection.value.sslVerify then true
    else match RequestUri(sender)
      case None => false
      case Some(u) => AnyAccepts(connection.value.thumbprints.GetOr([]), hash, u.host, parse)
  }

  /** Separators and case in the pinned thumbprint do not matter: an entry
      without URL whose thumbprint is the hash with ':' or ' ' inserted
      and in other case accepts. */
  lemma {:induction false} ThumbprintNormalized(t: string, hash: string, host: string, parse: UriParser)
    requires Text.ToLower(Text.RemoveChar(Text.RemoveChar(t, ':'), ' ')) == Text.ToLower(hash)
    ensures ItemAccepts(Some(SerThumbprint(None, Some(t))), Some(hash), host, parse) == Some(true)
    ensures ItemAccepts(Some(SerThumbprint(Some(""), Some(t))), Some(hash), host, parse) == Some(true)
  {
  }

  /** An entry that throws (null entry, bad URL, no thumbprint) does not
      stop a later entry from accepting. */
  lemma {:induction false} ThrowingEntrySkipped(items: seq<Option<SerThumbprint>>, hash: Option<string>, host: string,
                                               parse: UriParser, k: nat)
    requires k < |items| && ItemAccepts(items[k], hash, host, parse) == Some(true)
    ensures AnyAccepts([None] + items, hash, host, parse)
  {
    assert ([None] + items)[k + 1] == items[k];
  }

  /** ExecuteManager's entry check: the URL is required (a null or
      invalid URL throws), and the stripped thumbprint is compared with
      the hash exactly, in its case. */
  function LegacyItemAccepts(item: Option<SerThumbprint>, hash: Option<string>, host: string, parse: UriParser): (r: Option<bool>)
    ensures r.None? <==> item.None? || item.value.url.None? || parse(item.value.url.value).None?
                         || item.value.thumbprint.None? || hash.None?
    ensures item.Some? && item.value.url == Some("") ==> r.None?
    ensures r.Some? ==>
      (r.value <==>
        && Text.RemoveChar(Text.RemoveChar(item.value.thumbprint.value, ':'), ' ') == hash.value
        && Text.ToLower(parse(item.value.url.value).value.host) == Text.ToLower(host))
  {
    if item.None? || item.value.url.None? then None
    else match parse(item.value.url.value)
      case None => None
      case Some(u) =>
        if item.value.thumbprint.None? || hash.None? then None
        else Some(Text.RemoveChar(Text.RemoveChar(item.value.thumbprint.value, ':'), ' ') == hash.value
                  && Text.ToLower(u.host) == Text.ToLower(host))
  }

  function LegacyAnyAccepts(items: seq<Option<SerThumbprint>>, hash: Option<string>, host: string, parse: UriParser): (b: bool)
    ensures b <==> exists k :: 0 <= k < |items| && LegacyItemAccepts(items[k], hash, host, parse) == Some(true)
  {
    if items == [] then false
    else if LegacyItemAccepts(items[0], hash, host, parse) == Some(true) then true
    else
      var b := LegacyAnyAccepts(items[1..], hash, host, parse);
      assert forall k :: 1 <= k < |items| ==> items[k] == items[1..][k - 1];
      b
  }

  /** ExecuteManager.ValidateRemoteCertificate with the static
      GlobalConnection: nothing catches here, so a missing connection or
      a missing list of thumbprints throws out of the callback. */
  function LegacyValidate(connection: Option<SerConnection>, sender: Sender, hash: Option<string>,
                          errors: PolicyErrors, parse: UriParser): (accept: Result<bool>)
    ensures errors == 0 ==> accept == Success(true)
    ensures accept.Failure? <==>
      errors != 0 && (connection.None? ||
        (connection.value.sslVerify && RequestUri(sender).Some? && connection.value.thumbprints.None?))
    ensures accept.Failure? ==> accept.error == NullReferenceMessage
    ensures errors != 0 && accept.Success? ==>
      (accept.value <==>
        !connection.value.sslVerify ||
        (RequestUri(sender).Some? &&
         exists k :: 0 <= k < |connection.value.thumbprints.value| &&
           LegacyItemAccepts(connection.value.thumbprints.value[k], hash, RequestUri(sender).value.host, parse) == Some(true)))
  {
    if errors == 0 then Success(true)
    else if connection.None? then Failure(NullReferenceMessage)
    else if !connection.value.sslVerify then Success(true)
    else match RequestUri(sender)
      case None => Success(false)
      case Some(u) =>
        if connection.value.thumbprints.None? then Failure(NullReferenceMessage)
        else Success(LegacyAnyAccepts(connection.value.thumbprints.value, hash, u.host, parse))
  }

  /** The two rules differ: an entry without URL accepts any host under
      the newer rule and never under the older one, and the older rule
      refuses a thumbprint written in the other case. */
  lemma RulesDiffer(host: string, parse: UriParser, url: string)
    requires parse(url).Some? && Text.ToLower(parse(url).value.host) == Text.ToLower(host)
    ensures ItemAccepts(Some(SerThumbprint(None, Some("ab"))), Some("ab"), host, parse) == Some(true)
    ensures LegacyItemAccepts(Some(SerThumbprint(None, Some("ab"))), Some("ab"), host, parse).None?
    ensures ItemAccepts(Some(SerThumbprint(Some(url), Some("AB"))), Some("ab"), host, parse) == Some(true)
    ensures LegacyItemAccepts(Some(SerThumbprint(Some(url), Some("AB"))), Some("ab"), host, parse) == Some(false)
  {
    assert Text.RemoveChar("ab", ' ') == "ab" && Text.RemoveChar("ab", ':') == "ab";
    assert Text.RemoveChar("AB", ' ') == "AB" && Text.RemoveChar("AB", ':') == "AB";
    assert Text.ToLower("AB") == "ab" && Text.ToLower("ab") == "ab";
    assert "AB" != "ab";
  }
}
