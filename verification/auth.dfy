/**
 * The three-step credential negotiation (skport/auth.go): validate the
 * account token, obtain an OAuth grant code for it, and exchange the code for
 * the session credential. Each step is one plain HTTP call (no retry); the
 * network's answers are an input (`AuthNet`), the decoding of each body is
 * the matching `Codecs` decoder, and the requests the client issues are
 * recorded in order.
 */
module Auth {
  import opened Wrappers
  import opened Http
  import opened Types
  import opened Sign

  const UnknownError := "unknown error"
  const NoTokenError := "no account token supplied for OAuth flow"

  /**
   * `firstNonEmpty`: the first non-empty argument, or "unknown error" when
   * every argument is empty, so never the empty string.
   */
  function FirstNonEmpty(vals: seq<string>): (r: string)
    ensures r != ""
    ensures (forall i :: 0 <= i < |vals| ==> vals[i] == "") ==> r == UnknownError
    ensures (exists i :: 0 <= i < |vals| && vals[i] != "") ==>
      exists j :: 0 <= j < |vals| && vals[j] == r && forall k :: 0 <= k < j ==> vals[k] == ""
  {
    if vals == [] then UnknownError
    else if vals[0] != "" then vals[0]
    else
      var r := FirstNonEmpty(vals[1..]);
      assert forall i :: 1 <= i < |vals| ==> vals[i] == vals[1..][i - 1];
      r
  }

  /** A request the negotiation hands to the network. */
  datatype AuthRequest =
    | InfoGet(url: string)
    | GrantPost(url: string, grant: GrantRequest)
    | CredPost(url: string, exchange: CredRequest, headers: map<string, string>)

  /** The network's answers to the three calls (the HTTP status is not consulted). */
  datatype AuthNet = AuthNet(info: Attempt, grant: Attempt, cred: Attempt)

  /** The outcome of a negotiation and the requests it issued, in order. */
  datatype Negotiation = Negotiation(result: Result<Credentials, string>, issued: seq<AuthRequest>)

  /** The headers of the code-for-credential call; it is not signed. */
  const CredHeaders: map<string, string> := map[
    "Content-Type" := "application/json",
    "Accept" := "application/json",
    "Platform" := Platform,
    "Referer" := "https://www.skport.com/",
    "Origin" := "https://www.skport.com"]

  function InfoUrl(token: string, codecs: Codecs): string
  {
    BasicInfoURL + "?token=" + codecs.queryEscape(token)
  }

  // Acceptance condition of each step.

  /** Step 1 accepts when the body decodes and its status is zero. */
  predicate InfoAccepted(reply: Attempt, codecs: Codecs)
  {
    reply.Resp? && codecs.basicInfo(reply.body).Success?
    && codecs.basicInfo(reply.body).value.status == 0
  }

  /** Step 2 accepts when the body decodes, its status is zero and it carries a non-empty code. */
  predicate GrantAccepted(reply: Attempt, codecs: Codecs)
  {
    reply.Resp? && codecs.grant(reply.body).Success?
    && codecs.grant(reply.body).value.status == 0
    && codecs.grant(reply.body).value.data.Some?
    && codecs.grant(reply.body).value.data.value.code != ""
  }

  /** Step 3 accepts when the body decodes, its code is zero and it carries a non-empty cred. */
  predicate CredAccepted(reply: Attempt, codecs: Codecs)
  {
    reply.Resp? && codecs.cred(reply.body).Success?
    && codecs.cred(reply.body).value.code == 0
    && codecs.cred(reply.body).value.data.Some?
    && codecs.cred(reply.body).value.data.value.cred != ""
  }

  function GrantCode(reply: Attempt, codecs: Codecs): string
    requires GrantAccepted(reply, codecs)
  {
    codecs.grant(reply.body).value.data.value.code
  }

  function IssuedCredentials(reply: Attempt, codecs: Codecs): Credentials
    requires CredAccepted(reply, codecs)
  {
    var d := codecs.cred(reply.body).value.data.value;
    Credentials(d.cred, d.token, d.userId)
  }

  // The error each step reports.

  function InfoError(reply: Attempt, codecs: Codecs): (e: string)
    requires !InfoAccepted(reply, codecs)
  {
    if reply.NetErr? then "OAuth step 1 request failed: " + reply.cause
    else if codecs.basicInfo(reply.body).Failure? then
      "OAuth step 1 parse failed: " + codecs.basicInfo(reply.body).error
    else "OAuth step 1 failed: " + FirstNonEmpty([codecs.basicInfo(reply.body).value.msg, reply.body])
  }

  function GrantError(reply: Attempt, codecs: Codecs): (e: string)
    requires !GrantAccepted(reply, codecs)
  {
    if reply.NetErr? then "OAuth step 2 request failed: " + reply.cause
    else if codecs.grant(reply.body).Failure? then
      "OAuth step 2 parse failed: " + codecs.grant(reply.body).error
    else "OAuth step 2 failed: " + FirstNonEmpty([codecs.grant(reply.body).value.msg, reply.body])
  }

  function CredError(reply: Attempt, codecs: Codecs): (e: string)
    requires !CredAccepted(reply, codecs)
  {
    if reply.NetErr? then "OAuth step 3 request failed: " + reply.cause
    else if codecs.cred(reply.body).Failure? then
      "OAuth step 3 parse failed: " + codecs.cred(reply.body).error
    else "OAuth step 3 failed: " + FirstNonEmpty([codecs.cred(reply.body).value.message, reply.body])
  }

  /** The negotiation: validate, grant, exchange, stopping at the first rejection. */
  function Negotiate(token: string, net: AuthNet, codecs: Codecs): Negotiation
  {
    if token == "" then Negotiation(Failure(NoTokenError), [])
    else
      var validate := [InfoGet(InfoUrl(token, codecs))];
      if !InfoAccepted(net.info, codecs) then Negotiation(Failure(InfoError(net.info, codecs)), validate)
      else
        var grant := validate + [GrantPost(OAuthGrantURL, GrantRequest(token, AppCode, 0))];
        if !GrantAccepted(net.grant, codecs) then Negotiation(Failure(GrantError(net.grant, codecs)), grant)
        else
          var exchange := grant + [CredPost(GenerateCredURL, CredRequest(GrantCode(net.grant, codecs), 1), CredHeaders)];
          if !CredAccepted(net.cred, codecs) then Negotiation(Failure(CredError(net.cred, codecs)), exchange)
          else Negotiation(Success(IssuedCredentials(net.cred, codecs)), exchange)
  }

  /**
   * The steps run in order and stop at the first rejection: a step's request
   * is issued exactly when every earlier step accepted, the negotiation
   * succeeds exactly when all three accept, the credential then comes from
   * step 3's payload (its `token` becoming the salt), and a failure carries
   * the error of the step that rejected. Without a token nothing is sent.
   */
  lemma NegotiateSteps(token: string, net: AuthNet, codecs: Codecs)
    ensures var n := Negotiate(token, net, codecs);
      && (n.issued == [] <==> token == "")
      && (token == "" ==> n.result == Failure(NoTokenError))
      && |n.issued| <= 3
      && (|n.issued| >= 1 ==> n.issued[0] == InfoGet(InfoUrl(token, codecs)))
      && (|n.issued| >= 2 <==> token != "" && InfoAccepted(net.info, codecs))
      && (|n.issued| >= 2 ==> n.issued[1] == GrantPost(OAuthGrantURL, GrantRequest(token, AppCode, 0)))
      && (|n.issued| == 3 <==> token != "" && InfoAccepted(net.info, codecs) && GrantAccepted(net.grant, codecs))
      && (|n.issued| == 3 ==>
            n.issued[2] == CredPost(GenerateCredURL, CredRequest(GrantCode(net.grant, codecs), 1), CredHeaders))
      && (n.result.Success? <==> |n.issued| == 3 && CredAccepted(net.cred, codecs))
      && (n.result.Success? ==> n.result.value == IssuedCredentials(net.cred, codecs))
      && (|n.issued| == 1 ==> n.result == Failure(InfoError(net.info, codecs)))
      && (|n.issued| == 2 ==> n.result == Failure(GrantError(net.grant, codecs)))
      && (|n.issued| == 3 && n.result.Failure? ==> n.result == Failure(CredError(net.cred, codecs)))
  {
  }

  /** The two-argument form every caller uses: the message, else the body, else "unknown error". */
  lemma FirstNonEmptyPair(msg: string, body: string)
    ensures FirstNonEmpty([msg, body]) == if msg != "" then msg else if body != "" then body else UnknownError
  {
    if msg == "" {
      assert [msg, body][1..] == [body];
      if body == "" {
        assert [body][1..] == [];
      }
    }
  }

  /**
   * Step 3 checks only the cred: a payload with an empty token (salt) and an
   * empty user id is still accepted.
   */
  lemma EmptySaltAccepted(token: string, net: AuthNet, codecs: Codecs, cred: string)
    requires token != "" && InfoAccepted(net.info, codecs) && GrantAccepted(net.grant, codecs)
    requires net.cred.Resp? && cred != ""
    requires codecs.cred(net.cred.body) == Success(CredResponse(0, "", Some(CredData(cred, "", ""))))
    ensures Negotiate(token, net, codecs).result == Success(Credentials(cred, "", ""))
  {
  }

  /**
   * `Authenticate`: the same negotiation as a sequence of early returns,
   * one network call per step.
   */
  method Authenticate(accountToken: string, net: AuthNet, codecs: Codecs)
    returns (creds: Result<Credentials, string>, ghost issued: seq<AuthRequest>)
    ensures creds == Negotiate(accountToken, net, codecs).result
    ensures issued == Negotiate(accountToken, net, codecs).issued
  {
    if accountToken == "" {
      return Failure(NoTokenError), [];
    }

    // Validate the account token.
    var infoUrl := BasicInfoURL + "?token=" + codecs.queryEscape(accountToken);
    issued := [InfoGet(infoUrl)];
    var resp := net.info;
    if resp.NetErr? {
      return Failure("OAuth step 1 request failed: " + resp.cause), issued;
    }
    var body := resp.body;
    var infoResp := codecs.basicInfo(body);
    if infoResp.Failure? {
      return Failure("OAuth step 1 parse failed: " + infoResp.error), issued;
    }
    if infoResp.value.status != 0 {
      return Failure("OAuth step 1 failed: " + FirstNonEmpty([infoResp.value.msg, body])), issued;
    }

    // Trade the token for a grant code.
    issued := issued + [GrantPost(OAuthGrantURL, GrantRequest(accountToken, AppCode, 0))];
    var resp2 := net.grant;
    if resp2.NetErr? {
      return Failure("OAuth step 2 request failed: " + resp2.cause), issued;
    }
    var body2 := resp2.body;
    var grantResp := codecs.grant(body2);
    if grantResp.Failure? {
      return Failure("OAuth step 2 parse failed: " + grantResp.error), issued;
    }
    if grantResp.value.status != 0 || grantResp.value.data.None? || grantResp.value.data.value.code == "" {
      return Failure("OAuth step 2 failed: " + FirstNonEmpty([grantResp.value.msg, body2])), issued;
    }

    // Trade the grant code for the session credential.
    var credBody := CredRequest(grantResp.value.data.value.code, 1);
    var headers := map[];
    headers := headers["Content-Type" := "application/json"];
    headers := headers["Accept" := "application/json"];
    headers := headers["Platform" := Platform];
    headers := headers["Referer" := "https://www.skport.com/"];
    headers := headers["Origin" := "https://www.skport.com"];
    issued := issued + [CredPost(GenerateCredURL, credBody, headers)];
    var resp3 := net.cred;
    if resp3.NetErr? {
      return Failure("OAuth step 3 request failed: " + resp3.cause), issued;
    }
    var body3 := resp3.body;
    var credResp := codecs.cred(body3);
    if credResp.Failure? {
      return Failure("OAuth step 3 parse failed: " + credResp.error), issued;
    }
    if credResp.value.code != 0 || credResp.value.data.None? || credResp.value.data.value.cred == "" {
      return Failure("OAuth step 3 failed: " + FirstNonEmpty([credResp.value.message, body3])), issued;
    }

    var d := credResp.value.data.value;
    creds := Success(Credentials(d.cred, d.token, d.userId));
  }
}
