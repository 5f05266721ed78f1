/**
 * The records the client exchanges with the remote service (skport/types.go),
 * as decoded values. A Go pointer field that may be nil is an `Option`.
 * JSON decoding itself (`json.Unmarshal`) and `url.QueryEscape` are library
 * code outside the model: `Codecs` carries them as given functions, a decode
 * failure being a `Failure` with the decoder's error text.
 */
module Types {
  import opened Wrappers

  /** The session credential produced by the three-step negotiation. */
  datatype Credentials = Credentials(cred: string, salt: string, userId: string)

  /** One in-game character bound to the account. */
  datatype Role = Role(gameRole: string, nickname: string, level: int, server: string,
                       serverId: string, roleId: string)

  // Credential negotiation

  datatype BasicInfoResponse = BasicInfoResponse(status: int, msg: string)

  datatype GrantRequest = GrantRequest(token: string, appCode: string, grantType: int)
  datatype GrantData = GrantData(code: string)
  datatype GrantResponse = GrantResponse(status: int, msg: string, data: Option<GrantData>)

  datatype CredRequest = CredRequest(code: string, kind: int)
  datatype CredData = CredData(cred: string, token: string, userId: string)
  datatype CredResponse = CredResponse(code: int, message: string, data: Option<CredData>)

  // Role discovery

  datatype BindingRole = BindingRole(nickname: string, level: int, serverName: string,
                                     serverId: string, roleId: string)
  datatype BindingEntry = BindingEntry(roles: seq<BindingRole>)
  datatype BindingApp = BindingApp(appCode: string, bindingList: seq<BindingEntry>)
  datatype BindingData = BindingData(list: seq<BindingApp>)
  datatype BindingResponse = BindingResponse(code: int, message: string, data: Option<BindingData>)

  // The attendance endpoint

  /** `records` are kept undecoded by the source (raw JSON); here they are the raw texts. */
  datatype StatusData = StatusData(hasToday: bool, records: seq<string>)
  datatype StatusResponse = StatusResponse(code: int, message: string, data: Option<StatusData>)

  datatype AwardId = AwardId(id: string)
  datatype ResourceInfo = ResourceInfo(name: string, count: int)
  datatype ClaimData = ClaimData(awardIds: seq<AwardId>, resourceInfoMap: map<string, ResourceInfo>)
  datatype ClaimResponse = ClaimResponse(code: int, message: string, data: Option<ClaimData>)

  /** `json.Unmarshal` into each response type, and `url.QueryEscape`. */
  datatype Codecs = Codecs(
    basicInfo: string -> Result<BasicInfoResponse, string>,
    grant: string -> Result<GrantResponse, string>,
    cred: string -> Result<CredResponse, string>,
    binding: string -> Result<BindingResponse, string>,
    status: string -> Result<StatusResponse, string>,
    claim: string -> Result<ClaimResponse, string>,
    queryEscape: string -> string)
}

/**
 * The transport as the model sees it: the answer the network gives to one
 * request, and the requests the client hands to it.
 */
module Http {
  /** What one `http.Client.Do` yields: a transport error, or a status and the body read. */
  datatype Attempt = NetErr(cause: string) | Resp(status: int, body: string)

  /** A request as handed to the transport. */
  datatype Request = Request(verb: string, url: string, headers: map<string, string>)

  /**
   * The environment of one logical call through the retry executor: the Unix
   * time the clock reads at attempt `k`, and the network's answer to attempt `k`.
   */
  datatype Exchange = Exchange(clock: nat -> int, reply: nat -> Attempt)
}
