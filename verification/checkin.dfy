/**
 * The per-account work of skport/checkin.go: discover the account's Endfield
 * roles from the binding endpoint, then for each role read the attendance
 * status and, when today's reward is still open, claim it, logging the
 * outcome and handing the log to the notifier. Every call to the service goes
 * through the retry executor with a freshly signed request.
 */
module CheckIn {
  import opened Wrappers
  import opened Text
  import opened Http
  import opened Types
  import opened Sign
  import opened Notifier
  import opened Discord
  import opened Auth
  import opened Retry
  import opened Indexed

  const EndfieldAppCode := "endfield"
  const BindingPath := "/api/v1/game/player/binding"
  const AttendancePath := "/web/v1/game/endfield/attendance"
  const RoleDelayMs := 500

  const NoBindingError := "no Endfield account binding found"
  const NoRolesError := "no roles found in binding"

  // ---------------------------------------------------------------------
  // Role discovery (getPlayerRoles)
  // ---------------------------------------------------------------------

  /** The index of the first application entry whose code is "endfield". */
  function FindApp(apps: seq<BindingApp>): (r: Option<nat>)
    ensures r.Some? ==> r.value < |apps| && apps[r.value].appCode == EndfieldAppCode
    ensures r.Some? ==> forall k :: 0 <= k < r.value ==> apps[k].appCode != EndfieldAppCode
    ensures r.None? <==> forall k :: 0 <= k < |apps| ==> apps[k].appCode != EndfieldAppCode
  {
    if apps == [] then None
    else if apps[0].appCode == EndfieldAppCode then Some(0)
    else
      match FindApp(apps[1..])
      case None => None
      case Some(i) => Some(i + 1)
  }

  /** The composite role identifier the service expects: `<game>_<role>_<server>`. */
  function GameRoleId(r: BindingRole): string
  {
    GameID + "_" + r.roleId + "_" + r.serverId
  }

  function ToRole(r: BindingRole): Role
  {
    Role(GameRoleId(r), r.nickname, r.level, r.serverName, r.serverId, r.roleId)
  }

  function ToRoles(rs: seq<BindingRole>): seq<Role>
  {
    seq(|rs|, i requires 0 <= i < |rs| => ToRole(rs[i]))
  }

  /** The roles of all binding entries, entry by entry, each entry's roles in order. */
  function FlattenRoles(es: seq<BindingEntry>): seq<Role>
  {
    if es == [] then [] else FlattenRoles(es[..|es| - 1]) + ToRoles(es[|es| - 1].roles)
  }

  /** Flattening distributes over concatenation of entry lists: order is kept. */
  lemma {:induction false} FlattenRolesAppend(a: seq<BindingEntry>, b: seq<BindingEntry>)
    ensures FlattenRoles(a + b) == FlattenRoles(a) + FlattenRoles(b)
    decreases |b|
  {
    if b == [] {
      assert a + b == a;
    } else {
      var ab := a + b;
      var last := b[|b| - 1];
      FlattenRolesAppend(a, b[..|b| - 1]);
      assert ab[..|ab| - 1] == a + b[..|b| - 1] && ab[|ab| - 1] == last;
      assert FlattenRoles(ab) == FlattenRoles(ab[..|ab| - 1]) + ToRoles(last.roles);
      assert FlattenRoles(b) == FlattenRoles(b[..|b| - 1]) + ToRoles(last.roles);
    }
  }

  lemma FlattenRolesSingle(e: BindingEntry)
    ensures FlattenRoles([e]) == ToRoles(e.roles)
  {
    assert [e][..0] == [];
  }

  /** No role is found exactly when every binding entry has an empty role list. */
  lemma {:induction false} FlattenRolesEmpty(es: seq<BindingEntry>)
    ensures FlattenRoles(es) == [] <==> forall i :: 0 <= i < |es| ==> es[i].roles == []
  {
    if es != [] {
      var init := es[..|es| - 1];
      FlattenRolesEmpty(init);
      assert forall i :: 0 <= i < |init| ==> init[i] == es[i];
    }
  }

  /**
   * The composite identifier splits back into the game id, the role id and
   * the server id, provided neither id contains an underscore.
   */
  lemma GameRoleIdSplits(r: BindingRole)
    requires '_' !in r.roleId && '_' !in r.serverId
    ensures Split(GameRoleId(r), '_') == [GameID, r.roleId, r.serverId]
  {
    var parts := [GameID, r.roleId, r.serverId];
    assert Join(parts[2..], "_") == r.serverId;
    assert Join(parts[1..], "_") == r.roleId + "_" + r.serverId;
    assert Join(parts, "_") == GameRoleId(r);
    SplitJoin(parts, '_');
  }

  /** The binding response names no Endfield application with a non-empty binding list. */
  predicate NoEndfieldBinding(resp: BindingResponse)
  {
    || resp.data.None?
    || FindApp(resp.data.value.list).None?
    || resp.data.value.list[FindApp(resp.data.value.list).value].bindingList == []
  }

  function EndfieldBindings(resp: BindingResponse): seq<BindingEntry>
    requires !NoEndfieldBinding(resp)
  {
    resp.data.value.list[FindApp(resp.data.value.list).value].bindingList
  }

  /**
   * The roles a decoded binding response yields: an API error, no Endfield
   * binding, no roles, or the non-empty list of roles of the first Endfield
   * application, in order.
   */
  function RolesFromBinding(resp: BindingResponse, body: string): Result<seq<Role>, string>
  {
    if resp.code != 0 then Failure("binding API error: " + FirstNonEmpty([resp.message, body]))
    else if NoEndfieldBinding(resp) then Failure(NoBindingError)
    else
      var roles := FlattenRoles(EndfieldBindings(resp));
      if roles == [] then Failure(NoRolesError) else Success(roles)
  }

  /**
   * The four error cases and the success case of role selection: an API
   * error (with the message fallback); no Endfield binding (nil data, no
   * "endfield" application, or an empty binding list); no roles; otherwise
   * the non-empty roles of the first Endfield application, in order.
   */
  lemma RolesFromBindingFacts(resp: BindingResponse, body: string)
    ensures var r := RolesFromBinding(resp, body);
      && (resp.code != 0 ==> r == Failure("binding API error: " + FirstNonEmpty([resp.message, body])))
      && (resp.code == 0 && NoEndfieldBinding(resp) ==> r == Failure(NoBindingError))
      && (r.Success? <==> resp.code == 0 && !NoEndfieldBinding(resp) && FlattenRoles(EndfieldBindings(resp)) != [])
      && (r.Success? ==> r.value == FlattenRoles(EndfieldBindings(resp)) && |r.value| > 0)
      && (resp.code == 0 && !NoEndfieldBinding(resp) && r.Failure? ==> r.error == NoRolesError)
  {
  }

  /** What `getPlayerRoles` yields, given the network's answers to the binding call. */
  function PlayerRoles(codecs: Codecs, reply: nat -> Attempt): Result<seq<Role>, string>
  {
    match RetryOutcome(reply)
    case Failure(e) => Failure("binding request failed: " + e)
    case Success(body) =>
      match codecs.binding(body)
      case Failure(e) => Failure("binding parse failed: " + e)
      case Success(resp) => RolesFromBinding(resp, body)
  }

  /**
   * A failed binding call is reported as such, an undecodable body as a
   * parse failure, and a decoded body as role selection decides; a success
   * is never an empty role list.
   */
  lemma PlayerRolesFacts(codecs: Codecs, reply: nat -> Attempt)
    ensures var r := PlayerRoles(codecs, reply);
      && (RetryOutcome(reply).Failure? ==> r == Failure("binding request failed: " + RetryOutcome(reply).error))
      && (RetryOutcome(reply).Success? && codecs.binding(RetryOutcome(reply).value).Failure? ==>
            r == Failure("binding parse failed: " + codecs.binding(RetryOutcome(reply).value).error))
      && (RetryOutcome(reply).Success? && codecs.binding(RetryOutcome(reply).value).Success? ==>
            r == RolesFromBinding(codecs.binding(RetryOutcome(reply).value).value, RetryOutcome(reply).value))
      && (r.Success? ==> |r.value| > 0)
  {
    match RetryOutcome(reply)
    case Failure(_) =>
    case Success(body) =>
      if codecs.binding(body).Success? {
        RolesFromBindingFacts(codecs.binding(body).value, body);
      }
  }

  /** The binding request built for attempt `k`: signed, without a role. */
  function BindingRequest(cred: string, salt: string, suite: HashSuite, clock: nat -> int, k: nat): Request
  {
    SignedRequest("GET", BindingURL, BindingPath, cred, "", salt, suite, clock(k))
  }

  /**
   * `getPlayerRoles`: one retried, signed GET of the binding endpoint, then
   * the decoding and selection of the roles.
   */
  method GetPlayerRoles(cred: string, salt: string, suite: HashSuite, codecs: Codecs, binding: Exchange)
    returns (roles: Result<seq<Role>, string>, ghost sent: seq<Request>)
    ensures roles == PlayerRoles(codecs, binding.reply)
    ensures |sent| == AttemptCount(binding.reply)
    ensures forall k :: 0 <= k < |sent| ==> sent[k] == BindingRequest(cred, salt, suite, binding.clock, k)
    ensures sent == BindingAttempts(cred, salt, suite, binding)
  {
    var body;
    ghost var delays;
    body, sent, delays := DoWithRetry(k => BindingRequest(cred, salt, suite, binding.clock, k), binding.reply);
    SignedAttemptsExt(sent, "GET", BindingURL, BindingPath, cred, "", salt, suite, binding.clock, |sent|);
    if body.Failure? {
      return Failure("binding request failed: " + body.error), sent;
    }
    var result := codecs.binding(body.value);
    if result.Failure? {
      return Failure("binding parse failed: " + result.error), sent;
    }
    roles := SelectRoles(result.value, body.value);
  }

  /** The part of `getPlayerRoles` after decoding: the search and the two nested loops. */
  method SelectRoles(result: BindingResponse, body: string) returns (r: Result<seq<Role>, string>)
    ensures r == RolesFromBinding(result, body)
  {
    if result.code != 0 {
      return Failure("binding API error: " + FirstNonEmpty([result.message, body]));
    }
    if result.data.None? {
      return Failure(NoBindingError);
    }
    var list := result.data.value.list;
    var endfieldApp: Option<nat> := None;
    var i := 0;
    while i < |list|
      invariant 0 <= i <= |list|
      invariant endfieldApp.None? ==> forall k :: 0 <= k < i ==> list[k].appCode != EndfieldAppCode
      invariant endfieldApp.Some? ==> endfieldApp == FindApp(list)
    {
      if list[i].appCode == EndfieldAppCode {
        endfieldApp := Some(i);
        assert FindApp(list) == Some(i);
        break;
      }
      i := i + 1;
    }
    if endfieldApp.None? || list[endfieldApp.value].bindingList == [] {
      return Failure(NoBindingError);
    }
    var bindings := list[endfieldApp.value].bindingList;
    var roles: seq<Role> := [];
    for j := 0 to |bindings|
      invariant roles == FlattenRoles(bindings[..j])
    {
      var rs := bindings[j].roles;
      for k := 0 to |rs|
        invariant roles == FlattenRoles(bindings[..j]) + ToRoles(rs[..k])
      {
        var role := Role(GameID + "_" + rs[k].roleId + "_" + rs[k].serverId,
                         rs[k].nickname, rs[k].level, rs[k].serverName, rs[k].serverId, rs[k].roleId);
        assert ToRoles(rs[..k + 1]) == ToRoles(rs[..k]) + [role];
        roles := roles + [role];
      }
      assert rs[..|rs|] == rs;
      assert bindings[..j + 1][..j] == bindings[..j];
    }
    assert bindings[..|bindings|] == bindings;
    if |roles| == 0 {
      return Failure(NoRolesError);
    }
    return Success(roles);
  }

  // ---------------------------------------------------------------------
  // Rewards of a successful claim
  // ---------------------------------------------------------------------

  /** One reward as logged: `<name> x<count>`. */
  function RewardText(info: ResourceInfo): string
  {
    info.name + " x" + IntToString(info.count)
  }

  /** The awards that resolve in the resource map, in award order; the others are skipped. */
  function Rewards(awards: seq<AwardId>, infos: map<string, ResourceInfo>): seq<string>
  {
    if awards == [] then []
    else
      var last := awards[|awards| - 1];
      Rewards(awards[..|awards| - 1], infos) + (if last.id in infos then [RewardText(infos[last.id])] else [])
  }

  function ClaimRewards(data: Option<ClaimData>): seq<string>
  {
    if data.None? then [] else Rewards(data.value.awardIds, data.value.resourceInfoMap)
  }

  const AlreadyCheckedIn := "  \U{2192} Already checked in today"
  const RewardsPrefix := "  \U{2192} Checked in! Rewards: "
  const CheckedIn := "  \U{2192} Successfully checked in!"

  /** The closing line of a successful claim: the rewards joined by ", ", or a plain success line. */
  function ClaimMessage(rewards: seq<string>): string
  {
    if |rewards| > 0 then RewardsPrefix + Join(rewards, ", ") else CheckedIn
  }

  /** Resolving a concatenation of award lists concatenates the rewards: award order is kept. */
  lemma {:induction false} RewardsAppend(a: seq<AwardId>, b: seq<AwardId>, infos: map<string, ResourceInfo>)
    ensures Rewards(a + b, infos) == Rewards(a, infos) + Rewards(b, infos)
    decreases |b|
  {
    if b == [] {
      assert a + b == a;
    } else {
      RewardsAppend(a, b[..|b| - 1], infos);
      assert (a + b)[..|a + b| - 1] == a + b[..|b| - 1];
    }
  }

  /** A reward is listed exactly when some award resolves to it. */
  lemma {:induction false} RewardsMembers(awards: seq<AwardId>, infos: map<string, ResourceInfo>)
    ensures forall x :: x in Rewards(awards, infos) <==>
      exists i :: 0 <= i < |awards| && awards[i].id in infos && x == RewardText(infos[awards[i].id])
  {
    if awards != [] {
      var init := awards[..|awards| - 1];
      var last := awards[|awards| - 1];
      RewardsMembers(init, infos);
      assert forall i :: 0 <= i < |init| ==> init[i] == awards[i];
      assert Rewards(awards, infos) == Rewards(init, infos) + (if last.id in infos then [RewardText(infos[last.id])] else []);
    }
  }

  /** There is at most one reward per award, and one per award exactly when every award resolves. */
  lemma {:induction false} RewardsLength(awards: seq<AwardId>, infos: map<string, ResourceInfo>)
    ensures |Rewards(awards, infos)| <= |awards|
    ensures |Rewards(awards, infos)| == |awards| <==> forall i :: 0 <= i < |awards| ==> awards[i].id in infos
  {
    if awards != [] {
      var init := awards[..|awards| - 1];
      RewardsLength(init, infos);
      assert forall i :: 0 <= i < |init| ==> init[i] == awards[i];
    }
  }

  /** Two awards of which only the first resolves give exactly one reward line. */
  lemma OneOfTwoResolves(a: string, b: string, info: ResourceInfo)
    requires a != b
    ensures Rewards([AwardId(a), AwardId(b)], map[a := info]) == [RewardText(info)]
  {
    var infos := map[a := info];
    assert [AwardId(a), AwardId(b)][..1] == [AwardId(a)];
    assert [AwardId(a)][..0] == [];
    assert Rewards([AwardId(a)], infos) == [RewardText(info)];
    assert b !in infos;
  }

  /** A claim awarding one resolvable id logs that reward as `<name> x<count>`. */
  lemma SingleRewardLine()
    ensures ClaimMessage(ClaimRewards(Some(ClaimData([AwardId("a1")], map["a1" := ResourceInfo("Gold", 100)]))))
      == "  \U{2192} Checked in! Rewards: Gold x100"
  {
    var infos := map["a1" := ResourceInfo("Gold", 100)];
    assert [AwardId("a1")][..0] == [];
    assert IntToString(100) == "100" by {
      assert NatToString(1) == "1";
      assert NatToString(10) == "10";
    }
    assert RewardText(infos["a1"]) == "Gold x100";
    assert Rewards([AwardId("a1")], infos) == Rewards([], infos) + [RewardText(infos["a1"])];
  }

  /** The resolution loop of `checkInRole`. */
  method ResolveRewards(data: Option<ClaimData>) returns (rewards: seq<string>)
    ensures rewards == ClaimRewards(data)
  {
    rewards := [];
    if data.Some? {
      var awards := data.value.awardIds;
      var infos := data.value.resourceInfoMap;
      for i := 0 to |awards|
        invariant rewards == Rewards(awards[..i], infos)
      {
        assert awards[..i + 1][..i] == awards[..i];
        var award := awards[i];
        if award.id in infos {
          var info := infos[award.id];
          rewards := rewards + [info.name + " x" + IntToString(info.count)];
        }
      }
      assert awards[..|awards|] == awards;
    }
  }

  // ---------------------------------------------------------------------
  // One role's check-in (checkInRole, sendNotification)
  // ---------------------------------------------------------------------

  const StatusRequestFailed := "  \U{2192} Attendance check request failed: "
  const StatusParseFailed := "  \U{2192} Attendance check parse failed: "
  const StatusCheckFailed := "  \U{2192} Attendance status check failed: "
  const ClaimRequestFailed := "  \U{2192} Attendance claim request failed: "
  const ClaimParseFailed := "  \U{2192} Attendance claim parse failed: "
  const ClaimFailed := "  \U{2192} Claim failed: "

  /** The network's answers for one role: the status call, the claim call and the webhook POST. */
  datatype RoleEnv = RoleEnv(status: Exchange, claim: Exchange, webhook: Attempt)

  /** What the attendance status says: an error to log, already claimed today, or claimable. */
  datatype StatusOutcome = StatusError(text: string) | AlreadyClaimed | Claimable

  function AttendanceStatus(codecs: Codecs, reply: nat -> Attempt): StatusOutcome
  {
    match RetryOutcome(reply)
    case Failure(e) => StatusError(StatusRequestFailed + e)
    case Success(body) =>
      match codecs.status(body)
      case Failure(e) => StatusError(StatusParseFailed + e)
      case Success(st) =>
        if st.code != 0 then StatusError(StatusCheckFailed + FirstNonEmpty([st.message, body]))
        else if st.data.Some? && st.data.value.hasToday then AlreadyClaimed
        else Claimable
  }

  /**
   * Only a status payload saying `hasToday` skips the claim: a successful
   * status answer without a payload, or with `hasToday` false, is claimable.
   */
  lemma StatusWithoutTodayClaims(codecs: Codecs, reply: nat -> Attempt)
    requires RetryOutcome(reply).Success?
    requires codecs.status(RetryOutcome(reply).value).Success?
    ensures var st := codecs.status(RetryOutcome(reply).value).value;
      st.code == 0 ==>
        (AttendanceStatus(codecs, reply) == AlreadyClaimed <==> st.data.Some? && st.data.value.hasToday)
        && (AttendanceStatus(codecs, reply) == Claimable <==> st.data.None? || !st.data.value.hasToday)
  {
  }

  /** The outcome of the claim call: the closing line to log, or the error to log. */
  function ClaimOutcome(codecs: Codecs, reply: nat -> Attempt): Result<string, string>
  {
    match RetryOutcome(reply)
    case Failure(e) => Failure(ClaimRequestFailed + e)
    case Success(body) =>
      match codecs.claim(body)
      case Failure(e) => Failure(ClaimParseFailed + e)
      case Success(cl) =>
        if cl.code != 0 then Failure(ClaimFailed + FirstNonEmpty([cl.message, body]))
        else Success(ClaimMessage(ClaimRewards(cl.data)))
  }

  /** What one role's check-in leaves: its log, whether the claim was attempted, whether the log was handed to the notifier. */
  datatype CheckInReport = CheckInReport(messages: seq<Message>, claimAttempted: bool, notified: bool)

  function Opening(accountIndex: int, roleLabel: string): Message
  {
    Message(InfoLevel, "Account " + IntToString(accountIndex) + " - " + roleLabel)
  }

  /** One role's check-in, from the answers of the network. */
  function CheckInRun(codecs: Codecs, notify: bool, notifyNoOps: bool, opening: Message, env: RoleEnv): CheckInReport
  {
    var status := AttendanceStatus(codecs, env.status.reply);
    var claim := if status == Claimable then ClaimOutcome(codecs, env.claim.reply) else Failure("");
    CheckInReport([opening, OutcomeLine(status, claim)], status == Claimable,
                  notify && (status != AlreadyClaimed || notifyNoOps))
  }

  /**
   * The log of a check-in always holds the opening line and exactly one
   * outcome line, an error exactly when the status or the claim failed; the
   * claim is attempted only when the status call succeeds and today is not
   * yet claimed; the log goes to the notifier (when there is one) in every
   * case except an already-claimed day with no-op notifications off.
   */
  lemma CheckInRunFacts(codecs: Codecs, notify: bool, notifyNoOps: bool, opening: Message, env: RoleEnv)
    ensures var c := CheckInRun(codecs, notify, notifyNoOps, opening, env);
      var status := AttendanceStatus(codecs, env.status.reply);
      && |c.messages| == 2 && c.messages[0] == opening
      && (c.claimAttempted <==> status == Claimable)
      && (c.notified <==> notify && (status != AlreadyClaimed || notifyNoOps))
      && (c.messages[1].level == ErrorLevel <==>
            status.StatusError? || (c.claimAttempted && ClaimOutcome(codecs, env.claim.reply).Failure?))
      && c.messages[1].level in {InfoLevel, ErrorLevel}
      && (status == AlreadyClaimed ==> c.messages[1] == Message(InfoLevel, AlreadyCheckedIn))
      && (c.claimAttempted && ClaimOutcome(codecs, env.claim.reply).Success? ==>
            c.messages[1] == Message(InfoLevel, ClaimOutcome(codecs, env.claim.reply).value))
  {
  }

  /** The outcome line: the status error, the already-claimed note, or the claim's error or closing line. */
  function OutcomeLine(status: StatusOutcome, claim: Result<string, string>): (m: Message)
    ensures m.level == ErrorLevel <==> status.StatusError? || (status == Claimable && claim.Failure?)
    ensures m.level == InfoLevel <==> m.level != ErrorLevel
  {
    match status
    case StatusError(e) => Message(ErrorLevel, e)
    case AlreadyClaimed => Message(InfoLevel, AlreadyCheckedIn)
    case Claimable => if claim.Failure? then Message(ErrorLevel, claim.error) else Message(InfoLevel, claim.value)
  }

  /** The attendance request built for attempt `k`: signed, for the role. */
  function AttendanceRequest(verb: string, cred: string, gameRole: string, salt: string, suite: HashSuite,
                             clock: nat -> int, k: nat): Request
  {
    SignedRequest(verb, AttendanceURL, AttendancePath, cred, gameRole, salt, suite, clock(k))
  }

  /** The requests of one retried attendance call: one per attempt, signed at that attempt's clock reading. */
  function AttendanceAttempts(verb: string, cred: string, gameRole: string, salt: string, suite: HashSuite,
                              ex: Exchange): seq<Request>
  {
    SignedAttempts(verb, AttendanceURL, AttendancePath, cred, gameRole, salt, suite, ex.clock, AttemptCount(ex.reply))
  }

  /** The content that reaches the webhook once the log is handed to the notifier: none for an invalid URL. */
  function Posted(notifier: Option<Discord>, messages: seq<Message>): Option<string>
  {
    if notifier.Some? && ValidWebhookUrl(notifier.value.webhookUrl) then Some(Content(notifier.value.userId, messages))
    else None
  }

  /** What one role's check-in sends: the status attempts, the claim attempts, and the content posted. */
  datatype RoleTraffic = RoleTraffic(statusSent: seq<Request>, claimSent: seq<Request>, posted: Option<string>)

  /**
   * The traffic of one role's check-in: the status call and, when the claim
   * is made, the claim call, both signed with the session's credential and
   * salt for the role; the log is posted when the check-in notifies.
   */
  function CheckInTraffic(cred: string, salt: string, suite: HashSuite, codecs: Codecs, notifier: Option<Discord>,
                          notifyNoOps: bool, opening: Message, gameRole: string, env: RoleEnv): RoleTraffic
  {
    var run := CheckInRun(codecs, notifier.Some?, notifyNoOps, opening, env);
    RoleTraffic(AttendanceAttempts("GET", cred, gameRole, salt, suite, env.status),
                if run.claimAttempted then AttendanceAttempts("POST", cred, gameRole, salt, suite, env.claim) else [],
                if run.notified then Posted(notifier, run.messages) else None)
  }

  /**
   * `sendNotification`: with no notifier nothing happens; otherwise the log
   * goes to `Send`, whose error is reported (on standard error) and not
   * propagated.
   */
  method SendNotification(log: MessageLog, notifier: Option<Discord>, reply: Attempt)
    returns (err: Option<string>, ghost handed: bool, ghost posted: Option<string>)
    ensures handed <==> notifier.Some?
    ensures notifier.None? ==> err == None
    ensures notifier.Some? && !ValidWebhookUrl(notifier.value.webhookUrl) ==> err == Some(InvalidUrlError)
    ensures notifier.Some? && ValidWebhookUrl(notifier.value.webhookUrl) ==> err == DeliveryError(reply)
    ensures posted == if notifier.Some? && ValidWebhookUrl(notifier.value.webhookUrl)
      then Some(Content(notifier.value.userId, log.messages)) else None
  {
    if notifier.None? {
      return None, false, None;
    }
    handed := true;
    err, posted := Send(notifier.value, log, reply);
  }

  /**
   * The status half of `checkInRole`: one retried, signed GET of the
   * attendance endpoint, then the decoding of the status.
   */
  method CheckStatus(cred: string, salt: string, suite: HashSuite, codecs: Codecs, gameRole: string, status: Exchange)
    returns (outcome: StatusOutcome, ghost sent: seq<Request>)
    ensures outcome == AttendanceStatus(codecs, status.reply)
    ensures |sent| == AttemptCount(status.reply)
    ensures forall k :: 0 <= k < |sent| ==> sent[k] == AttendanceRequest("GET", cred, gameRole, salt, suite, status.clock, k)
    ensures sent == AttendanceAttempts("GET", cred, gameRole, salt, suite, status)
  {
    var body;
    ghost var delays;
    body, sent, delays := DoWithRetry(k => AttendanceRequest("GET", cred, gameRole, salt, suite, status.clock, k), status.reply);
    SignedAttemptsExt(sent, "GET", AttendanceURL, AttendancePath, cred, gameRole, salt, suite, status.clock, |sent|);
    if body.Failure? {
      return StatusError(StatusRequestFailed + body.error), sent;
    }
    var st := codecs.status(body.value);
    if st.Failure? {
      return StatusError(StatusParseFailed + st.error), sent;
    }
    if st.value.code != 0 {
      return StatusError(StatusCheckFailed + FirstNonEmpty([st.value.message, body.value])), sent;
    }
    if st.value.data.Some? && st.value.data.value.hasToday {
      return AlreadyClaimed, sent;
    }
    outcome := Claimable;
  }

  /**
   * The claim half of `checkInRole`: one retried, signed POST of the
   * attendance endpoint, the decoding of the answer, and the rewards line.
   */
  method Claim(cred: string, salt: string, suite: HashSuite, codecs: Codecs, gameRole: string, claim: Exchange)
    returns (outcome: Result<string, string>, ghost sent: seq<Request>)
    ensures outcome == ClaimOutcome(codecs, claim.reply)
    ensures |sent| == AttemptCount(claim.reply)
    ensures forall k :: 0 <= k < |sent| ==> sent[k] == AttendanceRequest("POST", cred, gameRole, salt, suite, claim.clock, k)
    ensures sent == AttendanceAttempts("POST", cred, gameRole, salt, suite, claim)
  {
    var claimBody;
    ghost var delays;
    claimBody, sent, delays := DoWithRetry(k => AttendanceRequest("POST", cred, gameRole, salt, suite, claim.clock, k), claim.reply);
    SignedAttemptsExt(sent, "POST", AttendanceURL, AttendancePath, cred, gameRole, salt, suite, claim.clock, |sent|);
    if claimBody.Failure? {
      return Failure(ClaimRequestFailed + claimBody.error), sent;
    }
    var cl := codecs.claim(claimBody.value);
    if cl.Failure? {
      return Failure(ClaimParseFailed + cl.error), sent;
    }
    if cl.value.code != 0 {
      return Failure(ClaimFailed + FirstNonEmpty([cl.value.message, claimBody.value])), sent;
    }
    var rewards := ResolveRewards(cl.value.data);
    if |rewards| > 0 {
      outcome := Success(RewardsPrefix + Join(rewards, ", "));
    } else {
      outcome := Success(CheckedIn);
    }
  }

  /**
   * `checkInRole`: logs the opening line, reads the status, claims when the
   * day is open, logs the outcome and notifies. The requests it issues are
   * the status attempts and, when the claim is attempted, the claim
   * attempts, each signed for the role.
   */
  method CheckInRole(cred: string, salt: string, suite: HashSuite, codecs: Codecs, role: Role, roleLabel: string,
                     accountIndex: int, notifier: Option<Discord>, notifyNoOps: bool, env: RoleEnv)
    returns (log: MessageLog, ghost claimAttempted: bool, ghost notified: bool,
             ghost statusSent: seq<Request>, ghost claimSent: seq<Request>, ghost posted: Option<string>)
    ensures fresh(log) && log.Valid()
    ensures CheckInReport(log.messages, claimAttempted, notified)
      == CheckInRun(codecs, notifier.Some?, notifyNoOps, Opening(accountIndex, roleLabel), env)
    ensures log.hasError <==> log.messages[1].level == ErrorLevel
    ensures statusSent == AttendanceAttempts("GET", cred, role.gameRole, salt, suite, env.status)
    ensures claimSent == if claimAttempted then AttendanceAttempts("POST", cred, role.gameRole, salt, suite, env.claim) else []
    ensures posted == if notified then Posted(notifier, log.messages) else None
  {
    log := new MessageLog();
    log.Info("Account " + IntToString(accountIndex) + " - " + roleLabel);
    ghost var opening := Opening(accountIndex, roleLabel);
    assert log.messages == [opening] && !log.hasError;
    claimAttempted, claimSent := false, [];
    var status;
    status, statusSent := CheckStatus(cred, salt, suite, codecs, role.gameRole, env.status);
    var claim: Result<string, string> := Failure("");
    if status.Claimable? {
      claimAttempted := true;
      claim, claimSent := Claim(cred, salt, suite, codecs, role.gameRole, env.claim);
    }
    var line := OutcomeLine(status, claim);
    if line.level == ErrorLevel {
      log.Error(line.text);
    } else {
      log.Info(line.text);
    }
    assert log.messages == [opening, line];
    assert log.hasError <==> line.level == ErrorLevel;
    notified, posted := false, None;
    // An already-claimed day is reported only when no-op notifications are on.
    if status != AlreadyClaimed || notifyNoOps {
      var sendErr;
      sendErr, notified, posted := SendNotification(log, notifier, env.webhook);
    }
  }

  // ---------------------------------------------------------------------
  // One account (RunAccount)
  // ---------------------------------------------------------------------

  /** The network's answers for one account: the negotiation, the binding call, and each role's calls. */
  datatype AccountEnv = AccountEnv(auth: AuthNet, binding: Exchange, roles: nat -> RoleEnv)

  /** How a role is named in the log: `<nickname> (Lv.<level>) [<server>]`. */
  function Label(role: Role): string
  {
    role.nickname + " (Lv." + IntToString(role.level) + ") [" + role.server + "]"
  }

  /** An account fails exactly when the negotiation or the role discovery fails. */
  predicate AccountFails(token: string, codecs: Codecs, env: AccountEnv)
  {
    Negotiate(token, env.auth, codecs).result.Failure? || PlayerRoles(codecs, env.binding.reply).Failure?
  }

  /** The requests of the retried binding call: one per attempt, signed at that attempt's clock reading. */
  function BindingAttempts(cred: string, salt: string, suite: HashSuite, binding: Exchange): seq<Request>
  {
    SignedAttempts("GET", BindingURL, BindingPath, cred, "", salt, suite, binding.clock, AttemptCount(binding.reply))
  }

  /**
   * What one account's run leaves behind: the negotiation's requests, the
   * binding attempts, each role's report and traffic, and the pauses
   * between roles.
   */
  datatype AccountTrace = AccountTrace(issued: seq<AuthRequest>, bindingSent: seq<Request>,
                                       reports: seq<CheckInReport>, traffic: seq<RoleTraffic>, pauses: seq<nat>)

  /**
   * One account's run: the negotiation, then (once it succeeds) role
   * discovery signed with the session, then (once roles are found) each
   * role's check-in with the same session, labelled with the account index.
   */
  function AccountTraceOf(token: string, index: int, notifier: Option<Discord>, notifyNoOps: bool,
                          suite: HashSuite, codecs: Codecs, env: AccountEnv): AccountTrace
  {
    var n := Negotiate(token, env.auth, codecs);
    if n.result.Failure? then AccountTrace(n.issued, [], [], [], [])
    else
      var c := n.result.value;
      var sent := BindingAttempts(c.cred, c.salt, suite, env.binding);
      var found := PlayerRoles(codecs, env.binding.reply);
      if found.Failure? then AccountTrace(n.issued, sent, [], [], [])
      else
        var roles := found.value;
        AccountTrace(n.issued, sent, RoleReports(codecs, notifier.Some?, notifyNoOps, index, roles, env.roles),
                     RolesTraffic(c.cred, c.salt, suite, codecs, notifier, notifyNoOps, index, roles, env.roles),
                     RolePauses(|roles|))
  }

  /** Role `i`'s check-in under the account's opening line, as the role loop runs it. */
  function RoleReport(codecs: Codecs, notify: bool, notifyNoOps: bool, index: int, envs: nat -> RoleEnv)
    : (nat, Role) -> CheckInReport
  {
    (i: nat, role: Role) => CheckInRun(codecs, notify, notifyNoOps, Opening(index, Label(role)), envs(i))
  }

  /** The reports of the role loop: each role's check-in, in order. */
  function RoleReports(codecs: Codecs, notify: bool, notifyNoOps: bool, index: int, roles: seq<Role>,
                       envs: nat -> RoleEnv): seq<CheckInReport>
  {
    MapIndexed(roles, RoleReport(codecs, notify, notifyNoOps, index, envs))
  }

  /** Role `i`'s report is its own check-in, under the account's opening line. */
  lemma RoleReportsAt(codecs: Codecs, notify: bool, notifyNoOps: bool, index: int, roles: seq<Role>,
                      envs: nat -> RoleEnv)
    ensures var rs := RoleReports(codecs, notify, notifyNoOps, index, roles, envs);
      && |rs| == |roles|
      && forall i :: 0 <= i < |roles| ==> rs[i] == CheckInRun(codecs, notify, notifyNoOps, Opening(index, Label(roles[i])), envs(i))
  {
  }

  /** Role `i`'s traffic, signed with the session for that role, as the role loop runs it. */
  function RoleTrafficFor(cred: string, salt: string, suite: HashSuite, codecs: Codecs, notifier: Option<Discord>,
                          notifyNoOps: bool, index: int, envs: nat -> RoleEnv): (nat, Role) -> RoleTraffic
  {
    (i: nat, role: Role) =>
      CheckInTraffic(cred, salt, suite, codecs, notifier, notifyNoOps, Opening(index, Label(role)), role.gameRole, envs(i))
  }

  /** The traffic of the role loop: each role's calls, in order. */
  function RolesTraffic(cred: string, salt: string, suite: HashSuite, codecs: Codecs, notifier: Option<Discord>,
                        notifyNoOps: bool, index: int, roles: seq<Role>, envs: nat -> RoleEnv): seq<RoleTraffic>
  {
    MapIndexed(roles, RoleTrafficFor(cred, salt, suite, codecs, notifier, notifyNoOps, index, envs))
  }

  /** Role `i`'s traffic is its own check-in's, signed for that role. */
  lemma RolesTrafficAt(cred: string, salt: string, suite: HashSuite, codecs: Codecs, notifier: Option<Discord>,
                       notifyNoOps: bool, index: int, roles: seq<Role>, envs: nat -> RoleEnv)
    ensures var ts := RolesTraffic(cred, salt, suite, codecs, notifier, notifyNoOps, index, roles, envs);
      && |ts| == |roles|
      && forall i :: 0 <= i < |roles| ==>
           ts[i] == CheckInTraffic(cred, salt, suite, codecs, notifier, notifyNoOps, Opening(index, Label(roles[i])),
                                   roles[i].gameRole, envs(i))
  {
  }

  /** The pauses of the role loop: one between each two consecutive roles. */
  function RolePauses(n: nat): seq<nat>
  {
    seq(if n == 0 then 0 else n - 1, _ => RoleDelayMs)
  }

  /**
   * The negotiation's requests are always recorded; the binding call is made
   * once the negotiation succeeds; when the account does not fail, every
   * role found is checked in, in order, under the account's opening line,
   * with a half-second pause between consecutive roles; otherwise no role is.
   */
  lemma AccountTraceFacts(token: string, index: int, notifier: Option<Discord>, notifyNoOps: bool,
                          suite: HashSuite, codecs: Codecs, env: AccountEnv)
    ensures var t := AccountTraceOf(token, index, notifier, notifyNoOps, suite, codecs, env);
      var n := Negotiate(token, env.auth, codecs);
      && t.issued == n.issued
      && (n.result.Failure? ==> t.bindingSent == [])
      && (n.result.Success? ==> |t.bindingSent| == AttemptCount(env.binding.reply))
      && (AccountFails(token, codecs, env) ==> t.reports == [] && t.traffic == [] && t.pauses == [])
      && (!AccountFails(token, codecs, env) ==>
            var roles := PlayerRoles(codecs, env.binding.reply).value;
            && |t.reports| == |roles| && |t.traffic| == |roles| && |roles| > 0
            && (forall i :: 0 <= i < |roles| ==>
                  t.reports[i] == CheckInRun(codecs, notifier.Some?, notifyNoOps, Opening(index, Label(roles[i])), env.roles(i)))
            && |t.pauses| == |roles| - 1
            && (forall i :: 0 <= i < |t.pauses| ==> t.pauses[i] == RoleDelayMs))
  {
    PlayerRolesFacts(codecs, env.binding.reply);
    if !AccountFails(token, codecs, env) {
      var roles := PlayerRoles(codecs, env.binding.reply).value;
      var c := Negotiate(token, env.auth, codecs).result.value;
      RoleReportsAt(codecs, notifier.Some?, notifyNoOps, index, roles, env.roles);
      RolesTrafficAt(c.cred, c.salt, suite, codecs, notifier, notifyNoOps, index, roles, env.roles);
    }
  }

  /** Both calls of one role's check-in are signed with the session for that role. */
  lemma CheckInTrafficSigned(c: Credentials, suite: HashSuite, codecs: Codecs, notifier: Option<Discord>,
                             notifyNoOps: bool, opening: Message, gameRole: string, env: RoleEnv)
    ensures var t := CheckInTraffic(c.cred, c.salt, suite, codecs, notifier, notifyNoOps, opening, gameRole, env);
      && (forall k :: 0 <= k < |t.statusSent| ==> SignedWith(t.statusSent[k], suite, c, AttendancePath, gameRole))
      && (forall k :: 0 <= k < |t.claimSent| ==> SignedWith(t.claimSent[k], suite, c, AttendancePath, gameRole))
  {
    SignedAttemptsWith("GET", AttendanceURL, AttendancePath, c, gameRole, suite, env.status.clock,
                       AttemptCount(env.status.reply));
    SignedAttemptsWith("POST", AttendanceURL, AttendancePath, c, gameRole, suite, env.claim.clock,
                       AttemptCount(env.claim.reply));
  }

  /**
   * Every request an account makes after the negotiation is signed with the
   * negotiated session: the binding attempts without a role, and each role's
   * status and claim attempts for that role.
   */
  lemma SessionSignsEveryRequest(token: string, index: int, notifier: Option<Discord>, notifyNoOps: bool,
                                 suite: HashSuite, codecs: Codecs, env: AccountEnv)
    requires Negotiate(token, env.auth, codecs).result.Success?
    ensures var t := AccountTraceOf(token, index, notifier, notifyNoOps, suite, codecs, env);
      var c := Negotiate(token, env.auth, codecs).result.value;
      && (forall k :: 0 <= k < |t.bindingSent| ==> SignedWith(t.bindingSent[k], suite, c, BindingPath, ""))
      && (PlayerRoles(codecs, env.binding.reply).Success? ==>
            var roles := PlayerRoles(codecs, env.binding.reply).value;
            && |t.traffic| == |roles|
            && forall i :: 0 <= i < |roles| ==>
                 && (forall k :: 0 <= k < |t.traffic[i].statusSent| ==>
                       SignedWith(t.traffic[i].statusSent[k], suite, c, AttendancePath, roles[i].gameRole))
                 && (forall k :: 0 <= k < |t.traffic[i].claimSent| ==>
                       SignedWith(t.traffic[i].claimSent[k], suite, c, AttendancePath, roles[i].gameRole)))
  {
    var c := Negotiate(token, env.auth, codecs).result.value;
    SignedAttemptsWith("GET", BindingURL, BindingPath, c, "", suite, env.binding.clock, AttemptCount(env.binding.reply));
    if PlayerRoles(codecs, env.binding.reply).Success? {
      var roles := PlayerRoles(codecs, env.binding.reply).value;
      var traffic := RolesTraffic(c.cred, c.salt, suite, codecs, notifier, notifyNoOps, index, roles, env.roles);
      RolesTrafficAt(c.cred, c.salt, suite, codecs, notifier, notifyNoOps, index, roles, env.roles);
      forall i | 0 <= i < |roles|
        ensures && (forall k :: 0 <= k < |traffic[i].statusSent| ==>
                      SignedWith(traffic[i].statusSent[k], suite, c, AttendancePath, roles[i].gameRole))
                && (forall k :: 0 <= k < |traffic[i].claimSent| ==>
                      SignedWith(traffic[i].claimSent[k], suite, c, AttendancePath, roles[i].gameRole))
      {
        CheckInTrafficSigned(c, suite, codecs, notifier, notifyNoOps, Opening(index, Label(roles[i])),
                             roles[i].gameRole, env.roles(i));
      }
    }
  }

  /**
   * `RunAccount`: negotiates the credential, discovers the roles and checks
   * every role in, in order, pausing half a second between roles. Only a
   * negotiation or discovery failure is returned; a role's failed check-in
   * is logged and notified, never returned.
   */
  method RunAccount(token: string, index: int, notifier: Option<Discord>, notifyNoOps: bool,
                    suite: HashSuite, codecs: Codecs, env: AccountEnv)
    returns (err: Option<string>, ghost trace: AccountTrace)
    ensures err.Some? <==> AccountFails(token, codecs, env)
    ensures Negotiate(token, env.auth, codecs).result.Failure? ==>
      err == Some(Negotiate(token, env.auth, codecs).result.error)
    ensures Negotiate(token, env.auth, codecs).result.Success? && PlayerRoles(codecs, env.binding.reply).Failure? ==>
      err == Some(PlayerRoles(codecs, env.binding.reply).error)
    ensures trace == AccountTraceOf(token, index, notifier, notifyNoOps, suite, codecs, env)
  {
    var creds;
    ghost var issued;
    creds, issued := Authenticate(token, env.auth, codecs);
    if creds.Failure? {
      return Some(creds.error), AccountTrace(issued, [], [], [], []);
    }
    var roles;
    ghost var sent;
    roles, sent := GetPlayerRoles(creds.value.cred, creds.value.salt, suite, codecs, env.binding);
    if roles.Failure? {
      return Some(roles.error), AccountTrace(issued, sent, [], [], []);
    }
    ghost var reports, traffic, pauses;
    reports, traffic, pauses := CheckInRoles(creds.value.cred, creds.value.salt, suite, codecs, roles.value, index,
                                             notifier, notifyNoOps, env.roles);
    trace := AccountTrace(issued, sent, reports, traffic, pauses);
    err := None;
  }

  /** One role's turn in `RunAccount`: its label, then its check-in. */
  method RoleTurn(cred: string, salt: string, suite: HashSuite, codecs: Codecs, role: Role, index: int,
                  notifier: Option<Discord>, notifyNoOps: bool, env: RoleEnv)
    returns (ghost report: CheckInReport, ghost traffic: RoleTraffic)
    ensures report == CheckInRun(codecs, notifier.Some?, notifyNoOps, Opening(index, Label(role)), env)
    ensures traffic == CheckInTraffic(cred, salt, suite, codecs, notifier, notifyNoOps, Opening(index, Label(role)),
                                      role.gameRole, env)
  {
    var roleLabel := role.nickname + " (Lv." + IntToString(role.level) + ") [" + role.server + "]";
    var log;
    ghost var claimAttempted, notified, statusSent, claimSent, posted;
    log, claimAttempted, notified, statusSent, claimSent, posted :=
      CheckInRole(cred, salt, suite, codecs, role, roleLabel, index, notifier, notifyNoOps, env);
    report := CheckInReport(log.messages, claimAttempted, notified);
    traffic := RoleTraffic(statusSent, claimSent, posted);
  }

  /**
   * The role loop of `RunAccount`: every role checked in, in order, with a
   * half-second pause between consecutive roles.
   */
  method CheckInRoles(cred: string, salt: string, suite: HashSuite, codecs: Codecs, roles: seq<Role>, index: int,
                      notifier: Option<Discord>, notifyNoOps: bool, envs: nat -> RoleEnv)
    returns (ghost reports: seq<CheckInReport>, ghost traffic: seq<RoleTraffic>, ghost pauses: seq<nat>)
    ensures reports == RoleReports(codecs, notifier.Some?, notifyNoOps, index, roles, envs)
    ensures traffic == RolesTraffic(cred, salt, suite, codecs, notifier, notifyNoOps, index, roles, envs)
    ensures pauses == RolePauses(|roles|)
  {
    reports, traffic, pauses := [], [], [];
    for i := 0 to |roles|
      invariant reports == RoleReports(codecs, notifier.Some?, notifyNoOps, index, roles[..i], envs)
      invariant traffic == RolesTraffic(cred, salt, suite, codecs, notifier, notifyNoOps, index, roles[..i], envs)
      invariant |pauses| == (if 0 < i == |roles| then i - 1 else i)
      invariant forall k :: 0 <= k < |pauses| ==> pauses[k] == RoleDelayMs
    {
      ghost var report, roleTraffic := RoleTurn(cred, salt, suite, codecs, roles[i], index, notifier, notifyNoOps, envs(i));
      MapIndexedStep(roles, i, RoleReport(codecs, notifier.Some?, notifyNoOps, index, envs));
      MapIndexedStep(roles, i, RoleTrafficFor(cred, salt, suite, codecs, notifier, notifyNoOps, index, envs));
      reports, traffic := reports + [report], traffic + [roleTraffic];
      if i < |roles| - 1 {
        pauses := pauses + [RoleDelayMs];
      }
    }
    assert roles[..|roles|] == roles;
  }

}
