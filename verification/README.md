# endfield-daily: a Dafny model of the daily check-in client

endfield-daily signs in to the SKPort service once a day for each configured
account and claims the Arknights: Endfield daily attendance reward for every
game role bound to that account. It can also post a summary to a Discord
webhook. This project models the client-side protocol layer and its glue:

- `Sign` (skport/sign.go): the protocol constants and the standard header set
  (`BuildHeaders`). It also covers the V2 request signature
  `hex(MD5(hex(HMAC-SHA256(salt, path + timestamp + headerJSON))))`. The
  JSON header object and the lower-case hex encoding are written out. HMAC
  (RFC 2104) over SHA-256 (FIPS 180-4) and MD5 (RFC 1321) come from a
  `HashSuite` and are known only by their output lengths.
- `Auth` (skport/auth.go): the three-step credential negotiation (validate the
  token, obtain an OAuth grant code, exchange it for the session credential),
  plus `firstNonEmpty`.
- `Retry` (skport/checkin.go): `doWithRetry`, the bounded retry executor, and
  the freshly signed request its factory builds on each attempt.
- `CheckIn` (skport/checkin.go): role discovery (`getPlayerRoles`), one role's
  attendance check and claim (`checkInRole`, `sendNotification`), and one
  account's run (`RunAccount`).
- `Notifier` (notify/notifier.go): the append-only `MessageLog` with its
  monotonic error flag, as a class.
- `Discord` (notify/discord.go): webhook URL validation, the content string
  and the reading of the webhook's status.
- `Runner` (main.go): `parseTokens` and `runOnce`.
- `Text`, `Types`, `Http` and `Wrappers` are supporting modules:
  - Go's string and number formatting.
  - The decoded JSON shapes of skport/types.go.
  - The network's answers (`Attempt`: a transport error, or a status and body).
  - `Option`/`Result`.

The network is an input. Each signed call takes an `Exchange`: the clock
reading and the answer for each attempt. The negotiation takes the three
answers it would get. Decoding a body is a `Codecs` decoder that may fail.
Requests issued, pauses requested and webhook content posted are recorded
in ghost outputs, so the contracts can say what was sent, how it was signed,
what was posted, and in which order within each kind. Pauses are recorded
in sequences of their own (see "Left out").

## Model

| member | source | states |
|---|---|---|
| Text.TrimSpace | main.go:112 | the result is the slice of the input between a leading and a trailing run of white space, and neither starts nor ends with white space |
| Text.TrimSpaceSlice | main.go:112 | cutting the leading white space and then the trailing white space leaves the slice of the input between the two runs, starting and ending with non-space |
| Text.TrimSpaceIdempotent | main.go:112-114 | trimming an already trimmed line changes nothing |
| Text.Split | main.go:111 | splitting on `c` gives one more piece than there are `c`s, none of which contains `c` |
| Text.JoinSplit | main.go:111 | joining the pieces of a split with the separator gives back the input |
| Text.SplitJoin | main.go:111 | splitting the join of separator-free pieces gives back the pieces |
| Text.IntToString | skport/checkin.go:68 | `%d` formatting: a sign exactly for negatives, then decimal digits |
| Text.ParseNatToString | skport/sign.go:29-31 | the decimal text of a natural number reads back as that number |
| Text.IntToStringInjective | skport/checkin.go:68 | distinct integers print differently |
| Sign.Timestamp | skport/sign.go:29-31 | the timestamp is non-empty decimal text (digits and an optional minus sign) |
| Sign.HexDecodeEncode | skport/sign.go:70-73 | lower-case `%x` encoding is invertible: decoding recovers the bytes |
| Sign.JsonEscapeSafe | skport/sign.go:65 | `json.Marshal` copies a string of safe runes unchanged |
| Sign.HeaderJsonText | skport/sign.go:54-65 | the serialised header object is `{"platform":"3","timestamp":"<ts>","dId":"","vName":"1.0.0"}` with the fields in that order |
| Sign.SignMessageText | skport/sign.go:54-66 | the HMAC'd text is exactly path + ts + that header object; the salt is not part of it |
| Sign.TimestampIsJsonSafe | skport/sign.go:29-31 | every timestamp `Timestamp` produces is serialised without escapes |
| Sign.SignMessageInjective | skport/sign.go:66 | distinct (path, timestamp) pairs never give the same signed text |
| Sign.HmacHex | skport/sign.go:68-70 | the intermediate is 64 lower-case hex runes that decode to the HMAC of the signed text under the salt |
| Sign.ComputeSignV2 | skport/sign.go:53-74 | the signature is 32 lower-case hex runes that decode to the MD5 of the HMAC hex |
| Sign.FixedHeaders | skport/sign.go:35-45 | exactly the ten fixed headers; Cred and Timestamp carry the arguments, the other eight the protocol constants |
| Sign.StandardHeaderKeys | skport/sign.go:34-50 | the ten fixed names, plus Sk-Game-Role exactly when a role is given; 10 or 11 keys |
| Sign.StandardHeaderValues | skport/sign.go:34-50 | every fixed header keeps its fixed value whether or not a role is added; the role header carries the role |
| Sign.BuildHeaders | skport/sign.go:34-50 | the successive `Set` calls yield exactly the standard header set |
| Notifier.MessageLog.constructor | notify/notifier.go:11-15 | the zero-value log is empty, with the error flag down |
| Notifier.MessageLog.Info | notify/notifier.go:18-21 | appends exactly one info message at the end, keeps earlier messages and the error flag |
| Notifier.MessageLog.Error | notify/notifier.go:24-28 | appends exactly one error message at the end, keeps earlier messages, raises the flag; the flag stays equal to "some message is an error" |
| Discord.LinesAppend | notify/discord.go:28-30 | the lines of a concatenated log are the concatenated lines (log order is kept) |
| Discord.LinesSingle | notify/discord.go:29 | one message gives exactly one `(LEVEL) text` line |
| Discord.LevelLines | notify/discord.go:29 | an info message prints as `(INFO) text` and an error message as `(ERROR) text`, each on its own line |
| Discord.MentionFirst | notify/discord.go:24-26 | the content starts with `<@id>\n` iff a user id is set |
| Discord.HeadingAfterMention | notify/discord.go:24-28 | the heading comes right after the optional mention, and the message lines follow it |
| Discord.DeliveryError | notify/discord.go:33-42 | after the POST, success iff the status is 204; otherwise the transport or status error |
| Discord.BuildContent | notify/discord.go:23-30 | the builder produces the mention, heading and one line per message |
| Discord.WriteLines | notify/discord.go:28-30 | the loop appends the lines of all messages in log order |
| Discord.Send | notify/discord.go:18-43 | the invalid-URL error iff the trimmed, lower-cased URL lacks the webhook prefix, with nothing posted; otherwise the content is posted, and success iff the status is 204 |
| Auth.FirstNonEmpty | skport/auth.go:90-97 | the first non-empty argument, else "unknown error"; never empty |
| Auth.FirstNonEmptyPair | skport/auth.go:31-33 | the two-argument fallback: message, else body, else "unknown error" |
| Auth.NegotiateSteps | skport/auth.go:13-88 | no request without a token; validate, grant and exchange are issued in order, each iff all earlier steps accepted; the exact grant and exchange bodies; success iff all three accept; credentials from step 3; the failing step's error |
| Auth.EmptySaltAccepted | skport/auth.go:79-87 | step 3 rejects only on code, missing payload or empty cred; an empty token and user id are accepted |
| Auth.Authenticate | skport/auth.go:13-88 | the early-return method computes exactly the negotiation's result and issued requests |
| Retry.AttemptCountFacts | skport/checkin.go:52-72 | 1 to 4 attempts; every attempt but the last is retryable; the last is not retryable unless four were made |
| Retry.AttemptCountUnique | skport/checkin.go:52-72 | the attempt count is determined by those properties |
| Retry.RetryOutcomeFacts | skport/checkin.go:52-73 | success iff one of the four attempts is non-retryable (status below 500, 4xx included), with the first such body; else all four retried and the last attempt's error |
| Retry.BackoffDoubles | skport/checkin.go:49-54 | the pauses are 1s, then doubling |
| Retry.DoWithRetry | skport/checkin.go:47-74 | returns the retry outcome; calls the factory once per attempt, in attempt order; pauses only before retries, `1000·2^(k)` ms before retry k+1 |
| Retry.SignedRequestSignature | skport/checkin.go:77-85 | a signed request's Sign header is the signature over its path, the very timestamp in its Timestamp header, and the salt |
| Retry.SignedRequestKeys | skport/checkin.go:80-83 | a signed request carries exactly the standard headers plus Sign, with the given verb and URL |
| Retry.SignedRequestIdentity | skport/checkin.go:80-81 | Cred is the credential; Sk-Game-Role is present iff a role is given, and equals it |
| Retry.SignedRequestWith | skport/checkin.go:77-85 | a request built for a session carries the session's cred, the role header iff a role is given, and a Sign that is the signature over the path, its own Timestamp header and the session's salt |
| Retry.SignedAttemptsWith | skport/checkin.go:47-85 | every attempt of a retried signed call, each with its own clock reading, is signed that way |
| CheckIn.FindApp | skport/checkin.go:102-108 | the index of the first `endfield` application, or none iff there is none |
| CheckIn.FlattenRolesAppend | skport/checkin.go:113-125 | flattening keeps binding order and role order |
| CheckIn.FlattenRolesSingle | skport/checkin.go:114-124 | one binding entry contributes its roles, converted one for one |
| CheckIn.FlattenRolesEmpty | skport/checkin.go:113-128 | no roles iff every binding entry has no roles |
| CheckIn.GameRoleIdSplits | skport/checkin.go:117 | the composite id splits back into GameID, RoleID and ServerID |
| CheckIn.RolesFromBindingFacts | skport/checkin.go:94-129 | API error with the message fallback; no binding (nil data, no endfield app, empty binding list); no roles; otherwise the non-empty flattened roles |
| CheckIn.PlayerRolesFacts | skport/checkin.go:76-130 | a failed retried request is reported as a binding request failure, an undecodable body as a parse failure; a decoded body is judged by the binding rules; a success is never an empty role list |
| CheckIn.SelectRoles | skport/checkin.go:94-129 | the search loop and the nested loops compute exactly the role selection |
| CheckIn.GetPlayerRoles | skport/checkin.go:76-130 | computes the role discovery result; the requests sent are exactly one role-less binding GET per attempt, signed with the cred and salt at that attempt's clock reading |
| CheckIn.RewardsAppend | skport/checkin.go:207-214 | resolving concatenated award lists concatenates the rewards (award order is kept) |
| CheckIn.RewardsMembers | skport/checkin.go:207-214 | a reward is listed iff some award id resolves to it in the resource map |
| CheckIn.RewardsLength | skport/checkin.go:209-213 | at most one reward per award; one per award iff every id resolves |
| CheckIn.OneOfTwoResolves | skport/checkin.go:210-212 | an unresolved award id is skipped |
| CheckIn.SingleRewardLine | skport/checkin.go:207-217 | one award resolving to Gold x100 is logged as `  → Checked in! Rewards: Gold x100` |
| CheckIn.ResolveRewards | skport/checkin.go:207-214 | the loop computes the resolved rewards; none for a nil payload |
| CheckIn.StatusWithoutTodayClaims | skport/checkin.go:160-176 | with code 0, the claim is skipped iff the payload is present and says hasToday; nil data falls through to the claim |
| CheckIn.CheckInRunFacts | skport/checkin.go:132-222 | the log is the opening line plus one outcome line, an error iff the status or the claim failed; claim attempted iff the status is claimable; notified iff there is a notifier and the day was not already claimed, or no-op notification is on |
| CheckIn.OutcomeLine | skport/checkin.go:146-220 | the outcome line is at error level iff the status failed or the attempted claim failed |
| CheckIn.SendNotification | skport/checkin.go:224-231 | nothing without a notifier; otherwise exactly what `Send` does, and the error goes nowhere else |
| CheckIn.CheckStatus | skport/checkin.go:136-174 | computes the attendance status; the requests sent are exactly one attendance GET per attempt, signed for the role with the cred and salt |
| CheckIn.Claim | skport/checkin.go:176-220 | computes the claim outcome and closing line; the requests sent are exactly one attendance POST per attempt, signed for the role with the cred and salt |
| CheckIn.CheckInRole | skport/checkin.go:132-222 | the log, claim and notification decisions are those of the check-in run; the error flag is up iff the outcome line is an error; the status GETs, and the claim POSTs iff the claim is attempted, are the signed attempts for the role; `notified` is what `SendNotification` reports, and what it posts is the Discord content of this role's log exactly when notified with a valid webhook URL |
| CheckIn.CheckInTrafficSigned | skport/checkin.go:136-220 | every status and claim request of one role's check-in is signed with the session's cred and salt for that role's game role |
| CheckIn.CheckInRoles | skport/checkin.go:33-39 | role `i` in order gives the check-in run of its label `<nickname> (Lv.<level>) [<server>]` under the account index, with its own requests and posted content; a 500 ms pause between consecutive roles, none after the last |
| CheckIn.RunAccount | skport/checkin.go:16-41 | an error iff negotiation or role discovery fails, and then that very error; role failures never propagate; what the account sends is its account trace |
| CheckIn.AccountTraceFacts | skport/checkin.go:16-41 | the negotiation's requests come first; no binding request unless negotiation succeeded, one per attempt if it did; no role checked in when the account fails; otherwise every discovered role (at least one) is checked in, in order, with its label and the account index, and len(roles)-1 pauses are taken |
| CheckIn.SessionSignsEveryRequest | skport/checkin.go:17-38 | once negotiation succeeds, every binding request is signed with the negotiated cred and salt and no role, and every status and claim request of role `i` with that cred and salt and role `i`'s game role |
| Runner.NonEmptyAppend | main.go:110-119 | dropping empty strings keeps order across concatenation |
| Runner.NonEmptyMembers | main.go:116-118 | a string is kept iff it occurs and is not empty |
| Runner.TokensOfMembers | main.go:109-121 | a token is exactly a non-empty decoding of some line; never more tokens than lines |
| Runner.TokensOfAppend | main.go:111-119 | tokens follow line order |
| Runner.BlankLineDropped | main.go:112-118 | a line of only white space gives no token |
| Runner.UndecodableLineKept | main.go:112-115 | a trimmed line that fails to unescape is used as it is |
| Runner.ParseTokens | main.go:109-121 | the loop computes the tokens of the newline-split input; at most one more than the number of newlines |
| Runner.AnyFailsExists | main.go:93-97 | the accumulated flag is true iff some account failed |
| Runner.NotifierFor | main.go:84-91 | a Discord notifier iff DISCORD_WEBHOOK is set, with that URL and DISCORD_USER |
| Runner.RunAccounts | main.go:93-101 | the loop's flag is up iff some account failed; the traces are, in token order, those of `RunAccount` on token `i` with index `i + 1` and the shared notifier settings; len(tokens)-1 one-second pauses |
| Runner.RunOnce | main.go:83-107 | has-error iff some account's `RunAccount` fails; account `i` runs with index `i + 1`, the notifier built from DISCORD_WEBHOOK and DISCORD_USER, and no-op notification iff NOTIFY_NO_OPS is set; a 1 s pause between accounts, len(tokens)-1 times |

## Left out

- HTTP transport (`http.Get`, `http.Post`, `http.DefaultClient.Do`, `io.ReadAll`): replaced by the network's answers as inputs. The HTTP status of the three negotiation calls is not consulted, as in the source.
- `time.Sleep` and the wall clock: pauses are recorded in ghost sequences, and the clock is a per-attempt input to `Timestamp`.
- HMAC-SHA256 and MD5: supplied as functions known only by their output lengths. So the property that changing the salt changes the signature, which depends on collision resistance, is not stated. Only the injectivity of the signed text (`Sign.SignMessageInjective`) is.
- `encoding/json` decoding and `url.QueryEscape`/`url.QueryUnescape`: given functions (`Codecs`, the `unescape` parameter), where a failed decode is an explicit error. The two request bodies (`{token, appCode, type}`, `{code, kind}`) are kept as records, not serialised. The Discord payload `{"content": ...}` is left as the content string.
- Sign.JsonEscapeRune: written as Go 1.22 and later escape strings (with `\b` and `\f`). Only safe runes are ever fed to it by `Timestamp`.
- Text.ToLower: exact for ASCII and for the two non-ASCII runes whose lower case is ASCII (U+0130, U+212A). Other runes are left unchanged, which cannot affect a comparison with the ASCII webhook prefix.
- Text.ToUpper: maps ASCII only. Non-ASCII levels are never logged (levels are `info` and `error`, see `Discord.LevelLines`).
- Attendance `records` are kept as raw strings, since no logic reads them.
- The `main` scheduler (cron via gronx, signal handling, health-check server, `os.Exit`), and all printing to stdout/stderr.
- The `Notifier` interface is the single Discord implementation, `Option<Discord>` (`None` when no webhook is set).
- `checkInRole` is written as two phases, `CheckStatus` and `Claim`, called from `CheckInRole`. The status-then-claim order and every branch are kept.
- Discord.HeadingAfterMention: states the heading's single write and its position. It does not state that the heading text occurs nowhere else, since a logged message may itself contain it.
- Auth.EmptySaltAccepted: step 3's answer carries the cred, the token (used as the salt) and the user id, but skport/auth.go:79 rejects it only for a non-zero code, a missing payload or an empty cred. An empty token or user id is accepted, and the model follows the code.
- Interleaving of pauses and requests: pauses are kept in their own ghost sequences (`pauses` of an account trace, of `CheckInRoles` and of `RunOnce`), apart from the request sequences. Their count, length and position between consecutive roles or accounts are stated. That each pause falls between the last request of one role or account and the first of the next follows from the loop shape but is not stated as one combined timeline.
- The order between the status GETs, the claim POSTs and the webhook POST of one role is given by which sequence holds them and by the phase order of `CheckInRole`, not by a single merged sequence.
