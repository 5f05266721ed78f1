/**
 * One scheduled run of the program (main.go): the parsing of the
 * newline-separated token list, and `runOnce`, which reads the notification
 * settings and runs every account in turn. The environment variables are
 * passed in as strings (an unset variable reads as ""), `url.QueryUnescape`
 * is a given function (`None` when it fails), and the network's answers for
 * account `i` are `accounts(i)`.
 */
module Runner {
  import opened Wrappers
  import opened Text
  import opened Types
  import opened Sign
  import opened Discord
  import opened CheckIn
  import opened Indexed

  const AccountDelayMs := 1000

  // ---------------------------------------------------------------------
  // parseTokens
  // ---------------------------------------------------------------------

  /** The token a line gives: the trimmed line, unescaped, or as trimmed when unescaping fails. */
  function Decoded(line: string, unescape: string -> Option<string>): string
  {
    var trimmed := TrimSpace(line);
    match unescape(trimmed)
    case Some(decoded) => decoded
    case None => trimmed
  }

  /** The non-empty strings of `ds`, in order. */
  function NonEmpty(ds: seq<string>): (r: seq<string>)
    ensures |r| <= |ds|
    ensures forall i :: 0 <= i < |r| ==> r[i] != ""
  {
    if ds == [] then []
    else NonEmpty(ds[..|ds| - 1]) + (if ds[|ds| - 1] != "" then [ds[|ds| - 1]] else [])
  }

  lemma {:induction false} NonEmptyAppend(a: seq<string>, b: seq<string>)
    ensures NonEmpty(a + b) == NonEmpty(a) + NonEmpty(b)
    decreases |b|
  {
    if b == [] {
      assert a + b == a;
    } else {
      NonEmptyAppend(a, b[..|b| - 1]);
      assert (a + b)[..|a + b| - 1] == a + b[..|b| - 1];
    }
  }

  /** A string is kept exactly when it occurs and is not empty. */
  lemma {:induction false} NonEmptyMembers(ds: seq<string>)
    ensures forall t :: t in NonEmpty(ds) <==> t in ds && t != ""
  {
    if ds != [] {
      NonEmptyMembers(ds[..|ds| - 1]);
      assert ds == ds[..|ds| - 1] + [ds[|ds| - 1]];
    }
  }

  /** Every line decoded, in line order. */
  function DecodedLines(lines: seq<string>, unescape: string -> Option<string>): seq<string>
  {
    seq(|lines|, i requires 0 <= i < |lines| => Decoded(lines[i], unescape))
  }

  /** The tokens of a list of lines: the non-empty decoded lines, in line order. */
  function TokensOf(lines: seq<string>, unescape: string -> Option<string>): seq<string>
  {
    NonEmpty(DecodedLines(lines, unescape))
  }

  /**
   * A string is a token exactly when it is non-empty and some line decodes
   * to it; there are never more tokens than lines.
   */
  lemma TokensOfMembers(lines: seq<string>, unescape: string -> Option<string>)
    ensures forall t :: t in TokensOf(lines, unescape) <==>
      t != "" && exists i :: 0 <= i < |lines| && Decoded(lines[i], unescape) == t
    ensures |TokensOf(lines, unescape)| <= |lines|
  {
    var ds := DecodedLines(lines, unescape);
    NonEmptyMembers(ds);
    forall t | t != "" && (exists i :: 0 <= i < |lines| && Decoded(lines[i], unescape) == t)
      ensures t in ds
    {
      var i :| 0 <= i < |lines| && Decoded(lines[i], unescape) == t;
      assert ds[i] == t;
    }
  }

  /** The tokens of concatenated line lists are the concatenated tokens: order is kept. */
  lemma TokensOfAppend(a: seq<string>, b: seq<string>, unescape: string -> Option<string>)
    ensures TokensOf(a + b, unescape) == TokensOf(a, unescape) + TokensOf(b, unescape)
  {
    DecodedLinesAppend(a, b, unescape);
    NonEmptyAppend(DecodedLines(a, unescape), DecodedLines(b, unescape));
  }

  lemma DecodedLinesAppend(a: seq<string>, b: seq<string>, unescape: string -> Option<string>)
    ensures DecodedLines(a + b, unescape) == DecodedLines(a, unescape) + DecodedLines(b, unescape)
  {
    var dab, da, db := DecodedLines(a + b, unescape), DecodedLines(a, unescape), DecodedLines(b, unescape);
    forall i | 0 <= i < |dab|
      ensures dab[i] == (da + db)[i]
    {
      if i < |a| {
        assert (a + b)[i] == a[i];
      } else {
        assert (a + b)[i] == b[i - |a|];
      }
    }
  }

  /** A blank line (nothing but white space) gives no token, since unescaping "" gives "". */
  lemma BlankLineDropped(line: string, unescape: string -> Option<string>)
    requires unescape("") == Some("")
    requires forall k :: 0 <= k < |line| ==> IsSpace(line[k])
    ensures Decoded(line, unescape) == ""
  {
    TrimLeftAllSpace(line);
  }

  lemma {:induction false} TrimLeftAllSpace(s: string)
    requires forall k :: 0 <= k < |s| ==> IsSpace(s[k])
    ensures TrimLeft(s) == ""
  {
    if s != [] {
      TrimLeftAllSpace(s[1..]);
    }
  }

  /** A line that does not unescape is kept as trimmed: the raw token is used. */
  lemma UndecodableLineKept(line: string, unescape: string -> Option<string>)
    requires unescape(TrimSpace(line)) == None && TrimSpace(line) != ""
    ensures TokensOf([line], unescape) == [TrimSpace(line)]
  {
    var ds := DecodedLines([line], unescape);
    assert ds == [TrimSpace(line)];
    assert ds[..0] == [];
  }

  /** `parseTokens`: one token per line of `raw` whose decoding is non-empty. */
  method ParseTokens(raw: string, unescape: string -> Option<string>) returns (tokens: seq<string>)
    ensures tokens == TokensOf(Split(raw, '\n'), unescape)
    ensures |tokens| <= Count(raw, '\n') + 1
  {
    var lines := Split(raw, '\n');
    tokens := [];
    ghost var ds := DecodedLines(lines, unescape);
    for i := 0 to |lines|
      invariant tokens == NonEmpty(ds[..i])
    {
      var trimmed := TrimSpace(lines[i]);
      var decoded;
      match unescape(trimmed) {
        case Some(d) => decoded := d;
        case None => decoded := trimmed;
      }
      assert decoded == ds[i];
      NonEmptyStep(ds, i);
      if decoded != "" {
        tokens := tokens + [decoded];
      }
    }
    assert ds[..|lines|] == ds;
  }

  lemma NonEmptyStep(ds: seq<string>, i: nat)
    requires i < |ds|
    ensures NonEmpty(ds[..i + 1]) == NonEmpty(ds[..i]) + (if ds[i] != "" then [ds[i]] else [])
  {
    assert ds[..i + 1][..i] == ds[..i];
  }

  // ---------------------------------------------------------------------
  // runOnce
  // ---------------------------------------------------------------------

  /** Some of the first `n` outcomes is a failure. */
  predicate AnyFails(fails: nat -> bool, n: nat)
  {
    n > 0 && (AnyFails(fails, n - 1) || fails(n - 1))
  }

  lemma {:induction false} AnyFailsExists(fails: nat -> bool, n: nat)
    ensures AnyFails(fails, n) <==> exists i :: 0 <= i < n && fails(i)
  {
    if n > 0 {
      AnyFailsExists(fails, n - 1);
    }
  }

  /** The notifier `runOnce` configures: a Discord webhook exactly when DISCORD_WEBHOOK is set. */
  function NotifierFor(discordWebhook: string, discordUser: string): (n: Option<Discord>)
    ensures n.Some? <==> discordWebhook != ""
    ensures n.Some? ==> n.value.webhookUrl == discordWebhook && n.value.userId == discordUser
  {
    if discordWebhook != "" then Some(Discord(discordWebhook, discordUser)) else None
  }

  /** Account `i` of a run, as `runOnce` calls it: numbered `i + 1`, with the shared notifier settings. */
  function AccountTraceFor(notifier: Option<Discord>, notifyNoOps: bool, suite: HashSuite, codecs: Codecs,
                           accounts: nat -> AccountEnv): (nat, string) -> AccountTrace
  {
    (i: nat, token: string) => AccountTraceOf(token, i + 1, notifier, notifyNoOps, suite, codecs, accounts(i))
  }

  /** What the accounts of a run do, in token order. */
  function AccountTraces(tokens: seq<string>, notifier: Option<Discord>, notifyNoOps: bool,
                         suite: HashSuite, codecs: Codecs, accounts: nat -> AccountEnv): seq<AccountTrace>
  {
    MapIndexed(tokens, AccountTraceFor(notifier, notifyNoOps, suite, codecs, accounts))
  }

  /** Account `i` (numbered `i + 1`) runs with token `i`, its own answers and the shared notifier settings. */
  lemma AccountTracesAt(tokens: seq<string>, notifier: Option<Discord>, notifyNoOps: bool,
                        suite: HashSuite, codecs: Codecs, accounts: nat -> AccountEnv)
    ensures var ts := AccountTraces(tokens, notifier, notifyNoOps, suite, codecs, accounts);
      && |ts| == |tokens|
      && forall i :: 0 <= i < |tokens| ==>
           ts[i] == AccountTraceOf(tokens[i], i + 1, notifier, notifyNoOps, suite, codecs, accounts(i))
  {
  }

  /** `fails(i)` says whether account `i` of the run fails. */
  ghost predicate FailuresAre(fails: nat -> bool, tokens: seq<string>, codecs: Codecs, accounts: nat -> AccountEnv)
  {
    forall i {:trigger AccountFails(tokens[i], codecs, accounts(i))} :: 0 <= i < |tokens| ==>
      fails(i) == AccountFails(tokens[i], codecs, accounts(i))
  }

  /** One account's turn in `runOnce`: whether `RunAccount` returned an error, and what the account did. */
  method AccountTurn(tokens: seq<string>, i: nat, notifier: Option<Discord>, notifyNoOps: bool,
                     suite: HashSuite, codecs: Codecs, accounts: nat -> AccountEnv, ghost fails: nat -> bool)
    returns (failed: bool, ghost trace: AccountTrace)
    requires i < |tokens| && FailuresAre(fails, tokens, codecs, accounts)
    ensures failed == fails(i)
    ensures trace == AccountTraceFor(notifier, notifyNoOps, suite, codecs, accounts)(i, tokens[i])
  {
    var err;
    err, trace := RunAccount(tokens[i], i + 1, notifier, notifyNoOps, suite, codecs, accounts(i));
    failed := err.Some?;
    assert failed == AccountFails(tokens[i], codecs, accounts(i));
  }

  /**
   * `runOnce`: runs every account in token order (numbered from 1) with the
   * same notifier settings, pausing a second between accounts, and reports
   * an error exactly when some account's negotiation or role discovery
   * failed; one account's failure does not stop the others.
   */
  method RunOnce(tokens: seq<string>, discordWebhook: string, discordUser: string, notifyNoOpsVar: string,
                 suite: HashSuite, codecs: Codecs, accounts: nat -> AccountEnv)
    returns (hasError: bool, ghost traces: seq<AccountTrace>, ghost pauses: seq<nat>)
    ensures hasError <==> exists i :: 0 <= i < |tokens| && AccountFails(tokens[i], codecs, accounts(i))
    ensures |traces| == |tokens|
    ensures forall i :: 0 <= i < |tokens| ==>
      traces[i] == AccountTraceOf(tokens[i], i + 1, NotifierFor(discordWebhook, discordUser), notifyNoOpsVar != "",
                                  suite, codecs, accounts(i))
    ensures |pauses| == if tokens == [] then 0 else |tokens| - 1
    ensures forall i :: 0 <= i < |pauses| ==> pauses[i] == AccountDelayMs
  {
    var notifyNoOps := notifyNoOpsVar != "";
    var notifier: Option<Discord> := None;
    if discordWebhook != "" {
      notifier := Some(Discord(discordWebhook, discordUser));
    }
    ghost var fails: nat -> bool := (i: nat) => i < |tokens| && AccountFails(tokens[i], codecs, accounts(i));
    hasError, traces, pauses := RunAccounts(tokens, notifier, notifyNoOps, suite, codecs, accounts, fails);
    AccountTracesAt(tokens, notifier, notifyNoOps, suite, codecs, accounts);
    AnyFailsExists(fails, |tokens|);
    if hasError {
      ghost var i :| 0 <= i < |tokens| && fails(i);
      assert AccountFails(tokens[i], codecs, accounts(i));
    } else {
      forall i | 0 <= i < |tokens|
        ensures !AccountFails(tokens[i], codecs, accounts(i))
      {
        assert !fails(i);
      }
    }
  }

  /** The account loop of `runOnce`. */
  method RunAccounts(tokens: seq<string>, notifier: Option<Discord>, notifyNoOps: bool,
                     suite: HashSuite, codecs: Codecs, accounts: nat -> AccountEnv, ghost fails: nat -> bool)
    returns (hasError: bool, ghost traces: seq<AccountTrace>, ghost pauses: seq<nat>)
    requires FailuresAre(fails, tokens, codecs, accounts)
    ensures hasError == AnyFails(fails, |tokens|)
    ensures traces == AccountTraces(tokens, notifier, notifyNoOps, suite, codecs, accounts)
    ensures |pauses| == if tokens == [] then 0 else |tokens| - 1
    ensures forall i :: 0 <= i < |pauses| ==> pauses[i] == AccountDelayMs
  {
    hasError := false;
    traces, pauses := [], [];
    for i := 0 to |tokens|
      invariant hasError == AnyFails(fails, i)
      invariant traces == AccountTraces(tokens[..i], notifier, notifyNoOps, suite, codecs, accounts)
      invariant |pauses| == if 0 < i == |tokens| then i - 1 else i
      invariant forall k :: 0 <= k < |pauses| ==> pauses[k] == AccountDelayMs
    {
      var failed;
      ghost var trace;
      failed, trace := AccountTurn(tokens, i, notifier, notifyNoOps, suite, codecs, accounts, fails);
      MapIndexedStep(tokens, i, AccountTraceFor(notifier, notifyNoOps, suite, codecs, accounts));
      traces := traces + [trace];
      if failed {
        hasError := true;
      }
      if i < |tokens| - 1 {
        pauses := pauses + [AccountDelayMs];
      }
    }
    assert tokens[..|tokens|] == tokens;
  }
}
