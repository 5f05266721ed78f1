/**
 * Request signing for the remote API (skport/sign.go): the fixed protocol
 * constants, the standard header set, and the V2 signature
 *   hex(MD5(hex(HMAC-SHA256(key = salt, path + timestamp + headerJSON)))).
 * HMAC (RFC 2104) over SHA-256 (FIPS 180-4) and MD5 (RFC 1321) are not
 * modelled: a `HashSuite` supplies them as functions that only promise their
 * output lengths. The lower-case hex encoding and the JSON header object are
 * written out.
 */
module Sign {
  import opened Text

  const Platform := "3"
  const VName := "1.0.0"
  const AppCode := "6eb76d4e13aa36e6"
  const GameID := "3"
  const UserAgent := "Skport/0.7.0 (com.gryphline.skport; build:700089; Android 33; ) Okhttp/5.1.0"

  const BindingURL := "https://zonai.skport.com/api/v1/game/player/binding"
  const AttendanceURL := "https://zonai.skport.com/web/v1/game/endfield/attendance"
  const GenerateCredURL := "https://zonai.skport.com/web/v1/user/auth/generate_cred_by_code"
  const OAuthGrantURL := "https://as.gryphline.com/user/oauth2/v2/grant"
  const BasicInfoURL := "https://as.gryphline.com/user/info/v1/basic"

  type byte = b: int | 0 <= b < 256
  type Digest32 = s: seq<byte> | |s| == 32 witness seq(32, _ => 0)
  type Digest16 = s: seq<byte> | |s| == 16 witness seq(16, _ => 0)

  /** HMAC-SHA256 (key, then message) and MD5, over the bytes of their string arguments. */
  datatype HashSuite = HashSuite(hmacSha256: (string, string) -> Digest32, md5: string -> Digest16)

  /** `Timestamp()`: the clock's Unix seconds in decimal. The clock itself is an input. */
  function Timestamp(unixSeconds: int): (ts: string)
    ensures |ts| >= 1 && forall i :: 0 <= i < |ts| ==> IsDigit(ts[i]) || ts[i] == '-'
  {
    IntToString(unixSeconds)
  }

  // ---------------------------------------------------------------------
  // Lower-case hex (fmt's %x on a byte slice)
  // ---------------------------------------------------------------------

  predicate IsLowerHex(c: char)
  {
    '0' <= c <= '9' || 'a' <= c <= 'f'
  }

  function HexChar(d: nat): (c: char)
    requires d < 16
    ensures IsLowerHex(c)
  {
    if d < 10 then (d + '0' as int) as char else (d - 10 + 'a' as int) as char
  }

  function HexValue(c: char): (d: nat)
    requires IsLowerHex(c)
    ensures d < 16 && HexChar(d) == c
  {
    if c <= '9' then c as int - '0' as int else c as int - 'a' as int + 10
  }

  function HexEncode(b: seq<byte>): (s: string)
    ensures |s| == 2 * |b|
    ensures forall i :: 0 <= i < |s| ==> IsLowerHex(s[i])
  {
    if b == [] then [] else [HexChar(b[0] / 16), HexChar(b[0] % 16)] + HexEncode(b[1..])
  }

  /** The inverse of HexEncode on well-formed input. */
  function HexDecode(s: string): seq<byte>
    requires |s| % 2 == 0
    requires forall i :: 0 <= i < |s| ==> IsLowerHex(s[i])
  {
    if s == [] then [] else [HexValue(s[0]) * 16 + HexValue(s[1])] + HexDecode(s[2..])
  }

  lemma {:induction false} HexDecodeEncode(b: seq<byte>)
    ensures HexDecode(HexEncode(b)) == b
  {
    if b != [] {
      HexDecodeEncode(b[1..]);
      var s := HexEncode(b);
      assert s[2..] == HexEncode(b[1..]);
      assert HexValue(s[0]) == b[0] / 16 by { assert HexChar(HexValue(s[0])) == HexChar(b[0] / 16); HexCharInjective(HexValue(s[0]), b[0] / 16); }
      assert HexValue(s[1]) == b[0] % 16 by { assert HexChar(HexValue(s[1])) == HexChar(b[0] % 16); HexCharInjective(HexValue(s[1]), b[0] % 16); }
    }
  }

  lemma HexCharInjective(d: nat, e: nat)
    requires d < 16 && e < 16 && HexChar(d) == HexChar(e)
    ensures d == e
  {
  }

  // ---------------------------------------------------------------------
  // The JSON header object (encoding/json's Marshal of a struct of strings)
  // ---------------------------------------------------------------------

  /** The runes `json.Marshal` copies into a string literal unchanged (HTML escaping is on). */
  predicate JsonSafe(c: char)
  {
    ' ' <= c && c != '"' && c != '\\' && c != '<' && c != '>' && c != '&'
    && c != '\U{2028}' && c != '\U{2029}'
  }

  /** `\u` followed by four lower-case hex digits. */
  function UnicodeEscape(n: nat): (s: string)
    requires n < 0x10000
    ensures |s| == 6
  {
    "\\u" + [HexChar(n / 0x1000), HexChar(n / 0x100 % 16), HexChar(n / 0x10 % 16), HexChar(n % 16)]
  }

  /** How `json.Marshal` (Go 1.22 and later) writes one rune inside a string literal. */
  function JsonEscapeRune(c: char): (s: string)
    ensures JsonSafe(c) <==> s == [c]
  {
    if JsonSafe(c) then [c]
    else if c == '"' then "\\\""
    else if c == '\\' then "\\\\"
    else if c == '\U{0008}' then "\\b"
    else if c == '\U{000C}' then "\\f"
    else if c == '\n' then "\\n"
    else if c == '\r' then "\\r"
    else if c == '\t' then "\\t"
    else UnicodeEscape(c as int)
  }

  function JsonEscape(s: string): string
  {
    if s == [] then "" else JsonEscapeRune(s[0]) + JsonEscape(s[1..])
  }

  /** A JSON string literal. */
  function JsonString(s: string): string
  {
    "\"" + JsonEscape(s) + "\""
  }

  /** A string of safe runes is written as it is. */
  lemma {:induction false} JsonEscapeSafe(s: string)
    requires forall i :: 0 <= i < |s| ==> JsonSafe(s[i])
    ensures JsonEscape(s) == s
  {
    if s != [] {
      JsonEscapeSafe(s[1..]);
      assert [s[0]] + s[1..] == s;
    }
  }

  /** The serialised header object `{platform, timestamp, dId, vName}`, fields in declaration order. */
  function HeaderJson(timestamp: string): string
  {
    "{\"platform\":" + JsonString(Platform) + ",\"timestamp\":" + JsonString(timestamp)
    + ",\"dId\":" + JsonString("") + ",\"vName\":" + JsonString(VName) + "}"
  }

  /** The text that is HMAC'd: path, timestamp, header object. The salt plays no part in it. */
  function SignMessage(path: string, timestamp: string): string
  {
    path + timestamp + HeaderJson(timestamp)
  }

  const MessageInfix := "{\"platform\":\"3\",\"timestamp\":\""
  const MessageSuffix := "\",\"dId\":\"\",\"vName\":\"1.0.0\"}"

  /** The JSON string literals of the three constant fields. */
  lemma ConstantFieldsJson()
    ensures JsonString(Platform) == "\"3\""
    ensures JsonString(VName) == "\"1.0.0\""
    ensures JsonString("") == "\"\""
  {
    JsonEscapeSafe(Platform);
    JsonEscapeSafe(VName);
  }

  /** The header object around the timestamp's literal, as serialised. */
  const JsonFront := "{\"platform\":" + "\"3\"" + ",\"timestamp\":"
  const JsonBack := ",\"dId\":" + "\"\"" + ",\"vName\":" + "\"1.0.0\"" + "}"

  lemma JsonPieces()
    ensures JsonFront + "\"" == MessageInfix
    ensures "\"" + JsonBack == MessageSuffix
  {
  }

  lemma Regroup(f: string, t: string, b: string)
    ensures f + ("\"" + t + "\"") + b == (f + "\"") + t + ("\"" + b)
  {
  }

  /** For a timestamp of safe runes the header object is this concrete text. */
  lemma HeaderJsonText(timestamp: string)
    requires forall i :: 0 <= i < |timestamp| ==> JsonSafe(timestamp[i])
    ensures HeaderJson(timestamp) == MessageInfix + timestamp + MessageSuffix
  {
    JsonEscapeSafe(timestamp);
    ConstantFieldsJson();
    var front, back := "{\"platform\":" + JsonString(Platform) + ",\"timestamp\":",
      ",\"dId\":" + JsonString("") + ",\"vName\":" + JsonString(VName) + "}";
    Regroup9("{\"platform\":", JsonString(Platform), ",\"timestamp\":", JsonString(timestamp),
             ",\"dId\":", JsonString(""), ",\"vName\":", JsonString(VName), "}");
    assert front == JsonFront && back == JsonBack;
    Regroup(JsonFront, timestamp, JsonBack);
    JsonPieces();
  }

  lemma Regroup9(a: string, b: string, c: string, d: string, e: string, f: string, g: string, h: string, i: string)
    ensures a + b + c + d + e + f + g + h + i == (a + b + c) + d + (e + f + g + h + i)
  {
  }

  /** For a timestamp of safe runes (every decimal one) the signed message is this concrete text. */
  lemma SignMessageText(path: string, timestamp: string)
    requires forall i :: 0 <= i < |timestamp| ==> JsonSafe(timestamp[i])
    ensures SignMessage(path, timestamp) == path + timestamp + MessageInfix + timestamp + MessageSuffix
  {
    HeaderJsonText(timestamp);
    Regroup5(path, timestamp, MessageInfix, timestamp, MessageSuffix);
  }

  lemma Regroup5(a: string, b: string, c: string, d: string, e: string)
    ensures a + b + (c + d + e) == a + b + c + d + e
  {
  }

  /** What `Timestamp` produces is always written unescaped. */
  lemma TimestampIsJsonSafe(unixSeconds: int)
    ensures forall i :: 0 <= i < |Timestamp(unixSeconds)| ==> JsonSafe(Timestamp(unixSeconds)[i])
  {
  }

  /**
   * The signed message determines the path and the timestamp: two requests
   * whose (path, timestamp) differ never sign the same text.
   */
  lemma SignMessageInjective(p1: string, t1: string, p2: string, t2: string)
    requires forall i :: 0 <= i < |t1| ==> JsonSafe(t1[i])
    requires forall i :: 0 <= i < |t2| ==> JsonSafe(t2[i])
    requires SignMessage(p1, t1) == SignMessage(p2, t2)
    ensures p1 == p2 && t1 == t2
  {
    SignMessageText(p1, t1);
    SignMessageText(p2, t2);
    assert MessageInfix[|MessageInfix| - 1] == '"';
    QuotedTailInjective(p1, t1, p2, t2, MessageInfix, MessageSuffix);
  }

  /**
   * In `p + t + infix + t + suffix`, where `infix` ends in a double quote and
   * `t` has none, the text determines `p` and `t`.
   */
  lemma QuotedTailInjective(p1: string, t1: string, p2: string, t2: string, infix: string, suffix: string)
    requires infix != [] && infix[|infix| - 1] == '"'
    requires forall i :: 0 <= i < |t1| ==> t1[i] != '"'
    requires forall i :: 0 <= i < |t2| ==> t2[i] != '"'
    requires p1 + t1 + infix + t1 + suffix == p2 + t2 + infix + t2 + suffix
    ensures p1 == p2 && t1 == t2
  {
    var m1, m2 := p1 + t1 + infix + t1, p2 + t2 + infix + t2;
    assert m1 == (m1 + suffix)[..|m1|] && m2 == (m2 + suffix)[..|m2|];
    assert m1 == m2;
    if |t1| < |t2| {
      QuoteBeforeTail(p1, t1, infix);
      NoQuoteInTail(p2, t2, infix, |m1| - |t1| - 1);
      assert false;
    } else if |t2| < |t1| {
      QuoteBeforeTail(p2, t2, infix);
      NoQuoteInTail(p1, t1, infix, |m2| - |t2| - 1);
      assert false;
    }
    assert t1 == m1[|m1| - |t1|..] == t2;
    assert p1 == m1[..|p1|] == p2;
  }

  /** In `p + t + infix + t` no rune of the last `t` is a double quote. */
  lemma NoQuoteInTail(p: string, t: string, infix: string, k: int)
    requires forall i :: 0 <= i < |t| ==> t[i] != '"'
    requires |p + t + infix| <= k < |p + t + infix + t|
    ensures (p + t + infix + t)[k] != '"'
  {
    var m := p + t + infix + t;
    assert m[k] == t[k - |p + t + infix|];
  }

  /** In `p + t + infix + t` the rune just before the last `t` is the last rune of `infix`. */
  lemma QuoteBeforeTail(p: string, t: string, infix: string)
    requires infix != []
    ensures var m := p + t + infix + t; m[|m| - |t| - 1] == infix[|infix| - 1]
  {
  }

  // ---------------------------------------------------------------------
  // The signature
  // ---------------------------------------------------------------------

  /**
   * `ComputeSignV2`: 32 lower-case hex runes which decode to the MD5 digest
   * of the (64-rune) hex of the HMAC of the signed message under the salt.
   */
  function ComputeSignV2(suite: HashSuite, path: string, timestamp: string, salt: string): (sig: string)
    ensures |sig| == 32
    ensures forall i :: 0 <= i < |sig| ==> IsLowerHex(sig[i])
    ensures HexDecode(sig) == suite.md5(HmacHex(suite, path, timestamp, salt))
  {
    var digest := suite.md5(HmacHex(suite, path, timestamp, salt));
    HexDecodeEncode(digest);
    HexEncode(digest)
  }

  /** The intermediate text: 64 lower-case hex runes that decode to the HMAC. */
  function HmacHex(suite: HashSuite, path: string, timestamp: string, salt: string): (h: string)
    ensures |h| == 64
    ensures forall i :: 0 <= i < |h| ==> IsLowerHex(h[i])
    ensures HexDecode(h) == suite.hmacSha256(salt, SignMessage(path, timestamp))
  {
    var mac := suite.hmacSha256(salt, SignMessage(path, timestamp));
    HexDecodeEncode(mac);
    HexEncode(mac)
  }

  // ---------------------------------------------------------------------
  // The header set
  // ---------------------------------------------------------------------

  const RoleHeader := "Sk-Game-Role"

  /** The ten headers every signed request carries. */
  const FixedHeaderNames: set<string> :=
    {"Accept", "Content-Type", "Origin", "Referer", "Cred", "Platform", "Sk-Language",
     "Timestamp", "Vname", "User-Agent"}

  /** The ten fixed headers: Cred and Timestamp carry the arguments, the rest protocol constants. */
  function FixedHeaders(cred: string, timestamp: string): (h: map<string, string>)
    ensures h.Keys == FixedHeaderNames
    ensures h["Cred"] == cred && h["Timestamp"] == timestamp
    ensures h["Accept"] == "application/json, text/plain, */*"
    ensures h["Content-Type"] == "application/json"
    ensures h["Origin"] == "https://game.skport.com" && h["Referer"] == "https://game.skport.com/"
    ensures h["Platform"] == Platform && h["Sk-Language"] == "en"
    ensures h["Vname"] == VName && h["User-Agent"] == UserAgent
  {
    map[
      "Accept" := "application/json, text/plain, */*",
      "Content-Type" := "application/json",
      "Origin" := "https://game.skport.com",
      "Referer" := "https://game.skport.com/",
      "Cred" := cred,
      "Platform" := Platform,
      "Sk-Language" := "en",
      "Timestamp" := timestamp,
      "Vname" := VName,
      "User-Agent" := UserAgent]
  }

  /** The header set of `BuildHeaders`: the ten fixed headers, plus the role when one is given. */
  function StandardHeaders(cred: string, gameRole: string, timestamp: string): map<string, string>
  {
    var fixed := FixedHeaders(cred, timestamp);
    if gameRole == "" then fixed else fixed[RoleHeader := gameRole]
  }

  /**
   * The standard header set holds the ten fixed names, and Sk-Game-Role
   * exactly when a role is given: ten headers without a role, eleven with one.
   */
  lemma StandardHeaderKeys(cred: string, gameRole: string, timestamp: string)
    ensures var h := StandardHeaders(cred, gameRole, timestamp);
      && h.Keys == FixedHeaderNames + (if gameRole == "" then {} else {RoleHeader})
      && |h| == (if gameRole == "" then 10 else 11)
      && (RoleHeader in h <==> gameRole != "")
  {
    FixedHeaderCount();
    if gameRole != "" {
      AddedKey(FixedHeaders(cred, timestamp), RoleHeader, gameRole);
    }
  }

  /**
   * Every fixed header keeps its fixed value whether or not a role is added,
   * and the role header carries the role.
   */
  lemma StandardHeaderValues(cred: string, gameRole: string, timestamp: string)
    ensures var h := StandardHeaders(cred, gameRole, timestamp);
      && (forall k :: k in FixedHeaderNames ==> k in h && h[k] == FixedHeaders(cred, timestamp)[k])
      && (gameRole != "" ==> RoleHeader in h && h[RoleHeader] == gameRole)
  {
    FixedHeaderCount();
    if gameRole != "" {
      AddedKey(FixedHeaders(cred, timestamp), RoleHeader, gameRole);
    }
  }

  /** Setting a key that is not yet present adds it and keeps every other entry. */
  lemma AddedKey(m: map<string, string>, k: string, v: string)
    requires k !in m
    ensures m[k := v].Keys == m.Keys + {k} && |m[k := v]| == |m| + 1
    ensures forall j :: j in m ==> m[k := v][j] == m[j]
  {
    assert m[k := v].Keys == m.Keys + {k};
  }

  lemma FixedHeaderCount()
    ensures |FixedHeaderNames| == 10 && RoleHeader !in FixedHeaderNames
  {
  }

  /**
   * `BuildHeaders`: starts from an empty header set and sets the headers one
   * by one (every name is already in canonical MIME form, so `Header.Set`
   * stores it as written).
   */
  method BuildHeaders(cred: string, gameRole: string, timestamp: string) returns (h: map<string, string>)
    ensures h == StandardHeaders(cred, gameRole, timestamp)
  {
    h := map[];
    h := h["Accept" := "application/json, text/plain, */*"];
    h := h["Content-Type" := "application/json"];
    h := h["Origin" := "https://game.skport.com"];
    h := h["Referer" := "https://game.skport.com/"];
    h := h["Cred" := cred];
    h := h["Platform" := Platform];
    h := h["Sk-Language" := "en"];
    h := h["Timestamp" := timestamp];
    h := h["Vname" := VName];
    h := h["User-Agent" := UserAgent];
    if gameRole != "" {
      h := h[RoleHeader := gameRole];
    }
  }
}
