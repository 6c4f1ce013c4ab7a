/** The WeCom service helpers around the vendor's crypto library: the
    access-token cache with its early expiry, the record extracted from a
    decrypted message, the reply encryption (XML document and random nonce),
    the message-signature pre-image and the confirmation card.
    The crypto library (`DecryptMsg`, `EncryptMsg`), SHA-1, ElementTree's
    parser, the clock and every HTTP exchange are parameters. */
module WeComService {
  import opened Wrappers
  import opened PyValue
  import opened PyString
  import WeComXml
  import StringSort

  // ---- The access token ----

  /** What the `gettoken` request yielded: `Unreachable` when the request,
      its JSON decoding, or reading `errcode`, `errmsg` (on a refusal) or
      `access_token` raised; `NoExpiry` when `errcode` was 0 and the token
      had already been stored, but reading `expires_in` or adding it to the
      clock then raised. */
  datatype TokenReply =
    | Unreachable
    | Answer(errcode: int, errmsg: string, accessToken: string, expiresIn: real)
    | NoExpiry(accessToken: string)

  datatype TokenError = RequestFailed | Refused(message: string) | ExpiryUnreadable

  /** `access_token` (`None` until the first refresh) and `token_expires_at`. */
  datatype TokenCache = TokenCache(token: Option<string>, expiresAt: real)

  /** The token is served from the cache while it is set, non-empty and not
      yet past its expiry. */
  predicate Serves(cache: TokenCache, now: real) {
    cache.token.Some? && cache.token.value != "" && cache.expiresAt > now
  }

  /** Seconds by which a fetched token is treated as expired early. */
  const EarlyExpiry: real := 300.0

  /** One `get_access_token` call at time `now`: the result, the cache after
      it, and whether a `gettoken` request was sent. The token is stored
      before the expiry is read, so a reply without a usable `expires_in`
      raises with the new token cached under the old expiry. */
  function FetchToken(cache: TokenCache, now: real, reply: TokenReply): (r: (Result<string, TokenError>, TokenCache, bool))
    ensures Serves(cache, now) ==> r == (Ok(cache.token.value), cache, false)
    ensures !Serves(cache, now) ==> r.2
    ensures r.0.Err? ==> r.1.expiresAt == cache.expiresAt
    ensures r.0.Err? && !reply.NoExpiry? ==> r.1 == cache
    ensures !Serves(cache, now) && reply.Answer? && reply.errcode == 0 ==>
              r.0 == Ok(reply.accessToken) && r.1.token == Some(reply.accessToken)
              && r.1.expiresAt == now + reply.expiresIn - EarlyExpiry
    ensures !Serves(cache, now) && reply.Answer? && reply.errcode != 0 ==>
              r.0 == Err(Refused("Failed to get access token: " + reply.errmsg))
    ensures !Serves(cache, now) && reply.Unreachable? ==> r.0 == Err(RequestFailed)
    ensures !Serves(cache, now) && reply.NoExpiry? ==>
              r.0 == Err(ExpiryUnreadable) && r.1 == TokenCache(Some(reply.accessToken), cache.expiresAt)
  {
    if Serves(cache, now) then (Ok(cache.token.value), cache, false)
    else match reply
      case Unreachable => (Err(RequestFailed), cache, true)
      case Answer(errcode, errmsg, token, expiresIn) =>
        if errcode != 0 then (Err(Refused("Failed to get access token: " + errmsg)), cache, true)
        else (Ok(token), TokenCache(Some(token), now + expiresIn - EarlyExpiry), true)
      case NoExpiry(token) => (Err(ExpiryUnreadable), TokenCache(Some(token), cache.expiresAt), true)
  }

  /** A reply without a usable expiry still leaves its token in the cache:
      when the old expiry lies ahead (the cache held an empty token), a later
      call serves that token without a request, although the call that
      stored it raised. */
  lemma PartialRefreshServed(cache: TokenCache, now: real, token: string, later: real, next: TokenReply)
    requires !Serves(cache, now) && token != "" && now <= later < cache.expiresAt
    ensures FetchToken(cache, now, NoExpiry(token)).0.Err?
    ensures var (_, stored, _) := FetchToken(cache, now, NoExpiry(token));
            FetchToken(stored, later, next) == (Ok(token), stored, false)
  {
    var (_, stored, _) := FetchToken(cache, now, NoExpiry(token));
    assert Serves(stored, later);
  }

  /** A token fetched with a lifetime of more than five minutes is served
      again, without a request, at any later time before its early expiry. */
  lemma CachedUntilEarlyExpiry(cache: TokenCache, now: real, reply: TokenReply, later: real, next: TokenReply)
    requires !Serves(cache, now) && reply.Answer? && reply.errcode == 0 && reply.accessToken != ""
    requires now <= later < now + reply.expiresIn - EarlyExpiry
    ensures var (_, refreshed, _) := FetchToken(cache, now, reply);
            FetchToken(refreshed, later, next) == (Ok(reply.accessToken), refreshed, false)
  {
    var (_, refreshed, _) := FetchToken(cache, now, reply);
    assert Serves(refreshed, later);
  }

  /** A token whose lifetime is five minutes or less is never served from
      the cache: every later call sends a request. */
  lemma ShortLivedTokenRefetched(cache: TokenCache, now: real, reply: TokenReply, later: real, next: TokenReply)
    requires !Serves(cache, now) && reply.Answer? && reply.errcode == 0
    requires reply.expiresIn <= EarlyExpiry && later >= now
    ensures var (_, refreshed, _) := FetchToken(cache, now, reply);
            FetchToken(refreshed, later, next).2
  {
    var (_, refreshed, _) := FetchToken(cache, now, reply);
    assert !Serves(refreshed, later);
  }

  // ---- Decrypting a message ----

  /** What a call into the crypto library gave back: `Raised` when it
      raised, otherwise its return code and text. */
  datatype CryptoResult = Raised | Returned(ret: int, text: string)

  /** The parsed message as `find` sees it: for each tag, the text of its
      first element, `None` for an element without text. */
  type Tree = map<string, Option<string>>

  /** `root.find(tag).text`, or `""` when there is no such element. */
  function ElementText(tree: Tree, tag: string): Value {
    if tag !in tree then Str("")
    else match tree[tag] case None => Null case Some(t) => Str(t)
  }

  /** `int(root.find('CreateTime').text)`, or `0` without such an element;
      `None` where `int()` raises (no text, or text that is not an integer). */
  function CreateTimeOf(tree: Tree): Option<Value> {
    if "CreateTime" !in tree then Some(Int(0))
    else match tree["CreateTime"]
      case None => None
      case Some(t) => match ParseInt(t) case None => None case Some(n) => Some(Int(n))
  }

  const BaseFields: set<string> := {"ToUserName", "FromUserName", "CreateTime", "MsgType", "MsgId"}

  /** The fields added for a message type. */
  function TypeFields(msgType: Value): set<string> {
    if msgType == Str("text") then {"Content"}
    else if msgType == Str("image") then {"PicUrl", "MediaId"}
    else if msgType == Str("event") then {"Event", "EventKey"}
    else {}
  }

  /** `AgentID` is extracted when present with non-empty text. */
  function AgentField(tree: Tree): set<string> {
    if "AgentID" in tree && tree["AgentID"].Some? && tree["AgentID"].value != "" then {"AgentID"} else {}
  }

  function TypeSpecific(tree: Tree, msgType: Value): (d: Dict)
    ensures d.Keys == TypeFields(msgType)
    ensures forall k :: k in d ==> d[k] == ElementText(tree, k)
  {
    if msgType == Str("text") then map["Content" := ElementText(tree, "Content")]
    else if msgType == Str("image") then
      map["PicUrl" := ElementText(tree, "PicUrl"), "MediaId" := ElementText(tree, "MediaId")]
    else if msgType == Str("event") then
      map["Event" := ElementText(tree, "Event"), "EventKey" := ElementText(tree, "EventKey")]
    else map[]
  }

  /** The five fields every decrypted record has. */
  function BaseRecord(tree: Tree, created: Value): (d: Dict)
    ensures d.Keys == BaseFields && d["CreateTime"] == created
    ensures forall k :: k in d && k != "CreateTime" ==> d[k] == ElementText(tree, k)
  {
    map["ToUserName" := ElementText(tree, "ToUserName"),
        "FromUserName" := ElementText(tree, "FromUserName"),
        "CreateTime" := created,
        "MsgType" := ElementText(tree, "MsgType"),
        "MsgId" := ElementText(tree, "MsgId")]
  }

  /** The record built from a parsed message; `None` where building it raises. */
  function Extract(tree: Tree): Option<Dict> {
    match CreateTimeOf(tree)
    case None => None
    case Some(created) =>
      var base := BaseRecord(tree, created);
      var result := if AgentField(tree) != {} then base["AgentID" := ElementText(tree, "AgentID")] else base;
      Some(result + TypeSpecific(tree, ElementText(tree, "MsgType")))
  }

  /** The record has the five base fields, `AgentID` when present with text,
      and exactly the fields of its type; each holds its element's text,
      except `CreateTime`, which holds the parsed integer. */
  lemma ExtractFields(tree: Tree)
    ensures Extract(tree).None? <==> CreateTimeOf(tree).None?
    ensures Extract(tree).Some? ==>
      var r := Extract(tree).value;
      && r.Keys == BaseFields + AgentField(tree) + TypeFields(ElementText(tree, "MsgType"))
      && r["CreateTime"] == CreateTimeOf(tree).value
      && forall k :: k in r && k != "CreateTime" ==> r[k] == ElementText(tree, k)
  {
    if CreateTimeOf(tree).Some? {
      var created := CreateTimeOf(tree).value;
      var base := BaseRecord(tree, created);
      var result := if AgentField(tree) != {} then base["AgentID" := ElementText(tree, "AgentID")] else base;
      var extra := TypeSpecific(tree, ElementText(tree, "MsgType"));
      assert result.Keys == BaseFields + AgentField(tree);
      assert "CreateTime" !in extra;
      assert Extract(tree) == Some(result + extra);
    }
  }

  /** `decrypt_message`: the extracted record, or `{}` when the library
      fails or raises, the plaintext is empty, or parsing or building the
      record raises. */
  function DecryptMessage(reply: CryptoResult, parse: string -> Option<Tree>): (r: Dict)
    ensures reply.Raised? || reply.ret != 0 || reply.text == "" ==> r == map[]
    ensures reply.Returned? && reply.ret == 0 && reply.text != "" ==>
              r == match parse(reply.text)
                   case None => map[]
                   case Some(tree) => match Extract(tree) case None => map[] case Some(d) => d
    ensures r != map[] ==> BaseFields <= r.Keys
  {
    match reply
    case Raised => map[]
    case Returned(ret, text) =>
      if ret != 0 || text == "" then map[]
      else match parse(text)
        case None => map[]
        case Some(tree) =>
          ExtractFields(tree);
          match Extract(tree) case None => map[] case Some(d) => d
  }

  /** A `CreateTime` element holding `str(n)` is read back as `n`. */
  lemma CreateTimeRoundTrip(tree: Tree, n: int)
    requires "CreateTime" in tree && tree["CreateTime"] == Some(IntToString(n))
    ensures CreateTimeOf(tree) == Some(Int(n))
  {
    IntToStringRoundTrip(n);
  }

  /** In a decrypted record the message type alone decides which of the
      type-specific fields are present. */
  lemma DecryptedTypeFields(reply: CryptoResult, parse: string -> Option<Tree>)
    requires DecryptMessage(reply, parse) != map[]
    ensures var r := DecryptMessage(reply, parse);
      forall k :: k !in BaseFields && k != "AgentID" ==> (k in r <==> k in TypeFields(r["MsgType"]))
  {
    var tree := parse(reply.text).value;
    ExtractFields(tree);
  }

  /** A failed decryption yields a record without a message type. */
  lemma FailedDecryptHasNoType(reply: CryptoResult, parse: string -> Option<Tree>)
    requires reply.Raised? || reply.ret != 0
    ensures Get(DecryptMessage(reply, parse), "MsgType", Null) == Null
  {
  }

  // ---- Encrypting a reply ----

  /** `count` consecutive characters from `first`. */
  function CharRange(first: char, count: nat): (r: string)
    requires first as int + count <= 0xD800
    ensures |r| == count
    ensures forall i :: 0 <= i < count ==> r[i] as int == first as int + i
  {
    seq(count, i requires 0 <= i < count => (first as int + i) as char)
  }

  /** `string.ascii_letters + string.digits` */
  const Alphabet: string := CharRange('a', 26) + CharRange('A', 26) + CharRange('0', 10)

  predicate IsLetterOrDigit(c: char) {
    'a' <= c <= 'z' || 'A' <= c <= 'Z' || '0' <= c <= '9'
  }

  /** The nonce alphabet is exactly the ASCII letters and digits, 62 of them. */
  lemma AlphabetIsLettersAndDigits(c: char)
    ensures |Alphabet| == 62
    ensures c in Alphabet <==> IsLetterOrDigit(c)
  {
    if IsLetterOrDigit(c) {
      var k := if 'a' <= c <= 'z' then c as int - 'a' as int
               else if 'A' <= c <= 'Z' then 26 + c as int - 'A' as int
               else 52 + c as int - '0' as int;
      assert Alphabet[k] == c;
    }
    if c in Alphabet {
      var k :| 0 <= k < |Alphabet| && Alphabet[k] == c;
      if k < 26 {
        assert c as int == 'a' as int + k;
      } else if k < 52 {
        assert c as int == 'A' as int + k - 26;
      } else {
        assert c as int == '0' as int + k - 52;
      }
    }
  }

  /** `generate_random_string(length)`: one `random.choice` per position;
      `draws` are the indices the random source picked. */
  function RandomString(length: nat, draws: seq<nat>): (s: string)
    requires |draws| == length && forall i :: 0 <= i < |draws| ==> draws[i] < |Alphabet|
    ensures |s| == length
    ensures forall i :: 0 <= i < |s| ==> IsLetterOrDigit(s[i])
  {
    var s := seq(length, i requires 0 <= i < length => Alphabet[draws[i]]);
    assert forall i :: 0 <= i < |s| ==> s[i] in Alphabet;
    forall i | 0 <= i < |s| ensures IsLetterOrDigit(s[i]) {
      AlphabetIsLettersAndDigits(s[i]);
    }
    s
  }

  /** Every letter or digit can appear at every position of a nonce. */
  lemma EveryCharacterDrawable(c: char, length: nat, k: nat)
    requires IsLetterOrDigit(c) && k < length
    ensures exists draws: seq<nat> ::
              |draws| == length && (forall i :: 0 <= i < |draws| ==> draws[i] < |Alphabet|)
              && RandomString(length, draws)[k] == c
  {
    AlphabetIsLettersAndDigits(c);
    var j :| 0 <= j < |Alphabet| && Alphabet[j] == c;
    var draws := seq(length, i => j);
    assert RandomString(length, draws)[k] == Alphabet[draws[k]];
  }

  const NonceLength := 10

  /** `encrypt_message`: the message written as an `<xml>` document and
      encrypted with a fresh ten-character nonce; `""` when the library
      fails or raises. */
  method EncryptMessage(message: seq<(string, Value)>, draws: seq<nat>,
                        encrypt: (string, string) -> CryptoResult) returns (r: string)
    requires |draws| == NonceLength && forall i :: 0 <= i < |draws| ==> draws[i] < |Alphabet|
    ensures r == match encrypt(WeComXml.Document(message), RandomString(NonceLength, draws))
                 case Returned(0, text) => text
                 case _ => ""
  {
    var xml := WeComXml.SerialiseMessage(message);
    var nonce := RandomString(NonceLength, draws);
    var outcome := encrypt(xml, nonce);
    if outcome.Returned? && outcome.ret == 0 {
      r := outcome.text;
    } else {
      r := "";
    }
  }

  // ---- The message signature ----

  /** The digest `generate_msg_signature` returns: SHA-1 of the four
      parameters sorted and concatenated. */
  function MsgSignature(token: string, timestamp: string, nonce: string, encryptMsg: string,
                        sha1: string -> string): string {
    sha1(Concat(StringSort.SortedCopy([token, timestamp, nonce, encryptMsg])))
  }

  /** `generate_msg_signature`: the parameters sorted in place, joined, hashed. */
  method GenerateMsgSignature(token: string, timestamp: string, nonce: string, encryptMsg: string,
                              sha1: string -> string) returns (signature: string)
    ensures signature == MsgSignature(token, timestamp, nonce, encryptMsg, sha1)
  {
    var params := new string[4][token, timestamp, nonce, encryptMsg];
    assert params[..] == [token, timestamp, nonce, encryptMsg];
    StringSort.SortInPlace(params);
    signature := sha1(Concat(params[..]));
  }

  /** The signature does not depend on the order of its four parameters. */
  lemma SignatureIgnoresOrder(params: seq<string>, shuffled: seq<string>, sha1: string -> string)
    requires |params| == 4 && multiset(params) == multiset(shuffled)
    ensures |shuffled| == 4
    ensures MsgSignature(params[0], params[1], params[2], params[3], sha1)
         == MsgSignature(shuffled[0], shuffled[1], shuffled[2], shuffled[3], sha1)
  {
    assert |shuffled| == |multiset(shuffled)| == |multiset(params)| == 4;
    assert params == [params[0], params[1], params[2], params[3]];
    assert shuffled == [shuffled[0], shuffled[1], shuffled[2], shuffled[3]];
    StringSort.SortedCopyOrderFree(params, shuffled);
  }

  /** The signed text contains each parameter whole, in ascending order. */
  lemma PreImageSorted(token: string, timestamp: string, nonce: string, encryptMsg: string)
    ensures var sorted := StringSort.SortedCopy([token, timestamp, nonce, encryptMsg]);
            StringSort.Sorted(sorted) && multiset(sorted) == multiset{token, timestamp, nonce, encryptMsg}
  {
    StringSort.SortedCopySorted([token, timestamp, nonce, encryptMsg]);
  }

  // ---- The confirmation card ----

  /** The `textcard` message body. */
  datatype Card = Card(toUser: Value, agentId: string, title: string, description: string,
                       url: string, buttonText: string)

  /** `¥` and the amount with two decimals; `fixed2` is `f"{float(x):.2f}"`,
      `None` where `float()` raises; a number cannot make it raise. */
  function AmountText(amount: Value, fixed2: Value -> Option<string>): string {
    match fixed2(amount) case Some(t) => "¥" + t case None => "¥0.00"
  }

  const CardHead := "请确认以下记账信息是否正确\n\n金额: "
  const CardEnd := "\n\n请回复'确认'或'取消'来处理此交易。"

  /** The description's f-string, each line followed by the rest. */
  function CardText(amount: string, vendor: string, category: string, date: string, remark: string): string {
    CardHead + (amount + ("\n商家: " + (vendor + ("\n类别: " + (category
      + ("\n日期: " + (date + ("\n\n备注: " + (remark + CardEnd)))))))))
  }

  /** The card for a pending transaction; a key missing from the record
      shows its default, a key present shows its value, even `None`. */
  function ConfirmationCard(userId: Value, agentId: string, data: Dict, fixed2: Value -> Option<string>): (c: Card)
    ensures c.toUser == userId && c.agentId == agentId && c.title == "记账信息确认"
    ensures c.url == "javascript:void(0);" && c.buttonText == "详情"
  {
    Card(userId, agentId, "记账信息确认",
         CardText(AmountText(Get(data, "amount", Int(0)), fixed2),
                  Show(Get(data, "vendor", Str("未知商家"))),
                  Show(Get(data, "category", Str("其他"))),
                  Show(Get(data, "transaction_date", Str("1970-01-01"))),
                  Show(Get(data, "description", Str("无")))),
         "javascript:void(0);", "详情")
  }

  /** A record with none of the card's keys shows every default. */
  lemma EmptyRecordCard(userId: Value, agentId: string, fixed2: Value -> Option<string>)
    requires fixed2(Int(0)) == Some("0.00")
    ensures ConfirmationCard(userId, agentId, map[], fixed2).description
         == CardText("¥0.00", "未知商家", "其他", "1970-01-01", "无")
  {
    assert AmountText(Int(0), fixed2) == "¥0.00";
  }

  /** Every record's card lists the amount with two decimals (`¥0.00` when
      absent or not convertible) and, for vendor, category, date and remark,
      the record's value as `str()` shows it, or the default when the key is
      absent. */
  lemma CardDescription(userId: Value, agentId: string, data: Dict, fixed2: Value -> Option<string>)
    ensures var amount := if "amount" in data then data["amount"] else Int(0);
            ConfirmationCard(userId, agentId, data, fixed2).description ==
            CardText(if fixed2(amount).Some? then "¥" + fixed2(amount).value else "¥0.00",
                     if "vendor" in data then Show(data["vendor"]) else "未知商家",
                     if "category" in data then Show(data["category"]) else "其他",
                     if "transaction_date" in data then Show(data["transaction_date"]) else "1970-01-01",
                     if "description" in data then Show(data["description"]) else "无")
  {
  }

  /** The card loses nothing: when no line holds a line break, the
      description determines each of the five lines. */
  lemma CardTextInjective(a: string, v: string, c: string, d: string, r: string,
                          a': string, v': string, c': string, d': string, r': string)
    requires '\n' !in a && '\n' !in v && '\n' !in c && '\n' !in d && '\n' !in r
    requires '\n' !in a' && '\n' !in v' && '\n' !in c' && '\n' !in d' && '\n' !in r'
    requires CardText(a, v, c, d, r) == CardText(a', v', c', d', r')
    ensures a == a' && v == v' && c == c' && d == d' && r == r'
  {
    // Each line followed by the rest of the description.
    var e4, e4' := "\n\n备注: " + (r + CardEnd), "\n\n备注: " + (r' + CardEnd);
    var e3, e3' := "\n日期: " + (d + e4), "\n日期: " + (d' + e4');
    var e2, e2' := "\n类别: " + (c + e3), "\n类别: " + (c' + e3');
    var e1, e1' := "\n商家: " + (v + e2), "\n商家: " + (v' + e2');
    DropCommonPrefix(CardHead, a + e1, a' + e1');
    SplitAtLineBreak(a, a', e1, e1');
    DropCommonPrefix("\n商家: ", v + e2, v' + e2');
    SplitAtLineBreak(v, v', e2, e2');
    DropCommonPrefix("\n类别: ", c + e3, c' + e3');
    SplitAtLineBreak(c, c', e3, e3');
    DropCommonPrefix("\n日期: ", d + e4, d' + e4');
    SplitAtLineBreak(d, d', e4, e4');
    DropCommonPrefix("\n\n备注: ", r + CardEnd, r' + CardEnd);
    SplitAtLineBreak(r, r', CardEnd, CardEnd);
  }

  /** The first line break of `x + y` is where `y` begins. */
  lemma FirstBreakAt(x: string, y: string)
    requires '\n' !in x && y != [] && y[0] == '\n'
    ensures Find(x + y, '\n') == |x|
  {
    assert (x + y)[|x|] == '\n';
  }

  lemma DropCommonPrefix(p: string, x: string, x': string)
    requires p + x == p + x'
    ensures x == x'
  {
    assert x == (p + x)[|p|..] && x' == (p + x')[|p|..];
  }

  /** Two texts that each run up to their first line break split alike. */
  lemma SplitAtLineBreak(x: string, x': string, y: string, y': string)
    requires '\n' !in x && '\n' !in x' && y != [] && y[0] == '\n' && y' != [] && y'[0] == '\n'
    requires x + y == x' + y'
    ensures x == x' && y == y'
  {
    FirstBreakAt(x, y);
    FirstBreakAt(x', y');
    assert x == (x + y)[..|x|] && x' == (x' + y')[..|x'|];
    assert y == (x + y)[|x|..] && y' == (x' + y')[|x'|..];
  }

  /** What the card POST yielded: `PostFailed` when it or its decoding
      raised, otherwise the decoded body. */
  datatype CardReply = PostFailed | Answered(body: Dict)

  /** `data["errcode"] == 0`, with Python's numeric equality. */
  predicate IsZero(v: Value) {
    v == Int(0) || v == Bool(false) || (v.Float? && v.isZero)
  }

  /** The boolean `send_confirmation_card` returns for the POST's outcome:
      any exception (including a missing `errcode`) is swallowed as `True`. */
  function CardAccepted(reply: CardReply): (ok: bool)
    ensures reply.PostFailed? ==> ok
    ensures reply.Answered? && "errcode" !in reply.body ==> ok
    ensures reply.Answered? && "errcode" in reply.body ==> (ok <==> IsZero(reply.body["errcode"]))
  {
    match reply
    case PostFailed => true
    case Answered(body) => if "errcode" !in body then true else IsZero(body["errcode"])
  }

  /** The service object: the token cache and, as a ghost log, the cards sent. */
  class Client {
    var accessToken: Option<string>
    var tokenExpiresAt: real
    ghost var tokenRequests: nat
    ghost var cardsSent: seq<Card>

    constructor ()
      ensures accessToken == None && tokenExpiresAt == 0.0
      ensures tokenRequests == 0 && cardsSent == []
    {
      accessToken := None;
      tokenExpiresAt := 0.0;
      tokenRequests := 0;
      cardsSent := [];
    }

    function Cache(): TokenCache
      reads this
    {
      TokenCache(accessToken, tokenExpiresAt)
    }

    /** `get_access_token` at time `now`. */
    method GetAccessToken(now: real, reply: TokenReply) returns (r: Result<string, TokenError>)
      modifies this
      ensures (r, Cache(), tokenRequests > old(tokenRequests)) == FetchToken(old(Cache()), now, reply)
      ensures tokenRequests <= old(tokenRequests) + 1 && cardsSent == old(cardsSent)
    {
      if accessToken.Some? && accessToken.value != "" && tokenExpiresAt > now {
        return Ok(accessToken.value);
      }
      tokenRequests := tokenRequests + 1;
      match reply
      case Unreachable =>
        return Err(RequestFailed);
      case Answer(errcode, errmsg, token, expiresIn) =>
        if errcode != 0 {
          return Err(Refused("Failed to get access token: " + errmsg));
        }
        accessToken := Some(token);
        tokenExpiresAt := now + expiresIn - EarlyExpiry;
        return Ok(token);
      case NoExpiry(token) =>
        accessToken := Some(token);
        return Err(ExpiryUnreadable);
    }

    /** `send_confirmation_card`: the card is posted once a token is at hand;
      any failure, including the token fetch, is swallowed as `True`. */
    method SendConfirmationCard(userId: Value, agentId: string, data: Dict, fixed2: Value -> Option<string>,
                                now: real, tokenReply: TokenReply, post: Card -> CardReply)
      returns (ok: bool)
      modifies this
      ensures Cache() == FetchToken(old(Cache()), now, tokenReply).1
      ensures FetchToken(old(Cache()), now, tokenReply).0.Err? ==> ok && cardsSent == old(cardsSent)
      ensures FetchToken(old(Cache()), now, tokenReply).0.Ok? ==>
                var card := ConfirmationCard(userId, agentId, data, fixed2);
                cardsSent == old(cardsSent) + [card] && ok == CardAccepted(post(card))
    {
      var token := GetAccessToken(now, tokenReply);
      if token.Err? {
        return true;
      }
      var card := ConfirmationCard(userId, agentId, data, fixed2);
      cardsSent := cardsSent + [card];
      ok := CardAccepted(post(card));
    }
  }
}
