/** The WeCom callback endpoint (`POST /api/v1/wecom/callback`): it checks the
    query parameters, decrypts the message, drops deliveries it has already
    seen, and dispatches on the message type. An image is recognised and staged
    as a pending transaction, a text or a card click confirms or cancels the
    latest one, and every answer goes back inside the same encrypted XML
    envelope.

    Each branch is specified by a pure function from the state before the
    request (a `World`) to the state after it and whether the branch raised.
    The `Callback` class keeps the module-level dictionaries as fields and
    updates them in place; each of its methods is proved equal to the
    function of its branch. */
module Endpoint {
  import opened Wrappers
  import opened PyValue
  import opened PyString
  import opened Workspace
  import WeComXml
  import WeComService
  import Recognition

  // ---- The reply envelope ----

  const EncryptOpen := "<xml>\n<Encrypt><![CDATA["
  const SignatureOpen := "]]></Encrypt>\n<MsgSignature><![CDATA["
  const TimeStampOpen := "]]></MsgSignature>\n<TimeStamp>"
  const NonceOpen := "</TimeStamp>\n<Nonce><![CDATA["
  const EnvelopeClose := "]]></Nonce>\n</xml>"

  /** The XML every answer is wrapped in. */
  function Envelope(encrypted: string, signature: string, timestamp: string, nonce: string): string {
    EncryptOpen + (encrypted + (SignatureOpen + (signature + (TimeStampOpen + (timestamp
      + (NonceOpen + (nonce + EnvelopeClose)))))))
  }

  /** `s` up to the first `stop`, which must begin `closer`: that text and
      what follows `closer`. */
  function Field(s: string, stop: char, closer: string): (r: Option<(string, string)>)
    ensures r.Some? ==> stop !in r.value.0 && s == r.value.0 + closer + r.value.1
  {
    var n := WeComXml.Span(s, {stop});
    if WeComXml.StartsWith(s[n..], closer) then
      assert s == s[..n] + s[n..][..|closer|] + s[n + |closer|..];
      Some((s[..n], s[n + |closer|..]))
    else None
  }

  /** The nonce and the closing tags. */
  function ReadNonce(s: string): Option<string> {
    match Field(s, ']', EnvelopeClose)
    case None => None
    case Some((nonce, rest)) => if rest == "" then Some(nonce) else None
  }

  /** The timestamp, then the nonce. */
  function ReadTimeStamp(s: string): Option<(string, string)> {
    match Field(s, '<', NonceOpen)
    case None => None
    case Some((timestamp, rest)) => match ReadNonce(rest)
      case None => None
      case Some(nonce) => Some((timestamp, nonce))
  }

  /** The signature, then the timestamp and the nonce. */
  function ReadSignature(s: string): Option<(string, string, string)> {
    match Field(s, ']', TimeStampOpen)
    case None => None
    case Some((signature, rest)) => match ReadTimeStamp(rest)
      case None => None
      case Some((timestamp, nonce)) => Some((signature, timestamp, nonce))
  }

  /** Reads the four fields back out of an envelope. */
  function ParseEnvelope(xml: string): Option<(string, string, string, string)> {
    if !WeComXml.StartsWith(xml, EncryptOpen) then None
    else match Field(xml[|EncryptOpen|..], ']', SignatureOpen)
      case None => None
      case Some((encrypted, rest)) => match ReadSignature(rest)
        case None => None
        case Some((signature, timestamp, nonce)) => Some((encrypted, signature, timestamp, nonce))
  }

  lemma FieldOf(text: string, closer: string, rest: string)
    requires closer != [] && closer[0] !in text
    ensures Field(text + (closer + rest), closer[0], closer) == Some((text, rest))
  {
    var s := text + (closer + rest);
    WeComXml.SpanOfPrefix(text, closer + rest, {closer[0]});
    assert s[..|text|] == text;
    assert s[|text|..] == closer + rest;
    assert s[|text| + |closer|..] == rest;
  }

  lemma ReadNonceOf(nonce: string)
    requires ']' !in nonce
    ensures ReadNonce(nonce + EnvelopeClose) == Some(nonce)
  {
    assert EnvelopeClose[0] == ']';
    assert EnvelopeClose + [] == EnvelopeClose;
    FieldOf(nonce, EnvelopeClose, []);
  }

  lemma ReadTimeStampOf(timestamp: string, nonce: string)
    requires '<' !in timestamp && ']' !in nonce
    ensures ReadTimeStamp(timestamp + (NonceOpen + (nonce + EnvelopeClose))) == Some((timestamp, nonce))
  {
    assert NonceOpen[0] == '<';
    FieldOf(timestamp, NonceOpen, nonce + EnvelopeClose);
    ReadNonceOf(nonce);
  }

  lemma ReadSignatureOf(signature: string, timestamp: string, nonce: string)
    requires ']' !in signature && '<' !in timestamp && ']' !in nonce
    ensures ReadSignature(signature + (TimeStampOpen + (timestamp + (NonceOpen + (nonce + EnvelopeClose)))))
         == Some((signature, timestamp, nonce))
  {
    assert TimeStampOpen[0] == ']';
    FieldOf(signature, TimeStampOpen, timestamp + (NonceOpen + (nonce + EnvelopeClose)));
    ReadTimeStampOf(timestamp, nonce);
  }

  /** An envelope whose fields cannot close their sections early is read back
      field for field: the ciphertext, signature and nonce hold no `]`, the
      timestamp no `<`. */
  lemma EnvelopeRoundTrip(encrypted: string, signature: string, timestamp: string, nonce: string)
    requires ']' !in encrypted && ']' !in signature && '<' !in timestamp && ']' !in nonce
    ensures ParseEnvelope(Envelope(encrypted, signature, timestamp, nonce))
         == Some((encrypted, signature, timestamp, nonce))
  {
    var rest := signature + (TimeStampOpen + (timestamp + (NonceOpen + (nonce + EnvelopeClose))));
    var xml := Envelope(encrypted, signature, timestamp, nonce);
    assert xml == EncryptOpen + (encrypted + (SignatureOpen + rest));
    assert xml[..|EncryptOpen|] == EncryptOpen;
    assert xml[|EncryptOpen|..] == encrypted + (SignatureOpen + rest);
    assert SignatureOpen[0] == ']';
    FieldOf(encrypted, SignatureOpen, rest);
    ReadSignatureOf(signature, timestamp, nonce);
  }

  // ---- The outside world of one request ----

  /** Everything a request consults besides the two tables and the token
      cache: the clock, the crypto library, the network and the settings. */
  datatype Env = Env(
    now: nat,                   // `datetime.now()`, microseconds since the epoch
    today: string,              // `datetime.now().strftime('%Y-%m-%d')`
    unquote: string -> string,  // `urllib.parse.unquote`
    decrypt: (string, string, string) -> WeComService.CryptoResult,
                                // `DecryptMsg` of the body, given signature, timestamp and nonce
    parse: string -> Option<WeComService.Tree>,
    draws: seq<nat>,            // the nonce's random choices
    encrypt: (string, string) -> WeComService.CryptoResult,
    tokenReply: WeComService.TokenReply,
    downloadFails: bool,        // `download_image` got a status other than 200
    readFailure: Option<string>,
    aiReply: Recognition.AiReply,
    loads: string -> Option<Dict>,
    qianjiEnabled: bool,        // `QIANJI_ENABLED`
    cateChoose: bool,           // `QIANJI_CATE_CHOOSE`
    quote: string -> string,
    ledgerAccepts: Transaction -> bool,
                                // building `TransactionCreate` and `create_transaction` succeed
    textPostFails: bool,        // the text-message POST raises
    issueToken: Value -> string,  // `create_access_token({"sub": user}, 1 hour)`
    penetrateUrl: string,
    agentId: string,
    fixed2: Value -> Option<string>,
    post: WeComService.Card -> WeComService.CardReply)
  {
    predicate WellFormed() {
      |draws| == WeComService.NonceLength && forall i :: 0 <= i < |draws| ==> draws[i] < |WeComService.Alphabet|
    }
  }

  /** `datetime.now().timestamp()` */
  function Clock(env: Env): real {
    env.now as real / 1_000_000.0
  }

  /** `int(time.time())` */
  function Seconds(env: Env): int {
    env.now / 1_000_000
  }

  /** The row `create_transaction` writes for a confirmed record. */
  datatype Transaction = Transaction(owner: Value, amount: Value, vendor: Value, category: Value,
                                     date: Value, description: Value, imageUrl: Value)

  function Booked(user: Value, data: Dict): Transaction {
    Transaction(user, Get(data, "amount", Null), Get(data, "vendor", Null), Get(data, "category", Null),
                Get(data, "transaction_date", Null), Get(data, "description", Null), Get(data, "image_url", Null))
  }

  /** The state a request can change: the two tables, the ledger and the
      messages sent (as logs), and the service's token cache and cards sent. */
  datatype World = World(pending: Pending, processed: Seen, ledger: seq<Transaction>,
                         sent: seq<(Value, string)>, cache: WeComService.TokenCache,
                         cards: seq<WeComService.Card>)

  /** The state after a branch, and whether the branch raised. */
  datatype Step = Step(raised: bool, world: World)

  datatype Reply = Xml(text: string) | BadRequest(detail: string) | ServerError

  // ---- Texts ----

  const ConfirmedText := "交易已确认，已记录到账本中。"
  const NotFoundText := "确认失败，未找到对应的交易数据。"
  const NothingPendingText := "未找到待确认的交易数据。"
  const CancelledText := "交易已取消。"
  const MenuText := "请选择您需要的服务：\n1. 发送图片进行记账\n2. 查看账本\n3. 访问后台管理\n4. 帮助\n\n请回复对应数字或直接发送图片"
  const ReceiptText := "请发送包含消费信息的收据图片，我将为您自动识别并记账。"
  const LedgerText := "账本查看功能正在开发中，敬请期待。"
  const HelpText := "使用帮助：\n1. 发送包含消费信息的收据图片，系统将自动识别并记账\n2. 识别后会发送确认信息，回复'确认'或'取消'\n3. 回复'菜单'可查看所有可用功能\n4. 如有问题请联系管理员"
  const UnreadableText := "图片识别失败，无法识别图片中的文本"
  const LinkText := "已识别记账信息，请点击链接记账：\n"
  const SkippedChoiceLinkText := "已识别记账信息，请点击链接记账（已跳过分类选择）：\n"
  const NoLinkText := "识别成功，但生成钱迹记账链接失败，请重试。"

  function AdminText(user: Value, env: Env): string {
    "后台管理页面：" + env.penetrateUrl + "/token/" + env.issueToken(user)
      + "\n\n请使用浏览器打开链接进行管理操作。\n\n注意：链接有效期1小时，请尽快使用。"
  }

  function EchoText(content: string): string {
    "您发送的消息：'" + content + "' 不是预设指令。\n\n请选择您需要的操作：\n1. 发送图片进行记账\n2. 查看账本\n3. 访问后台管理\n4. 查看帮助\n\n请回复对应数字或发送'菜单'查看所有选项"
  }

  /** The answer to a text that is neither a confirm nor a cancel command. */
  function TextAnswer(content: string, user: Value, env: Env): string {
    if content == "菜单" || LowerEquals(content, "menu") then MenuText
    else if content == "1" then ReceiptText
    else if content == "2" then LedgerText
    else if content == "3" then AdminText(user, env)
    else if content == "4" then HelpText
    else EchoText(content)
  }

  predicate IsConfirm(content: string) {
    LowerEquals(content, "确认") || LowerEquals(content, "confirm")
  }

  predicate IsCancel(content: string) {
    LowerEquals(content, "取消") || LowerEquals(content, "cancel")
  }

  /** The message sent when recognition reports a failure. */
  function FailureText(result: Dict): string {
    "识别失败：" + Show(Get(result, "error", Str(UnreadableText)))
  }

  /** The message sent in Qianji mode: the link, or an apology without one. */
  function QianjiText(result: Dict): string {
    var url := Get(result, "qianji_url", Str(""));
    if Truthy(url) then
      (if Truthy(Get(result, "catechoose", Bool(true))) then LinkText else SkippedChoiceLinkText) + Show(url)
    else NoLinkText
  }

  // ---- Reply statuses ----

  const Success: seq<(string, Value)> := [("status", Str("success"))]
  const AlreadyProcessed: seq<(string, Value)> :=
    [("status", Str("success")), ("message", Str("Message already processed"))]
  const Unsupported: seq<(string, Value)> := [("status", Str("unsupported message type"))]

  /** What `encrypt_message(status)` returns. */
  function Sealed(status: seq<(string, Value)>, env: Env): string
    requires env.WellFormed()
  {
    match env.encrypt(WeComXml.Document(status), WeComService.RandomString(WeComService.NonceLength, env.draws))
    case Returned(0, text) => text
    case _ => ""
  }

  // ---- The branches, as functions ----

  /** `send_text_message`: a token, then the POST; either can raise. */
  function Texted(w: World, user: Value, text: string, env: Env): (s: Step)
    ensures s.world.pending == w.pending && s.world.processed == w.processed && s.world.ledger == w.ledger
    ensures s.world.sent == w.sent || s.world.sent == w.sent + [(user, text)]
  {
    var (token, cache, _) := WeComService.FetchToken(w.cache, Clock(env), env.tokenReply);
    if token.Err? then Step(true, w.(cache := cache))
    else Step(env.textPostFails, w.(cache := cache, sent := w.sent + [(user, text)]))
  }

  datatype Confirmation = Done | NotFound | Failed

  /** `confirm_transaction(user, key)`: a missing or empty entry is not found
      and changes nothing; a record the ledger refuses raises and changes
      nothing; otherwise the record is booked once and its entry removed. */
  function Confirmed(w: World, user: Value, key: int, env: Env): (r: (Confirmation, World))
    ensures r.0 != Done ==> r.1 == w
    ensures r.0 == Done ==>
              && Entry(w.pending, user, key).Some?
              && r.1 == w.(ledger := w.ledger + [Booked(user, Entry(w.pending, user, key).value)],
                           pending := Removed(w.pending, user, key))
  {
    match Entry(w.pending, user, key)
    case None => (NotFound, w)
    case Some(data) =>
      if data == map[] then (NotFound, w)
      else if !env.ledgerAccepts(Booked(user, data)) then (Failed, w)
      else (Done, w.(ledger := w.ledger + [Booked(user, data)], pending := Removed(w.pending, user, key)))
  }

  /** The confirm branch, for a text or a click. */
  ghost function ConfirmStep(w: World, user: Value, env: Env): Step {
    match Latest(w.pending, user)
    case None => Texted(w, user, NothingPendingText, env)
    case Some(key) =>
      var (outcome, w1) := Confirmed(w, user, key, env);
      if outcome == Failed then Step(true, w1)
      else Texted(w1, user, if outcome == Done then ConfirmedText else NotFoundText, env)
  }

  /** The cancel branch, for a text or a click. */
  ghost function CancelStep(w: World, user: Value, env: Env): Step {
    var w1 := match Latest(w.pending, user)
      case None => w
      case Some(key) => w.(pending := Removed(w.pending, user, key));
    Texted(w1, user, CancelledText, env)
  }

  ghost function TextStep(w: World, msg: Dict, env: Env): Step {
    var content := Get(msg, "Content", Null);
    var user := Get(msg, "FromUserName", Null);
    if !content.Str? then Step(true, w)
    else if IsConfirm(content.s) then ConfirmStep(w, user, env)
    else if IsCancel(content.s) then CancelStep(w, user, env)
    else Texted(w, user, TextAnswer(content.s, user, env), env)
  }

  ghost function EventStep(w: World, msg: Dict, env: Env): Step {
    var user := Get(msg, "FromUserName", Null);
    var key := Get(msg, "EventKey", Null);
    if Get(msg, "Event", Null) != Str("click") then Step(false, w)
    else if key == Str("confirm") then ConfirmStep(w, user, env)
    else if key == Str("cancel") then CancelStep(w, user, env)
    else Step(false, w)
  }

  /** A missing or empty `transaction_date` becomes today's date. */
  function Dated(result: Dict, today: string): (d: Dict)
    ensures "transaction_date" in d
    ensures today != "" ==> Truthy(d["transaction_date"])
    ensures "transaction_date" in result && Truthy(result["transaction_date"]) ==> d == result
    ensures forall k :: k != "transaction_date" ==> (k in d <==> k in result)
    ensures forall k :: k in d && k != "transaction_date" ==> d[k] == result[k]
  {
    if "transaction_date" !in result || !Truthy(result["transaction_date"]) then
      result["transaction_date" := Str(today)]
    else result
  }

  /** The entry an image stages: the dated record with its `transaction_id`,
      which is added after saving but to the same dictionary. */
  function Staged(result: Dict, env: Env): Dict {
    Dated(result, env.today)["transaction_id" := Int(env.now)]
  }

  /** `send_confirmation_card`, which never raises. */
  function Carded(w: World, user: Value, data: Dict, env: Env): World {
    var (token, cache, _) := WeComService.FetchToken(w.cache, Clock(env), env.tokenReply);
    w.(cache := cache,
       cards := if token.Ok? then w.cards + [WeComService.ConfirmationCard(user, env.agentId, data, env.fixed2)]
                else w.cards)
  }

  /** The image's record saved as pending, then announced by a card. */
  function StagedWorld(w: World, user: Value, result: Dict, env: Env): World {
    var stored := Staged(result, env);
    Carded(w.(pending := Saved(w.pending, user, env.now, stored)), user, stored, env)
  }

  /** Whether recognition succeeded outside Qianji mode, so that the result is
      staged for confirmation. */
  predicate ToBeStaged(result: Dict, env: Env) {
    Truthy(Get(result, "success", Bool(true))) && !(env.qianjiEnabled && Truthy(Get(result, "qianji_enabled", Bool(false))))
  }

  function RecognitionOf(env: Env): Dict {
    Recognition.Recognised(env.readFailure, env.aiReply, env.loads, env.qianjiEnabled, env.cateChoose, env.quote)
  }

  ghost function ImageStep(w: World, msg: Dict, env: Env): Step {
    var (token, cache, _) := WeComService.FetchToken(w.cache, Clock(env), env.tokenReply);
    var w1 := w.(cache := cache);
    if token.Err? || env.downloadFails then Step(true, w1)
    else RecognisedStep(w1, Get(msg, "FromUserName", Null), env)
  }

  /** The image once downloaded: the failure or the Qianji link reported as
      a text, or the record staged. */
  ghost function RecognisedStep(w: World, user: Value, env: Env): Step {
    var result := RecognitionOf(env);
    if !Truthy(Get(result, "success", Bool(true))) then Texted(w, user, FailureText(result), env)
    else if env.qianjiEnabled && Truthy(Get(result, "qianji_enabled", Bool(false))) then
      Texted(w, user, QianjiText(result), env)
    else
      Step(false, StagedWorld(w, user, result, env))
  }

  function MsgType(msg: Dict): Value {
    Get(msg, "MsgType", Null)
  }

  ghost function Dispatched(w: World, msg: Dict, env: Env): Step {
    if MsgType(msg) == Str("image") then ImageStep(w, msg, env)
    else if MsgType(msg) == Str("text") then TextStep(w, msg, env)
    else if MsgType(msg) == Str("event") then EventStep(w, msg, env)
    else Step(false, w)
  }

  predicate Handled(msg: Dict) {
    MsgType(msg) in {Str("image"), Str("text"), Str("event")}
  }

  /** The status an answered request reports. */
  function StatusOf(msg: Dict): seq<(string, Value)> {
    if Handled(msg) then Success else Unsupported
  }

  /** The envelope's TimeStamp: the request's, except after an image, where
      the handler has rebound `timestamp` to the current second. */
  function TimeStampOf(msg: Dict, timestamp: string, env: Env): string {
    if MsgType(msg) == Str("image") then IntToString(Seconds(env)) else timestamp
  }

  /** `not param` */
  predicate Absent(param: Option<string>) {
    param.None? || param.value == ""
  }

  function MissingNames(msgSignature: Option<string>, timestamp: Option<string>, nonce: Option<string>): seq<string> {
    (if Absent(msgSignature) then ["msg_signature"] else [])
      + (if Absent(timestamp) then ["timestamp"] else [])
      + (if Absent(nonce) then ["nonce"] else [])
  }

  /** The decrypted message of a request whose parameters are all present. */
  function Decrypted(msgSignature: string, timestamp: string, nonce: string, env: Env): Dict {
    WeComService.DecryptMessage(env.decrypt(env.unquote(msgSignature), env.unquote(timestamp), env.unquote(nonce)),
                                env.parse)
  }

  /** `processed_messages` after a first sighting: recorded and swept when
      the MsgId is truthy, untouched otherwise. */
  function Noted(processed: Seen, msg: Dict, env: Env): Seen {
    var msgId := Get(msg, "MsgId", Null);
    if Truthy(msgId) then Remembered(processed, msgId, env.now) else processed
  }

  predicate Duplicate(processed: Seen, msg: Dict) {
    Truthy(Get(msg, "MsgId", Null)) && Get(msg, "MsgId", Null) in processed
  }

  /** The answer once the branch has run: a server error when it raised,
      otherwise the envelope carrying the status for the message's type. */
  function AnswerOf(msg: Dict, raised: bool, signature: string, stamp: string, once: string, env: Env): Reply
    requires env.WellFormed()
  {
    if raised then ServerError
    else Xml(Envelope(Sealed(StatusOf(msg), env), signature, TimeStampOf(msg, stamp, env), once))
  }

  /** A message seen for the first time: noted, dispatched and answered. */
  ghost function Answered(w: World, msg: Dict, signature: string, stamp: string, once: string, env: Env): (Reply, World)
    requires env.WellFormed()
  {
    var step := Dispatched(w.(processed := Noted(w.processed, msg, env)), msg, env);
    (AnswerOf(msg, step.raised, signature, stamp, once, env), step.world)
  }

  /** A request whose three parameters are present, from decryption on. */
  ghost function Responded(w: World, msgSignature: string, timestamp: string, nonce: string, env: Env): (Reply, World)
    requires env.WellFormed()
  {
    var signature := env.unquote(msgSignature);
    var stamp := env.unquote(timestamp);
    var once := env.unquote(nonce);
    var msg := Decrypted(msgSignature, timestamp, nonce, env);
    if Duplicate(w.processed, msg) then
      (Xml(Envelope(Sealed(AlreadyProcessed, env), signature, stamp, once)), w)
    else Answered(w, msg, signature, stamp, once, env)
  }

  /** `handle_wecom_message` */
  ghost function Handle(w: World, msgSignature: Option<string>, timestamp: Option<string>, nonce: Option<string>,
                        env: Env): (Reply, World)
    requires env.WellFormed()
  {
    if Absent(msgSignature) || Absent(timestamp) || Absent(nonce) then
      (BadRequest("Missing required parameters: " + Join(MissingNames(msgSignature, timestamp, nonce), ", ")), w)
    else Responded(w, msgSignature.value, timestamp.value, nonce.value, env)
  }

  // ---- The endpoint's state, updated in place ----

  class Callback {
    /** `pending_transactions`: user -> key -> recognised record. */
    var pending: Pending
    /** `processed_messages`: MsgId -> first-seen time. */
    var processed: Seen
    ghost var ledger: seq<Transaction>
    ghost var sent: seq<(Value, string)>
    /** `wecom_service` */
    const service: WeComService.Client

    constructor ()
      ensures State() == World(map[], map[], [], [], WeComService.TokenCache(None, 0.0), [])
    {
      pending := map[];
      processed := map[];
      ledger := [];
      sent := [];
      service := new WeComService.Client();
    }

    ghost function State(): World
      reads this, service
    {
      World(pending, processed, ledger, sent, service.Cache(), service.cardsSent)
    }

    /** `wecom_service.send_text_message(user, text)`; `raised` when it raises. */
    method SendText(user: Value, text: string, env: Env) returns (raised: bool)
      modifies this, service
      ensures Step(raised, State()) == Texted(old(State()), user, text, env)
    {
      var token := service.GetAccessToken(Clock(env), env.tokenReply);
      if token.Err? {
        return true;
      }
      sent := sent + [(user, text)];
      raised := env.textPostFails;
    }

    /** `get_pending_transaction` */
    method GetPendingTransaction(user: Value, key: int) returns (data: Option<Dict>)
      ensures data == Entry(pending, user, key)
      ensures data.Some? <==> user in pending && key in pending[user]
    {
      if user in pending && key in pending[user] {
        return Some(pending[user][key]);
      }
      return None;
    }

    /** `save_pending_transaction`, keyed by the clock reading `now`. */
    method SavePendingTransaction(user: Value, data: Dict, now: int) returns (key: int)
      modifies this
      ensures key == now && pending == Saved(old(pending), user, now, data)
      ensures processed == old(processed) && ledger == old(ledger) && sent == old(sent)
    {
      var bucket := map[];
      if user in pending {
        bucket := pending[user];
      }
      pending := pending[user := bucket[now := data]];
      return now;
    }

    /** The `del` of one entry, and of the user's bucket once it is empty. */
    method Discard(user: Value, key: int)
      modifies this
      ensures pending == Removed(old(pending), user, key)
      ensures processed == old(processed) && ledger == old(ledger) && sent == old(sent)
    {
      if user in pending && key in pending[user] {
        pending := pending[user := pending[user] - {key}];
        if pending[user] == map[] {
          pending := pending - {user};
        }
      }
    }

    /** `max(pending_transactions[user].keys())`, when the user has a
        pending transaction. */
    method LatestKey(user: Value) returns (latest: Option<int>)
      ensures latest == Latest(pending, user)
    {
      if user in pending {
        if key :| key in pending[user] && forall k :: k in pending[user] ==> k <= key {
          LatestIsLargest(pending, user, key);
          return Some(key);
        }
      }
      NoLargestNoLatest(pending, user);
      return None;
    }

    /** `confirm_transaction` */
    method ConfirmTransaction(user: Value, key: int, env: Env) returns (outcome: Confirmation)
      modifies this
      ensures (outcome, State()) == Confirmed(old(State()), user, key, env)
    {
      var data := GetPendingTransaction(user, key);
      if data.None? || data.value == map[] {
        return NotFound;
      }
      if !env.ledgerAccepts(Booked(user, data.value)) {
        return Failed;
      }
      ledger := ledger + [Booked(user, data.value)];
      Discard(user, key);
      return Done;
    }

    method ConfirmLatest(user: Value, env: Env) returns (raised: bool)
      modifies this, service
      ensures Step(raised, State()) == ConfirmStep(old(State()), user, env)
    {
      var latest := LatestKey(user);
      if latest.None? {
        raised := SendText(user, NothingPendingText, env);
        return;
      }
      var outcome := ConfirmTransaction(user, latest.value, env);
      if outcome == Failed {
        return true;
      }
      raised := SendText(user, if outcome == Done then ConfirmedText else NotFoundText, env);
    }

    method CancelLatest(user: Value, env: Env) returns (raised: bool)
      modifies this, service
      ensures Step(raised, State()) == CancelStep(old(State()), user, env)
    {
      var latest := LatestKey(user);
      if latest.Some? {
        Discard(user, latest.value);
      }
      raised := SendText(user, CancelledText, env);
    }

    method HandleText(msg: Dict, env: Env) returns (raised: bool)
      modifies this, service
      ensures Step(raised, State()) == TextStep(old(State()), msg, env)
    {
      var content := Get(msg, "Content", Null);
      var user := Get(msg, "FromUserName", Null);
      if !content.Str? {
        return true;
      }
      if IsConfirm(content.s) {
        raised := ConfirmLatest(user, env);
      } else if IsCancel(content.s) {
        raised := CancelLatest(user, env);
      } else {
        raised := SendText(user, TextAnswer(content.s, user, env), env);
      }
    }

    method HandleEvent(msg: Dict, env: Env) returns (raised: bool)
      modifies this, service
      ensures Step(raised, State()) == EventStep(old(State()), msg, env)
    {
      var user := Get(msg, "FromUserName", Null);
      var key := Get(msg, "EventKey", Null);
      raised := false;
      if Get(msg, "Event", Null) == Str("click") {
        if key == Str("confirm") {
          raised := ConfirmLatest(user, env);
        } else if key == Str("cancel") {
          raised := CancelLatest(user, env);
        }
      }
    }

    method HandleImage(msg: Dict, env: Env) returns (raised: bool)
      modifies this, service
      ensures Step(raised, State()) == ImageStep(old(State()), msg, env)
    {
      var token := service.GetAccessToken(Clock(env), env.tokenReply);
      if token.Err? || env.downloadFails {
        return true;
      }
      raised := HandleRecognised(Get(msg, "FromUserName", Null), env);
    }

    /** The downloaded image recognised, then reported or staged. */
    method HandleRecognised(user: Value, env: Env) returns (raised: bool)
      modifies this, service
      ensures Step(raised, State()) == RecognisedStep(old(State()), user, env)
    {
      var result := Recognition.RecognizeText(env.readFailure, env.aiReply, env.loads, env.qianjiEnabled,
                                              env.cateChoose, env.quote);
      if !Truthy(Get(result, "success", Bool(true))) {
        raised := SendText(user, FailureText(result), env);
      } else if env.qianjiEnabled && Truthy(Get(result, "qianji_enabled", Bool(false))) {
        raised := SendText(user, QianjiText(result), env);
      } else {
        Stage(user, result, env);
        raised := false;
      }
    }

    /** The normal path of an image: the record dated, saved as pending,
        given its id and sent as a confirmation card. */
    method Stage(user: Value, result: Dict, env: Env)
      modifies this, service
      ensures State() == StagedWorld(old(State()), user, result, env)
    {
      var data := Dated(result, env.today);
      ghost var before := pending;
      var key := SavePendingTransaction(user, data, env.now);
      // the stored record is the dictionary that now gains its id
      data := data["transaction_id" := Int(key)];
      pending := pending[user := pending[user][key := data]];
      SavedAgainReplaces(before, user, key, Dated(result, env.today), data);
      var _ := service.SendConfirmationCard(user, env.agentId, data, env.fixed2, Clock(env),
                                            env.tokenReply, env.post);
    }

    /** Records a first-seen MsgId, then deletes every id first seen more
        than 24 hours ago. */
    method Remember(msgId: Value, now: int)
      modifies this
      ensures processed == Remembered(old(processed), msgId, now)
      ensures pending == old(pending) && ledger == old(ledger) && sent == old(sent)
    {
      processed := processed[msgId := now];
      ghost var recorded := processed;
      var expired := set id | id in processed && now - processed[id] > Retention;
      while exists id :: id in expired
        invariant expired <= recorded.Keys
        invariant forall id :: id in expired ==> now - recorded[id] > Retention
        invariant forall id :: id in processed <==> id in recorded && (id in expired || now - recorded[id] <= Retention)
        invariant forall id :: id in processed ==> processed[id] == recorded[id]
        invariant pending == old(pending) && ledger == old(ledger) && sent == old(sent)
        decreases |expired|
      {
        var id :| id in expired;
        processed := processed - {id};
        expired := expired - {id};
      }
      assert processed == Swept(recorded, now);
    }

    /** The dispatch on `MsgType`; `raised` when the branch raised. */
    method Dispatch(msg: Dict, env: Env) returns (raised: bool)
      modifies this, service
      ensures Step(raised, State()) == Dispatched(old(State()), msg, env)
    {
      var msgType := Get(msg, "MsgType", Null);
      raised := false;
      if msgType == Str("image") {
        raised := HandleImage(msg, env);
      } else if msgType == Str("text") {
        raised := HandleText(msg, env);
      } else if msgType == Str("event") {
        raised := HandleEvent(msg, env);
      }
    }

    /** `handle_wecom_message` once the three parameters are known present. */
    method Respond(msgSignature: string, timestamp: string, nonce: string, env: Env) returns (reply: Reply)
      requires env.WellFormed()
      modifies this, service
      ensures (reply, State()) == Responded(old(State()), msgSignature, timestamp, nonce, env)
    {
      var signature := env.unquote(msgSignature);
      var stamp := env.unquote(timestamp);
      var once := env.unquote(nonce);
      var message := WeComService.DecryptMessage(env.decrypt(signature, stamp, once), env.parse);
      var msgId := Get(message, "MsgId", Null);
      if Truthy(msgId) && msgId in processed {
        var encrypted := WeComService.EncryptMessage(AlreadyProcessed, env.draws, env.encrypt);
        return Xml(Envelope(encrypted, signature, stamp, once));
      }
      reply := Answer(message, signature, stamp, once, env);
    }

    /** A message not seen before: its MsgId noted, then the dispatch and
        the answer. */
    method Answer(message: Dict, signature: string, stamp: string, once: string, env: Env) returns (reply: Reply)
      requires env.WellFormed()
      modifies this, service
      ensures (reply, State()) == Answered(old(State()), message, signature, stamp, once, env)
    {
      var msgId := Get(message, "MsgId", Null);
      if Truthy(msgId) {
        Remember(msgId, env.now);
      }
      var raised := Dispatch(message, env);
      reply := BuildAnswer(message, raised, signature, stamp, once, env);
    }

    /** The status for the message's type, encrypted and enveloped; after an
        image the timestamp is the current second. */
    static method BuildAnswer(message: Dict, raised: bool, signature: string, stamp: string, once: string, env: Env)
      returns (reply: Reply)
      requires env.WellFormed()
      ensures reply == AnswerOf(message, raised, signature, stamp, once, env)
    {
      if raised {
        return ServerError;
      }
      var msgType := Get(message, "MsgType", Null);
      var replyStamp := stamp;
      var status := Unsupported;
      if msgType == Str("image") {
        replyStamp := IntToString(Seconds(env));
        status := Success;
      } else if msgType == Str("text") || msgType == Str("event") {
        status := Success;
      }
      var encrypted := WeComService.EncryptMessage(status, env.draws, env.encrypt);
      reply := Xml(Envelope(encrypted, signature, replyStamp, once));
    }

    /** `handle_wecom_message` */
    method HandleMessage(msgSignature: Option<string>, timestamp: Option<string>, nonce: Option<string>, env: Env)
      returns (reply: Reply)
      requires env.WellFormed()
      modifies this, service
      ensures (reply, State()) == Handle(old(State()), msgSignature, timestamp, nonce, env)
    {
      if Absent(msgSignature) || Absent(timestamp) || Absent(nonce) {
        var missing := MissingParameters(msgSignature, timestamp, nonce);
        return BadRequest("Missing required parameters: " + Join(missing, ", "));
      }
      reply := Respond(msgSignature.value, timestamp.value, nonce.value, env);
    }

    /** The names of the absent parameters, in the order they are checked. */
    static method MissingParameters(msgSignature: Option<string>, timestamp: Option<string>, nonce: Option<string>)
      returns (missing: seq<string>)
      ensures missing == MissingNames(msgSignature, timestamp, nonce)
    {
      missing := [];
      if Absent(msgSignature) {
        missing := missing + ["msg_signature"];
      }
      assert missing == if Absent(msgSignature) then ["msg_signature"] else [];
      if Absent(timestamp) {
        missing := missing + ["timestamp"];
      }
      if Absent(nonce) {
        missing := missing + ["nonce"];
      }
    }
  }
}
