/** The Qianji bookkeeping-app deep link: `qianji://publicapi/addbill?` followed
    by `&`-joined query parameters in a fixed order, some of them conditional.
    `quote` (percent-encoding, section 2.1 of RFC 3986) is a parameter. */
module Qianji {
  import opened Wrappers
  import opened PyValue
  import opened PyString

  const BaseUrl := "qianji://publicapi/addbill?"

  /** Appended to a date that carries no time of day. */
  const NoonSuffix := " 12:00:00"

  /** The query parameters a link can carry, in their fixed order. */
  datatype Name = Type | Money | Time | Remark | CateName | CateChoose

  /** The parameter's name with its `=`. */
  function Key(n: Name): string {
    match n
    case Type => "type="
    case Money => "money="
    case Time => "time="
    case Remark => "remark="
    case CateName => "catename="
    case CateChoose => "catechoose="
  }

  /** Position of each parameter in the link's fixed order. */
  function Rank(n: Name): nat {
    match n
    case Type => 0
    case Money => 1
    case Time => 2
    case Remark => 3
    case CateName => 4
    case CateChoose => 5
  }

  /** One `name=value` query parameter. */
  datatype Param = Param(name: Name, value: string)

  function Render(p: Param): string {
    Key(p.name) + p.value
  }

  function RenderAll(ps: seq<Param>): (r: seq<string>)
    ensures |r| == |ps| && forall i :: 0 <= i < |ps| ==> r[i] == Render(ps[i])
  {
    if ps == [] then [] else [Render(ps[0])] + RenderAll(ps[1..])
  }

  lemma {:induction false} RenderAllConcat(a: seq<Param>, b: seq<Param>)
    ensures RenderAll(a + b) == RenderAll(a) + RenderAll(b)
  {
    if a != [] {
      assert (a + b)[1..] == a[1..] + b;
      RenderAllConcat(a[1..], b);
    }
  }

  /** The value of the first parameter called `n`, if any: what a reader of
      the link's query string gets for `n`. */
  function Lookup(ps: seq<Param>, n: Name): Option<string> {
    if ps == [] then None
    else if ps[0].name == n then Some(ps[0].value)
    else Lookup(ps[1..], n)
  }

  lemma {:induction false} LookupConcat(a: seq<Param>, b: seq<Param>, n: Name)
    ensures Lookup(a + b, n) == Lookup(a, n).OrElse(Lookup(b, n))
  {
    if a != [] {
      assert (a + b)[0] == a[0];
      assert (a + b)[1..] == a[1..] + b;
      LookupConcat(a[1..], b, n);
    } else {
      assert a + b == b;
    }
  }

  /** The `time` value: a date without a space gets the default time of day. */
  function TimeValue(date: string): (t: string)
    ensures ' ' in t
    ensures |t| >= |date| && t[..|date|] == date
  {
    if ' ' in date then date else date + NoonSuffix
  }

  /** `[Param(n, v)]` for `Some(v)`, nothing for `None`: one conditional
      `params.append`. */
  function Opt(n: Name, o: Option<string>): (r: seq<Param>)
    ensures |r| <= 1 && (r != [] <==> o.Some?) && (o.Some? ==> r[0] == Param(n, o.value))
  {
    match o
    case None => []
    case Some(v) => [Param(n, v)]
  }

  /** The parameter list for given parameter values: `type` and `money`
      always, the others when present, in the fixed order. */
  function Layout(money: string, time: Option<string>, remark: Option<string>,
                  catename: Option<string>, cateChoose: bool): (ps: seq<Param>)
    ensures |ps| >= 2 && ps[0] == Param(Type, "0") && ps[1] == Param(Money, money)
  {
    [Param(Type, "0"), Param(Money, money)]
    + Opt(Time, time) + Opt(Remark, remark) + Opt(CateName, catename)
    + Opt(CateChoose, if cateChoose then Some("1") else None)
  }

  /** Parameter names strictly follow the order type, money, time, remark,
      catename, catechoose. */
  predicate InLinkOrder(ps: seq<Param>) {
    forall i, j :: 0 <= i < j < |ps| ==> Rank(ps[i].name) < Rank(ps[j].name)
  }

  lemma AppendInOrder(ps: seq<Param>, extra: seq<Param>, rank: nat)
    requires InLinkOrder(ps) && |extra| <= 1
    requires forall i :: 0 <= i < |ps| ==> Rank(ps[i].name) < rank
    requires forall i :: 0 <= i < |extra| ==> Rank(extra[i].name) == rank
    ensures InLinkOrder(ps + extra)
    ensures forall i :: 0 <= i < |ps + extra| ==> Rank((ps + extra)[i].name) <= rank
  {
  }

  lemma {:induction false} LayoutInOrder(money: string, time: Option<string>, remark: Option<string>,
                                         catename: Option<string>, cateChoose: bool)
    ensures InLinkOrder(Layout(money, time, remark, catename, cateChoose))
  {
    var p0 := [Param(Type, "0"), Param(Money, money)];
    var p1 := Opt(Time, time);
    var p2 := Opt(Remark, remark);
    var p3 := Opt(CateName, catename);
    var p4 := Opt(CateChoose, if cateChoose then Some("1") else None);
    AppendInOrder(p0, p1, 2);
    AppendInOrder(p0 + p1, p2, 3);
    AppendInOrder(p0 + p1 + p2, p3, 4);
    AppendInOrder(p0 + p1 + p2 + p3, p4, 5);
  }

  /** Read back as a query string, the link gives `type=0`, the amount, and
      each optional parameter exactly when its value is present. */
  lemma {:induction false} LayoutLookup(money: string, time: Option<string>, remark: Option<string>,
                                        catename: Option<string>, cateChoose: bool)
    ensures
      var ps := Layout(money, time, remark, catename, cateChoose);
      && Lookup(ps, Type) == Some("0") && Lookup(ps, Money) == Some(money)
      && Lookup(ps, Time) == time && Lookup(ps, Remark) == remark && Lookup(ps, CateName) == catename
      && Lookup(ps, CateChoose) == if cateChoose then Some("1") else None
  {
    var p0 := [Param(Type, "0"), Param(Money, money)];
    var p1 := Opt(Time, time);
    var p2 := Opt(Remark, remark);
    var p3 := Opt(CateName, catename);
    var p4 := Opt(CateChoose, if cateChoose then Some("1") else None);
    forall n: Name
      ensures Lookup(p0 + p1 + p2 + p3 + p4, n)
           == Lookup(p0, n).OrElse(Lookup(p1, n)).OrElse(Lookup(p2, n)).OrElse(Lookup(p3, n)).OrElse(Lookup(p4, n))
    {
      LookupConcat(p0, p1, n);
      LookupConcat(p0 + p1, p2, n);
      LookupConcat(p0 + p1 + p2, p3, n);
      LookupConcat(p0 + p1 + p2 + p3, p4, n);
    }
    assert p0[1..] == [Param(Money, money)] && p0[1..][1..] == [];
    forall n: Name
      ensures Lookup(p0, n) == if n == Type then Some("0") else if n == Money then Some(money) else None
    {
      assert Lookup(p0[1..][1..], n) == None;
    }
    forall m: Name, o: Option<string>, n: Name
      ensures Lookup(Opt(m, o), n) == if m == n then o else None
    {
      if o.Some? {
        assert Opt(m, o)[1..] == [];
      }
    }
  }

  // ---- The service's two settings ----

  /** The attributes of the `Settings` object of `app/config.py`: its declared
      fields. With `"extra": "ignore"`, no other environment value becomes an
      attribute. */
  const ConfiguredFields: set<string> := {
    "DATABASE_URL", "WECOM_CORP_ID", "WECOM_SECRET", "WECOM_TOKEN", "WECOM_AES_KEY",
    "WECOM_AGENT_ID", "AI_API_KEY", "AI_API_BASE_URL", "AI_MODEL_NAME", "OCR_API_KEY",
    "OCR_API_BASE_URL", "PENETRATE_URL", "JWT_SECRET_KEY", "JWT_ALGORITHM",
    "ACCESS_TOKEN_EXPIRE_MINUTES"
  }

  /** `QianjiService.__init__` as written: both flags are read as plain
      attributes, `None` where that raises `AttributeError`. */
  function ServiceFlagsAsWritten(settings: map<string, Value>): (r: Option<(Value, Value)>)
    ensures r.None? <==> "QIANJI_ENABLED" !in settings || "QIANJI_CATE_CHOOSE" !in settings
    ensures r.Some? ==> r.value.0 == settings["QIANJI_ENABLED"] && r.value.1 == settings["QIANJI_CATE_CHOOSE"]
  {
    if "QIANJI_ENABLED" in settings && "QIANJI_CATE_CHOOSE" in settings then
      Some((settings["QIANJI_ENABLED"], settings["QIANJI_CATE_CHOOSE"]))
    else None
  }

  /** With the settings `app/config.py` declares, constructing the module's
      `qianji_service` raises, so importing the module fails. */
  lemma ConfiguredServiceRaises(settings: map<string, Value>)
    requires settings.Keys == ConfiguredFields
    ensures ServiceFlagsAsWritten(settings).None?
  {
    assert "QIANJI_ENABLED" !in ConfiguredFields;
  }

  /** The flags read as the recognition service reads them, with `getattr`
      defaults: Qianji mode off and the category panel on. */
  function ServiceFlags(settings: map<string, Value>): (r: (Value, Value))
    ensures "QIANJI_ENABLED" !in settings ==> r.0 == Bool(false)
    ensures "QIANJI_CATE_CHOOSE" !in settings ==> r.1 == Bool(true)
  {
    (Get(settings, "QIANJI_ENABLED", Bool(false)), Get(settings, "QIANJI_CATE_CHOOSE", Bool(true)))
  }

  /** Where both settings exist, the defaulted read agrees with the service
      as written. */
  lemma DeclaredFlagsAgree(settings: map<string, Value>)
    requires "QIANJI_ENABLED" in settings && "QIANJI_CATE_CHOOSE" in settings
    ensures ServiceFlagsAsWritten(settings) == Some(ServiceFlags(settings))
  {
  }

  /** With the settings `app/config.py` declares, the defaulted read leaves
      Qianji mode off. */
  lemma ConfiguredServiceIsPlain(settings: map<string, Value>)
    requires settings.Keys == ConfiguredFields
    ensures !Truthy(ServiceFlags(settings).0) && ServiceFlags(settings).1 == Bool(true)
  {
    assert "QIANJI_ENABLED" !in ConfiguredFields && "QIANJI_CATE_CHOOSE" !in ConfiguredFields;
  }

  /** The failure path of `generate_qianji_url`: it returns "" when the amount
      is `None`, or when a truthy field that must be a string is not one
      (`" " in`, `+=` or `quote` then raise `TypeError`, which is caught). */
  predicate LinkFails(data: Dict, cateChoose: bool) {
    var date := Get(data, "transaction_date", Null);
    var remark := Or(Get(data, "description", Null), Get(data, "vendor", Null));
    var category := Get(data, "category", Null);
    || Get(data, "amount", Null) == Null
    || (Truthy(date) && !date.Str?)
    || (Truthy(remark) && !remark.Str?)
    || (Truthy(category) && !cateChoose && !category.Str?)
  }

  /** `time`: the date, when truthy, with noon added if it has no time part. */
  function TimeOf(data: Dict): Option<string> {
    var date := Get(data, "transaction_date", Null);
    if Truthy(date) then Some(TimeValue(TextOf(date))) else None
  }

  /** `remark`: the quoted description, or the quoted vendor when the
      description is falsy. */
  function RemarkOf(data: Dict, quote: string -> string): Option<string> {
    var remark := Or(Get(data, "description", Null), Get(data, "vendor", Null));
    if Truthy(remark) then Some(quote(TextOf(remark))) else None
  }

  /** `catename`: the quoted category, only with the category panel off. */
  function CateNameOf(data: Dict, cateChoose: bool, quote: string -> string): Option<string> {
    var category := Get(data, "category", Null);
    if Truthy(category) && !cateChoose then Some(quote(TextOf(category))) else None
  }

  /** The parameters `generate_qianji_url` emits, in emission order, or `None`
      when it returns "". */
  function QianjiParams(data: Dict, cateChoose: bool, quote: string -> string): (r: Option<seq<Param>>)
    ensures r.None? <==> LinkFails(data, cateChoose)
    ensures r.Some? ==> |r.value| >= 2 && r.value[0] == Param(Type, "0")
    ensures r.Some? ==> r.value[1] == Param(Money, Show(Get(data, "amount", Null)))
  {
    if LinkFails(data, cateChoose) then None
    else
      Some(Layout(Show(Get(data, "amount", Null)), TimeOf(data), RemarkOf(data, quote),
                  CateNameOf(data, cateChoose, quote), cateChoose))
  }

  /** The emitted parameters are always in the fixed order. */
  lemma QianjiParamsInOrder(data: Dict, cateChoose: bool, quote: string -> string)
    requires QianjiParams(data, cateChoose, quote).Some?
    ensures InLinkOrder(QianjiParams(data, cateChoose, quote).value)
  {
    LayoutInOrder(Show(Get(data, "amount", Null)), TimeOf(data), RemarkOf(data, quote),
                  CateNameOf(data, cateChoose, quote), cateChoose);
  }

  /** What the link says, parameter by parameter: `type=0`, `money` as
      `str(amount)`; `time` iff the date is truthy (not percent-encoded, noon
      added when it has no time); `remark` iff description-or-vendor is
      truthy; `catename` iff the category is truthy and the category panel is
      off; `catechoose=1` iff the panel is on. */
  lemma QianjiParamValues(data: Dict, cateChoose: bool, quote: string -> string)
    requires QianjiParams(data, cateChoose, quote).Some?
    ensures
      var ps := QianjiParams(data, cateChoose, quote).value;
      var date := Get(data, "transaction_date", Null);
      var remark := Or(Get(data, "description", Null), Get(data, "vendor", Null));
      var category := Get(data, "category", Null);
      && Lookup(ps, Type) == Some("0")
      && Lookup(ps, Money) == Some(Show(Get(data, "amount", Null)))
      && Lookup(ps, Time) == (if Truthy(date) then Some(TimeValue(date.s)) else None)
      && Lookup(ps, Remark) == (if Truthy(remark) then Some(quote(remark.s)) else None)
      && Lookup(ps, CateName) == (if Truthy(category) && !cateChoose then Some(quote(category.s)) else None)
      && Lookup(ps, CateChoose) == (if cateChoose then Some("1") else None)
  {
    LayoutLookup(Show(Get(data, "amount", Null)), TimeOf(data), RemarkOf(data, quote),
                 CateNameOf(data, cateChoose, quote), cateChoose);
  }

  /** A link whose first parameter is `type=0` begins with it. */
  lemma LinkPrefix(parts: seq<string>)
    requires |parts| >= 2 && parts[0] == "type=0"
    ensures BaseUrl + "type=0&" <= BaseUrl + Join(parts, "&")
  {
    var rest := Join(parts[1..], "&");
    assert Join(parts, "&") == "type=0" + "&" + rest;
    assert BaseUrl + Join(parts, "&") == (BaseUrl + "type=0&") + rest;
  }

  /** The link itself: "" on failure, otherwise the base followed by the
      rendered parameters joined with `&`. */
  function QianjiUrl(data: Dict, cateChoose: bool, quote: string -> string): (url: string)
    ensures url == "" <==> QianjiParams(data, cateChoose, quote).None?
    ensures url != "" ==> BaseUrl + "type=0&" <= url
  {
    match QianjiParams(data, cateChoose, quote)
    case None => ""
    case Some(ps) =>
      var parts := RenderAll(ps);
      assert parts[0] == Render(Param(Type, "0")) == "type=0";
      LinkPrefix(parts);
      BaseUrl + Join(parts, "&")
  }

  /** What the `time` block appends to a rendering of `ps`. */
  lemma TimeStep(data: Dict, ps: seq<Param>, params: seq<string>)
    requires params == RenderAll(ps)
    ensures var date := Get(data, "transaction_date", Null);
            Truthy(date) && date.Str? ==> params + ["time=" + TimeValue(date.s)] == RenderAll(ps + Opt(Time, TimeOf(data)))
    ensures !Truthy(Get(data, "transaction_date", Null)) ==> params == RenderAll(ps + Opt(Time, TimeOf(data)))
  {
    var date := Get(data, "transaction_date", Null);
    if Truthy(date) && date.Str? {
      var v := TimeValue(date.s);
      assert TimeOf(data) == Some(v);
      RenderAllConcat(ps, [Param(Time, v)]);
      assert RenderAll([Param(Time, v)]) == ["time=" + v];
    } else if !Truthy(date) {
      assert TimeOf(data) == None;
      assert ps + [] == ps;
    }
  }

  /** What the `remark` block appends to a rendering of `ps`. */
  lemma RemarkStep(data: Dict, quote: string -> string, ps: seq<Param>, params: seq<string>)
    requires params == RenderAll(ps)
    ensures var remark := Or(Get(data, "description", Null), Get(data, "vendor", Null));
            Truthy(remark) && remark.Str? ==> params + ["remark=" + quote(remark.s)] == RenderAll(ps + Opt(Remark, RemarkOf(data, quote)))
    ensures var remark := Or(Get(data, "description", Null), Get(data, "vendor", Null));
            !Truthy(remark) ==> params == RenderAll(ps + Opt(Remark, RemarkOf(data, quote)))
  {
    RenderAllConcat(ps, Opt(Remark, RemarkOf(data, quote)));
  }

  /** What the `catename` block appends to a rendering of `ps`. */
  lemma CateNameStep(data: Dict, cateChoose: bool, quote: string -> string, ps: seq<Param>, params: seq<string>)
    requires params == RenderAll(ps)
    ensures var category := Get(data, "category", Null);
            Truthy(category) && !cateChoose && category.Str? ==>
              params + ["catename=" + quote(category.s)] == RenderAll(ps + Opt(CateName, CateNameOf(data, cateChoose, quote)))
    ensures var category := Get(data, "category", Null);
            !(Truthy(category) && !cateChoose) ==> params == RenderAll(ps + Opt(CateName, CateNameOf(data, cateChoose, quote)))
  {
    RenderAllConcat(ps, Opt(CateName, CateNameOf(data, cateChoose, quote)));
    var category := Get(data, "category", Null);
    if Truthy(category) && !cateChoose && category.Str? {
      var v := quote(category.s);
      assert Opt(CateName, CateNameOf(data, cateChoose, quote)) == [Param(CateName, v)];
      assert RenderAll([Param(CateName, v)]) == ["catename=" + v];
    }
  }

  /** What the `catechoose` block appends to a rendering of `ps`. */
  lemma CateChooseStep(cateChoose: bool, ps: seq<Param>, params: seq<string>)
    requires params == RenderAll(ps)
    ensures cateChoose ==> params + ["catechoose=1"] == RenderAll(ps + Opt(CateChoose, Some("1")))
    ensures !cateChoose ==> params == RenderAll(ps + Opt(CateChoose, None))
  {
    RenderAllConcat(ps, Opt(CateChoose, if cateChoose then Some("1") else None));
    assert Render(Param(CateChoose, "1")) == "catechoose=1";
  }

  /** `generate_qianji_url`: appends the parameters one by one to a list, then
      joins them. */
  method GenerateQianjiUrl(data: Dict, cateChoose: bool, quote: string -> string) returns (url: string)
    ensures url == QianjiUrl(data, cateChoose, quote)
  {
    // `ps` is the parameter list the appends so far render.
    var params: seq<string> := [];
    params := params + ["type=0"];

    var amount := Get(data, "amount", Null);
    if amount != Null {
      params := params + ["money=" + Show(amount)];
    } else {
      return "";
    }
    ghost var ps := [Param(Type, "0"), Param(Money, Show(amount))];
    assert Render(Param(Type, "0")) == "type=0";
    assert params == RenderAll(ps);

    TimeStep(data, ps, params);
    var transactionDate := Get(data, "transaction_date", Null);
    if Truthy(transactionDate) {
      if !transactionDate.Str? {
        return "";
      }
      var date := transactionDate.s;
      if ' ' !in date {
        date := date + NoonSuffix;
      }
      params := params + ["time=" + date];
    }
    ps := ps + Opt(Time, TimeOf(data));

    RemarkStep(data, quote, ps, params);
    var description := Or(Get(data, "description", Null), Get(data, "vendor", Null));
    if Truthy(description) {
      if !description.Str? {
        return "";
      }
      params := params + ["remark=" + quote(description.s)];
    }
    ps := ps + Opt(Remark, RemarkOf(data, quote));

    CateNameStep(data, cateChoose, quote, ps, params);
    var category := Get(data, "category", Null);
    if Truthy(category) && !cateChoose {
      if !category.Str? {
        return "";
      }
      params := params + ["catename=" + quote(category.s)];
    }
    ps := ps + Opt(CateName, CateNameOf(data, cateChoose, quote));

    CateChooseStep(cateChoose, ps, params);
    if cateChoose {
      params := params + ["catechoose=1"];
    }
    ps := ps + Opt(CateChoose, if cateChoose then Some("1") else None);

    assert !LinkFails(data, cateChoose);
    assert ps == Layout(Show(amount), TimeOf(data), RemarkOf(data, quote), CateNameOf(data, cateChoose, quote), cateChoose);
    url := BaseUrl + Join(params, "&");
  }

  /** `format_transaction_data`: the recognised record renamed to the
      vocabulary of the Qianji API. */
  function FormatTransactionData(recognised: Dict, cateChoose: bool): (f: Dict)
    ensures f.Keys == {"type", "money", "time", "remark", "category", "catechoose"}
    ensures f["type"] == Int(0) && f["catechoose"] == Bool(cateChoose)
    ensures f["money"] == Get(recognised, "amount", Null)
    ensures f["time"] == Get(recognised, "transaction_date", Null)
    ensures f["remark"] == Or(Get(recognised, "description", Null), Get(recognised, "vendor", Null))
    ensures f["category"] == Get(recognised, "category", Null)
  {
    map[
      "type" := Int(0),
      "money" := Get(recognised, "amount", Null),
      "time" := Get(recognised, "transaction_date", Null),
      "remark" := Or(Get(recognised, "description", Null), Get(recognised, "vendor", Null)),
      "category" := Get(recognised, "category", Null),
      "catechoose" := Bool(cateChoose)
    ]
  }

  /** As written, the recognition service feeds the renamed record to the link
      builder, which still looks for `amount`: the link is always "". */
  lemma FormattedRecordYieldsNoLink(recognised: Dict, cateChoose: bool, quote: string -> string)
    ensures QianjiUrl(FormatTransactionData(recognised, cateChoose), cateChoose, quote) == ""
  {
    assert "amount" !in FormatTransactionData(recognised, cateChoose);
  }

  /** Built from the recognised record itself, the link carries the amount
      whenever there is one and the text fields are strings. */
  lemma {:induction false} RecognisedRecordYieldsLink(recognised: Dict, cateChoose: bool, quote: string -> string)
    requires Get(recognised, "amount", Null) != Null
    requires forall k :: k in {"transaction_date", "description", "vendor", "category"} && k in recognised ==>
               recognised[k].Str? || !Truthy(recognised[k])
    ensures QianjiUrl(recognised, cateChoose, quote) != ""
    ensures Param(Money, Show(recognised["amount"])) in QianjiParams(recognised, cateChoose, quote).value
  {
    var remark := Or(Get(recognised, "description", Null), Get(recognised, "vendor", Null));
    assert Truthy(remark) ==> remark.Str?;
  }
}
