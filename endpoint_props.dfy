/** What the callback endpoint guarantees across its branches and across
    requests: which branches touch the pending table and the ledger, that a
    confirm books exactly what the preceding image staged, that a cancel
    undoes the staging, and that a delivery is recorded before it is
    dispatched, so that its retry is answered without being handled again. */
module EndpointProperties {
  import opened Wrappers
  import opened PyValue
  import opened PyString
  import opened Workspace
  import opened Endpoint

  /** A text `确认`/`confirm` or a click on the confirm button. */
  predicate ConfirmRequest(msg: Dict) {
    || (MsgType(msg) == Str("text") && Get(msg, "Content", Null).Str? && IsConfirm(Get(msg, "Content", Null).s))
    || (MsgType(msg) == Str("event") && Get(msg, "Event", Null) == Str("click")
        && Get(msg, "EventKey", Null) == Str("confirm"))
  }

  /** A text `取消`/`cancel` that is not a confirm, or a click on the cancel
      button. */
  predicate CancelRequest(msg: Dict) {
    || (MsgType(msg) == Str("text") && Get(msg, "Content", Null).Str? && !IsConfirm(Get(msg, "Content", Null).s)
        && IsCancel(Get(msg, "Content", Null).s))
    || (MsgType(msg) == Str("event") && Get(msg, "Event", Null) == Str("click")
        && Get(msg, "EventKey", Null) == Str("cancel"))
  }

  function Sender(msg: Dict): Value {
    Get(msg, "FromUserName", Null)
  }

  /** The ledger after booking the user's latest pending record. */
  ghost function BookedLatest(w: World, user: Value): seq<Transaction>
    requires Latest(w.pending, user).Some?
  {
    w.ledger + [Booked(user, Entry(w.pending, user, Latest(w.pending, user).value).value)]
  }

  // ---- One branch at a time ----

  /** A confirm leaves the dedup table alone and either changes nothing in the
      workspace or books the latest record once and removes it. */
  lemma ConfirmStepEffect(w: World, user: Value, env: Env)
    ensures var s := ConfirmStep(w, user, env);
            && s.world.processed == w.processed
            && ((s.world.ledger == w.ledger && s.world.pending == w.pending)
                || (Latest(w.pending, user).Some? && s.world.ledger == BookedLatest(w, user)
                    && s.world.pending == Removed(w.pending, user, Latest(w.pending, user).value)))
  {
    match Latest(w.pending, user)
    case None =>
    case Some(key) =>
      var (outcome, w1) := Confirmed(w, user, key, env);
      if outcome != Failed {
        var text := if outcome == Done then ConfirmedText else NotFoundText;
        assert ConfirmStep(w, user, env) == Texted(w1, user, text, env);
      }
  }

  /** A cancel never books, and removes the latest record when there is one. */
  lemma CancelStepEffect(w: World, user: Value, env: Env)
    ensures var s := CancelStep(w, user, env);
            && s.world.processed == w.processed && s.world.ledger == w.ledger
            && s.world.pending == match Latest(w.pending, user)
                                  case None => w.pending
                                  case Some(key) => Removed(w.pending, user, key)
  {
    var w1 := match Latest(w.pending, user)
      case None => w
      case Some(key) => w.(pending := Removed(w.pending, user, key));
    assert CancelStep(w, user, env) == Texted(w1, user, CancelledText, env);
  }

  /** An image never books and never touches the dedup table. */
  lemma ImageStepKeeps(w: World, msg: Dict, env: Env)
    ensures ImageStep(w, msg, env).world.processed == w.processed
    ensures ImageStep(w, msg, env).world.ledger == w.ledger
  {
    var (token, cache, _) := WeComService.FetchToken(w.cache, Clock(env), env.tokenReply);
    var w1 := w.(cache := cache);
    if !(token.Err? || env.downloadFails) {
      var result := RecognitionOf(env);
      if !Truthy(Get(result, "success", Bool(true))) {
        assert RecognisedStep(w1, Sender(msg), env) == Texted(w1, Sender(msg), FailureText(result), env);
      } else if env.qianjiEnabled && Truthy(Get(result, "qianji_enabled", Bool(false))) {
        assert RecognisedStep(w1, Sender(msg), env) == Texted(w1, Sender(msg), QianjiText(result), env);
      }
    }
  }

  /** An image changes the pending table exactly when recognition succeeded
      outside Qianji mode and nothing raised, and then saves the dated record
      under the current clock reading. */
  lemma ImageStepPending(w: World, msg: Dict, env: Env)
    ensures var s := ImageStep(w, msg, env);
            s.world.pending == if !s.raised && ToBeStaged(RecognitionOf(env), env)
                               then Saved(w.pending, Sender(msg), env.now, Staged(RecognitionOf(env), env))
                               else w.pending
  {
  }

  /** The image that is staged: its whole world after the step. */
  lemma ImageStaged(w: World, msg: Dict, env: Env)
    requires !ImageStep(w, msg, env).raised && ToBeStaged(RecognitionOf(env), env)
    ensures ImageStep(w, msg, env).world
         == StagedWorld(w.(cache := WeComService.FetchToken(w.cache, Clock(env), env.tokenReply).1),
                        Sender(msg), RecognitionOf(env), env)
  {
  }

  /** The dispatch never touches the dedup table; the ledger grows only on a
      confirm, by the sender's latest pending record; the pending table
      changes only on an image, a confirm or a cancel; and no bucket is ever
      left empty. */
  lemma DispatchedEffect(w: World, msg: Dict, env: Env)
    ensures var s := Dispatched(w, msg, env);
            && s.world.processed == w.processed
            && (s.world.ledger == w.ledger
                || (ConfirmRequest(msg) && Latest(w.pending, Sender(msg)).Some?
                    && s.world.ledger == BookedLatest(w, Sender(msg))))
            && (s.world.pending == w.pending || MsgType(msg) == Str("image") || ConfirmRequest(msg)
                || CancelRequest(msg))
            && (NoEmptyBuckets(w.pending) ==> NoEmptyBuckets(s.world.pending))
  {
    var user := Sender(msg);
    if MsgType(msg) == Str("image") {
      ImageStepKeeps(w, msg, env);
      ImageStepPending(w, msg, env);
    } else if MsgType(msg) == Str("text") {
      var content := Get(msg, "Content", Null);
      if content.Str? && IsConfirm(content.s) {
        ConfirmStepEffect(w, user, env);
      } else if content.Str? && IsCancel(content.s) {
        CancelStepEffect(w, user, env);
      } else if content.Str? {
        assert Dispatched(w, msg, env) == Texted(w, user, TextAnswer(content.s, user, env), env);
      }
    } else if MsgType(msg) == Str("event") && Get(msg, "Event", Null) == Str("click") {
      var key := Get(msg, "EventKey", Null);
      if key == Str("confirm") {
        ConfirmStepEffect(w, user, env);
      } else if key == Str("cancel") {
        CancelStepEffect(w, user, env);
      }
    }
  }

  /** A confirm request, text or click, takes the confirm branch. */
  lemma DispatchedConfirm(w: World, msg: Dict, env: Env)
    requires ConfirmRequest(msg)
    ensures Dispatched(w, msg, env) == ConfirmStep(w, Sender(msg), env)
  {
  }

  /** A cancel request, text or click, takes the cancel branch. */
  lemma DispatchedCancel(w: World, msg: Dict, env: Env)
    requires CancelRequest(msg)
    ensures Dispatched(w, msg, env) == CancelStep(w, Sender(msg), env)
  {
  }

  /** An event other than a menu click changes nothing and is answered. */
  lemma NonClickEventIgnored(w: World, msg: Dict, env: Env)
    requires MsgType(msg) == Str("event")
    requires Get(msg, "Event", Null) != Str("click")
              || Get(msg, "EventKey", Null) !in {Str("confirm"), Str("cancel")}
    ensures Dispatched(w, msg, env) == Step(false, w)
  {
  }

  // ---- Staging followed by a confirm or a cancel ----

  /** A record staged later than every pending record of its user is the one
      the next confirm books, and the confirm restores the pending table. */
  lemma StageThenConfirm(w: World, user: Value, result: Dict, env: Env, env2: Env)
    requires NoEmptyBuckets(w.pending)
    requires forall k :: Entry(w.pending, user, k).Some? ==> k < env.now
    requires env2.ledgerAccepts(Booked(user, Staged(result, env)))
    ensures var s := ConfirmStep(StagedWorld(w, user, result, env), user, env2);
            && s.world.ledger == w.ledger + [Booked(user, Staged(result, env))]
            && s.world.pending == w.pending
  {
    var stored := Staged(result, env);
    var w1 := StagedWorld(w, user, result, env);
    assert w1.pending == Saved(w.pending, user, env.now, stored);
    SavedIsLatest(w.pending, user, env.now, stored);
    assert "transaction_id" in stored;
    var (outcome, w2) := Confirmed(w1, user, env.now, env2);
    assert outcome == Done;
    SaveThenRemove(w.pending, user, env.now, stored);
    assert ConfirmStep(w1, user, env2) == Texted(w2, user, ConfirmedText, env2);
  }

  /** A cancel right after staging removes the staged record and nothing
      else, and books nothing. */
  lemma StageThenCancel(w: World, user: Value, result: Dict, env: Env, env2: Env)
    requires NoEmptyBuckets(w.pending)
    requires forall k :: Entry(w.pending, user, k).Some? ==> k < env.now
    ensures var s := CancelStep(StagedWorld(w, user, result, env), user, env2);
            s.world.ledger == w.ledger && s.world.pending == w.pending
  {
    var stored := Staged(result, env);
    var w1 := StagedWorld(w, user, result, env);
    SavedIsLatest(w.pending, user, env.now, stored);
    SaveThenRemove(w.pending, user, env.now, stored);
    CancelStepEffect(w1, user, env2);
  }

  /** An image message followed by a confirm from the same user: the ledger
      gains exactly the record the image staged, and the pending table is as
      it was before the image. */
  lemma ImageThenConfirm(w: World, image: Dict, confirm: Dict, env: Env, env2: Env)
    requires NoEmptyBuckets(w.pending)
    requires MsgType(image) == Str("image") && ConfirmRequest(confirm) && Sender(confirm) == Sender(image)
    requires forall k :: Entry(w.pending, Sender(image), k).Some? ==> k < env.now
    requires !Dispatched(w, image, env).raised && ToBeStaged(RecognitionOf(env), env)
    requires env2.ledgerAccepts(Booked(Sender(image), Staged(RecognitionOf(env), env)))
    ensures var s := Dispatched(Dispatched(w, image, env).world, confirm, env2);
            && s.world.ledger == w.ledger + [Booked(Sender(image), Staged(RecognitionOf(env), env))]
            && s.world.pending == w.pending
  {
    var user := Sender(image);
    var w0 := w.(cache := WeComService.FetchToken(w.cache, Clock(env), env.tokenReply).1);
    ImageStaged(w, image, env);
    StageThenConfirm(w0, user, RecognitionOf(env), env, env2);
    DispatchedConfirm(Dispatched(w, image, env).world, confirm, env2);
  }

  /** An image message followed by a cancel from the same user leaves the
      pending table and the ledger as they were before the image. */
  lemma ImageThenCancel(w: World, image: Dict, cancel: Dict, env: Env, env2: Env)
    requires NoEmptyBuckets(w.pending)
    requires MsgType(image) == Str("image") && CancelRequest(cancel) && Sender(cancel) == Sender(image)
    requires forall k :: Entry(w.pending, Sender(image), k).Some? ==> k < env.now
    requires !Dispatched(w, image, env).raised && ToBeStaged(RecognitionOf(env), env)
    ensures var s := Dispatched(Dispatched(w, image, env).world, cancel, env2);
            s.world.ledger == w.ledger && s.world.pending == w.pending
  {
    var user := Sender(image);
    var w0 := w.(cache := WeComService.FetchToken(w.cache, Clock(env), env.tokenReply).1);
    ImageStaged(w, image, env);
    StageThenCancel(w0, user, RecognitionOf(env), env, env2);
    DispatchedCancel(Dispatched(w, image, env).world, cancel, env2);
  }

  // ---- Whole requests ----

  /** The request is refused with 400 exactly when a parameter is missing or
      empty, and then nothing changes. */
  lemma BadRequestIffMissing(w: World, msgSignature: Option<string>, timestamp: Option<string>,
                             nonce: Option<string>, env: Env)
    requires env.WellFormed()
    ensures var r := Handle(w, msgSignature, timestamp, nonce, env);
            && (r.0.BadRequest? <==> Absent(msgSignature) || Absent(timestamp) || Absent(nonce))
            && (r.0.BadRequest? ==> r.1 == w && MissingNames(msgSignature, timestamp, nonce) != [])
  {
    if !(Absent(msgSignature) || Absent(timestamp) || Absent(nonce)) {
      var r := Responded(w, msgSignature.value, timestamp.value, nonce.value, env);
      assert !r.0.BadRequest?;
    }
  }

  /** The 400 detail names exactly the missing parameters. */
  lemma MissingNamesExact(msgSignature: Option<string>, timestamp: Option<string>, nonce: Option<string>, name: string)
    ensures name in MissingNames(msgSignature, timestamp, nonce)
        <==> || (name == "msg_signature" && Absent(msgSignature))
             || (name == "timestamp" && Absent(timestamp))
             || (name == "nonce" && Absent(nonce))
  {
    var a := if Absent(msgSignature) then ["msg_signature"] else [];
    var b := if Absent(timestamp) then ["timestamp"] else [];
    var c := if Absent(nonce) then ["nonce"] else [];
    assert MissingNames(msgSignature, timestamp, nonce) == a + b + c;
    assert name in a + b + c <==> name in a || name in b || name in c;
  }

  predicate Present(msgSignature: Option<string>, timestamp: Option<string>, nonce: Option<string>) {
    !Absent(msgSignature) && !Absent(timestamp) && !Absent(nonce)
  }

  ghost function MessageOf(msgSignature: Option<string>, timestamp: Option<string>, nonce: Option<string>,
                           env: Env): Dict
    requires Present(msgSignature, timestamp, nonce)
  {
    Decrypted(msgSignature.value, timestamp.value, nonce.value, env)
  }

  /** A delivery whose MsgId is already recorded changes nothing and is
      answered with the "already processed" status. */
  lemma DuplicateIgnored(w: World, msgSignature: Option<string>, timestamp: Option<string>,
                         nonce: Option<string>, env: Env)
    requires env.WellFormed() && Present(msgSignature, timestamp, nonce)
    requires Duplicate(w.processed, MessageOf(msgSignature, timestamp, nonce, env))
    ensures Handle(w, msgSignature, timestamp, nonce, env)
         == (Xml(Envelope(Sealed(AlreadyProcessed, env), env.unquote(msgSignature.value),
                          env.unquote(timestamp.value), env.unquote(nonce.value))), w)
  {
  }

  /** A first delivery is recorded before it is dispatched: whatever the
      branch does, the dedup table afterwards is the table with its MsgId
      noted, and no bucket is left empty. */
  lemma FirstDeliveryNoted(w: World, msgSignature: Option<string>, timestamp: Option<string>,
                           nonce: Option<string>, env: Env)
    requires env.WellFormed() && Present(msgSignature, timestamp, nonce)
    requires !Duplicate(w.processed, MessageOf(msgSignature, timestamp, nonce, env))
    ensures var msg := MessageOf(msgSignature, timestamp, nonce, env);
            Handle(w, msgSignature, timestamp, nonce, env).1.processed == Noted(w.processed, msg, env)
  {
    var msg := MessageOf(msgSignature, timestamp, nonce, env);
    DispatchedEffect(w.(processed := Noted(w.processed, msg, env)), msg, env);
  }

  /** No request leaves a user with an empty bucket. */
  lemma HandleKeepsBucketsNonEmpty(w: World, msgSignature: Option<string>, timestamp: Option<string>,
                                   nonce: Option<string>, env: Env)
    requires env.WellFormed() && NoEmptyBuckets(w.pending)
    ensures NoEmptyBuckets(Handle(w, msgSignature, timestamp, nonce, env).1.pending)
  {
    if Present(msgSignature, timestamp, nonce) {
      var msg := MessageOf(msgSignature, timestamp, nonce, env);
      DispatchedEffect(w.(processed := Noted(w.processed, msg, env)), msg, env);
    }
  }

  /** Only a first delivery of a confirm books anything. */
  lemma OnlyConfirmBooks(w: World, msgSignature: Option<string>, timestamp: Option<string>,
                         nonce: Option<string>, env: Env)
    requires env.WellFormed()
    ensures Handle(w, msgSignature, timestamp, nonce, env).1.ledger != w.ledger ==>
              && Present(msgSignature, timestamp, nonce)
              && ConfirmRequest(MessageOf(msgSignature, timestamp, nonce, env))
              && !Duplicate(w.processed, MessageOf(msgSignature, timestamp, nonce, env))
  {
    if Present(msgSignature, timestamp, nonce) {
      var msg := MessageOf(msgSignature, timestamp, nonce, env);
      DispatchedEffect(w.(processed := Noted(w.processed, msg, env)), msg, env);
    }
  }

  /** A retry of a delivery with a MsgId, arriving before any other message,
      is a duplicate: it is answered "already processed" and changes nothing,
      even when the first delivery ended in a server error. */
  lemma RetryIgnored(w: World, msgSignature: Option<string>, timestamp: Option<string>,
                     nonce: Option<string>, env: Env, env2: Env)
    requires env.WellFormed() && env2.WellFormed() && Present(msgSignature, timestamp, nonce)
    requires env2.unquote == env.unquote && env2.decrypt == env.decrypt && env2.parse == env.parse
    requires Truthy(Get(MessageOf(msgSignature, timestamp, nonce, env), "MsgId", Null))
    ensures var w1 := Handle(w, msgSignature, timestamp, nonce, env).1;
            Handle(w1, msgSignature, timestamp, nonce, env2).1 == w1
            && Handle(w1, msgSignature, timestamp, nonce, env2).0
               == Xml(Envelope(Sealed(AlreadyProcessed, env2), env.unquote(msgSignature.value),
                               env.unquote(timestamp.value), env.unquote(nonce.value)))
  {
    var msg := MessageOf(msgSignature, timestamp, nonce, env);
    assert MessageOf(msgSignature, timestamp, nonce, env2) == msg;
    var w1 := Handle(w, msgSignature, timestamp, nonce, env).1;
    if !Duplicate(w.processed, msg) {
      FirstDeliveryNoted(w, msgSignature, timestamp, nonce, env);
    }
    assert Duplicate(w1.processed, msg);
    DuplicateIgnored(w1, msgSignature, timestamp, nonce, env2);
  }

  /** A message of any other type is recorded and answered "unsupported
      message type", and nothing else changes. */
  lemma UnsupportedTypeAnswered(w: World, msgSignature: Option<string>, timestamp: Option<string>,
                                nonce: Option<string>, env: Env)
    requires env.WellFormed() && Present(msgSignature, timestamp, nonce)
    requires var msg := MessageOf(msgSignature, timestamp, nonce, env);
             !Duplicate(w.processed, msg) && !Handled(msg)
    ensures Handle(w, msgSignature, timestamp, nonce, env)
         == (Xml(Envelope(Sealed(Unsupported, env), env.unquote(msgSignature.value),
                          env.unquote(timestamp.value), env.unquote(nonce.value))),
             w.(processed := Noted(w.processed, MessageOf(msgSignature, timestamp, nonce, env), env)))
  {
  }
}
