# SmartBookkeeper: the WeCom bookkeeping pipeline, modelled in Dafny

SmartBookkeeper is a bookkeeping assistant that runs inside WeCom (企业微信). A user
photographs a receipt and sends it to the application's agent.

1. WeCom posts the encrypted message to the callback endpoint
   (`POST /api/v1/wecom/callback`).
2. The endpoint checks the three query parameters, decrypts the message and drops
   deliveries it has already seen. It then dispatches on the message type.
3. An image is downloaded and passed to a language model. The model's reply is
   classified into a recognised record or a fixed failure record.
4. The record is staged as a *pending transaction* and announced to the user by a
   confirmation card. A later text `确认`/`confirm` (or a click on the confirm
   button) books the user's latest pending transaction into the ledger. `取消`/`cancel`
   discards it.
5. In Qianji mode no record is staged. The user is sent a deep link into the Qianji
   bookkeeping app instead.
6. Every answer is an encrypted status wrapped in a fixed four-field XML envelope.

The project models this pipeline:

- `endpoint.dfy` holds the endpoint. The class `Endpoint.Callback` keeps the two
  module-level dictionaries (`pending_transactions`, `processed_messages`) as fields
  and updates them in place. Each method is proved equal to a pure function of the
  state before the request: a `World` (the two tables, a ledger log, a sent-message
  log, the token cache and the cards sent) and whether the branch raised.
- `endpoint_props.dfy` states what those functions guarantee across branches and
  across requests.
- `workspace.dfy` defines the two tables as values. It covers saving, removing, the
  latest key, and the 24-hour sweep of the duplicate guard.
- `wecom_service.dfy` covers the WeCom service:
  - the token cache with its five-minute early expiry;
  - the record extracted from a decrypted message;
  - the encryption of a reply, with its ten-character nonce;
  - the signature pre-image;
  - the confirmation card.
- `wecom_xml.dfy` covers the `<xml>` document `encrypt_message` writes, and a reader
  that recovers its fields.
- `qianji.dfy` covers the Qianji link builder and the field renaming.
- `recognition.dfy` covers the classification of the model's reply, the Qianji keys
  and the normalisation done by `recognize_text`.
- `sort.dfy` is `list.sort()` on strings: an in-place insertion sort on an array,
  specified by a functional sort.
- `pystring.dfy` and `pyvalue.dfy` hold the Python string operations and values the
  core uses: `strip`, `find`, `rfind`, `lower` comparisons, truthiness, `str()` and
  `int()`.

Everything outside the process is a parameter of the request: the clock, the crypto
library, SHA-1, ElementTree's parser, `json.loads`, `quote`, every HTTP exchange, the
ledger's acceptance of a row and the settings. The clock is an integer count of
microseconds. Pending-transaction keys are those integers: the source keys them by
`datetime.now().isoformat()`, whose string order is the time order.

## Model

| member | source | states |
|---|---|---|
| PyString.StripStart | app/services/image_recognition_service.py:172 | `lstrip()`: the result is a suffix, everything dropped is whitespace, and the result does not start with whitespace |
| PyString.StripEnd | app/services/image_recognition_service.py:172 | `rstrip()`: the result is a prefix, everything dropped is whitespace, and the result does not end with whitespace |
| PyString.Strip | app/services/image_recognition_service.py:172 | `strip()` returns the infix of its input left once the leading and trailing whitespace is dropped, and that infix neither starts nor ends with whitespace |
| PyString.StripUnpadded | app/services/image_recognition_service.py:172 | a string without whitespace at either end is its own `strip()` |
| PyString.StripIdempotent | app/services/image_recognition_service.py:172 | `strip()` applied twice is `strip()` applied once |
| PyString.Find | app/services/image_recognition_service.py:201 | `find` gives -1 exactly when the character is absent, otherwise the index of its first occurrence |
| PyString.RFind | app/services/image_recognition_service.py:202 | `rfind` gives -1 exactly when the character is absent, otherwise the index of its last occurrence |
| PyString.Slice | app/services/image_recognition_service.py:205 | `s[start:end]` is the slice when start <= end, otherwise empty |
| PyString.AsciiLower | app/api/endpoints/wecom.py:254 | `lower()` maps ASCII capitals to lower case and leaves every other character alone |
| PyString.LowerEqualsSelf | app/api/endpoints/wecom.py:254 | a command word without capitals matches itself after `lower()` |
| PyString.LexLeTotal | app/services/wecom_service.py:282 | Python's string order is total |
| PyString.LexLeTransitive | app/services/wecom_service.py:282 | Python's string order is transitive |
| PyString.LexLeAntisymmetric | app/services/wecom_service.py:282 | Python's string order is antisymmetric |
| PyValue.Or | app/services/qianji_service.py:52 | `a or b` is `a` when `a` is truthy, otherwise `b`; it is truthy exactly when one of them is |
| PyValue.NatToString | app/services/wecom_service.py:193 | the decimal rendering of a natural number has at least one character, only digits, and no leading zero |
| PyValue.IntToString | app/api/endpoints/wecom.py:186 | `str(i)` has no surrounding whitespace and starts with `-` exactly when i is negative |
| PyValue.ParseInt | app/services/wecom_service.py:193 | `int(text)` succeeds only on text whose stripped form contains a digit; other text raises |
| PyValue.NatToStringValue | app/services/wecom_service.py:193 | the digits of `str(n)` have the value n |
| PyValue.IntToStringRoundTrip | app/services/wecom_service.py:193 | `int(str(i)) == i` for every integer |
| Qianji.TimeValue | app/services/qianji_service.py:44-49 | the `time` value contains a space, and it begins with the date (` 12:00:00` is added only when the date has no space) |
| Qianji.Opt | app/services/qianji_service.py:44-63 | a conditional append adds exactly one parameter when the value is present, and none otherwise |
| Qianji.Layout | app/services/qianji_service.py:29-63 | the parameter list always starts with `type=0` and then the money |
| Qianji.LayoutInOrder | app/services/qianji_service.py:33-63 | parameters always appear in the fixed order type, money, time, remark, catename, catechoose |
| Qianji.LayoutLookup | app/services/qianji_service.py:33-63 | read back, each optional parameter is present exactly when its value is, and has that value |
| Qianji.QianjiParams | app/services/qianji_service.py:24-76 | no link exactly when the amount is `None` or a truthy text field is not a string (the `except` path; for a list or dict date see Left out); otherwise the list starts `type=0`, then `money=str(amount)` |
| Qianji.QianjiParamsInOrder | app/services/qianji_service.py:33-63 | the emitted parameters are in the fixed order |
| Qianji.QianjiParamValues | app/services/qianji_service.py:33-63 | each parameter's presence and value: `time` iff the date is truthy, with noon added and no quoting; `remark` iff description-or-vendor is truthy, quoted; `catename` iff the category is truthy and the panel is off; `catechoose=1` iff the panel is on |
| Qianji.QianjiUrl | app/services/qianji_service.py:26-72 | the link is "" exactly on failure; otherwise it begins `qianji://publicapi/addbill?type=0&` |
| Qianji.GenerateQianjiUrl | app/services/qianji_service.py:15-76 | the append-by-append builder returns exactly the link `QianjiUrl` specifies, including "" on every failure path |
| Qianji.FormatTransactionData | app/services/qianji_service.py:78-105 | exactly the six keys type=0, money=amount, time=transaction_date, remark=description or vendor, category, catechoose |
| Qianji.ServiceFlagsAsWritten | app/services/qianji_service.py:11-13 | the service reads both flags as attributes and raises exactly when either is missing |
| Qianji.ConfiguredServiceRaises | app/services/qianji_service.py:112 | with the settings `app/config.py` declares, constructing `qianji_service` raises |
| Qianji.ServiceFlags | app/services/image_recognition_service.py:92-93 | the flags read with `getattr`: Qianji mode off and the category panel on when unset |
| Qianji.DeclaredFlagsAgree | app/services/qianji_service.py:11-13 | where both settings exist, the defaulted read equals the direct one |
| Qianji.ConfiguredServiceIsPlain | app/services/image_recognition_service.py:92-93 | with the settings `app/config.py` declares, the defaulted read leaves Qianji mode off |
| Qianji.FormattedRecordYieldsNoLink | app/services/image_recognition_service.py:187-189 | the link built from the renamed record is always "" |
| Qianji.RecognisedRecordYieldsLink | app/services/qianji_service.py:36-72 | built from a record with an amount whose text fields are strings, the link is non-empty and carries `money=str(amount)` |
| Recognition.Failure | app/services/image_recognition_service.py:153-156 | a failure record has exactly the keys success=False and error |
| Recognition.Candidate | app/services/image_recognition_service.py:180-206 | there is no candidate iff the reply has no `{`; otherwise the candidate is exactly `reply[first { : last } + 1]`, which is what a brace-delimited reply taken whole also is; a non-empty candidate is brace-delimited, and it is empty iff the last `}` precedes the first `{` |
| Recognition.JsonLoads | app/services/image_recognition_service.py:181 | `json.loads("")` always fails |
| Recognition.Classify | app/services/image_recognition_service.py:138-244 | each failure maps to its fixed message: raised, non-200 status, unreadable body, `error` member, no content; trimmed content without `{` is a format error; otherwise the result is the parsed slice exactly when `json.loads` accepts the slice, and a parse error when it does not; every failure message is one of the five fixed texts |
| Recognition.NoBraceIsFormatError | app/services/image_recognition_service.py:201-204 | a trimmed reply without `{` is the "返回格式不正确" failure |
| Recognition.OpenBraceOnlyIsParseError | app/services/image_recognition_service.py:201-206 | a `{` without any `}` gives the empty slice, hence the "响应解析错误" failure |
| Recognition.WholeObjectParses | app/services/image_recognition_service.py:180-198 | a brace-delimited reply that parses is returned as the parsed record |
| Recognition.QianjiLinkAsWritten | app/services/image_recognition_service.py:185-189 | the link as the source builds it is always "" |
| Recognition.QianjiLink | app/services/image_recognition_service.py:185-189 | the link built from the parsed record is non-empty and starts with the base URL whenever the record has an amount and string text fields |
| Recognition.WithQianji | app/services/image_recognition_service.py:185-198 | in Qianji mode the record gains exactly qianji_url, qianji_enabled=True and catechoose, and keeps every other field; qianji_url is the corrected link |
| Recognition.ProcessImageWithAi | app/services/image_recognition_service.py:89-244 | the method that adds the keys in place returns the specified record: a failure record, or the parsed record with its Qianji keys (the corrected link) |
| Recognition.Normalise | app/services/image_recognition_service.py:64-72 | a result lacking success=False passes through; any other becomes exactly {success: False, error}, with the error defaulting to "图片识别失败" |
| Recognition.NormaliseIdempotent | app/services/image_recognition_service.py:64-72 | normalising twice is normalising once |
| Recognition.RecognizeText | app/services/image_recognition_service.py:22-88 | a read failure gives "图片识别失败: …"; a classified failure gives its failure record; otherwise the record; the result always passes the endpoint's success test or is exactly a failure record; in Qianji mode the record carries the corrected link |
| WeComXml.EscapeChar | app/services/wecom_service.py:240-242 | an escaped character is never `<` |
| WeComXml.Escape | app/services/wecom_service.py:240-242 | escaped text contains no `<` and is no shorter than the original |
| WeComXml.UnescapeEscapeChar | app/services/wecom_service.py:240-242 | the reader undoes the escape of one character, whatever follows it |
| WeComXml.UnescapeEscape | app/services/wecom_service.py:240-242 | escaping loses nothing: unescaping gives the original text |
| WeComXml.Children | app/services/wecom_service.py:238-240 | one child element per message item |
| WeComXml.SerialiseMessage | app/services/wecom_service.py:237-243 | the SubElement loop writes exactly the document `Document` specifies |
| WeComXml.Span | app/services/wecom_service.py:242 | the reader's scan stops at the first stop character |
| WeComXml.SpanOfPrefix | app/services/wecom_service.py:242 | the scan of a stop-free text followed by a stop character covers exactly that text |
| WeComXml.ReadElement | app/services/wecom_service.py:242 | a read element spans at least one character and no more than the input |
| WeComXml.UnescapeTexts | app/services/wecom_service.py:240 | each element text is unescaped, with tags and order kept |
| WeComXml.Fields | app/services/wecom_service.py:238-240 | each key paired with `str(value)`, in order |
| WeComXml.Written | app/services/wecom_service.py:238-242 | each key paired with its escaped `str(value)`, in order |
| WeComXml.ReadTag | app/services/wecom_service.py:239 | a plain tag is read back whole |
| WeComXml.ReadBodyOf | app/services/wecom_service.py:240-242 | element text is read up to its closing tag |
| WeComXml.ReadEmptyElementOf | app/services/wecom_service.py:242 | an element without text, written `<tag />`, is read back with empty text |
| WeComXml.ReadTextElementOf | app/services/wecom_service.py:240-242 | an element with text is read back with its escaped text and full length |
| WeComXml.ReadElementOf | app/services/wecom_service.py:239-242 | every written element is read back as its tag and escaped text, covering exactly its own characters |
| WeComXml.ReadChildren | app/services/wecom_service.py:238-242 | the written children are read back as the written fields, in order, followed by whatever follows |
| WeComXml.ReadWrapped | app/services/wecom_service.py:237 | the reader strips the `<xml>` root and reads its children |
| WeComXml.ReadDocumentOf | app/services/wecom_service.py:237-243 | reading the written document back gives every key with its `str(value)`, in the message's order |
| WeComService.FetchToken | app/services/wecom_service.py:30-48 | a cached, unexpired token is served without a request; otherwise a request is sent. A refresh stores the token with expiry now + expires_in − 300. A refusal raises with the errmsg. A failed request or refusal leaves the cache unchanged. A reply with errcode 0 but no usable `expires_in` raises with the new token already stored and the old expiry kept |
| WeComService.PartialRefreshServed | app/services/wecom_service.py:45-47 | the token stored by a reply that then raised is served, without a request, while the old expiry lies ahead |
| WeComService.CachedUntilEarlyExpiry | app/services/wecom_service.py:33-47 | a fetched token is served again, without a request, until five minutes before it expires |
| WeComService.ShortLivedTokenRefetched | app/services/wecom_service.py:33-47 | a token living five minutes or less is never served from the cache |
| WeComService.TypeSpecific | app/services/wecom_service.py:203-211 | text adds Content; image adds PicUrl and MediaId; event adds Event and EventKey; other types add nothing; each holds its element's text |
| WeComService.BaseRecord | app/services/wecom_service.py:190-196 | the five base fields, each holding its element's text ("" when missing); CreateTime holds the parsed integer |
| WeComService.ExtractFields | app/services/wecom_service.py:187-213 | the record has the base fields, AgentID only when present with text, and exactly its type's fields. It fails iff `int(CreateTime)` raises |
| WeComService.DecryptMessage | app/services/wecom_service.py:171-221 | `{}` when the library fails or raises or the plaintext is empty; otherwise the extracted record, or `{}` where extraction raises. A non-empty result has all five base fields |
| WeComService.CreateTimeRoundTrip | app/services/wecom_service.py:193 | a CreateTime element holding `str(n)` is extracted as n |
| WeComService.DecryptedTypeFields | app/services/wecom_service.py:203-211 | in a decrypted record, the type-specific fields present are exactly those of its MsgType |
| WeComService.FailedDecryptHasNoType | app/services/wecom_service.py:214-221 | a failed decryption gives a record without MsgType, which the endpoint answers as unsupported |
| WeComService.CharRange | app/services/wecom_service.py:271 | consecutive code points from a first character |
| WeComService.AlphabetIsLettersAndDigits | app/services/wecom_service.py:271 | the nonce alphabet has 62 characters: exactly the ASCII letters and digits |
| WeComService.RandomString | app/services/wecom_service.py:267-272 | exactly `length` characters, each an ASCII letter or digit |
| WeComService.EveryCharacterDrawable | app/services/wecom_service.py:267-272 | every letter and digit can appear at every position |
| WeComService.EncryptMessage | app/services/wecom_service.py:233-265 | the library's ciphertext for the written document and a fresh ten-character nonce, or "" when the library fails or raises |
| WeComService.GenerateMsgSignature | app/services/wecom_service.py:274-292 | the method that sorts in place hashes the four parameters sorted and concatenated |
| WeComService.SignatureIgnoresOrder | app/services/wecom_service.py:280-292 | the signature does not depend on the order in which the four parameters are given |
| WeComService.PreImageSorted | app/services/wecom_service.py:280-285 | the signed text is the four parameters in ascending order, each exactly once |
| WeComService.ConfirmationCard | app/services/wecom_service.py:79-96 | the card goes to the user from the agent, with the fixed title, URL and button text |
| WeComService.CardDescription | app/services/wecom_service.py:69-92 | for every record, the amount line is `¥` and the two-decimal amount (`¥0.00` when absent or not convertible), and each other line is the record's value as `str()` shows it, or its default when the key is absent |
| WeComService.CardTextInjective | app/services/wecom_service.py:92 | with no line break inside a line, the description determines the amount, vendor, category, date and remark it shows |
| WeComService.SplitAtLineBreak | app/services/wecom_service.py:92 | two texts that each run up to their first line break split at the same place |
| WeComService.EmptyRecordCard | app/services/wecom_service.py:69-92 | a record without the card's keys shows ¥0.00, 未知商家, 其他, 1970-01-01 and 无 |
| WeComService.CardAccepted | app/services/wecom_service.py:101-111 | the card POST reports errcode == 0; a failed POST or a missing errcode is swallowed as True |
| WeComService.Client.constructor | app/services/wecom_service.py:14-21 | the client starts without a token, with expiry 0 |
| WeComService.Client.GetAccessToken | app/services/wecom_service.py:30-48 | updates the cache fields and returns exactly what `FetchToken` specifies, including the token stored before an unreadable expiry; at most one request |
| WeComService.Client.SendConfirmationCard | app/services/wecom_service.py:61-111 | a failed token fetch is swallowed as True with no card sent; otherwise the card is sent once and the result is the POST's verdict |
| StringSort.Insert | app/services/wecom_service.py:282 | insertion adds exactly the one element |
| StringSort.SortedCopy | app/services/wecom_service.py:282 | the functional sort is a permutation of its input |
| StringSort.SortedCopySorted | app/services/wecom_service.py:282 | the functional sort orders its input |
| StringSort.InsertSorted | app/services/wecom_service.py:282 | inserting into a sorted list keeps it sorted |
| StringSort.SortedUnique | app/services/wecom_service.py:282 | two sorted lists with the same elements are equal |
| StringSort.SortedIsSortedCopy | app/services/wecom_service.py:282 | any sorted rearrangement is the functional sort |
| StringSort.SortedCopyOrderFree | app/services/wecom_service.py:282 | the sort forgets the original order |
| StringSort.SinkInto | app/services/wecom_service.py:282 | one pass extends the sorted prefix by one element and permutes the array |
| StringSort.SortInPlace | app/services/wecom_service.py:282 | `params.sort()` leaves the array equal to the functional sort of its old contents |
| Workspace.Saved | app/api/endpoints/wecom.py:402-410 | the entry is stored under the key; every other entry is unchanged; the user gains a bucket; no bucket becomes empty |
| Workspace.SavedAgainReplaces | app/api/endpoints/wecom.py:409 | saving again under the same key overwrites the entry |
| Workspace.Removed | app/api/endpoints/wecom.py:439-444 | the entry is gone, every other entry and every other user's bucket is kept, and an emptied bucket is dropped |
| Workspace.MaxKey | app/api/endpoints/wecom.py:258 | `max(keys)` is a key no smaller than any other |
| Workspace.Latest | app/api/endpoints/wecom.py:256-258 | a latest key exists iff the user has a pending entry, and it is the largest of them |
| Workspace.LatestIsLargest | app/api/endpoints/wecom.py:258 | the largest key of the bucket is the latest |
| Workspace.NoLargestNoLatest | app/api/endpoints/wecom.py:256 | a user with no largest key has no latest transaction |
| Workspace.SaveThenRemove | app/api/endpoints/wecom.py:402-410 | saving under a fresh key and then removing it restores the table |
| Workspace.SaveThenRemoveInBucket | app/api/endpoints/wecom.py:406-444 | the same, for a user who already has a bucket |
| Workspace.SavedIsLatest | app/api/endpoints/wecom.py:258 | a record saved later than all of its user's pending records is the latest |
| Workspace.RemoveLatestLeavesOlder | app/api/endpoints/wecom.py:273-281 | after removing the latest, every remaining key is older |
| Workspace.Swept | app/api/endpoints/wecom.py:163-168 | exactly the ids first seen within 86400 s are kept, with their times |
| Workspace.Remembered | app/api/endpoints/wecom.py:161-168 | the new id is recorded with the current time and survives the sweep |
| Workspace.RetryWithinRetentionIsDuplicate | app/api/endpoints/wecom.py:146-168 | an id stays recorded for 24 h however many other ids are recorded in between |
| Workspace.RecordAllKeepsTime | app/api/endpoints/wecom.py:161-168 | recording other ids never changes an id's first-seen time |
| Workspace.SweptIdempotent | app/api/endpoints/wecom.py:164-168 | sweeping twice at the same time is sweeping once |
| Endpoint.Field | app/api/endpoints/wecom.py:240-245 | a field read up to its closing text splits the input into the field, the closer and the rest |
| Endpoint.FieldOf | app/api/endpoints/wecom.py:240-245 | a field free of the closer's first character is read back exactly |
| Endpoint.ReadNonceOf | app/api/endpoints/wecom.py:244-245 | the nonce is read back |
| Endpoint.ReadTimeStampOf | app/api/endpoints/wecom.py:243-245 | the timestamp and nonce are read back |
| Endpoint.ReadSignatureOf | app/api/endpoints/wecom.py:242-245 | the signature, timestamp and nonce are read back |
| Endpoint.EnvelopeRoundTrip | app/api/endpoints/wecom.py:240-245 | the four fields of the reply envelope are read back field for field |
| Endpoint.Texted | app/services/wecom_service.py:113-130 | sending a text changes neither table nor the ledger, and logs the text at most once |
| Endpoint.Confirmed | app/api/endpoints/wecom.py:418-446 | a missing or empty entry is not found, and a refused row raises; both change nothing. Otherwise the record is booked once and exactly its entry is removed |
| Endpoint.Dated | app/api/endpoints/wecom.py:224-225 | a missing or falsy transaction_date becomes today; every other field is kept |
| Endpoint.Callback.constructor | app/api/endpoints/wecom.py:394-400 | both tables start empty |
| Endpoint.Callback.SendText | app/services/wecom_service.py:113-130 | a token, then the POST, as `Texted` specifies |
| Endpoint.Callback.GetPendingTransaction | app/api/endpoints/wecom.py:412-416 | the stored record iff the user and key are present, otherwise None |
| Endpoint.Callback.SavePendingTransaction | app/api/endpoints/wecom.py:402-410 | returns the key and updates the pending table as `Saved`; nothing else changes |
| Endpoint.Callback.Discard | app/api/endpoints/wecom.py:439-444 | the pending table becomes `Removed`; nothing else changes |
| Endpoint.Callback.LatestKey | app/api/endpoints/wecom.py:256-258 | returns the largest key of the user's bucket, or nothing when the user has none |
| Endpoint.Callback.ConfirmTransaction | app/api/endpoints/wecom.py:418-446 | returns the outcome and the new state that `Confirmed` specifies |
| Endpoint.Callback.ConfirmLatest | app/api/endpoints/wecom.py:254-268 | the confirm branch, as `ConfirmStep` specifies |
| Endpoint.Callback.CancelLatest | app/api/endpoints/wecom.py:269-283 | the cancel branch, as `CancelStep` specifies |
| Endpoint.Callback.HandleText | app/api/endpoints/wecom.py:248-307 | the text branch: confirm, cancel, then menu, 1–4 and echo, in that order; a non-string Content raises |
| Endpoint.Callback.HandleEvent | app/api/endpoints/wecom.py:320-358 | the event branch: only a click with EventKey confirm or cancel acts |
| Endpoint.Callback.HandleImage | app/api/endpoints/wecom.py:170-234 | the image branch: a failed token fetch or download raises; otherwise the recognised record is handled, with the corrected Qianji link |
| Endpoint.Callback.HandleRecognised | app/api/endpoints/wecom.py:193-234 | a failure or Qianji result is reported as a text, the Qianji link being the corrected one; otherwise the record is staged |
| Endpoint.Callback.Stage | app/api/endpoints/wecom.py:221-234 | the dated record is saved under the clock reading, gains its transaction_id in the stored entry, and is sent as a card |
| Endpoint.Callback.Remember | app/api/endpoints/wecom.py:160-168 | the id is recorded and the eviction loop leaves exactly the swept table |
| Endpoint.Callback.Dispatch | app/api/endpoints/wecom.py:170-383 | the dispatch on MsgType, as `Dispatched` specifies; the image branch sends the corrected Qianji link |
| Endpoint.Callback.Respond | app/api/endpoints/wecom.py:130-158 | decryption and the duplicate check, then the first-delivery path, whose image branch sends the corrected Qianji link |
| Endpoint.Callback.Answer | app/api/endpoints/wecom.py:160-383 | a truthy MsgId is noted before the dispatch, then the answer is built; the dispatch sends the corrected Qianji link |
| Endpoint.Callback.BuildAnswer | app/api/endpoints/wecom.py:236-246 | a raised branch is a server error. Otherwise the envelope carries the encrypted status for the type, the unquoted signature and nonce, and the timestamp, which is the current second after an image |
| Endpoint.Callback.HandleMessage | app/api/endpoints/wecom.py:90-392 | the whole handler, as `Handle` specifies; its image branch sends the corrected Qianji link |
| Endpoint.Callback.MissingParameters | app/api/endpoints/wecom.py:114-120 | the names of the absent parameters, in the order they are checked |
| EndpointProperties.ConfirmStepEffect | app/api/endpoints/wecom.py:254-268 | a confirm leaves the dedup table alone. It either changes nothing or books the latest record once and removes it |
| EndpointProperties.CancelStepEffect | app/api/endpoints/wecom.py:269-283 | a cancel never books; it removes the latest entry when there is one and is a no-op otherwise |
| EndpointProperties.ImageStepKeeps | app/api/endpoints/wecom.py:170-234 | an image never books and never touches the dedup table |
| EndpointProperties.ImageStepPending | app/api/endpoints/wecom.py:196-228 | an image changes the pending table exactly when recognition succeeded outside Qianji mode and nothing raised. It then saves the dated record under the current clock reading |
| EndpointProperties.ImageStaged | app/api/endpoints/wecom.py:221-234 | a staged image's whole world: saved entry, card sent |
| EndpointProperties.DispatchedEffect | app/api/endpoints/wecom.py:170-383 | the dedup table is untouched. The ledger grows only on a confirm, by the latest record. The pending table changes only on an image, a confirm or a cancel. No bucket is left empty |
| EndpointProperties.DispatchedConfirm | app/api/endpoints/wecom.py:254-343 | a text confirm and a confirm click both take the confirm branch |
| EndpointProperties.DispatchedCancel | app/api/endpoints/wecom.py:269-358 | a text cancel and a cancel click both take the cancel branch |
| EndpointProperties.NonClickEventIgnored | app/api/endpoints/wecom.py:320-370 | any other event changes nothing and is answered as a success |
| EndpointProperties.StageThenConfirm | app/api/endpoints/wecom.py:228-261 | a confirm after staging books exactly the staged record and restores the pending table |
| EndpointProperties.StageThenCancel | app/api/endpoints/wecom.py:228-283 | a cancel after staging restores the pending table and books nothing |
| EndpointProperties.ImageThenConfirm | app/api/endpoints/wecom.py:170-268 | an image then a confirm from the same user: the ledger gains exactly the staged record and the pending table is as before the image |
| EndpointProperties.ImageThenCancel | app/api/endpoints/wecom.py:170-283 | an image then a cancel: pending table and ledger are as before the image |
| EndpointProperties.BadRequestIffMissing | app/api/endpoints/wecom.py:112-128 | 400 iff a parameter is missing or empty, and then nothing changes |
| EndpointProperties.MissingNamesExact | app/api/endpoints/wecom.py:114-127 | the 400 detail names exactly the missing parameters |
| EndpointProperties.DuplicateIgnored | app/api/endpoints/wecom.py:145-158 | an already recorded MsgId changes nothing and is answered "Message already processed" |
| EndpointProperties.FirstDeliveryNoted | app/api/endpoints/wecom.py:160-168 | a first delivery's MsgId is noted whatever the branch does, even when it raises |
| EndpointProperties.HandleKeepsBucketsNonEmpty | app/api/endpoints/wecom.py:277-281 | no request leaves a user with an empty bucket |
| EndpointProperties.OnlyConfirmBooks | app/api/endpoints/wecom.py:254-268 | only a first delivery of a confirm books anything |
| EndpointProperties.RetryIgnored | app/api/endpoints/wecom.py:145-168 | a retry of a delivery with a MsgId is answered "already processed" and changes nothing, even after a server error |
| EndpointProperties.UnsupportedTypeAnswered | app/api/endpoints/wecom.py:372-383 | any other MsgType, including the `{}` of a failed decryption, is noted and answered "unsupported message type"; nothing else changes |

## Left out

- Async interleaving of handlers on the shared dictionaries: the model is sequential, one request at a time.
- The clock: one integer reading per request serves every `datetime.now()` and `time.time()` of that request. ISO-8601 keys become integers, which have the same order. The stored `transaction_id` is that integer.
- The GET verification route (`verify_callback_url`), `decrypt_echostr` and `verify_msg_signature`: these are not part of the message pipeline.
- The `Query` aliases merged with `request.query_params`: each parameter is given as the value after that merge.
- `body.decode('utf-8')`: the body is given already decoded, inside `decrypt`.
- WXBizMsgCrypt (`DecryptMsg`, `EncryptMsg`), SHA-1, ElementTree's parser, `json.loads`, `quote`, `unquote`: parameters, because their source is not part of the model.
- Every HTTP exchange is a parameter of the request:
  - the token fetch, which answers every fetch of one request alike;
  - the media download, reduced to whether it fails;
  - the text POST, reduced to whether it raises;
  - the card POST;
  - the language-model POST.
- Endpoint.Callback.SendText: the errcode of the text POST is ignored, as the endpoint ignores the returned boolean.
- Writing images and logs to `log/`, and deleting the temporary image: file I/O.
- `create_access_token` for menu option 3: a JWT issued by a foreign library, modelled as an opaque function of the user.
- `create_transaction`, `TransactionCreate` and the database: the ledger is a log of rows. A row the schema or the database would refuse is a parameter `ledgerAccepts`, and a refusal raises.
- Float formatting (`:.2f`, `money={amount}`): floats carry their `str()` text, and the two-decimal rendering is a parameter.
- The QIANJI_ENABLED and QIANJI_CATE_CHOOSE settings: parameters. `app/config.py` does not declare them. The recognition service and the endpoint read them with `getattr` defaults, but `QianjiService.__init__` reads them directly (see Findings). The model takes the values a configuration declaring both would give, and one `cateChoose` serves both readers.
- The unused `transaction_id` that `send_confirmation_card` reads: it has no effect on the card.
- The generic `except Exception` path is one outcome, `ServerError`. The step functions say which branch raised, but not the exception's text.
- Endpoint.EnvelopeRoundTrip: proved only for fields free of `]` (`<` for the timestamp), since such characters close a CDATA section early.
- WeComXml.ReadDocumentOf: proved only for keys that are plain tags (non-empty, without space or `>`), the only keys the endpoint writes.
- Decrypting what `EncryptMessage` produced: not stated, because the crypto library is a parameter.
- PyString.AsciiLower: lowers ASCII capitals only. That decides `content.lower() == word` exactly for the command words, which contain no `k` (the only ASCII letter with a non-ASCII capital).
- Qianji.QianjiParams: a truthy `transaction_date` that is a list, or a dict with a `" "` key, is treated as failing. In the source `" " not in` is a membership test there and `+=` extends a list, so a link with `time=` and the container's `str()` comes out. `Container` values do not say which container they are or what they hold.
- Qianji.QianjiUrl: the same list or dict date gives "" here where the source gives a link.
- Qianji.GenerateQianjiUrl: the same list or dict date takes the early `return ""` here where the source appends `time=`.
- Recognition.WithQianji: stores the corrected link (`QianjiLink`), not the as-written one, which is always "" (see Findings).
- Recognition.ProcessImageWithAi: returns the corrected `qianji_url`, where the source returns "".
- Recognition.RecognizeText: in Qianji mode its record carries the corrected link.
- Endpoint.Callback.HandleImage: in Qianji mode it sends the corrected link, not "识别成功，但生成钱迹记账链接失败，请重试。", which the source always sends there.
- Endpoint.Callback.HandleRecognised: its Qianji branch reports the corrected link.
- Endpoint.Callback.Dispatch: its image branch sends the corrected link.
- Endpoint.Callback.Respond: its first-delivery path sends the corrected link for an image.
- Endpoint.Callback.Answer: the dispatch it runs sends the corrected link for an image.
- Endpoint.Callback.HandleMessage: its image branch sends the corrected link.
- PyValue.ParseInt: accepts ASCII digits only, where Python's `int()` also accepts other Unicode decimal digits.

## Findings

| source | as written | input that shows it | evidently intended | confidence | as-written member | corrected member |
|---|---|---|---|---|---|---|
| app/services/image_recognition_service.py:187-189 | The Qianji link is built from `format_transaction_data(parsed_data)`. That renames `amount` to `money`, so `generate_qianji_url` finds no `amount` and returns "" for every record. | `{"amount": 12.5, "vendor": "超市"}` with Qianji mode on: `qianji_url` is "" and the user is told the link could not be generated. | The link is built from the recognised record itself, so a record with an amount gets a link carrying `money=12.5`. | not executed | Recognition.QianjiLinkAsWritten (with Qianji.FormattedRecordYieldsNoLink) | Recognition.QianjiLink (with Qianji.RecognisedRecordYieldsLink) |
| app/services/qianji_service.py:12-13 | `QianjiService.__init__` reads `settings.QIANJI_ENABLED` and `settings.QIANJI_CATE_CHOOSE` as attributes. `Settings` in `app/config.py` declares neither and ignores extra values. | The configuration of `app/config.py`: building `qianji_service` at import raises `AttributeError`, so neither the recognition service nor the endpoint can be imported. | Both flags are read with the same `getattr` defaults the recognition service uses (off, and the category panel on), or are declared in `Settings`. | not executed | Qianji.ServiceFlagsAsWritten (with Qianji.ConfiguredServiceRaises) | Qianji.ServiceFlags (with Qianji.DeclaredFlagsAgree and Qianji.ConfiguredServiceIsPlain) |
