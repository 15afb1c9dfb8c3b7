# Wedding LINE bot: webhook dispatch model

A Dafny model of the webhook handler of a LINE chat bot used at a wedding
party (`handlers/linebot_handler.go`). Guests send one of two trigger phrases
to arm a mode for their key owner: the danmaku mode (their next texts are
shown on the big screen) for 60 seconds, or the photo mode (their next
images are printed) for 300 seconds. The mode lives in an expiring key-value
store under the keys `owner + "Danmaku"` and `owner + "Photo"`.

The model has four modules:

- `Store` (`store.dfy`): the assumed contract of the expiring store, which
  lives outside the handler file. `Set(key, true, ttl)` at time `now`
  overwrites the record with expiry `now + ttl`. `Get(key)` finds it exactly
  while `now < now_set + ttl`. The class `Cache` holds the key-to-expiry map
  and updates it in place.
- `Validation` (`validation.dfy`): the danmaku rule, the anchored pattern
  `^[\p{Han}\p{Katakana}\p{Hiragana}\p{Hangul}a-zA-Z0-9\s]+$` together with
  "at most 20 runes". A Dafny `char` is one Unicode scalar value, so `|s|` is
  Go's rune count. The four script tables are the predicates of a `Scripts`
  value. `Scripts.WellFormed` states the two facts about the real tables that
  the lemmas use: no ASCII code point and no pictographic emoji
  (U+1F300–U+1FAFF) belongs to those scripts. Go's `\s` is tab, newline, form
  feed, carriage return and space. It does not include vertical tab or the
  ideographic space U+3000.
- `Handler` (`handler.dfy`): the events, the trace of observable calls
  (`Effect`), and the pure specification of one loop iteration
  (`HandleEvent`), of the loop (`RunBatch`) and of the two actions
  (`DanmakuEffects`, `PhotoEffects`). The class `LineBot` holds the shared
  `Cache` and the effect log. Its methods `LineBotHandler`, `DispatchEvent`,
  `HandleDanmakuMessage` and `HandleImageMessage` follow the Go code step by
  step, early returns included. Each is proved to produce exactly what the
  specification functions say.
- `HandlerProperties` (`handler_properties.dfy`): lemmas about those
  functions. They cover the trigger phrases, the gates in front of the two
  actions, the early return out of the batch, call ordering, reply counts,
  and scenarios that span two webhook deliveries.

What the platform and the persistence services answer while one event is
handled is an input: each event arrives as a `Step` with the time `now` and
an `Answers` record. That record holds the profile lookup (a display name or
an error), whether the content download succeeded, the file path returned by
`SaveImageFileLocally` (`""` on failure), and the serial of the saved image.
Every call the handler makes is appended to the trace: profile lookup,
download, local save, `SaveImage`, `Reply`, `Broadcast` and `SaveMessage`. A
reply is recorded with its reply token and the kind of text it carries.

Behaviour of the code that the model keeps as it is:

- Trigger phrases are matched exactly, with no trimming. The photo phrase
  includes its leading and trailing space, so `[拍立得列印]` without them is
  ordinary text.
- The danmaku and photo keys are independent. An owner can be armed for both.
  An armed key is not consumed by use.
- A key owner is the user ID, group ID or room ID, depending on the source's
  kind, or `""` for any other kind. So everybody in a group shares the group's
  modes, and the profile lookup is made with the group or room ID.
- After a text reaches the danmaku action, the handler returns out of the
  loop at once (line 83). Later events of the same delivery are not handled
  and the "OK" body is not written (`NothingWritten`). The delivery is still
  acknowledged at the HTTP level: with nothing written, gin sends its default
  status 200 with an empty body. The webhook is meant to answer every delivery
  with the "OK" body; the model follows the code.
- Failed downloads, empty file paths and failed profile lookups end the
  action silently. Only validation failures are reported to the user.
- The instructional reply for the danmaku mode speaks of five minutes, but
  the key expires after 60 seconds. The model keeps the 60 seconds.

Times are integers counted in nanoseconds, like Go's `time.Duration`. The
clock is read by the caller and passed in.

## Model

| member | source | states |
|---|---|---|
| Store.Cache.Set | handlers/linebot_handler.go:59 | after `Set`, the store equals the old store with the key's expiry overwritten by `now + ttl` |
| Store.Cache.Get | handlers/linebot_handler.go:75 | the lookup reports `ok` exactly when the key has a record whose expiry is still after `now` |
| Store.Cache.constructor | handlers/linebot_handler.go:31 | a new store holds no keys |
| Store.FoundAfterWrite | handlers/linebot_handler.go:59 | a written key is found at a later time exactly while that time is before `now + ttl`, whatever the key held before |
| Store.WriteThenRead | handlers/linebot_handler.go:67 | with a positive ttl the key is found right after the write and not found once `ttl` or more has passed |
| Store.RewriteOverwrites | handlers/linebot_handler.go:59 | a second write to a key leaves the same store as that write alone: last write wins |
| Store.WriteLeavesOtherKeys | handlers/linebot_handler.go:67 | writing one key does not change whether any other key is found |
| Validation.LengthRule | handlers/linebot_handler.go:140-141 | for a text made only of allowed characters, acceptance holds exactly when it has 1 to 20 runes |
| Validation.TwentyAcceptedTwentyOneRejected | handlers/linebot_handler.go:141 | 20 allowed runes are accepted, and one more allowed rune makes the text rejected |
| Validation.EmptyRejected | handlers/linebot_handler.go:140 | the empty text is rejected, since the pattern needs at least one character |
| Validation.ForeignCharRejected | handlers/linebot_handler.go:140 | one character outside the class, at any position, rejects the text |
| Validation.PunctuationRejected | handlers/linebot_handler.go:140 | with the real script tables, a `!` anywhere rejects the text |
| Validation.EmojiRejected | handlers/linebot_handler.go:140 | with the real script tables, a pictographic emoji anywhere rejects the text |
| Validation.AsciiBoundaryExamples | handlers/linebot_handler.go:140-141 | a concrete 20-rune ASCII text is accepted and its 21-rune extension is rejected |
| Handler.LineBot.constructor | handlers/linebot_handler.go:31 | the handler starts with an empty store and an empty trace |
| Handler.LineBot.HandleDanmakuMessage | handlers/linebot_handler.go:132-152 | the calls appended to the trace are exactly those of the danmaku action specification |
| Handler.LineBot.HandleImageMessage | handlers/linebot_handler.go:97-130 | the calls appended to the trace are exactly those of the photo pipeline specification |
| Handler.LineBot.DispatchEvent | handlers/linebot_handler.go:46-90 | one loop iteration leaves the store, the trace and the return decision that `HandleEvent` specifies |
| Handler.LineBot.LineBotHandler | handlers/linebot_handler.go:35-95 | a parse failure changes nothing and answers 400 or 500; otherwise the store and trace are those of `RunBatch`, and the "OK" body is written exactly when no event stopped the loop |
| HandlerProperties.KeysNeverCollide | handlers/linebot_handler.go:59-67 | no owner's danmaku key equals any owner's photo key |
| HandlerProperties.KeysIdentifyOwner | handlers/linebot_handler.go:59-67 | two owners share a danmaku (or photo) key exactly when they are the same owner |
| HandlerProperties.OwnerBySourceKind | handlers/linebot_handler.go:46-59 | the armed key is the user ID, group ID or room ID by source kind, followed by "Danmaku", and just "Danmaku" for any other kind |
| HandlerProperties.TriggerPhrases | handlers/linebot_handler.go:58-66 | the danmaku phrase is six code points in full-width brackets; the photo phrase is nine code points, ASCII brackets padded with one space on each side |
| HandlerProperties.DanmakuTriggerArms | handlers/linebot_handler.go:58-65 | the danmaku phrase arms the owner's danmaku key until `now + 60 s`, sends one instructional reply, does not stop the loop, and leaves every photo key as it was |
| HandlerProperties.PhotoTriggerArms | handlers/linebot_handler.go:66-73 | the photo phrase arms the owner's photo key until `now + 300 s`, sends one instructional reply, does not stop the loop, and leaves every danmaku key as it was |
| HandlerProperties.RearmOverwrites | handlers/linebot_handler.go:58-73 | re-sending a trigger phrase gives the same store as sending it only the second time |
| HandlerProperties.UnpaddedPhotoPhraseIsPlainText | handlers/linebot_handler.go:66-85 | the photo phrase without its spaces arms nothing; it stops the loop exactly when the danmaku key is armed and otherwise has no effect |
| HandlerProperties.EventFilter | handlers/linebot_handler.go:55-90 | non-message events and message kinds other than text and image change nothing and make no call |
| HandlerProperties.PlainTextWhileArmed | handlers/linebot_handler.go:74-83 | a non-trigger text while the danmaku key is unexpired runs the danmaku action once and stops the loop |
| HandlerProperties.PlainTextWhileIdle | handlers/linebot_handler.go:74-85 | a non-trigger text without an unexpired danmaku key makes no call and changes nothing, whatever the photo key holds |
| HandlerProperties.ImageGate | handlers/linebot_handler.go:86-89 | an image runs the photo action exactly when the photo key is unexpired, never changes the store and never stops the loop |
| HandlerProperties.DanmakuArmingDoesNotEnableImages | handlers/linebot_handler.go:58-89 | after the danmaku phrase, an image from an owner whose photo key is not armed still has no effect |
| HandlerProperties.PhotoArmingDoesNotEnableDanmaku | handlers/linebot_handler.go:66-85 | after the photo phrase, a plain text from an owner whose danmaku key is not armed still has no effect |
| HandlerProperties.StopsExactlyOnDanmakuAction | handlers/linebot_handler.go:75-83 | an event stops the loop exactly when it is a non-trigger text from an owner with an unexpired danmaku key |
| HandlerProperties.OnlyTriggersWrite | handlers/linebot_handler.go:58-89 | only the two trigger phrases change the store |
| HandlerProperties.RunBatchAppend | handlers/linebot_handler.go:45-92 | handling `p + q` is handling `p`, then, unless `p` stopped, handling `q` from the store `p` left |
| HandlerProperties.BatchAbort | handlers/linebot_handler.go:75-94 | once a text reaches the danmaku action, the events after it are not handled, the trace ends with that action and "OK" is not written |
| HandlerProperties.NoPlainTextMeansOk | handlers/linebot_handler.go:45-94 | a delivery without a non-trigger text always gets "OK" |
| HandlerProperties.IdleBatch | handlers/linebot_handler.go:45-92 | with an empty store, a delivery without trigger phrases makes no call and leaves the store empty |
| HandlerProperties.AtMostOneReplyPerEvent | handlers/linebot_handler.go:55-152 | every event gets at most one reply, and only on its own reply token |
| HandlerProperties.DanmakuOrdering | handlers/linebot_handler.go:132-152 | the profile lookup comes first; after a failed lookup nothing follows, even for invalid text; an invalid text gets just the rejection reply; a valid text is broadcast and then saved with the display name |
| HandlerProperties.DanmakuEffectsIff | handlers/linebot_handler.go:139-151 | the text is broadcast exactly when the lookup succeeded and the text is valid; the rejection is sent exactly when the lookup succeeded and the text is invalid; only the validated text is broadcast or saved |
| HandlerProperties.PhotoPipeline | handlers/linebot_handler.go:97-122 | the photo calls are a prefix of download, local save, profile, `SaveImage`, reply, cut right after the first failing step |
| HandlerProperties.PhotoReplies | handlers/linebot_handler.go:108-129 | the photo action replies exactly when every step succeeds; then `SaveImage` runs once with the display name and file path, and the last call is the reply that carries the serial |
| HandlerProperties.DanmakuScenario | handlers/linebot_handler.go:58-151 | danmaku phrase, then "Hello 世界" within 60 s in a second delivery: one profile lookup, one broadcast and one save of that text, and no "OK" |
| HandlerProperties.LongTextScenario | handlers/linebot_handler.go:58-148 | the same with a 25-rune text: the profile lookup and the rejection reply are the only calls |
| HandlerProperties.PhotoScenario | handlers/linebot_handler.go:66-129 | photo phrase, then an image within 300 s whose steps all succeed: the full pipeline runs once; the same image 310 s after the phrase makes no call |

## Left out

- HTTP wiring: gin's context and the status codes are the abstract `Response`. The SDK's signature check and parsing are the abstract `Request`.
- Client construction in `init` (environment variables, `log.Fatal`) is not modelled; only the new shared store is.
- Network and storage calls (`GetProfile`, `GetMessageContent`, `ReplyMessage`, `BroadcastMessage`, `SaveImageFileLocally`, `SaveMessage`, `SaveImage`) are entries in the trace. Their results are inputs. A failed reply is only logged by the code, so it has no outcome in the model.
- The store's implementation is not part of this model: sweeping of expired records, memory use and thread safety. Only the set/get-with-expiry contract above is modelled. `Get`'s value is always `true` and is not modelled.
- Concurrent webhook deliveries, and duplicate deliveries from platform retries, are not modelled. A delivery is one sequential run of the loop.
- Unicode script tables and the regular-expression engine are not modelled: the scripts are parameters. Texts are sequences of code points. Invalid UTF-8 does not arise, because the platform delivers JSON strings.
- Reply wording and logging are left out. Replies are recorded only as instructional, rejection, or the serial notice.
- Closing the downloaded content (`defer content.Content.Close()`) is left out.
- If `SaveImage` fails inside the persistence service, the model does not cover it: the service is not part of this model, and the model assumes it returns an image with a serial.
