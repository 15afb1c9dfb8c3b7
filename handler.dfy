/**
 * The LINE webhook handler: per-event dispatch, the danmaku action and the
 * photo action.
 *
 * Every call into the LINE platform or the persistence services is an entry
 * in a trace of `Effect`s; what those services answer while one event is
 * handled is an `Answers` value that arrives with the event. The mode of a
 * key owner lives in the expiring store: `owner + "Danmaku"` (60 seconds)
 * and `owner + "Photo"` (300 seconds). The pure functions `HandleEvent` and
 * `RunBatch` specify what the class `LineBot` does in place.
 */
module Handler {
  import opened Store
  import opened Validation

  datatype Option<T> = None | Some(value: T)

  /** The `Type` of an event source. */
  datatype SourceKind = UserSource | GroupSource | RoomSource | OtherSource

  /** An event source with the identifiers the platform sends along. */
  datatype Source = Source(kind: SourceKind, userId: string, groupId: string, roomId: string)

  /** The payload of a message event. */
  datatype Message =
    | Text(text: string)
    | Image(id: string)
    | OtherMessage // stickers, video, audio, location, files

  /** An inbound event: a message event, or any other kind (follow, join, postback, ...). */
  datatype Event =
    | MessageEvent(source: Source, replyToken: string, message: Message)
    | OtherEvent(source: Source)

  /** What the services answer while one event is handled. */
  datatype Answers = Answers(
    profile: Option<string>, // `GetProfile`: the display name, or None on error
    downloaded: bool,        // `GetMessageContent` succeeded
    filePath: string,        // `SaveImageFileLocally`: "" on failure
    serial: string           // the serial of the image record `SaveImage` creates
  )

  /** One event of a batch, the time at which it is handled, and the services' answers. */
  datatype Step = Step(event: Event, now: int, answers: Answers)

  /** The kinds of reply text the handler sends. */
  datatype ReplyBody =
    | DanmakuInstructions
    | PhotoInstructions
    | Rejection
    | SerialNotice(serial: string)

  /** An observable call made by the handler. */
  datatype Effect =
    | Reply(token: string, body: ReplyBody)
    | GetProfile(owner: string)
    | Broadcast(text: string)
    | SaveMessage(text: string, senderName: string)
    | Download(messageId: string)
    | SaveLocal(messageId: string)
    | SaveImage(senderName: string, filePath: string)

  /** The outcome of parsing the request, which the SDK does. */
  datatype Request =
    | Parsed(steps: seq<Step>)
    | InvalidSignature
    | ParseError

  /** What the handler writes as the HTTP response. */
  datatype Response =
    | BadRequest          // 400 "Bad Request"
    | InternalServerError // 500 "Internal Server Error"
    | OkBody              // 200 "OK"
    | NothingWritten      // returned before writing the "OK" body (gin then sends its default 200, empty body)

  const DanmakuTrigger: string := "［愛的留言］"
  const PhotoTrigger: string := " [拍立得列印] "
  const DanmakuTag: string := "Danmaku"
  const PhotoTag: string := "Photo"
  const DanmakuTtl: int := 60 * Second
  const PhotoTtl: int := 300 * Second

  /** The owner of the mode keys: the identifier that matches the source's kind, or "" for an unknown kind. */
  function Owner(src: Source): string
  {
    match src.kind
    case UserSource => src.userId
    case GroupSource => src.groupId
    case RoomSource => src.roomId
    case OtherSource => ""
  }

  function DanmakuKey(owner: string): string { owner + DanmakuTag }

  function PhotoKey(owner: string): string { owner + PhotoTag }

  /** The calls of the danmaku action: profile lookup, then either the rejection reply or broadcast and save. */
  function DanmakuEffects(scripts: Scripts, text: string, owner: string, token: string, profile: Option<string>): seq<Effect>
  {
    [GetProfile(owner)] +
    match profile
    case None => []
    case Some(name) =>
      if !IsValidDanmaku(scripts, text) then [Reply(token, Rejection)]
      else [Broadcast(text), SaveMessage(text, name)]
  }

  /** The calls of the photo action: each step runs only when the one before it succeeded. */
  function PhotoEffects(token: string, messageId: string, owner: string, answers: Answers): seq<Effect>
  {
    [Download(messageId)] +
    if !answers.downloaded then [] else
    [SaveLocal(messageId)] +
    if answers.filePath == "" then [] else
    [GetProfile(owner)] +
    match answers.profile
    case None => []
    case Some(name) => [SaveImage(name, answers.filePath), Reply(token, SerialNotice(answers.serial))]
  }

  /** The store after an event, the calls it made, and whether the handler returned at once. */
  datatype Outcome = Outcome(store: map<string, int>, effects: seq<Effect>, stop: bool)

  /** One iteration of the dispatch loop. */
  function HandleEvent(scripts: Scripts, store: map<string, int>, step: Step): Outcome
  {
    match step.event
    case OtherEvent(_) => Outcome(store, [], false)
    case MessageEvent(src, token, msg) =>
      var owner := Owner(src);
      match msg
      case Text(t) =>
        if t == DanmakuTrigger then
          Outcome(Written(store, DanmakuKey(owner), step.now, DanmakuTtl), [Reply(token, DanmakuInstructions)], false)
        else if t == PhotoTrigger then
          Outcome(Written(store, PhotoKey(owner), step.now, PhotoTtl), [Reply(token, PhotoInstructions)], false)
        else if Found(store, DanmakuKey(owner), step.now) then
          Outcome(store, DanmakuEffects(scripts, t, owner, token, step.answers.profile), true)
        else
          Outcome(store, [], false)
      case Image(id) =>
        if Found(store, PhotoKey(owner), step.now) then
          Outcome(store, PhotoEffects(token, id, owner, step.answers), false)
        else
          Outcome(store, [], false)
      case OtherMessage => Outcome(store, [], false)
  }

  /** `done` followed by `rest`. */
  function Then(done: seq<Effect>, rest: Outcome): Outcome
  {
    Outcome(rest.store, done + rest.effects, rest.stop)
  }

  /** The dispatch loop over a batch: events after the one that stops it are not handled. */
  function RunBatch(scripts: Scripts, store: map<string, int>, steps: seq<Step>): Outcome
    decreases |steps|
  {
    if steps == [] then Outcome(store, [], false)
    else
      var first := HandleEvent(scripts, store, steps[0]);
      if first.stop then first
      else Then(first.effects, RunBatch(scripts, first.store, steps[1..]))
  }

  /** One step of `RunBatch` on the suffix of a batch from position `i`. */
  lemma RunBatchUnfold(scripts: Scripts, store: map<string, int>, steps: seq<Step>, i: nat)
    requires i < |steps|
    ensures var first := HandleEvent(scripts, store, steps[i]);
            RunBatch(scripts, store, steps[i..]) ==
              if first.stop then first else Then(first.effects, RunBatch(scripts, first.store, steps[i + 1..]))
  {
    assert steps[i..][0] == steps[i] && steps[i..][1..] == steps[i + 1..];
  }

  lemma AppendAssoc(a: seq<Effect>, b: seq<Effect>, c: seq<Effect>)
    ensures a + b + c == a + (b + c)
  {
  }

  /** The response after a batch has been dispatched. */
  function Respond(request: Request, run: Outcome): Response
  {
    match request
    case InvalidSignature => BadRequest
    case ParseError => InternalServerError
    case Parsed(_) => if run.stop then NothingWritten else OkBody
  }

  /** The handler with its shared store and the trace of the calls it has made. */
  class LineBot {
    const scripts: Scripts
    const cache: Cache
    var effects: seq<Effect>

    constructor (scripts: Scripts)
      ensures this.scripts == scripts && fresh(cache) && cache.entries == map[] && effects == []
    {
      this.scripts := scripts;
      cache := new Cache();
      effects := [];
    }

    /** `handleDanmakuMessage`. */
    method HandleDanmakuMessage(text: string, owner: string, token: string, profile: Option<string>)
      modifies this`effects
      ensures effects == old(effects) + DanmakuEffects(scripts, text, owner, token, profile)
    {
      effects := effects + [GetProfile(owner)];
      if profile.None? {
        return;
      }
      var senderName := profile.value;
      if !IsValidDanmaku(scripts, text) {
        effects := effects + [Reply(token, Rejection)];
        return;
      }
      effects := effects + [Broadcast(text)];
      effects := effects + [SaveMessage(text, senderName)];
    }

    /** `handleImageMessage`. */
    method HandleImageMessage(token: string, messageId: string, owner: string, answers: Answers)
      modifies this`effects
      ensures effects == old(effects) + PhotoEffects(token, messageId, owner, answers)
    {
      effects := effects + [Download(messageId)];
      if !answers.downloaded {
        return;
      }
      effects := effects + [SaveLocal(messageId)];
      var filePath := answers.filePath;
      if filePath == "" {
        return;
      }
      effects := effects + [GetProfile(owner)];
      if answers.profile.None? {
        return;
      }
      var senderName := answers.profile.value;
      effects := effects + [SaveImage(senderName, filePath)];
      effects := effects + [Reply(token, SerialNotice(answers.serial))];
    }

    /** The body of the dispatch loop for one event; `stop` is the `return` after the danmaku action. */
    method DispatchEvent(step: Step) returns (stop: bool)
      modifies this`effects, cache
      ensures var o := HandleEvent(scripts, old(cache.entries), step);
              cache.entries == o.store && effects == old(effects) + o.effects && stop == o.stop
    {
      stop := false;
      match step.event {
        case OtherEvent(_) =>
        case MessageEvent(src, token, msg) =>
          var owner := Owner(src);
          match msg {
            case Text(t) =>
              if t == DanmakuTrigger {
                cache.Set(owner + DanmakuTag, DanmakuTtl, step.now);
                effects := effects + [Reply(token, DanmakuInstructions)];
              } else if t == PhotoTrigger {
                cache.Set(owner + PhotoTag, PhotoTtl, step.now);
                effects := effects + [Reply(token, PhotoInstructions)];
              } else {
                var ok := cache.Get(owner + DanmakuTag, step.now);
                if ok {
                  HandleDanmakuMessage(t, owner, token, step.answers.profile);
                  stop := true;
                }
              }
            case Image(id) =>
              var ok := cache.Get(owner + PhotoTag, step.now);
              if ok {
                HandleImageMessage(token, id, owner, step.answers);
              }
            case OtherMessage =>
          }
      }
    }

    /** `LineBotHandler`: parse outcome, then the loop over the events. */
    method LineBotHandler(request: Request) returns (response: Response)
      modifies this`effects, cache
      ensures !request.Parsed? ==> cache.entries == old(cache.entries) && effects == old(effects)
      ensures var run := if request.Parsed? then RunBatch(scripts, old(cache.entries), request.steps)
                         else Outcome(old(cache.entries), [], false);
              cache.entries == run.store && effects == old(effects) + run.effects &&
              response == Respond(request, run)
    {
      if request.InvalidSignature? {
        return BadRequest;
      } else if request.ParseError? {
        return InternalServerError;
      }
      var steps := request.steps;
      ghost var total := RunBatch(scripts, cache.entries, steps);
      ghost var done: seq<Effect> := [];
      var i := 0;
      while i < |steps|
        invariant 0 <= i <= |steps|
        invariant effects == old(effects) + done
        invariant total == Then(done, RunBatch(scripts, cache.entries, steps[i..]))
      {
        ghost var dispatched := HandleEvent(scripts, cache.entries, steps[i]);
        RunBatchUnfold(scripts, cache.entries, steps, i);
        var stop := DispatchEvent(steps[i]);
        if stop {
          AppendAssoc(old(effects), done, dispatched.effects);
          return NothingWritten;
        }
        AppendAssoc(done, dispatched.effects, RunBatch(scripts, cache.entries, steps[i + 1..]).effects);
        AppendAssoc(old(effects), done, dispatched.effects);
        done := done + dispatched.effects;
        i := i + 1;
      }
      assert steps[i..] == [];
      response := OkBody;
    }
  }
}
