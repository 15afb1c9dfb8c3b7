/**
 * Properties of the webhook handler: mode keys, trigger phrases, the gates
 * in front of the two actions, the early return out of the batch, the order
 * of the actions' calls, and whole scenarios across webhook deliveries.
 */
module HandlerProperties {
  import opened Store
  import opened Validation
  import opened Handler

  /** A text message event. */
  function TextStep(src: Source, token: string, text: string, now: int, answers: Answers): Step
  {
    Step(MessageEvent(src, token, Text(text)), now, answers)
  }

  /** An image message event. */
  function ImageStep(src: Source, token: string, id: string, now: int, answers: Answers): Step
  {
    Step(MessageEvent(src, token, Image(id)), now, answers)
  }

  /** Whether a step is a text message that is neither trigger phrase. */
  predicate IsPlainText(step: Step)
  {
    step.event.MessageEvent? && step.event.message.Text? &&
    step.event.message.text != DanmakuTrigger && step.event.message.text != PhotoTrigger
  }

  /** Whether a step is a text message equal to one of the trigger phrases. */
  predicate IsTrigger(step: Step)
  {
    step.event.MessageEvent? && step.event.message.Text? &&
    (step.event.message.text == DanmakuTrigger || step.event.message.text == PhotoTrigger)
  }

  // ---------------------------------------------------------------- keys

  /** A danmaku key never equals a photo key, whoever owns them: the last letters differ. */
  lemma KeysNeverCollide(a: string, b: string)
    ensures DanmakuKey(a) != PhotoKey(b)
  {
    var x, y := DanmakuKey(a), PhotoKey(b);
    assert x[|x| - 1] == 'u';
    assert y[|y| - 1] == 'o';
  }

  /** Each key names exactly one owner. */
  lemma KeysIdentifyOwner(a: string, b: string)
    ensures DanmakuKey(a) == DanmakuKey(b) <==> a == b
    ensures PhotoKey(a) == PhotoKey(b) <==> a == b
  {
    if DanmakuKey(a) == DanmakuKey(b) {
      assert a == DanmakuKey(a)[..|a|];
      assert b == DanmakuKey(b)[..|b|];
    }
    if PhotoKey(a) == PhotoKey(b) {
      assert a == PhotoKey(a)[..|a|];
      assert b == PhotoKey(b)[..|b|];
    }
  }

  /** The key owner is the identifier that matches the source's kind; unknown kinds share the empty owner. */
  lemma OwnerBySourceKind(scripts: Scripts, store: map<string, int>, src: Source, token: string, now: int, answers: Answers)
    ensures var o := HandleEvent(scripts, store, TextStep(src, token, DanmakuTrigger, now, answers));
            && (src.kind == UserSource ==> o.store == store[src.userId + "Danmaku" := now + DanmakuTtl])
            && (src.kind == GroupSource ==> o.store == store[src.groupId + "Danmaku" := now + DanmakuTtl])
            && (src.kind == RoomSource ==> o.store == store[src.roomId + "Danmaku" := now + DanmakuTtl])
            && (src.kind == OtherSource ==> o.store == store["Danmaku" := now + DanmakuTtl])
  {
    assert "" + DanmakuTag == "Danmaku";
  }

  // ---------------------------------------------------------------- triggers

  /** The trigger phrases, code point by code point: full-width brackets, and ASCII brackets padded with spaces. */
  lemma TriggerPhrases()
    ensures |DanmakuTrigger| == 6 && DanmakuTrigger[0] == '\U{FF3B}' && DanmakuTrigger[5] == '\U{FF3D}'
    ensures |PhotoTrigger| == 9 && PhotoTrigger[0] == ' ' && PhotoTrigger[1] == '[' && PhotoTrigger[8] == ' '
    ensures PhotoTrigger[1..8] == "[拍立得列印]"
  {
  }

  /**
   * The danmaku trigger arms the owner's danmaku key for 60 seconds from now,
   * sends one instructional reply, and leaves every photo key as it was.
   */
  lemma DanmakuTriggerArms(scripts: Scripts, store: map<string, int>, src: Source, token: string, now: int,
                           answers: Answers, other: string, at: int)
    ensures var o := HandleEvent(scripts, store, TextStep(src, token, DanmakuTrigger, now, answers));
            && o.effects == [Reply(token, DanmakuInstructions)] && !o.stop
            && (Found(o.store, DanmakuKey(Owner(src)), at) <==> at < now + 60 * Second)
            && Found(o.store, PhotoKey(other), at) == Found(store, PhotoKey(other), at)
  {
    KeysNeverCollide(Owner(src), other);
  }

  /**
   * The photo trigger arms the owner's photo key for 300 seconds from now,
   * sends one instructional reply, and leaves every danmaku key as it was.
   */
  lemma PhotoTriggerArms(scripts: Scripts, store: map<string, int>, src: Source, token: string, now: int,
                         answers: Answers, other: string, at: int)
    ensures var o := HandleEvent(scripts, store, TextStep(src, token, PhotoTrigger, now, answers));
            && o.effects == [Reply(token, PhotoInstructions)] && !o.stop
            && (Found(o.store, PhotoKey(Owner(src)), at) <==> at < now + 300 * Second)
            && Found(o.store, DanmakuKey(other), at) == Found(store, DanmakuKey(other), at)
  {
    KeysNeverCollide(other, Owner(src));
  }

  /** Re-sending a trigger phrase sets the same store as sending it only the second time. */
  lemma RearmOverwrites(scripts: Scripts, store: map<string, int>, src: Source, trigger: string,
                        token1: string, now1: int, answers1: Answers, token2: string, now2: int, answers2: Answers)
    requires trigger == DanmakuTrigger || trigger == PhotoTrigger
    ensures var once := HandleEvent(scripts, store, TextStep(src, token1, trigger, now1, answers1));
            HandleEvent(scripts, once.store, TextStep(src, token2, trigger, now2, answers2)).store ==
            HandleEvent(scripts, store, TextStep(src, token2, trigger, now2, answers2)).store
  {
    if trigger == DanmakuTrigger {
      RewriteOverwrites(store, DanmakuKey(Owner(src)), now1, DanmakuTtl, now2, DanmakuTtl);
    } else {
      RewriteOverwrites(store, PhotoKey(Owner(src)), now1, PhotoTtl, now2, PhotoTtl);
    }
  }

  /** The photo phrase without its surrounding spaces is ordinary text: it arms nothing. */
  lemma UnpaddedPhotoPhraseIsPlainText(scripts: Scripts, store: map<string, int>, src: Source, token: string,
                                       now: int, answers: Answers)
    ensures var o := HandleEvent(scripts, store, TextStep(src, token, "[拍立得列印]", now, answers));
            && o.store == store
            && (o.stop <==> Found(store, DanmakuKey(Owner(src)), now))
            && (!o.stop ==> o.effects == [])
  {
    assert |"[拍立得列印]"| == 7;
  }

  // ---------------------------------------------------------------- gates

  /** Only a text message or an image message can have an effect. */
  lemma EventFilter(scripts: Scripts, store: map<string, int>, step: Step)
    requires step.event.OtherEvent? || step.event.message.OtherMessage?
    ensures HandleEvent(scripts, store, step) == Outcome(store, [], false)
  {
  }

  /** A plain text while the owner's danmaku key is unexpired runs the danmaku action once, and the handler returns. */
  lemma PlainTextWhileArmed(scripts: Scripts, store: map<string, int>, step: Step)
    requires IsPlainText(step)
    requires Found(store, DanmakuKey(Owner(step.event.source)), step.now)
    ensures HandleEvent(scripts, store, step) ==
            Outcome(store, DanmakuEffects(scripts, step.event.message.text, Owner(step.event.source),
                                          step.event.replyToken, step.answers.profile), true)
  {
  }

  /** A plain text from an owner without an unexpired danmaku key has no effect, even when the photo key is armed. */
  lemma PlainTextWhileIdle(scripts: Scripts, store: map<string, int>, step: Step)
    requires IsPlainText(step)
    requires !Found(store, DanmakuKey(Owner(step.event.source)), step.now)
    ensures HandleEvent(scripts, store, step) == Outcome(store, [], false)
  {
  }

  /** An image runs the photo action exactly when the owner's photo key is unexpired, and never stops the batch. */
  lemma ImageGate(scripts: Scripts, store: map<string, int>, src: Source, token: string, id: string, now: int,
                  answers: Answers)
    ensures var o := HandleEvent(scripts, store, ImageStep(src, token, id, now, answers));
            && o.store == store && !o.stop
            && o.effects == if Found(store, PhotoKey(Owner(src)), now) then PhotoEffects(token, id, Owner(src), answers) else []
  {
  }

  /** Arming danmaku does not enable images. */
  lemma DanmakuArmingDoesNotEnableImages(scripts: Scripts, store: map<string, int>, src: Source,
                                         token1: string, now1: int, answers1: Answers,
                                         token2: string, id: string, now2: int, answers2: Answers)
    requires !Found(store, PhotoKey(Owner(src)), now2)
    ensures var armed := HandleEvent(scripts, store, TextStep(src, token1, DanmakuTrigger, now1, answers1));
            HandleEvent(scripts, armed.store, ImageStep(src, token2, id, now2, answers2)).effects == []
  {
    KeysNeverCollide(Owner(src), Owner(src));
  }

  /** Arming the photo mode does not enable the danmaku action. */
  lemma PhotoArmingDoesNotEnableDanmaku(scripts: Scripts, store: map<string, int>, src: Source,
                                        token1: string, now1: int, answers1: Answers,
                                        token2: string, text: string, now2: int, answers2: Answers)
    requires text != DanmakuTrigger && text != PhotoTrigger
    requires !Found(store, DanmakuKey(Owner(src)), now2)
    ensures var armed := HandleEvent(scripts, store, TextStep(src, token1, PhotoTrigger, now1, answers1));
            HandleEvent(scripts, armed.store, TextStep(src, token2, text, now2, answers2)) == Outcome(armed.store, [], false)
  {
    KeysNeverCollide(Owner(src), Owner(src));
  }

  /** An event stops the batch exactly when it is a plain text from an owner with an unexpired danmaku key. */
  lemma StopsExactlyOnDanmakuAction(scripts: Scripts, store: map<string, int>, step: Step)
    ensures HandleEvent(scripts, store, step).stop <==>
            IsPlainText(step) && Found(store, DanmakuKey(Owner(step.event.source)), step.now)
  {
  }

  /** Only a trigger phrase changes the store. */
  lemma OnlyTriggersWrite(scripts: Scripts, store: map<string, int>, step: Step)
    requires !IsTrigger(step)
    ensures HandleEvent(scripts, store, step).store == store
  {
  }

  // ---------------------------------------------------------------- batches

  /** Running `p + q` is running `p`, then, unless `p` stopped, running `q` from where `p` left the store. */
  lemma {:induction false} RunBatchAppend(scripts: Scripts, store: map<string, int>, p: seq<Step>, q: seq<Step>)
    ensures var r := RunBatch(scripts, store, p);
            RunBatch(scripts, store, p + q) == if r.stop then r else Then(r.effects, RunBatch(scripts, r.store, q))
    decreases |p|
  {
    if p == [] {
      assert p + q == q;
    } else {
      assert (p + q)[0] == p[0] && (p + q)[1..] == p[1..] + q;
      var first := HandleEvent(scripts, store, p[0]);
      if !first.stop {
        RunBatchAppend(scripts, first.store, p[1..], q);
        var r := RunBatch(scripts, first.store, p[1..]);
        if !r.stop {
          var rest := RunBatch(scripts, r.store, q);
          assert first.effects + (r.effects + rest.effects) == (first.effects + r.effects) + rest.effects;
        }
      }
    }
  }

  /**
   * The early return: once a plain text reaches the danmaku action, the
   * events after it are not handled and "OK" is not written.
   */
  lemma BatchAbort(scripts: Scripts, store: map<string, int>, p: seq<Step>, x: Step, q: seq<Step>)
    requires !RunBatch(scripts, store, p).stop
    requires IsPlainText(x) && Found(RunBatch(scripts, store, p).store, DanmakuKey(Owner(x.event.source)), x.now)
    ensures var before := RunBatch(scripts, store, p);
            var run := RunBatch(scripts, store, p + [x] + q);
            && run.store == before.store && run.stop
            && run.effects == before.effects + DanmakuEffects(scripts, x.event.message.text, Owner(x.event.source),
                                                              x.event.replyToken, x.answers.profile)
            && Respond(Parsed(p + [x] + q), run) == NothingWritten
  {
    var before := RunBatch(scripts, store, p);
    RunBatchAppend(scripts, store, p, [x] + q);
    assert p + [x] + q == p + ([x] + q);
    assert ([x] + q)[0] == x;
  }

  /** A batch with no plain text message cannot stop early, so "OK" is written. */
  lemma {:induction false} NoPlainTextMeansOk(scripts: Scripts, store: map<string, int>, steps: seq<Step>)
    requires forall i :: 0 <= i < |steps| ==> !IsPlainText(steps[i])
    ensures Respond(Parsed(steps), RunBatch(scripts, store, steps)) == OkBody
    decreases |steps|
  {
    if steps != [] {
      var first := HandleEvent(scripts, store, steps[0]);
      assert !IsPlainText(steps[0]);
      assert !first.stop;
      forall i | 0 <= i < |steps[1..]| ensures !IsPlainText(steps[1..][i]) {
        assert steps[1..][i] == steps[i + 1];
      }
      NoPlainTextMeansOk(scripts, first.store, steps[1..]);
    }
  }

  /** With no armed key, a batch without trigger phrases has no effect at all and leaves the store empty. */
  lemma {:induction false} IdleBatch(scripts: Scripts, steps: seq<Step>)
    requires forall i :: 0 <= i < |steps| ==> !IsTrigger(steps[i])
    ensures RunBatch(scripts, map[], steps) == Outcome(map[], [], false)
    decreases |steps|
  {
    if steps != [] {
      assert !IsTrigger(steps[0]);
      assert HandleEvent(scripts, map[], steps[0]) == Outcome(map[], [], false);
      forall i | 0 <= i < |steps[1..]| ensures !IsTrigger(steps[1..][i]) {
        assert steps[1..][i] == steps[i + 1];
      }
      IdleBatch(scripts, steps[1..]);
    }
  }

  // ---------------------------------------------------------------- replies

  /** The number of replies in a trace. */
  function ReplyCount(effects: seq<Effect>): nat
  {
    if effects == [] then 0 else (if effects[0].Reply? then 1 else 0) + ReplyCount(effects[1..])
  }

  lemma {:induction false} ReplyCountAppend(a: seq<Effect>, b: seq<Effect>)
    ensures ReplyCount(a + b) == ReplyCount(a) + ReplyCount(b)
    decreases |a|
  {
    if a == [] {
      assert a + b == b;
    } else {
      assert (a + b)[0] == a[0] && (a + b)[1..] == a[1..] + b;
      ReplyCountAppend(a[1..], b);
    }
  }

  /** A trace without a reply counts none. */
  lemma {:induction false} NoReplies(effects: seq<Effect>)
    requires forall i :: 0 <= i < |effects| ==> !effects[i].Reply?
    ensures ReplyCount(effects) == 0
    decreases |effects|
  {
    if effects != [] {
      assert forall i :: 0 <= i < |effects[1..]| ==> effects[1..][i] == effects[i + 1];
      NoReplies(effects[1..]);
    }
  }

  /** Each event gets at most one reply, and only on its own reply token. */
  lemma AtMostOneReplyPerEvent(scripts: Scripts, store: map<string, int>, step: Step)
    ensures var effects := HandleEvent(scripts, store, step).effects;
            && ReplyCount(effects) <= 1
            && forall e <- effects :: e.Reply? ==> e.token == step.event.replyToken
  {
    match step.event
    case OtherEvent(_) =>
    case MessageEvent(src, token, msg) =>
      var owner := Owner(src);
      match msg
      case Text(t) =>
        if t != DanmakuTrigger && t != PhotoTrigger && Found(store, DanmakuKey(owner), step.now) {
          var profile := step.answers.profile;
          var tail: seq<Effect> :=
            if profile.None? then []
            else if !IsValidDanmaku(scripts, t) then [Reply(token, Rejection)]
            else [Broadcast(t), SaveMessage(t, profile.value)];
          assert DanmakuEffects(scripts, t, owner, token, profile) == [GetProfile(owner)] + tail;
          ReplyCountAppend([GetProfile(owner)], tail);
          if profile.Some? && IsValidDanmaku(scripts, t) {
            NoReplies(tail);
          }
        }
      case Image(id) =>
        PhotoReplies(token, id, owner, step.answers);
      case OtherMessage =>
  }

  // ---------------------------------------------------------------- danmaku action

  /**
   * The danmaku action: the profile lookup comes first; after a failed lookup
   * nothing else happens; otherwise an invalid text gets exactly one rejection
   * reply and a valid text is broadcast and then saved under the sender's name.
   */
  lemma DanmakuOrdering(scripts: Scripts, text: string, owner: string, token: string, profile: Option<string>)
    ensures var effects := DanmakuEffects(scripts, text, owner, token, profile);
            && effects[0] == GetProfile(owner)
            && (profile.None? ==> effects == [GetProfile(owner)])
            && (profile.Some? && !IsValidDanmaku(scripts, text) ==> effects == [GetProfile(owner), Reply(token, Rejection)])
            && (profile.Some? && IsValidDanmaku(scripts, text) ==>
                  effects == [GetProfile(owner), Broadcast(text), SaveMessage(text, profile.value)])
  {
  }

  /** What the danmaku action sends and stores, in both directions. */
  lemma DanmakuEffectsIff(scripts: Scripts, text: string, owner: string, token: string, profile: Option<string>)
    ensures var effects := DanmakuEffects(scripts, text, owner, token, profile);
            && (Broadcast(text) in effects <==> profile.Some? && IsValidDanmaku(scripts, text))
            && (Reply(token, Rejection) in effects <==> profile.Some? && !IsValidDanmaku(scripts, text))
            && (forall e <- effects :: e.Broadcast? || e.SaveMessage? ==>
                  profile.Some? && IsValidDanmaku(scripts, text) && e.text == text)
            && (forall e <- effects :: e.Reply? ==> e == Reply(token, Rejection))
  {
  }

  // ---------------------------------------------------------------- photo action

  /** Every step of the photo pipeline, in order, as if each one succeeded. */
  function FullPipeline(token: string, id: string, owner: string, answers: Answers): seq<Effect>
  {
    var name := match answers.profile case Some(n) => n case None => "";
    [Download(id), SaveLocal(id), GetProfile(owner), SaveImage(name, answers.filePath),
     Reply(token, SerialNotice(answers.serial))]
  }

  /** Whether every step of the photo pipeline succeeds. */
  predicate PhotoSucceeds(answers: Answers)
  {
    answers.downloaded && answers.filePath != "" && answers.profile.Some?
  }

  /**
   * The photo action runs a prefix of the pipeline and stops right after the first
   * failed step: a failed download, an empty file path, or a failed profile lookup.
   */
  lemma PhotoPipeline(token: string, id: string, owner: string, answers: Answers)
    ensures var effects := PhotoEffects(token, id, owner, answers);
            && effects <= FullPipeline(token, id, owner, answers)
            && (!answers.downloaded ==> |effects| == 1)
            && (answers.downloaded && answers.filePath == "" ==> |effects| == 2)
            && (answers.downloaded && answers.filePath != "" && answers.profile.None? ==> |effects| == 3)
            && (PhotoSucceeds(answers) ==> effects == FullPipeline(token, id, owner, answers))
  {
    var effects := PhotoEffects(token, id, owner, answers);
    var full := FullPipeline(token, id, owner, answers);
    if !answers.downloaded {
      assert effects == full[..1];
    } else if answers.filePath == "" {
      assert effects == full[..2];
    } else if answers.profile.None? {
      assert effects == full[..3];
    }
  }

  /**
   * The user gets a reply from the photo action exactly when every step succeeds;
   * then the image is saved once with the sender's name and the file path, and the
   * one reply, the last call, carries the serial.
   */
  lemma PhotoReplies(token: string, id: string, owner: string, answers: Answers)
    ensures var effects := PhotoEffects(token, id, owner, answers);
            && ReplyCount(effects) == (if PhotoSucceeds(answers) then 1 else 0)
            && (forall e <- effects :: e.Reply? ==> e == Reply(token, SerialNotice(answers.serial)))
            && (PhotoSucceeds(answers) ==>
                  && multiset(effects)[SaveImage(answers.profile.value, answers.filePath)] == 1
                  && effects[|effects| - 1] == Reply(token, SerialNotice(answers.serial)))
  {
    var effects := PhotoEffects(token, id, owner, answers);
    if PhotoSucceeds(answers) {
      var head := [Download(id), SaveLocal(id), GetProfile(owner), SaveImage(answers.profile.value, answers.filePath)];
      assert effects == head + [Reply(token, SerialNotice(answers.serial))];
      NoReplies(head);
      ReplyCountAppend(head, [Reply(token, SerialNotice(answers.serial))]);
    } else {
      NoReplies(effects);
    }
  }

  // ---------------------------------------------------------------- scenarios

  /**
   * Danmaku trigger, then "Hello 世界" in a second delivery within 60 seconds:
   * it is broadcast once and saved once under the sender's name, and that second
   * delivery gets no "OK".
   */
  lemma DanmakuScenario(scripts: Scripts, store: map<string, int>, src: Source,
                        token1: string, t0: int, answers1: Answers,
                        token2: string, t1: int, answers2: Answers, name: string)
    requires scripts.han('世') && scripts.han('界')
    requires answers2.profile == Some(name)
    requires t1 < t0 + DanmakuTtl
    ensures var first := RunBatch(scripts, store, [TextStep(src, token1, DanmakuTrigger, t0, answers1)]);
            var second := RunBatch(scripts, first.store, [TextStep(src, token2, "Hello 世界", t1, answers2)]);
            && first.effects == [Reply(token1, DanmakuInstructions)]
            && second.effects == [GetProfile(Owner(src)), Broadcast("Hello 世界"), SaveMessage("Hello 世界", name)]
            && Respond(Parsed([TextStep(src, token2, "Hello 世界", t1, answers2)]), second) == NothingWritten
  {
    var text := "Hello 世界";
    assert |text| == 8;
    assert forall i :: 0 <= i < |text| ==> Allowed(scripts, text[i]);
  }

  /** The same, with a text of 25 code points: the rejection reply is the only call after the profile lookup. */
  lemma LongTextScenario(scripts: Scripts, store: map<string, int>, src: Source,
                         token1: string, t0: int, answers1: Answers,
                         token2: string, text: string, t1: int, answers2: Answers)
    requires |text| == 25 && answers2.profile.Some?
    requires t1 < t0 + DanmakuTtl
    ensures var first := RunBatch(scripts, store, [TextStep(src, token1, DanmakuTrigger, t0, answers1)]);
            RunBatch(scripts, first.store, [TextStep(src, token2, text, t1, answers2)]).effects ==
              [GetProfile(Owner(src)), Reply(token2, Rejection)]
  {
    assert text != DanmakuTrigger && text != PhotoTrigger;
  }

  /**
   * Photo trigger, then an image within 300 seconds whose steps all succeed: the
   * whole pipeline runs once. The same image 310 seconds after the trigger has no effect.
   */
  lemma PhotoScenario(scripts: Scripts, store: map<string, int>, src: Source,
                      token1: string, t0: int, answers1: Answers,
                      token2: string, id: string, t1: int, answers2: Answers)
    requires answers2.downloaded && answers2.filePath != "" && answers2.profile.Some?
    requires t1 < t0 + PhotoTtl
    ensures var first := RunBatch(scripts, store, [TextStep(src, token1, PhotoTrigger, t0, answers1)]);
            && RunBatch(scripts, first.store, [ImageStep(src, token2, id, t1, answers2)]).effects ==
                 FullPipeline(token2, id, Owner(src), answers2)
            && RunBatch(scripts, first.store, [ImageStep(src, token2, id, t0 + 310 * Second, answers2)]).effects == []
  {
  }
}
