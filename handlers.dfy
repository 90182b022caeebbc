/**
 * The conversation flow of src/handlers.js:
 *
 *   IDLE → AWAITING_LANGUAGE → AWAITING_VEHICLE_IMAGE → AWAITING_COLOR
 *        → AWAITING_TEXTURE → PROCESSING → COMPLETED, and "another" back
 *        to AWAITING_VEHICLE_IMAGE.
 *
 * Each handler is a method on the store that runs the handler's sequence of
 * store calls; its contract ties the new store to a pure transition function
 * (`AfterStart`, `AfterLanguage`, ...) of the session `getSession` returned
 * and of the quota check. The lemmas at the end state the flow's properties
 * over those functions.
 *
 * The source calls the store without `await`. The model gives every call the
 * meaning it evidently has (its value, once it has completed); the
 * consequence of the missing `await` is stated separately at the end, with
 * `AfterLanguageAsWritten`. The external processor and the watermark step
 * are parameters: the outcome of the webhook POST and whether watermarking
 * produced an image. Replies, callback answers and message texts are left
 * out; the calls `msg()` makes to `getSession` are dropped, since after the
 * handler's own first `getSession` they change nothing.
 */
module Handlers {
  import opened Wrappers
  import opened Strings
  import opened Sessions
  import N8n

  /** What the handlers read from the clock: `Date.now()` and the calendar date. */
  datatype Clock = Clock(now: int, date: Date)

  /** A colour or texture of the catalogue: its key (sent to the processor) and its name in each language. */
  datatype Choice = Choice(key: string, ru: string, am: string)

  /** `choice[lang]`. */
  function NameIn(c: Choice, lang: Lang): string {
    match lang
    case Ru => c.ru
    case Am => c.am
  }

  /** An inline-keyboard button: its caption and its callback data. */
  datatype Button = Button(caption: string, data: string)

  /** The image `startProcessing` sends: the watermarked buffer, or the processor's URL when watermarking threw. */
  datatype Photo = Buffer(bytes: seq<bv8>) | Url(url: string)

  /** What `addWatermark(outputImage)` did: produced a buffer, or threw. */
  datatype WatermarkOutcome = Watermarked(buffer: seq<bv8>) | WatermarkFailed

  // ---------------------------------------------------------------
  // Catalogue lookups and keyboards
  // ---------------------------------------------------------------

  /** Entry `i` is the first one of the catalogue with this key. */
  predicate FirstWithKey(catalogue: seq<Choice>, key: string, i: int) {
    0 <= i < |catalogue| && catalogue[i].key == key && forall j :: 0 <= j < i ==> catalogue[j].key != key
  }

  /** `catalogue.find((c) => c.key === key)`, as the index of the entry found. */
  function FindKey(catalogue: seq<Choice>, key: string): (r: Option<nat>)
    ensures r.Some? ==> FirstWithKey(catalogue, key, r.value)
    ensures r.None? ==> forall j :: 0 <= j < |catalogue| ==> catalogue[j].key != key
  {
    if catalogue == [] then None
    else if catalogue[0].key == key then Some(0)
    else match FindKey(catalogue[1..], key)
      case None => None
      case Some(i) => Some(i + 1)
  }

  /**
   * `getColorName` / `getTextureName`: the name, in the session's language
   * (Russian when none), of the first entry with the key; the key itself
   * when no entry has it.
   */
  function DisplayName(catalogue: seq<Choice>, language: Option<Lang>, key: string): (name: string)
    ensures forall i :: FirstWithKey(catalogue, key, i) ==> name == NameIn(catalogue[i], LanguageOrRu(language))
    ensures (forall j :: 0 <= j < |catalogue| ==> catalogue[j].key != key) ==> name == key
  {
    match FindKey(catalogue, key)
    case Some(i) => NameIn(catalogue[i], LanguageOrRu(language))
    case None => key
  }

  /** `catalogue.map((c) => Markup.button.callback(c[lang], prefix + c.key))`. */
  function Buttons(catalogue: seq<Choice>, lang: Lang, prefix: string): (bs: seq<Button>)
    ensures |bs| == |catalogue|
  {
    seq(|catalogue|, i requires 0 <= i < |catalogue| => Button(NameIn(catalogue[i], lang), prefix + catalogue[i].key))
  }

  /** Pressing button `i` sends data from which the handler recovers exactly entry `i`'s key; its caption is entry `i`'s name. */
  lemma ButtonRoundTrip(catalogue: seq<Choice>, lang: Lang, prefix: string, i: nat)
    requires i < |catalogue|
    ensures Buttons(catalogue, lang, prefix)[i].caption == NameIn(catalogue[i], lang)
    ensures ReplaceFirst(Buttons(catalogue, lang, prefix)[i].data, prefix) == catalogue[i].key
  {
    ReplaceAfterPrefix(prefix, catalogue[i].key);
  }

  /** The rows of a keyboard, read left to right and top to bottom. */
  function Flatten<T>(rows: seq<seq<T>>): seq<T> {
    if rows == [] then [] else rows[0] + Flatten(rows[1..])
  }

  lemma {:induction false} FlattenSnoc<T>(rows: seq<seq<T>>, row: seq<T>)
    ensures Flatten(rows + [row]) == Flatten(rows) + row
  {
    if rows != [] {
      assert (rows + [row])[1..] == rows[1..] + [row];
      FlattenSnoc(rows[1..], row);
    }
  }

  /** `rows[rows.length - 1].push(x)` on a keyboard with at least one row. */
  function PushLast<T>(rows: seq<seq<T>>, x: T): seq<seq<T>>
    requires |rows| > 0
  {
    rows[..|rows| - 1] + [rows[|rows| - 1] + [x]]
  }

  /**
   * The keyboard once the reducer has taken the first `n` buttons: rows of
   * two, the last one holding what is left over, and the buttons in order.
   */
  ghost predicate ChunkedUpTo<T>(items: seq<T>, n: nat, rows: seq<seq<T>>)
    requires n <= |items|
  {
    && |rows| == (n + 1) / 2
    && Flatten(rows) == items[..n]
    && (forall i :: 0 <= i < |rows| - 1 ==> |rows[i]| == 2)
    && (n > 0 ==> |rows[|rows| - 1]| == 2 - n % 2)
  }

  /** Pushing a button onto the last row leaves the other rows and appends it to the flattened keyboard. */
  lemma PushLastFacts<T>(rows: seq<seq<T>>, x: T)
    requires |rows| > 0
    ensures |PushLast(rows, x)| == |rows|
    ensures forall i :: 0 <= i < |rows| - 1 ==> PushLast(rows, x)[i] == rows[i]
    ensures PushLast(rows, x)[|rows| - 1] == rows[|rows| - 1] + [x]
    ensures Flatten(PushLast(rows, x)) == Flatten(rows) + [x]
  {
    var init, last := rows[..|rows| - 1], rows[|rows| - 1];
    assert rows == init + [last];
    FlattenSnoc(init, last);
    FlattenSnoc(init, last + [x]);
  }

  /** One step of the reducer keeps that shape: an even index opens a row, then the button goes onto the last row. */
  lemma ChunkStep<T>(items: seq<T>, n: nat, rows: seq<seq<T>>)
    requires n < |items| && ChunkedUpTo(items, n, rows)
    ensures n % 2 == 0 ==> ChunkedUpTo(items, n + 1, PushLast(rows + [[]], items[n]))
    ensures n % 2 == 1 ==> |rows| > 0 && ChunkedUpTo(items, n + 1, PushLast(rows, items[n]))
  {
    assert items[..n + 1] == items[..n] + [items[n]];
    if n % 2 == 0 {
      FlattenSnoc(rows, []);
      PushLastFacts(rows + [[]], items[n]);
    } else {
      PushLastFacts(rows, items[n]);
    }
  }

  /**
   * The keyboard reducer of `handleVehicleImage`: an even index opens a new
   * row, and every button is pushed onto the last row. The result has rows of
   * two, except that the last row may hold one, and reading the rows in order
   * gives back every button in order.
   */
  method ChunkPairs<T>(items: seq<T>) returns (rows: seq<seq<T>>)
    ensures Flatten(rows) == items
    ensures |rows| == (|items| + 1) / 2
    ensures forall i :: 0 <= i < |rows| - 1 ==> |rows[i]| == 2
    ensures |rows| > 0 ==> 1 <= |rows[|rows| - 1]| <= 2
  {
    rows := [];
    var index := 0;
    while index < |items|
      invariant 0 <= index <= |items|
      invariant ChunkedUpTo(items, index, rows)
    {
      ChunkStep(items, index, rows);
      if index % 2 == 0 {
        rows := rows + [[]];
      }
      rows := PushLast(rows, items[index]);
      index := index + 1;
    }
    assert items[..index] == items;
  }

  // ---------------------------------------------------------------
  // The transitions
  // ---------------------------------------------------------------

  /** The callback data of a language button for `lang`. */
  function LanguageCode(lang: Lang): string {
    match lang
    case Ru => "ru"
    case Am => "am"
  }

  /** `data.replace("lang_", "")`, accepted only when it is `"ru"` or `"am"`. */
  function ParseLanguage(data: string): (r: Option<Lang>)
    ensures r.Some? <==> ReplaceFirst(data, "lang_") in {"ru", "am"}
    ensures r.Some? ==> ReplaceFirst(data, "lang_") == LanguageCode(r.value)
  {
    var code := ReplaceFirst(data, "lang_");
    if code == "ru" then Some(Ru) else if code == "am" then Some(Am) else None
  }

  /** The buttons `/start` offers (`lang_ru`, `lang_am`) select their languages. */
  lemma LanguageButtonsParse(lang: Lang)
    ensures ParseLanguage("lang_" + LanguageCode(lang)) == Some(lang)
  {
    ReplaceAfterPrefix("lang_", LanguageCode(lang));
  }

  /** `/start`: reset (keeping the language), then AWAITING_LANGUAGE. */
  function AfterStart(s: Session, now: int): (r: Session)
    ensures r.state == AwaitingLanguage && r.language == s.language && Blank(r) && r.createdAt == now
  {
    Reset(s, now).(state := AwaitingLanguage)
  }

  /**
   * What a handler holds after calling an async store function: as written it
   * holds a pending Promise; as intended, the settled value.
   */
  datatype Held<T> = Pending | Settled(value: T)

  /** `session.state` on what the handler holds: `undefined` (`None`) on a Promise. */
  function StateRead(h: Held<Session>): Option<State> {
    match h
    case Pending => None
    case Settled(s) => Some(s.state)
  }

  /** `if (hasExceededLimit(...))` on what the handler holds: a Promise object is truthy. */
  function ConditionRead(h: Held<bool>): bool {
    match h
    case Pending => true
    case Settled(b) => b
  }

  /**
   * The body of `handleLanguageSelection` as a transition of the stored
   * session `s`, given what it holds for `getSession` and `hasExceededLimit`.
   */
  function LanguageStep(s: Session, session: Held<Session>, exceeded: Held<bool>, data: string): Session {
    if StateRead(session) != Some(AwaitingLanguage) then s
    else match ParseLanguage(data)
      case None => s
      case Some(lang) =>
        if ConditionRead(exceeded) then s.(language := Some(lang))
        else s.(language := Some(lang), state := AwaitingVehicleImage)
  }

  /**
   * Language selection, calls completed: only in AWAITING_LANGUAGE and only
   * for `ru`/`am`; over the limit the language is stored and the state kept,
   * otherwise the state moves on to AWAITING_VEHICLE_IMAGE.
   */
  function AfterLanguage(s: Session, data: string, over: bool): (r: Session)
    ensures s.state != AwaitingLanguage || ParseLanguage(data).None? ==> r == s
    ensures s.state == AwaitingLanguage && ParseLanguage(data).Some? ==>
              r == s.(language := ParseLanguage(data), state := if over then AwaitingLanguage else AwaitingVehicleImage)
  {
    LanguageStep(s, Settled(s), Settled(over), data)
  }

  /** A photo: only in AWAITING_VEHICLE_IMAGE and under the limit; stores the link and file id, then AWAITING_COLOR. */
  function AfterPhoto(s: Session, fileId: string, link: string, over: bool): (r: Session)
    ensures s.state != AwaitingVehicleImage || over ==> r == s
    ensures s.state == AwaitingVehicleImage && !over ==>
              r == s.(state := AwaitingColor, vehicleImage := Some(link), vehicleFileId := Some(fileId))
    ensures r.language == s.language && r.selectedColor == s.selectedColor && r.selectedTexture == s.selectedTexture
    ensures r.selectedColorDisplay == s.selectedColorDisplay && r.selectedTextureDisplay == s.selectedTextureDisplay
    ensures r.createdAt == s.createdAt
  {
    if s.state != AwaitingVehicleImage || over then s
    else s.(state := AwaitingColor, vehicleImage := Some(link), vehicleFileId := Some(fileId))
  }

  /** The colour key a colour button carries: `data.replace("color_", "")`. */
  function ColorKey(data: string): string {
    ReplaceFirst(data, "color_")
  }

  /** The texture key a texture button carries: `data.replace("texture_", "")`. */
  function TextureKey(data: string): string {
    ReplaceFirst(data, "texture_")
  }

  /** A colour: only in AWAITING_COLOR; stores the key and its display name, then AWAITING_TEXTURE. */
  function AfterColor(s: Session, data: string, colors: seq<Choice>): (r: Session)
    ensures s.state != AwaitingColor ==> r == s
    ensures s.state == AwaitingColor ==>
              && r.state == AwaitingTexture
              && r.selectedColor == Some(ColorKey(data))
              && r.selectedColorDisplay == Some(DisplayName(colors, s.language, ColorKey(data)))
              && r == s.(state := AwaitingTexture, selectedColor := r.selectedColor,
                         selectedColorDisplay := r.selectedColorDisplay)
    ensures r.language == s.language && r.vehicleImage == s.vehicleImage && r.vehicleFileId == s.vehicleFileId
    ensures r.selectedTexture == s.selectedTexture && r.selectedTextureDisplay == s.selectedTextureDisplay
    ensures r.createdAt == s.createdAt
  {
    if s.state != AwaitingColor then s
    else
      var key := ColorKey(data);
      s.(state := AwaitingTexture, selectedColor := Some(key),
         selectedColorDisplay := Some(DisplayName(colors, s.language, key)))
  }

  /** The processor is called: the texture arrived in AWAITING_TEXTURE and the quota is not used up. */
  predicate RunsProcessor(s: Session, over: bool) {
    s.state == AwaitingTexture && !over
  }

  /** `processVehicleImage` returned (did not throw) a result that passes `result.success && result.outputImage`. */
  predicate Succeeded(o: N8n.Outcome) {
    o.Returned? && N8n.Delivers(o.result)
  }

  /** The session with the texture stored, as `handleTextureSelection` writes it before `startProcessing`. */
  function WithTexture(s: Session, data: string, textures: seq<Choice>): Session {
    s.(selectedTexture := Some(TextureKey(data)),
       selectedTextureDisplay := Some(DisplayName(textures, s.language, TextureKey(data))))
  }

  /**
   * `startProcessing` on the session `s` it reads: over the limit nothing
   * happens; otherwise the processor runs, a delivered result completes the
   * session, and anything else (a failed or imageless result, or a thrown
   * error) resets it with the language kept. The PROCESSING state it passes
   * through in between is never what remains.
   */
  function AfterProcessing(s: Session, over: bool, outcome: N8n.Outcome, now: int): (r: Session)
    ensures over ==> r == s
    ensures !over && Succeeded(outcome) ==> r == s.(state := Completed)
    ensures !over && !Succeeded(outcome) ==>
              r.state == Idle && r.language == s.language && Blank(r) && r.createdAt == now
  {
    if over then s
    else if Succeeded(outcome) then s.(state := Completed)
    else Reset(s, now)
  }

  /**
   * A texture: only in AWAITING_TEXTURE. The texture is stored, then
   * `startProcessing` runs on the updated session.
   */
  function AfterTexture(s: Session, data: string, textures: seq<Choice>, over: bool, outcome: N8n.Outcome, now: int): (r: Session)
    ensures s.state != AwaitingTexture ==> r == s
    ensures s.state == AwaitingTexture && over ==> r == WithTexture(s, data, textures) && r.state == AwaitingTexture
    ensures RunsProcessor(s, over) && Succeeded(outcome) ==>
              r == WithTexture(s, data, textures).(state := Completed)
    ensures RunsProcessor(s, over) && !Succeeded(outcome) ==>
              r.state == Idle && r.language == s.language && Blank(r) && r.createdAt == now
    ensures r.state == Processing ==> s.state == Processing
  {
    if s.state != AwaitingTexture then s
    else AfterProcessing(WithTexture(s, data, textures), over, outcome, now)
  }

  /**
   * A result button, in any state: `result_another` under the limit starts a
   * new round (reset, language kept, AWAITING_VEHICLE_IMAGE); everything else
   * (`result_call`, another data, or over the limit) changes nothing.
   */
  function AfterResult(s: Session, data: string, over: bool, now: int): (r: Session)
    ensures data != "result_another" || over ==> r == s
    ensures data == "result_another" && !over ==>
              r.state == AwaitingVehicleImage && r.language == s.language && Blank(r) && r.createdAt == now
  {
    if data == "result_another" && !over then Reset(s, now).(state := AwaitingVehicleImage) else s
  }

  // ---------------------------------------------------------------
  // The handlers
  // ---------------------------------------------------------------

  /** `handleStart`: `resetSession`, then `updateSession({state: AWAITING_LANGUAGE})`. */
  method HandleStart(st: Store, chat: ChatId, clock: Clock)
    modifies st
    ensures st.sessions == old(st.sessions)[chat := AfterStart(old(st.Current(chat, clock.now)), clock.now)]
    ensures st.usage == old(st.usage) && st.usageExpiry == old(st.usageExpiry) && st.locks == old(st.locks)
  {
    var _ := st.ResetSession(chat, clock.now);
    var _ := st.UpdateSession(chat, NoChange.(state := Some(AwaitingLanguage)), clock.now);
  }

  /** `handleLanguageSelection` for a button carrying `data`. */
  method HandleLanguageSelection(st: Store, chat: ChatId, data: string, clock: Clock)
    modifies st
    ensures st.sessions ==
              old(st.sessions)[chat := AfterLanguage(old(st.Current(chat, clock.now)), data, old(st.Over(chat, clock.date)))]
    ensures st.usage == old(st.usage) && st.usageExpiry == old(st.usageExpiry) && st.locks == old(st.locks)
  {
    var session := st.GetSession(chat, clock.now);
    if session.state != AwaitingLanguage {
      return;
    }
    var language := ParseLanguage(data);
    if language.None? {
      return;
    }
    var over := st.HasExceededLimit(chat, clock.date);
    if over {
      var _ := st.UpdateSession(chat, NoChange.(language := Some(language)), clock.now);
      return;
    }
    var _ := st.UpdateSession(chat, NoChange.(language := Some(language), state := Some(AwaitingVehicleImage)), clock.now);
  }

  /**
   * `handlePhoto` and `handleVehicleImage` for a photo whose sizes have the
   * file ids `fileIds` (the last is the largest) and whose file link is
   * `link`. When accepted, returns the colour keyboard: the colour buttons in
   * the session's language, two per row.
   */
  method HandlePhoto(st: Store, chat: ChatId, fileIds: seq<string>, link: string, colors: seq<Choice>, clock: Clock)
    returns (keyboard: Option<seq<seq<Button>>>)
    requires |fileIds| > 0
    modifies st
    ensures var s := old(st.Current(chat, clock.now));
      st.sessions == old(st.sessions)[chat := AfterPhoto(s, fileIds[|fileIds| - 1], link, old(st.Over(chat, clock.date)))]
    ensures st.usage == old(st.usage) && st.usageExpiry == old(st.usageExpiry) && st.locks == old(st.locks)
    ensures keyboard.Some? <==> old(st.Current(chat, clock.now)).state == AwaitingVehicleImage && !old(st.Over(chat, clock.date))
    ensures keyboard.Some? ==>
              var rows := keyboard.value;
              && Flatten(rows) == Buttons(colors, LanguageOrRu(old(st.Current(chat, clock.now)).language), "color_")
              && (forall i :: 0 <= i < |rows| - 1 ==> |rows[i]| == 2)
              && (|rows| > 0 ==> 1 <= |rows[|rows| - 1]| <= 2)
  {
    keyboard := None;
    var session := st.GetSession(chat, clock.now);
    var fileId := fileIds[|fileIds| - 1];
    if session.state != AwaitingVehicleImage {
      return;
    }
    var over := st.HasExceededLimit(chat, clock.date);
    if over {
      return;
    }
    var lang := LanguageOrRu(session.language);
    var _ := st.UpdateSession(chat, NoChange.(
      state := Some(AwaitingColor), vehicleImage := Some(Some(link)), vehicleFileId := Some(Some(fileId))), clock.now);
    var rows := ChunkPairs(Buttons(colors, lang, "color_"));
    keyboard := Some(rows);
  }

  /** `handleColorSelection`; when accepted, returns the texture keyboard: one row of all texture buttons. */
  method HandleColorSelection(st: Store, chat: ChatId, data: string, colors: seq<Choice>, textures: seq<Choice>, clock: Clock)
    returns (keyboard: Option<seq<seq<Button>>>)
    modifies st
    ensures st.sessions == old(st.sessions)[chat := AfterColor(old(st.Current(chat, clock.now)), data, colors)]
    ensures st.usage == old(st.usage) && st.usageExpiry == old(st.usageExpiry) && st.locks == old(st.locks)
    ensures keyboard.Some? <==> old(st.Current(chat, clock.now)).state == AwaitingColor
    ensures keyboard.Some? ==>
              keyboard.value == [Buttons(textures, LanguageOrRu(old(st.Current(chat, clock.now)).language), "texture_")]
  {
    keyboard := None;
    var session := st.GetSession(chat, clock.now);
    if session.state != AwaitingColor {
      return;
    }
    var key := ColorKey(data);
    var display := DisplayName(colors, session.language, key);
    var _ := st.UpdateSession(chat, NoChange.(
      state := Some(AwaitingTexture), selectedColor := Some(Some(key)), selectedColorDisplay := Some(Some(display))), clock.now);
    keyboard := Some([Buttons(textures, LanguageOrRu(session.language), "texture_")]);
  }

  /**
   * `startProcessing`. `http` is the outcome of the webhook POST and
   * `watermark` that of `addWatermark`. Returns the request sent to the
   * processor (when it was called), the photo sent back, the remaining count
   * when the low-quota warning is shown, and the message of the error caught,
   * when one was. `clock` is read before the processor is called and `later`
   * once it has answered: the source calls `new Date()` and `Date.now()` anew
   * at each step, and the call can take up to 180 s, so the quota test can
   * read one week's bucket while the increment writes the next one.
   */
  method StartProcessing(st: Store, chat: ChatId, http: N8n.HttpOutcome, watermark: WatermarkOutcome, clock: Clock, later: Clock)
    returns (request: Option<N8n.Request>, photo: Option<Photo>, lowQuota: Option<nat>, caught: Option<string>)
    modifies st
    ensures st.sessions == old(st.sessions)[chat := AfterProcessing(old(st.Current(chat, clock.now)),
                                                                     old(st.Over(chat, clock.date)),
                                                                     N8n.ProcessVehicleImage(http), later.now)]
    ensures var key := WeekKey(chat, later.date);
      if !old(st.Over(chat, clock.date)) && Succeeded(N8n.ProcessVehicleImage(http)) then
        && st.usage == old(st.usage)[key := old(st.Count(key)) + 1]
        && st.usageExpiry == if old(st.Count(key)) == 0 then old(st.usageExpiry)[key := UsageExpirySeconds] else old(st.usageExpiry)
      else
        st.usage == old(st.usage) && st.usageExpiry == old(st.usageExpiry)
    ensures st.locks == old(st.locks)
    ensures request.Some? <==> !old(st.Over(chat, clock.date))
    ensures var s := old(st.Current(chat, clock.now));
      request.Some? ==> request.value == N8n.Request(chat, s.vehicleImage, s.selectedColor, s.selectedTexture)
    ensures photo.Some? <==> !old(st.Over(chat, clock.date)) && Succeeded(N8n.ProcessVehicleImage(http))
    ensures photo.Some? ==>
              photo.value == if watermark.Watermarked? then Buffer(watermark.buffer)
                             else Url(N8n.ProcessVehicleImage(http).result.outputImage.value)
    ensures lowQuota.Some? ==> photo.Some? && 0 < lowQuota.value <= 3
    ensures photo.Some? ==>
              var remaining := Remaining(st.limit, st.Count(WeekKey(chat, later.date)));
              (lowQuota.Some? <==> 0 < remaining <= 3) && (lowQuota.Some? ==> lowQuota.value == remaining)
    ensures caught.Some? <==> !old(st.Over(chat, clock.date)) && http.Failed?
    ensures caught.Some? ==> caught.value == N8n.MessageOf(N8n.ClassifyError(http.error))
  {
    request, photo, lowQuota, caught := None, None, None, None;
    var session := st.GetSession(chat, clock.now);
    var over := st.HasExceededLimit(chat, clock.date);
    if over {
      return;
    }
    var _ := st.UpdateSession(chat, NoChange.(state := Some(Processing)), clock.now);
    request := Some(N8n.Request(chat, session.vehicleImage, session.selectedColor, session.selectedTexture));
    var outcome := N8n.ProcessVehicleImage(http);
    photo, lowQuota, caught := FinishProcessing(st, chat, session, outcome, watermark, later);
  }

  /**
   * The part of `startProcessing` after the processor has answered with
   * `outcome`, on a chat whose stored session is `session` marked PROCESSING:
   * a delivered image is counted, completes the session and is sent
   * (watermarked when that worked), with the low-quota warning when 1 to 3
   * generations remain; anything else resets the session, and a thrown
   * error's message is what the user is shown.
   */
  method FinishProcessing(st: Store, chat: ChatId, session: Session, outcome: N8n.Outcome,
                          watermark: WatermarkOutcome, later: Clock)
    returns (photo: Option<Photo>, lowQuota: Option<nat>, caught: Option<string>)
    requires chat in st.sessions && st.sessions[chat] == session.(state := Processing)
    modifies st
    ensures st.sessions == old(st.sessions)[chat := if Succeeded(outcome) then session.(state := Completed)
                                                   else Reset(session, later.now)]
    ensures var key := WeekKey(chat, later.date);
      if Succeeded(outcome) then
        && st.usage == old(st.usage)[key := old(st.Count(key)) + 1]
        && st.usageExpiry == if old(st.Count(key)) == 0 then old(st.usageExpiry)[key := UsageExpirySeconds] else old(st.usageExpiry)
      else
        st.usage == old(st.usage) && st.usageExpiry == old(st.usageExpiry)
    ensures st.locks == old(st.locks)
    ensures photo.Some? <==> Succeeded(outcome)
    ensures photo.Some? ==>
              photo.value == if watermark.Watermarked? then Buffer(watermark.buffer) else Url(outcome.result.outputImage.value)
    ensures photo.Some? ==>
              var remaining := Remaining(st.limit, st.Count(WeekKey(chat, later.date)));
              (lowQuota.Some? <==> 0 < remaining <= 3) && (lowQuota.Some? ==> lowQuota.value == remaining)
    ensures lowQuota.Some? ==> photo.Some? && 0 < lowQuota.value <= 3
    ensures caught.Some? <==> outcome.Threw?
    ensures caught.Some? ==> caught.value == N8n.MessageOf(outcome.thrown)
  {
    photo, lowQuota, caught := None, None, None;
    match outcome
    case Returned(result) =>
      if result.success && N8n.Truthy(result.outputImage) {
        var _ := st.IncrementUsage(chat, later.date);
        var _ := st.UpdateSession(chat, NoChange.(state := Some(Completed)), later.now);
        photo := Some(match watermark
          case Watermarked(buffer) => Buffer(buffer)
          case WatermarkFailed => Url(result.outputImage.value));
        var remaining := st.GetRemainingGenerations(chat, later.date);
        if remaining <= 3 && remaining > 0 {
          lowQuota := Some(remaining);
        }
      } else {
        var _ := st.ResetSession(chat, later.now);
      }
    case Threw(thrown) =>
      caught := Some(N8n.MessageOf(thrown));
      var _ := st.ResetSession(chat, later.now);
  }

  /** The texture event ends in a delivered image. */
  predicate Completes(s: Session, over: bool, http: N8n.HttpOutcome) {
    RunsProcessor(s, over) && Succeeded(N8n.ProcessVehicleImage(http))
  }

  /**
   * `handleTextureSelection`: store the texture; in AWAITING_TEXTURE, then run
   * `startProcessing`. `later` is the clock once the processor has answered.
   */
  method HandleTextureSelection(st: Store, chat: ChatId, data: string, textures: seq<Choice>,
                                http: N8n.HttpOutcome, watermark: WatermarkOutcome, clock: Clock, later: Clock)
    returns (request: Option<N8n.Request>, photo: Option<Photo>, lowQuota: Option<nat>, caught: Option<string>)
    modifies st
    ensures var s := old(st.Current(chat, clock.now));
      st.sessions == old(st.sessions)[chat := AfterTexture(s, data, textures, old(st.Over(chat, clock.date)),
                                                           N8n.ProcessVehicleImage(http), later.now)]
    ensures var key := WeekKey(chat, later.date);
      if Completes(old(st.Current(chat, clock.now)), old(st.Over(chat, clock.date)), http) then
        && st.usage == old(st.usage)[key := old(st.Count(key)) + 1]
        && st.usageExpiry == if old(st.Count(key)) == 0 then old(st.usageExpiry)[key := UsageExpirySeconds] else old(st.usageExpiry)
      else
        st.usage == old(st.usage) && st.usageExpiry == old(st.usageExpiry)
    ensures st.locks == old(st.locks)
    ensures var s := old(st.Current(chat, clock.now));
      request.Some? <==> RunsProcessor(s, old(st.Over(chat, clock.date)))
    ensures var s := old(st.Current(chat, clock.now));
      request.Some? ==> request.value == N8n.Request(chat, s.vehicleImage, s.selectedColor, Some(TextureKey(data)))
    ensures photo.Some? <==> Completes(old(st.Current(chat, clock.now)), old(st.Over(chat, clock.date)), http)
    ensures caught.Some? <==> RunsProcessor(old(st.Current(chat, clock.now)), old(st.Over(chat, clock.date))) && http.Failed?
    ensures caught.Some? ==> caught.value == N8n.MessageOf(N8n.ClassifyError(http.error))
  {
    request, photo, lowQuota, caught := None, None, None, None;
    var session := st.GetSession(chat, clock.now);
    if session.state != AwaitingTexture {
      return;
    }
    var key := TextureKey(data);
    var display := DisplayName(textures, session.language, key);
    var _ := st.UpdateSession(chat, NoChange.(
      selectedTexture := Some(Some(key)), selectedTextureDisplay := Some(Some(display))), clock.now);
    request, photo, lowQuota, caught := StartProcessing(st, chat, http, watermark, clock, later);
  }

  /** `handleResultAction` for a button carrying `data`. No state is required. */
  method HandleResultAction(st: Store, chat: ChatId, data: string, clock: Clock)
    modifies st
    ensures st.sessions ==
              old(st.sessions)[chat := AfterResult(old(st.Current(chat, clock.now)), data, old(st.Over(chat, clock.date)), clock.now)]
    ensures st.usage == old(st.usage) && st.usageExpiry == old(st.usageExpiry) && st.locks == old(st.locks)
  {
    var session := st.GetSession(chat, clock.now);
    if data == "result_another" {
      var over := st.HasExceededLimit(chat, clock.date);
      if over {
        return;
      }
      var language := session.language;
      var _ := st.ResetSession(chat, clock.now);
      var _ := st.UpdateSession(chat, NoChange.(language := Some(language), state := Some(AwaitingVehicleImage)), clock.now);
    }
  }

  /**
   * `handleHelp`: the help text `help` in the chat's language. Looking the
   * language up goes through `getSession`, which stores a default session for
   * a chat the store has never seen.
   */
  method HandleHelp(st: Store, chat: ChatId, help: Message, clock: Clock) returns (reply: Localized)
    modifies st
    ensures reply == Localize(old(st.Current(chat, clock.now)).language, help)
    ensures st.sessions == old(st.sessions)[chat := old(st.Current(chat, clock.now))]
    ensures st.usage == old(st.usage) && st.usageExpiry == old(st.usageExpiry) && st.locks == old(st.locks)
  {
    reply := st.GetLocalizedMessage(chat, help, clock.now);
  }

  /**
   * `handleText`: never changes the session (beyond `getSession` storing a
   * default). Returns whether the reply is the "use /start" prompt, which it
   * is in IDLE or without a language.
   */
  method HandleText(st: Store, chat: ChatId, clock: Clock) returns (promptStart: bool)
    modifies st
    ensures st.sessions == old(st.sessions)[chat := old(st.Current(chat, clock.now))]
    ensures st.usage == old(st.usage) && st.usageExpiry == old(st.usageExpiry) && st.locks == old(st.locks)
    ensures promptStart <==> old(st.Current(chat, clock.now)).state == Idle || old(st.Current(chat, clock.now)).language.None?
  {
    var session := st.GetSession(chat, clock.now);
    promptStart := session.state == Idle || session.language.None?;
  }

  // ---------------------------------------------------------------
  // Properties of the flow
  // ---------------------------------------------------------------

  /**
   * The shape of a session between events: never PROCESSING, each input
   * stored together with its companion field, and exactly the inputs the
   * state has collected.
   */
  predicate Resting(s: Session) {
    && (s.vehicleImage.Some? <==> s.vehicleFileId.Some?)
    && (s.selectedColor.Some? <==> s.selectedColorDisplay.Some?)
    && (s.selectedTexture.Some? <==> s.selectedTextureDisplay.Some?)
    && match s.state
       case Idle => Blank(s)
       case AwaitingLanguage => Blank(s)
       case AwaitingVehicleImage => Blank(s)
       case AwaitingColor => s.vehicleImage.Some? && s.selectedColor.None? && s.selectedTexture.None?
       case AwaitingTexture => s.vehicleImage.Some? && s.selectedColor.Some?
       case Processing => false
       case Completed => s.vehicleImage.Some? && s.selectedColor.Some? && s.selectedTexture.Some?
  }

  /** A fresh session is resting, and every handler takes a resting session to a resting one. */
  lemma HandlersKeepSessionsResting(s: Session, now: int, data: string, fileId: string, link: string,
                                    colors: seq<Choice>, textures: seq<Choice>, over: bool, outcome: N8n.Outcome)
    requires Resting(s)
    ensures Resting(DefaultSession(now))
    ensures Resting(AfterStart(s, now))
    ensures Resting(AfterLanguage(s, data, over))
    ensures Resting(AfterPhoto(s, fileId, link, over))
    ensures Resting(AfterColor(s, data, colors))
    ensures Resting(AfterTexture(s, data, textures, over, outcome, now))
    ensures Resting(AfterResult(s, data, over, now))
  {
  }

  /** A colour chosen from the keyboard the photo handler offered stores that colour's key and the name its button showed. */
  lemma ColorFromKeyboard(s: Session, colors: seq<Choice>, i: nat)
    requires s.state == AwaitingColor && i < |colors|
    requires forall j :: 0 <= j < i ==> colors[j].key != colors[i].key
    ensures var button := Buttons(colors, LanguageOrRu(s.language), "color_")[i];
      var r := AfterColor(s, button.data, colors);
      r.selectedColor == Some(colors[i].key) && r.selectedColorDisplay == Some(button.caption)
  {
    ButtonRoundTrip(colors, LanguageOrRu(s.language), "color_", i);
    assert FirstWithKey(colors, colors[i].key, i);
  }

  /** The processor receives the texture key of the button pressed, whatever the texture's display name. */
  lemma TextureFromKeyboard(textures: seq<Choice>, lang: Lang, i: nat)
    requires i < |textures|
    ensures TextureKey(Buttons(textures, lang, "texture_")[i].data) == textures[i].key
  {
    ButtonRoundTrip(textures, lang, "texture_", i);
  }

  // ---------------------------------------------------------------
  // The missing `await`
  // ---------------------------------------------------------------

  /**
   * `handleLanguageSelection` as written: neither `getSession` nor
   * `hasExceededLimit` is awaited, so the state it compares is that of a
   * Promise.
   */
  function AfterLanguageAsWritten(s: Session, data: string, over: bool): Session {
    LanguageStep(s, Pending, Pending, data)
  }

  /** As written, a language button never changes the session: the flow cannot leave AWAITING_LANGUAGE. */
  lemma LanguageIgnoredAsWritten(s: Session, data: string, over: bool)
    ensures AfterLanguageAsWritten(s, data, over) == s
  {
  }

  /** After `/start`, pressing `lang_ru` under the limit: as written nothing happens; with the calls completed the photo is asked for. */
  lemma LanguageCounterexample(now: int)
    ensures var s := AfterStart(DefaultSession(now), now);
      && AfterLanguageAsWritten(s, "lang_ru", false).state == AwaitingLanguage
      && AfterLanguage(s, "lang_ru", false).state == AwaitingVehicleImage
  {
    LanguageButtonsParse(Ru);
    assert "lang_" + LanguageCode(Ru) == "lang_ru";
  }
}
