/**
 * Whole conversations run through the handlers, from a chat the store has
 * never seen: what a caller can conclude from the handlers' contracts alone.
 */
module Scenarios {
  import opened Wrappers
  import opened Sessions
  import opened Handlers
  import N8n

  /** A limit of 10 generations per week; the launch log calls it a daily limit, but the counter is bucketed by week. */
  const WeeklyLimit: nat := 10

  /**
   * /start, Russian, a photo and the first colour on a new store: the chat
   * waits for a texture with its choices stored and nothing counted yet.
   */
  method ChooseUpToTexture(chat: ChatId, clock: Clock, colors: seq<Choice>, textures: seq<Choice>)
    returns (st: Store)
    requires |colors| > 0
    ensures fresh(st)
    ensures st.limit == WeeklyLimit && chat in st.sessions
    ensures st.sessions[chat].state == AwaitingTexture && st.sessions[chat].language == Some(Ru)
    ensures st.sessions[chat].vehicleImage.Some? && st.sessions[chat].selectedColor == Some(colors[0].key)
    ensures st.Count(WeekKey(chat, clock.date)) == 0 && WeekKey(chat, clock.date) !in st.usageExpiry
    ensures chat !in st.locks
  {
    st := new Store(WeeklyLimit);
    HandleStart(st, chat, clock);
    LanguageButtonsParse(Ru);
    assert "lang_" + LanguageCode(Ru) == "lang_ru";
    HandleLanguageSelection(st, chat, "lang_ru", clock);
    assert st.sessions[chat].state == AwaitingVehicleImage;
    var keyboard := HandlePhoto(st, chat, ["photo-small", "photo-large"], "https://files/photo-large.jpg", colors, clock);
    assert st.sessions[chat].state == AwaitingColor;
    var colorButton := Buttons(colors, Ru, "color_")[0];
    ButtonRoundTrip(colors, Ru, "color_", 0);
    keyboard := HandleColorSelection(st, chat, colorButton.data, colors, textures, clock);
  }

  /**
   * The whole round with a processor that delivers an image: one generation
   * is counted in this week's bucket (which gets its 7-day expiry), the
   * session ends COMPLETED with every choice stored, and no processing lock
   * is left behind.
   */
  method DeliveredRound(chat: ChatId, clock: Clock, colors: seq<Choice>, textures: seq<Choice>, image: string)
    returns (st: Store)
    requires |colors| > 0 && |textures| > 0 && image != ""
    ensures chat in st.sessions
    ensures st.sessions[chat].state == Completed && st.sessions[chat].language == Some(Ru)
    ensures st.sessions[chat].selectedColor == Some(colors[0].key)
    ensures st.sessions[chat].selectedTexture == Some(textures[0].key)
    ensures st.Count(WeekKey(chat, clock.date)) == 1
    ensures WeekKey(chat, clock.date) in st.usageExpiry
    ensures chat !in st.locks
  {
    st := ChooseUpToTexture(chat, clock, colors, textures);
    var textureButton := Buttons(textures, Ru, "texture_")[0];
    TextureFromKeyboard(textures, Ru, 0);
    var reply := N8n.Responded(Some(N8n.Payload(true, Some(image), None, None)));
    var request, photo, lowQuota, caught :=
      HandleTextureSelection(st, chat, textureButton.data, textures, reply, WatermarkFailed, clock, clock);
  }

  /**
   * The same round with a processor that times out: nothing is counted, the
   * session is back in IDLE with the language kept and nothing else, the
   * user is shown the timeout message, and no lock is left behind.
   */
  method TimedOutRound(chat: ChatId, clock: Clock, colors: seq<Choice>, textures: seq<Choice>)
    returns (st: Store, shown: Option<string>)
    requires |colors| > 0 && |textures| > 0
    ensures chat in st.sessions
    ensures st.sessions[chat].state == Idle && st.sessions[chat].language == Some(Ru) && Blank(st.sessions[chat])
    ensures st.Count(WeekKey(chat, clock.date)) == 0
    ensures shown == Some(N8n.TimeoutMessage)
    ensures chat !in st.locks
  {
    st := ChooseUpToTexture(chat, clock, colors, textures);
    var timeout := N8n.Failed(N8n.HttpError(Some(N8n.TimeoutCode), None, "timeout of 180000ms exceeded"));
    var request, photo, lowQuota;
    request, photo, lowQuota, shown :=
      HandleTextureSelection(st, chat, Buttons(textures, Ru, "texture_")[0].data, textures, timeout, WatermarkFailed, clock, clock);
  }
}
