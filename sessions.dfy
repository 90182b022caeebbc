/**
 * The per-chat store of src/sessions.js: conversation sessions, the weekly
 * usage counter and the processing lock, each in its own key namespace
 * (`session:`, `usage:` and `lock:`) of one key-value service.
 *
 * The service is modelled by class `Store`, which holds one map per
 * namespace, so the namespaces cannot collide. Redis' primitives become
 * map operations: GET/SETEX read and overwrite an entry, DEL removes it,
 * INCR treats an absent counter as 0 and adds 1, and `SET ... NX` inserts
 * only when the key is absent. Wall-clock reads (`Date.now()`, `new Date()`)
 * are parameters. Session TTLs and the lock TTL are not modelled; the
 * usage expiry is recorded because the code sets it conditionally.
 *
 * The handlers call these functions without `await`; the model treats every
 * store call as completed before the next one starts (see the handlers module).
 */
module Sessions {
  import opened Wrappers

  /** Telegram's chat identifier. */
  type ChatId = int

  /**
   * The conversation states, under the names the handlers use. The constants
   * file lists a different, incomplete set; this is the set the flow needs.
   */
  datatype State =
    | Idle
    | AwaitingLanguage
    | AwaitingVehicleImage
    | AwaitingColor
    | AwaitingTexture
    | Processing
    | Completed

  /** The two interface languages, `"ru"` and `"am"`. */
  datatype Lang = Ru | Am

  /** `session.language || LANGUAGES.RU`: the session's language, Russian when none was chosen. */
  function LanguageOrRu(language: Option<Lang>): Lang {
    language.GetOr(Ru)
  }

  /** The stored session object; `None` is a field holding `null`. */
  datatype Session = Session(
    state: State,
    language: Option<Lang>,
    vehicleImage: Option<string>,
    vehicleFileId: Option<string>,
    selectedColor: Option<string>,
    selectedColorDisplay: Option<string>,
    selectedTexture: Option<string>,
    selectedTextureDisplay: Option<string>,
    createdAt: int)

  /** Every input the user supplies (photo, colour, texture) is unset. */
  predicate Blank(s: Session) {
    && s.vehicleImage.None? && s.vehicleFileId.None?
    && s.selectedColor.None? && s.selectedColorDisplay.None?
    && s.selectedTexture.None? && s.selectedTextureDisplay.None?
  }

  /** `createDefaultSession()`, with `Date.now()` passed in as `now`. */
  function DefaultSession(now: int): (s: Session)
    ensures s.state == Idle && s.language == None && Blank(s) && s.createdAt == now
  {
    Session(Idle, None, None, None, None, None, None, None, now)
  }

  /**
   * The `updates` argument of `updateSession`: `Some(v)` for a key the object
   * literal contains (with value `v`, possibly `null`), `None` for a key it
   * lacks. No caller updates `createdAt`, so a patch has no such key.
   */
  datatype Patch = Patch(
    state: Option<State>,
    language: Option<Option<Lang>>,
    vehicleImage: Option<Option<string>>,
    vehicleFileId: Option<Option<string>>,
    selectedColor: Option<Option<string>>,
    selectedColorDisplay: Option<Option<string>>,
    selectedTexture: Option<Option<string>>,
    selectedTextureDisplay: Option<Option<string>>)

  /** The empty object literal `{}`. */
  const NoChange: Patch := Patch(None, None, None, None, None, None, None, None)

  /** One key of `Object.assign`: the update's value when the key is present, the old one otherwise. */
  function Assign<T>(current: T, update: Option<T>): T {
    update.GetOr(current)
  }

  /** `Object.assign(session, updates)`. */
  function Merge(s: Session, p: Patch): (r: Session)
    ensures r.state == if p.state.Some? then p.state.value else s.state
    ensures r.language == if p.language.Some? then p.language.value else s.language
    ensures r.vehicleImage == if p.vehicleImage.Some? then p.vehicleImage.value else s.vehicleImage
    ensures r.vehicleFileId == if p.vehicleFileId.Some? then p.vehicleFileId.value else s.vehicleFileId
    ensures r.selectedColor == if p.selectedColor.Some? then p.selectedColor.value else s.selectedColor
    ensures r.selectedColorDisplay ==
              if p.selectedColorDisplay.Some? then p.selectedColorDisplay.value else s.selectedColorDisplay
    ensures r.selectedTexture == if p.selectedTexture.Some? then p.selectedTexture.value else s.selectedTexture
    ensures r.selectedTextureDisplay ==
              if p.selectedTextureDisplay.Some? then p.selectedTextureDisplay.value else s.selectedTextureDisplay
    ensures r.createdAt == s.createdAt
  {
    Session(
      Assign(s.state, p.state),
      Assign(s.language, p.language),
      Assign(s.vehicleImage, p.vehicleImage),
      Assign(s.vehicleFileId, p.vehicleFileId),
      Assign(s.selectedColor, p.selectedColor),
      Assign(s.selectedColorDisplay, p.selectedColorDisplay),
      Assign(s.selectedTexture, p.selectedTexture),
      Assign(s.selectedTextureDisplay, p.selectedTextureDisplay),
      s.createdAt)
  }

  /** Two successive `Object.assign` calls: the later patch wins on every key it holds. */
  function Then(p: Patch, q: Patch): Patch {
    Patch(
      if q.state.Some? then q.state else p.state,
      if q.language.Some? then q.language else p.language,
      if q.vehicleImage.Some? then q.vehicleImage else p.vehicleImage,
      if q.vehicleFileId.Some? then q.vehicleFileId else p.vehicleFileId,
      if q.selectedColor.Some? then q.selectedColor else p.selectedColor,
      if q.selectedColorDisplay.Some? then q.selectedColorDisplay else p.selectedColorDisplay,
      if q.selectedTexture.Some? then q.selectedTexture else p.selectedTexture,
      if q.selectedTextureDisplay.Some? then q.selectedTextureDisplay else p.selectedTextureDisplay)
  }

  /** Merging nothing changes nothing; merging the same patch twice is merging it once; and merges compose. */
  lemma MergeLaws(s: Session, p: Patch, q: Patch)
    ensures Merge(s, NoChange) == s
    ensures Merge(Merge(s, p), p) == Merge(s, p)
    ensures Merge(Merge(s, p), q) == Merge(s, Then(p, q))
  {
  }

  /**
   * The session `resetSession` writes: a default session that keeps only the
   * old language (`currentSession?.language || null`; every present language
   * is truthy, so the `|| null` only turns an absent one into `null`).
   */
  function Reset(s: Session, now: int): (r: Session)
    ensures r.state == Idle && Blank(r) && r.createdAt == now
    ensures r.language == s.language
  {
    DefaultSession(now).(language := s.language)
  }

  // ---------------------------------------------------------------
  // Weekly usage limit
  // ---------------------------------------------------------------

  /** The expiry `incrementUsage` gives a fresh bucket: 7 days, in seconds. */
  const UsageExpirySeconds: nat := 60 * 60 * 24 * 7

  /** `Date.prototype.getDay()`: 0 is Sunday. */
  type Weekday = d: nat | d < 7

  /**
   * The calendar facts `getWeekKey` derives from `new Date()`: the year, the
   * whole days elapsed since 1 January, and the weekday of 1 January.
   */
  datatype Date = Date(year: int, dayOfYear: nat, jan1Weekday: Weekday)

  /** `Math.ceil(n / 7)` for a non-negative `n`. */
  function CeilDiv7(n: nat): (r: nat)
    ensures n <= 7 * r < n + 7
  {
    (n + 6) / 7
  }

  /** The week number of `getWeekKey`: `Math.ceil((days + startOfYear.getDay() + 1) / 7)`. */
  function WeekOfYear(d: Date): (w: nat)
    ensures w >= 1
  {
    CeilDiv7(d.dayOfYear + d.jan1Weekday + 1)
  }

  /** The key `usage:<chatId>:<year>-W<week>`; its three parts are kept apart instead of printed. */
  datatype UsageKey = UsageKey(chat: ChatId, year: int, week: nat)

  /** `getWeekKey(chatId)`: a function of the chat and the date only. */
  function WeekKey(chat: ChatId, d: Date): (k: UsageKey)
    ensures k.chat == chat && k.year == d.year && k.week == WeekOfYear(d)
  {
    UsageKey(chat, d.year, WeekOfYear(d))
  }

  /** Two days of one chat share a usage bucket exactly when they fall in the same week of the same year. */
  lemma SameBucketIffSameWeek(chat: ChatId, a: Date, b: Date)
    ensures WeekKey(chat, a) == WeekKey(chat, b) <==> a.year == b.year && WeekOfYear(a) == WeekOfYear(b)
  {
  }

  /** 1 January is always in week 1, whatever its weekday. */
  lemma FirstDayIsWeekOne(d: Date)
    requires d.dayOfYear == 0
    ensures WeekOfYear(d) == 1
  {
  }

  /** Later days of the same year never fall in an earlier week. */
  lemma WeekNeverDecreases(a: Date, b: Date)
    requires a.year == b.year && a.jan1Weekday == b.jan1Weekday
    requires a.dayOfYear <= b.dayOfYear
    ensures WeekOfYear(a) <= WeekOfYear(b)
  {
  }

  /**
   * A new week begins exactly on a Sunday: the week number goes up by one
   * from one day to the next iff the later day is a Sunday (its weekday is
   * `(jan1Weekday + dayOfYear) % 7`), and stays the same otherwise.
   */
  lemma NewWeekStartsOnSunday(d: Date)
    requires d.dayOfYear >= 1
    ensures var before := d.(dayOfYear := d.dayOfYear - 1);
      WeekOfYear(d) == WeekOfYear(before) + (if (d.jan1Weekday + d.dayOfYear) % 7 == 0 then 1 else 0)
  {
    var n := d.dayOfYear + d.jan1Weekday;
    assert WeekOfYear(d) == (n + 7) / 7;
    assert WeekOfYear(d.(dayOfYear := d.dayOfYear - 1)) == (n + 6) / 7;
  }

  /** Seven days later is always exactly one week later. */
  lemma WeekAdvancesEverySevenDays(d: Date)
    ensures WeekOfYear(d.(dayOfYear := d.dayOfYear + 7)) == WeekOfYear(d) + 1
  {
  }

  /** A year of at most 366 days spans weeks 1 to 54. */
  lemma WeekWithinYear(d: Date)
    requires d.dayOfYear <= 365
    ensures 1 <= WeekOfYear(d) <= 54
  {
  }

  /** `hasExceededLimit` on a counter value: the limit is reached. */
  predicate Exceeded(limit: nat, count: nat) {
    count >= limit
  }

  /** `getRemainingGenerations` on a counter value: `Math.max(0, WEEKLY_LIMIT - count)`. */
  function Remaining(limit: nat, count: nat): (r: nat)
    ensures r <= limit
    ensures r == 0 <==> Exceeded(limit, count)
    ensures count <= limit ==> r + count == limit
  {
    if count >= limit then 0 else limit - count
  }

  // ---------------------------------------------------------------
  // Localisation
  // ---------------------------------------------------------------

  /** A message argument: a plain string, or an object with a text per language (an empty text is falsy). */
  datatype Message = Plain(text: string) | PerLanguage(entries: map<Lang, string>)

  /** What `getLocalizedMessage` returns: a text, or the message object itself when it has no usable text. */
  datatype Localized = Text(text: string) | WholeObject(message: Message)

  /** `getLocalizedMessage` once the session's language is known: `messageObj[lang] || messageObj.ru || messageObj`. */
  function Localize(language: Option<Lang>, m: Message): (r: Localized)
    ensures m.Plain? ==> r == Text(m.text)
    ensures m.PerLanguage? && r.Text? ==>
              r.text != "" && r.text in m.entries.Values
    ensures r.WholeObject? ==> r.message == m && !(Ru in m.entries && m.entries[Ru] != "")
    ensures (&& m.PerLanguage?
             && !(LanguageOrRu(language) in m.entries && m.entries[LanguageOrRu(language)] != "")
             && !(Ru in m.entries && m.entries[Ru] != ""))
            ==> r == WholeObject(m)
  {
    match m
    case Plain(t) => Text(t)
    case PerLanguage(e) =>
      var lang := LanguageOrRu(language);
      if lang in e && e[lang] != "" then Text(e[lang])
      else if Ru in e && e[Ru] != "" then Text(e[Ru])
      else WholeObject(m)
  }

  /** The fallback order: the session's language first, then Russian, then the object itself. */
  lemma LocalizeFallback(language: Option<Lang>, e: map<Lang, string>)
    ensures var lang := LanguageOrRu(language);
      lang in e && e[lang] != "" ==> Localize(language, PerLanguage(e)) == Text(e[lang])
    ensures var lang := LanguageOrRu(language);
      !(lang in e && e[lang] != "") && Ru in e && e[Ru] != "" ==> Localize(language, PerLanguage(e)) == Text(e[Ru])
    ensures var lang := LanguageOrRu(language);
      !(lang in e && e[lang] != "") && !(Ru in e && e[Ru] != "") ==> Localize(language, PerLanguage(e)) == WholeObject(PerLanguage(e))
    ensures language.None? ==> Localize(language, PerLanguage(e)) == Localize(Some(Ru), PerLanguage(e))
  {
  }

  // ---------------------------------------------------------------
  // The store
  // ---------------------------------------------------------------

  /** The key-value service, one map per key namespace. */
  class Store {
    /** WEEKLY_LIMIT: generations allowed per chat and week. */
    const limit: nat
    /** `session:<chatId>` → the stored session. */
    var sessions: map<ChatId, Session>
    /** `usage:<chatId>:<year>-W<week>` → the counter. */
    var usage: map<UsageKey, nat>
    /** The expiry (seconds) `incrementUsage` set on a usage key, when it set one. */
    var usageExpiry: map<UsageKey, nat>
    /** The chats for which `lock:<chatId>` exists. */
    var locks: set<ChatId>

    constructor (limit: nat)
      requires limit > 0
      ensures this.limit == limit
      ensures sessions == map[] && usage == map[] && usageExpiry == map[] && locks == {}
    {
      this.limit := limit;
      sessions := map[];
      usage := map[];
      usageExpiry := map[];
      locks := {};
    }

    /** The session `getSession(chat)` returns at time `now`: the stored one, or a fresh default. */
    function Current(chat: ChatId, now: int): Session
      reads this
    {
      if chat in sessions then sessions[chat] else DefaultSession(now)
    }

    /** `parseInt(await redis.get(key)) || 0`. */
    function Count(key: UsageKey): nat
      reads this
    {
      if key in usage then usage[key] else 0
    }

    /** The chat has used up this week's generations. */
    predicate Over(chat: ChatId, d: Date)
      reads this
    {
      Exceeded(limit, Count(WeekKey(chat, d)))
    }

    // --- processing lock -------------------------------------------

    /** `acquireLock`: `SET lock:<chat> 1 EX 120 NX`, which succeeds iff the key is absent. */
    method AcquireLock(chat: ChatId) returns (acquired: bool)
      modifies this
      ensures acquired <==> chat !in old(locks)
      ensures locks == old(locks) + {chat}
      ensures sessions == old(sessions) && usage == old(usage) && usageExpiry == old(usageExpiry)
    {
      acquired := chat !in locks;
      if acquired {
        locks := locks + {chat};
      }
    }

    /** `releaseLock`: `DEL lock:<chat>`, whether or not it exists. */
    method ReleaseLock(chat: ChatId)
      modifies this
      ensures locks == old(locks) - {chat}
      ensures sessions == old(sessions) && usage == old(usage) && usageExpiry == old(usageExpiry)
    {
      locks := locks - {chat};
    }

    /** `isLocked`: `EXISTS lock:<chat>`. */
    method IsLocked(chat: ChatId) returns (locked: bool)
      ensures locked <==> chat in locks
    {
      locked := chat in locks;
    }

    // --- sessions --------------------------------------------------

    /** `getSession`: the stored session, or a default one that is stored before it is returned. */
    method GetSession(chat: ChatId, now: int) returns (s: Session)
      modifies this
      ensures s == old(Current(chat, now))
      ensures chat !in old(sessions) ==> s.state == Idle && s.language == None && Blank(s)
      ensures sessions == old(sessions)[chat := s]
      ensures chat in old(sessions) ==> sessions == old(sessions)
      ensures usage == old(usage) && usageExpiry == old(usageExpiry) && locks == old(locks)
    {
      if chat in sessions {
        s := sessions[chat];
      } else {
        s := DefaultSession(now);
        sessions := sessions[chat := s];
      }
    }

    /** `updateSession`: read (creating the default if needed), merge the patch, write back and return. */
    method UpdateSession(chat: ChatId, p: Patch, now: int) returns (s: Session)
      modifies this
      ensures s == Merge(old(Current(chat, now)), p)
      ensures sessions == old(sessions)[chat := s]
      ensures usage == old(usage) && usageExpiry == old(usageExpiry) && locks == old(locks)
    {
      var current := GetSession(chat, now);
      s := Merge(current, p);
      sessions := sessions[chat := s];
    }

    /** `resetSession`: write a default session that keeps only the language. */
    method ResetSession(chat: ChatId, now: int) returns (s: Session)
      modifies this
      ensures s == Reset(old(Current(chat, now)), now)
      ensures sessions == old(sessions)[chat := s]
      ensures usage == old(usage) && usageExpiry == old(usageExpiry) && locks == old(locks)
    {
      var current := GetSession(chat, now);
      s := Reset(current, now);
      sessions := sessions[chat := s];
    }

    /** `deleteSession`: `DEL session:<chat>`. */
    method DeleteSession(chat: ChatId)
      modifies this
      ensures sessions == old(sessions) - {chat}
      ensures usage == old(usage) && usageExpiry == old(usageExpiry) && locks == old(locks)
    {
      sessions := sessions - {chat};
    }

    // --- weekly usage ----------------------------------------------

    /** `hasExceededLimit`. */
    method HasExceededLimit(chat: ChatId, d: Date) returns (over: bool)
      ensures over <==> Count(WeekKey(chat, d)) >= limit
    {
      var key := WeekKey(chat, d);
      over := (if key in usage then usage[key] else 0) >= limit;
    }

    /** `getRemainingGenerations`. */
    method GetRemainingGenerations(chat: ChatId, d: Date) returns (remaining: nat)
      ensures remaining <= limit
      ensures remaining == 0 <==> Over(chat, d)
      ensures !Over(chat, d) ==> remaining + Count(WeekKey(chat, d)) == limit
    {
      var key := WeekKey(chat, d);
      var count := if key in usage then usage[key] else 0;
      remaining := if limit - count > 0 then limit - count else 0;
    }

    /** `getUsageCount`: an absent counter reads as 0. */
    method GetUsageCount(chat: ChatId, d: Date) returns (count: nat)
      ensures WeekKey(chat, d) !in usage ==> count == 0
      ensures WeekKey(chat, d) in usage ==> count == usage[WeekKey(chat, d)]
    {
      var key := WeekKey(chat, d);
      count := if key in usage then usage[key] else 0;
    }

    /**
     * `incrementUsage`: INCR the week's counter (absent counts as 0) and return
     * the new value; only the increment that creates the counter (new value 1)
     * sets its 7-day expiry.
     */
    method IncrementUsage(chat: ChatId, d: Date) returns (newCount: nat)
      modifies this
      ensures newCount == old(Count(WeekKey(chat, d))) + 1
      ensures usage == old(usage)[WeekKey(chat, d) := newCount]
      ensures Count(WeekKey(chat, d)) == newCount
      ensures usageExpiry ==
                if newCount == 1 then old(usageExpiry)[WeekKey(chat, d) := UsageExpirySeconds]
                else old(usageExpiry)
      ensures sessions == old(sessions) && locks == old(locks)
    {
      var key := WeekKey(chat, d);
      newCount := (if key in usage then usage[key] else 0) + 1;
      usage := usage[key := newCount];
      if newCount == 1 {
        usageExpiry := usageExpiry[key := UsageExpirySeconds];
      }
    }

    // --- localisation ----------------------------------------------

    /** `getLocalizedMessage`: reads the session (creating the default if needed) and localises `m`. */
    method GetLocalizedMessage(chat: ChatId, m: Message, now: int) returns (r: Localized)
      modifies this
      ensures r == Localize(old(Current(chat, now)).language, m)
      ensures sessions == old(sessions)[chat := old(Current(chat, now))]
      ensures usage == old(usage) && usageExpiry == old(usageExpiry) && locks == old(locks)
    {
      var s := GetSession(chat, now);
      r := Localize(s.language, m);
    }
  }

  /**
   * The lock protocol on a chat with no lock: the first acquire wins, a second
   * one fails while the first is held, and after a release acquiring works again.
   */
  method LockRoundTrip(st: Store, chat: ChatId) returns (first: bool, second: bool, locked: bool, third: bool)
    requires chat !in st.locks
    modifies st
    ensures first && locked && !second && third
    ensures st.locks == old(st.locks) + {chat}
  {
    first := st.AcquireLock(chat);
    locked := st.IsLocked(chat);
    second := st.AcquireLock(chat);
    st.ReleaseLock(chat);
    third := st.AcquireLock(chat);
  }
}
