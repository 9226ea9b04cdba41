/**
 * The two legal-context caches (one per Gemini model): each slot holds the
 * cached-content handle, the time it was made and its time to live, and is
 * refilled when it is empty or has outlived its time to live.
 *
 * The handle Gemini returns is modelled by the name passed in as `newName`;
 * reading the context files and the Gemini call itself are not part of this model.
 * Clock readings are Unix times in seconds, as `time.time()` returns them:
 * `now` is the reading `get_cache` takes on entry, and `stampedAt` (one per
 * creation) the reading taken after the Gemini call returns.
 */
module Cache {
  import opened Wrappers

  const MODEL_FLASH := "models/gemini-2.5-flash"
  const MODEL_LITE := "models/gemini-2.5-flash-lite"
  const DISPLAY_FLASH := "ley_en_mano_flash_v1"
  const DISPLAY_LITE := "ley_en_mano_lite_v1"
  const DEFAULT_TTL := 3600

  /** A cached-content handle: its name and what it was created with. */
  datatype CachedContent = CachedContent(name: string, model: string, displayName: string, ttlSeconds: int)

  /** `cache_ref["cache"] is None or now - cache_ref["created_at"] > cache_ref["ttl"]` */
  predicate NeedsRefresh(cached: bool, createdAt: int, ttl: int, now: int) {
    !cached || now - createdAt > ttl
  }

  /** A slot is reused for exactly `ttl` seconds after it is filled: the age equal to the ttl still reuses it. */
  lemma ReusedUntilTtl(createdAt: int, ttl: int, now: int)
    ensures !NeedsRefresh(true, createdAt, ttl, now) <==> now <= createdAt + ttl
  {
  }

  /** The model a kind selects: `"lite"` picks the lite model, anything else the flash model. */
  function ModelFor(kind: string): (m: string)
    ensures m == MODEL_LITE <==> kind == "lite"
    ensures m in {MODEL_LITE, MODEL_FLASH}
  {
    if kind == "lite" then MODEL_LITE else MODEL_FLASH
  }

  /** The display name a kind selects, following the same rule as the model. */
  function DisplayFor(kind: string): (d: string)
    ensures d == DISPLAY_LITE <==> kind == "lite"
    ensures d in {DISPLAY_LITE, DISPLAY_FLASH}
  {
    if kind == "lite" then DISPLAY_LITE else DISPLAY_FLASH
  }

  /** One of the `LEGAL_CACHE_*` dictionaries. */
  class CacheSlot {
    var cache: Option<CachedContent>
    var createdAt: int
    var ttl: int

    /** The initial value in `cache_global`: empty, created at 0, an hour to live. */
    constructor ()
      ensures cache.None? && createdAt == 0 && ttl == DEFAULT_TTL
    {
      cache := None;
      createdAt := 0;
      ttl := DEFAULT_TTL;
    }
  }

  /** `LEGAL_CACHE_LITE` and `LEGAL_CACHE_FLASH`, two distinct slots. */
  class LegalCaches {
    const lite: CacheSlot
    const flash: CacheSlot

    ghost predicate Valid()
      reads this
    {
      lite != flash
    }

    constructor ()
      ensures Valid() && fresh(lite) && fresh(flash)
      ensures lite.cache.None? && lite.createdAt == 0 && lite.ttl == DEFAULT_TTL
      ensures flash.cache.None? && flash.createdAt == 0 && flash.ttl == DEFAULT_TTL
    {
      lite := new CacheSlot();
      flash := new CacheSlot();
    }

    /** The slot a kind selects: `"lite"` picks the lite slot, anything else the flash slot. */
    function SlotFor(kind: string): (s: CacheSlot)
      reads this
      ensures kind == "lite" ==> s == lite
      ensures kind != "lite" ==> s == flash
    {
      if kind == "lite" then lite else flash
    }
  }

  /**
   * `_create_cache_for`: create a handle for the model with the slot's ttl and
   * store it stamped with `stampedAt`, the clock read once the creation has
   * returned; the ttl is left as it was.
   */
  method CreateCacheFor(modelName: string, slot: CacheSlot, displayName: string, newName: string, stampedAt: int)
    returns (c: CachedContent)
    modifies slot
    ensures c == CachedContent(newName, modelName, displayName, old(slot.ttl))
    ensures slot.cache == Some(c) && slot.createdAt == stampedAt && slot.ttl == old(slot.ttl)
  {
    c := CachedContent(newName, modelName, displayName, slot.ttl);
    slot.cache := Some(c);
    slot.createdAt := stampedAt;
  }

  /**
   * `create_caches`: fill the lite slot, then the flash slot; each is stamped
   * with its own clock reading (`liteAt`, `flashAt`) taken after its creation.
   */
  method CreateCaches(caches: LegalCaches, liteName: string, flashName: string, liteAt: int, flashAt: int)
    requires caches.Valid()
    modifies caches.lite, caches.flash
    ensures caches.lite.cache == Some(CachedContent(liteName, MODEL_LITE, DISPLAY_LITE, old(caches.lite.ttl)))
    ensures caches.flash.cache == Some(CachedContent(flashName, MODEL_FLASH, DISPLAY_FLASH, old(caches.flash.ttl)))
    ensures caches.lite.createdAt == liteAt && caches.flash.createdAt == flashAt
    ensures caches.lite.ttl == old(caches.lite.ttl) && caches.flash.ttl == old(caches.flash.ttl)
  {
    var _ := CreateCacheFor(MODEL_LITE, caches.lite, DISPLAY_LITE, liteName, liteAt);
    var _ := CreateCacheFor(MODEL_FLASH, caches.flash, DISPLAY_FLASH, flashName, flashAt);
  }

  /**
   * `get_cache`: on the slot the kind selects, create a handle when the slot is
   * empty or older than its ttl at `now` (`newName` names the one Gemini would
   * return, and `stampedAt` is the clock read after that call), and otherwise
   * hand back the stored one; the other slot is untouched.
   */
  method GetCache(caches: LegalCaches, kind: string, newName: string, now: int, stampedAt: int)
    returns (c: CachedContent)
    requires caches.Valid()
    modifies caches.lite, caches.flash
    ensures var s := caches.SlotFor(kind);
      && s.ttl == old(s.ttl)
      && (NeedsRefresh(old(s.cache).Some?, old(s.createdAt), old(s.ttl), now) ==>
            c == CachedContent(newName, ModelFor(kind), DisplayFor(kind), old(s.ttl))
            && s.cache == Some(c) && s.createdAt == stampedAt)
      && (!NeedsRefresh(old(s.cache).Some?, old(s.createdAt), old(s.ttl), now) ==>
            old(s.cache) == Some(c) && s.cache == old(s.cache) && s.createdAt == old(s.createdAt))
    ensures var other := if kind == "lite" then caches.flash else caches.lite;
      other.cache == old(other.cache) && other.createdAt == old(other.createdAt) && other.ttl == old(other.ttl)
  {
    var slot := if kind == "lite" then caches.lite else caches.flash;
    var modelName := if kind == "lite" then MODEL_LITE else MODEL_FLASH;
    var display := if kind == "lite" then DISPLAY_LITE else DISPLAY_FLASH;

    if slot.cache.None? {
      c := CreateCacheFor(modelName, slot, display, newName, stampedAt);
      return;
    }
    if now - slot.createdAt > slot.ttl {
      c := CreateCacheFor(modelName, slot, display, newName, stampedAt);
      return;
    }
    c := slot.cache.value;
  }
}
