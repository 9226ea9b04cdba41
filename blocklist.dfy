/**
 * The per-(IP, API key) throttle: each identity has a record with a window
 * start, a request count and, once it exceeds the limit, a block deadline.
 *
 * Times are whole seconds of Unix time (`time.time()` without its fraction);
 * SHA-256 is the parameter `sha`.
 */
module Blocklist {
  import opened Wrappers

  const MAX_REQUESTS := 2
  const WINDOW_SECONDS := 120
  const BLOCK_TIME := 300
  const KEY_HASH_LENGTH: nat := 12

  /** A value of the `blocks` dictionary; `blocked_until` is absent until the identity is blocked. */
  datatype BlockRecord = BlockRecord(count: int, start: int, blockedUntil: Option<int>)

  /** `_hash_key`: the first 12 characters of the hex digest of the key. */
  function KeyHash(sha: string -> string, apiKey: string): (h: string)
    ensures h <= sha(apiKey)
    ensures |sha(apiKey)| >= KEY_HASH_LENGTH ==> |h| == KEY_HASH_LENGTH
  {
    var d := sha(apiKey);
    if |d| <= KEY_HASH_LENGTH then d else d[..KEY_HASH_LENGTH]
  }

  /** `f"{ip}::{key_hash}"` */
  function Identity(ip: string, keyHash: string): (id: string)
    ensures |id| == |ip| + 2 + |keyHash|
    ensures id[..|ip|] == ip && id[|id| - |keyHash|..] == keyHash
  {
    ip + "::" + keyHash
  }

  /** With fixed-length key hashes, an identity names exactly one (IP, key hash) pair. */
  lemma IdentityInjective(ip1: string, h1: string, ip2: string, h2: string)
    requires |h1| == |h2|
    requires Identity(ip1, h1) == Identity(ip2, h2)
    ensures ip1 == ip2 && h1 == h2
  {
    var id := Identity(ip1, h1);
    assert |ip1| == |ip2|;
    assert ip1 == id[..|ip1|] == ip2;
    assert h1 == id[|id| - |h1|..] == h2;
  }

  /** The answer of `check_ip_key` and the record it leaves under the identity. */
  datatype Decision = Decision(allowed: bool, wait: int, record: BlockRecord)

  /**
   * One call of `check_ip_key` on the identity's record at time `now`:
   * refused with the remaining block time while blocked, a fresh window when
   * there is no record or the window is older than 120 seconds, and otherwise
   * one more request in the window, refused and blocked for 300 seconds when
   * it goes over 2.
   */
  function Step(rec: Option<BlockRecord>, now: int): (d: Decision)
    ensures rec.Some? && rec.value.blockedUntil.GetOr(0) > now ==>
      !d.allowed && d.wait == rec.value.blockedUntil.GetOr(0) - now > 0 && d.record == rec.value
    ensures !(rec.Some? && rec.value.blockedUntil.GetOr(0) > now) && (rec.None? || now - rec.value.start > WINDOW_SECONDS) ==>
      d.allowed && d.wait == 0 && d.record == BlockRecord(1, now, None)
    ensures !(rec.Some? && rec.value.blockedUntil.GetOr(0) > now) && rec.Some? && now - rec.value.start <= WINDOW_SECONDS ==>
      var counted := rec.value.count + 1;
      && (d.allowed <==> counted <= MAX_REQUESTS)
      && (!d.allowed ==> d.wait == BLOCK_TIME)
      && d.record == rec.value.(count := counted,
                                blockedUntil := if counted > MAX_REQUESTS then Some(now + BLOCK_TIME) else rec.value.blockedUntil)
    ensures d.allowed ==> d.wait == 0 && d.record.count <= MAX_REQUESTS
    ensures !d.allowed ==> d.wait > 0
    ensures d.record.start == now || (rec.Some? && d.record.start == rec.value.start)
  {
    if rec.Some? && rec.value.blockedUntil.GetOr(0) > now then
      Decision(false, rec.value.blockedUntil.GetOr(0) - now, rec.value)
    else if rec.None? || now - rec.value.start > WINDOW_SECONDS then
      Decision(true, 0, BlockRecord(1, now, None))
    else
      var r := rec.value.(count := rec.value.count + 1);
      if r.count > MAX_REQUESTS then Decision(false, BLOCK_TIME, r.(blockedUntil := Some(now + BLOCK_TIME)))
      else Decision(true, 0, r)
  }

  /** The calls at times `ts` on one identity: the final record and how many were allowed. */
  function Run(rec: Option<BlockRecord>, ts: seq<int>): (result: (Option<BlockRecord>, nat))
    ensures result.1 <= |ts|
    ensures |ts| > 0 ==> result.0.Some?
    decreases |ts|
  {
    if |ts| == 0 then (rec, 0)
    else
      var d := Step(rec, ts[0]);
      var rest := Run(Some(d.record), ts[1..]);
      (rest.0, rest.1 + (if d.allowed then 1 else 0))
  }

  /**
   * Inside the window of a record, at most `MAX_REQUESTS - count` more calls
   * are allowed, whatever the record's block state.
   */
  lemma {:induction false} WindowAllowsAtMostRemaining(rec: BlockRecord, ts: seq<int>)
    requires forall i :: 0 <= i < |ts| ==> rec.start <= ts[i] <= rec.start + WINDOW_SECONDS
    ensures Run(Some(rec), ts).1 <= if rec.count < MAX_REQUESTS then MAX_REQUESTS - rec.count else 0
    decreases |ts|
  {
    if |ts| > 0 {
      var d := Step(Some(rec), ts[0]);
      assert d.record.start == rec.start;
      assert d.record.count >= rec.count;
      assert d.allowed ==> d.record.count == rec.count + 1;
      WindowAllowsAtMostRemaining(d.record, ts[1..]);
    }
  }

  /**
   * Within one window, counted from the call that opened it, at most
   * `MAX_REQUESTS` calls of an identity are allowed.
   */
  lemma AtMostMaxRequestsPerWindow(ts: seq<int>)
    requires |ts| > 0
    requires forall i :: 0 <= i < |ts| ==> ts[0] <= ts[i] <= ts[0] + WINDOW_SECONDS
    ensures Run(None, ts).1 <= MAX_REQUESTS
  {
    var d := Step(None, ts[0]);
    WindowAllowsAtMostRemaining(d.record, ts[1..]);
  }

  /**
   * What every record written by `check_ip_key` satisfies when the clock
   * never goes backwards: it started no later than the last call, and a
   * blocked record has a deadline at least `BLOCK_TIME` after its window start.
   */
  predicate Consistent(rec: BlockRecord, last: int) {
    && rec.start <= last
    && (rec.blockedUntil.Some? ==> rec.blockedUntil.value >= rec.start + BLOCK_TIME)
  }

  /** A call at a later time keeps the record consistent. */
  lemma StepKeepsConsistent(rec: Option<BlockRecord>, last: int, now: int)
    requires rec.Some? ==> Consistent(rec.value, last)
    requires last <= now
    ensures Consistent(Step(rec, now).record, now)
  {
  }

  /**
   * Once a block has run out its window has run out too (300 > 120): the next
   * call opens a fresh window and is allowed.
   */
  lemma ExpiredBlockOpensWindow(rec: BlockRecord, last: int, now: int)
    requires Consistent(rec, last) && last <= now
    requires rec.blockedUntil.Some? && rec.blockedUntil.value <= now
    ensures Step(Some(rec), now) == Decision(true, 0, BlockRecord(1, now, None))
  {
  }

  /**
   * The call that goes over the limit inside a window is refused with a wait of
   * 300 seconds, and every later call before that deadline is refused with the
   * time still left.
   */
  lemma OverLimitBlocksForBlockTime(rec: BlockRecord, now: int, later: int)
    requires rec.blockedUntil.GetOr(0) <= now
    requires now - rec.start <= WINDOW_SECONDS && rec.count >= MAX_REQUESTS
    requires now <= later < now + BLOCK_TIME
    ensures var d := Step(Some(rec), now);
      && !d.allowed && d.wait == BLOCK_TIME
      && d.record.blockedUntil == Some(now + BLOCK_TIME)
      && Step(Some(d.record), later) == Decision(false, now + BLOCK_TIME - later, d.record)
  {
  }

  /** The `blocks` dictionary kept by the throttle. */
  class Throttle {
    var blocks: map<string, BlockRecord>

    constructor ()
      ensures blocks == map[]
    {
      blocks := map[];
    }

    /**
     * `check_ip_key`: decide on the identity `ip::hash(key)` as `Step` does and
     * store the record it leaves; no other identity is touched.
     */
    method CheckIpKey(ip: string, apiKey: string, sha: string -> string, now: int)
      returns (allowed: bool, wait: int)
      modifies this
      ensures var id := Identity(ip, KeyHash(sha, apiKey));
        var d := Step(if id in old(blocks) then Some(old(blocks)[id]) else None, now);
        && allowed == d.allowed && wait == d.wait
        && blocks == old(blocks)[id := d.record]
      ensures forall k :: k in old(blocks) && k != Identity(ip, KeyHash(sha, apiKey)) ==> k in blocks && blocks[k] == old(blocks)[k]
    {
      var keyHash := KeyHash(sha, apiKey);
      var identity := Identity(ip, keyHash);
      var record: Option<BlockRecord> := if identity in blocks then Some(blocks[identity]) else None;

      if record.Some? && record.value.blockedUntil.GetOr(0) > now {
        return false, record.value.blockedUntil.GetOr(0) - now;
      }

      if record.None? || now - record.value.start > WINDOW_SECONDS {
        blocks := blocks[identity := BlockRecord(1, now, None)];
        return true, 0;
      }

      var r := record.value;
      r := r.(count := r.count + 1);
      if r.count > MAX_REQUESTS {
        r := r.(blockedUntil := Some(now + BLOCK_TIME));
        blocks := blocks[identity := r];
        return false, BLOCK_TIME;
      }
      blocks := blocks[identity := r];
      return true, 0;
    }
  }
}
