/** The per-user concurrency counters: one Redis key per user, with a count and an expiry time.
    Acquire and release are the two atomic Lua scripts. */
module Slots {

  const ACTIVE_TTL_SECONDS: int := 7200
  const HEARTBEAT_SECONDS: int := 120

  datatype Slot = Slot(count: nat, expires: int)

  type Slots = map<int, Slot>

  /** tonumber(GET key or '0'). */
  function Count(slots: Slots, u: int): nat
  {
    if u in slots then slots[u].count else 0
  }

  function Acquire(slots: Slots, u: int, limit: nat, now: int): (r: (Slots, bool))
    ensures r.1 <==> Count(slots, u) < limit
    ensures r.1 ==> Count(r.0, u) == Count(slots, u) + 1 && r.0[u].expires == now + ACTIVE_TTL_SECONDS
    ensures !r.1 ==> r.0 == slots
    ensures r.0 - {u} == slots - {u}
  {
    if Count(slots, u) >= limit then (slots, false)
    else (slots[u := Slot(Count(slots, u) + 1, now + ACTIVE_TTL_SECONDS)], true)
  }

  function Release(slots: Slots, u: int): (r: Slots)
    ensures Count(r, u) == if Count(slots, u) == 0 then 0 else Count(slots, u) - 1
    ensures u in r ==> u in slots && r[u].expires == slots[u].expires && r[u].count >= 1
    ensures r - {u} == slots - {u}
  {
    if Count(slots, u) <= 1 then slots - {u}
    else slots[u := slots[u].(count := slots[u].count - 1)]
  }

  /** EXPIRE on an existing key; nothing otherwise. */
  function Renew(slots: Slots, u: int, now: int): (r: Slots)
    ensures forall v :: Count(r, v) == Count(slots, v)
    ensures r.Keys == slots.Keys
  {
    if u in slots then slots[u := slots[u].(expires := now + ACTIVE_TTL_SECONDS)] else slots
  }

  /** The keys that Redis still has at time `now`. */
  function Unexpired(slots: Slots, now: int): Slots
  {
    map u | u in slots && slots[u].expires > now :: slots[u]
  }
}
