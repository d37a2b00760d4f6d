/** The dispatcher's response cache, on values: its key, its time-to-live table, and what a run of
    interleaved lookups and stores by any number of threads leaves in it. */
module ToolCache {
  import opened Json
  import opened JsonReader
  import opened CanonicalJson
  import opened Text

  const FARMER_SERVER := "farmer-bnpl-mcp"

  const FARMER_TTL_SECONDS: map<string, real> := map[
    "get_required_documents" := 300.0,
    "get_farmer_profile" := 300.0,
    "get_user_credit_limit" := 15.0,
    "get_repayment_schedule" := 30.0,
    "get_interest_due" := 30.0,
    "get_overdue_status" := 30.0,
    "get_latest_order_delivery_status" := 30.0,
    "search_products" := 60.0,
    "search_lowest_price_fertilizer" := 60.0
  ]

  function KeyText(server: string, tool: string, text: string): string { server + ":" + tool + ":" + text }

  function CacheKey(server: string, tool: string, payload: Json): string {
    KeyText(server, tool, Dump(Canon(payload), COMPACT))
  }

  lemma KeyTextSplits(server: string, tool: string, text: string, server': string, tool': string, text': string)
    requires NoColon(server) && NoColon(tool) && NoColon(server') && NoColon(tool')
    ensures KeyText(server, tool, text) == KeyText(server', tool', text')
      <==> server == server' && tool == tool' && text == text'
  {
    assert KeyText(server, tool, text) == server + ":" + (tool + ":" + text);
    assert KeyText(server', tool', text') == server' + ":" + (tool' + ":" + text');
    if KeyText(server, tool, text) == KeyText(server', tool', text') {
      SplitAtColon(server, tool + ":" + text, server', tool' + ":" + text');
      SplitAtColon(tool, text, tool', text');
    }
  }

  /** Two calls share a cache key exactly when they name the same tool of the same server and carry
      payloads equal up to the order of object keys. */
  lemma CacheKeyIsExact(server: string, tool: string, p: Json, server': string, tool': string, p': Json)
    requires NoColon(server) && NoColon(tool) && NoColon(server') && NoColon(tool')
    requires WellFormed(p) && WellFormed(p')
    ensures CacheKey(server, tool, p) == CacheKey(server', tool', p')
      <==> server == server' && tool == tool' && Same(p, p')
  {
    KeyTextSplits(server, tool, Dump(Canon(p), COMPACT), server', tool', Dump(Canon(p'), COMPACT));
    DumpIsInjective(Canon(p), Canon(p'));
    CanonicalTextIffSame(p, p');
  }

  lemma CachedNamesHaveNoColon()
    ensures NoColon(FARMER_SERVER)
    ensures forall tool :: tool in FARMER_TTL_SECONDS ==> NoColon(tool)
  {
  }

  // ---------- The cache over a run ----------

  datatype Entry = Entry(expiresAt: real, value: Json)
  type Cache = map<string, Entry>
  datatype Lookup = Miss | Hit(value: Json)

  /** One locked section: a lookup that read the clock at `now` before taking the lock, or the store
      of an operation's response at `now` under the tool's time-to-live. */
  datatype Event =
    | Looked(key: string, now: real)
    | Stored(tool: string, payload: Json, value: Json, now: real, ttl: real)

  function EventKey(e: Event): string {
    match e
    case Looked(key, _) => key
    case Stored(tool, payload, _, _, _) => CacheKey(FARMER_SERVER, tool, payload)
  }

  function Lookups(c: Cache, key: string, now: real): Lookup {
    if key in c && now < c[key].expiresAt then Hit(c[key].value) else Miss
  }

  function Apply(c: Cache, e: Event): Cache {
    match e
    case Looked(key, now) => if key in c && c[key].expiresAt <= now then c - {key} else c
    case Stored(_, _, value, now, ttl) => c[EventKey(e) := Entry(now + ttl, value)]
  }

  function Run(events: seq<Event>): Cache {
    if events == [] then map[]
    else Apply(Run(events[..|events| - 1]), events[|events| - 1])
  }

  lemma RunOfMore(events: seq<Event>, e: Event)
    ensures Run(events + [e]) == Apply(Run(events), e)
  {
    assert (events + [e])[..|events|] == events;
  }

  /** A store under `key` is one more entry. */
  lemma RunOfStore(events: seq<Event>, key: string, tool: string, payload: Json, value: Json, now: real, ttl: real)
    requires key == CacheKey(FARMER_SERVER, tool, payload)
    ensures Run(events + [Stored(tool, payload, value, now, ttl)]) == Run(events)[key := Entry(now + ttl, value)]
  {
    RunOfMore(events, Stored(tool, payload, value, now, ttl));
  }

  /** Index of the most recent store under `key`, or -1. */
  function LastStore(events: seq<Event>, key: string): (i: int)
    ensures -1 <= i < |events|
    ensures i >= 0 ==> events[i].Stored? && EventKey(events[i]) == key
    ensures forall j :: i < j < |events| && events[j].Stored? ==> EventKey(events[j]) != key
  {
    if events == [] then -1
    else
      var last, init := events[|events| - 1], events[..|events| - 1];
      assert forall j :: 0 <= j < |init| ==> init[j] == events[j];
      if last.Stored? && EventKey(last) == key then |events| - 1 else LastStore(init, key)
  }

  /** The cache as the history alone defines it: the last response stored under the key, while its
      time-to-live lasts. */
  function Fresh(events: seq<Event>, key: string, now: real): Lookup {
    var i := LastStore(events, key);
    if i >= 0 && now < events[i].now + events[i].ttl then Hit(events[i].value) else Miss
  }

  lemma {:induction false} EntryIsLastStore(events: seq<Event>, key: string)
    requires key in Run(events)
    ensures var i := LastStore(events, key);
      i >= 0 && Run(events)[key] == Entry(events[i].now + events[i].ttl, events[i].value)
  {
    var init, last := events[..|events| - 1], events[|events| - 1];
    if !(last.Stored? && EventKey(last) == key) { EntryIsLastStore(init, key); }
  }

  /** A lookup of this key whose clock reading found an entry with this expiry stale. */
  predicate Evicts(e: Event, key: string, expiresAt: real) {
    e.Looked? && e.key == key && expiresAt <= e.now
  }

  function Expiry(e: Event): real
    requires e.Stored?
  {
    e.now + e.ttl
  }

  /** Since the last store under `key`, some lookup of that key found its entry stale. */
  ghost predicate EvictedSince(events: seq<Event>, key: string) {
    var i := LastStore(events, key);
    i >= 0 && exists j :: i < j < |events| && Evicts(events[j], key, Expiry(events[i]))
  }

  lemma EvictedInLonger(events: seq<Event>, e: Event, key: string)
    requires !(e.Stored? && EventKey(e) == key)
    ensures var i := LastStore(events, key);
      && LastStore(events + [e], key) == i
      && (EvictedSince(events + [e], key) <==>
          EvictedSince(events, key) || (i >= 0 && Evicts(e, key, Expiry(events[i]))))
  {
    var all, i := events + [e], LastStore(events, key);
    assert all[..|events|] == events && all[|events|] == e;
    assert forall j :: 0 <= j < |events| ==> all[j] == events[j];
    if EvictedSince(events, key) {
      var j :| i < j < |events| && Evicts(events[j], key, Expiry(events[i]));
      assert Evicts(all[j], key, Expiry(all[i]));
    }
    if i >= 0 && Evicts(e, key, Expiry(events[i])) {
      assert Evicts(all[|events|], key, Expiry(all[i]));
    }
  }

  /** What is in the cache: what was stored and not evicted since. */
  lemma {:induction false} PresentIff(events: seq<Event>, key: string)
    ensures key in Run(events) <==> LastStore(events, key) >= 0 && !EvictedSince(events, key)
  {
    if events != [] {
      var init, last := events[..|events| - 1], events[|events| - 1];
      assert events == init + [last];
      if !(last.Stored? && EventKey(last) == key) {
        PresentIff(init, key);
        EvictedInLonger(init, last, key);
        if key in Run(init) { EntryIsLastStore(init, key); }
      }
    }
  }

  /** Over every interleaving: a hit is the last stored response, still inside its time-to-live. */
  lemma {:induction false} HitIsFresh(events: seq<Event>, key: string, now: real)
    ensures Lookups(Run(events), key, now).Hit? ==> Lookups(Run(events), key, now) == Fresh(events, key, now)
  {
    if key in Run(events) { EntryIsLastStore(events, key); }
  }

  /** Exactly when the cache answers as the history defines: unless a lookup since the last store read
      a clock past the entry's expiry although this one's reading is not. */
  lemma {:induction false} CacheAgreesIff(events: seq<Event>, key: string, now: real)
    ensures Lookups(Run(events), key, now) == Fresh(events, key, now)
      <==> !(Fresh(events, key, now).Hit? && EvictedSince(events, key))
  {
    PresentIff(events, key);
    if key in Run(events) { EntryIsLastStore(events, key); }
  }

  /** So it does whenever no earlier lookup of the key read a later clock. */
  lemma {:induction false} CacheIsItsHistory(events: seq<Event>, key: string, now: real)
    requires forall e :: e in events && e.Looked? && e.key == key ==> e.now <= now
    ensures Lookups(Run(events), key, now) == Fresh(events, key, now)
  {
    CacheAgreesIff(events, key, now);
    if EvictedSince(events, key) {
      var i := LastStore(events, key);
      var j :| i < j < |events| && Evicts(events[j], key, Expiry(events[i]));
      assert events[j] in events;
    }
  }

  /** After any run, one lookup with a late clock evicts an entry that a slower thread, holding an
      earlier reading, would still have been served. */
  lemma {:induction false} LateLookupCanEvict(events: seq<Event>, key: string, now: real, late: real)
    requires Fresh(events, key, now).Hit? && Expiry(events[LastStore(events, key)]) <= late
    ensures var more := events + [Looked(key, late)];
      Fresh(more, key, now) == Fresh(events, key, now) && Lookups(Run(more), key, now) == Miss
  {
    var more := events + [Looked(key, late)];
    EvictedInLonger(events, Looked(key, late), key);
    CacheAgreesIff(more, key, now);
    HitIsFresh(more, key, now);
    assert more[LastStore(events, key)] == events[LastStore(events, key)];
  }
}
