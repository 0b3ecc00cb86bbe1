/** The per-location stream registry: one server-sent-event source per
    location id, kept in a dictionary from the id's string form to the source
    (or to `null` when creating it threw), reconciled against the current id
    list and closed on cleanup. */
module UbicacionStreams {
  import opened Wrappers
  import opened Text

  /** A location id as callers pass it: a number or a string. */
  datatype UbicacionId = NumId(n: int) | StrId(s: string)

  /** `String(u)`. */
  function Key(u: UbicacionId): (k: string)
    ensures u.StrId? ==> k == u.s
    ensures u.NumId? ==> ParseInt(k) == Some(u.n)
  {
    match u
    case NumId(n) => IntToStringRoundTrip(n); IntToString(n)
    case StrId(s) => s
  }

  /** `new Set(ubicacionIds.map(String))`. */
  function KeySet(ids: seq<UbicacionId>): set<string> {
    set u | u in ids :: Key(u)
  }

  /** The number 1 and the string "1" name the same stream. */
  lemma NumberAndStringShareKey()
    ensures KeySet([NumId(1), StrId("1")]) == {"1"}
  {
    assert Key(NumId(1)) == "1";
  }

  /** The stream URL of location `id`, with the token appended as a query
      parameter when one is given (EventSource cannot send headers).
      `encode` stands for `encodeURIComponent`. */
  function StreamUrl(baseUrl: string, id: string, token: Option<string>, encode: string -> string): (url: string)
    ensures StartsWith(url, baseUrl + "/ubicacion/" + id + "/stream")
    ensures !Truthy(token) ==> url == baseUrl + "/ubicacion/" + id + "/stream"
    ensures Truthy(token) ==>
      var plain := baseUrl + "/ubicacion/" + id + "/stream";
      url == plain + (if '?' in plain then "&" else "?") + "token=" + encode(token.value)
  {
    var url := baseUrl + "/ubicacion/" + id + "/stream";
    if Truthy(token) then
      var sep := if '?' in url then "&" else "?";
      assert (url + sep + "token=" + encode(token.value))[..|url|] == url;
      url + sep + "token=" + encode(token.value)
    else url
  }

  /** An EventSource, identified by its allocation number. */
  type Handle = nat

  /** The JSON payload of a message after parsing, or its raw text. */
  datatype Payload<J> = Parsed(value: J) | RawText(text: string)

  /** One call of the `onMessage` callback. */
  datatype Delivery<J> = Delivery(id: string, payload: Payload<J>)

  /** `es.onmessage` as written: the `try` covers both `JSON.parse` and the
      call of `onMessage`, so a callback that throws on the parsed payload is
      called a second time with the raw text. `parsed` is the outcome of
      `JSON.parse`; `callbackThrows` says whether `onMessage` throws on it. */
  function DeliveriesAsWritten<J>(id: string, text: string, parsed: Option<J>, callbackThrows: bool): (ds: seq<Delivery<J>>)
    ensures parsed.None? ==> ds == [Delivery(id, RawText(text))]
    ensures parsed.Some? && !callbackThrows ==> ds == [Delivery(id, Parsed(parsed.value))]
    ensures parsed.Some? && callbackThrows ==>
      ds == [Delivery(id, Parsed(parsed.value)), Delivery(id, RawText(text))]
  {
    match parsed
    case None => [Delivery(id, RawText(text))]
    case Some(data) =>
      if callbackThrows then [Delivery(id, Parsed(data)), Delivery(id, RawText(text))]
      else [Delivery(id, Parsed(data))]
  }

  /** A throwing callback sees the same message twice. */
  lemma ThrowingCallbackCalledTwice<J>(id: string, text: string, data: J)
    ensures |DeliveriesAsWritten(id, text, Some(data), true)| == 2
    ensures DeliveriesAsWritten(id, text, Some(data), true)[0].payload == Parsed(data)
    ensures DeliveriesAsWritten(id, text, Some(data), true)[1].payload == RawText(text)
  {
  }

  /** The intended behaviour: the raw-text fallback covers only a failed
      parse, so every message reaches the callback exactly once, with its
      stream's id and the parsed value, or the raw text when parsing fails. */
  function Deliveries<J>(id: string, text: string, parsed: Option<J>): (ds: seq<Delivery<J>>)
    ensures |ds| == 1 && ds[0].id == id
    ensures parsed.Some? <==> ds[0].payload.Parsed?
    ensures parsed.Some? ==> ds[0].payload.value == parsed.value
    ensures parsed.None? ==> ds[0].payload == RawText(text)
  {
    match parsed
    case None => [Delivery(id, RawText(text))]
    case Some(data) => [Delivery(id, Parsed(data))]
  }

  /** The two agree whenever the callback returns normally. */
  lemma DeliveriesAgreeWithoutThrow<J>(id: string, text: string, parsed: Option<J>)
    ensures DeliveriesAsWritten(id, text, parsed, false) == Deliveries(id, text, parsed)
  {
  }

  lemma KeySetSnoc(ids: seq<UbicacionId>, i: nat)
    requires i < |ids|
    ensures KeySet(ids[..i + 1]) == KeySet(ids[..i]) + {Key(ids[i])}
  {
    assert ids[..i + 1] == ids[..i] + [ids[i]];
  }

  /** One step of the creation loop keeps the loop's description of the
      entries seen so far. */
  lemma CreationStep(start: map<string, Option<Handle>>, before: map<string, Option<Handle>>,
                     after: map<string, Option<Handle>>, seen: set<string>, key: string, bound: nat, stepBound: nat,
                     baseUrl: string, token: Option<string>, encode: string -> string, malformed: set<string>)
    requires forall k :: k in seen ==>
      EntryAfterCreate(start, before, k, CreationFails(baseUrl, token, encode, malformed, k), bound)
    requires before.Keys == start.Keys + seen
    requires after.Keys == before.Keys + {key}
    requires forall k :: k in start && k !in seen ==> before[k] == start[k]
    requires forall k :: k in before && k != key ==> after[k] == before[k]
    requires stepBound >= bound
    requires EntryAfterCreate(before, after, key, CreationFails(baseUrl, token, encode, malformed, key), stepBound)
    ensures forall k :: k in seen + {key} ==>
      EntryAfterCreate(start, after, k, CreationFails(baseUrl, token, encode, malformed, k), bound)
    ensures forall k :: k in start && k !in seen + {key} ==> after[k] == start[k]
  {
  }

  /** Creating the source of `id` throws: its URL is one the EventSource
      constructor rejects. */
  predicate CreationFails(baseUrl: string, token: Option<string>, encode: string -> string, malformed: set<string>, id: string) {
    StreamUrl(baseUrl, id, token, encode) in malformed
  }

  /** The entry of key `k` after the creation loop: a source that existed is
      kept; otherwise a source newer than `bound` was created, or `null` was
      stored because creation threw. */
  predicate EntryAfterCreate(before: map<string, Option<Handle>>, after: map<string, Option<Handle>>,
                             k: string, fails: bool, bound: nat) {
    k in after &&
    if k in before && before[k].Some? then after[k] == before[k]
    else if fails then after[k].None?
    else after[k].Some? && after[k].value >= bound
  }

  /** The handles held in a registry dictionary. */
  function Live(sources: map<string, Option<Handle>>): set<Handle> {
    set k | k in sources && sources[k].Some? :: sources[k].value
  }

  /** No two keys hold the same source. */
  predicate Injective(sources: map<string, Option<Handle>>) {
    forall k1, k2 :: k1 in sources && k2 in sources && sources[k1].Some? && sources[k1] == sources[k2] ==> k1 == k2
  }

  /** `sourcesRef.current` together with the sources ever created and closed. */
  class StreamRegistry {
    var sources: map<string, Option<Handle>>
    /** The next handle `new EventSource` will produce. */
    var nextHandle: Handle
    ghost var created: set<Handle>
    ghost var closed: set<Handle>

    /** Every source ever created is either held in the dictionary or closed,
        never both: no source is leaked and none is held after closing. */
    ghost predicate Valid()
      reads this
    {
      && Injective(sources)
      && created == closed + Live(sources)
      && closed !! Live(sources)
      && (forall h :: h in created ==> h < nextHandle)
    }

    constructor ()
      ensures Valid() && sources == map[] && created == {} && closed == {}
    {
      sources := map[];
      nextHandle := 0;
      created := {};
      closed := {};
    }

    /** `createSource(id)`: builds the URL and opens a source; if the
        constructor throws (the URL is one in `malformed`), stores `null`. */
    method CreateSource(id: string, baseUrl: string, token: Option<string>, encode: string -> string, malformed: set<string>)
      requires Valid()
      requires id !in sources || sources[id].None?
      modifies this
      ensures Valid()
      ensures CreationFails(baseUrl, token, encode, malformed, id) ==>
        sources == old(sources)[id := None] && nextHandle == old(nextHandle) && created == old(created)
      ensures !CreationFails(baseUrl, token, encode, malformed, id) ==>
        sources == old(sources)[id := Some(old(nextHandle))] && nextHandle == old(nextHandle) + 1
        && created == old(created) + {old(nextHandle)}
      ensures closed == old(closed)
    {
      var url := StreamUrl(baseUrl, id, token, encode);
      if url in malformed {
        sources := sources[id := None];
        LiveAfterUpdate(old(sources), id, None);
      } else {
        var es := nextHandle;
        nextHandle := nextHandle + 1;
        created := created + {es};
        sources := sources[id := Some(es)];
        LiveAfterUpdate(old(sources), id, Some(es));
      }
    }

    /** Closes the source under `key`, if any, and deletes the entry. */
    method CloseAndDelete(key: string)
      requires Valid() && key in sources
      modifies this
      ensures Valid()
      ensures sources == old(sources) - {key}
      ensures closed == old(closed) + (if old(sources)[key].Some? then {old(sources)[key].value} else {})
      ensures created == old(created) && nextHandle == old(nextHandle)
    {
      var es := sources[key];
      if es.Some? {
        closed := closed + {es.value};
      }
      sources := sources - {key};
      LiveAfterDelete(old(sources), key);
    }

    /** One step of the first loop: `if (!sourcesRef.current[key]) createSource(key)`. */
    method EnsureSource(key: string, baseUrl: string, token: Option<string>, encode: string -> string, malformed: set<string>)
      requires Valid()
      modifies this
      ensures Valid()
      ensures closed == old(closed) && nextHandle >= old(nextHandle)
      ensures sources.Keys == old(sources).Keys + {key}
      ensures forall k :: k in old(sources) && k != key ==> sources[k] == old(sources)[k]
      ensures EntryAfterCreate(old(sources), sources, key, CreationFails(baseUrl, token, encode, malformed, key), old(nextHandle))
    {
      if key !in sources || sources[key].None? {
        CreateSource(key, baseUrl, token, encode, malformed);
      }
    }

    /** The first loop of the effect: for every id whose key has no source
        (absent, or `null` because creation threw), create one. */
    method CreateMissing(ids: seq<UbicacionId>, baseUrl: string, token: Option<string>, encode: string -> string, malformed: set<string>)
      requires Valid()
      modifies this
      ensures Valid()
      ensures closed == old(closed) && nextHandle >= old(nextHandle)
      ensures sources.Keys == old(sources).Keys + KeySet(ids)
      ensures forall k :: k in old(sources) && k !in KeySet(ids) ==> sources[k] == old(sources)[k]
      ensures forall k :: k in KeySet(ids) ==>
        EntryAfterCreate(old(sources), sources, k, CreationFails(baseUrl, token, encode, malformed, k), old(nextHandle))
    {
      var i := 0;
      ghost var seen: set<string> := {};
      while i < |ids|
        invariant 0 <= i <= |ids|
        invariant seen == KeySet(ids[..i])
        invariant Valid()
        invariant closed == old(closed)
        invariant nextHandle >= old(nextHandle)
        invariant sources.Keys == old(sources).Keys + seen
        invariant forall k :: k in old(sources) && k !in seen ==> sources[k] == old(sources)[k]
        invariant forall k :: k in seen ==>
          EntryAfterCreate(old(sources), sources, k, CreationFails(baseUrl, token, encode, malformed, k), old(nextHandle))
      {
        var key := Key(ids[i]);
        KeySetSnoc(ids, i);
        ghost var before, stepBound := sources, nextHandle;
        EnsureSource(key, baseUrl, token, encode, malformed);
        CreationStep(old(sources), before, sources, seen, key, old(nextHandle), stepBound, baseUrl, token, encode, malformed);
        seen := seen + {key};
        i := i + 1;
      }
      assert ids[..i] == ids;
    }

    /** The second loop of the effect: every entry whose key is not in `keep`
        has its source closed, if it has one, and is then deleted. */
    method DeleteStale(keep: set<string>)
      requires Valid()
      modifies this
      ensures Valid()
      ensures sources == old(sources) - (old(sources).Keys - keep)
      ensures closed == old(closed) + Live(old(sources) - keep)
      ensures created == old(created) && nextHandle == old(nextHandle)
    {
      var stale := sources.Keys - keep;
      while stale != {}
        invariant Valid()
        invariant stale <= sources.Keys
        invariant sources == old(sources) - (old(sources).Keys - keep - stale)
        invariant created == old(created) && nextHandle == old(nextHandle)
        invariant closed == old(closed) + Live(old(sources) - keep - stale)
        decreases stale
      {
        var existingKey :| existingKey in stale;
        CloseAndDelete(existingKey);
        LiveAddBack(old(sources) - keep, stale, existingKey);
        stale := stale - {existingKey};
      }
    }

    /** The body of the effect: open a source for every id that has none
        (a `null` entry is retried), then close and delete every entry whose
        key is no longer among the ids. Existing sources are kept as they are. */
    method Reconcile(ids: seq<UbicacionId>, baseUrl: string, token: Option<string>, encode: string -> string, malformed: set<string>)
      requires Valid()
      modifies this
      ensures Valid()
      ensures sources.Keys == KeySet(ids)
      ensures forall k :: k in sources ==>
        EntryAfterCreate(old(sources), sources, k, CreationFails(baseUrl, token, encode, malformed, k), old(nextHandle))
      ensures closed == old(closed) + Live(old(sources) - KeySet(ids))
      ensures nextHandle >= old(nextHandle)
    {
      CreateMissing(ids, baseUrl, token, encode, malformed);
      ghost var afterCreate := sources;
      var currentKeys := KeySet(ids);
      DeleteStale(currentKeys);
      assert afterCreate - currentKeys == old(sources) - currentKeys;
    }

    /** What React does when the joined id list or the base URL changes: the
        previous run's cleanup, then the effect body. Because the cleanup
        empties the dictionary first, every location gets a new source, even
        one that was already streaming. */
    method DependenciesChanged(ids: seq<UbicacionId>, baseUrl: string, token: Option<string>, encode: string -> string, malformed: set<string>)
      requires Valid()
      modifies this
      ensures Valid()
      ensures sources.Keys == KeySet(ids)
      ensures forall k :: k in sources ==>
        if CreationFails(baseUrl, token, encode, malformed, k) then sources[k].None?
        else sources[k].Some? && sources[k].value >= old(nextHandle)
      ensures closed == old(closed) + Live(old(sources))
    {
      Cleanup();
      Reconcile(ids, baseUrl, token, encode, malformed);
    }

    /** The effect's cleanup: close every source, then reset the dictionary
        to an empty one. */
    method Cleanup()
      requires Valid()
      modifies this
      ensures Valid()
      ensures sources == map[]
      ensures closed == old(closed) + Live(old(sources))
      ensures created == old(created) && nextHandle == old(nextHandle)
    {
      var keys := sources.Keys;
      while keys != {}
        invariant keys <= sources.Keys
        invariant sources == old(sources) && created == old(created) && nextHandle == old(nextHandle)
        invariant closed == old(closed) + Live(sources - keys)
        decreases keys
      {
        var k :| k in keys;
        var es := sources[k];
        if es.Some? {
          closed := closed + {es.value};
        }
        LiveAddBack(sources, keys, k);
        keys := keys - {k};
      }
      assert sources - {} == sources;
      sources := map[];
      assert Live(sources) == {};
    }
  }

  lemma LiveAfterUpdate(sources: map<string, Option<Handle>>, key: string, v: Option<Handle>)
    requires key !in sources || sources[key].None?
    ensures Live(sources[key := v]) == Live(sources) + (if v.Some? then {v.value} else {})
  {
    var m := sources[key := v];
    forall h | h in Live(sources)
      ensures h in Live(m)
    {
      var k :| k in sources && sources[k].Some? && sources[k].value == h;
      assert k != key && m[k] == sources[k];
    }
    if v.Some? {
      assert m[key] == v;
      assert v.value in Live(m);
    }
  }

  lemma LiveAfterDelete(sources: map<string, Option<Handle>>, key: string)
    requires key in sources && Injective(sources)
    ensures Live(sources - {key}) == Live(sources) - (if sources[key].Some? then {sources[key].value} else {})
  {
    var m := sources - {key};
    forall h | h in Live(sources) && !(sources[key].Some? && h == sources[key].value)
      ensures h in Live(m)
    {
      var k :| k in sources && sources[k].Some? && sources[k].value == h;
      assert k != key;
      assert m[k] == sources[k];
    }
  }

  /** Putting a removed key back adds its handle, if any, to the live set. */
  lemma LiveAddBack(m: map<string, Option<Handle>>, removed: set<string>, k: string)
    requires k in removed && k in m
    ensures Live(m - (removed - {k})) == Live(m - removed) + (if m[k].Some? then {m[k].value} else {})
  {
    var small := m - removed;
    var big := m - (removed - {k});
    assert big == small[k := m[k]];
    LiveAfterUpdate(small, k, m[k]);
  }
}
