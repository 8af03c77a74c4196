/** The coding mailbox: a process-wide map from session id to the latest
    coding result deposited for it. A deposit writes (last write wins) and
    then sweeps out entries older than five minutes; a poll is a destructive,
    single read. Every operation is one atomic transition on an immutable
    store value, and the clock is an explicit parameter. */
module CodingStore {
  import opened Values
  import opened Http

  /** The key used when no session id is given, on deposit and on poll. */
  const DefaultKey: string := "latest"

  /** Five minutes in milliseconds: entries whose timestamp is more than
      this far behind the sweep's clock reading are discarded. */
  const TtlMs: int := 5 * 60 * 1000

  /** One mailbox slot: the deposited coding (`None` when the deposit
      carried none) and the clock reading, in milliseconds, when it was written. */
  datatype Entry = Entry(coding: Option<Json>, timestamp: int)

  /** Each key holds at most one entry; there is no queue per key. */
  type Store = map<string, Entry>

  /** The mailbox key for an optional session id (`sessionId || 'latest'`). */
  function KeyFor(sessionId: Option<string>): (k: string)
    ensures k != ""
    ensures sessionId.Some? && sessionId.value != "" ==> k == sessionId.value
    ensures sessionId.None? || sessionId.value == "" ==> k == DefaultKey
  {
    StringOr(sessionId, DefaultKey)
  }

  /** An entry is stale at clock reading `now` when it was written strictly
      before `now - TtlMs`. */
  predicate Stale(e: Entry, now: int)
  {
    e.timestamp < now - TtlMs
  }

  /** No entry of `s` is stale at `now`. */
  predicate AllFresh(s: Store, now: int)
  {
    forall k :: k in s ==> !Stale(s[k], now)
  }

  /** The sweep at clock reading `now`: exactly the entries that are not
      stale survive, each unchanged. */
  function Sweep(s: Store, now: int): (r: Store)
    ensures AllFresh(r, now)
    ensures r.Keys <= s.Keys
    ensures forall k :: k in r ==> r[k] == s[k]
    ensures forall k :: k in s && !Stale(s[k], now) ==> k in r
  {
    map k | k in s && !Stale(s[k], now) :: s[k]
  }

  /** The sweep as the source performs it: one pass over the keys,
      deleting the current entry when it is stale. */
  method SweepInPlace(s: Store, now: int) returns (r: Store)
    ensures r == Sweep(s, now)
  {
    r := s;
    var pending := s.Keys;
    while pending != {}
      invariant pending <= s.Keys
      invariant r.Keys <= s.Keys
      invariant forall k :: k in r ==> r[k] == s[k]
      invariant forall k :: k in pending ==> k in r
      invariant forall k :: k in s && k !in pending ==> (k in r <==> !Stale(s[k], now))
      decreases pending
    {
      var k :| k in pending;
      if r[k].timestamp < now - TtlMs {
        r := r - {k};
      }
      pending := pending - {k};
    }
  }

  /** Deposit `coding` under `key`: overwrite the slot with a new entry
      stamped `storedAt`, then sweep at `sweptAt`. The source reads the clock
      twice, so the two readings are separate parameters. */
  function Deposit(s: Store, key: string, coding: Option<Json>, storedAt: int, sweptAt: int): (r: Store)
    ensures AllFresh(r, sweptAt)
    ensures key in r <==> storedAt >= sweptAt - TtlMs
    ensures key in r ==> r[key] == Entry(coding, storedAt)
    ensures forall k :: k in r && k != key ==> k in s && r[k] == s[k]
    ensures forall k :: k in s && k != key && !Stale(s[k], sweptAt) ==> k in r
  {
    Sweep(s[key := Entry(coding, storedAt)], sweptAt)
  }

  /** What a poll finds: the stored coding, or nothing. */
  datatype PollResult = Found(coding: Option<Json>) | Missing

  /** Poll `key`: on a hit, return its coding and delete the entry; on a
      miss, change nothing. A poll never sweeps. */
  function Poll(s: Store, key: string): (r: (PollResult, Store))
    ensures r.0.Found? <==> key in s
    ensures r.0.Found? ==> r.0.coding == s[key].coding
    ensures key !in r.1
    ensures forall k :: k != key ==> (k in r.1 <==> k in s)
    ensures forall k :: k in r.1 ==> r.1[k] == s[k]
    ensures r.0.Missing? ==> r.1 == s
  {
    if key in s then (Found(s[key].coding), s - {key}) else (Missing, s)
  }

  /** The body of a `/coding` deposit: both fields may be absent. */
  datatype DepositBody = DepositBody(coding: Option<Json>, sessionId: Option<string>)

  /** `{success: true, message: ...}`: the acknowledgement of a deposit. */
  const DepositAck: Json :=
    JObj(map["success" := JBool(true), "message" := JStr("Coding data received and stored")])

  /** `{success: false, message: ...}`: the body of a poll that misses. */
  const PollMiss: Json :=
    JObj(map["success" := JBool(false), "message" := JStr("No coding data available yet")])

  /** `{success: true, coding}`; an absent coding is dropped from the JSON
      text, as `JSON.stringify` drops `undefined` properties. */
  function PollHit(coding: Option<Json>): (j: Json)
    ensures j.JObj? && "success" in j.fields && j.fields["success"] == JBool(true)
    ensures "coding" in j.fields <==> coding.Some?
    ensures coding.Some? ==> j.fields["coding"] == coding.value
  {
    match coding
    case Some(c) => JObj(map["success" := JBool(true), "coding" := c])
    case None => JObj(map["success" := JBool(true)])
  }

  /** POST /coding: deposit under the body's session id or the default key,
      sweep, and acknowledge. Always 200. */
  function PostCoding(s: Store, body: DepositBody, storedAt: int, sweptAt: int): (r: (Response, Store))
    ensures r.0 == Response(200, Some(DepositAck))
    ensures AllFresh(r.1, sweptAt)
    ensures KeyFor(body.sessionId) in r.1 <==> storedAt >= sweptAt - TtlMs
    ensures KeyFor(body.sessionId) in r.1 ==> r.1[KeyFor(body.sessionId)] == Entry(body.coding, storedAt)
    ensures forall k :: k in r.1 && k != KeyFor(body.sessionId) ==> k in s && r.1[k] == s[k]
    ensures forall k :: k in s && k != KeyFor(body.sessionId) && !Stale(s[k], sweptAt) ==> k in r.1
  {
    (Response(200, Some(DepositAck)), Deposit(s, KeyFor(body.sessionId), body.coding, storedAt, sweptAt))
  }

  /** GET /coding/:sessionId?: a hit answers 200 with the coding and
      consumes the entry; a miss answers 404 and leaves the store alone. */
  function GetCoding(s: Store, sessionId: Option<string>): (r: (Response, Store))
    ensures r.0.status == 200 <==> KeyFor(sessionId) in s
    ensures r.0.status == 200 || r.0.status == 404
    ensures r.0.status == 200 ==>
              r.0.body == Some(PollHit(s[KeyFor(sessionId)].coding)) && r.1 == s - {KeyFor(sessionId)}
    ensures r.0.status == 404 ==> r.0.body == Some(PollMiss) && r.1 == s
  {
    var (found, s') := Poll(s, KeyFor(sessionId));
    match found
    case Found(coding) => (Response(200, Some(PollHit(coding))), s')
    case Missing => (Response(404, Some(PollMiss)), s')
  }

  // ---- Properties relating several operations ----

  /** Read-once delivery: a deposit followed by two polls for the same
      session id yields the deposited coding, then a 404 that changes
      nothing, provided the two clock readings of the deposit are at most
      the TTL apart. */
  lemma DepositThenPollTwice(s: Store, body: DepositBody, storedAt: int, sweptAt: int, pollId: Option<string>)
    requires KeyFor(pollId) == KeyFor(body.sessionId)
    requires storedAt >= sweptAt - TtlMs
    ensures var (_, s1) := PostCoding(s, body, storedAt, sweptAt);
            var (first, s2) := GetCoding(s1, pollId);
            var (second, s3) := GetCoding(s2, pollId);
            && first == Response(200, Some(PollHit(body.coding)))
            && second == Response(404, Some(PollMiss))
            && s3 == s2
            && KeyFor(pollId) !in s2
  {
  }

  /** A deposit without a session id (absent or empty) and a poll without
      one meet at the default key. */
  lemma DefaultKeyRoundTrip(s: Store, coding: Option<Json>, anonymous: Option<string>, storedAt: int, sweptAt: int)
    requires anonymous.None? || anonymous == Some("")
    requires storedAt >= sweptAt - TtlMs
    ensures var (_, s1) := PostCoding(s, DepositBody(coding, anonymous), storedAt, sweptAt);
            && DefaultKey in s1
            && GetCoding(s1, None).0 == Response(200, Some(PollHit(coding)))
  {
  }

  /** A deposit whose clock has moved more than the TTL past an entry
      evicts that entry, whatever its key. */
  lemma NextDepositEvictsStale(s: Store, k: string, key: string, coding: Option<Json>, storedAt: int, sweptAt: int)
    requires k in s && k != key
    requires s[k].timestamp < sweptAt - TtlMs
    ensures k !in Deposit(s, key, coding, storedAt, sweptAt)
  {
  }

  /** Sweeping twice is sweeping once at the later clock reading; in
      particular a sweep is idempotent. */
  lemma SweepTwice(s: Store, a: int, b: int)
    ensures Sweep(Sweep(s, a), b) == Sweep(s, if a <= b then b else a)
  {
  }

  /** Polling preserves freshness, but never restores it: a poll does not
      sweep, so a stale entry under another key stays until the next deposit. */
  lemma PollKeepsOtherEntries(s: Store, key: string, now: int)
    ensures AllFresh(s, now) ==> AllFresh(Poll(s, key).1, now)
    ensures forall k :: k in s && k != key ==> k in Poll(s, key).1 && Poll(s, key).1[k] == s[k]
  {
  }

  /** A later deposit under the same key replaces the earlier entry: only
      the last write is visible to a poll. */
  lemma LastWriteWins(s: Store, key: string, c1: Option<Json>, c2: Option<Json>,
                      t1: int, u1: int, t2: int, u2: int)
    requires t2 >= u2 - TtlMs
    ensures var s2 := Deposit(Deposit(s, key, c1, t1, u1), key, c2, t2, u2);
            Poll(s2, key).0 == Found(c2)
  {
  }
}
