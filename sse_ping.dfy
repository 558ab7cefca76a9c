/**
 * The SSE keep-alive service (src/mcp/services/sse-ping.service.ts). It keeps
 * the open SSE responses by session id and, while its single interval timer
 * runs, writes an event-stream comment frame to each of them, dropping those
 * that can no longer be written to.
 *
 * The connection map is a sequence in insertion order (the iteration order of
 * a JavaScript `Map`) with distinct session ids. Responses and timers are
 * numbered handles; what the timer period is and which frames were written
 * are kept in the state.
 */
module SsePing {
  import opened Values

  const DefaultPingIntervalMs := 30000

  /** An entry of `activeConnections`: the session id and its response. */
  datatype Connection = Connection(sessionId: string, response: nat)

  /** The state of a response when the sweep reaches it. */
  datatype SinkState =
    | Writable       // `!res.closed && res.writable`, and `res.write` returns
    | Unwritable     // closed or not writable
    | WriteThrows    // writable, but `res.write` throws

  /** One frame written to a response. */
  datatype Write = Write(response: nat, frame: string)

  /** The comment frame sent as a ping; `iso` is the sweep's timestamp in ISO 8601. */
  function PingFrame(iso: string): (r: string)
    ensures |r| >= 4 && r[0] == ':' && r[|r| - 2..] == "\n\n"
    ensures '\n' !in iso ==> forall i :: 0 <= i < |r| - 2 ==> r[i] != '\n'
  {
    ": ping - " + iso + "\n\n"
  }

  function Ids(conns: seq<Connection>): set<string> {
    set c | c in conns :: c.sessionId
  }

  /** No two entries share a session id, as in a `Map`. */
  predicate DistinctIds(conns: seq<Connection>) {
    forall i, j :: 0 <= i < j < |conns| ==> conns[i].sessionId != conns[j].sessionId
  }

  /** `activeConnections.set(id, res)`: replace in place, or append. */
  function SetConnection(conns: seq<Connection>, id: string, response: nat): seq<Connection> {
    if conns == [] then [Connection(id, response)]
    else if conns[0].sessionId == id then [Connection(id, response)] + conns[1..]
    else [conns[0]] + SetConnection(conns[1..], id, response)
  }

  /** `activeConnections.delete(id)` */
  function WithoutConnection(conns: seq<Connection>, id: string): seq<Connection> {
    if conns == [] then []
    else if conns[0].sessionId == id then WithoutConnection(conns[1..], id)
    else [conns[0]] + WithoutConnection(conns[1..], id)
  }

  /** A sequence with an entry in front has distinct ids exactly when the rest has and lacks that id. */
  lemma DistinctCons(c: Connection, conns: seq<Connection>)
    ensures DistinctIds([c] + conns) <==> c.sessionId !in Ids(conns) && DistinctIds(conns)
  {
    var s := [c] + conns;
    if DistinctIds(s) {
      forall i, j | 0 <= i < j < |conns| ensures conns[i].sessionId != conns[j].sessionId {
        assert s[i + 1] == conns[i] && s[j + 1] == conns[j];
      }
      forall d | d in conns ensures d.sessionId != c.sessionId {
        var j :| 0 <= j < |conns| && conns[j] == d;
        assert s[0] == c && s[j + 1] == d;
      }
    }
    if c.sessionId !in Ids(conns) && DistinctIds(conns) {
      forall i, j | 0 <= i < j < |s| ensures s[i].sessionId != s[j].sessionId {
        if i == 0 {
          assert s[j] in conns;
        } else {
          assert s[i] == conns[i - 1] && s[j] == conns[j - 1];
        }
      }
    }
  }

  /**
   * Setting an id leaves it mapped to the new response and keeps every entry
   * with another id; a new id is appended at the end.
   */
  lemma {:induction false} SetConnectionMembers(conns: seq<Connection>, id: string, response: nat)
    ensures var r := SetConnection(conns, id, response);
      Ids(r) == Ids(conns) + {id} &&
      Connection(id, response) in r &&
      (forall c :: c in r && c.sessionId != id ==> c in conns) &&
      (forall c :: c in conns && c.sessionId != id ==> c in r) &&
      (id !in Ids(conns) ==> r == conns + [Connection(id, response)])
  {
    if conns != [] {
      var rest := conns[1..];
      assert conns == [conns[0]] + rest;
      assert Ids(conns) == {conns[0].sessionId} + Ids(rest);
      SetConnectionMembers(rest, id, response);
      var r := SetConnection(conns, id, response);
      if conns[0].sessionId == id {
        assert Ids(r) == {id} + Ids(rest);
      } else {
        assert Ids(r) == {conns[0].sessionId} + Ids(SetConnection(rest, id, response));
      }
    }
  }

  /** Setting an id keeps the ids distinct, and replaces an existing entry in place. */
  lemma {:induction false} SetConnectionDistinct(conns: seq<Connection>, id: string, response: nat)
    requires DistinctIds(conns)
    ensures DistinctIds(SetConnection(conns, id, response))
    ensures id in Ids(conns) ==> |SetConnection(conns, id, response)| == |conns|
  {
    if conns != [] {
      var rest := conns[1..];
      assert conns == [conns[0]] + rest;
      assert Ids(conns) == {conns[0].sessionId} + Ids(rest);
      DistinctCons(conns[0], rest);
      if conns[0].sessionId == id {
        DistinctCons(Connection(id, response), rest);
      } else {
        SetConnectionDistinct(rest, id, response);
        SetConnectionMembers(rest, id, response);
        DistinctCons(conns[0], SetConnection(rest, id, response));
      }
    }
  }

  /** Removing an id drops exactly the entries with that id and keeps the order of the rest. */
  lemma {:induction false} WithoutConnectionSpec(conns: seq<Connection>, id: string)
    ensures var r := WithoutConnection(conns, id);
      (forall c :: c in r <==> c in conns && c.sessionId != id) &&
      Ids(r) == Ids(conns) - {id} && |r| <= |conns|
    ensures DistinctIds(conns) ==> DistinctIds(WithoutConnection(conns, id))
    ensures id !in Ids(conns) ==> WithoutConnection(conns, id) == conns
  {
    if conns != [] {
      var rest := conns[1..];
      assert conns == [conns[0]] + rest;
      assert Ids(conns) == {conns[0].sessionId} + Ids(rest);
      WithoutConnectionSpec(rest, id);
      DistinctCons(conns[0], rest);
      if conns[0].sessionId != id {
        DistinctCons(conns[0], WithoutConnection(rest, id));
      }
    }
  }

  /** The entries a sweep keeps: those whose response could be written to. */
  function Kept(conns: seq<Connection>, state: nat -> SinkState): seq<Connection> {
    if conns == [] then [] else
    var last := conns[|conns| - 1];
    Kept(conns[..|conns| - 1], state) + (if state(last.response) == Writable then [last] else [])
  }

  /** The frames a sweep writes: one to each kept response, in order. */
  function Pings(conns: seq<Connection>, state: nat -> SinkState, frame: string): seq<Write> {
    if conns == [] then [] else
    var last := conns[|conns| - 1];
    Pings(conns[..|conns| - 1], state, frame) + (if state(last.response) == Writable then [Write(last.response, frame)] else [])
  }

  /**
   * A sweep keeps exactly the entries whose response was writable, in their
   * order, and each of them, and no other response, receives one ping.
   */
  lemma {:induction false} SweepSpec(conns: seq<Connection>, state: nat -> SinkState, frame: string)
    ensures forall c :: c in Kept(conns, state) <==> c in conns && state(c.response) == Writable
    ensures |Pings(conns, state, frame)| == |Kept(conns, state)|
    ensures forall k :: 0 <= k < |Kept(conns, state)| ==>
      Pings(conns, state, frame)[k] == Write(Kept(conns, state)[k].response, frame)
  {
    if conns != [] {
      var init := conns[..|conns| - 1];
      SweepSpec(init, state, frame);
      assert conns == init + [conns[|conns| - 1]];
    }
  }

  lemma KeptSnoc(conns: seq<Connection>, c: Connection, state: nat -> SinkState, frame: string)
    ensures Kept(conns + [c], state) == Kept(conns, state) + (if state(c.response) == Writable then [c] else [])
    ensures Pings(conns + [c], state, frame) ==
      Pings(conns, state, frame) + (if state(c.response) == Writable then [Write(c.response, frame)] else [])
  {
    assert (conns + [c])[..|conns|] == conns;
  }

  /** Ids of a prefix and of the rest of a sequence with distinct ids do not meet. */
  lemma SplitIds(conns: seq<Connection>, i: nat)
    requires DistinctIds(conns) && i < |conns|
    ensures conns[i].sessionId !in Ids(conns[..i]) && conns[i].sessionId !in Ids(conns[i + 1..])
  {
    forall c | c in conns[..i] ensures c.sessionId != conns[i].sessionId {
      var j :| 0 <= j < i && conns[..i][j] == c;
    }
    forall c | c in conns[i + 1..] ensures c.sessionId != conns[i].sessionId {
      var j :| 0 <= j < |conns| - i - 1 && conns[i + 1..][j] == c;
      assert conns[i + 1 + j] == c;
    }
  }

  /** Removing an id no entry has changes nothing. */
  lemma {:induction false} WithoutAbsent(conns: seq<Connection>, id: string)
    requires forall c :: c in conns ==> c.sessionId != id
    ensures WithoutConnection(conns, id) == conns
  {
    if conns != [] {
      assert conns[0] in conns;
      assert forall c :: c in conns[1..] ==> c in conns;
      WithoutAbsent(conns[1..], id);
      assert conns == [conns[0]] + conns[1..];
    }
  }

  /** Removing the id of the entry just after a kept prefix drops that entry only. */
  lemma RemoveCurrent(conns: seq<Connection>, i: nat, kept: seq<Connection>)
    requires DistinctIds(conns) && i < |conns|
    requires forall c :: c in kept ==> c in conns[..i]
    ensures WithoutConnection(kept + conns[i..], conns[i].sessionId) == kept + conns[i + 1..]
  {
    var c, rest := conns[i], conns[i + 1..];
    var id := c.sessionId;
    SplitIds(conns, i);
    forall k | k in kept ensures k.sessionId != id {
      assert k.sessionId in Ids(conns[..i]);
    }
    forall k | k in rest ensures k.sessionId != id {
      assert k.sessionId in Ids(rest);
    }
    RemoveAppend(kept, conns[i..], id);
    WithoutAbsent(kept, id);
    assert conns[i..] == [c] + rest;
    RemoveAppend([c], rest, id);
    assert WithoutConnection([c], id) == [];
    WithoutAbsent(rest, id);
  }

  /** One step of the sweep over `conns[i]`, in terms of the state before and after it. */
  lemma SweepStep(conns: seq<Connection>, i: nat, state: nat -> SinkState, frame: string)
    requires DistinctIds(conns) && i < |conns|
    ensures var c := conns[i];
      Pings(conns[..i + 1], state, frame) ==
        Pings(conns[..i], state, frame) + (if state(c.response) == Writable then [Write(c.response, frame)] else [])
    ensures state(conns[i].response) == Writable ==>
      Kept(conns[..i], state) + conns[i..] == Kept(conns[..i + 1], state) + conns[i + 1..]
    ensures state(conns[i].response) != Writable ==>
      WithoutConnection(Kept(conns[..i], state) + conns[i..], conns[i].sessionId) == Kept(conns[..i + 1], state) + conns[i + 1..]
  {
    var c := conns[i];
    assert conns[..i + 1] == conns[..i] + [c];
    KeptSnoc(conns[..i], c, state, frame);
    assert conns[i..] == [c] + conns[i + 1..];
    if state(c.response) != Writable {
      SweepSpec(conns[..i], state, frame);
      RemoveCurrent(conns, i, Kept(conns[..i], state));
    }
  }

  lemma {:induction false} RemoveAppend(a: seq<Connection>, b: seq<Connection>, id: string)
    ensures WithoutConnection(a + b, id) == WithoutConnection(a, id) + WithoutConnection(b, id)
  {
    if a == [] {
      assert a + b == b;
    } else {
      assert (a + b)[0] == a[0] && (a + b)[1..] == a[1..] + b;
      RemoveAppend(a[1..], b, id);
      if a[0].sessionId == id {
        calc {
          WithoutConnection(a + b, id);
          WithoutConnection(a[1..] + b, id);
          WithoutConnection(a[1..], id) + WithoutConnection(b, id);
          WithoutConnection(a, id) + WithoutConnection(b, id);
        }
      } else {
        calc {
          WithoutConnection(a + b, id);
          [a[0]] + WithoutConnection(a[1..] + b, id);
          [a[0]] + (WithoutConnection(a[1..], id) + WithoutConnection(b, id));
          ([a[0]] + WithoutConnection(a[1..], id)) + WithoutConnection(b, id);
        }
      }
    }
  }

  class SsePingService {
    var pingInterval: Option<nat>
    var pingIntervalMs: int
    var activeConnections: seq<Connection>
    /** The timers running, with their periods. */
    var timers: map<nat, int>
    var nextTimer: nat
    var writes: seq<Write>

    /** At most one timer runs, and it is the one `pingInterval` holds. */
    predicate Valid()
      reads this
    {
      DistinctIds(activeConnections) &&
      (pingInterval.None? ==> timers == map[]) &&
      (pingInterval.Some? ==> timers.Keys == {pingInterval.value}) &&
      forall t :: t in timers ==> t < nextTimer
    }

    constructor()
      ensures Valid()
      ensures pingInterval == None && pingIntervalMs == DefaultPingIntervalMs
      ensures activeConnections == [] && timers == map[] && writes == []
    {
      pingInterval := None;
      pingIntervalMs := DefaultPingIntervalMs;
      activeConnections := [];
      timers := map[];
      nextTimer := 0;
      writes := [];
    }

    /** `stopPingInterval`: clears the timer, if any. */
    method StopPingInterval()
      requires Valid()
      modifies this
      ensures Valid()
      ensures pingInterval == None && timers == map[]
      ensures activeConnections == old(activeConnections) && pingIntervalMs == old(pingIntervalMs)
      ensures writes == old(writes) && nextTimer == old(nextTimer)
    {
      if pingInterval.Some? {
        timers := timers - {pingInterval.value};
        pingInterval := None;
      }
    }

    /** `startPingInterval`: replaces any running timer by a new one with the current period. */
    method StartPingInterval()
      requires Valid()
      modifies this
      ensures Valid()
      ensures pingInterval.Some? && pingInterval.value !in old(timers)
      ensures timers == map[pingInterval.value := pingIntervalMs]
      ensures activeConnections == old(activeConnections) && pingIntervalMs == old(pingIntervalMs)
      ensures writes == old(writes)
    {
      if pingInterval.Some? {
        StopPingInterval();
      }
      var t := nextTimer;
      nextTimer := nextTimer + 1;
      timers := timers[t := pingIntervalMs];
      pingInterval := Some(t);
    }

    /** `configure({pingEnabled, pingIntervalMs})` */
    method Configure(pingEnabled: Option<bool>, intervalMs: Option<int>)
      requires Valid()
      modifies this
      ensures Valid()
      ensures pingIntervalMs == if intervalMs.Some? then intervalMs.value else old(pingIntervalMs)
      ensures pingEnabled != Some(false) ==>
        pingInterval.Some? && pingInterval.value !in old(timers) && timers == map[pingInterval.value := pingIntervalMs]
      ensures pingEnabled == Some(false) ==> pingInterval == None && timers == map[]
      ensures activeConnections == old(activeConnections) && writes == old(writes)
    {
      if intervalMs.Some? {
        pingIntervalMs := intervalMs.value;
      }
      if pingEnabled != Some(false) {
        StartPingInterval();
      } else {
        StopPingInterval();
      }
    }

    /** `onModuleDestroy` */
    method OnModuleDestroy()
      requires Valid()
      modifies this
      ensures Valid()
      ensures pingInterval == None && timers == map[]
      ensures activeConnections == old(activeConnections) && pingIntervalMs == old(pingIntervalMs)
      ensures writes == old(writes) && nextTimer == old(nextTimer)
    {
      StopPingInterval();
    }

    /** `registerConnection(sessionId, transport, res)` */
    method RegisterConnection(sessionId: string, response: nat)
      requires Valid()
      modifies this
      ensures Valid()
      ensures activeConnections == SetConnection(old(activeConnections), sessionId, response)
      ensures Ids(activeConnections) == Ids(old(activeConnections)) + {sessionId}
      ensures pingInterval == old(pingInterval) && timers == old(timers) && writes == old(writes)
      ensures pingIntervalMs == old(pingIntervalMs) && nextTimer == old(nextTimer)
    {
      SetConnectionMembers(activeConnections, sessionId, response);
      SetConnectionDistinct(activeConnections, sessionId, response);
      activeConnections := SetConnection(activeConnections, sessionId, response);
    }

    /** `removeConnection(sessionId)` */
    method RemoveConnection(sessionId: string)
      requires Valid()
      modifies this
      ensures Valid()
      ensures activeConnections == WithoutConnection(old(activeConnections), sessionId)
      ensures Ids(activeConnections) == Ids(old(activeConnections)) - {sessionId}
      ensures pingInterval == old(pingInterval) && timers == old(timers) && writes == old(writes)
      ensures pingIntervalMs == old(pingIntervalMs) && nextTimer == old(nextTimer)
    {
      WithoutConnectionSpec(activeConnections, sessionId);
      activeConnections := WithoutConnection(activeConnections, sessionId);
    }

    /** The body of the sweep's loop for one entry: ping it, or remove it. */
    method PingOne(c: Connection, state: nat -> SinkState, frame: string)
      requires Valid()
      modifies this
      ensures Valid()
      ensures state(c.response) == Writable ==>
        activeConnections == old(activeConnections) && writes == old(writes) + [Write(c.response, frame)]
      ensures state(c.response) != Writable ==>
        activeConnections == WithoutConnection(old(activeConnections), c.sessionId) && writes == old(writes)
      ensures pingInterval == old(pingInterval) && timers == old(timers)
      ensures pingIntervalMs == old(pingIntervalMs) && nextTimer == old(nextTimer)
    {
      if state(c.response) == Writable {
        writes := writes + [Write(c.response, frame)];
      } else {
        RemoveConnection(c.sessionId);
      }
    }

    /** One turn of the sweep: the loop's view of the list and the writes moves past `conns[i]`. */
    method SweepOne(conns: seq<Connection>, i: nat, state: nat -> SinkState, frame: string, ghost before: seq<Write>)
      requires Valid() && DistinctIds(conns) && i < |conns|
      requires activeConnections == Kept(conns[..i], state) + conns[i..]
      requires writes == before + Pings(conns[..i], state, frame)
      modifies this
      ensures Valid()
      ensures activeConnections == Kept(conns[..i + 1], state) + conns[i + 1..]
      ensures writes == before + Pings(conns[..i + 1], state, frame)
      ensures pingInterval == old(pingInterval) && timers == old(timers)
      ensures pingIntervalMs == old(pingIntervalMs) && nextTimer == old(nextTimer)
    {
      var c := conns[i];
      SweepStep(conns, i, state, frame);
      PingOne(c, state, frame);
      if state(c.response) == Writable {
        AppendAssoc(before, Pings(conns[..i], state, frame), [Write(c.response, frame)]);
      } else {
        assert Pings(conns[..i + 1], state, frame) == Pings(conns[..i], state, frame) + [];
      }
    }

    /**
     * `sendPingToAllConnections`. `state` tells how each response behaves
     * and `iso` is the sweep's timestamp; each entry that cannot be written
     * to is removed as the loop reaches it.
     */
    method SendPingToAllConnections(state: nat -> SinkState, iso: string)
      requires Valid()
      modifies this
      ensures Valid()
      ensures activeConnections == Kept(old(activeConnections), state)
      ensures writes == old(writes) + Pings(old(activeConnections), state, PingFrame(iso))
      ensures pingInterval == old(pingInterval) && timers == old(timers)
      ensures pingIntervalMs == old(pingIntervalMs) && nextTimer == old(nextTimer)
    {
      var conns := activeConnections;
      if |conns| == 0 {
        return;
      }
      var frame := PingFrame(iso);
      var i := 0;
      while i < |conns|
        invariant 0 <= i <= |conns| && Valid()
        invariant activeConnections == Kept(conns[..i], state) + conns[i..]
        invariant writes == old(writes) + Pings(conns[..i], state, frame)
        invariant pingInterval == old(pingInterval) && timers == old(timers)
        invariant pingIntervalMs == old(pingIntervalMs) && nextTimer == old(nextTimer)
      {
        SweepOne(conns, i, state, frame, old(writes));
        i := i + 1;
      }
      assert conns[..i] == conns;
    }
  }
}
