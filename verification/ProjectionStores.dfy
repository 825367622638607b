/** The two process-local stores that purchases invalidate: profile cache and session contexts. */
module ProjectionStores {
  import opened Basics

  type CacheKey = (string, string)  // (session_id, customer_id)

  /** `context` is the profile version inside the stored customer context, if there is one. */
  datatype SessionRow = SessionRow(customerId: string, context: Option<int>, conversation: seq<string>)

  datatype SessionError = IdentityMismatch

  const MAX_TURNS := 20

  function WithoutCustomer(cache: map<CacheKey, int>, customerId: string): map<CacheKey, int> {
    map k | k in cache && k.1 != customerId :: cache[k]
  }

  function WithoutSession(cache: map<CacheKey, int>, session: string): map<CacheKey, int> {
    map k | k in cache && k.0 != session :: cache[k]
  }

  function Invalidated(sessions: map<string, SessionRow>, customerId: string): map<string, SessionRow> {
    map id | id in sessions ::
      if sessions[id].customerId == customerId then sessions[id].(context := None) else sessions[id]
  }

  predicate Writable(sessions: map<string, SessionRow>, session: string, customerId: string) {
    session in sessions ==> sessions[session].customerId == customerId
  }

  function LastTurns(turns: seq<string>): seq<string> {
    if |turns| <= MAX_TURNS then turns else turns[|turns| - MAX_TURNS..]
  }

  /** The last turns of a conversation, at most twenty, in order: only older ones go, and only to make room. */
  ghost predicate KeepsLast(turns: seq<string>, kept: seq<string>) {
    exists dropped :: turns == dropped + kept && |kept| <= 20 && (dropped != [] ==> |kept| == 20)
  }

  lemma LastTurnsAreKept(turns: seq<string>)
    ensures KeepsLast(turns, LastTurns(turns))
  {
    if |turns| <= 20 {
      assert turns == [] + LastTurns(turns);
    } else {
      assert turns == turns[..|turns| - 20] + LastTurns(turns);
    }
  }

  /** The session belongs to somebody else. */
  ghost predicate Foreign(contexts: map<string, SessionRow>, session: string, customerId: string) {
    session in contexts && contexts[session].customerId != customerId
  }

  // ---------------------------------------------------------------- calls of the profile cache

  /** `built` is what the profile graph produces if it is run. */
  datatype CacheCall =
    | Build(key: CacheKey, refresh: bool, built: int)
    | DropCustomer(customerId: string)
    | DropSession(session: string)

  function AfterCall(entries: map<CacheKey, int>, call: CacheCall): map<CacheKey, int> {
    match call
    case Build(key, refresh, built) => if key in entries && !refresh then entries else entries[key := built]
    case DropCustomer(customerId) => WithoutCustomer(entries, customerId)
    case DropSession(session) => WithoutSession(entries, session)
  }

  function AfterCalls(entries: map<CacheKey, int>, calls: seq<CacheCall>): map<CacheKey, int>
    decreases |calls|
  {
    if calls == [] then entries else AfterCalls(AfterCall(entries, calls[0]), calls[1..])
  }

  /** The call neither rebuilds this entry nor drops it. */
  predicate Spares(call: CacheCall, key: CacheKey) {
    match call
    case Build(k, refresh, _) => k != key || !refresh
    case DropCustomer(customerId) => customerId != key.1
    case DropSession(session) => session != key.0
  }

  /** Once built, a context is what every later call of its session and customer gets, whatever else is
      built or dropped in between, until one refreshes it or drops its session or customer. */
  lemma {:induction false} ContextIsShared(entries: map<CacheKey, int>, calls: seq<CacheCall>, key: CacheKey)
    requires key in entries && forall i :: 0 <= i < |calls| ==> Spares(calls[i], key)
    ensures key in AfterCalls(entries, calls) && AfterCalls(entries, calls)[key] == entries[key]
    decreases |calls|
  {
    if calls != [] {
      assert Spares(calls[0], key);
      ContextIsShared(AfterCall(entries, calls[0]), calls[1..], key);
    }
  }

  /** An entry is there only because its own session and customer were built, and not dropped since. */
  lemma {:induction false} EntryWasBuilt(entries: map<CacheKey, int>, calls: seq<CacheCall>, key: CacheKey)
    requires key in AfterCalls(entries, calls)
    ensures
      || (key in entries && AfterCalls(entries, calls)[key] == entries[key])
      || (exists i :: 0 <= i < |calls| && calls[i].Build? && calls[i].key == key &&
                      calls[i].built == AfterCalls(entries, calls)[key])
    decreases |calls|
  {
    if calls != [] {
      var rest := calls[1..];
      EntryWasBuilt(AfterCall(entries, calls[0]), rest, key);
      if i :| 0 <= i < |rest| && rest[i].Build? && rest[i].key == key &&
              rest[i].built == AfterCalls(AfterCall(entries, calls[0]), rest)[key] {
        assert calls[i + 1] == rest[i];
      }
    }
  }

  // ---------------------------------------------------------------- calls of the session contexts

  datatype SessionCall =
    | Get(session: string, customerId: string)
    | Save(session: string, row: SessionRow)
    | Ensure(session: string, customerId: string)
    | Clear(session: string, customerId: string)
    | Invalidate(customerId: string)

  /** The customer on whose behalf one session is addressed. */
  function Caller(call: SessionCall): Option<(string, string)> {
    match call
    case Get(session, customerId) => Some((session, customerId))
    case Save(session, row) => Some((session, row.customerId))
    case Ensure(session, customerId) => Some((session, customerId))
    case Clear(session, customerId) => Some((session, customerId))
    case Invalidate(_) => None
  }

  /** The identity check every call of one session makes. */
  predicate Refused(contexts: map<string, SessionRow>, call: SessionCall) {
    Caller(call).Some? && !Writable(contexts, Caller(call).value.0, Caller(call).value.1)
  }

  function AfterSession(contexts: map<string, SessionRow>, call: SessionCall): map<string, SessionRow> {
    if Refused(contexts, call) then contexts
    else
      match call
      case Get(_, _) => contexts
      case Save(session, row) => contexts[session := row.(conversation := LastTurns(row.conversation))]
      case Ensure(session, customerId) =>
        if session in contexts then contexts else contexts[session := SessionRow(customerId, None, [])]
      case Clear(session, _) => contexts - {session}
      case Invalidate(customerId) => Invalidated(contexts, customerId)
  }

  function AfterSessions(contexts: map<string, SessionRow>, calls: seq<SessionCall>): map<string, SessionRow>
    decreases |calls|
  {
    if calls == [] then contexts else AfterSessions(AfterSession(contexts, calls[0]), calls[1..])
  }

  predicate ClearsOwn(call: SessionCall, session: string, owner: string) {
    call.Clear? && call.session == session && call.customerId == owner
  }

  predicate ByAnother(call: SessionCall, session: string, owner: string) {
    Caller(call).Some? && Caller(call).value.0 == session && Caller(call).value.1 != owner
  }

  /** A session keeps its owner over any calls by anybody, until its owner clears it; what another
      customer asks of it is refused and changes nothing. */
  lemma {:induction false} OwnerIsFixed(contexts: map<string, SessionRow>, calls: seq<SessionCall>, session: string)
    requires session in contexts
    requires forall i :: 0 <= i < |calls| ==> !ClearsOwn(calls[i], session, contexts[session].customerId)
    ensures
      var after := AfterSessions(contexts, calls);
      && session in after && after[session].customerId == contexts[session].customerId
      && forall call :: ByAnother(call, session, contexts[session].customerId) ==> AfterSession(after, call) == after
    decreases |calls|
  {
    if calls != [] {
      assert !ClearsOwn(calls[0], session, contexts[session].customerId);
      OwnerIsFixed(AfterSession(contexts, calls[0]), calls[1..], session);
    }
  }

  ghost predicate Bounded(contexts: map<string, SessionRow>) {
    forall id :: id in contexts ==> |contexts[id].conversation| <= MAX_TURNS
  }

  /** No conversation ever outgrows its bound. */
  lemma {:induction false} ConversationsStayBounded(contexts: map<string, SessionRow>, calls: seq<SessionCall>)
    requires Bounded(contexts)
    ensures Bounded(AfterSessions(contexts, calls))
    decreases |calls|
  {
    if calls != [] {
      ConversationsStayBounded(AfterSession(contexts, calls[0]), calls[1..]);
    }
  }

  // ---------------------------------------------------------------- the stores themselves

  /** The cache dictionary of `ProfileAgent`. */
  class ProfileCache {
    var entries: map<CacheKey, int>

    constructor ()
      ensures entries == map[]
    {
      entries := map[];
    }

    /** `execute` once the profile graph is bypassed by a hit or has produced `built`. */
    method Execute(key: CacheKey, refresh: bool, built: int) returns (context: int)
      modifies this
      ensures entries == AfterCall(old(entries), Build(key, refresh, built))
      ensures context == if key in old(entries) && !refresh then old(entries)[key] else built
      ensures entries == old(entries)[key := context]
    {
      if key in entries && !refresh {
        return entries[key];
      }
      entries := entries[key := built];
      context := built;
    }

    method ClearCustomer(customerId: string)
      modifies this
      ensures entries == AfterCall(old(entries), DropCustomer(customerId))
      ensures entries == map k | k in old(entries) && k.1 != customerId :: old(entries)[k]
    {
      var todo := set k | k in entries && k.1 == customerId;
      while todo != {}
        invariant todo == set k | k in entries && k.1 == customerId
        invariant WithoutCustomer(entries, customerId) == WithoutCustomer(old(entries), customerId)
        decreases todo
      {
        var k :| k in todo;
        entries := entries - {k};
        todo := todo - {k};
      }
      assert entries == WithoutCustomer(entries, customerId) by {
        assert forall k :: k in entries && k.1 == customerId ==> k in todo;
      }
    }

    method ClearSession(session: string)
      modifies this
      ensures entries == AfterCall(old(entries), DropSession(session))
      ensures entries == map k | k in old(entries) && k.0 != session :: old(entries)[k]
    {
      var todo := set k | k in entries && k.0 == session;
      while todo != {}
        invariant todo == set k | k in entries && k.0 == session
        invariant WithoutSession(entries, session) == WithoutSession(old(entries), session)
        decreases todo
      {
        var k :| k in todo;
        entries := entries - {k};
        todo := todo - {k};
      }
      assert entries == WithoutSession(entries, session) by {
        assert forall k :: k in entries && k.0 == session ==> k in todo;
      }
    }
  }

  /** `SessionContextService`: one owner per session, conversations bounded, profiles dropped. */
  class SessionContexts {
    var contexts: map<string, SessionRow>

    constructor ()
      ensures contexts == map[]
    {
      contexts := map[];
    }

    method GetContext(session: string, customerId: string) returns (r: Result<Option<SessionRow>, SessionError>)
      ensures r.Err? <==> Foreign(contexts, session, customerId)
      ensures r.Ok? ==>
        (r.value.Some? <==> session in contexts) && (r.value.Some? ==> r.value.value == contexts[session])
    {
      if session !in contexts { return Ok(None); }
      if contexts[session].customerId != customerId { return Err(IdentityMismatch); }
      r := Ok(Some(contexts[session]));
    }

    method SaveContext(session: string, row: SessionRow) returns (r: Result<SessionRow, SessionError>)
      modifies this
      ensures contexts == AfterSession(old(contexts), Save(session, row))
      ensures r.Err? <==> Foreign(old(contexts), session, row.customerId)
      ensures contexts == if r.Ok? then old(contexts)[session := r.value] else old(contexts)
      ensures r.Ok? ==>
        && r.value.customerId == row.customerId && r.value.context == row.context
        && KeepsLast(row.conversation, r.value.conversation)
    {
      LastTurnsAreKept(row.conversation);
      var stored := row.(conversation := LastTurns(row.conversation));
      if session in contexts && contexts[session].customerId != stored.customerId {
        return Err(IdentityMismatch);
      }
      contexts := contexts[session := stored];
      r := Ok(stored);
    }

    method EnsureContext(session: string, customerId: string) returns (r: Result<SessionRow, SessionError>)
      modifies this
      ensures contexts == AfterSession(old(contexts), Ensure(session, customerId))
      ensures r.Err? <==> Foreign(old(contexts), session, customerId)
      ensures contexts == if r.Ok? then old(contexts)[session := r.value] else old(contexts)
      ensures r.Ok? ==>
        r.value == if session in old(contexts) then old(contexts)[session] else SessionRow(customerId, None, [])
    {
      if session in contexts {
        if contexts[session].customerId != customerId { return Err(IdentityMismatch); }
        return Ok(contexts[session]);
      }
      contexts := contexts[session := SessionRow(customerId, None, [])];
      r := Ok(contexts[session]);
    }

    method ClearContext(session: string, customerId: string) returns (r: Result<bool, SessionError>)
      modifies this
      ensures contexts == AfterSession(old(contexts), Clear(session, customerId))
      ensures r.Err? <==> Foreign(old(contexts), session, customerId)
      ensures contexts == if r.Ok? then old(contexts) - {session} else old(contexts)
      ensures r.Ok? ==> (r.value <==> session in old(contexts))
    {
      if session !in contexts { return Ok(false); }
      if contexts[session].customerId != customerId { return Err(IdentityMismatch); }
      contexts := contexts - {session};
      r := Ok(true);
    }

    /** Drops the customer's profiles, keeps every conversation, counts the sessions it touched. */
    method InvalidateCustomer(customerId: string) returns (invalidated: nat)
      modifies this
      ensures contexts == AfterSession(old(contexts), Invalidate(customerId))
      ensures contexts.Keys == old(contexts).Keys
      ensures forall id :: id in contexts ==>
        && contexts[id].customerId == old(contexts)[id].customerId
        && contexts[id].conversation == old(contexts)[id].conversation
        && contexts[id].context ==
           if old(contexts)[id].customerId == customerId then None else old(contexts)[id].context
      ensures invalidated == |set id | id in old(contexts) && old(contexts)[id].customerId == customerId|
    {
      var todo := contexts.Keys;
      ghost var touched: set<string> := {};
      invalidated := 0;
      while todo != {}
        invariant todo <= old(contexts).Keys && contexts.Keys == old(contexts).Keys
        invariant touched ==
          set id | id in old(contexts) && id !in todo && old(contexts)[id].customerId == customerId
        invariant invalidated == |touched|
        invariant forall id :: id in contexts ==>
          contexts[id] == if id in todo then old(contexts)[id] else Invalidated(old(contexts), customerId)[id]
        decreases todo
      {
        var id :| id in todo;
        todo := todo - {id};
        if contexts[id].customerId == customerId {
          contexts := contexts[id := contexts[id].(context := None)];
          invalidated := invalidated + 1;
          touched := touched + {id};
        }
      }
      assert touched == set id | id in old(contexts) && old(contexts)[id].customerId == customerId;
    }
  }
}
