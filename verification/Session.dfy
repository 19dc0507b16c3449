/** The bounded session store (routing/session.py), proved against the history of its calls. */
module Sessions {
  import opened Prelude
  import opened Domain
  import opened RoutingPolicies
  import opened SessionHistory

  /** Minimal state retained for one opt-in session id. */
  class SessionState {
    var lastTier: Tier
    var lastOutcome: OutcomeSignal
    var consecutiveFailures: int
    var requestsSinceFailure: int
    var lastAccess: Time

    function Value(): Entry
      reads this
    {
      Entry(lastTier, lastOutcome, consecutiveFailures, requestsSinceFailure, lastAccess)
    }

    constructor ()
      ensures Value() == BLANK
    {
      lastTier, lastOutcome := Balanced, SignalUnknown;
      consecutiveFailures, requestsSinceFailure, lastAccess := 0, 0, 0.0;
    }

    /** The part of record() that follows the lookup. */
    method Report(tier: Tier, outcome: OutcomeSignal)
      modifies this
      ensures Value() == Escalate(old(Value()), tier, outcome)
    {
      lastTier := tier;
      lastOutcome := outcome;
      if outcome == SignalFailure {
        consecutiveFailures := consecutiveFailures + 1;
        requestsSinceFailure := 0;
      } else if outcome == SignalSuccess {
        consecutiveFailures := 0;
        requestsSinceFailure := 0;
      } else {
        requestsSinceFailure := requestsSinceFailure + 1;
        if requestsSinceFailure >= 2 {
          consecutiveFailures := if consecutiveFailures - 1 > 0 then consecutiveFailures - 1 else 0;
          requestsSinceFailure := 0;
        }
      }
    }
  }

  // ---------------------------------------------------------------- one call on the history

  /** What the store holds for a session when a call arrives: its fold, or a blank state. */
  ghost function Prior(limits: Limits, h: seq<Call>, id: string, now: Time): Entry {
    if Recent(limits, h, id) && now - Fold(Streak(limits, h, id)).lastAccess <= limits.ttl
    then Fold(Streak(limits, h, id))
    else BLANK
  }

  lemma FoldAppend(calls: seq<Call>, c: Call)
    ensures Fold(calls + [c]) == Touched(Fold(calls), c)
  {
    assert (calls + [c])[..|calls|] == calls;
  }

  lemma {:induction false} StreakMeaning(limits: Limits, h: seq<Call>, id: string)
    ensures Called(h, id) <==> Streak(limits, h, id) != []
    ensures Called(h, id) ==> Fold(Streak(limits, h, id)).lastAccess == Last(Streak(limits, h, id)).now
    decreases |h|
  {
    if h != [] {
      StreakMeaning(limits, Earlier(h), id);
      CalledStep(h, id);
      if Last(h).id == id {
        FoldAppend(Streak(limits, Earlier(h), id), Last(h));
        FoldAppend([], Last(h));
        assert [] + [Last(h)] == [Last(h)];
      }
    }
  }

  lemma CallExtends(limits: Limits, h: seq<Call>, c: Call)
    ensures Earlier(h + [c]) == h && Last(h + [c]) == c
    ensures TouchOrder(h + [c]) == Without(TouchOrder(h), c.id) + [c.id]
    ensures Fold(Streak(limits, h + [c], c.id)) == Touched(Prior(limits, h, c.id, c.now), c)
  {
    assert Earlier(h + [c]) == h;
    StreakMeaning(limits, h, c.id);
    FoldAppend(Streak(limits, h, c.id), c);
    FoldAppend([], c);
    assert [] + [c] == [c];
  }

  lemma OthersKeepTheirStreak(limits: Limits, h: seq<Call>, c: Call, id: string)
    requires id != c.id
    ensures Streak(limits, h + [c], id) == Streak(limits, h, id)
  {
    assert Earlier(h + [c]) == h && Last(h + [c]) == c;
  }

  // ------------------------------------------------------------------------------ the store

  class SessionStateStore {
    const ttl: Time
    const capacity: nat
    var items: map<string, SessionState>

    /** The order in which the dictionary keeps its keys. */
    var order: seq<string>

    /** Every call that named a session, in order. */
    ghost var history: seq<Call>

    ghost var Repr: set<object>

    ghost function Bounds(): Limits {
      Limits(ttl, capacity)
    }

    /** One state object per key, none shared. */
    ghost predicate Shape()
      reads this
    {
      && this in Repr
      && items.Keys == Elements(order)
      && Unique(order)
      && (forall id | id in items :: items[id] in Repr)
      && (forall a, b | a in items && b in items && a != b :: items[a] != items[b])
    }

    /** The store holds exactly the most recently called ids, oldest first, and for each
        the fold of its own calls since its last break. */
    ghost predicate Valid()
      reads this, Repr
    {
      && capacity >= 1
      && Shape()
      && order == Newest(TouchOrder(history), capacity)
      && (forall id | id in items :: items[id].Value() == Fold(Streak(Bounds(), history, id)))
    }

    constructor (ttl: Time, capacity: nat)
      requires capacity >= 1
      ensures Valid() && fresh(Repr) && history == []
      ensures this.ttl == ttl && this.capacity == capacity
    {
      this.ttl := ttl;
      this.capacity := capacity;
      items, order, history, Repr := map[], [], [], {this};
    }

    /** The live entry, or a blank one, with its access refreshed. */
    method Fetch(id: string, now: Time) returns (state: SessionState)
      requires Valid()
      modifies Repr
      ensures Shape() && fresh(Repr - old(Repr)) && state in Repr
      ensures history == old(history) && items == old(items) && order == old(order)
      ensures state.Value() == Prior(Bounds(), history, id, now).(lastAccess := now)
      ensures forall x | x in items && x != id ::
        items[x] != state && items[x].Value() == Fold(Streak(Bounds(), history, x))
    {
      NewestAreRecent(Bounds(), history, id);
      ElementsMeaning(order);
      if id !in items || now - items[id].lastAccess > ttl {
        state := new SessionState();
        Repr := Repr + {state};
      } else {
        state := items[id];
      }
      state.lastAccess := now;
    }

    /** Insert the entry and move its key to the end. */
    method Place(id: string, state: SessionState)
      requires Shape() && state in Repr && forall x | x in items && x != id :: items[x] != state
      modifies this`items, this`order
      ensures Shape() && items == old(items)[id := state] && order == Without(old(order), id) + [id]
    {
      WithoutMeaning(order, id);
      UniqueAppend(Without(order, id), id);
      ElementsAppend(Without(order, id), id);
      items := items[id := state];
      order := Without(order, id) + [id];
    }

    /** `popitem(last=False)` */
    method EvictOne()
      requires Shape() && order != []
      modifies this`items, this`order
      ensures Shape() && order == old(order)[1..] && |items| == |old(items)| - 1
      ensures forall x | x in items :: x in old(items) && items[x] == old(items)[x]
      ensures forall x | x in order :: x in items
    {
      ElementsMeaning(order);
      ElementsMeaning(order[1..]);
      items := items - {order[0]};
      order := order[1..];
    }

    method EvictOldest()
      requires Shape() && capacity >= 1 && order != []
      modifies this`items, this`order
      ensures Shape() && order == Newest(old(order), capacity)
      ensures forall x | x in items :: x in old(items) && items[x] == old(items)[x]
    {
      hide Elements, Unique;
      ghost var full := order;
      assert |items| == |order| by { ItemsMatchOrder(); }
      assert full[0..] == full;
      while |items| > capacity
        invariant Shape() && 1 <= |items| == |order| <= |full| && order == full[|full| - |order|..]
        invariant order == full || |order| >= capacity
        invariant forall x | x in items :: x in old(items) && items[x] == old(items)[x]
        decreases |items|
      {
        EvictOne();
      }
    }

    lemma ItemsMatchOrder()
      requires Shape()
      ensures |items| == |order| && forall x :: x in items <==> x in order
    {
      ElementsMeaning(order);
      assert |items| == |items.Keys|;
    }

    lemma NewestKeepsLast(full: seq<string>, id: string)
      requires capacity >= 1
      ensures id in Newest(full + [id], capacity)
    {
      var newest := Newest(full + [id], capacity);
      assert newest[|newest| - 1] == id;
    }

    /** The live entry or a blank one, moved to the end; then evict from the front. */
    method Get(id: string, now: Time) returns (state: SessionState)
      requires Valid()
      modifies Repr
      ensures Shape() && fresh(Repr - old(Repr)) && history == old(history)
      ensures order == Newest(Without(TouchOrder(history), id) + [id], capacity)
      ensures id in items && items[id] == state
      ensures state.Value() == Prior(Bounds(), history, id, now).(lastAccess := now)
      ensures forall x | x in items && x != id :: items[x].Value() == Fold(Streak(Bounds(), history, x))
    {
      hide Elements, Unique, Prior, Streak, Fold, Without, TouchOrder;
      state := Fetch(id, now);
      Place(id, state);
      assert Newest(order, capacity) == Newest(Without(TouchOrder(history), id) + [id], capacity) by {
        TouchOrderMeaning(history);
        NewestAfterTouch(TouchOrder(history), id, capacity);
      }
      NewestKeepsLast(Without(TouchOrder(history), id), id);
      EvictOldest();
      ItemsMatchOrder();
    }

    /** A copy of the current state; None for an absent or empty session id. */
    method Snapshot(id: Option<string>, now: Time) returns (copy: Option<Entry>)
      requires Valid()
      modifies Repr
      ensures Valid() && fresh(Repr - old(Repr))
      ensures id.None? || id.value == "" ==> copy == None && history == old(history)
      ensures id.Some? && id.value != "" ==>
        && history == old(history) + [Call(id.value, now, None)]
        && copy == Some(Fold(Streak(Bounds(), history, id.value)))
    {
      if id.None? || id.value == "" {
        return None;
      }
      var state := Get(id.value, now);
      copy := Some(state.Value());
      NoteCall(Call(id.value, now, None));
    }

    /** The fields that the routing kernel consumes. */
    method RoutingSnapshot(id: Option<string>, now: Time) returns (snapshot: Option<SessionSnapshot>)
      requires Valid()
      modifies Repr
      ensures Valid() && fresh(Repr - old(Repr))
      ensures id.None? || id.value == "" ==> snapshot == None && history == old(history)
      ensures id.Some? && id.value != "" ==>
        && history == old(history) + [Call(id.value, now, None)]
        && var e := Fold(Streak(Bounds(), history, id.value));
           snapshot == Some(SessionSnapshot(e.lastTier, e.lastOutcome, e.consecutiveFailures, e.requestsSinceFailure))
    {
      var copy := Snapshot(id, now);
      if copy.None? {
        return None;
      }
      var e := copy.value;
      return Some(SessionSnapshot(e.lastTier, e.lastOutcome, e.consecutiveFailures, e.requestsSinceFailure));
    }

    /** Update failure escalation after a completed request. */
    method Record(id: Option<string>, now: Time, tier: Tier, outcome: OutcomeSignal)
      requires Valid()
      modifies Repr
      ensures Valid() && fresh(Repr - old(Repr))
      ensures history == old(history) +
        if id.None? || id.value == "" then [] else [Call(id.value, now, Some((tier, outcome)))]
    {
      if id.None? || id.value == "" {
        return;
      }
      var state := Get(id.value, now);
      state.Report(tier, outcome);
      NoteCall(Call(id.value, now, Some((tier, outcome))));
    }

    /** Extend the history by the call whose effect the fields already show. */
    ghost method NoteCall(c: Call)
      requires Shape() && capacity >= 1
      requires order == Newest(Without(TouchOrder(history), c.id) + [c.id], capacity)
      requires c.id in items && items[c.id].Value() == Touched(Prior(Bounds(), history, c.id, c.now), c)
      requires forall x | x in items && x != c.id :: items[x].Value() == Fold(Streak(Bounds(), history, x))
      modifies this`history
      ensures Valid() && history == old(history) + [c]
    {
      CallExtends(Bounds(), history, c);
      forall x | x in items && x != c.id
        ensures Streak(Bounds(), history + [c], x) == Streak(Bounds(), history, x)
      {
        OthersKeepTheirStreak(Bounds(), history, c, x);
      }
      history := history + [c];
    }
  }
}
