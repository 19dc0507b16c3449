/**
 What a session store must hold, told by the calls alone: no eviction loop,
 no map, only which calls were made and when.
 */
module SessionHistory {
  import opened Prelude
  import opened Domain

  /** One call with a session id: a snapshot, or the report of a completed request. */
  datatype Call = Call(id: string, now: Time, report: Option<(Tier, OutcomeSignal)>)

  datatype Entry = Entry(
    lastTier: Tier,
    lastOutcome: OutcomeSignal,
    consecutiveFailures: int,
    requestsSinceFailure: int,
    lastAccess: Time)

  const BLANK := Entry(Balanced, SignalUnknown, 0, 0, 0.0)

  datatype Limits = Limits(ttl: Time, capacity: nat)

  // ------------------------------------------------------------- the fold of one session

  function Escalate(e: Entry, tier: Tier, outcome: OutcomeSignal): Entry {
    var e := e.(lastTier := tier, lastOutcome := outcome);
    match outcome
    case SignalFailure => e.(consecutiveFailures := e.consecutiveFailures + 1, requestsSinceFailure := 0)
    case SignalSuccess => e.(consecutiveFailures := 0, requestsSinceFailure := 0)
    case SignalUnknown =>
      if e.requestsSinceFailure + 1 >= 2
      then e.(
        consecutiveFailures := if e.consecutiveFailures > 1 then e.consecutiveFailures - 1 else 0,
        requestsSinceFailure := 0)
      else e.(requestsSinceFailure := e.requestsSinceFailure + 1)
  }

  function Touched(e: Entry, call: Call): Entry {
    var e := e.(lastAccess := call.now);
    if call.report.Some? then Escalate(e, call.report.value.0, call.report.value.1) else e
  }

  /** The state of a session all of whose calls are these. */
  function Fold(calls: seq<Call>): Entry {
    if calls == [] then BLANK else Touched(Fold(calls[..|calls| - 1]), calls[|calls| - 1])
  }

  // --------------------------------------------------------------- recency and breaks

  function Earlier(h: seq<Call>): seq<Call>
    requires h != []
  {
    h[..|h| - 1]
  }

  function Last(h: seq<Call>): Call
    requires h != []
  {
    h[|h| - 1]
  }

  /** The distinct ids called after the last call of this one. */
  function After(h: seq<Call>, id: string): set<string>
    decreases |h|
  {
    if h == [] || Last(h).id == id then {} else After(Earlier(h), id) + {Last(h).id}
  }

  predicate Called(h: seq<Call>, id: string) {
    exists i :: 0 <= i < |h| && h[i].id == id
  }

  /** Among the `capacity` most recently called ids. */
  predicate Recent(limits: Limits, h: seq<Call>, id: string) {
    Called(h, id) && |After(h, id)| < limits.capacity
  }

  /** The calls of one session since its last break: a gap longer than the ttl, or so many
      other ids in between that it was no longer among the most recent. */
  function Streak(limits: Limits, h: seq<Call>, id: string): seq<Call>
    decreases |h|
  {
    if h == [] then []
    else
      var earlier := Streak(limits, Earlier(h), id);
      if Last(h).id != id then earlier
      else if Recent(limits, Earlier(h), id) && earlier != [] && Last(h).now - Last(earlier).now <= limits.ttl
      then earlier + [Last(h)]
      else [Last(h)]
  }

  // ----------------------------------------------------------------------- touch order

  function Without(order: seq<string>, id: string): seq<string> {
    if order == [] then []
    else if order[0] == id then order[1..]
    else [order[0]] + Without(order[1..], id)
  }

  /** All ids ever called, by last call, oldest first. */
  function TouchOrder(h: seq<Call>): seq<string>
    decreases |h|
  {
    if h == [] then [] else Without(TouchOrder(Earlier(h)), Last(h).id) + [Last(h).id]
  }

  function Newest(order: seq<string>, n: nat): seq<string> {
    if |order| <= n then order else order[|order| - n..]
  }

  predicate Unique(order: seq<string>) {
    order == [] || (order[0] !in order[1..] && Unique(order[1..]))
  }

  function Elements(order: seq<string>): set<string> {
    if order == [] then {} else {order[0]} + Elements(order[1..])
  }

  lemma {:induction false} ElementsMeaning(order: seq<string>)
    ensures forall x :: x in Elements(order) <==> x in order
    ensures Unique(order) ==> |Elements(order)| == |order|
  {
    if order != [] {
      ElementsMeaning(order[1..]);
      assert order == [order[0]] + order[1..];
    }
  }

  lemma {:induction false} ElementsAppend(order: seq<string>, x: string)
    ensures Elements(order + [x]) == Elements(order) + {x}
  {
    if order == [] {
      assert [x][1..] == [];
    } else {
      ElementsAppend(order[1..], x);
      assert (order + [x])[1..] == order[1..] + [x];
    }
  }

  /** What lies behind one id in a list. */
  function Behind(order: seq<string>, id: string): set<string> {
    if order == [] then {}
    else if order[0] == id then Elements(order[1..])
    else Behind(order[1..], id)
  }

  lemma ElementsCons(x: string, order: seq<string>)
    ensures Elements([x] + order) == {x} + Elements(order)
    ensures Unique([x] + order) <==> x !in order && Unique(order)
  {
    assert ([x] + order)[1..] == order;
  }

  lemma {:induction false} WithoutElements(order: seq<string>, id: string)
    requires Unique(order)
    ensures Elements(Without(order, id)) == Elements(order) - {id}
  {
    if order != [] {
      var rest := order[1..];
      if order[0] == id {
        ElementsMeaning(rest);
      } else {
        WithoutElements(rest, id);
        ElementsCons(order[0], Without(rest, id));
      }
    }
  }

  lemma {:induction false} WithoutUnique(order: seq<string>, id: string)
    requires Unique(order)
    ensures Unique(Without(order, id))
  {
    if order != [] && order[0] != id {
      var rest := order[1..];
      WithoutUnique(rest, id);
      WithoutElements(rest, id);
      ElementsMeaning(rest);
      ElementsMeaning(Without(rest, id));
      ElementsCons(order[0], Without(rest, id));
    }
  }

  lemma WithoutMeaning(order: seq<string>, id: string)
    requires Unique(order)
    ensures Elements(Without(order, id)) == Elements(order) - {id}
    ensures Unique(Without(order, id)) && id !in Without(order, id)
  {
    WithoutElements(order, id);
    WithoutUnique(order, id);
    ElementsMeaning(Without(order, id));
  }

  lemma {:induction false} UniqueAppend(order: seq<string>, x: string)
    requires Unique(order) && x !in order
    ensures Unique(order + [x])
  {
    if order == [] {
      assert [x][1..] == [];
    } else {
      UniqueAppend(order[1..], x);
      assert (order + [x])[1..] == order[1..] + [x];
    }
  }

  /** Moving another id to the end adds it to what lies behind. */
  lemma {:induction false} BehindAfterTouch(order: seq<string>, id: string, moved: string)
    requires Unique(order) && id in order && moved != id
    ensures Behind(Without(order, moved) + [moved], id) == Behind(order, id) + {moved}
  {
    var rest, end := order[1..], [moved];
    assert order == [order[0]] + rest;
    if order[0] == id {
      assert Without(order, moved) + end == [id] + (Without(rest, moved) + end);
      WithoutMeaning(rest, moved);
      ElementsAppend(Without(rest, moved), moved);
    } else if order[0] == moved {
      BehindAppend(rest, id, moved);
    } else {
      assert Without(order, moved) + end == [order[0]] + (Without(rest, moved) + end);
      BehindAfterTouch(rest, id, moved);
    }
  }

  lemma {:induction false} BehindAppend(order: seq<string>, id: string, x: string)
    requires id in order
    ensures Behind(order + [x], id) == Behind(order, id) + {x}
  {
    assert (order + [x])[1..] == order[1..] + [x];
    if order[0] == id {
      ElementsAppend(order[1..], x);
    } else {
      assert order == [order[0]] + order[1..];
      BehindAppend(order[1..], id, x);
    }
  }

  lemma {:induction false} BehindLast(order: seq<string>, id: string)
    requires id !in order
    ensures Behind(order + [id], id) == {}
  {
    assert (order + [id])[1..] == if order == [] then [] else order[1..] + [id];
    if order != [] {
      BehindLast(order[1..], id);
    }
  }

  /** The touch order lists exactly the called ids, once each, and behind each one exactly
      the ids called since. */
  lemma {:induction false} TouchOrderMeaning(h: seq<Call>)
    ensures Unique(TouchOrder(h))
    ensures forall id :: id in TouchOrder(h) <==> Called(h, id)
    ensures forall id | Called(h, id) :: Behind(TouchOrder(h), id) == After(h, id)
    decreases |h|
  {
    if h != [] {
      var before, last := TouchOrder(Earlier(h)), Last(h).id;
      TouchOrderMeaning(Earlier(h));
      WithoutMeaning(before, last);
      UniqueAppend(Without(before, last), last);
      ElementsMeaning(before);
      ElementsMeaning(Without(before, last));
      forall id
        ensures id in TouchOrder(h) <==> Called(h, id)
        ensures Called(h, id) ==> Behind(TouchOrder(h), id) == After(h, id)
      {
        CalledStep(h, id);
        if id == last {
          BehindLast(Without(before, last), id);
        } else if id in before {
          BehindAfterTouch(before, id, last);
        }
      }
    }
  }

  lemma CalledStep(h: seq<Call>, id: string)
    requires h != []
    ensures Called(h, id) <==> Called(Earlier(h), id) || id == Last(h).id
  {
    if Called(Earlier(h), id) {
      var i :| 0 <= i < |Earlier(h)| && Earlier(h)[i].id == id;
      assert h[i].id == id;
    }
    if Called(h, id) {
      var i :| 0 <= i < |h| && h[i].id == id;
      assert i < |Earlier(h)| ==> Earlier(h)[i].id == id;
    }
    if id == Last(h).id {
      assert h[|h| - 1].id == id;
    }
  }

  /** An id is among the newest n of a list iff fewer than n lie behind it. */
  lemma {:induction false} NewestMeaning(order: seq<string>, id: string, n: nat)
    requires Unique(order)
    ensures id in Newest(order, n) <==> id in order && |Behind(order, id)| < n
  {
    if id !in order {
    } else if |order| <= n {
      BehindIsLess(order, id);
    } else {
      var rest := order[1..];
      assert Newest(order, n) == Newest(rest, n) && order == [order[0]] + rest;
      NewestMeaning(rest, id, n);
      ElementsMeaning(rest);
    }
  }

  lemma {:induction false} BehindIsLess(order: seq<string>, id: string)
    requires Unique(order) && id in order
    ensures |Behind(order, id)| < |order|
  {
    ElementsMeaning(order[1..]);
    if order[0] != id {
      assert order == [order[0]] + order[1..];
      BehindIsLess(order[1..], id);
    }
  }

  /** The newest ids of the touch order are those with fewer than n others called since. */
  lemma NewestAreRecent(limits: Limits, h: seq<Call>, id: string)
    ensures id in Newest(TouchOrder(h), limits.capacity) <==> Recent(limits, h, id)
  {
    TouchOrderMeaning(h);
    NewestMeaning(TouchOrder(h), id, limits.capacity);
  }

  lemma NewestDropsHead(x: string, order: seq<string>, n: nat)
    requires |order| >= n
    ensures Newest([x] + order, n) == Newest(order, n)
  {}

  lemma TouchCons(x: string, order: seq<string>, id: string)
    requires x != id
    ensures Without([x] + order, id) + [id] == [x] + (Without(order, id) + [id])
  {
    assert ([x] + order)[1..] == order;
  }

  /** Keeping only the newest n commutes with a touch, so a bounded store never needs to
      know what it evicted. */
  lemma {:induction false} NewestAfterTouch(order: seq<string>, id: string, n: nat)
    requires Unique(order) && n >= 1
    ensures Newest(Without(Newest(order, n), id) + [id], n) == Newest(Without(order, id) + [id], n)
  {
    if |order| > n {
      var x, rest := order[0], order[1..];
      assert order == [x] + rest;
      NewestAfterTouch(rest, id, n);
      NewestDropsHead(x, rest, n);
      LengthWithout(rest, id);
      hide Newest;
      if x == id {
        NotThere(rest, id);
      } else {
        TouchCons(x, rest, id);
        NewestDropsHead(x, Without(rest, id) + [id], n);
      }
    }
  }

  lemma {:induction false} LengthWithout(order: seq<string>, id: string)
    ensures |Without(order, id)| == |order| - if id in order then 1 else 0
  {
    if order != [] {
      assert order == [order[0]] + order[1..];
      LengthWithout(order[1..], id);
    }
  }

  lemma {:induction false} NotThere(order: seq<string>, id: string)
    requires id !in order
    ensures Without(order, id) == order
  {
    if order != [] {
      NotThere(order[1..], id);
    }
  }

  // -------------------------------------------------------------------- what a streak is

  function OwnCalls(h: seq<Call>, id: string): seq<Call>
    decreases |h|
  {
    if h == [] then [] else OwnCalls(Earlier(h), id) + if Last(h).id == id then [Last(h)] else []
  }

  /** A streak is a gap-free tail of the session's own calls. */
  lemma {:induction false} StreakIsTail(limits: Limits, h: seq<Call>, id: string)
    ensures |Streak(limits, h, id)| <= |OwnCalls(h, id)|
    ensures Streak(limits, h, id) == OwnCalls(h, id)[|OwnCalls(h, id)| - |Streak(limits, h, id)|..]
    ensures forall i | 0 <= i < |Streak(limits, h, id)| - 1 ::
      Streak(limits, h, id)[i + 1].now - Streak(limits, h, id)[i].now <= limits.ttl
    decreases |h|
  {
    if h != [] {
      StreakIsTail(limits, Earlier(h), id);
    }
  }

  /** Failures reported since the last success. */
  function FailuresSinceSuccess(calls: seq<Call>): nat {
    if calls == [] then 0
    else
      var before, last := FailuresSinceSuccess(calls[..|calls| - 1]), calls[|calls| - 1].report;
      if last.None? || last.value.1 == SignalUnknown then before
      else if last.value.1 == SignalSuccess then 0
      else before + 1
  }

  /** Escalation only ever decays: the failure count is never negative, never exceeds the
      failures reported since the last success, and at most one unknown outcome is pending. */
  lemma {:induction false} EscalationIsBounded(calls: seq<Call>)
    ensures 0 <= Fold(calls).consecutiveFailures <= FailuresSinceSuccess(calls)
    ensures 0 <= Fold(calls).requestsSinceFailure <= 1
    decreases |calls|
  {
    if calls != [] {
      EscalationIsBounded(calls[..|calls| - 1]);
    }
  }
}
