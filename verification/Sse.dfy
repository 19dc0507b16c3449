/** Event framing of a byte stream: LF LF and CRLF CRLF delimiters (execution/streaming.py). */
module Sse {
  import opened Prelude

  newtype Byte = x: int | 0 <= x < 256

  type Bytes = seq<Byte>

  const LF: Byte := 10
  const CR: Byte := 13

  // ---------------------------------------------------------------- delimiters

  predicate LfLfAt(b: Bytes, i: nat) {
    i + 2 <= |b| && b[i] == LF && b[i + 1] == LF
  }

  predicate CrlfCrlfAt(b: Bytes, i: nat) {
    i + 4 <= |b| && b[i] == CR && b[i + 1] == LF && b[i + 2] == CR && b[i + 3] == LF
  }

  /** `bytes.find`, from one position on. */
  function Find(b: Bytes, at: (Bytes, nat) -> bool, start: nat): (r: Option<nat>)
    requires start <= |b|
    ensures r.Some? ==> start <= r.value < |b| && at(b, r.value) && forall i | start <= i < r.value :: !at(b, i)
    ensures r.None? ==> forall i | start <= i < |b| :: !at(b, i)
    decreases |b| - start
  {
    if start == |b| then None
    else if at(b, start) then Some(start)
    else Find(b, at, start + 1)
  }

  /** The earliest supported delimiter: its position and length. */
  function Delimiter(b: Bytes): Option<(nat, nat)> {
    var lf, crlf := Find(b, LfLfAt, 0), Find(b, CrlfCrlfAt, 0);
    if lf.None? && crlf.None? then None
    else if crlf.None? || (lf.Some? && lf.value < crlf.value) then Some((lf.value, 2))
    else Some((crlf.value, 4))
  }

  /** A delimiter ends at offset e. */
  predicate EndsAt(b: Bytes, e: nat) {
    (2 <= e && LfLfAt(b, e - 2)) || (4 <= e && CrlfCrlfAt(b, e - 4))
  }

  /** The end of the earliest delimiter, where the first event is cut off. */
  function Cut(b: Bytes): (e: Option<nat>)
    ensures e.Some? ==> 2 <= e.value <= |b|
  {
    var d := Delimiter(b);
    if d.None? then None else Some(d.value.0 + d.value.1)
  }

  /** No two delimiters overlap, so the one that starts first is also the one that ends first. */
  lemma CutIsEarliestEnd(b: Bytes)
    ensures Cut(b).Some? ==> EndsAt(b, Cut(b).value) && forall e | 0 <= e < Cut(b).value :: !EndsAt(b, e)
    ensures Cut(b).None? ==> forall e | 0 <= e <= |b| :: !EndsAt(b, e)
  {
    var lf, crlf := Find(b, LfLfAt, 0), Find(b, CrlfCrlfAt, 0);
    forall e | 0 <= e <= |b| && EndsAt(b, e)
      ensures Cut(b).Some? && Cut(b).value <= e
    {
      if 2 <= e && LfLfAt(b, e - 2) {
        assert lf.Some? && lf.value <= e - 2;
      } else {
        assert CrlfCrlfAt(b, e - 4);
        assert crlf.Some? && crlf.value <= e - 4;
      }
    }
  }

  /** Later bytes never move the first cut. */
  lemma CutIsStable(b: Bytes, c: Bytes)
    requires Cut(b).Some?
    ensures Cut(b + c) == Cut(b)
  {
    CutIsEarliestEnd(b);
    CutIsEarliestEnd(b + c);
    assert forall e | 0 <= e <= |b| :: EndsAt(b, e) == EndsAt(b + c, e);
  }

  // ------------------------------------------------------------------- framing

  /** All complete events, delimiters included, and the bytes after the last one. */
  function Drain(b: Bytes): (seq<Bytes>, Bytes)
    decreases |b|
  {
    var e := Cut(b);
    if e.None? then ([], b)
    else
      var rest := Drain(b[e.value..]);
      ([b[..e.value]] + rest.0, rest.1)
  }

  function Flatten(parts: seq<Bytes>): Bytes {
    if parts == [] then [] else parts[0] + Flatten(parts[1..])
  }

  lemma {:induction false} FlattenConcat(xs: seq<Bytes>, ys: seq<Bytes>)
    ensures Flatten(xs + ys) == Flatten(xs) + Flatten(ys)
  {
    if xs == [] {
      assert xs + ys == ys;
    } else {
      assert (xs + ys)[0] == xs[0] && (xs + ys)[1..] == xs[1..] + ys;
      FlattenConcat(xs[1..], ys);
      ConcatAssociates(xs[0], Flatten(xs[1..]), Flatten(ys));
    }
  }

  lemma FlattenOne(x: Bytes)
    ensures Flatten([x]) == x
  {}

  /** An event: its only delimiter is its end. */
  predicate IsEvent(b: Bytes) {
    Cut(b) == Some(|b|)
  }

  /** A division of a stream into events and a tail that holds no delimiter. */
  ghost predicate Framing(b: Bytes, events: seq<Bytes>, tail: Bytes) {
    && b == Flatten(events) + tail
    && (forall i | 0 <= i < |events| :: IsEvent(events[i]))
    && Cut(tail).None?
  }

  lemma CutOffIsEvent(b: Bytes)
    requires Cut(b).Some?
    ensures IsEvent(b[..Cut(b).value])
  {
    var e := Cut(b).value;
    var p := b[..e];
    CutIsEarliestEnd(b);
    CutIsEarliestEnd(p);
    assert forall k | 0 <= k <= e :: EndsAt(p, k) == EndsAt(b, k);
  }

  lemma {:induction false} DrainFrames(b: Bytes)
    ensures Framing(b, Drain(b).0, Drain(b).1)
    decreases |b|
  {
    var e := Cut(b);
    if e.Some? {
      CutOffIsEvent(b);
      DrainFrames(b[e.value..]);
      assert b == b[..e.value] + b[e.value..];
      assert Drain(b).0[1..] == Drain(b[e.value..]).0;
    }
  }

  /** The first event of a framing is what the first cut cuts off. */
  lemma FramingPeels(b: Bytes, events: seq<Bytes>, tail: Bytes)
    requires Framing(b, events, tail) && events != []
    ensures Cut(b) == Some(|events[0]|) && b[..|events[0]|] == events[0]
    ensures Framing(b[|events[0]|..], events[1..], tail)
  {
    var first, rest := events[0], Flatten(events[1..]) + tail;
    assert b == first + rest by {
      ConcatAssociates(first, Flatten(events[1..]), tail);
    }
    CutIsStable(first, rest);
    assert b[..|first|] == first && b[|first|..] == rest;
    assert forall i | 0 <= i < |events[1..]| :: events[1..][i] == events[i + 1];
  }

  /** Every stream has exactly one framing, and Drain finds it. */
  lemma {:induction false} FramingIsUnique(b: Bytes, events: seq<Bytes>, tail: Bytes)
    ensures Framing(b, events, tail) <==> Drain(b) == (events, tail)
    decreases |events|
  {
    DrainFrames(b);
    if Framing(b, events, tail) && events == [] {
      assert b == tail;
    } else if Framing(b, events, tail) {
      FramingPeels(b, events, tail);
      hide Framing, Flatten, Cut;
      FramingIsUnique(b[|events[0]|..], events[1..], tail);
      assert [events[0]] + events[1..] == events;
    }
  }

  lemma FramingAppends(b: Bytes, c: Bytes, events: seq<Bytes>, tail: Bytes, later: seq<Bytes>, end: Bytes)
    requires Framing(b, events, tail) && Framing(tail + c, later, end)
    ensures Framing(b + c, events + later, end)
  {
    FlattenConcat(events, later);
    ConcatAssociates(Flatten(events), tail, c);
    ConcatAssociates(Flatten(events), Flatten(later), end);
  }

  lemma DrainedIs(b: Bytes, events: seq<Bytes>, tail: Bytes)
    requires Framing(b, events, tail)
    ensures Drain(b) == (events, tail)
  {
    FramingIsUnique(b, events, tail);
  }

  /** Draining is incremental: a stream may be drained piece by piece, carrying the tail. */
  lemma DrainIsIncremental(b: Bytes, c: Bytes)
    ensures Drain(b + c) == (Drain(b).0 + Drain(Drain(b).1 + c).0, Drain(Drain(b).1 + c).1)
  {
    var front := Drain(b);
    var back := Drain(front.1 + c);
    assert Framing(b, front.0, front.1) by { DrainFrames(b); }
    assert Framing(front.1 + c, back.0, back.1) by { DrainFrames(front.1 + c); }
    FramingAppends(b, c, front.0, front.1, back.0, back.1);
    DrainedIs(b + c, front.0 + back.0, back.1);
  }
}
