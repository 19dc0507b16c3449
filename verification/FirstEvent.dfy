/** Reading the first event of a stream before it is committed (read_first_event). */
module FirstEvent {
  import opened Prelude
  import opened Domain
  import opened Failures
  import opened Sse

  /** How an upstream body that yields no more chunks ends. */
  datatype Ending = EndOfBody | BodyRaised(error: RouterError) | BodyBroke

  datatype Body = Body(chunks: seq<Bytes>, ending: Ending)

  const WHITESPACE: set<Byte> := {9, 10, 11, 12, 13, 32}

  /** `not event.strip()` */
  predicate Blank(event: Bytes) {
    forall i | 0 <= i < |event| :: event[i] in WHITESPACE
  }

  function EndingError(ending: Ending): RouterError {
    match ending
    case EndOfBody => EmptyStream()
    case BodyRaised(error) => error
    case BodyBroke => ReadFailed()
  }

  datatype Opening = Opening(first: Bytes, remainder: Bytes)

  /** The stream so far starts with a complete event that can be committed. */
  predicate Opens(stream: Bytes) {
    Cut(stream).Some? && !Blank(stream[..Cut(stream).value])
  }

  lemma FlattenPrefix(chunks: seq<Bytes>, k: nat)
    requires k < |chunks|
    ensures Flatten(chunks[..k + 1]) == Flatten(chunks[..k]) + chunks[k]
  {
    assert chunks[..k] + [chunks[k]] == chunks[..k + 1];
    FlattenConcat(chunks[..k], [chunks[k]]);
    FlattenOne(chunks[k]);
  }

  function CutOpening(stream: Bytes): Opening
    requires Opens(stream)
  {
    Opening(stream[..Cut(stream).value], stream[Cut(stream).value..])
  }

  /** What reading from chunk k on yields: the opening and how many chunks it took. */
  function FirstOpening(body: Body, k: nat): Result<(Opening, nat), RouterError>
    requires k <= |body.chunks|
    decreases |body.chunks| - k
  {
    if Opens(Flatten(body.chunks[..k])) then Ok((CutOpening(Flatten(body.chunks[..k])), k))
    else if k == |body.chunks| then Err(EndingError(body.ending))
    else FirstOpening(body, k + 1)
  }

  /** On success the chunks taken are the fewest whose bytes open the stream, and first and
      remainder are exactly those bytes, cut after the first event. */
  lemma {:induction false} FirstOpeningMeaning(body: Body, k: nat)
    requires k <= |body.chunks|
    ensures match FirstOpening(body, k)
      case Ok((o, taken)) =>
        && k <= taken <= |body.chunks|
        && (forall j | k <= j < taken :: !Opens(Flatten(body.chunks[..j])))
        && Opens(Flatten(body.chunks[..taken]))
        && o.first + o.remainder == Flatten(body.chunks[..taken])
        && IsEvent(o.first) && !Blank(o.first)
      case Err(error) =>
        && error == EndingError(body.ending)
        && (forall j | k <= j <= |body.chunks| :: !Opens(Flatten(body.chunks[..j])))
    decreases |body.chunks| - k
  {
    hide Opens, Blank, Flatten, IsEvent;
    if Opens(Flatten(body.chunks[..k])) {
      CutOpeningMeaning(Flatten(body.chunks[..k]));
    } else if k < |body.chunks| {
      FirstOpeningMeaning(body, k + 1);
    }
  }

  lemma CutOpeningMeaning(stream: Bytes)
    requires Opens(stream)
    ensures var o := CutOpening(stream);
      o.first + o.remainder == stream && IsEvent(o.first) && !Blank(o.first)
  {
    CutOffIsEvent(stream);
  }

  method ReadFirstEvent(body: Body) returns (r: Result<Opening, RouterError>, taken: nat)
    ensures FirstOpening(body, 0) == if r.Ok? then Ok((r.value, taken)) else Err(r.error)
  {
    var buffer: Bytes := [];
    taken := 0;
    assert body.chunks[..0] == [] && Flatten([]) == [] && !Opens([]);
    while taken < |body.chunks|
      invariant taken <= |body.chunks|
      invariant buffer == Flatten(body.chunks[..taken]) && !Opens(buffer)
      invariant FirstOpening(body, 0) == FirstOpening(body, taken)
    {
      FlattenPrefix(body.chunks, taken);
      buffer := buffer + body.chunks[taken];
      taken := taken + 1;
      var found := Delimiter(buffer);
      if found.Some? {
        var end := Cut(buffer).value;
        var first, remainder := buffer[..end], buffer[end..];
        if !Blank(first) {
          return Ok(Opening(first, remainder)), taken;
        }
      }
    }
    return Err(EndingError(body.ending)), taken;
  }

  // ---------------------------------------------------------------------------- theorems

  lemma {:induction false} PrefixBytes(chunks: seq<Bytes>, k: nat)
    requires k <= |chunks|
    ensures Flatten(chunks) == Flatten(chunks[..k]) + Flatten(chunks[k..])
  {
    assert chunks == chunks[..k] + chunks[k..];
    FlattenConcat(chunks[..k], chunks[k..]);
  }

  /** Once a prefix has a complete event, blank or not, it stays the first one. */
  lemma OpeningIsStable(b: Bytes, c: Bytes)
    requires Cut(b).Some?
    ensures Opens(b + c) <==> Opens(b)
  {
    CutIsStable(b, c);
    assert (b + c)[..Cut(b).value] == b[..Cut(b).value];
  }

  /** Whether a stream can be committed depends only on its bytes: some prefix of the
      chunks opens it exactly when all of them do, exactly when the first event of the
      whole stream exists and is not blank. In particular no stream with a blank first
      event is ever committed, whatever follows it. */
  lemma CommittableExactly(chunks: seq<Bytes>)
    ensures (exists k :: 0 <= k <= |chunks| && Opens(Flatten(chunks[..k]))) <==> Opens(Flatten(chunks))
    ensures Opens(Flatten(chunks)) <==>
      Drain(Flatten(chunks)).0 != [] && !Blank(Drain(Flatten(chunks)).0[0])
  {
    assert chunks[..|chunks|] == chunks;
    forall k | 0 <= k <= |chunks| && Opens(Flatten(chunks[..k]))
      ensures Opens(Flatten(chunks))
    {
      PrefixBytes(chunks, k);
      OpeningIsStable(Flatten(chunks[..k]), Flatten(chunks[k..]));
    }
  }

  ghost predicate StartsWithEvent(stream: Bytes, event: Bytes) {
    Drain(stream).0 != [] && Drain(stream).0[0] == event
  }

  lemma DrainStartsWith(stream: Bytes, event: Bytes, rest: Bytes)
    requires IsEvent(event) && stream == event + rest
    ensures StartsWithEvent(stream, event)
  {
    CutIsStable(event, rest);
    assert (event + rest)[..|event|] == event;
  }

  /** The committed first event is the first event of the whole stream, however it is chunked. */
  lemma FirstEventIsOfTheStream(chunks: seq<Bytes>, taken: nat, o: Opening)
    requires taken <= |chunks|
    requires o.first + o.remainder == Flatten(chunks[..taken]) && IsEvent(o.first)
    ensures StartsWithEvent(Flatten(chunks), o.first)
  {
    var stream, rest := Flatten(chunks), o.remainder + Flatten(chunks[taken..]);
    PrefixBytes(chunks, taken);
    ConcatAssociates(o.first, o.remainder, Flatten(chunks[taken..]));
    DrainStartsWith(stream, o.first, rest);
  }

  /** A stream that starts with a blank line is never committed, whatever follows: reading
      it always ends in the error of its ending. */
  lemma LeadingBlankLineIsNeverTrimmed(body: Body, rest: Bytes)
    requires Flatten(body.chunks) == [LF, LF] + rest
    ensures !Opens(Flatten(body.chunks))
    ensures FirstOpening(body, 0) == Err(EndingError(body.ending))
  {
    var blank: Bytes := [LF, LF];
    assert LfLfAt(blank, 0);
    CutIsEarliestEnd(blank);
    CutIsStable(blank, rest);
    assert (blank + rest)[..2] == blank;
    CommittableExactly(body.chunks);
    NeverOpens(body, 0);
  }

  /** Whether a stream can be committed is decided by its first event: that some byte of it
      is none of the six that count as white space. */
  lemma FirstEventDecides(event: Bytes, rest: Bytes)
    requires IsEvent(event)
    ensures Opens(event + rest) <==> exists i :: 0 <= i < |event| && event[i] !in {9, 10, 11, 12, 13, 32}
  {
    CutIsStable(event, rest);
    assert (event + rest)[..|event|] == event;
  }

  lemma {:induction false} NeverOpens(body: Body, k: nat)
    requires k <= |body.chunks| && forall j | 0 <= j <= |body.chunks| :: !Opens(Flatten(body.chunks[..j]))
    ensures FirstOpening(body, k) == Err(EndingError(body.ending))
    decreases |body.chunks| - k
  {
    if k < |body.chunks| {
      NeverOpens(body, k + 1);
    }
  }
}
