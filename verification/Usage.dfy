/** Provider-reported token usage: normalisation and merging (observability/usage.py). */
module Usage {
  import opened Prelude
  import opened JsonValues

  datatype UsageStatus = Complete | Partial | Missing | Invalid | NotApplicable

  datatype UsageBreakdown = UsageBreakdown(
    status: UsageStatus,
    inputUncached: Option<nat>,
    inputCacheRead: Option<nat>,
    inputCacheWrite: Option<nat>,
    output: Option<nat>,
    reasoning: Option<nat>)
  {
    /** What construction demands; a breakdown without it cannot be built. */
    predicate Consistent() {
      reasoning.Some? && output.Some? ==> reasoning.value <= output.value
    }

    predicate Known() {
      inputUncached.Some? || inputCacheRead.Some? || inputCacheWrite.Some? || output.Some? || reasoning.Some?
    }
  }

  function Empty(status: UsageStatus): UsageBreakdown {
    UsageBreakdown(status, None, None, None, None, None)
  }

  // ------------------------------------------------------------------ normalisation

  /** The token under k; Err for a value that is not a non-negative integer. */
  function Token(f: Fields, k: string): Result<Option<nat>, CodecError> {
    if k !in f then Ok(None)
    else if f[k].JInt? && f[k].number >= 0 then Ok(Some(f[k].number))
    else Err(Incompatible)
  }

  const ANTHROPIC_SOURCES := ["input_tokens", "cache_read_input_tokens", "cache_creation_input_tokens", "output_tokens"]

  function NormalizedAnthropic(f: Fields): UsageBreakdown {
    if exists k | k in ANTHROPIC_SOURCES :: Token(f, k).Err? then Empty(Invalid)
    else
      var v := seq(4, i requires 0 <= i < 4 => Token(f, ANTHROPIC_SOURCES[i]).value);
      if forall i | 0 <= i < 4 :: v[i].None? then Empty(Missing)
      else UsageBreakdown(if v[0].Some? && v[3].Some? then Complete else Partial, v[0], v[1], v[2], v[3], None)
  }

  /** `usage` is None when the payload holds no usage object. */
  method NormalizeAnthropic(usage: Option<Fields>) returns (u: UsageBreakdown)
    ensures u == if usage.None? then Empty(Missing) else NormalizedAnthropic(usage.value)
  {
    if usage.None? {
      return Empty(Missing);
    }
    var values: seq<Option<nat>> := [];
    for i := 0 to 4
      invariant |values| == i
      invariant forall j | 0 <= j < i :: Token(usage.value, ANTHROPIC_SOURCES[j]) == Ok(values[j])
    {
      var token := Token(usage.value, ANTHROPIC_SOURCES[i]);
      if token.Err? {
        assert ANTHROPIC_SOURCES[i] in ANTHROPIC_SOURCES;
        return Empty(Invalid);
      }
      values := values + [token.value];
    }
    assert values == seq(4, i requires 0 <= i < 4 => Token(usage.value, ANTHROPIC_SOURCES[i]).value);
    if forall i | 0 <= i < 4 :: values[i].None? {
      return Empty(Missing);
    }
    return UsageBreakdown(if values[0].Some? && values[3].Some? then Complete else Partial,
                          values[0], values[1], values[2], values[3], None);
  }

  function Detail(f: Fields, k: string, detail: string): Result<Option<nat>, CodecError> {
    if k in f && f[k].JObject? then Token(f[k].fields, detail) else Ok(None)
  }

  function OpenAITokens(f: Fields): Result<(Option<nat>, Option<nat>, Option<nat>, Option<nat>), CodecError> {
    var total :- Token(f, "input_tokens");
    var cached :- Detail(f, "input_tokens_details", "cached_tokens");
    var output :- Token(f, "output_tokens");
    var reasoning :- Detail(f, "output_tokens_details", "reasoning_tokens");
    if total.Some? && cached.Some? && cached.value > total.value then Err(Incompatible)
    else if output.Some? && reasoning.Some? && reasoning.value > output.value then Err(Incompatible)
    else Ok((total, cached, output, reasoning))
  }

  function NormalizedOpenAI(f: Fields): UsageBreakdown {
    var tokens := OpenAITokens(f);
    if tokens.Err? then Empty(Invalid)
    else
      var (total, cached, output, reasoning) := tokens.value;
      var uncached := if total.Some? && cached.Some? then Some(total.value - cached.value) else total;
      if uncached.None? && cached.None? && output.None? && reasoning.None? then Empty(Missing)
      else
        var status := if total.Some? && output.Some? then Complete else Partial;
        UsageBreakdown(status, uncached, cached, None, output, reasoning)
  }

  /** Normalised usage can always be built, carries counters exactly when it is complete
      or partial, and splits the reported input without losing a token. */
  lemma NormalizationMeaning(f: Fields)
    ensures NormalizedAnthropic(f).Consistent() && NormalizedOpenAI(f).Consistent()
    ensures NormalizedAnthropic(f).Known() <==> NormalizedAnthropic(f).status in {Complete, Partial}
    ensures NormalizedOpenAI(f).Known() <==> NormalizedOpenAI(f).status in {Complete, Partial}
    ensures var u := NormalizedOpenAI(f);
      u.status == Complete ==>
        f["input_tokens"] == JInt(u.inputUncached.value + if u.inputCacheRead.Some? then u.inputCacheRead.value else 0)
        && f["output_tokens"] == JInt(u.output.value)
  {
    var v := seq(4, i requires 0 <= i < 4 => Token(f, ANTHROPIC_SOURCES[i]));
    assert v[0] == Token(f, ANTHROPIC_SOURCES[0]) && v[3] == Token(f, ANTHROPIC_SOURCES[3]);
  }

  // ------------------------------------------------------------------------ merging

  function Later(earlier: Option<nat>, later: Option<nat>): Option<nat> {
    if later.Some? then later else earlier
  }

  function Overlay(current: UsageBreakdown, fragment: UsageBreakdown): UsageBreakdown {
    var values := UsageBreakdown(
      Missing,
      Later(current.inputUncached, fragment.inputUncached),
      Later(current.inputCacheRead, fragment.inputCacheRead),
      Later(current.inputCacheWrite, fragment.inputCacheWrite),
      Later(current.output, fragment.output),
      Later(current.reasoning, fragment.reasoning));
    values.(status :=
      if current.status == Complete || fragment.status == Complete then Complete
      else if values.Known() then Partial
      else Missing)
  }

  /** merge_usage; None stands for its ValueError. */
  function MergeUsage(current: UsageBreakdown, fragment: UsageBreakdown): Option<UsageBreakdown> {
    if fragment.status == Invalid then Some(fragment)
    else
      var merged := Overlay(current, fragment);
      if merged.Consistent() then Some(merged) else None
  }

  /** Usage after a list of fragments, from a missing observation. */
  function MergeAll(fragments: seq<UsageBreakdown>): Option<UsageBreakdown> {
    if fragments == [] then Some(Empty(Missing))
    else
      var before := MergeAll(fragments[..|fragments| - 1]);
      if before.None? then None else MergeUsage(before.value, fragments[|fragments| - 1])
  }

  /** The fragments that still matter: from the last invalid one on. */
  function Relevant(fragments: seq<UsageBreakdown>): seq<UsageBreakdown> {
    if fragments == [] then []
    else
      var last := fragments[|fragments| - 1];
      if last.status == Invalid then [last] else Relevant(fragments[..|fragments| - 1]) + [last]
  }

  /** The latest value a counter was reported with. */
  function Latest(fragments: seq<UsageBreakdown>, counter: UsageBreakdown -> Option<nat>): Option<nat> {
    if fragments == [] then None
    else if counter(fragments[|fragments| - 1]).Some? then counter(fragments[|fragments| - 1])
    else Latest(fragments[..|fragments| - 1], counter)
  }

  function LatestOf(fragments: seq<UsageBreakdown>): UsageBreakdown {
    UsageBreakdown(
      Missing,
      Latest(fragments, (u: UsageBreakdown) => u.inputUncached),
      Latest(fragments, (u: UsageBreakdown) => u.inputCacheRead),
      Latest(fragments, (u: UsageBreakdown) => u.inputCacheWrite),
      Latest(fragments, (u: UsageBreakdown) => u.output),
      Latest(fragments, (u: UsageBreakdown) => u.reasoning))
  }

  ghost predicate EndsInvalid(recent: seq<UsageBreakdown>) {
    recent != [] && recent[|recent| - 1].status == Invalid
  }

  ghost predicate HasComplete(recent: seq<UsageBreakdown>) {
    exists i :: 0 <= i < |recent| && recent[i].status == Complete
  }

  ghost function StatusOf(recent: seq<UsageBreakdown>, latest: UsageBreakdown): UsageStatus {
    if HasComplete(recent) then Complete else if latest.Known() then Partial else Missing
  }

  /** The closed form of a merged observation. */
  ghost function SummaryOf(recent: seq<UsageBreakdown>): UsageBreakdown {
    if EndsInvalid(recent) then recent[|recent| - 1]
    else
      var latest := LatestOf(recent);
      latest.(status := StatusOf(recent, latest))
  }

  ghost function Summary(fragments: seq<UsageBreakdown>): UsageBreakdown {
    SummaryOf(Relevant(fragments))
  }

  lemma RelevantStep(fragments: seq<UsageBreakdown>, last: UsageBreakdown)
    ensures Relevant(fragments + [last]) == if last.status == Invalid then [last] else Relevant(fragments) + [last]
    ensures EndsInvalid(Relevant(fragments)) ==> |Relevant(fragments)| == 1
  {
    var all := fragments + [last];
    assert all[..|all| - 1] == fragments && all[|all| - 1] == last;
  }

  lemma LatestStep(recent: seq<UsageBreakdown>, last: UsageBreakdown)
    ensures LatestOf(recent + [last]) == Overlay(LatestOf(recent), last).(status := Missing)
  {
    var all := recent + [last];
    assert all[..|all| - 1] == recent && all[|all| - 1] == last;
  }

  lemma LatestOfOne(u: UsageBreakdown)
    ensures LatestOf([u]) == u.(status := Missing)
  {
    LatestStep([], u);
    assert [] + [u] == [u];
  }

  lemma OverlayIgnoresStatus(a: UsageBreakdown, b: UsageBreakdown, u: UsageBreakdown)
    requires a.(status := Missing) == b.(status := Missing)
    ensures Overlay(a, u).(status := Missing) == Overlay(b, u).(status := Missing)
    ensures Overlay(a, u).Known() == Overlay(b, u).Known()
  {}

  lemma HasCompleteStep(recent: seq<UsageBreakdown>, last: UsageBreakdown)
    ensures HasComplete(recent + [last]) <==> HasComplete(recent) || last.status == Complete
  {
    var all := recent + [last];
    assert all[|recent|] == last;
    assert forall i | 0 <= i < |recent| :: all[i] == recent[i];
  }

  lemma SummaryOfStep(recent: seq<UsageBreakdown>, last: UsageBreakdown)
    requires last.status != Invalid && (EndsInvalid(recent) ==> |recent| == 1)
    ensures SummaryOf(recent + [last]) == Overlay(SummaryOf(recent), last)
  {
    hide LatestOf, HasComplete;
    LatestStep(recent, last);
    HasCompleteStep(recent, last);
    if EndsInvalid(recent) {
      assert recent == [recent[0]] && !HasComplete(recent) by {
        OneInvalid(recent);
      }
      LatestOfOne(recent[0]);
    }
    OverlayIgnoresStatus(LatestOf(recent), SummaryOf(recent), last);
  }

  lemma OneInvalid(recent: seq<UsageBreakdown>)
    requires EndsInvalid(recent) && |recent| == 1
    ensures !HasComplete(recent)
  {}

  lemma SummaryStep(fragments: seq<UsageBreakdown>, last: UsageBreakdown)
    ensures Summary(fragments + [last]) ==
      if last.status == Invalid then last else Overlay(Summary(fragments), last)
  {
    RelevantStep(fragments, last);
    if last.status != Invalid {
      SummaryOfStep(Relevant(fragments), last);
    }
  }

  /** At no fragment does the latest reasoning count exceed the latest output. */
  ghost predicate Mergeable(fragments: seq<UsageBreakdown>) {
    forall n | 0 < n <= |fragments| :: fragments[n - 1].status == Invalid || Summary(fragments[..n]).Consistent()
  }

  lemma MergeableStep(fragments: seq<UsageBreakdown>, last: UsageBreakdown)
    ensures Mergeable(fragments + [last]) <==>
      Mergeable(fragments) && (last.status == Invalid || Summary(fragments + [last]).Consistent())
  {
    var all := fragments + [last];
    assert all[..|all|] == all;
    assert forall n | 0 < n <= |fragments| :: all[..n] == fragments[..n] && all[n - 1] == fragments[n - 1];
  }

  /** Merging in stream order yields, counter by counter, the latest reported value since
      the last invalid fragment; it is complete once any of those was complete. It fails
      exactly when at some fragment the latest reasoning count exceeds the latest output. */
  lemma {:induction false} MergeAllMeaning(fragments: seq<UsageBreakdown>)
    ensures MergeAll(fragments).Some? <==> Mergeable(fragments)
    ensures MergeAll(fragments).Some? ==> MergeAll(fragments).value == Summary(fragments)
    decreases |fragments|
  {
    if fragments != [] {
      var init, last := fragments[..|fragments| - 1], fragments[|fragments| - 1];
      MergeAllMeaning(init);
      assert init + [last] == fragments;
      SummaryStep(init, last);
      MergeableStep(init, last);
    }
  }
}
