/** Whether the Graphing mode may be used: the platform probe, the group-policy registry
    value and the process-wide cache of the policy answer. */
module GraphingPolicy {
  import opened Wrappers
  import opened NavTypes

  /** The policy answer for one registry read of `AllowGraphingCalculator`: `Some(v)` is a
      successful DWORD read, `None` any failure (missing key or value, wrong type). An
      absent policy allows graphing; a present one allows it unless it is zero. */
  function PolicyAllows(registryRead: Option<uint32>): (allowed: bool)
    ensures !allowed <==> registryRead == Some(0)
  {
    match registryRead
    case None => true
    case Some(allowGraphingCalculator) => allowGraphingCalculator != 0
  }

  /** The answer of one call and the cache it leaves behind. */
  datatype Outcome = Outcome(enabled: bool, cache: Option<bool>)

  /** One call of the check, as a function of the probe, the cache before the call and
      what the registry would answer if it were read. */
  function Evaluate(available: bool, cache: Option<bool>, registryRead: Option<uint32>): (out: Outcome)
    ensures !available ==> !out.enabled && out.cache == cache
    ensures available ==> out.cache == Some(out.enabled)
    ensures available && cache.Some? ==> out == Outcome(cache.value, cache)
    ensures available && cache.None? ==> out.enabled == (registryRead != Some(0))
  {
    if !available then Outcome(false, cache)
    else if cache.Some? then Outcome(cache.value, cache)
    else Outcome(PolicyAllows(registryRead), Some(PolicyAllows(registryRead)))
  }

  /** The answers of a sequence of calls, each seeing the registry as `registryReads` says. */
  function Answers(available: bool, cache: Option<bool>, registryReads: seq<Option<uint32>>): (answers: seq<bool>)
    ensures |answers| == |registryReads|
    ensures forall k :: 0 <= k < |answers| ==> answers[k] == Evaluate(available, cache, registryReads[0]).enabled
    decreases |registryReads|
  {
    if registryReads == [] then []
    else
      var out := Evaluate(available, cache, registryReads[0]);
      [out.enabled] + Answers(available, out.cache, registryReads[1..])
  }

  /** Once the first call has run, every later call repeats its answer, whatever the
      registry says by then; without the platform probe every answer is false. */
  lemma {:induction false} AnswersStable(available: bool, cache: Option<bool>, registryReads: seq<Option<uint32>>)
    requires registryReads != []
    ensures forall k :: 0 <= k < |registryReads| ==>
      Answers(available, cache, registryReads)[k] == Evaluate(available, cache, registryReads[0]).enabled
    ensures !available ==> forall k :: 0 <= k < |registryReads| ==> !Answers(available, cache, registryReads)[k]
    ensures available && cache.None? ==>
      forall k :: 0 <= k < |registryReads| ==> Answers(available, cache, registryReads)[k] == PolicyAllows(registryReads[0])
    decreases |registryReads|
  {
    var first := Evaluate(available, cache, registryReads[0]);
    var rest := registryReads[1..];
    if rest != [] {
      AnswersStable(available, first.cache, rest);
      assert Evaluate(available, first.cache, rest[0]).enabled == first.enabled;
    }
    assert Answers(available, cache, registryReads) == [first.enabled] + Answers(available, first.cache, rest);
  }

  /** The cache of the policy answer. `available` is the platform probe, evaluated once. */
  class GraphingModePolicy {
    const available: bool
    var cached: Option<bool>

    constructor (available: bool)
      ensures this.available == available && cached == Option.None
    {
      this.available := available;
      cached := Option.None;
    }

    /** The policy check: false without the platform feature, the cached answer when there
        is one, else the registry answer, which is then cached. */
    method IsGraphingModeEnabled(registryRead: Option<uint32>) returns (enabled: bool)
      modifies this
      ensures Outcome(enabled, cached) == Evaluate(available, old(cached), registryRead)
      ensures available ==> cached == Some(enabled)
      ensures !available || old(cached).Some? ==> cached == old(cached)
    {
      if !available {
        return false;
      }
      if cached.Some? {
        return cached.value;
      }
      match registryRead {
        case Some(allowGraphingCalculator) =>
          cached := Some(allowGraphingCalculator != 0);
        case None =>
          cached := Some(true);
      }
      enabled := cached.value;
    }
  }
}
