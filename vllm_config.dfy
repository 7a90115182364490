/**
  The vLLM parameter reconciler of `api/vllm_config.py`: it strips the
  generation parameters a vLLM server does not accept and fills in the
  defaults the caller left out.
 */
module VllmConfig {
  import opened PyValues

  /** `VLLM_DEFAULT_CONFIG["default_model_kwargs"]`: the fallback value of each defaulted parameter. */
  const DefaultModelKwargs: map<string, Value> :=
    map[
      "temperature" := Float(0.7),
      "max_tokens" := Int(1024),
      "top_p" := Float(0.9),
      "stream" := Bool(false)
    ]

  /** `VLLM_INCOMPATIBLE_PARAMS`, in the source's order: parameters a vLLM server rejects or mishandles. */
  const IncompatibleParams: seq<string> :=
    [
      "logprobs", "top_logprobs", "response_format", "tools", "tool_choice",
      "function_call", "functions", "seed", "logit_bias", "user",
      "presence_penalty", "frequency_penalty", "n"
    ]

  function IncompatibleSet(): set<string> {
    set p | p in IncompatibleParams
  }

  /**
    The reconciled parameters as a value: the caller's mapping without the
    incompatible keys, completed by the defaults for the keys it lacks.
   */
  function Reconciled(kwargs: map<string, Value>): (r: map<string, Value>)
    ensures r.Keys == (kwargs.Keys - IncompatibleSet()) + DefaultModelKwargs.Keys
    ensures forall k :: k in kwargs && k !in IncompatibleSet() ==> r[k] == kwargs[k]
    ensures forall k :: k in DefaultModelKwargs && k !in kwargs ==> r[k] == DefaultModelKwargs[k]
  {
    var stripped := kwargs - IncompatibleSet();
    stripped + map k | k in DefaultModelKwargs && k !in stripped :: DefaultModelKwargs[k]
  }

  /** No defaulted parameter is on the denylist, so the two loops never undo each other. */
  lemma DefaultsAreCompatible()
    ensures DefaultModelKwargs.Keys !! IncompatibleSet()
  {
    forall k | k in DefaultModelKwargs
      ensures k !in IncompatibleParams
    {
    }
  }

  /** The result never holds a denylisted key, whether or not the input had it. */
  lemma ReconciledIsCompatible(kwargs: map<string, Value>)
    ensures forall k :: k in Reconciled(kwargs) ==> k !in IncompatibleSet()
  {
    DefaultsAreCompatible();
  }

  /**
    Every defaulted key is present afterwards: with the caller's value when
    the caller supplied the key at all (whatever the value, 0, False and ""
    included), otherwise with the table's value.
   */
  lemma ReconciledDefaults(kwargs: map<string, Value>, k: string)
    requires k in DefaultModelKwargs
    ensures k in Reconciled(kwargs)
    ensures k in kwargs ==> Reconciled(kwargs)[k] == kwargs[k]
    ensures k !in kwargs ==> Reconciled(kwargs)[k] == DefaultModelKwargs[k]
  {
    DefaultsAreCompatible();
  }

  /** Reconciling an already reconciled mapping changes nothing. */
  lemma ReconciledIdempotent(kwargs: map<string, Value>)
    ensures Reconciled(Reconciled(kwargs)) == Reconciled(kwargs)
  {
    DefaultsAreCompatible();
    var once := Reconciled(kwargs);
    var twice := Reconciled(once);
    assert twice.Keys == once.Keys;
    forall k | k in once
      ensures twice[k] == once[k]
    {
    }
  }

  /** What the first loop of `GetVllmOptimizedKwargs` leaves: the input without the denylisted keys. */
  lemma StrippedIsDifference(modelKwargs: map<string, Value>, stripped: map<string, Value>)
    requires forall k :: k in stripped <==> k in modelKwargs && k !in IncompatibleParams
    requires forall k :: k in stripped ==> stripped[k] == modelKwargs[k]
    ensures stripped == modelKwargs - IncompatibleSet()
  {
  }

  /** What the second loop of `GetVllmOptimizedKwargs` leaves: the stripped input completed by the defaults. */
  lemma FilledIsReconciled(modelKwargs: map<string, Value>, stripped: map<string, Value>, filled: map<string, Value>)
    requires stripped == modelKwargs - IncompatibleSet()
    requires filled.Keys == stripped.Keys + DefaultModelKwargs.Keys
    requires forall k :: k in stripped ==> filled[k] == stripped[k]
    requires forall k :: k in filled && k !in stripped ==> filled[k] == DefaultModelKwargs[k]
    ensures filled == Reconciled(modelKwargs)
  {
    var spec := Reconciled(modelKwargs);
    assert filled.Keys == spec.Keys;
    forall k | k in filled
      ensures filled[k] == spec[k]
    {
    }
  }

  /**
    `get_vllm_optimized_kwargs`: copies the caller's mapping, pops every
    denylisted key (absent keys are ignored) and inserts each default whose
    key is not present. It has no precondition and cannot fail; the
    caller's map is a value and stays as it was.
   */
  method GetVllmOptimizedKwargs(modelKwargs: map<string, Value>) returns (optimized: map<string, Value>)
    ensures optimized == Reconciled(modelKwargs)
  {
    optimized := modelKwargs;
    for i := 0 to |IncompatibleParams|
      invariant forall k :: k in optimized <==> k in modelKwargs && k !in IncompatibleParams[..i]
      invariant forall k :: k in optimized ==> optimized[k] == modelKwargs[k]
    {
      optimized := optimized - {IncompatibleParams[i]};
    }
    assert IncompatibleParams[..|IncompatibleParams|] == IncompatibleParams;
    StrippedIsDifference(modelKwargs, optimized);
    ghost var stripped := optimized;

    var pending := DefaultModelKwargs.Keys;
    while pending != {}
      invariant pending <= DefaultModelKwargs.Keys
      invariant optimized.Keys == stripped.Keys + (DefaultModelKwargs.Keys - pending)
      invariant forall k :: k in stripped ==> optimized[k] == stripped[k]
      invariant forall k :: k in optimized && k !in stripped ==> optimized[k] == DefaultModelKwargs[k]
      decreases pending
    {
      var key :| key in pending;
      if key !in optimized {
        optimized := optimized[key := DefaultModelKwargs[key]];
      }
      pending := pending - {key};
    }
    FilledIsReconciled(modelKwargs, stripped, optimized);
  }
}
