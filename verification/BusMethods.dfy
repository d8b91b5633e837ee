/** Registration, the retry loop and the batch loops of the bus as they run (cmdworkflow/bus.go). */
module BusMethods {
  import opened Basics
  import opened Store
  import opened Aggregate
  import opened Bus
  import opened BusTheorems

  datatype Registration = Registered | NoName | NoHandle | NoCompensate | AsyncCompensate | Duplicate

  /** The subscriber slice. A refused registration stands for the panic. */
  class Registry<S, C, E> {
    var subs: seq<Subscriber<S, C, E>>

    ghost predicate Valid()
      reads this
    {
      && (forall i | 0 <= i < |subs| :: subs[i].name != "" && !(subs[i].mode == Async && subs[i].policy == Compensate))
      && (forall i, j | 0 <= i < j < |subs| :: subs[i].name != subs[j].name)
    }

    constructor ()
      ensures Valid() && subs == []
    {
      subs := [];
    }

    /** Accepted exactly when named, handled, able to compensate if that is its policy, not Async with
        Compensate, and not a name already taken. */
    method Register(s: Subscriber<S, C, E>, hasHandle: bool, hasCompensate: bool) returns (r: Registration)
      requires Valid()
      modifies this
      ensures Valid()
      ensures r == Registered <==>
                && s.name != "" && hasHandle && (s.policy == Compensate ==> hasCompensate && s.mode == Sync)
                && forall i | 0 <= i < |old(subs)| :: old(subs)[i].name != s.name
      ensures subs == if r == Registered then old(subs) + [s] else old(subs)
    {
      if s.name == "" {
        return NoName;
      }
      if !hasHandle {
        return NoHandle;
      }
      if s.policy == Compensate && !hasCompensate {
        return NoCompensate;
      }
      if s.mode == Async && s.policy == Compensate {
        return AsyncCompensate;
      }
      for i := 0 to |subs|
        invariant forall j | 0 <= j < i :: subs[j].name != s.name
        invariant subs == old(subs)
      {
        if subs[i].name == s.name {
          return Duplicate;
        }
      }
      subs := subs + [s];
      r := Registered;
    }
  }

  /** The retry loop: script(n) is the result of the n-th Handle call. A negative budget retries until a call
      succeeds, so then one must. */
  method RunRetries(maxRetries: int, script: nat -> Option<string>, ghost success: nat)
    returns (err: Option<string>, attempts: seq<Option<string>>)
    requires maxRetries < 0 ==> script(success).None?
    ensures ValidAttempts(maxRetries, attempts) && err == LastTry(attempts)
    ensures forall j | 0 <= j < |attempts| :: attempts[j] == script(j)
    ensures err.None? <==> exists n: nat :: (maxRetries < 0 || n <= maxRetries) && script(n).None?
  {
    var maxAttempts := maxRetries + 1;
    var infinite := maxRetries < 0;
    attempts := [];
    err := None;
    var attempt := 1;
    while infinite || attempt <= maxAttempts
      invariant 1 <= attempt && |attempts| == attempt - 1
      invariant infinite ==> attempt - 1 <= success
      invariant !infinite ==> attempt <= maxAttempts + 1
      invariant forall j | 0 <= j < |attempts| :: attempts[j].Some? && attempts[j] == script(j)
      invariant |attempts| > 0 ==> err == attempts[|attempts| - 1]
      decreases if infinite then success + 1 - attempt else maxAttempts - attempt
    {
      var result := script(attempt - 1);
      attempts := attempts + [result];
      err := result;
      if result.None? {
        return;
      }
      attempt := attempt + 1;
    }
    forall n: nat | n <= maxRetries ensures script(n).Some? {
      assert attempts[n] == script(n);
    }
  }

  /** The filter loop of the fan-out: both slices are filtered together. */
  method FilterBatch<E>(keep: Envelope -> bool, envs: seq<Envelope>, events: seq<E>)
    returns (keptEnvs: seq<Envelope>, keptEvents: seq<E>)
    requires |envs| == |events|
    ensures keptEnvs == Kept(keep, envs) && keptEvents == KeptEvents(keep, envs, events)
  {
    keptEnvs, keptEvents := [], [];
    for i := 0 to |envs|
      invariant keptEnvs == Kept(keep, envs[..i]) && keptEvents == KeptEvents(keep, envs[..i], events[..i])
    {
      assert envs[..i + 1][..i] == envs[..i] && events[..i + 1][..i] == events[..i];
      if keep(envs[i]) {
        keptEnvs := keptEnvs + [envs[i]];
        keptEvents := keptEvents + [events[i]];
      }
    }
    assert envs[..|envs|] == envs && events[..|events|] == events;
  }

  /** decodeEvents: stops at the first envelope that does not decode. */
  method DecodeEvents<S, C, E>(rt: Runtime<S, C, E>, envs: seq<Envelope>) returns (events: Option<seq<E>>)
    ensures events == DecodeAll(rt, envs)
    ensures events.Some? ==> Aligned(rt, envs, events.value)
  {
    var out: seq<E> := [];
    for i := 0 to |envs|
      invariant DecodeAll(rt, envs[..i]) == Some(out)
    {
      assert envs[..i + 1][..i] == envs[..i];
      var e := rt.codec.decode(EncodedOf(envs[i].hashed.content));
      if e.None? {
        DecodeStuck(rt, envs, i);
        return None;
      }
      out := out + [e.value];
    }
    assert envs[..|envs|] == envs;
    DecodedAt(rt, envs);
    events := Some(out);
  }

  lemma {:induction false} DecodeStuck<S, C, E>(rt: Runtime<S, C, E>, envs: seq<Envelope>, i: nat)
    requires i < |envs| && rt.codec.decode(EncodedOf(envs[i].hashed.content)).None?
    ensures DecodeAll(rt, envs).None?
    decreases |envs|
  {
    if i < |envs| - 1 {
      DecodeStuck(rt, envs[..|envs| - 1], i);
    }
  }
}
