/** The shim itself: the process-wide lookup table, its two-phase
    initialisation and the twenty forwarding entry points. */
module Glue {
  import opened Symbols
  import opened Outcomes
  import opened Resolution
  import opened Dispatch

  /** The table installed before any resolution: each symbol's own RTLD_NEXT
      definition, which is what the process would call without the shim. */
  function BootstrapLut(env: Env): (t: MallocLut)
    ensures forall s :: t.Slot(s) == NextSym(env, s)
  {
    MallocLut(
      NextSym(env, Symbol.Malloc),
      NextSym(env, Symbol.Calloc),
      NextSym(env, Symbol.Realloc),
      NextSym(env, Symbol.Free),
      NextSym(env, Symbol.Strdup),
      NextSym(env, Symbol.Strndup),
      NextSym(env, Symbol.Realpath),
      NextSym(env, Symbol.Reallocf),
      NextSym(env, Symbol.MallocSize),
      NextSym(env, Symbol.MallocUsableSize),
      NextSym(env, Symbol.MallocGoodSize),
      NextSym(env, Symbol.Cfree),
      NextSym(env, Symbol.Valloc),
      NextSym(env, Symbol.Pvalloc),
      NextSym(env, Symbol.Reallocarray),
      NextSym(env, Symbol.Reallocarr),
      NextSym(env, Symbol.Memalign),
      NextSym(env, Symbol.AlignedAlloc),
      NextSym(env, Symbol.PosixMemalign),
      NextSym(env, Symbol.UnderscorePosixMemalign))
  }

  /** Resolving the twenty symbols in table order into a new table; the
      first resolution that aborts ends it. */
  function ResolveAll(env: Env): (r: Outcome<MallocLut>)
    // only the loader can make a resolution abort, never a missing definition
    ensures r.Abort? ==> r.message == LibcNotLoaded || r.message == MimallocNotLoadable
  {
    var malloc :- ResolveFunc(env, Symbol.Malloc);
    var calloc :- ResolveFunc(env, Symbol.Calloc);
    var realloc :- ResolveFunc(env, Symbol.Realloc);
    var free :- ResolveFunc(env, Symbol.Free);
    var strdup :- ResolveFunc(env, Symbol.Strdup);
    var strndup :- ResolveFunc(env, Symbol.Strndup);
    var realpath :- ResolveFunc(env, Symbol.Realpath);
    var reallocf :- ResolveFunc(env, Symbol.Reallocf);
    var mallocSize :- ResolveFunc(env, Symbol.MallocSize);
    var mallocUsableSize :- ResolveFunc(env, Symbol.MallocUsableSize);
    var mallocGoodSize :- ResolveFunc(env, Symbol.MallocGoodSize);
    var cfree :- ResolveFunc(env, Symbol.Cfree);
    var valloc :- ResolveFunc(env, Symbol.Valloc);
    var pvalloc :- ResolveFunc(env, Symbol.Pvalloc);
    var reallocarray :- ResolveFunc(env, Symbol.Reallocarray);
    var reallocarr :- ResolveFunc(env, Symbol.Reallocarr);
    var memalign :- ResolveFunc(env, Symbol.Memalign);
    var alignedAlloc :- ResolveFunc(env, Symbol.AlignedAlloc);
    var posixMemalign :- ResolveFunc(env, Symbol.PosixMemalign);
    var underscorePosixMemalign :- ResolveFunc(env, Symbol.UnderscorePosixMemalign);
    Ok(MallocLut(
      malloc,
      calloc,
      realloc,
      free,
      strdup,
      strndup,
      realpath,
      reallocf,
      mallocSize,
      mallocUsableSize,
      mallocGoodSize,
      cfree,
      valloc,
      pvalloc,
      reallocarray,
      reallocarr,
      memalign,
      alignedAlloc,
      posixMemalign,
      underscorePosixMemalign))
  }

  /** While resolution runs, a call that reaches the shim goes where it
      would have gone without the shim, or aborts if nothing is there. */
  lemma BootstrapCallGoesToNext(env: Env, s: Symbol, args: seq<Value>)
    ensures NextSym(env, s) == Null ==> Forward(BootstrapLut(env), s, args) == Abort(NotDefined(Name(s)))
    ensures NextSym(env, s) != Null ==> Forward(BootstrapLut(env), s, args) == Ok(Call(NextSym(env, s), args))
  {
  }

  /** The resolution phase completes exactly when every one of the twenty
      resolutions finds both libraries; no resolution aborts because a
      definition is missing. */
  lemma ResolveAllOkIff(env: Env)
    ensures ResolveAll(env).Ok? <==> AllReady(env)
  {
    if ResolveAll(env).Ok? {
      var ready := s => LoaderReady(env, s);
      ForallSymbols(ready);
      forall s ensures LoaderReady(env, s) {
        assert ready(s);
      }
    }
  }

  /** The resolution phase stops at the first symbol, in table order, whose
      resolution aborts, with that resolution's message: the symbols before
      it resolved, and those after it are never looked at. One lemma per
      position in the table: a single lemma over the position k runs out
      of resources, so the family is unrolled. */
  lemma FailsAtMalloc(env: Env)
    requires !LoaderReady(env, AllSymbols[0])
    ensures ResolveAll(env) == Abort(ResolveFunc(env, AllSymbols[0]).message)
  {
  }

  lemma FailsAtCalloc(env: Env)
    requires forall j :: 0 <= j < 1 ==> LoaderReady(env, AllSymbols[j])
    requires !LoaderReady(env, AllSymbols[1])
    ensures ResolveAll(env) == Abort(ResolveFunc(env, AllSymbols[1]).message)
  {
    assert LoaderReady(env, AllSymbols[0]);
  }

  lemma FailsAtRealloc(env: Env)
    requires forall j :: 0 <= j < 2 ==> LoaderReady(env, AllSymbols[j])
    requires !LoaderReady(env, AllSymbols[2])
    ensures ResolveAll(env) == Abort(ResolveFunc(env, AllSymbols[2]).message)
  {
    assert LoaderReady(env, AllSymbols[0]);
    assert LoaderReady(env, AllSymbols[1]);
  }

  lemma FailsAtFree(env: Env)
    requires forall j :: 0 <= j < 3 ==> LoaderReady(env, AllSymbols[j])
    requires !LoaderReady(env, AllSymbols[3])
    ensures ResolveAll(env) == Abort(ResolveFunc(env, AllSymbols[3]).message)
  {
    assert LoaderReady(env, AllSymbols[0]);
    assert LoaderReady(env, AllSymbols[1]);
    assert LoaderReady(env, AllSymbols[2]);
  }

  lemma FailsAtStrdup(env: Env)
    requires forall j :: 0 <= j < 4 ==> LoaderReady(env, AllSymbols[j])
    requires !LoaderReady(env, AllSymbols[4])
    ensures ResolveAll(env) == Abort(ResolveFunc(env, AllSymbols[4]).message)
  {
    assert LoaderReady(env, AllSymbols[0]);
    assert LoaderReady(env, AllSymbols[1]);
    assert LoaderReady(env, AllSymbols[2]);
    assert LoaderReady(env, AllSymbols[3]);
  }

  lemma FailsAtStrndup(env: Env)
    requires forall j :: 0 <= j < 5 ==> LoaderReady(env, AllSymbols[j])
    requires !LoaderReady(env, AllSymbols[5])
    ensures ResolveAll(env) == Abort(ResolveFunc(env, AllSymbols[5]).message)
  {
    assert LoaderReady(env, AllSymbols[0]);
    assert LoaderReady(env, AllSymbols[1]);
    assert LoaderReady(env, AllSymbols[2]);
    assert LoaderReady(env, AllSymbols[3]);
    assert LoaderReady(env, AllSymbols[4]);
  }

  lemma FailsAtRealpath(env: Env)
    requires forall j :: 0 <= j < 6 ==> LoaderReady(env, AllSymbols[j])
    requires !LoaderReady(env, AllSymbols[6])
    ensures ResolveAll(env) == Abort(ResolveFunc(env, AllSymbols[6]).message)
  {
    assert LoaderReady(env, AllSymbols[0]);
    assert LoaderReady(env, AllSymbols[1]);
    assert LoaderReady(env, AllSymbols[2]);
    assert LoaderReady(env, AllSymbols[3]);
    assert LoaderReady(env, AllSymbols[4]);
    assert LoaderReady(env, AllSymbols[5]);
  }

  lemma FailsAtReallocf(env: Env)
    requires forall j :: 0 <= j < 7 ==> LoaderReady(env, AllSymbols[j])
    requires !LoaderReady(env, AllSymbols[7])
    ensures ResolveAll(env) == Abort(ResolveFunc(env, AllSymbols[7]).message)
  {
    assert LoaderReady(env, AllSymbols[0]);
    assert LoaderReady(env, AllSymbols[1]);
    assert LoaderReady(env, AllSymbols[2]);
    assert LoaderReady(env, AllSymbols[3]);
    assert LoaderReady(env, AllSymbols[4]);
    assert LoaderReady(env, AllSymbols[5]);
    assert LoaderReady(env, AllSymbols[6]);
  }

  lemma FailsAtMallocSize(env: Env)
    requires forall j :: 0 <= j < 8 ==> LoaderReady(env, AllSymbols[j])
    requires !LoaderReady(env, AllSymbols[8])
    ensures ResolveAll(env) == Abort(ResolveFunc(env, AllSymbols[8]).message)
  {
    assert LoaderReady(env, AllSymbols[0]);
    assert LoaderReady(env, AllSymbols[1]);
    assert LoaderReady(env, AllSymbols[2]);
    assert LoaderReady(env, AllSymbols[3]);
    assert LoaderReady(env, AllSymbols[4]);
    assert LoaderReady(env, AllSymbols[5]);
    assert LoaderReady(env, AllSymbols[6]);
    assert LoaderReady(env, AllSymbols[7]);
  }

  lemma FailsAtMallocUsableSize(env: Env)
    requires forall j :: 0 <= j < 9 ==> LoaderReady(env, AllSymbols[j])
    requires !LoaderReady(env, AllSymbols[9])
    ensures ResolveAll(env) == Abort(ResolveFunc(env, AllSymbols[9]).message)
  {
    assert LoaderReady(env, AllSymbols[0]);
    assert LoaderReady(env, AllSymbols[1]);
    assert LoaderReady(env, AllSymbols[2]);
    assert LoaderReady(env, AllSymbols[3]);
    assert LoaderReady(env, AllSymbols[4]);
    assert LoaderReady(env, AllSymbols[5]);
    assert LoaderReady(env, AllSymbols[6]);
    assert LoaderReady(env, AllSymbols[7]);
    assert LoaderReady(env, AllSymbols[8]);
  }

  lemma FailsAtMallocGoodSize(env: Env)
    requires forall j :: 0 <= j < 10 ==> LoaderReady(env, AllSymbols[j])
    requires !LoaderReady(env, AllSymbols[10])
    ensures ResolveAll(env) == Abort(ResolveFunc(env, AllSymbols[10]).message)
  {
    assert LoaderReady(env, AllSymbols[0]);
    assert LoaderReady(env, AllSymbols[1]);
    assert LoaderReady(env, AllSymbols[2]);
    assert LoaderReady(env, AllSymbols[3]);
    assert LoaderReady(env, AllSymbols[4]);
    assert LoaderReady(env, AllSymbols[5]);
    assert LoaderReady(env, AllSymbols[6]);
    assert LoaderReady(env, AllSymbols[7]);
    assert LoaderReady(env, AllSymbols[8]);
    assert LoaderReady(env, AllSymbols[9]);
  }

  lemma FailsAtCfree(env: Env)
    requires forall j :: 0 <= j < 11 ==> LoaderReady(env, AllSymbols[j])
    requires !LoaderReady(env, AllSymbols[11])
    ensures ResolveAll(env) == Abort(ResolveFunc(env, AllSymbols[11]).message)
  {
    assert LoaderReady(env, AllSymbols[0]);
    assert LoaderReady(env, AllSymbols[1]);
    assert LoaderReady(env, AllSymbols[2]);
    assert LoaderReady(env, AllSymbols[3]);
    assert LoaderReady(env, AllSymbols[4]);
    assert LoaderReady(env, AllSymbols[5]);
    assert LoaderReady(env, AllSymbols[6]);
    assert LoaderReady(env, AllSymbols[7]);
    assert LoaderReady(env, AllSymbols[8]);
    assert LoaderReady(env, AllSymbols[9]);
    assert LoaderReady(env, AllSymbols[10]);
  }

  lemma FailsAtValloc(env: Env)
    requires forall j :: 0 <= j < 12 ==> LoaderReady(env, AllSymbols[j])
    requires !LoaderReady(env, AllSymbols[12])
    ensures ResolveAll(env) == Abort(ResolveFunc(env, AllSymbols[12]).message)
  {
    assert LoaderReady(env, AllSymbols[0]);
    assert LoaderReady(env, AllSymbols[1]);
    assert LoaderReady(env, AllSymbols[2]);
    assert LoaderReady(env, AllSymbols[3]);
    assert LoaderReady(env, AllSymbols[4]);
    assert LoaderReady(env, AllSymbols[5]);
    assert LoaderReady(env, AllSymbols[6]);
    assert LoaderReady(env, AllSymbols[7]);
    assert LoaderReady(env, AllSymbols[8]);
    assert LoaderReady(env, AllSymbols[9]);
    assert LoaderReady(env, AllSymbols[10]);
    assert LoaderReady(env, AllSymbols[11]);
  }

  lemma FailsAtPvalloc(env: Env)
    requires forall j :: 0 <= j < 13 ==> LoaderReady(env, AllSymbols[j])
    requires !LoaderReady(env, AllSymbols[13])
    ensures ResolveAll(env) == Abort(ResolveFunc(env, AllSymbols[13]).message)
  {
    assert LoaderReady(env, AllSymbols[0]);
    assert LoaderReady(env, AllSymbols[1]);
    assert LoaderReady(env, AllSymbols[2]);
    assert LoaderReady(env, AllSymbols[3]);
    assert LoaderReady(env, AllSymbols[4]);
    assert LoaderReady(env, AllSymbols[5]);
    assert LoaderReady(env, AllSymbols[6]);
    assert LoaderReady(env, AllSymbols[7]);
    assert LoaderReady(env, AllSymbols[8]);
    assert LoaderReady(env, AllSymbols[9]);
    assert LoaderReady(env, AllSymbols[10]);
    assert LoaderReady(env, AllSymbols[11]);
    assert LoaderReady(env, AllSymbols[12]);
  }

  lemma FailsAtReallocarray(env: Env)
    requires forall j :: 0 <= j < 14 ==> LoaderReady(env, AllSymbols[j])
    requires !LoaderReady(env, AllSymbols[14])
    ensures ResolveAll(env) == Abort(ResolveFunc(env, AllSymbols[14]).message)
  {
    assert LoaderReady(env, AllSymbols[0]);
    assert LoaderReady(env, AllSymbols[1]);
    assert LoaderReady(env, AllSymbols[2]);
    assert LoaderReady(env, AllSymbols[3]);
    assert LoaderReady(env, AllSymbols[4]);
    assert LoaderReady(env, AllSymbols[5]);
    assert LoaderReady(env, AllSymbols[6]);
    assert LoaderReady(env, AllSymbols[7]);
    assert LoaderReady(env, AllSymbols[8]);
    assert LoaderReady(env, AllSymbols[9]);
    assert LoaderReady(env, AllSymbols[10]);
    assert LoaderReady(env, AllSymbols[11]);
    assert LoaderReady(env, AllSymbols[12]);
    assert LoaderReady(env, AllSymbols[13]);
  }

  lemma FailsAtReallocarr(env: Env)
    requires forall j :: 0 <= j < 15 ==> LoaderReady(env, AllSymbols[j])
    requires !LoaderReady(env, AllSymbols[15])
    ensures ResolveAll(env) == Abort(ResolveFunc(env, AllSymbols[15]).message)
  {
    assert LoaderReady(env, AllSymbols[0]);
    assert LoaderReady(env, AllSymbols[1]);
    assert LoaderReady(env, AllSymbols[2]);
    assert LoaderReady(env, AllSymbols[3]);
    assert LoaderReady(env, AllSymbols[4]);
    assert LoaderReady(env, AllSymbols[5]);
    assert LoaderReady(env, AllSymbols[6]);
    assert LoaderReady(env, AllSymbols[7]);
    assert LoaderReady(env, AllSymbols[8]);
    assert LoaderReady(env, AllSymbols[9]);
    assert LoaderReady(env, AllSymbols[10]);
    assert LoaderReady(env, AllSymbols[11]);
    assert LoaderReady(env, AllSymbols[12]);
    assert LoaderReady(env, AllSymbols[13]);
    assert LoaderReady(env, AllSymbols[14]);
  }

  lemma FailsAtMemalign(env: Env)
    requires forall j :: 0 <= j < 16 ==> LoaderReady(env, AllSymbols[j])
    requires !LoaderReady(env, AllSymbols[16])
    ensures ResolveAll(env) == Abort(ResolveFunc(env, AllSymbols[16]).message)
  {
    assert LoaderReady(env, AllSymbols[0]);
    assert LoaderReady(env, AllSymbols[1]);
    assert LoaderReady(env, AllSymbols[2]);
    assert LoaderReady(env, AllSymbols[3]);
    assert LoaderReady(env, AllSymbols[4]);
    assert LoaderReady(env, AllSymbols[5]);
    assert LoaderReady(env, AllSymbols[6]);
    assert LoaderReady(env, AllSymbols[7]);
    assert LoaderReady(env, AllSymbols[8]);
    assert LoaderReady(env, AllSymbols[9]);
    assert LoaderReady(env, AllSymbols[10]);
    assert LoaderReady(env, AllSymbols[11]);
    assert LoaderReady(env, AllSymbols[12]);
    assert LoaderReady(env, AllSymbols[13]);
    assert LoaderReady(env, AllSymbols[14]);
    assert LoaderReady(env, AllSymbols[15]);
  }

  lemma FailsAtAlignedAlloc(env: Env)
    requires forall j :: 0 <= j < 17 ==> LoaderReady(env, AllSymbols[j])
    requires !LoaderReady(env, AllSymbols[17])
    ensures ResolveAll(env) == Abort(ResolveFunc(env, AllSymbols[17]).message)
  {
    assert LoaderReady(env, AllSymbols[0]);
    assert LoaderReady(env, AllSymbols[1]);
    assert LoaderReady(env, AllSymbols[2]);
    assert LoaderReady(env, AllSymbols[3]);
    assert LoaderReady(env, AllSymbols[4]);
    assert LoaderReady(env, AllSymbols[5]);
    assert LoaderReady(env, AllSymbols[6]);
    assert LoaderReady(env, AllSymbols[7]);
    assert LoaderReady(env, AllSymbols[8]);
    assert LoaderReady(env, AllSymbols[9]);
    assert LoaderReady(env, AllSymbols[10]);
    assert LoaderReady(env, AllSymbols[11]);
    assert LoaderReady(env, AllSymbols[12]);
    assert LoaderReady(env, AllSymbols[13]);
    assert LoaderReady(env, AllSymbols[14]);
    assert LoaderReady(env, AllSymbols[15]);
    assert LoaderReady(env, AllSymbols[16]);
  }

  lemma FailsAtPosixMemalign(env: Env)
    requires forall j :: 0 <= j < 18 ==> LoaderReady(env, AllSymbols[j])
    requires !LoaderReady(env, AllSymbols[18])
    ensures ResolveAll(env) == Abort(ResolveFunc(env, AllSymbols[18]).message)
  {
    assert LoaderReady(env, AllSymbols[0]);
    assert LoaderReady(env, AllSymbols[1]);
    assert LoaderReady(env, AllSymbols[2]);
    assert LoaderReady(env, AllSymbols[3]);
    assert LoaderReady(env, AllSymbols[4]);
    assert LoaderReady(env, AllSymbols[5]);
    assert LoaderReady(env, AllSymbols[6]);
    assert LoaderReady(env, AllSymbols[7]);
    assert LoaderReady(env, AllSymbols[8]);
    assert LoaderReady(env, AllSymbols[9]);
    assert LoaderReady(env, AllSymbols[10]);
    assert LoaderReady(env, AllSymbols[11]);
    assert LoaderReady(env, AllSymbols[12]);
    assert LoaderReady(env, AllSymbols[13]);
    assert LoaderReady(env, AllSymbols[14]);
    assert LoaderReady(env, AllSymbols[15]);
    assert LoaderReady(env, AllSymbols[16]);
    assert LoaderReady(env, AllSymbols[17]);
  }

  lemma FailsAtUnderscorePosixMemalign(env: Env)
    requires forall j :: 0 <= j < 19 ==> LoaderReady(env, AllSymbols[j])
    requires !LoaderReady(env, AllSymbols[19])
    ensures ResolveAll(env) == Abort(ResolveFunc(env, AllSymbols[19]).message)
  {
    assert LoaderReady(env, AllSymbols[0]);
    assert LoaderReady(env, AllSymbols[1]);
    assert LoaderReady(env, AllSymbols[2]);
    assert LoaderReady(env, AllSymbols[3]);
    assert LoaderReady(env, AllSymbols[4]);
    assert LoaderReady(env, AllSymbols[5]);
    assert LoaderReady(env, AllSymbols[6]);
    assert LoaderReady(env, AllSymbols[7]);
    assert LoaderReady(env, AllSymbols[8]);
    assert LoaderReady(env, AllSymbols[9]);
    assert LoaderReady(env, AllSymbols[10]);
    assert LoaderReady(env, AllSymbols[11]);
    assert LoaderReady(env, AllSymbols[12]);
    assert LoaderReady(env, AllSymbols[13]);
    assert LoaderReady(env, AllSymbols[14]);
    assert LoaderReady(env, AllSymbols[15]);
    assert LoaderReady(env, AllSymbols[16]);
    assert LoaderReady(env, AllSymbols[17]);
    assert LoaderReady(env, AllSymbols[18]);
  }

  /** The message of an aborted resolution phase is that of the first failing
      resolution in table order. */
  lemma FirstFailureDecides(env: Env, k: nat)
    requires k < |AllSymbols|
    requires forall j :: 0 <= j < k ==> LoaderReady(env, AllSymbols[j])
    requires !LoaderReady(env, AllSymbols[k])
    ensures ResolveAll(env) == Abort(ResolveFunc(env, AllSymbols[k]).message)
  {
    if k == 0 {
      FailsAtMalloc(env);
    } else if k == 1 {
      FailsAtCalloc(env);
    } else if k == 2 {
      FailsAtRealloc(env);
    } else if k == 3 {
      FailsAtFree(env);
    } else if k == 4 {
      FailsAtStrdup(env);
    } else if k == 5 {
      FailsAtStrndup(env);
    } else if k == 6 {
      FailsAtRealpath(env);
    } else if k == 7 {
      FailsAtReallocf(env);
    } else if k == 8 {
      FailsAtMallocSize(env);
    } else if k == 9 {
      FailsAtMallocUsableSize(env);
    } else if k == 10 {
      FailsAtMallocGoodSize(env);
    } else if k == 11 {
      FailsAtCfree(env);
    } else if k == 12 {
      FailsAtValloc(env);
    } else if k == 13 {
      FailsAtPvalloc(env);
    } else if k == 14 {
      FailsAtReallocarray(env);
    } else if k == 15 {
      FailsAtReallocarr(env);
    } else if k == 16 {
      FailsAtMemalign(env);
    } else if k == 17 {
      FailsAtAlignedAlloc(env);
    } else if k == 18 {
      FailsAtPosixMemalign(env);
    } else {
      FailsAtUnderscorePosixMemalign(env);
    }
  }

  /** When some resolution cannot find both libraries, there is a first
      such symbol in table order. */
  lemma FirstNotReady(env: Env) returns (k: nat)
    requires !AllReady(env)
    ensures k < |AllSymbols| && !LoaderReady(env, AllSymbols[k])
    ensures forall j :: 0 <= j < k ==> LoaderReady(env, AllSymbols[j])
  {
    var s :| !LoaderReady(env, s);
    var i := Index(s);
    k := 0;
    while LoaderReady(env, AllSymbols[k])
      invariant k <= i
      invariant forall j :: 0 <= j < k ==> LoaderReady(env, AllSymbols[j])
      decreases i - k
    {
      k := k + 1;
    }
  }

  /** Every aborted resolution phase has such a first failing resolution,
      and reports its message. */
  lemma AbortNamesFirstFailure(env: Env)
    requires ResolveAll(env).Abort?
    ensures exists k :: (
      && 0 <= k < |AllSymbols|
      && !LoaderReady(env, AllSymbols[k])
      && (forall j :: 0 <= j < k ==> LoaderReady(env, AllSymbols[j]))
      && ResolveAll(env) == Abort(ResolveFunc(env, AllSymbols[k]).message))
  {
    ResolveAllOkIff(env);
    var k := FirstNotReady(env);
    FirstFailureDecides(env, k);
  }

  /** The loader answers both dlopen questions alike for every call. */
  predicate SteadyLoader(env: Env)
  {
    && (env.libcLoaded == {} || forall s :: s in env.libcLoaded)
    && (env.mimallocLoadable == {} || forall s :: s in env.mimallocLoadable)
  }

  /** With a loader that answers alike for every call, the resolution phase
      completes exactly when libc is loaded and mimalloc loadable. */
  lemma SteadyLoaderDecides(env: Env)
    requires SteadyLoader(env)
    ensures ResolveAll(env).Ok? <==> LoaderReady(env, Symbol.Malloc)
  {
    ResolveAllOkIff(env);
    if LoaderReady(env, Symbol.Malloc) {
      assert Symbol.Malloc in env.libcLoaded && Symbol.Malloc in env.mimallocLoadable;
      assert forall s :: LoaderReady(env, s);
    }
  }

  /** Every one of the twenty resolutions finds both libraries. */
  ghost predicate AllReady(env: Env)
  {
    forall s :: LoaderReady(env, s)
  }

  /** The table phase 2 writes when every resolution succeeds: each slot
      holds its own symbol's resolution. */
  function ResolvedLut(env: Env): MallocLut
    requires AllReady(env)
  {
    MallocLut(
      ResolveFunc(env, Symbol.Malloc).value,
      ResolveFunc(env, Symbol.Calloc).value,
      ResolveFunc(env, Symbol.Realloc).value,
      ResolveFunc(env, Symbol.Free).value,
      ResolveFunc(env, Symbol.Strdup).value,
      ResolveFunc(env, Symbol.Strndup).value,
      ResolveFunc(env, Symbol.Realpath).value,
      ResolveFunc(env, Symbol.Reallocf).value,
      ResolveFunc(env, Symbol.MallocSize).value,
      ResolveFunc(env, Symbol.MallocUsableSize).value,
      ResolveFunc(env, Symbol.MallocGoodSize).value,
      ResolveFunc(env, Symbol.Cfree).value,
      ResolveFunc(env, Symbol.Valloc).value,
      ResolveFunc(env, Symbol.Pvalloc).value,
      ResolveFunc(env, Symbol.Reallocarray).value,
      ResolveFunc(env, Symbol.Reallocarr).value,
      ResolveFunc(env, Symbol.Memalign).value,
      ResolveFunc(env, Symbol.AlignedAlloc).value,
      ResolveFunc(env, Symbol.PosixMemalign).value,
      ResolveFunc(env, Symbol.UnderscorePosixMemalign).value)
  }

  /** A completed resolution phase produces exactly that table. */
  lemma ResolveAllValue(env: Env)
    requires ResolveAll(env).Ok?
    ensures AllReady(env) && ResolveAll(env).value == ResolvedLut(env)
  {
    ResolveAllOkIff(env);
  }

  /** In that table each slot holds the resolution of its own symbol:
      nothing is cross-wired. */
  lemma ResolvedLutSlot(env: Env, s: Symbol)
    requires AllReady(env)
    ensures ResolveFunc(env, s) == Ok(ResolvedLut(env).Slot(s))
  {
  }

  /** After a complete initialisation each slot holds the resolution of its
      own symbol. */
  lemma ResolvedSlot(env: Env, s: Symbol)
    requires ResolveAll(env).Ok?
    ensures ResolveFunc(env, s) == Ok(ResolveAll(env).value.Slot(s))
  {
    ResolveAllValue(env);
    ResolvedLutSlot(env, s);
  }

  /** Slots that phase 2 changes are exactly the unclaimed symbols whose
      next definition is not already mimalloc's. */
  lemma OnlyUnclaimedSlotsChange(env: Env, s: Symbol)
    requires ResolveAll(env).Ok?
    ensures ResolveAll(env).value.Slot(s) != BootstrapLut(env).Slot(s) <==>
      NextProvider(env, s) == Unclaimed && MimallocSym(env, s) != NextSym(env, s)
  {
    ResolvedSlot(env, s);
  }

  /** After a complete initialisation, a call to an unclaimed symbol that
      mimalloc defines reaches mimalloc's definition with the caller's
      arguments. */
  lemma UnclaimedCallReachesMimalloc(env: Env, s: Symbol, args: seq<Value>)
    requires ResolveAll(env).Ok?
    requires NextProvider(env, s) == Unclaimed && MimallocSym(env, s) != Null
    ensures Forward(ResolveAll(env).value, s, args) == Ok(Call(MimallocSym(env, s), args))
  {
    ResolvedSlot(env, s);
    UnclaimedSelectsMimalloc(env, s);
  }

  /** After a complete initialisation, a call to a symbol an earlier
      interposer defines reaches that interposer with the caller's arguments. */
  lemma InterposerCallPassesThrough(env: Env, s: Symbol, args: seq<Value>)
    requires ResolveAll(env).Ok?
    requires NextProvider(env, s) == Interposer && NextSym(env, s) != Null
    ensures Forward(ResolveAll(env).value, s, args) == Ok(Call(NextSym(env, s), args))
  {
    ResolvedSlot(env, s);
    ClaimedKeepsNext(env, s);
  }

  /** A symbol that resolved to Null aborts, naming itself, at its first call. */
  lemma UnresolvedAbortsWhenCalled(env: Env, s: Symbol, args: seq<Value>)
    requires ResolveAll(env).Ok? && ResolveFunc(env, s) == Ok(Null)
    ensures Forward(ResolveAll(env).value, s, args) == Abort(NotDefined(Name(s)))
  {
    ResolvedSlot(env, s);
  }

  /** Lazy fatality on the resolved table: a run of calls to symbols which
      resolved to a definition never aborts, and each call reaches its
      symbol's resolved definition. */
  lemma LazyFatalityOnTable(env: Env, reqs: seq<Request>)
    requires AllReady(env)
    requires forall i :: 0 <= i < |reqs| ==> ResolveFunc(env, reqs[i].symbol) != Ok(Null)
    ensures Run(ResolvedLut(env), reqs).Ok?
    ensures forall i :: 0 <= i < |reqs| ==>
      Ok(Run(ResolvedLut(env), reqs).value[i].target) == ResolveFunc(env, reqs[i].symbol)
  {
    forall s ensures ResolveFunc(env, s) == Ok(ResolvedLut(env).Slot(s)) {
      ResolvedLutSlot(env, s);
    }
  }

  /** Lazy fatality: after a complete initialisation, a process that only
      calls symbols which resolved to a definition never aborts, however
      many of the others are unresolved, and each of its calls reaches its
      symbol's resolved definition. */
  lemma LazyFatality(env: Env, reqs: seq<Request>)
    requires ResolveAll(env).Ok?
    requires forall i :: 0 <= i < |reqs| ==> ResolveFunc(env, reqs[i].symbol) != Ok(Null)
    ensures Run(ResolveAll(env).value, reqs).Ok?
    ensures forall i :: 0 <= i < |reqs| ==>
      Ok(Run(ResolveAll(env).value, reqs).value[i].target) == ResolveFunc(env, reqs[i].symbol)
  {
    ResolveAllValue(env);
    LazyFatalityOnTable(env, reqs);
  }

  /** Where initialisation has got to: the static all-Null table, the
      temporary RTLD_NEXT table, or the resolved table. An abort during
      resolution leaves the table in Bootstrap. */
  datatype Phase = Empty | Bootstrap | Final

  /** The loaded shim: its global lookup table and its exported functions. */
  class Shim {
    var lut: MallocLut
    ghost var phase: Phase

    /** The static initialiser: all twenty slots Null. */
    constructor ()
      ensures lut == EmptyLut && phase == Empty
    {
      lut := EmptyLut;
      phase := Empty;
    }

    /** init: install every symbol's RTLD_NEXT definition, then resolve all
        twenty symbols into locals, then copy them into the table. An abort
        during resolution happens before any resolved value is written. */
    method Init(env: Env) returns (outcome: Outcome<()>)
      requires phase == Empty
      modifies this
      ensures outcome.Ok? <==> ResolveAll(env).Ok?
      ensures outcome.Abort? ==>
        outcome.message == ResolveAll(env).message && phase == Bootstrap && lut == BootstrapLut(env)
      ensures outcome.Ok? ==> phase == Final && lut == ResolveAll(env).value
    {
      // temporary defaults, so that allocation done by the loader while
      // resolving is served by what the process would have used anyway
      lut := lut.(malloc := NextSym(env, Symbol.Malloc));
      lut := lut.(calloc := NextSym(env, Symbol.Calloc));
      lut := lut.(realloc := NextSym(env, Symbol.Realloc));
      lut := lut.(free := NextSym(env, Symbol.Free));
      lut := lut.(strdup := NextSym(env, Symbol.Strdup));
      lut := lut.(strndup := NextSym(env, Symbol.Strndup));
      lut := lut.(realpath := NextSym(env, Symbol.Realpath));
      lut := lut.(reallocf := NextSym(env, Symbol.Reallocf));
      lut := lut.(mallocSize := NextSym(env, Symbol.MallocSize));
      lut := lut.(mallocUsableSize := NextSym(env, Symbol.MallocUsableSize));
      lut := lut.(mallocGoodSize := NextSym(env, Symbol.MallocGoodSize));
      lut := lut.(cfree := NextSym(env, Symbol.Cfree));
      lut := lut.(valloc := NextSym(env, Symbol.Valloc));
      lut := lut.(pvalloc := NextSym(env, Symbol.Pvalloc));
      lut := lut.(reallocarray := NextSym(env, Symbol.Reallocarray));
      lut := lut.(reallocarr := NextSym(env, Symbol.Reallocarr));
      lut := lut.(memalign := NextSym(env, Symbol.Memalign));
      lut := lut.(alignedAlloc := NextSym(env, Symbol.AlignedAlloc));
      lut := lut.(posixMemalign := NextSym(env, Symbol.PosixMemalign));
      lut := lut.(underscorePosixMemalign := NextSym(env, Symbol.UnderscorePosixMemalign));
      phase := Bootstrap;

      // resolve every symbol; the first failure aborts the process
      var malloc :- ResolveFunc(env, Symbol.Malloc);
      var calloc :- ResolveFunc(env, Symbol.Calloc);
      var realloc :- ResolveFunc(env, Symbol.Realloc);
      var free :- ResolveFunc(env, Symbol.Free);
      var strdup :- ResolveFunc(env, Symbol.Strdup);
      var strndup :- ResolveFunc(env, Symbol.Strndup);
      var realpath :- ResolveFunc(env, Symbol.Realpath);
      var reallocf :- ResolveFunc(env, Symbol.Reallocf);
      var mallocSize :- ResolveFunc(env, Symbol.MallocSize);
      var mallocUsableSize :- ResolveFunc(env, Symbol.MallocUsableSize);
      var mallocGoodSize :- ResolveFunc(env, Symbol.MallocGoodSize);
      var cfree :- ResolveFunc(env, Symbol.Cfree);
      var valloc :- ResolveFunc(env, Symbol.Valloc);
      var pvalloc :- ResolveFunc(env, Symbol.Pvalloc);
      var reallocarray :- ResolveFunc(env, Symbol.Reallocarray);
      var reallocarr :- ResolveFunc(env, Symbol.Reallocarr);
      var memalign :- ResolveFunc(env, Symbol.Memalign);
      var alignedAlloc :- ResolveFunc(env, Symbol.AlignedAlloc);
      var posixMemalign :- ResolveFunc(env, Symbol.PosixMemalign);
      var underscorePosixMemalign :- ResolveFunc(env, Symbol.UnderscorePosixMemalign);

      // bulk update
      lut := lut.(malloc := malloc);
      lut := lut.(calloc := calloc);
      lut := lut.(realloc := realloc);
      lut := lut.(free := free);
      lut := lut.(strdup := strdup);
      lut := lut.(strndup := strndup);
      lut := lut.(realpath := realpath);
      lut := lut.(reallocf := reallocf);
      lut := lut.(mallocSize := mallocSize);
      lut := lut.(mallocUsableSize := mallocUsableSize);
      lut := lut.(mallocGoodSize := mallocGoodSize);
      lut := lut.(cfree := cfree);
      lut := lut.(valloc := valloc);
      lut := lut.(pvalloc := pvalloc);
      lut := lut.(reallocarray := reallocarray);
      lut := lut.(reallocarr := reallocarr);
      lut := lut.(memalign := memalign);
      lut := lut.(alignedAlloc := alignedAlloc);
      lut := lut.(posixMemalign := posixMemalign);
      lut := lut.(underscorePosixMemalign := underscorePosixMemalign);
      phase := Final;
      outcome := Ok(());
    }

    /** malloc: forwards the requested size. */
    method Malloc(size: Word) returns (r: Outcome<Call>)
      ensures r == Forward(lut, Symbol.Malloc, [Size(size)])
    {
      var _ :- CheckDefined(lut.malloc, "malloc");
      r := Ok(Call(lut.malloc, [Size(size)]));
    }

    /** calloc: forwards the element count and size. */
    method Calloc(n: Word, size: Word) returns (r: Outcome<Call>)
      ensures r == Forward(lut, Symbol.Calloc, [Size(n), Size(size)])
    {
      var _ :- CheckDefined(lut.calloc, "calloc");
      r := Ok(Call(lut.calloc, [Size(n), Size(size)]));
    }

    /** realloc: forwards the old pointer and the new size. */
    method Realloc(ptr: Word, size: Word) returns (r: Outcome<Call>)
      ensures r == Forward(lut, Symbol.Realloc, [Ptr(ptr), Size(size)])
    {
      var _ :- CheckDefined(lut.realloc, "realloc");
      r := Ok(Call(lut.realloc, [Ptr(ptr), Size(size)]));
    }

    /** free: forwards the pointer to release. */
    method Free(ptr: Word) returns (r: Outcome<Call>)
      ensures r == Forward(lut, Symbol.Free, [Ptr(ptr)])
    {
      var _ :- CheckDefined(lut.free, "free");
      r := Ok(Call(lut.free, [Ptr(ptr)]));
    }

    /** strdup: forwards the string to copy. */
    method Strdup(s: Word) returns (r: Outcome<Call>)
      ensures r == Forward(lut, Symbol.Strdup, [Ptr(s)])
    {
      var _ :- CheckDefined(lut.strdup, "strdup");
      r := Ok(Call(lut.strdup, [Ptr(s)]));
    }

    /** strndup: forwards the string and the maximum length. */
    method Strndup(s: Word, n: Word) returns (r: Outcome<Call>)
      ensures r == Forward(lut, Symbol.Strndup, [Ptr(s), Size(n)])
    {
      var _ :- CheckDefined(lut.strndup, "strndup");
      r := Ok(Call(lut.strndup, [Ptr(s), Size(n)]));
    }

    /** realpath: forwards the path and the caller's result buffer. */
    method Realpath(path: Word, resolvedPath: Word) returns (r: Outcome<Call>)
      ensures r == Forward(lut, Symbol.Realpath, [Ptr(path), Ptr(resolvedPath)])
    {
      var _ :- CheckDefined(lut.realpath, "realpath");
      r := Ok(Call(lut.realpath, [Ptr(path), Ptr(resolvedPath)]));
    }

    /** reallocf: forwards the old pointer and the new size. */
    method Reallocf(ptr: Word, size: Word) returns (r: Outcome<Call>)
      ensures r == Forward(lut, Symbol.Reallocf, [Ptr(ptr), Size(size)])
    {
      var _ :- CheckDefined(lut.reallocf, "reallocf");
      r := Ok(Call(lut.reallocf, [Ptr(ptr), Size(size)]));
    }

    /** malloc_size: forwards the pointer whose block size is asked. */
    method MallocSize(ptr: Word) returns (r: Outcome<Call>)
      ensures r == Forward(lut, Symbol.MallocSize, [Ptr(ptr)])
    {
      var _ :- CheckDefined(lut.mallocSize, "malloc_size");
      r := Ok(Call(lut.mallocSize, [Ptr(ptr)]));
    }

    /** malloc_usable_size: forwards the pointer whose usable size is asked. */
    method MallocUsableSize(ptr: Word) returns (r: Outcome<Call>)
      ensures r == Forward(lut, Symbol.MallocUsableSize, [Ptr(ptr)])
    {
      var _ :- CheckDefined(lut.mallocUsableSize, "malloc_usable_size");
      r := Ok(Call(lut.mallocUsableSize, [Ptr(ptr)]));
    }

    /** malloc_good_size: forwards the size to round up. */
    method MallocGoodSize(size: Word) returns (r: Outcome<Call>)
      ensures r == Forward(lut, Symbol.MallocGoodSize, [Size(size)])
    {
      var _ :- CheckDefined(lut.mallocGoodSize, "malloc_good_size");
      r := Ok(Call(lut.mallocGoodSize, [Size(size)]));
    }

    /** cfree: forwards the pointer to release. */
    method Cfree(ptr: Word) returns (r: Outcome<Call>)
      ensures r == Forward(lut, Symbol.Cfree, [Ptr(ptr)])
    {
      var _ :- CheckDefined(lut.cfree, "cfree");
      r := Ok(Call(lut.cfree, [Ptr(ptr)]));
    }

    /** valloc: forwards the size of the page-aligned block. */
    method Valloc(size: Word) returns (r: Outcome<Call>)
      ensures r == Forward(lut, Symbol.Valloc, [Size(size)])
    {
      var _ :- CheckDefined(lut.valloc, "valloc");
      r := Ok(Call(lut.valloc, [Size(size)]));
    }

    /** pvalloc: forwards the size to round up to whole pages. */
    method Pvalloc(size: Word) returns (r: Outcome<Call>)
      ensures r == Forward(lut, Symbol.Pvalloc, [Size(size)])
    {
      var _ :- CheckDefined(lut.pvalloc, "pvalloc");
      r := Ok(Call(lut.pvalloc, [Size(size)]));
    }

    /** reallocarray: forwards the old pointer, the element count and size. */
    method Reallocarray(ptr: Word, n: Word, size: Word) returns (r: Outcome<Call>)
      ensures r == Forward(lut, Symbol.Reallocarray, [Ptr(ptr), Size(n), Size(size)])
    {
      var _ :- CheckDefined(lut.reallocarray, "reallocarray");
      r := Ok(Call(lut.reallocarray, [Ptr(ptr), Size(n), Size(size)]));
    }

    /** reallocarr: forwards the pointer, the element count and size. */
    method Reallocarr(ptr: Word, n: Word, size: Word) returns (r: Outcome<Call>)
      ensures r == Forward(lut, Symbol.Reallocarr, [Ptr(ptr), Size(n), Size(size)])
    {
      var _ :- CheckDefined(lut.reallocarr, "reallocarr");
      r := Ok(Call(lut.reallocarr, [Ptr(ptr), Size(n), Size(size)]));
    }

    /** memalign: forwards the alignment and the size. */
    method Memalign(alignment: Word, size: Word) returns (r: Outcome<Call>)
      ensures r == Forward(lut, Symbol.Memalign, [Size(alignment), Size(size)])
    {
      var _ :- CheckDefined(lut.memalign, "memalign");
      r := Ok(Call(lut.memalign, [Size(alignment), Size(size)]));
    }

    /** aligned_alloc: forwards the alignment and the size. */
    method AlignedAlloc(alignment: Word, size: Word) returns (r: Outcome<Call>)
      ensures r == Forward(lut, Symbol.AlignedAlloc, [Size(alignment), Size(size)])
    {
      var _ :- CheckDefined(lut.alignedAlloc, "aligned_alloc");
      r := Ok(Call(lut.alignedAlloc, [Size(alignment), Size(size)]));
    }

    /** posix_memalign: forwards the result location, the alignment and the size. */
    method PosixMemalign(memptr: Word, alignment: Word, size: Word) returns (r: Outcome<Call>)
      ensures r == Forward(lut, Symbol.PosixMemalign, [Ptr(memptr), Size(alignment), Size(size)])
    {
      var _ :- CheckDefined(lut.posixMemalign, "posix_memalign");
      r := Ok(Call(lut.posixMemalign, [Ptr(memptr), Size(alignment), Size(size)]));
    }

    /** _posix_memalign: forwards the result location, the alignment and the size. */
    method UnderscorePosixMemalign(memptr: Word, alignment: Word, size: Word) returns (r: Outcome<Call>)
      ensures r == Forward(lut, Symbol.UnderscorePosixMemalign, [Ptr(memptr), Size(alignment), Size(size)])
    {
      var _ :- CheckDefined(lut.underscorePosixMemalign, "_posix_memalign");
      r := Ok(Call(lut.underscorePosixMemalign, [Ptr(memptr), Size(alignment), Size(size)]));
    }
  }
}
