/** The per-symbol resolution rule: choose between mimalloc's definition
    and whatever already comes next in the loader's search order. */
module Resolution {
  import opened Symbols
  import opened Outcomes

  /** A code address as the loader reports it; Null is dlsym's "not found". */
  datatype Addr = Null | Code(id: nat)

  /** What the dynamic loader answers, taken as fixed inputs. resolve_func
      opens both libraries afresh on every call, so the two dlopen answers
      are given per call, that is per symbol being resolved: the symbols
      whose call finds libc.so.6 already loaded (dlopen with RTLD_NOLOAD)
      and those whose call can load libmimalloc.so (dlopen). Then the definitions dlsym
      finds in libc, in mimalloc and via RTLD_NEXT; a symbol that is not a
      key of a definition map is not defined there. */
  datatype Env = Env(
    libcLoaded: set<Symbol>,
    mimallocLoadable: set<Symbol>,
    libcDefs: map<Symbol, Addr>,
    mimallocDefs: map<Symbol, Addr>,
    nextDefs: map<Symbol, Addr>)

  const LibcNotLoaded := "libc.so.6 not loaded"
  const MimallocNotLoadable := "Failed to load libmimalloc.so"

  /** dlsym: the address a definition map gives the symbol, or Null. */
  function Dlsym(defs: map<Symbol, Addr>, s: Symbol): (a: Addr)
    ensures a != Null ==> s in defs
  {
    if s in defs then defs[s] else Null
  }

  function LibcSym(env: Env, s: Symbol): Addr { Dlsym(env.libcDefs, s) }
  function MimallocSym(env: Env, s: Symbol): Addr { Dlsym(env.mimallocDefs, s) }
  function NextSym(env: Env, s: Symbol): Addr { Dlsym(env.nextDefs, s) }

  /** Both libraries the rule needs are available when resolving s. */
  predicate LoaderReady(env: Env, s: Symbol)
  {
    s in env.libcLoaded && s in env.mimallocLoadable
  }

  /** resolve_func: abort if libc is not loaded or mimalloc cannot be loaded;
      otherwise pick mimalloc's address when the next definition is libc's
      or mimalloc's own, and keep the next definition when some other
      library has claimed the symbol. */
  function ResolveFunc(env: Env, s: Symbol): (r: Outcome<Addr>)
    // whether resolution aborts depends on the two dlopen answers only,
    // never on which definitions dlsym finds
    ensures r.Abort? <==> !LoaderReady(env, s)
    // the libc check comes first
    ensures s !in env.libcLoaded ==> r == Abort(LibcNotLoaded)
    ensures s in env.libcLoaded && s !in env.mimallocLoadable ==> r == Abort(MimallocNotLoadable)
    // the answer is one of two candidates and never invented
    ensures r.Ok? ==> r.value == MimallocSym(env, s) || r.value == NextSym(env, s)
  {
    if s !in env.libcLoaded then
      Abort(LibcNotLoaded)
    else if s !in env.mimallocLoadable then
      Abort(MimallocNotLoadable)
    else
      Ok(Choose(LibcSym(env, s), MimallocSym(env, s), NextSym(env, s)))
  }

  /** The decision at the end of resolve_func: when the next definition is
      libc's or mimalloc's own, nobody else has claimed the symbol and
      mimalloc's is used; otherwise the claimant's is kept. */
  function Choose(libcSym: Addr, mimallocSym: Addr, nextSym: Addr): (a: Addr)
    ensures a == mimallocSym || a == nextSym
  {
    if nextSym == libcSym || nextSym == mimallocSym then mimallocSym else nextSym
  }

  /** Whether some library other than libc and mimalloc provides the next
      definition of a symbol, as far as the rule can tell by comparing
      addresses (Null included). */
  datatype Provider = Unclaimed | Interposer

  function NextProvider(env: Env, s: Symbol): Provider
  {
    var next := NextSym(env, s);
    if next == LibcSym(env, s) || next == MimallocSym(env, s) then Unclaimed else Interposer
  }

  /** The priority order interposer > mimalloc > libc: an interposer's
      definition is kept; otherwise mimalloc's is used, never libc's. */
  lemma ResolutionFollowsPriority(env: Env, s: Symbol)
    requires LoaderReady(env, s)
    ensures NextProvider(env, s) == Interposer ==> ResolveFunc(env, s) == Ok(NextSym(env, s))
    ensures NextProvider(env, s) == Unclaimed ==> ResolveFunc(env, s) == Ok(MimallocSym(env, s))
  {
  }

  /** An unclaimed symbol (next is libc's or mimalloc's definition, Null
      included) resolves to mimalloc's address. */
  lemma UnclaimedSelectsMimalloc(env: Env, s: Symbol)
    requires LoaderReady(env, s)
    requires NextSym(env, s) == LibcSym(env, s) || NextSym(env, s) == MimallocSym(env, s)
    ensures ResolveFunc(env, s) == Ok(MimallocSym(env, s))
  {
  }

  /** A claimed symbol resolves to the earlier interposer's address unchanged. */
  lemma ClaimedKeepsNext(env: Env, s: Symbol)
    requires LoaderReady(env, s)
    requires NextSym(env, s) != LibcSym(env, s) && NextSym(env, s) != MimallocSym(env, s)
    ensures ResolveFunc(env, s) == Ok(NextSym(env, s))
  {
  }

  /** libc's own definition is only a reference point: it is selected only
      when it coincides with mimalloc's. */
  lemma NeverSelectsLibc(env: Env, s: Symbol)
    requires ResolveFunc(env, s).Ok?
    requires LibcSym(env, s) != MimallocSym(env, s)
    ensures ResolveFunc(env, s).value != LibcSym(env, s)
  {
  }

  /** A symbol missing from every library resolves to mimalloc's Null
      without aborting: Null next equals Null libc. */
  lemma AbsentEverywhereIsNull(env: Env, s: Symbol)
    requires LoaderReady(env, s)
    requires LibcSym(env, s) == Null && MimallocSym(env, s) == Null && NextSym(env, s) == Null
    ensures ResolveFunc(env, s) == Ok(Null)
  {
  }

  /** A missing next definition is returned as Null even when libc and
      mimalloc both define the symbol: resolution defers the failure. */
  lemma MissingNextIsReturned(env: Env, s: Symbol)
    requires LoaderReady(env, s)
    requires LibcSym(env, s) != Null && MimallocSym(env, s) != Null
    requires NextSym(env, s) == Null
    ensures ResolveFunc(env, s) == Ok(Null)
  {
  }
}
