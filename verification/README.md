# malloc-glue (mimalloc shim), modelled in Dafny

malloc-glue is a small shared object. It is preloaded into a process and
exports the twenty allocator-family entry points: `malloc`, `calloc`,
`realloc`, `free`, `strdup`, `strndup`, `realpath`, `reallocf`,
`malloc_size`, `malloc_usable_size`, `malloc_good_size`, `cfree`, `valloc`,
`pvalloc`, `reallocarray`, `reallocarr`, `memalign`, `aligned_alloc`,
`posix_memalign` and `_posix_memalign`. Every entry point forwards through a
global lookup table, `malloc_lut`.

At load time `init` fills the table in two phases:

1. Bootstrap: each slot gets the definition that `dlsym(RTLD_NEXT, name)`
   finds, so allocation done by the loader keeps working.
2. Resolution: `resolve_func` runs once per symbol, in table order, and then
   all twenty results are copied in bulk.

`resolve_func` aborts if libc.so.6 is not already loaded or if
libmimalloc.so cannot be loaded. Otherwise it picks mimalloc's definition
when the next definition in search order is libc's or mimalloc's own.
When some earlier library has claimed the symbol, it keeps that library's
definition. So the priority is interposer > mimalloc > libc. A symbol
missing from a library is never fatal at resolution time. It only becomes
fatal when that symbol is called, by the process or by the loader while init
runs: the wrapper's `check_defined`
aborts with "name() is not defined".

The model has five modules:

- `Symbols` (symbols.dfy): the twenty symbols and their C names.
- `Outcomes` (outcome.dfy): `Outcome<T>`, where `Abort(message)` stands for
  "print this diagnostic and call abort()".
- `Resolution` (resolution.dfy): the loader's answers as an input `Env`,
  `resolve_func`, and the priority rule.
- `Dispatch` (dispatch.dfy): the table as a twenty-field datatype, plus
  `check_defined` and what a wrapper call does with the table.
- `Glue` (glue.dfy): `init` and the wrappers as a class `Shim` with a
  mutable `lut` field, and the lemmas that tie initialisation to
  resolution and to later calls.

## Model

| member | source | states |
|---|---|---|
| Symbols.NameInjective | mimalloc-glue.c:27-48 | no two symbols share a C name, so an abort message names exactly one symbol |
| Symbols.Index | mimalloc-glue.c:25-49 | every symbol has a position in the table enumeration, which is also the order init resolves in |
| Symbols.ForallSymbols | mimalloc-glue.c:25-49 | a property holding for each of the twenty fields holds for every symbol |
| Resolution.Dlsym | mimalloc-glue.c:99-105 | dlsym returns a non-Null address only for a symbol the queried library defines |
| Resolution.ResolveFunc | mimalloc-glue.c:83-115 | resolution aborts exactly when the loader cannot provide both libraries, independent of any definition. If libc is not loaded it aborts with "libc.so.6 not loaded", checked first. If libc is loaded but mimalloc cannot be loaded it aborts with "Failed to load libmimalloc.so". Otherwise the result is mimalloc's or the next definition, never anything else |
| Resolution.Choose | mimalloc-glue.c:107-114 | the final choice is one of the mimalloc and next addresses |
| Resolution.ResolutionFollowsPriority | mimalloc-glue.c:107-114 | with both libraries present, an interposer's definition is returned unchanged, and in every other case mimalloc's is returned |
| Resolution.UnclaimedSelectsMimalloc | mimalloc-glue.c:107-110 | when the next definition equals libc's or mimalloc's, Nulls included, mimalloc's address is returned |
| Resolution.ClaimedKeepsNext | mimalloc-glue.c:112-114 | when the next definition equals neither, it is returned unchanged, so an earlier interposer wins |
| Resolution.NeverSelectsLibc | mimalloc-glue.c:107-114 | a successful resolution never returns libc's own definition unless it coincides with mimalloc's |
| Resolution.AbsentEverywhereIsNull | mimalloc-glue.c:98-114 | a symbol no library defines, whether absent or mapped to Null, resolves to Null without aborting |
| Resolution.MissingNextIsReturned | mimalloc-glue.c:98-114 | when libc and mimalloc define the symbol but RTLD_NEXT finds nothing, the result is Null rather than an abort |
| Dispatch.EmptyLutIsNull | mimalloc-glue.c:55-76 | the statically initialised table holds Null in every slot |
| Dispatch.CheckDefined | mimalloc-glue.c:121-126 | check_defined aborts exactly when the address is Null, with "name() is not defined" naming the given symbol |
| Dispatch.Forward | mimalloc-glue.c:206-323 | a wrapper call on a table aborts exactly when its symbol's slot is Null, with a message naming that symbol. Otherwise it calls exactly that slot's address with the caller's arguments unchanged |
| Dispatch.Run | mimalloc-glue.c:203-323 | a sequence of wrapper calls aborts exactly when it calls some symbol whose slot is Null. The message names the first such call, and all earlier calls were defined. Otherwise each call reached its own symbol's slot with its own arguments |
| Glue.BootstrapLut | mimalloc-glue.c:136-156 | after phase 1 every slot holds its own symbol's RTLD_NEXT definition |
| Glue.ResolveAll | mimalloc-glue.c:158-178 | the twenty resolutions in table order, stopping at the first abort. An aborted resolution phase reports one of the two loader failures: no resolution aborts because a definition is missing |
| Glue.FirstFailureDecides | mimalloc-glue.c:158-178 | for any position k in table order whose symbol is the first whose resolution fails, the resolution phase aborts with that symbol's message. It is proved position by position with the helpers `Glue.FailsAtMalloc` through `Glue.FailsAtUnderscorePosixMemalign` |
| Glue.AbortNamesFirstFailure | mimalloc-glue.c:158-178 | every aborted resolution phase has a first failing resolution in table order, with all earlier ones succeeding, and reports that resolution's message |
| Glue.BootstrapCallGoesToNext | mimalloc-glue.c:136-156 | during resolution a call to the shim goes where it would have gone without the shim, and aborts naming the symbol if there is nothing there |
| Glue.ResolveAllOkIff | mimalloc-glue.c:158-178 | the twenty resolutions all succeed exactly when the loader provides both libraries for every one of them, so no resolution fails because a definition is missing |
| Glue.SteadyLoaderDecides | mimalloc-glue.c:158-178 | if the loader answers alike on every call, the resolution phase completes exactly when libc is loaded and mimalloc loadable |
| Glue.ResolveAllValue | mimalloc-glue.c:158-200 | a completed resolution phase's table is the table whose every slot is its own symbol's resolution |
| Glue.ResolvedLutSlot | mimalloc-glue.c:181-200 | in that table each slot is `resolve_func` of its own name, with no cross-wiring |
| Glue.ResolvedSlot | mimalloc-glue.c:158-200 | after init completes, each slot equals `resolve_func` of its own name |
| Glue.OnlyUnclaimedSlotsChange | mimalloc-glue.c:136-200 | phase 2 changes a slot exactly when the symbol is unclaimed and mimalloc's definition differs from the RTLD_NEXT one |
| Glue.UnclaimedCallReachesMimalloc | mimalloc-glue.c:107-110 | after init, a call to an unclaimed symbol that mimalloc defines reaches mimalloc with the caller's arguments |
| Glue.InterposerCallPassesThrough | mimalloc-glue.c:112-114 | after init, a call to a symbol an earlier interposer defines reaches that interposer with the caller's arguments |
| Glue.UnresolvedAbortsWhenCalled | mimalloc-glue.c:121-126 | after init, a symbol that resolved to Null aborts at its first call, with a message naming it |
| Glue.LazyFatalityOnTable | mimalloc-glue.c:121-126 | on the resolved table, a run that calls only symbols resolved to a definition never aborts, and each call reaches its resolved definition |
| Glue.LazyFatality | mimalloc-glue.c:121-126 | after init, a process that calls only symbols resolved to a definition never aborts, however many others are unresolved, and each call reaches its symbol's resolved definition |
| Glue.Shim.constructor | mimalloc-glue.c:55-76 | the table starts with all twenty slots Null, before init |
| Glue.Shim.Init | mimalloc-glue.c:135-201 | init's outcome follows its twenty resolutions: it succeeds exactly when all of them do, and then the table is the resolved table. On a resolution abort the message is the failing resolution's, and the table is still the phase-1 RTLD_NEXT table, so no resolved value has been written |
| Glue.Shim.Malloc | mimalloc-glue.c:206-209 | the `malloc` wrapper behaves as `Forward` on the current table for `malloc` with its own arguments in order: it aborts with "malloc() is not defined" exactly when the slot is Null, otherwise it calls the slot's address with the arguments unchanged; it has no `modifies`, so the table is untouched |
| Glue.Shim.Calloc | mimalloc-glue.c:212-215 | the `calloc` wrapper behaves as `Forward` on the current table for `calloc` with its own arguments in order: it aborts with "calloc() is not defined" exactly when the slot is Null, otherwise it calls the slot's address with the arguments unchanged; it has no `modifies`, so the table is untouched |
| Glue.Shim.Realloc | mimalloc-glue.c:218-221 | the `realloc` wrapper behaves as `Forward` on the current table for `realloc` with its own arguments in order: it aborts with "realloc() is not defined" exactly when the slot is Null, otherwise it calls the slot's address with the arguments unchanged; it has no `modifies`, so the table is untouched |
| Glue.Shim.Free | mimalloc-glue.c:224-227 | the `free` wrapper behaves as `Forward` on the current table for `free` with its own arguments in order: it aborts with "free() is not defined" exactly when the slot is Null, otherwise it calls the slot's address with the arguments unchanged; it has no `modifies`, so the table is untouched |
| Glue.Shim.Strdup | mimalloc-glue.c:230-233 | the `strdup` wrapper behaves as `Forward` on the current table for `strdup` with its own arguments in order: it aborts with "strdup() is not defined" exactly when the slot is Null, otherwise it calls the slot's address with the arguments unchanged; it has no `modifies`, so the table is untouched |
| Glue.Shim.Strndup | mimalloc-glue.c:236-239 | the `strndup` wrapper behaves as `Forward` on the current table for `strndup` with its own arguments in order: it aborts with "strndup() is not defined" exactly when the slot is Null, otherwise it calls the slot's address with the arguments unchanged; it has no `modifies`, so the table is untouched |
| Glue.Shim.Realpath | mimalloc-glue.c:242-245 | the `realpath` wrapper behaves as `Forward` on the current table for `realpath` with its own arguments in order: it aborts with "realpath() is not defined" exactly when the slot is Null, otherwise it calls the slot's address with the arguments unchanged; it has no `modifies`, so the table is untouched |
| Glue.Shim.Reallocf | mimalloc-glue.c:248-251 | the `reallocf` wrapper behaves as `Forward` on the current table for `reallocf` with its own arguments in order: it aborts with "reallocf() is not defined" exactly when the slot is Null, otherwise it calls the slot's address with the arguments unchanged; it has no `modifies`, so the table is untouched |
| Glue.Shim.MallocSize | mimalloc-glue.c:254-257 | the `malloc_size` wrapper behaves as `Forward` on the current table for `malloc_size` with its own arguments in order: it aborts with "malloc_size() is not defined" exactly when the slot is Null, otherwise it calls the slot's address with the arguments unchanged; it has no `modifies`, so the table is untouched |
| Glue.Shim.MallocUsableSize | mimalloc-glue.c:260-263 | the `malloc_usable_size` wrapper behaves as `Forward` on the current table for `malloc_usable_size` with its own arguments in order: it aborts with "malloc_usable_size() is not defined" exactly when the slot is Null, otherwise it calls the slot's address with the arguments unchanged; it has no `modifies`, so the table is untouched |
| Glue.Shim.MallocGoodSize | mimalloc-glue.c:266-269 | the `malloc_good_size` wrapper behaves as `Forward` on the current table for `malloc_good_size` with its own arguments in order: it aborts with "malloc_good_size() is not defined" exactly when the slot is Null, otherwise it calls the slot's address with the arguments unchanged; it has no `modifies`, so the table is untouched |
| Glue.Shim.Cfree | mimalloc-glue.c:272-275 | the `cfree` wrapper behaves as `Forward` on the current table for `cfree` with its own arguments in order: it aborts with "cfree() is not defined" exactly when the slot is Null, otherwise it calls the slot's address with the arguments unchanged; it has no `modifies`, so the table is untouched |
| Glue.Shim.Valloc | mimalloc-glue.c:278-281 | the `valloc` wrapper behaves as `Forward` on the current table for `valloc` with its own arguments in order: it aborts with "valloc() is not defined" exactly when the slot is Null, otherwise it calls the slot's address with the arguments unchanged; it has no `modifies`, so the table is untouched |
| Glue.Shim.Pvalloc | mimalloc-glue.c:284-287 | the `pvalloc` wrapper behaves as `Forward` on the current table for `pvalloc` with its own arguments in order: it aborts with "pvalloc() is not defined" exactly when the slot is Null, otherwise it calls the slot's address with the arguments unchanged; it has no `modifies`, so the table is untouched |
| Glue.Shim.Reallocarray | mimalloc-glue.c:290-293 | the `reallocarray` wrapper behaves as `Forward` on the current table for `reallocarray` with its own arguments in order: it aborts with "reallocarray() is not defined" exactly when the slot is Null, otherwise it calls the slot's address with the arguments unchanged; it has no `modifies`, so the table is untouched |
| Glue.Shim.Reallocarr | mimalloc-glue.c:296-299 | the `reallocarr` wrapper behaves as `Forward` on the current table for `reallocarr` with its own arguments in order: it aborts with "reallocarr() is not defined" exactly when the slot is Null, otherwise it calls the slot's address with the arguments unchanged; it has no `modifies`, so the table is untouched |
| Glue.Shim.Memalign | mimalloc-glue.c:302-305 | the `memalign` wrapper behaves as `Forward` on the current table for `memalign` with its own arguments in order: it aborts with "memalign() is not defined" exactly when the slot is Null, otherwise it calls the slot's address with the arguments unchanged; it has no `modifies`, so the table is untouched |
| Glue.Shim.AlignedAlloc | mimalloc-glue.c:308-311 | the `aligned_alloc` wrapper behaves as `Forward` on the current table for `aligned_alloc` with its own arguments in order: it aborts with "aligned_alloc() is not defined" exactly when the slot is Null, otherwise it calls the slot's address with the arguments unchanged; it has no `modifies`, so the table is untouched |
| Glue.Shim.PosixMemalign | mimalloc-glue.c:314-317 | the `posix_memalign` wrapper behaves as `Forward` on the current table for `posix_memalign` with its own arguments in order: it aborts with "posix_memalign() is not defined" exactly when the slot is Null, otherwise it calls the slot's address with the arguments unchanged; it has no `modifies`, so the table is untouched |
| Glue.Shim.UnderscorePosixMemalign | mimalloc-glue.c:320-323 | the `_posix_memalign` wrapper behaves as `Forward` on the current table for `_posix_memalign` with its own arguments in order: it aborts with "_posix_memalign() is not defined" exactly when the slot is Null, otherwise it calls the slot's address with the arguments unchanged; it has no `modifies`, so the table is untouched |

## Left out

- The dynamic loader: `dlopen`, `dlsym`, `RTLD_NEXT` and `RTLD_NOLOAD` are not modelled. Their answers are the fixed input `Env`. Per symbol, that is whether libc.so.6 is already loaded, whether libmimalloc.so can be loaded, and the definitions found in libc, in mimalloc and via `RTLD_NEXT`. Search order, the exclusion of the shim's own module and reference counting are not modelled.
- `resolve_func` reopens both libraries on every call, so the model lets each call's two `dlopen` answers differ. A real loader normally answers alike every time. `Glue.SteadyLoaderDecides` states the consequence for that case.
- The same `RTLD_NEXT` answers serve phase 1 and phase 2, because the model treats loader state as unchanged by loading libmimalloc.so.
- The allocator functions the wrappers forward to are foreign code. A forwarded call is the record `Call(address, arguments)`. The callee's result, which the C wrapper returns unchanged, is not modelled.
- `__attribute__((constructor))`: load-time execution is not modelled. `Glue.Shim.Init` is called on a fresh `Shim`. Concurrency is not modelled, and neither is thread safety of the table, which is only read after init.
- `fprintf` and `abort()`: an abort is the outcome `Abort(message)`. The message drops the trailing newline, and process termination is not modelled.
- C types: `size_t` values and data pointers are one 64-bit `Word`, with 0 as NULL. Function-pointer signatures, `_Nullable` and `[[deprecated]]` are not modelled. `cfree` returns the forwarded call like the others, which matches C's `return lut.cfree(ptr)` in a `void` function.
- Glue.Shim.Init: the loader's own calls into the shim's wrappers during init are not modelled. `dlsym` at lines 137-156 and `dlopen`/`dlsym` inside each resolution may allocate, and those calls go through the current table. A Null slot there aborts with "name() is not defined" (`Glue.BootstrapCallGoesToNext` states this for the phase-1 table). That abort is outside Init's outcome and outside the contracts of `Glue.ResolveAll`, `Glue.ResolveAllOkIff`, `Glue.SteadyLoaderDecides`, `Glue.FirstFailureDecides` and `Glue.AbortNamesFirstFailure`, which speak only of the resolution phase.
