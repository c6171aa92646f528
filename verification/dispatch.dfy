/** The lookup table and what a forwarding entry point does with it:
    abort naming the symbol when its slot is Null, otherwise hand the call,
    arguments unchanged, to the address in the slot. */
module Dispatch {
  import opened Symbols
  import opened Outcomes
  import opened Resolution

  /** The lookup table: one slot per symbol, in the order of the C struct. */
  datatype MallocLut = MallocLut(
    malloc: Addr,
    calloc: Addr,
    realloc: Addr,
    free: Addr,
    strdup: Addr,
    strndup: Addr,
    realpath: Addr,
    reallocf: Addr,
    mallocSize: Addr,
    mallocUsableSize: Addr,
    mallocGoodSize: Addr,
    cfree: Addr,
    valloc: Addr,
    pvalloc: Addr,
    reallocarray: Addr,
    reallocarr: Addr,
    memalign: Addr,
    alignedAlloc: Addr,
    posixMemalign: Addr,
    underscorePosixMemalign: Addr)
  {
    /** The slot that belongs to symbol s. */
    function Slot(s: Symbol): Addr
    {
      match s
      case Malloc => malloc
      case Calloc => calloc
      case Realloc => realloc
      case Free => free
      case Strdup => strdup
      case Strndup => strndup
      case Realpath => realpath
      case Reallocf => reallocf
      case MallocSize => mallocSize
      case MallocUsableSize => mallocUsableSize
      case MallocGoodSize => mallocGoodSize
      case Cfree => cfree
      case Valloc => valloc
      case Pvalloc => pvalloc
      case Reallocarray => reallocarray
      case Reallocarr => reallocarr
      case Memalign => memalign
      case AlignedAlloc => alignedAlloc
      case PosixMemalign => posixMemalign
      case UnderscorePosixMemalign => underscorePosixMemalign
    }
  }

  /** The static initialiser: every slot Null. */
  const EmptyLut := MallocLut(Null, Null, Null, Null, Null, Null, Null, Null, Null, Null, Null, Null, Null, Null, Null, Null, Null, Null, Null, Null)

  lemma EmptyLutIsNull(s: Symbol)
    ensures EmptyLut.Slot(s) == Null
  {
  }

  /** A 64-bit machine word (size_t, or a data pointer with 0 for NULL). */
  newtype Word = x: int | 0 <= x < 0x1_0000_0000_0000_0000

  /** An argument as the caller passes it. */
  datatype Value = Ptr(p: Word) | Size(n: Word)

  /** The call a wrapper makes as its last action: the result of that call,
      if any, is the wrapper's result unchanged. */
  datatype Call = Call(target: Addr, args: seq<Value>)

  function NotDefined(name: string): string
  {
    name + "() is not defined"
  }

  /** check_defined: abort with a message naming the symbol when its
      address is Null, and carry on otherwise. */
  function CheckDefined(symbol: Addr, name: string): (r: Outcome<()>)
    ensures r.Ok? <==> symbol != Null
    ensures r.Abort? ==> r.message == NotDefined(name)
  {
    if symbol == Null then Abort(NotDefined(name)) else Ok(())
  }

  /** What the wrapper for symbol s does when called with args. */
  function Forward(t: MallocLut, s: Symbol, args: seq<Value>): (r: Outcome<Call>)
    ensures r.Abort? <==> t.Slot(s) == Null
    ensures r.Abort? ==> r.message == NotDefined(Name(s))
    ensures r.Ok? ==> r.value.target == t.Slot(s) && r.value.args == args
  {
    var _ :- CheckDefined(t.Slot(s), Name(s));
    Ok(Call(t.Slot(s), args))
  }

  /** One call into the shim's surface. */
  datatype Request = Request(symbol: Symbol, args: seq<Value>)

  /** A sequence of calls through the wrappers against a fixed table: the
      first call whose slot is Null terminates the process. */
  function Run(t: MallocLut, reqs: seq<Request>): (r: Outcome<seq<Call>>)
    // a run aborts exactly when it calls an unresolved symbol
    ensures r.Abort? <==> exists i :: 0 <= i < |reqs| && t.Slot(reqs[i].symbol) == Null
    // and then it names the first such symbol
    ensures r.Abort? ==>
      exists i :: 0 <= i < |reqs| && t.Slot(reqs[i].symbol) == Null
        && r.message == NotDefined(Name(reqs[i].symbol))
        && forall j :: 0 <= j < i ==> t.Slot(reqs[j].symbol) != Null
    // otherwise every call reached its own slot with its own arguments
    ensures r.Ok? ==>
      |r.value| == |reqs| &&
      forall i :: 0 <= i < |reqs| ==> r.value[i] == Call(t.Slot(reqs[i].symbol), reqs[i].args)
    decreases |reqs|
  {
    if reqs == [] then
      Ok([])
    else
      var first :- Forward(t, reqs[0].symbol, reqs[0].args);
      var rest :- Run(t, reqs[1..]);
      Ok([first] + rest)
  }
}
