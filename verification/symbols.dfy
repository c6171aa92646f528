/** The fixed set of allocator-family symbols the shim interposes, in the
    order of the fields of the lookup table. */
module Symbols {

  datatype Symbol =
    // Standard C allocation
    | Malloc | Calloc | Realloc | Free | Strdup | Strndup | Realpath
    // Various POSIX and Unix variants
    | Reallocf | MallocSize | MallocUsableSize | MallocGoodSize | Cfree
    | Valloc | Pvalloc | Reallocarray | Reallocarr | Memalign | AlignedAlloc
    | PosixMemalign | UnderscorePosixMemalign

  /** Every symbol, in table order. */
  const AllSymbols: seq<Symbol> :=
    [Malloc, Calloc, Realloc, Free, Strdup, Strndup, Realpath,
     Reallocf, MallocSize, MallocUsableSize, MallocGoodSize, Cfree,
     Valloc, Pvalloc, Reallocarray, Reallocarr, Memalign, AlignedAlloc,
     PosixMemalign, UnderscorePosixMemalign]

  /** The C name under which the symbol is exported and looked up. */
  function Name(s: Symbol): string
  {
    match s
    case Malloc => "malloc"
    case Calloc => "calloc"
    case Realloc => "realloc"
    case Free => "free"
    case Strdup => "strdup"
    case Strndup => "strndup"
    case Realpath => "realpath"
    case Reallocf => "reallocf"
    case MallocSize => "malloc_size"
    case MallocUsableSize => "malloc_usable_size"
    case MallocGoodSize => "malloc_good_size"
    case Cfree => "cfree"
    case Valloc => "valloc"
    case Pvalloc => "pvalloc"
    case Reallocarray => "reallocarray"
    case Reallocarr => "reallocarr"
    case Memalign => "memalign"
    case AlignedAlloc => "aligned_alloc"
    case PosixMemalign => "posix_memalign"
    case UnderscorePosixMemalign => "_posix_memalign"
  }

  /** Distinct symbols have distinct names, so a diagnostic that names a
      symbol identifies it. */
  lemma NameInjective(a: Symbol, b: Symbol)
    ensures Name(a) == Name(b) ==> a == b
  {
  }

  /** The position of a symbol in the table, which is also the order in
      which initialisation resolves the symbols. */
  function Index(s: Symbol): (i: nat)
    ensures i < |AllSymbols| && AllSymbols[i] == s
  {
    match s
    case Malloc => 0
    case Calloc => 1
    case Realloc => 2
    case Free => 3
    case Strdup => 4
    case Strndup => 5
    case Realpath => 6
    case Reallocf => 7
    case MallocSize => 8
    case MallocUsableSize => 9
    case MallocGoodSize => 10
    case Cfree => 11
    case Valloc => 12
    case Pvalloc => 13
    case Reallocarray => 14
    case Reallocarr => 15
    case Memalign => 16
    case AlignedAlloc => 17
    case PosixMemalign => 18
    case UnderscorePosixMemalign => 19
  }

  /** A property of every symbol follows from its twenty instances. */
  lemma ForallSymbols(p: Symbol -> bool)
    requires p(Malloc) && p(Calloc) && p(Realloc) && p(Free) && p(Strdup)
    requires p(Strndup) && p(Realpath) && p(Reallocf) && p(MallocSize)
    requires p(MallocUsableSize) && p(MallocGoodSize) && p(Cfree) && p(Valloc)
    requires p(Pvalloc) && p(Reallocarray) && p(Reallocarr) && p(Memalign)
    requires p(AlignedAlloc) && p(PosixMemalign) && p(UnderscorePosixMemalign)
    ensures forall s :: p(s)
  {
    forall s ensures p(s) {
      match s
      case Malloc =>
      case Calloc =>
      case Realloc =>
      case Free =>
      case Strdup =>
      case Strndup =>
      case Realpath =>
      case Reallocf =>
      case MallocSize =>
      case MallocUsableSize =>
      case MallocGoodSize =>
      case Cfree =>
      case Valloc =>
      case Pvalloc =>
      case Reallocarray =>
      case Reallocarr =>
      case Memalign =>
      case AlignedAlloc =>
      case PosixMemalign =>
      case UnderscorePosixMemalign =>
    }
  }
}
