/** The target C++ ABI descriptor of clang: a closed set of ABI kinds, the
    facts a code generator queries about each kind, and the small mutable
    descriptor object that holds one kind.

    Every query is an exhaustive `match` over `Kind` with no default arm, so
    Dafny's exhaustiveness check plays the part of the compiler's switch
    coverage check, and each query's contract states its table outright. */
module CXXABI {

  /** The basic C++ ABI kinds, in declaration order. */
  datatype Kind =
    | GenericItanium   // the generic Itanium C++ ABI
    | GenericARM       // ARM's C++ ABI (document IHI0041C)
    | iOS              // a partial implementation of the ARM ABI
    | iOS64            // ARM's published 64-bit C++ ABI (document IHI0059A)
    | WatchOS          // the iOS64 ABI ported to 32 bits
    | GenericAArch64   // the generic AArch64 variant of the Itanium ABI
    | GenericMIPS      // the generic MIPS variant of the Itanium ABI
    | WebAssembly      // the WebAssembly variant of the Itanium ABI
    | Fuchsia          // the Fuchsia variant of the Itanium ABI
    | Microsoft        // the ABI of Microsoft Visual Studio

  /** When record layout may allocate objects in the tail padding of a base. */
  datatype TailPaddingUseRules =
    | AlwaysUseTailPadding        // always, even when the base is POD
    | UseTailPaddingUnlessPOD03   // unless the base is POD by the rules of C++ TR1
    | UseTailPaddingUnlessPOD11   // unless the base is POD by the rules of C++11

  /** Does this ABI generally fall into the Itanium family of ABIs?
      In clang's header `isItaniumFamily` is a switch written independently
      of `isMicrosoft`. */
  predicate IsItaniumFamily(k: Kind)
    ensures IsItaniumFamily(k) <==> k != Microsoft
  {
    match k
    case Fuchsia | GenericAArch64 | GenericItanium | GenericARM | iOS
       | iOS64 | WatchOS | GenericMIPS | WebAssembly => true
    case Microsoft => false
  }

  /** Is this ABI an MSVC-compatible ABI? The two family switches agree:
      an ABI is Microsoft exactly when it is not of the Itanium family. */
  predicate IsMicrosoft(k: Kind)
    ensures IsMicrosoft(k) <==> k == Microsoft
    ensures IsMicrosoft(k) <==> !IsItaniumFamily(k)
  {
    match k
    case Fuchsia | GenericAArch64 | GenericItanium | GenericARM | iOS
       | iOS64 | WatchOS | GenericMIPS | WebAssembly => false
    case Microsoft => true
  }

  /** Are member functions specially aligned (so that the low bit of a
      member-function pointer is free)? Only WebAssembly does without. */
  predicate AreMemberFunctionsAligned(k: Kind)
    ensures !AreMemberFunctionsAligned(k) <==> k == WebAssembly
    ensures IsMicrosoft(k) ==> AreMemberFunctionsAligned(k)
  {
    match k
    case WebAssembly => false
    case Fuchsia | GenericARM | GenericAArch64 | GenericMIPS
       | GenericItanium | iOS | iOS64 | WatchOS | Microsoft => true
  }

  /** Are arguments to a call destroyed left to right in the callee?
      Only in the Microsoft ABI. */
  predicate AreArgsDestroyedLeftToRightInCallee(k: Kind)
    ensures AreArgsDestroyedLeftToRightInCallee(k) <==> k == Microsoft
  {
    IsMicrosoft(k)
  }

  /** Are there separate entry points for complete-object and base-subobject
      constructors? In every ABI but Microsoft's. */
  predicate HasConstructorVariants(k: Kind)
    ensures !HasConstructorVariants(k) <==> k == Microsoft
  {
    IsItaniumFamily(k)
  }

  /** May a virtual base be a primary base class? In every ABI but Microsoft's. */
  predicate HasPrimaryVBases(k: Kind)
    ensures !HasPrimaryVBases(k) <==> k == Microsoft
  {
    IsItaniumFamily(k)
  }

  /** Is class data such as the vtable emitted with strong linkage by the
      translation unit of the key function? In every ABI but Microsoft's. */
  predicate HasKeyFunctions(k: Kind)
    ensures !HasKeyFunctions(k) <==> k == Microsoft
  {
    IsItaniumFamily(k)
  }

  /** Can an out-of-line inline function serve as a key function?
      The answer only matters where key functions exist: every ABI that
      forbids inline key functions is one that has key functions. */
  predicate CanKeyFunctionBeInline(k: Kind)
    ensures !CanKeyFunctionBeInline(k) <==>
              k in {Fuchsia, GenericARM, iOS64, WebAssembly, WatchOS}
    ensures CanKeyFunctionBeInline(k) <==>
              k in {GenericAArch64, GenericItanium, iOS, Microsoft, GenericMIPS}
    ensures !CanKeyFunctionBeInline(k) ==> HasKeyFunctions(k)
  {
    match k
    case Fuchsia | GenericARM | iOS64 | WebAssembly | WatchOS => false
    case GenericAArch64 | GenericItanium | iOS | Microsoft | GenericMIPS => true
  }

  /** The tail-padding rule of each ABI: a frozen binary-compatibility fact.
      Only the Microsoft ABI reuses tail padding whether or not the base is
      POD; every Itanium-family ABI follows one of the two POD-based rules. */
  function GetTailPaddingUseRules(k: Kind): (r: TailPaddingUseRules)
    ensures r == AlwaysUseTailPadding <==> IsMicrosoft(k)
    ensures r == UseTailPaddingUnlessPOD03 <==>
              k in {GenericItanium, GenericAArch64, GenericARM, iOS, GenericMIPS}
    ensures r == UseTailPaddingUnlessPOD11 <==>
              k in {Fuchsia, iOS64, WebAssembly, WatchOS}
  {
    match k
    case GenericItanium | GenericAArch64 | GenericARM | iOS | GenericMIPS =>
      UseTailPaddingUnlessPOD03
    case Fuchsia | iOS64 | WebAssembly | WatchOS => UseTailPaddingUnlessPOD11
    case Microsoft => AlwaysUseTailPadding
  }

  /** The descriptor: a cheap object that holds exactly one ABI kind. */
  class TargetCXXABI {
    var kind: Kind

    /** The default descriptor: a provisional generic Itanium ABI. */
    constructor ()
      ensures GetKind() == GenericItanium
    {
      kind := GenericItanium;
    }

    constructor OfKind(k: Kind)
      ensures GetKind() == k
    {
      kind := k;
    }

    /** Replaces the held kind; the descriptor has no other state. */
    method Set(k: Kind)
      modifies this`kind
      ensures GetKind() == k
    {
      kind := k;
    }

    function GetKind(): Kind
      reads this
    {
      kind
    }
  }

  /** Descriptors are equal when they hold the same kind. */
  predicate Equal(left: TargetCXXABI, right: TargetCXXABI)
    reads left, right
  {
    left.GetKind() == right.GetKind()
  }

  /** The inequality operator: the negation of Equal, hence "the kinds differ". */
  predicate NotEqual(left: TargetCXXABI, right: TargetCXXABI)
    reads left, right
    ensures NotEqual(left, right) <==> left.GetKind() != right.GetKind()
  {
    !Equal(left, right)
  }
}
