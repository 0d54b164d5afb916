# clang's target C++ ABI descriptor, in Dafny

This project models `clang::TargetCXXABI`. It is the small value that tells clang's record-layout, vtable, calling-convention and mangling code which C++ ABI is being targeted. The descriptor holds one tag from a closed enumeration of ten ABI kinds: `GenericItanium`, `GenericARM`, `iOS`, `iOS64`, `WatchOS`, `GenericAArch64`, `GenericMIPS`, `WebAssembly`, `Fuchsia` and `Microsoft`. Every fact the descriptor answers is a total function of that tag.

- `cxx_abi.dfy`, module `CXXABI`:
  - The datatypes `Kind` and `TailPaddingUseRules`.
  - One function per query: `IsItaniumFamily`, `IsMicrosoft`, `AreMemberFunctionsAligned`, `AreArgsDestroyedLeftToRightInCallee`, `HasConstructorVariants`, `HasPrimaryVBases`, `HasKeyFunctions`, `CanKeyFunctionBeInline` and `GetTailPaddingUseRules`.
  - The class `TargetCXXABI`. It has one mutable field `kind` (the source's `TheKind`), its two constructors, `Set` and `GetKind`.
  - The two operators: `Equal` (`operator==`) and `NotEqual` (`operator!=`).
- `cxx_abi_properties.dfy`, module `CXXABIProperties`: facts that relate several queries or several kinds at once, plus three client methods that use the class.

Each query in the source is an exhaustive `switch` with an unreachable fallback, or a delegation to another query. Here each query is an exhaustive `match` with no default arm, so Dafny's exhaustiveness check does the job of the compiler's switch-coverage check. A query on a descriptor `abi`, such as `abi.isMicrosoft()`, becomes `IsMicrosoft(abi.GetKind())`. Each query's `ensures` gives its table outright: the kinds where it is true and the kinds where it is false. The query's body keeps the source's own grouping of case labels. Where two queries are tied together, the contract states the link as a relation between them: Microsoft is exactly the non-Itanium ABI, and only the Microsoft ABI reuses tail padding whether or not the base is POD.

## Model

| member | source | states |
|---|---|---|
| CXXABI.IsItaniumFamily | clang-r383902c/include/clang/Basic/TargetCXXABI.h:139-157 | true for every kind except `Microsoft` |
| CXXABI.IsMicrosoft | clang-r383902c/include/clang/Basic/TargetCXXABI.h:159-177 | true exactly for `Microsoft`; the two independently written family switches are exact negations of each other on every kind |
| CXXABI.AreMemberFunctionsAligned | clang-r383902c/include/clang/Basic/TargetCXXABI.h:179-208 | false exactly for `WebAssembly`; in particular true for the Microsoft ABI |
| CXXABI.AreArgsDestroyedLeftToRightInCallee | clang-r383902c/include/clang/Basic/TargetCXXABI.h:210-219 | true exactly for `Microsoft` |
| CXXABI.HasConstructorVariants | clang-r383902c/include/clang/Basic/TargetCXXABI.h:221-225 | false exactly for `Microsoft` |
| CXXABI.HasPrimaryVBases | clang-r383902c/include/clang/Basic/TargetCXXABI.h:227-230 | false exactly for `Microsoft` |
| CXXABI.HasKeyFunctions | clang-r383902c/include/clang/Basic/TargetCXXABI.h:232-237 | false exactly for `Microsoft` |
| CXXABI.CanKeyFunctionBeInline | clang-r383902c/include/clang/Basic/TargetCXXABI.h:239-284 | false exactly for `Fuchsia`, `GenericARM`, `iOS64`, `WebAssembly` and `WatchOS`; true exactly for `GenericAArch64`, `GenericItanium`, `iOS`, `Microsoft` and `GenericMIPS`; every ABI that forbids inline key functions has key functions, which is the only setting where the flag matters |
| CXXABI.GetTailPaddingUseRules | clang-r383902c/include/clang/Basic/TargetCXXABI.h:286-334 | `AlwaysUseTailPadding` exactly for the Microsoft ABI; `UseTailPaddingUnlessPOD03` exactly for `GenericItanium`, `GenericAArch64`, `GenericARM`, `iOS` and `GenericMIPS`; `UseTailPaddingUnlessPOD11` exactly for `Fuchsia`, `iOS64`, `WebAssembly` and `WatchOS` |
| CXXABI.NotEqual | clang-r383902c/include/clang/Basic/TargetCXXABI.h:340-342 | two descriptors are unequal exactly when they hold different kinds |
| CXXABI.TargetCXXABI.constructor | clang-r383902c/include/clang/Basic/TargetCXXABI.h:128-129 | the default descriptor holds `GenericItanium` |
| CXXABI.TargetCXXABI.OfKind | clang-r383902c/include/clang/Basic/TargetCXXABI.h:131 | a descriptor built from `k` reports `k` |
| CXXABI.TargetCXXABI.Set | clang-r383902c/include/clang/Basic/TargetCXXABI.h:133-137 | after `Set(k)`, `GetKind()` returns `k`; only the kind field may change |
| CXXABIProperties.TenKinds | clang-r383902c/include/clang/Basic/TargetCXXABI.h:26-119 | the enumeration is closed: the ten listed kinds cover every kind and are pairwise distinct |
| CXXABIProperties.FamiliesSplitKinds | clang-r383902c/include/clang/Basic/TargetCXXABI.h:140-177 | the Itanium family is every kind but `Microsoft` (nine kinds), and `Microsoft` is the only Microsoft-ABI kind |
| CXXABIProperties.DelegatedQueries | clang-r383902c/include/clang/Basic/TargetCXXABI.h:217-237 | on every kind, `AreArgsDestroyedLeftToRightInCallee` equals `IsMicrosoft`, and `HasConstructorVariants`, `HasPrimaryVBases` and `HasKeyFunctions` each equal `IsItaniumFamily` |
| CXXABIProperties.AlignedMemberFunctionsCount | clang-r383902c/include/clang/Basic/TargetCXXABI.h:188-208 | member functions are aligned on every kind but `WebAssembly` (nine of ten) |
| CXXABIProperties.InlineKeyFunctionsSplitKinds | clang-r383902c/include/clang/Basic/TargetCXXABI.h:267-284 | five kinds allow inline key functions and five forbid them; all five that forbid them have key functions |
| CXXABIProperties.TailPaddingRulesPartitionKinds | clang-r383902c/include/clang/Basic/TargetCXXABI.h:308-334 | the three tail-padding classes are pairwise disjoint and together cover every kind; they hold one, five and four kinds; the `AlwaysUseTailPadding` class is `{Microsoft}` |
| CXXABIProperties.EqualIsEquivalence | clang-r383902c/include/clang/Basic/TargetCXXABI.h:336-342 | `==` is reflexive, symmetric and transitive, and `!=` is its exact negation |
| CXXABIProperties.EqualDescriptorsAgree | clang-r383902c/include/clang/Basic/TargetCXXABI.h:336-338 | equal descriptors give the same answer to every query; a corollary that holds by construction, because every query is a function of the held kind alone |
| CXXABIProperties.CompareConstructed | clang-r383902c/include/clang/Basic/TargetCXXABI.h:131-131 | descriptors built from `k1` and `k2` compare equal exactly when `k1 == k2`, and unequal exactly when the kinds differ |
| CXXABIProperties.DefaultIsGenericItanium | clang-r383902c/include/clang/Basic/TargetCXXABI.h:129-131 | the default descriptor compares equal to the one built from `GenericItanium` |
| CXXABIProperties.SetThenQuery | clang-r383902c/include/clang/Basic/TargetCXXABI.h:133-137 | after `Set(k)` on a descriptor holding any kind, it reports `k`, and two sample queries (`GetTailPaddingUseRules`, `IsMicrosoft`) answer for `k`; the kind it held before has no effect |

`Equal` (`operator==`, lines 336-338) and `GetKind` (line 137) have no contract of their own. Their bodies are the definitions: equality compares the held kinds, and `GetKind` returns the held kind. What they mean is stated by `EqualIsEquivalence`, `CompareConstructed`, `NotEqual` and the constructor and `Set` contracts. `AllKinds`, `KindsWhere` and `KindsWithTailPaddingRule` are helpers for stating the counting lemmas.

## Left out

- `soong/clangprebuilts.go` and `soong/libfuzzer.go` are not part of this model. They hold Android build-system plumbing: module registration, environment-variable reads, file-path resolution and property appending into a build context. None of it has behaviour that can be stated apart from that framework.
- The `llvm_unreachable("bad ABI kind")` fallbacks (lines 156, 176, 207, 283, 333) are not modelled. Each sits behind a switch that covers every enumerator. In the model the `match` is exhaustive, and no out-of-range tag can be written.
- Copying: in C++ the descriptor is passed by value. In Dafny it is an object reference, so two names may alias one descriptor. A copy is written as `new TargetCXXABI.OfKind(abi.GetKind())`. The model does not capture C++ copy semantics.
- The integer values of the C++ enumerators (0 to 9 in declaration order) are not modelled. Nothing in the header depends on them.
- The consumers of the descriptor (record layout, vtable emission, mangling) are not part of this model, and neither is the target-triple logic that chooses the kind.
- Documentation URLs and TODO/FIXME notes carry no behaviour and are not modelled.
