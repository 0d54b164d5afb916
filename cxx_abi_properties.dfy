/** Facts about the ABI descriptor that relate several queries or several
    kinds at once: the size of the closed kind set, how each query splits it,
    and what equality of descriptors means for the client. */
module CXXABIProperties {
  import opened CXXABI

  /** The ten kinds, listed in declaration order. */
  function AllKinds(): set<Kind>
  {
    {GenericItanium, GenericARM, iOS, iOS64, WatchOS,
     GenericAArch64, GenericMIPS, WebAssembly, Fuchsia, Microsoft}
  }

  /** The kinds on which a query holds. */
  function KindsWhere(p: Kind -> bool): set<Kind>
  {
    set k: Kind | p(k)
  }

  /** The kinds that follow a given tail-padding rule. */
  function KindsWithTailPaddingRule(rule: TailPaddingUseRules): set<Kind>
  {
    set k: Kind | GetTailPaddingUseRules(k) == rule
  }

  /** The kind enumeration is closed: the list of ten names every kind,
      and the ten are distinct. */
  lemma TenKinds()
    ensures forall k :: k in AllKinds()
    ensures |AllKinds()| == 10
  {
    forall k ensures k in AllKinds() {
      match k
      case GenericItanium | GenericARM | iOS | iOS64 | WatchOS
         | GenericAArch64 | GenericMIPS | WebAssembly | Fuchsia | Microsoft =>
    }
  }

  /** Microsoft is the only kind outside the Itanium family, and the two
      family queries split the kinds nine to one. */
  lemma FamiliesSplitKinds()
    ensures KindsWhere(IsItaniumFamily) == AllKinds() - {Microsoft}
    ensures KindsWhere(IsMicrosoft) == {Microsoft}
    ensures |KindsWhere(IsItaniumFamily)| == 9
    ensures |KindsWhere(IsMicrosoft)| == 1
  {
  }

  /** The three queries that delegate to the family queries coincide with
      them on every kind. */
  lemma DelegatedQueries(k: Kind)
    ensures AreArgsDestroyedLeftToRightInCallee(k) == IsMicrosoft(k)
    ensures HasConstructorVariants(k) == IsItaniumFamily(k)
    ensures HasPrimaryVBases(k) == IsItaniumFamily(k)
    ensures HasKeyFunctions(k) == IsItaniumFamily(k)
  {
  }

  /** Member functions are aligned in nine of the ten ABIs. */
  lemma AlignedMemberFunctionsCount()
    ensures KindsWhere(AreMemberFunctionsAligned) == AllKinds() - {WebAssembly}
    ensures |KindsWhere(AreMemberFunctionsAligned)| == 9
  {
  }

  /** Inline key functions split the kinds five to five, and all five that
      forbid them belong to the Itanium family. */
  lemma InlineKeyFunctionsSplitKinds()
    ensures |KindsWhere(CanKeyFunctionBeInline)| == 5
    ensures |AllKinds() - KindsWhere(CanKeyFunctionBeInline)| == 5
    ensures AllKinds() - KindsWhere(CanKeyFunctionBeInline) <= KindsWhere(HasKeyFunctions)
  {
    assert KindsWhere(CanKeyFunctionBeInline) ==
      {GenericAArch64, GenericItanium, iOS, Microsoft, GenericMIPS};
    assert AllKinds() - KindsWhere(CanKeyFunctionBeInline) ==
      {Fuchsia, GenericARM, iOS64, WebAssembly, WatchOS};
    TenKinds();
  }

  /** The tail-padding rule assigns every kind exactly one of the three
      rules: the three classes are disjoint, cover every kind, and hold
      one, five and four kinds. */
  lemma TailPaddingRulesPartitionKinds()
    ensures KindsWithTailPaddingRule(AlwaysUseTailPadding) == {Microsoft}
    ensures KindsWithTailPaddingRule(AlwaysUseTailPadding)
          + KindsWithTailPaddingRule(UseTailPaddingUnlessPOD03)
          + KindsWithTailPaddingRule(UseTailPaddingUnlessPOD11) == AllKinds()
    ensures KindsWithTailPaddingRule(AlwaysUseTailPadding)
         !! KindsWithTailPaddingRule(UseTailPaddingUnlessPOD03)
    ensures KindsWithTailPaddingRule(AlwaysUseTailPadding)
         !! KindsWithTailPaddingRule(UseTailPaddingUnlessPOD11)
    ensures KindsWithTailPaddingRule(UseTailPaddingUnlessPOD03)
         !! KindsWithTailPaddingRule(UseTailPaddingUnlessPOD11)
    ensures |KindsWithTailPaddingRule(AlwaysUseTailPadding)| == 1
    ensures |KindsWithTailPaddingRule(UseTailPaddingUnlessPOD03)| == 5
    ensures |KindsWithTailPaddingRule(UseTailPaddingUnlessPOD11)| == 4
  {
    assert KindsWithTailPaddingRule(AlwaysUseTailPadding) == {Microsoft};
    assert KindsWithTailPaddingRule(UseTailPaddingUnlessPOD03) ==
      {GenericItanium, GenericAArch64, GenericARM, iOS, GenericMIPS};
    assert KindsWithTailPaddingRule(UseTailPaddingUnlessPOD11) ==
      {Fuchsia, iOS64, WebAssembly, WatchOS};
    TenKinds();
  }

  /** Equality of descriptors is an equivalence, and inequality is its
      exact negation. */
  lemma EqualIsEquivalence(a: TargetCXXABI, b: TargetCXXABI, c: TargetCXXABI)
    ensures Equal(a, a)
    ensures Equal(a, b) == Equal(b, a)
    ensures Equal(a, b) && Equal(b, c) ==> Equal(a, c)
    ensures NotEqual(a, b) == !Equal(a, b)
  {
  }

  /** Equal descriptors answer every query alike. This holds by construction,
      since every query is a function of the held kind alone. */
  lemma EqualDescriptorsAgree(a: TargetCXXABI, b: TargetCXXABI)
    requires Equal(a, b)
    ensures IsItaniumFamily(a.GetKind()) == IsItaniumFamily(b.GetKind())
    ensures IsMicrosoft(a.GetKind()) == IsMicrosoft(b.GetKind())
    ensures AreMemberFunctionsAligned(a.GetKind()) == AreMemberFunctionsAligned(b.GetKind())
    ensures AreArgsDestroyedLeftToRightInCallee(a.GetKind())
         == AreArgsDestroyedLeftToRightInCallee(b.GetKind())
    ensures HasConstructorVariants(a.GetKind()) == HasConstructorVariants(b.GetKind())
    ensures HasPrimaryVBases(a.GetKind()) == HasPrimaryVBases(b.GetKind())
    ensures HasKeyFunctions(a.GetKind()) == HasKeyFunctions(b.GetKind())
    ensures CanKeyFunctionBeInline(a.GetKind()) == CanKeyFunctionBeInline(b.GetKind())
    ensures GetTailPaddingUseRules(a.GetKind()) == GetTailPaddingUseRules(b.GetKind())
  {
  }

  /** Two freshly constructed descriptors compare equal exactly when they
      were built from the same kind, and unequal otherwise. */
  method CompareConstructed(k1: Kind, k2: Kind) returns (eq: bool, ne: bool)
    ensures eq <==> k1 == k2
    ensures ne <==> k1 != k2
  {
    var a := new TargetCXXABI.OfKind(k1);
    var b := new TargetCXXABI.OfKind(k2);
    eq := Equal(a, b);
    ne := NotEqual(a, b);
  }

  /** The default descriptor equals the one built from GenericItanium. */
  method DefaultIsGenericItanium() returns (eq: bool)
    ensures eq
  {
    var a := new TargetCXXABI();
    var b := new TargetCXXABI.OfKind(GenericItanium);
    eq := Equal(a, b);
  }

  /** Setting a kind on a descriptor, whatever it held before, makes it
      report that kind, and two sample queries then answer for that kind;
      the old kind leaves no trace. */
  method SetThenQuery(initial: Kind, k: Kind) returns (got: Kind, rule: TailPaddingUseRules, ms: bool)
    ensures got == k
    ensures rule == GetTailPaddingUseRules(k)
    ensures ms <==> k == Microsoft
  {
    var abi := new TargetCXXABI.OfKind(initial);
    abi.Set(k);
    got := abi.GetKind();
    rule := GetTailPaddingUseRules(abi.GetKind());
    ms := IsMicrosoft(abi.GetKind());
  }
}
