/**
 * RTTI-free type identity: a discrete type descriptor names one op variant and
 * optionally points at a parent descriptor; casts walk the parent chain.
 */
module TypeInfo {
  import opened Wrappers

  /** `uint64_t`, the width of the descriptor's version number. */
  newtype uint64 = x: int | 0 <= x < 0x1_0000_0000_0000_0000

  /** The descriptor: name, numeric version, optional version id, optional parent. */
  datatype DiscreteTypeInfo = DiscreteTypeInfo(
    name: string,
    version: uint64,
    versionId: Option<string>,
    parent: Option<DiscreteTypeInfo>)

  /** The three-argument constructor: `version_id` stays null. */
  function MakeTypeInfo(name: string, version: uint64, parent: Option<DiscreteTypeInfo> := None): (t: DiscreteTypeInfo)
    ensures t.versionId == None
    ensures t.name == name && t.version == version && t.parent == parent
  {
    DiscreteTypeInfo(name, version, None, parent)
  }

  /** The four-argument constructor with an explicit version id. */
  function MakeTypeInfoWithId(name: string, version: uint64, versionId: string,
                              parent: Option<DiscreteTypeInfo> := None): (t: DiscreteTypeInfo)
    ensures t.versionId == Some(versionId)
    ensures t.name == name && t.version == version && t.parent == parent
  {
    DiscreteTypeInfo(name, version, Some(versionId), parent)
  }

  /** Descriptor equality: the same name and the same version. */
  predicate SameType(a: DiscreteTypeInfo, b: DiscreteTypeInfo) {
    a.name == b.name && a.version == b.version
  }

  /** `is_castable`: this descriptor, or (through the parent) one of its ancestors, equals the target. */
  predicate IsCastable(t: DiscreteTypeInfo, target: DiscreteTypeInfo)
  {
    SameType(t, target) || (t.parent.Some? && IsCastable(t.parent.value, target))
  }

  /** The descriptor followed by its parent, grandparent, ... (the chain `is_castable` walks). */
  function Ancestors(t: DiscreteTypeInfo): (s: seq<DiscreteTypeInfo>)
    ensures |s| >= 1 && s[0] == t
  {
    [t] + (if t.parent.Some? then Ancestors(t.parent.value) else [])
  }

  /** No two descriptors on the chain have the same (name, version): registration is unique. */
  predicate UniqueChain(t: DiscreteTypeInfo) {
    var s := Ancestors(t);
    forall i, j :: 0 <= i < j < |s| ==> !SameType(s[i], s[j])
  }

  /** A descriptor is castable to itself. */
  lemma {:induction false} CastableToSelf(t: DiscreteTypeInfo)
    ensures IsCastable(t, t)
  {
  }

  /** When `is_castable(target)` holds, the target sits at some position of the chain. */
  lemma {:induction false} CastableWitness(t: DiscreteTypeInfo, target: DiscreteTypeInfo) returns (i: nat)
    requires IsCastable(t, target)
    ensures i < |Ancestors(t)| && SameType(Ancestors(t)[i], target)
  {
    if SameType(t, target) {
      i := 0;
    } else {
      var p := t.parent.value;
      var j := CastableWitness(p, target);
      assert Ancestors(t) == [t] + Ancestors(p);
      i := j + 1;
    }
  }

  /** A target found at any position of the chain is reached by `is_castable`. */
  lemma {:induction false} OnChainCastable(t: DiscreteTypeInfo, target: DiscreteTypeInfo, i: nat)
    requires i < |Ancestors(t)| && SameType(Ancestors(t)[i], target)
    ensures IsCastable(t, target)
  {
    if i > 0 {
      var p := t.parent.value;
      assert Ancestors(t) == [t] + Ancestors(p);
      OnChainCastable(p, target, i - 1);
    }
  }

  /** `is_castable(target)` holds exactly when the target occurs on the ancestor chain. */
  lemma {:induction false} CastableIffOnChain(t: DiscreteTypeInfo, target: DiscreteTypeInfo)
    ensures IsCastable(t, target) <==>
            exists i :: 0 <= i < |Ancestors(t)| && SameType(Ancestors(t)[i], target)
  {
    if IsCastable(t, target) {
      var i := CastableWitness(t, target);
    }
    forall i | 0 <= i < |Ancestors(t)| && SameType(Ancestors(t)[i], target)
      ensures IsCastable(t, target)
    {
      OnChainCastable(t, target, i);
    }
  }

  /** Every ancestor's own chain is a suffix of the descendant's chain. */
  lemma {:induction false} AncestorChainIsSuffix(t: DiscreteTypeInfo, i: nat)
    requires i < |Ancestors(t)|
    ensures Ancestors(Ancestors(t)[i]) == Ancestors(t)[i..]
  {
    if i > 0 {
      var p := t.parent.value;
      assert Ancestors(t) == [t] + Ancestors(p);
      AncestorChainIsSuffix(p, i - 1);
      assert Ancestors(t)[i..] == Ancestors(p)[i - 1..];
    }
  }

  /** A child is castable to everything its parent (or any ancestor) is castable to. */
  lemma {:induction false} AncestorCastableImpliesCastable(t: DiscreteTypeInfo, i: nat, target: DiscreteTypeInfo)
    requires i < |Ancestors(t)|
    requires IsCastable(Ancestors(t)[i], target)
    ensures IsCastable(t, target)
  {
    var a := Ancestors(t)[i];
    CastableIffOnChain(a, target);
    var j :| 0 <= j < |Ancestors(a)| && SameType(Ancestors(a)[j], target);
    AncestorChainIsSuffix(t, i);
    assert Ancestors(t)[i + j] == Ancestors(a)[j];
    CastableIffOnChain(t, target);
  }

  /** A child is castable to its parent. */
  lemma {:induction false} ChildCastableToParent(t: DiscreteTypeInfo)
    requires t.parent.Some?
    ensures IsCastable(t, t.parent.value)
  {
    CastableToSelf(t.parent.value);
  }

  /** Without a parent, the only targets are descriptors equal to this one. */
  lemma {:induction false} RootCastableOnlyToItself(t: DiscreteTypeInfo, target: DiscreteTypeInfo)
    requires t.parent.None?
    ensures IsCastable(t, target) <==> SameType(t, target)
  {
  }

  /** With a uniquely registered chain, a strict ancestor is never castable to its descendant. */
  lemma {:induction false} AncestorNotCastableToDescendant(t: DiscreteTypeInfo, i: nat)
    requires UniqueChain(t)
    requires 0 < i < |Ancestors(t)|
    ensures !IsCastable(Ancestors(t)[i], t)
  {
    var a := Ancestors(t)[i];
    AncestorChainIsSuffix(t, i);
    forall j | 0 <= j < |Ancestors(a)|
      ensures !SameType(Ancestors(a)[j], t)
    {
      assert Ancestors(a)[j] == Ancestors(t)[i + j];
      assert Ancestors(t)[0] == t;
    }
    CastableIffOnChain(a, t);
  }

  // ---------------------------------------------------------------------------
  // Version text

  function DigitChar(d: nat): (c: char)
    requires d < 10
    ensures '0' <= c <= '9'
  {
    "0123456789"[d]
  }

  function DigitValue(c: char): (d: nat)
    requires '0' <= c <= '9'
    ensures d < 10
  {
    c as int - '0' as int
  }

  predicate IsDecimal(s: string) {
    |s| >= 1 && forall i :: 0 <= i < |s| ==> '0' <= s[i] <= '9'
  }

  /** `std::to_string` of an unsigned number: its decimal digits, most significant first. */
  function DecimalText(n: nat): (s: string)
    ensures IsDecimal(s)
    ensures n > 0 ==> s[0] != '0'
    decreases n
  {
    if n < 10 then [DigitChar(n)] else DecimalText(n / 10) + [DigitChar(n % 10)]
  }

  /** Reads decimal digits back into a number. */
  function DecimalValue(s: string): nat
    requires forall i :: 0 <= i < |s| ==> '0' <= s[i] <= '9'
  {
    if s == [] then 0 else DecimalValue(s[..|s| - 1]) * 10 + DigitValue(s[|s| - 1])
  }

  lemma {:induction false} DecimalRoundTrip(n: nat)
    ensures DecimalValue(DecimalText(n)) == n
    decreases n
  {
    var s := DecimalText(n);
    if n < 10 {
      assert s[..|s| - 1] == [];
    } else {
      DecimalRoundTrip(n / 10);
      assert s[..|s| - 1] == DecimalText(n / 10);
    }
  }

  /** `get_version`: the version id when one is set, else the decimal text of the version. */
  function GetVersion(t: DiscreteTypeInfo): (v: string)
    ensures t.versionId.Some? ==> v == t.versionId.value
    ensures t.versionId.None? ==> IsDecimal(v) && DecimalValue(v) == t.version as nat
  {
    DecimalRoundTrip(t.version as nat);
    if t.versionId.Some? then t.versionId.value else DecimalText(t.version as nat)
  }

  /** `operator std::string`: the name, an underscore, then the version text. */
  function ToString(t: DiscreteTypeInfo): (s: string)
    ensures |s| == |t.name| + 1 + |GetVersion(t)|
    ensures s[..|t.name|] == t.name && s[|t.name|] == '_' && s[|t.name| + 1..] == GetVersion(t)
  {
    t.name + "_" + GetVersion(t)
  }

  /** Descriptors built by the three-argument constructor report their number as the version. */
  lemma {:induction false} ThreeArgumentVersionIsDecimal(name: string, version: uint64, parent: Option<DiscreteTypeInfo>)
    ensures GetVersion(MakeTypeInfo(name, version, parent)) == DecimalText(version as nat)
  {
  }

  /**
   * Without version ids and with underscore-free names, the string form identifies the
   * descriptor: equal strings mean equal (name, version).
   */
  lemma {:induction false} ToStringIdentifies(a: DiscreteTypeInfo, b: DiscreteTypeInfo)
    requires a.versionId.None? && b.versionId.None?
    requires '_' !in a.name && '_' !in b.name
    requires ToString(a) == ToString(b)
    ensures SameType(a, b)
  {
    var sa, sb := ToString(a), ToString(b);
    NoUnderscoreBeforeSeparator(a);
    NoUnderscoreBeforeSeparator(b);
    assert sa[|a.name|] == '_';
    assert sb[|b.name|] == '_';
    assert |a.name| == |b.name|;
    assert a.name == sa[..|a.name|] == sb[..|b.name|] == b.name;
    assert GetVersion(a) == sa[|a.name| + 1..] == sb[|b.name| + 1..] == GetVersion(b);
    DecimalRoundTrip(a.version as nat);
    DecimalRoundTrip(b.version as nat);
  }

  /** In the string form of an underscore-free name, the first underscore is the separator. */
  lemma {:induction false} NoUnderscoreBeforeSeparator(t: DiscreteTypeInfo)
    requires '_' !in t.name
    ensures forall k :: 0 <= k < |t.name| ==> ToString(t)[k] != '_'
  {
    var s := ToString(t);
    forall k | 0 <= k < |t.name| ensures s[k] != '_' {
      assert s[k] == t.name[k];
    }
  }

  // ---------------------------------------------------------------------------
  // is_type / as_type / as_type_ptr

  /** A value together with the descriptor its virtual `get_type_info()` reports. */
  datatype Typed<V> = Typed(typeInfo: DiscreteTypeInfo, obj: V)

  /** `is_type<T>(v)`: v's descriptor is castable to T's static descriptor. */
  predicate IsType<V>(v: Typed<V>, staticInfo: DiscreteTypeInfo) {
    IsCastable(v.typeInfo, staticInfo)
  }

  /**
   * `as_type<T>(v)` and its `shared_ptr` form `as_type_ptr<T>(v)`: the same object when
   * `is_type` holds, null otherwise; never fails.
   */
  function AsType<V>(v: Typed<V>, staticInfo: DiscreteTypeInfo): (r: Option<Typed<V>>)
    ensures r.Some? <==> IsCastable(v.typeInfo, staticInfo)
    ensures r.Some? ==> r.value == v
  {
    if IsType(v, staticInfo) then Some(v) else None
  }

  /** Three-level chain A -> B -> C: A is a C, A casts to B, C does not cast to A. */
  lemma {:induction false} ThreeLevelCasts<V>(x: V, c: DiscreteTypeInfo, b: DiscreteTypeInfo, a: DiscreteTypeInfo)
    requires b.parent == Some(c) && a.parent == Some(b)
    requires UniqueChain(a)
    ensures IsType(Typed(a, x), c)
    ensures AsType(Typed(a, x), b).Some?
    ensures AsType(Typed(c, x), a).None?
  {
    assert Ancestors(a) == [a, b] + Ancestors(c);
    AncestorCastableImpliesCastable(a, 2, c);
    AncestorCastableImpliesCastable(a, 1, b);
    AncestorNotCastableToDescendant(a, 2);
  }
}
