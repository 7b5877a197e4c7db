/**
 * Expansion of test-category names through the fixed alias table
 * (TestRunner::resolve_types). A name that is an alias key is replaced by
 * what its expansion resolves to; every other name is kept verbatim.
 */
module Aliases {
  import opened Wrappers

  // The five leaf tests, each run by one section of the program.
  const SgrBasic: string := "sgr_basic"
  const SgrFg: string := "sgr_fg"
  const SgrBg: string := "sgr_bg"
  const Sgr256: string := "sgr_256"
  const SgrRgb: string := "sgr_rgb"

  // The four alias keys, in the order resolve_types tries them.
  const SgrStandard: string := "sgr_standard"
  const SgrColor: string := "sgr_color"
  const Sgr: string := "sgr"
  const All: string := "all"

  const LeafTests: set<string> := {SgrBasic, SgrFg, SgrBg, Sgr256, SgrRgb}
  const AliasKeys: set<string> := {SgrStandard, SgrColor, Sgr, All}

  /**
   * The alias table: the first key equal to t, tried in the fixed order,
   * gives t's expansion; a name equal to no key has none.
   */
  function Expansion(t: string): (r: Option<set<string>>)
    ensures r.Some? <==> t in AliasKeys
    ensures r.Some? ==> Height(r.value) < Depth(t)
    ensures r.Some? ==> forall u :: u in r.value ==> Depth(u) < Depth(t)
  {
    if t == SgrStandard then Some({SgrFg, SgrBg})
    else if t == SgrColor then Some({SgrStandard, Sgr256, SgrRgb})
    else if t == Sgr then Some({SgrBasic, SgrColor})
    else if t == All then Some({Sgr})
    else None
  }

  /** Alias depth: how many alias steps lie below a name (0 for a non-alias). */
  function Depth(t: string): nat {
    if t == SgrStandard then 1
    else if t == SgrColor then 2
    else if t == Sgr then 3
    else if t == All then 4
    else 0
  }

  /** The greatest alias depth of any name in S (0 when S holds no alias key). */
  function Height(S: set<string>): nat {
    if All in S then 4
    else if Sgr in S then 3
    else if SgrColor in S then 2
    else if SgrStandard in S then 1
    else 0
  }

  lemma HeightBounds(S: set<string>, t: string)
    requires t in S
    ensures Depth(t) <= Height(S)
  {
  }

  /** What one name resolves to. */
  function ResolveToken(t: string): set<string>
    decreases Depth(t), 0
  {
    match Expansion(t)
    case None => {t}
    case Some(e) => Resolve(e)
  }

  /** Specification of resolve_types: the union of what each name resolves to. */
  function Resolve(S: set<string>): set<string>
    decreases Height(S), 1
  {
    set t, u | t in S && u in ResolveToken(t) :: u
  }

  /**
   * The lambda expand_types: when t equals the alias key, add what the key's
   * expansion resolves to and report a match; otherwise change nothing.
   */
  method ExpandTypes(t: string, key: string, expand: set<string>, output: set<string>)
    returns (matched: bool, output': set<string>)
    requires Expansion(key) == Some(expand)
    ensures matched <==> t == key
    ensures output' == if matched then output + Resolve(expand) else output
    decreases if t == key then Height(expand) + 1 else 0, 0
  {
    if t == key {
      var subTypes := ResolveTypes(expand);
      output' := output + subTypes;
      return true, output';
    }
    return false, output;
  }

  /**
   * resolve_types: visits the names in an unspecified order (that of the
   * unordered_set) and tries the four alias keys in turn.
   */
  method ResolveTypes(typeNames: set<string>) returns (output: set<string>)
    ensures output == Resolve(typeNames)
    decreases Height(typeNames), 1
  {
    output := {};
    var rest := typeNames;
    while rest != {}
      invariant rest <= typeNames
      invariant output == Resolve(typeNames - rest)
      decreases rest
    {
      var t :| t in rest;
      HeightBounds(typeNames, t);
      var done := typeNames - rest;
      var m;
      m, output := ExpandTypes(t, SgrStandard, {SgrFg, SgrBg}, output);
      if !m {
        m, output := ExpandTypes(t, SgrColor, {SgrStandard, Sgr256, SgrRgb}, output);
      }
      if !m {
        m, output := ExpandTypes(t, Sgr, {SgrBasic, SgrColor}, output);
      }
      if !m {
        m, output := ExpandTypes(t, All, {Sgr}, output);
      }
      if !m {
        output := output + {t};
      }
      assert output == Resolve(done) + ResolveToken(t);
      ResolveInsert(done, t);
      rest := rest - {t};
      assert typeNames - rest == done + {t};
    }
    assert typeNames - rest == typeNames;
  }

  lemma ResolveInsert(A: set<string>, t: string)
    ensures Resolve(A + {t}) == Resolve(A) + ResolveToken(t)
  {
  }

  /** resolve_types has no error case: it maps the empty set to itself and distributes over union. */
  lemma ResolveUnion(A: set<string>, B: set<string>)
    ensures Resolve({}) == {}
    ensures Resolve(A + B) == Resolve(A) + Resolve(B)
  {
  }

  /**
   * Reference table: the leaf tests each alias stands for, written out by hand.
   * A non-alias name stands for itself.
   */
  function LeafClosure(t: string): set<string> {
    if t == SgrStandard then {SgrFg, SgrBg}
    else if t == SgrColor then {SgrFg, SgrBg, Sgr256, SgrRgb}
    else if t == Sgr || t == All then LeafTests
    else {t}
  }

  /** The recursion computes exactly the hand-written table, alias by alias. */
  lemma {:induction false} ResolveTokenIsLeafClosure(t: string)
    ensures ResolveToken(t) == LeafClosure(t)
    decreases Depth(t)
  {
    match Expansion(t)
    case None =>
    case Some(e) =>
      forall u | u in e
        ensures ResolveToken(u) == LeafClosure(u)
      {
        ResolveTokenIsLeafClosure(u);
      }
      var closures := set u, v | u in e && v in LeafClosure(u) :: v;
      assert Resolve(e) == closures;
      UnionOfClosures(t, e);
  }

  /** Each alias's table entry is the union of the entries of its expansion. */
  lemma UnionOfClosures(t: string, e: set<string>)
    requires Expansion(t) == Some(e)
    ensures LeafClosure(t) == set u, v | u in e && v in LeafClosure(u) :: v
  {
    if t == SgrStandard {
      ClosuresOfPair(SgrFg, SgrBg);
    } else if t == SgrColor {
      assert e == {SgrStandard, Sgr256} + {SgrRgb};
      ClosuresOfPair(SgrStandard, Sgr256);
      ClosuresOfUnion({SgrStandard, Sgr256}, {SgrRgb});
      ClosuresOfSingleton(SgrRgb);
    } else if t == Sgr {
      ClosuresOfPair(SgrBasic, SgrColor);
    } else {
      ClosuresOfSingleton(Sgr);
    }
  }

  lemma ClosuresOfUnion(A: set<string>, B: set<string>)
    ensures (set u, v | u in A + B && v in LeafClosure(u) :: v)
         == (set u, v | u in A && v in LeafClosure(u) :: v) + (set u, v | u in B && v in LeafClosure(u) :: v)
    ensures (set u, v | u in {} && v in LeafClosure(u) :: v) == {}
  {
  }

  lemma ClosuresOfSingleton(a: string)
    ensures (set u, v | u in {a} && v in LeafClosure(u) :: v) == LeafClosure(a)
  {
  }

  lemma ClosuresOfPair(a: string, b: string)
    ensures (set u, v | u in {a, b} && v in LeafClosure(u) :: v) == LeafClosure(a) + LeafClosure(b)
  {
    assert {a, b} == {a} + {b};
    ClosuresOfUnion({a}, {b});
    ClosuresOfSingleton(a);
    ClosuresOfSingleton(b);
  }

  /** So a set resolves to the union of the table entries of its names. */
  lemma ResolveIsUnionOfLeafClosures(S: set<string>)
    ensures Resolve(S) == set t, u | t in S && u in LeafClosure(t) :: u
  {
    forall t | t in S
      ensures ResolveToken(t) == LeafClosure(t)
    {
      ResolveTokenIsLeafClosure(t);
    }
  }

  /** A single name resolves to its table entry. */
  lemma ResolveOneName(t: string)
    ensures Resolve({t}) == LeafClosure(t)
  {
    ResolveIsUnionOfLeafClosures({t});
    ClosuresOfSingleton(t);
  }

  /** "all", "sgr" and "sgr_basic,sgr_color" each select every leaf test. */
  lemma ResolveAllGroup()
    ensures Resolve({All}) == Resolve({Sgr}) == LeafTests
  {
    ResolveOneName(All);
    ResolveOneName(Sgr);
  }

  lemma ResolveSgrMembers()
    ensures Resolve({SgrBasic, SgrColor}) == LeafTests
  {
    ResolveIsUnionOfLeafClosures({SgrBasic, SgrColor});
    ClosuresOfPair(SgrBasic, SgrColor);
  }

  /** "sgr_color" selects the four colour tests, "sgr_standard" the 16-colour pair. */
  lemma ResolveColorGroups()
    ensures Resolve({SgrColor}) == {SgrFg, SgrBg, Sgr256, SgrRgb}
    ensures Resolve({SgrStandard}) == {SgrFg, SgrBg}
  {
    ResolveOneName(SgrColor);
    ResolveOneName(SgrStandard);
  }

  /** A name outside the table passes through as it is. */
  lemma ResolveUnknownName()
    ensures Resolve({"bogus"}) == {"bogus"}
  {
    ResolveOneName("bogus");
  }

  /**
   * No alias key survives resolution: every resolved name is a leaf test or
   * a non-alias input name passed through verbatim.
   */
  lemma {:induction false} ResolveTokenShape(t: string)
    ensures forall u :: u in ResolveToken(t) ==> u !in AliasKeys && (u == t || u in LeafTests)
    decreases Depth(t)
  {
    match Expansion(t)
    case None =>
    case Some(e) =>
      forall v | v in e
        ensures forall u :: u in ResolveToken(v) ==> u !in AliasKeys && u in LeafTests
      {
        ResolveTokenShape(v);
        assert v in AliasKeys || v in LeafTests;
      }
  }

  lemma ResolveShape(S: set<string>)
    ensures forall u :: u in Resolve(S) ==> u !in AliasKeys && (u in S || u in LeafTests)
  {
    forall t | t in S
      ensures forall u :: u in ResolveToken(t) ==> u !in AliasKeys && (u == t || u in LeafTests)
    {
      ResolveTokenShape(t);
    }
  }

  /** Every non-alias input name is kept. */
  lemma ResolveKeepsPlainNames(S: set<string>, t: string)
    requires t in S && t !in AliasKeys
    ensures t in Resolve(S)
  {
    assert t in ResolveToken(t);
  }

  /** A set free of alias keys resolves to itself. */
  lemma ResolveAliasFree(S: set<string>)
    requires forall t :: t in S ==> t !in AliasKeys
    ensures Resolve(S) == S
  {
    forall t | t in S
      ensures ResolveToken(t) == {t}
    {
    }
    ResolveShape(S);
  }

  /** Resolving twice gives nothing new. */
  lemma ResolveIdempotent(S: set<string>)
    ensures Resolve(Resolve(S)) == Resolve(S)
  {
    ResolveShape(S);
    ResolveAliasFree(Resolve(S));
  }
}
