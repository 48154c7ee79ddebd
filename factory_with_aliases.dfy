/** The alias layer of a name registry (`IFactoryWithAliases`): two alias maps that
    sit in front of the canonical name -> creator maps that a concrete factory
    supplies, with registration, resolution and membership queries. */
module FactoryAliases {
  import opened Ascii

  /** How an alias is registered; a case-insensitive alias is also stored lower-cased. */
  datatype CaseSensitiveness = CaseSensitive | CaseInsensitive

  /** The failures the registry raises, one per distinct error message. */
  datatype AliasError =
    | UnknownRealName                // the real name is registered neither exactly nor case-insensitively
    | CollidesWithRealName           // the alias name is already registered as a real name
    | DuplicateCaseInsensitiveAlias  // the lower-cased alias name is already a case-insensitive alias
    | DuplicateAlias                 // the alias name is already an alias
    | NotAnAlias                     // a strict lookup found no alias

  datatype Option<T> = None | Some(value: T)

  /** The result of an operation that returns nothing or fails. */
  datatype Outcome = Pass | Fail(error: AliasError)

  /** The result of an operation that returns a value or fails. */
  datatype Result<T> = Success(value: T) | Failure(error: AliasError)

  predicate NoDuplicates(s: seq<string>) {
    forall i, j :: 0 <= i < j < |s| ==> s[i] != s[j]
  }

  /** Appends every key of `m` to `acc`, in some order, as `std::transform` over a map
      into a `std::back_inserter` does. */
  method AppendKeys<V>(acc: seq<string>, m: map<string, V>) returns (r: seq<string>)
    ensures |r| == |acc| + |m|
    ensures forall i :: 0 <= i < |acc| ==> r[i] == acc[i]
    ensures forall i :: |acc| <= i < |r| ==> r[i] in m
    ensures forall k :: k in m ==> k in r[|acc|..]
    ensures forall i, j :: |acc| <= i < j < |r| ==> r[i] != r[j]
    ensures NoDuplicates(acc) && (forall i :: 0 <= i < |acc| ==> acc[i] !in m) ==> NoDuplicates(r)
  {
    r := acc;
    var rest := m.Keys;
    while rest != {}
      invariant rest <= m.Keys
      invariant |r| - |acc| + |rest| == |m|
      invariant |acc| <= |r| && forall i :: 0 <= i < |acc| ==> r[i] == acc[i]
      invariant forall i :: |acc| <= i < |r| ==> r[i] in m && r[i] !in rest
      invariant forall k :: k in m && k !in rest ==> k in r[|acc|..]
      invariant forall i, j :: |acc| <= i < j < |r| ==> r[i] != r[j]
      decreases |rest|
    {
      var k :| k in rest;
      assert (r + [k])[|acc|..] == r[|acc|..] + [k];
      r := r + [k];
      rest := rest - {k};
    }
  }

  class FactoryWithAliases<C> {
    /** Canonical name -> creator, owned by the concrete factory and never changed here. */
    const creatorMap: map<string, C>
    /** Lower-cased canonical name -> creator, for names registered case-insensitively. */
    const caseInsensitiveCreatorMap: map<string, C>
    /** Alias name -> canonical name. */
    var aliases: map<string, string>
    /** Lower-cased alias name -> canonical name, for case-insensitive aliases. */
    var caseInsensitiveAliases: map<string, string>

    /** A key of one of the two canonical maps. */
    predicate IsRealName(name: string) {
      name in creatorMap || name in caseInsensitiveCreatorMap
    }

    /** An alias name that registration refuses because it is already a real name. */
    predicate IsRealNameCollision(aliasName: string) {
      aliasName in creatorMap || ToLower(aliasName) in caseInsensitiveCreatorMap
    }

    /** What registration keeps true: every alias points at a real name, no alias name
        is a real name, and case-insensitive alias names are stored lower-cased. */
    ghost predicate Valid()
      reads this
    {
      && (forall a :: a in aliases ==> IsRealName(aliases[a]))
      && (forall a :: a in caseInsensitiveAliases ==> IsRealName(caseInsensitiveAliases[a]))
      && (forall a :: a in aliases ==> !IsRealNameCollision(a))
      && (forall a :: a in caseInsensitiveAliases ==> IsLower(a) && a !in caseInsensitiveCreatorMap)
    }

    /** A registry over the given canonical maps, with no aliases yet. */
    constructor (creators: map<string, C>, caseInsensitiveCreators: map<string, C>)
      ensures creatorMap == creators && caseInsensitiveCreatorMap == caseInsensitiveCreators
      ensures aliases == map[] && caseInsensitiveAliases == map[]
      ensures Valid()
    {
      creatorMap := creators;
      caseInsensitiveCreatorMap := caseInsensitiveCreators;
      aliases := map[];
      caseInsensitiveAliases := map[];
    }

    /** The canonical name an alias of `realName` is stored with: `realName` itself when
        it is an exact canonical name, otherwise its lower-cased form when that is a
        case-insensitive canonical name. */
    function ResolveRealName(realName: string): (r: Option<string>)
      ensures r.Some? <==> realName in creatorMap || ToLower(realName) in caseInsensitiveCreatorMap
      ensures r.Some? ==> IsRealName(r.value)
      ensures realName in creatorMap ==> r == Some(realName)
      ensures realName !in creatorMap && r.Some? ==> r.value == ToLower(realName)
    {
      if realName in creatorMap then Some(realName)
      else if ToLower(realName) in caseInsensitiveCreatorMap then Some(ToLower(realName))
      else None
    }

    /** Registers `aliasName` as another name of `realName`. Both inserts are
        non-overwriting, and the case-insensitive insert is not undone when the
        exact insert that follows it fails. */
    method RegisterAlias(aliasName: string, realName: string, sensitiveness: CaseSensitiveness := CaseSensitive)
      returns (outcome: Outcome)
      requires Valid()
      modifies this
      ensures Valid()
      // failures raised before either map is touched
      ensures ResolveRealName(realName).None? ==>
        outcome == Fail(UnknownRealName) && unchanged(this)
      ensures ResolveRealName(realName).Some? && IsRealNameCollision(aliasName) ==>
        outcome == Fail(CollidesWithRealName) && unchanged(this)
      ensures (ResolveRealName(realName).Some? && !IsRealNameCollision(aliasName)
               && sensitiveness == CaseInsensitive && ToLower(aliasName) in old(caseInsensitiveAliases)) ==>
        outcome == Fail(DuplicateCaseInsensitiveAlias) && unchanged(this)
      // otherwise the case-insensitive insert (if any) happens, then the exact one is tried
      ensures (ResolveRealName(realName).Some? && !IsRealNameCollision(aliasName)
               && !(sensitiveness == CaseInsensitive && ToLower(aliasName) in old(caseInsensitiveAliases))) ==>
        var target := ResolveRealName(realName).value;
        && caseInsensitiveAliases == (if sensitiveness == CaseInsensitive
                                      then old(caseInsensitiveAliases)[ToLower(aliasName) := target]
                                      else old(caseInsensitiveAliases))
        && aliases == (if aliasName in old(aliases) then old(aliases) else old(aliases)[aliasName := target])
        && outcome == (if aliasName in old(aliases) then Fail(DuplicateAlias) else Pass)
      // no earlier entry is ever overwritten or removed
      ensures forall a :: a in old(aliases) ==> a in aliases && aliases[a] == old(aliases)[a]
      ensures forall a :: a in old(caseInsensitiveAliases) ==>
        a in caseInsensitiveAliases && caseInsensitiveAliases[a] == old(caseInsensitiveAliases)[a]
      // a failure changes nothing, except the case-insensitive entry left by a failed exact insert
      ensures outcome.Fail? ==> aliases == old(aliases)
      ensures outcome.Fail? && outcome.error != DuplicateAlias ==>
        caseInsensitiveAliases == old(caseInsensitiveAliases)
      // after a success the alias resolves to the canonical target
      ensures outcome == Pass ==>
        && IsAlias(aliasName)
        && AliasTo(aliasName) == Success(ResolveRealName(realName).value)
        && GetAliasToOrName(aliasName) == ResolveRealName(realName).value
      ensures outcome == Pass && sensitiveness == CaseInsensitive ==>
        IsCaseInsensitive(aliasName) && AliasTo(ToLower(aliasName)).Success?
    {
      var target := ResolveRealName(realName);
      if target.None? {
        return Fail(UnknownRealName);
      }
      var aliasLower := ToLower(aliasName);
      if aliasName in creatorMap || aliasLower in caseInsensitiveCreatorMap {
        return Fail(CollidesWithRealName);
      }
      if sensitiveness == CaseInsensitive {
        if aliasLower in caseInsensitiveAliases {
          return Fail(DuplicateCaseInsensitiveAlias);
        }
        caseInsensitiveAliases := caseInsensitiveAliases[aliasLower := target.value];
      }
      if aliasName in aliases {
        return Fail(DuplicateAlias);
      }
      aliases := aliases[aliasName := target.value];
      ToLowerIdempotent(aliasName);
      return Pass;
    }

    /** Lenient resolution: the exact alias first, then the case-insensitive alias of
        the lower-cased name, otherwise the name itself. */
    function GetAliasToOrName(name: string): (r: string)
      reads this
      ensures name in aliases ==> r == aliases[name]
      ensures name !in aliases && ToLower(name) in caseInsensitiveAliases ==>
        r == caseInsensitiveAliases[ToLower(name)]
      ensures name !in aliases && ToLower(name) !in caseInsensitiveAliases ==> r == name
    {
      if name in aliases then aliases[name]
      else if ToLower(name) in caseInsensitiveAliases then caseInsensitiveAliases[ToLower(name)]
      else name
    }

    /** Strict resolution: the same lookups as `GetAliasToOrName`, failing when neither hits. */
    function AliasTo(name: string): (r: Result<string>)
      reads this
      ensures r.Success? <==> name in aliases || ToLower(name) in caseInsensitiveAliases
      ensures r.Success? ==> r.value == GetAliasToOrName(name)
      ensures r.Failure? ==> r.error == NotAnAlias && GetAliasToOrName(name) == name
    {
      if name in aliases then Success(aliases[name])
      else if ToLower(name) in caseInsensitiveAliases then Success(caseInsensitiveAliases[ToLower(name)])
      else Failure(NotAnAlias)
    }

    /** The name itself is a key of either alias map; it is not lower-cased. */
    function IsAlias(name: string): (r: bool)
      reads this
      ensures name in aliases ==> r && AliasTo(name).Success?
      // a name that is no alias itself is resolved only through a different lower-case spelling
      ensures !r && AliasTo(name).Success? ==> ToLower(name) != name
    {
      name in aliases || name in caseInsensitiveAliases
    }

    /** The lower-cased name is a case-insensitive canonical name or alias. */
    function IsCaseInsensitive(name: string): (r: bool)
      reads this
      ensures ToLower(name) in caseInsensitiveCreatorMap ==> r
      ensures r ==> ToLower(name) in caseInsensitiveCreatorMap || ToLower(name) in caseInsensitiveAliases
      ensures ToLower(name) in caseInsensitiveAliases ==> r && AliasTo(name).Success?
      // a name that is neither case-insensitive nor an exact alias fails strict resolution
      ensures !r && name !in aliases ==> AliasTo(name) == Failure(NotAnAlias)
    {
      ToLower(name) in caseInsensitiveCreatorMap || ToLower(name) in caseInsensitiveAliases
    }

    /** Every canonical name, then every exact alias name; case-insensitive alias
        names are not listed on their own. */
    method GetAllRegisteredNames() returns (names: seq<string>)
      requires Valid()
      ensures |names| == |creatorMap| + |aliases|
      ensures forall i :: 0 <= i < |creatorMap| ==> names[i] in creatorMap
      ensures forall i :: |creatorMap| <= i < |names| ==> names[i] in aliases
      ensures forall n :: n in creatorMap ==> n in names[..|creatorMap|]
      ensures forall n :: n in aliases ==> n in names[|creatorMap|..]
      ensures NoDuplicates(names)
    {
      var canonical := AppendKeys([], creatorMap);
      assert forall i :: 0 <= i < |canonical| ==> canonical[i] !in aliases by {
        forall i | 0 <= i < |canonical| ensures canonical[i] !in aliases {
          assert canonical[i] in creatorMap;
        }
      }
      names := AppendKeys(canonical, aliases);
      assert names[..|creatorMap|] == canonical;
    }

    /** Whatever a name resolves to is a canonical name, unless it is the name itself. */
    lemma ResolutionIsCanonical(name: string)
      requires Valid()
      ensures GetAliasToOrName(name) == name || IsRealName(GetAliasToOrName(name))
      ensures AliasTo(name).Success? ==> IsRealName(AliasTo(name).value)
    {
    }

    /** A name that `IsAlias` reports is one that `AliasTo` resolves. The converse
        fails: `AliasTo` lower-cases the name, `IsAlias` does not. */
    lemma AliasIsResolvable(name: string)
      requires Valid()
      ensures IsAlias(name) ==> AliasTo(name) == Success(GetAliasToOrName(name))
    {
      if name in caseInsensitiveAliases {
        ToLowerOfLower(name);
      }
    }

    /** `IsAlias` looks the name up as given: it holds exactly for an exact alias, or for
        a name that is already lower-case and resolves through the case-insensitive map. */
    lemma IsAliasDoesNotLowerCase(name: string)
      requires Valid()
      ensures IsAlias(name) <==> name in aliases || (ToLower(name) == name && AliasTo(name).Success?)
    {
    }

    /** `IsCaseInsensitive` does not depend on the case of its argument. */
    lemma CaseInsensitivityIgnoresCase(name: string)
      ensures IsCaseInsensitive(name) == IsCaseInsensitive(ToLower(name))
    {
      ToLowerIdempotent(name);
    }

    /** A case-insensitive name that is not a canonical one is a case-insensitive
        alias, so strict resolution succeeds for it. */
    lemma CaseInsensitiveAliasResolves(name: string)
      requires Valid()
      ensures IsCaseInsensitive(name) && ToLower(name) !in caseInsensitiveCreatorMap ==>
        AliasTo(name).Success? && IsRealName(AliasTo(name).value)
    {
    }
  }

  /** A case-sensitive alias of "sum"; the canonical name itself cannot be an alias. */
  method SumExample() {
    var f := new FactoryWithAliases<int>(map["sum" := 0], map[]);
    assert ToLower("Sum") == "sum";
    var o := f.RegisterAlias("Sum", "sum");
    assert o == Pass;
    assert f.GetAliasToOrName("Sum") == "sum" && f.IsAlias("Sum");
    assert !f.IsAlias("sum");
    o := f.RegisterAlias("sum", "Sum", CaseSensitive);
    assert o == Fail(UnknownRealName);
    o := f.RegisterAlias("sum", "sum", CaseSensitive);
    assert o == Fail(CollidesWithRealName);
    o := f.RegisterAlias("Sum", "sum", CaseSensitive);
    assert o == Fail(DuplicateAlias);
  }

  /** A case-insensitive alias "MAX" of the case-sensitive canonical name "max". */
  method MaxExample() {
    var f := new FactoryWithAliases<int>(map["max" := 0], map[]);
    assert ToLower("MAX") == "max" && ToLower("Max") == "max";
    var o := f.RegisterAlias("MAX", "max", CaseInsensitive);
    assert o == Pass;
    assert f.IsCaseInsensitive("max") && f.IsCaseInsensitive("Max");
    assert f.GetAliasToOrName("Max") == "max";
    assert f.AliasTo("Max") == Success("max") && !f.IsAlias("Max");
  }

  /** A failed exact insert leaves the case-insensitive entry made just before it. */
  method NoRollbackExample() {
    var f := new FactoryWithAliases<int>(map["max" := 0], map[]);
    assert ToLower("Maximum") == "maximum";
    var o := f.RegisterAlias("Maximum", "max", CaseSensitive);
    assert o == Pass;
    o := f.RegisterAlias("Maximum", "max", CaseInsensitive);
    assert o == Fail(DuplicateAlias);
    assert f.caseInsensitiveAliases == map["maximum" := "max"];
    assert f.IsCaseInsensitive("MAXIMUM");
  }
}
