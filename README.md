# Alias table of `IFactoryWithAliases`

This project models the alias layer that ClickHouse's factories (data types,
functions, aggregate functions, ...) share, and proves properties of it in Dafny.
A concrete factory owns two canonical maps: name → creator, and lower-cased name →
creator for names registered case-insensitively. The alias layer adds two maps of
its own:

- `aliases`: exact alias name → canonical name;
- `caseInsensitiveAliases`: lower-cased alias name → canonical name.

It offers registration (`RegisterAlias`), lenient and strict resolution
(`GetAliasToOrName`, `AliasTo`), two membership queries (`IsAlias`,
`IsCaseInsensitive`) and the list of all registered names (`GetAllRegisteredNames`).

Files:

- `ascii.dfy`, module `Ascii`: `ToLower`, the model of `Poco::toLower`. It maps ASCII
  `A`–`Z` to `a`–`z` and keeps every other character. Its contract says that the result
  has no capitals; lemmas prove that lower-casing is idempotent.
- `factory_with_aliases.dfy`, module `FactoryAliases`: the error kinds, and the class
  `FactoryWithAliases<C>`. The class holds the two canonical maps as `const` fields fixed
  at construction. It holds the two alias maps as `var` fields, which only `RegisterAlias`
  changes. `Valid()` is the invariant that the constructor establishes and
  `RegisterAlias` keeps:
  - every alias target is a canonical name;
  - no exact alias name collides with a canonical name, exactly or after lower-casing;
  - every case-insensitive alias key is lower-case and is not a case-insensitive
    canonical name.

  Because `RegisterAlias` is the only mutator, this holds after any sequence of calls.
  Three client methods (`SumExample`, `MaxExample`, `NoRollbackExample`) work through
  concrete registrations and check what the contracts promise for them.

Points of the code's behaviour worth noting:

- `isAlias` does not lower-case its argument. It checks the name itself against both alias
  maps. So `AliasTo("Max")` can succeed while `IsAlias("Max")` is false (`MaxExample`).
- `getAllRegisteredNames` lists the canonical names and then the exact alias names only.
  Case-insensitive alias keys are not listed separately. Its length is therefore
  `|creatorMap| + |aliases|`.
- The collision check tests whether the alias is an exact canonical name, or its
  lower-cased form is a case-insensitive canonical name. It does not test whether the
  lower-cased form is an exact canonical name. So a case-insensitive alias key can equal a
  case-sensitive canonical name: in `MaxExample`, `"max"` is both.
- A case-insensitive alias is entered in both maps. When the exact insert fails, the
  case-insensitive entry made just before it stays (`NoRollbackExample`).

## Model

| member | source | states |
|---|---|---|
| `Ascii.ToLower` | dbms/src/Common/IFactoryWithAliases.h:64 | the lower-cased name has the same length, each character is the ASCII lower-case of the original, and no capital letter remains |
| `Ascii.ToLowerOfLower` | dbms/src/Common/IFactoryWithAliases.h:71 | a string without capitals is its own lower-case form, so the stored lower-cased keys are fixed points of the folding |
| `Ascii.ToLowerIdempotent` | dbms/src/Common/IFactoryWithAliases.h:90 | lower-casing an already lower-cased name changes nothing |
| `FactoryAliases.AppendKeys` | dbms/src/Common/IFactoryWithAliases.h:82-84 | appending a map's keys keeps the prefix, adds exactly the map's keys each once, and keeps a duplicate-free sequence duplicate-free when the prefix shares no key with the map |
| `FactoryAliases.FactoryWithAliases.constructor` | dbms/src/Common/IFactoryWithAliases.h:121-129 | the canonical maps are the given ones, both alias maps start empty, and the invariant holds |
| `FactoryAliases.FactoryWithAliases.ResolveRealName` | dbms/src/Common/IFactoryWithAliases.h:55-62 | a real name resolves exactly when it is an exact canonical name or its lower-cased form is a case-insensitive canonical name; an exact match wins and keeps the caller's spelling, otherwise the lower-cased form is the target; the target is always a canonical name |
| `FactoryAliases.FactoryWithAliases.RegisterAlias` | dbms/src/Common/IFactoryWithAliases.h:49-77 | the sensitivity defaults to `CaseSensitive`; an unknown real name, a collision with a canonical name, or a duplicate case-insensitive alias fails with nothing changed; otherwise the lower-cased alias is added to the case-insensitive map (for `CaseInsensitive`), then the exact alias is added unless already present, in which case it fails with `DuplicateAlias` leaving the case-insensitive entry in place; no earlier entry is overwritten; after success the alias resolves to the target; the invariant is preserved |
| `FactoryAliases.FactoryWithAliases.GetAliasToOrName` | dbms/src/Common/IFactoryWithAliases.h:28-36 | an exact alias wins; otherwise the case-insensitive alias of the lower-cased name is returned; when neither lookup hits the name comes back unchanged; so the result is the name itself or a stored alias target |
| `FactoryAliases.FactoryWithAliases.AliasTo` | dbms/src/Common/IFactoryWithAliases.h:94-102 | succeeds exactly when the name is an exact alias or its lower-cased form is a case-insensitive alias, and then agrees with `GetAliasToOrName`; otherwise fails with `NotAnAlias`, where `GetAliasToOrName` returns the name unchanged |
| `FactoryAliases.FactoryWithAliases.IsAlias` | dbms/src/Common/IFactoryWithAliases.h:104-107 | membership of the name itself, not lower-cased, in either alias map: an exact alias is reported and resolved by `AliasTo`, and a name `AliasTo` resolves without being reported has a lower-case form different from itself (see also `AliasIsResolvable`, `IsAliasDoesNotLowerCase`) |
| `FactoryAliases.FactoryWithAliases.IsCaseInsensitive` | dbms/src/Common/IFactoryWithAliases.h:88-92 | holds exactly when the lower-cased name is a key of the case-insensitive canonical map or of the case-insensitive alias map; a case-insensitive alias is reported and resolved by `AliasTo`, and a name that is neither reported nor an exact alias fails `AliasTo` with `NotAnAlias` (see also `CaseInsensitivityIgnoresCase`, `CaseInsensitiveAliasResolves`) |
| `FactoryAliases.FactoryWithAliases.GetAllRegisteredNames` | dbms/src/Common/IFactoryWithAliases.h:79-86 | every canonical name, then every exact alias name, each exactly once, of length `|creatorMap| + |aliases|`, without duplicates |
| `FactoryAliases.FactoryWithAliases.ResolutionIsCanonical` | dbms/src/Common/IFactoryWithAliases.h:55-76 | under the invariant, lenient resolution yields the name itself or a canonical name, and strict resolution always yields a canonical name |
| `FactoryAliases.FactoryWithAliases.AliasIsResolvable` | dbms/src/Common/IFactoryWithAliases.h:104-107 | under the invariant, every name `IsAlias` reports is resolved by `AliasTo` |
| `FactoryAliases.FactoryWithAliases.IsAliasDoesNotLowerCase` | dbms/src/Common/IFactoryWithAliases.h:104-107 | under the invariant, `IsAlias` holds exactly for an exact alias or for an already lower-case name that `AliasTo` resolves; a name found only through its lower-cased form is not reported |
| `FactoryAliases.FactoryWithAliases.CaseInsensitivityIgnoresCase` | dbms/src/Common/IFactoryWithAliases.h:88-92 | `IsCaseInsensitive` gives the same answer for a name and for its lower-cased form |
| `FactoryAliases.FactoryWithAliases.CaseInsensitiveAliasResolves` | dbms/src/Common/IFactoryWithAliases.h:88-102 | under the invariant, a case-insensitive name that is not a case-insensitive canonical name is resolved by `AliasTo` to a canonical name |

## Left out

- `getHints`: it keeps a function-local static snapshot built on its first call and delegates to an edit-distance prompter whose code is not part of this model.
- Names are `std::string` byte strings in the source and Dafny `string` (sequences of Unicode characters) here, so byte strings that are not valid text are not represented; the ASCII-only folding makes no other difference.
- `Poco::toLower` is modelled for ASCII letters only; locale-dependent folding of other characters is not modelled.
- Exception messages, `ErrorCodes::LOGICAL_ERROR` and `getFactoryName` (used only in messages) are replaced by the error kinds of `AliasError`.
- The virtual accessors `getCreatorMap` and `getCaseInsensitiveCreatorMap` become `const` maps handed to the constructor; the `Creator` payload is the type parameter `C` and is never inspected.
- FactoryAliases.FactoryWithAliases.GetAllRegisteredNames: the order within each group follows `unordered_map` iteration, which is unspecified, so the contract fixes only the grouping, the contents and the length.
- FactoryAliases.FactoryWithAliases.GetAllRegisteredNames: requires the class invariant `Valid()`, which makes canonical and alias names disjoint and so the list duplicate-free; the source states no precondition.
- FactoryAliases.FactoryWithAliases.RegisterAlias: requires the class invariant `Valid()`, which the constructor establishes and every call keeps; the source states no precondition.
- Concurrency: the source provides no synchronisation, and registration is modelled as sequential.
