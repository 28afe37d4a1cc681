/**
 * The vocabulary shared by the two `_helpers` binding modules: the identifier
 * kinds that can be converted into one another, and the ownership policy
 * attached to a converted value. Each binding module declares its conversions
 * with `EXPORT_CONVERSION_FUNCTION(<target type>, <Target>, <source type>, <Source>[, <policy>])`;
 * here a module's declarations are a table from (target, source) to the policy.
 */
module Conversions {
  import opened Wrappers

  /** Identifier kinds, with the C++ type each one travels as. */
  datatype Kind =
    | Index       // unsigned int
    | Edict       // edict_t *
    | BaseHandle  // CBaseHandle
    | IntHandle   // int
    | Pointer     // CPointer *
    | BaseEntity  // CBaseEntity *
    | Userid      // unsigned int
    | PlayerInfo  // IPlayerInfo *

  /**
   * The call policy of a declaration: none given (the result is returned by
   * value), `reference_existing_object_policy()` (the result aliases
   * engine-owned memory) or `manage_new_object_policy()` (the scripting side
   * takes ownership of a freshly allocated result).
   */
  datatype Policy = Value | Borrowed | NewlyOwned

  /** Every kind, in declaration order. */
  const AllKinds: seq<Kind> := [Index, Edict, BaseHandle, IntHandle, Pointer, BaseEntity, Userid, PlayerInfo]

  /** Every kind, as a set. */
  const KindSet: set<Kind> := {Index, Edict, BaseHandle, IntHandle, Pointer, BaseEntity, Userid, PlayerInfo}

  /**
   * `AllKinds` lists every kind of `KindSet` exactly once, and every kind is
   * in both; so `CountPairs(table, AllKinds)` counts each target once.
   */
  lemma AllKindsListsKindSet(k: Kind)
    ensures k in KindSet && k in AllKinds
    ensures |AllKinds| == |KindSet|
    ensures forall i, j :: 0 <= i < j < |AllKinds| ==> AllKinds[i] != AllKinds[j]
  {
    KindSetSize();
  }

  lemma KindSetSize()
    ensures |KindSet| == 8
  {
  }

  /** A conversion table: the policy declared for converting a source kind into a target kind, if any. */
  type Table = (Kind, Kind) -> Option<Policy>

  /** The kinds from which `table` produces `target`. */
  function SourcesOf(table: Table, target: Kind): set<Kind>
  {
    set s | s in AllKinds && table(target, s).Some?
  }

  /** `table` produces `target` from exactly the kinds in `expected`, checked kind by kind. */
  predicate SourcesAre(table: Table, target: Kind, expected: set<Kind>)
  {
    && (table(target, Index).Some? <==> Index in expected)
    && (table(target, Edict).Some? <==> Edict in expected)
    && (table(target, BaseHandle).Some? <==> BaseHandle in expected)
    && (table(target, IntHandle).Some? <==> IntHandle in expected)
    && (table(target, Pointer).Some? <==> Pointer in expected)
    && (table(target, BaseEntity).Some? <==> BaseEntity in expected)
    && (table(target, Userid).Some? <==> Userid in expected)
    && (table(target, PlayerInfo).Some? <==> PlayerInfo in expected)
  }

  /** `SourcesOf` is the set of sources the table declares for `target`. */
  lemma SourcesOfIs(table: Table, target: Kind, expected: set<Kind>)
    requires SourcesAre(table, target, expected)
    ensures SourcesOf(table, target) == expected
  {
    forall s ensures s in SourcesOf(table, target) <==> s in expected {
      match s
      case Index => case Edict => case BaseHandle => case IntHandle =>
      case Pointer => case BaseEntity => case Userid => case PlayerInfo =>
    }
  }

  /** Removing a member from a set of kinds removes one from its size. */
  lemma RemoveOne(candidates: set<Kind>, k: Kind)
    requires k in candidates
    ensures |candidates - {k}| == |candidates| - 1
  {
    assert candidates == (candidates - {k}) + {k};
  }

  /** The number of declared pairs whose target is one of `targets`. */
  function CountPairs(table: Table, targets: seq<Kind>): nat
  {
    if targets == [] then 0 else |SourcesOf(table, targets[0])| + CountPairs(table, targets[1..])
  }

  /** `CountPairs` over every kind, written out kind by kind. */
  lemma CountPairsOfAll(table: Table)
    ensures CountPairs(table, AllKinds) ==
      |SourcesOf(table, Index)| + |SourcesOf(table, Edict)| + |SourcesOf(table, BaseHandle)| +
      |SourcesOf(table, IntHandle)| + |SourcesOf(table, Pointer)| + |SourcesOf(table, BaseEntity)| +
      |SourcesOf(table, Userid)| + |SourcesOf(table, PlayerInfo)|
  {
    var ks := AllKinds;
    assert ks[1..][1..][1..][1..][1..][1..][1..][1..] == [];
  }
}
