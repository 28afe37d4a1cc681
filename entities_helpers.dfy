/**
 * The `_entities._helpers` scripting module (`export_entity_conversion_functions`):
 * the sentinels it publishes and the conversion functions it declares between
 * entity identifier kinds.
 */
module EntitiesHelpers {
  import opened Wrappers
  import opened Conversions

  /**
   * The named constants published by `export_entity_conversion_functions`.
   * Their values come from headers outside this model, so they are parameters.
   */
  function PublishedConstants(invalidEntityIndex: int, invalidEhandleIndex: int): (m: map<string, int>)
    ensures m.Keys == {"INVALID_ENTITY_INDEX", "INVALID_ENTITY_INTHANDLE"}
    ensures m["INVALID_ENTITY_INDEX"] == invalidEntityIndex
    ensures m["INVALID_ENTITY_INTHANDLE"] == invalidEhandleIndex
  {
    map["INVALID_ENTITY_INDEX" := invalidEntityIndex, "INVALID_ENTITY_INTHANDLE" := invalidEhandleIndex]
  }

  /** The five kinds that entity conversions produce; BaseEntity is only ever a source. */
  predicate IsEntityTarget(k: Kind)
  {
    k == Index || k == Edict || k == BaseHandle || k == IntHandle || k == Pointer
  }

  /** The policy shared by every entity conversion into `target`. */
  function TargetPolicy(target: Kind): Policy
  {
    match target
    case Edict => Borrowed
    case Pointer => NewlyOwned
    case _ => Value
  }

  /**
   * The entity conversion declarations, grouped by target as the source groups
   * them: the policy declared for converting `source` into `target`, if any.
   */
  function EntityTable(target: Kind, source: Kind): (r: Option<Policy>)
    ensures r.Some? <==> IsEntityTarget(target) && (IsEntityTarget(source) || source == BaseEntity) && target != source
    ensures r.Some? ==> r.value == TargetPolicy(target)
  {
    match target
    case Index =>
      match source {
        case Edict | BaseHandle | IntHandle | Pointer | BaseEntity => Some(Value)
        case _ => None
      }
    case Edict =>
      match source {
        case Index | BaseHandle | IntHandle | Pointer | BaseEntity => Some(Borrowed)
        case _ => None
      }
    case BaseHandle =>
      match source {
        case Index | Edict | IntHandle | Pointer | BaseEntity => Some(Value)
        case _ => None
      }
    case IntHandle =>
      match source {
        case Index | Edict | BaseHandle | Pointer | BaseEntity => Some(Value)
        case _ => None
      }
    case Pointer =>
      match source {
        case Index | Edict | BaseHandle | IntHandle | BaseEntity => Some(NewlyOwned)
        case _ => None
      }
    case _ => None
  }

  /** The kinds entity conversions start from: the five targets and BaseEntity. */
  const EntitySources: set<Kind> := {Index, Edict, BaseHandle, IntHandle, Pointer, BaseEntity}

  lemma EntitySourcesSize()
    ensures |EntitySources| == 6
  {
  }

  /** An entity target is produced from every entity source but itself; other kinds from none. */
  lemma SourcesAreDeclared(target: Kind)
    ensures IsEntityTarget(target) ==> SourcesAre(EntityTable, target, EntitySources - {target})
    ensures !IsEntityTarget(target) ==> SourcesAre(EntityTable, target, {})
  {
  }

  /** Exactly five sources per entity target, none for any other kind. */
  lemma FiveSourcesPerTarget(target: Kind)
    ensures IsEntityTarget(target) ==> |SourcesOf(EntityTable, target)| == 5
    ensures !IsEntityTarget(target) ==> SourcesOf(EntityTable, target) == {}
  {
    SourcesAreDeclared(target);
    if IsEntityTarget(target) {
      SourcesOfIs(EntityTable, target, EntitySources - {target});
      EntitySourcesSize();
      RemoveOne(EntitySources, target);
    } else {
      SourcesOfIs(EntityTable, target, {});
    }
  }

  /** 25 declared pairs in all. */
  lemma PairCount()
    ensures CountPairs(EntityTable, AllKinds) == 25
  {
    CountPairsOfAll(EntityTable);
    FiveSourcesPerTarget(Index);
    FiveSourcesPerTarget(Edict);
    FiveSourcesPerTarget(BaseHandle);
    FiveSourcesPerTarget(IntHandle);
    FiveSourcesPerTarget(Pointer);
    FiveSourcesPerTarget(BaseEntity);
    FiveSourcesPerTarget(Userid);
    FiveSourcesPerTarget(PlayerInfo);
  }

  /** No kind is converted into itself. */
  lemma NoSelfConversion(k: Kind)
    ensures EntityTable(k, k) == None
  {
  }

  /** BaseEntity is a source of every entity target and the target of no conversion. */
  lemma BaseEntityOnlySource(k: Kind)
    ensures EntityTable(BaseEntity, k) == None
    ensures IsEntityTarget(k) ==> EntityTable(k, BaseEntity).Some?
  {
  }

  /** Among the five entity targets every declared pair is declared in both directions. */
  lemma Symmetric(a: Kind, b: Kind)
    requires IsEntityTarget(a) && IsEntityTarget(b)
    ensures EntityTable(a, b).Some? <==> EntityTable(b, a).Some?
  {
  }

  /** Edict results are borrowed, Pointer results newly owned, all other results plain values. */
  lemma PolicyByTarget(target: Kind, source: Kind)
    requires EntityTable(target, source).Some?
    ensures target == Edict ==> EntityTable(target, source) == Some(Borrowed)
    ensures target == Pointer ==> EntityTable(target, source) == Some(NewlyOwned)
    ensures target in {Index, BaseHandle, IntHandle} ==> EntityTable(target, source) == Some(Value)
  {
  }
}
