/**
 * The combined conversion registry: every conversion declared by either
 * `_helpers` module, with its ownership policy.
 */
module ConversionRegistry {
  import opened Wrappers
  import opened Conversions
  import EntitiesHelpers
  import PlayersHelpers

  /** No pair is declared by both modules. */
  lemma Disjoint(target: Kind, source: Kind)
    ensures !(EntitiesHelpers.EntityTable(target, source).Some? && PlayersHelpers.PlayerTable(target, source).Some?)
  {
    if PlayersHelpers.PlayerTable(target, source).Some? {
      PlayersHelpers.InvolvesPlayerKind(target, source);
    }
  }

  /**
   * The union of the two tables. Because they are disjoint, the union gives
   * every pair the policy of the module that declares it.
   */
  function RegistryTable(target: Kind, source: Kind): (r: Option<Policy>)
    ensures EntitiesHelpers.EntityTable(target, source).Some? ==> r == EntitiesHelpers.EntityTable(target, source)
    ensures PlayersHelpers.PlayerTable(target, source).Some? ==> r == PlayersHelpers.PlayerTable(target, source)
    ensures r.Some? <==> EntitiesHelpers.EntityTable(target, source).Some? || PlayersHelpers.PlayerTable(target, source).Some?
  {
    Disjoint(target, source);
    match EntitiesHelpers.EntityTable(target, source)
    case Some(p) => Some(p)
    case None => PlayersHelpers.PlayerTable(target, source)
  }

  /**
   * Between any two different kinds other than BaseEntity a conversion exists;
   * BaseEntity converts into the five entity kinds only, and nothing converts into it.
   */
  lemma Coverage(target: Kind, source: Kind)
    ensures target != BaseEntity && source != BaseEntity ==> (RegistryTable(target, source).Some? <==> target != source)
    ensures RegistryTable(BaseEntity, source) == None
    ensures RegistryTable(target, BaseEntity).Some? <==> EntitiesHelpers.IsEntityTarget(target)
  {
  }

  /** Apart from BaseEntity, every registered pair is registered in both directions. */
  lemma Symmetric(a: Kind, b: Kind)
    requires a != BaseEntity && b != BaseEntity
    ensures RegistryTable(a, b).Some? <==> RegistryTable(b, a).Some?
  {
  }

  /** Conversions into Pointer are newly owned from entity kinds but borrowed from player kinds. */
  lemma PointerPolicyDiffers(source: Kind)
    ensures (EntitiesHelpers.IsEntityTarget(source) && source != Pointer) || source == BaseEntity ==> RegistryTable(Pointer, source) == Some(NewlyOwned)
    ensures PlayersHelpers.IsPlayerKind(source) ==> RegistryTable(Pointer, source) == Some(Borrowed)
  {
  }

  /**
   * Each entity target is registered from every other kind, each player kind
   * from every other kind but BaseEntity, and BaseEntity from nothing.
   */
  lemma SourcesAreDeclared(target: Kind)
    ensures EntitiesHelpers.IsEntityTarget(target) ==> SourcesAre(RegistryTable, target, KindSet - {target})
    ensures PlayersHelpers.IsPlayerKind(target) ==> SourcesAre(RegistryTable, target, PlayersHelpers.PlayerSources - {target})
    ensures target == BaseEntity ==> SourcesAre(RegistryTable, target, {})
  {
    EntitiesHelpers.SourcesAreDeclared(target);
    PlayersHelpers.SourcesAreDeclared(target);
  }

  /** Seven sources per entity target, six per player kind, none for BaseEntity. */
  lemma SourcesPerTarget(target: Kind)
    ensures EntitiesHelpers.IsEntityTarget(target) ==> |SourcesOf(RegistryTable, target)| == 7
    ensures PlayersHelpers.IsPlayerKind(target) ==> |SourcesOf(RegistryTable, target)| == 6
    ensures target == BaseEntity ==> SourcesOf(RegistryTable, target) == {}
  {
    SourcesAreDeclared(target);
    KindSetSize();
    if EntitiesHelpers.IsEntityTarget(target) {
      SourcesOfIs(RegistryTable, target, KindSet - {target});
      RemoveOne(KindSet, target);
    } else if PlayersHelpers.IsPlayerKind(target) {
      SourcesOfIs(RegistryTable, target, PlayersHelpers.PlayerSources - {target});
      RemoveOne(KindSet, BaseEntity);
      RemoveOne(PlayersHelpers.PlayerSources, target);
    } else {
      SourcesOfIs(RegistryTable, target, {});
    }
  }

  /**
   * 47 registered pairs, the 25 entity pairs and the 22 player pairs: each of
   * the five entity kinds comes from seven sources, Userid and PlayerInfo from
   * six each.
   */
  lemma PairCount()
    ensures CountPairs(RegistryTable, AllKinds) == 47
    ensures CountPairs(RegistryTable, AllKinds) ==
      CountPairs(EntitiesHelpers.EntityTable, AllKinds) + CountPairs(PlayersHelpers.PlayerTable, AllKinds)
  {
    CountPairsOfAll(RegistryTable);
    SourcesPerTarget(Index);
    SourcesPerTarget(Edict);
    SourcesPerTarget(BaseHandle);
    SourcesPerTarget(IntHandle);
    SourcesPerTarget(Pointer);
    SourcesPerTarget(BaseEntity);
    SourcesPerTarget(Userid);
    SourcesPerTarget(PlayerInfo);
    EntitiesHelpers.PairCount();
    PlayersHelpers.PairCount();
  }
}
