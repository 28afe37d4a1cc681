/**
 * The `_players._helpers` scripting module (`export_player_conversion_functions`):
 * the sentinel it publishes and the conversion functions it declares between a
 * player's user id or player-info object and the entity identifier kinds.
 */
module PlayersHelpers {
  import opened Wrappers
  import opened Conversions

  /**
   * The named constant published by `export_player_conversion_functions`.
   * Its value comes from a header outside this model, so it is a parameter.
   */
  function PublishedConstants(invalidPlayerUserid: int): (m: map<string, int>)
    ensures m.Keys == {"INVALID_PLAYER_USERID"}
    ensures m["INVALID_PLAYER_USERID"] == invalidPlayerUserid
  {
    map["INVALID_PLAYER_USERID" := invalidPlayerUserid]
  }

  /** The two kinds only players have. */
  predicate IsPlayerKind(k: Kind)
  {
    k == Userid || k == PlayerInfo
  }

  /** The policy shared by every player conversion into `target`. */
  function TargetPolicy(target: Kind): Policy
  {
    match target
    case Edict => Borrowed
    case Pointer => Borrowed
    case PlayerInfo => Borrowed
    case _ => Value
  }

  /**
   * The player conversion declarations, grouped by target as the source groups
   * them: the policy declared for converting `source` into `target`, if any.
   */
  function PlayerTable(target: Kind, source: Kind): (r: Option<Policy>)
    ensures r.Some? <==>
      target != source && target != BaseEntity && source != BaseEntity && (IsPlayerKind(target) || IsPlayerKind(source))
    ensures r.Some? ==> r.value == TargetPolicy(target)
  {
    match target
    case Index =>
      match source {
        case Userid | PlayerInfo => Some(Value)
        case _ => None
      }
    case Edict =>
      match source {
        case Userid | PlayerInfo => Some(Borrowed)
        case _ => None
      }
    case BaseHandle =>
      match source {
        case Userid | PlayerInfo => Some(Value)
        case _ => None
      }
    case IntHandle =>
      match source {
        case Userid | PlayerInfo => Some(Value)
        case _ => None
      }
    case Pointer =>
      match source {
        case Userid | PlayerInfo => Some(Borrowed)
        case _ => None
      }
    case Userid =>
      match source {
        case Index | Edict | BaseHandle | IntHandle | Pointer | PlayerInfo => Some(Value)
        case _ => None
      }
    case PlayerInfo =>
      match source {
        case Index | Edict | BaseHandle | IntHandle | Pointer | Userid => Some(Borrowed)
        case _ => None
      }
    case BaseEntity => None
  }

  /** The kinds player conversions involve: all but BaseEntity. */
  const PlayerSources: set<Kind> := KindSet - {BaseEntity}

  /**
   * Each entity target is produced from the two player kinds, each player kind
   * from every other kind but BaseEntity, and BaseEntity from nothing.
   */
  lemma SourcesAreDeclared(target: Kind)
    ensures IsPlayerKind(target) ==> SourcesAre(PlayerTable, target, PlayerSources - {target})
    ensures target == BaseEntity ==> SourcesAre(PlayerTable, target, {})
    ensures !IsPlayerKind(target) && target != BaseEntity ==> SourcesAre(PlayerTable, target, {Userid, PlayerInfo})
  {
  }

  /** Two sources per entity target, six per player kind, none for BaseEntity. */
  lemma SourcesPerTarget(target: Kind)
    ensures target in {Index, Edict, BaseHandle, IntHandle, Pointer} ==> SourcesOf(PlayerTable, target) == {Userid, PlayerInfo}
    ensures IsPlayerKind(target) ==> |SourcesOf(PlayerTable, target)| == 6
    ensures target == BaseEntity ==> SourcesOf(PlayerTable, target) == {}
  {
    SourcesAreDeclared(target);
    if IsPlayerKind(target) {
      SourcesOfIs(PlayerTable, target, PlayerSources - {target});
      KindSetSize();
      RemoveOne(KindSet, BaseEntity);
      RemoveOne(PlayerSources, target);
    } else if target == BaseEntity {
      SourcesOfIs(PlayerTable, target, {});
    } else {
      SourcesOfIs(PlayerTable, target, {Userid, PlayerInfo});
    }
  }

  /** 22 declared pairs in all. */
  lemma PairCount()
    ensures CountPairs(PlayerTable, AllKinds) == 22
  {
    CountPairsOfAll(PlayerTable);
    assert |{Userid, PlayerInfo}| == 2;
    SourcesPerTarget(Index);
    SourcesPerTarget(Edict);
    SourcesPerTarget(BaseHandle);
    SourcesPerTarget(IntHandle);
    SourcesPerTarget(Pointer);
    SourcesPerTarget(BaseEntity);
    SourcesPerTarget(Userid);
    SourcesPerTarget(PlayerInfo);
  }

  /** Neither Userid nor PlayerInfo (nor any other kind) is converted into itself. */
  lemma NoSelfConversion(k: Kind)
    ensures PlayerTable(k, k) == None
  {
  }

  /** Every declared player pair is declared in both directions, Userid and PlayerInfo included. */
  lemma Symmetric(a: Kind, b: Kind)
    ensures PlayerTable(a, b).Some? <==> PlayerTable(b, a).Some?
  {
  }

  /** Edict, Pointer and PlayerInfo results are borrowed; Index, BaseHandle, IntHandle and Userid results are plain values. */
  lemma PolicyByTarget(target: Kind, source: Kind)
    requires PlayerTable(target, source).Some?
    ensures target in {Edict, Pointer, PlayerInfo} ==> PlayerTable(target, source) == Some(Borrowed)
    ensures target in {Index, BaseHandle, IntHandle, Userid} ==> PlayerTable(target, source) == Some(Value)
  {
  }

  /** Every declared player pair has Userid or PlayerInfo on one side. */
  lemma InvolvesPlayerKind(target: Kind, source: Kind)
    requires PlayerTable(target, source).Some?
    ensures IsPlayerKind(target) || IsPlayerKind(source)
  {
  }
}
