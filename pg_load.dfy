/**
 * The `_load` lines of PgRawDatabase in the padguide2 cog: the PadGuide rows of
 * each of the seventeen tables, the constructor that turns a row into a
 * record, and the store the seventeen lines build in their order.
 */
module PgLoad {

  import opened Wrappers
  import opened PgRecords

  datatype Kind =
    | KAttribute | KAwakening | KDungeon | KDrop | KDungeonMonster | KEvolution | KEvoMaterial
    | KMonster | KAddInfo | KInfo | KPrice | KSeries | KLeaderData | KSkill | KRotation
    | KDatedRotation | KType

  /** An item of `_all_pg_items`, named by its table and its `key()`. */
  datatype Key = Key(kind: Kind, id: int)

  /** Tables whose `load` does nothing. */
  predicate IsLeaf(k: Kind)
  {
    k == KAttribute || k == KDungeon || k == KAddInfo || k == KPrice || k == KSeries
    || k == KLeaderData || k == KSkill || k == KType
  }

  /** A `getter(id)` call on a table whose `load` does nothing. */
  datatype Request = Request(kind: Kind, id: Option<int>)

  /** The parsed rows of the seventeen JSON files. */
  datatype Tables = Tables(
    attributes: seq<AttributeRow>, awakenings: seq<AwakeningRow>, dungeons: seq<DungeonRow>,
    drops: seq<DropRow>, dungeonMonsters: seq<DungeonMonsterRow>, evolutions: seq<EvolutionRow>,
    evoMaterials: seq<EvoMaterialRow>, monsters: seq<MonsterRow>, addInfos: seq<AddInfoRow>,
    infos: seq<InfoRow>, prices: seq<PriceRow>, series: seq<SeriesRow>,
    leaderData: seq<LeaderDataRow>, skills: seq<SkillRow>, rotations: seq<RotationRow>,
    datedRotations: seq<DatedRotationRow>, types: seq<TypeRow>)

  predicate DistinctKeys(s: seq<Key>)
  {
    forall i, j :: 0 <= i < j < |s| ==> s[i] != s[j]
  }

  function OptKey(kind: Kind, id: Option<int>): set<Key>
  {
    if id.Some? then {Key(kind, id.value)} else {}
  }

  function KeysFor(kind: Kind, ids: seq<int>): (r: seq<Key>)
    ensures |r| == |ids|
    ensures forall i :: 0 <= i < |ids| ==> r[i] == Key(kind, ids[i])
  {
    if ids == [] then [] else [Key(kind, ids[0])] + KeysFor(kind, ids[1..])
  }

  /** `[itemtype(item) for item in items]`: the first constructor that raises aborts the load. */
  function Construct<A, B>(rows: seq<A>, make: A -> Result<B>): Result<seq<B>>
  {
    if rows == [] then Ok([])
    else match make(rows[0])
      case Err(e) => Err(e)
      case Ok(b) =>
        match Construct(rows[1..], make)
        case Err(e) => Err(e)
        case Ok(bs) => Ok([b] + bs)
  }

  /** Construction succeeds item by item, or some row's constructor raises. */
  lemma {:induction false} ConstructSpec<A, B>(rows: seq<A>, make: A -> Result<B>)
    ensures Construct(rows, make).Ok? ==>
              |Construct(rows, make).value| == |rows|
              && forall i :: 0 <= i < |rows| ==> make(rows[i]) == Ok(Construct(rows, make).value[i])
    ensures Construct(rows, make).Err? ==> exists i :: 0 <= i < |rows| && make(rows[i]).Err?
  {
    if rows != [] && make(rows[0]).Ok? {
      ConstructSpec(rows[1..], make);
      if Construct(rows[1..], make).Err? {
        var i :| 0 <= i < |rows[1..]| && make(rows[1..][i]).Err?;
        assert make(rows[i + 1]).Err?;
      } else {
        var bs := Construct(rows[1..], make).value;
        assert forall i :: 1 <= i < |rows| ==> rows[i] == rows[1..][i - 1];
      }
    }
  }

  /** `_load(itemtype)`: construct every row (the first that raises aborts), then keep the live items. */
  function LoadTable<Row, R>(rows: seq<Row>, make: Row -> Result<R>, key: R -> int, deleted: R -> bool): Result<Table<R>>
  {
    match Construct(rows, make)
    case Err(e) => Err(e)
    case Ok(items) => Ok(KeepLive(items, key, deleted))
  }

  /**
   * A loaded table holds live items only, each under its key and each built
   * from one of the rows, and its order lists every key once.
   */
  lemma LoadTableSpec<Row, R>(rows: seq<Row>, make: Row -> Result<R>, key: R -> int, deleted: R -> bool)
    ensures LoadTable(rows, make, key, deleted).Err? <==> exists i :: 0 <= i < |rows| && make(rows[i]).Err?
    ensures LoadTable(rows, make, key, deleted).Ok? ==>
              var t := LoadTable(rows, make, key, deleted).value;
              (forall id :: id in t.items ==> !deleted(t.items[id]) && key(t.items[id]) == id)
              && (forall id :: id in t.order <==> id in t.items)
              && Distinct(t.order)
              && (forall id :: id in t.items ==> exists i :: 0 <= i < |rows| && make(rows[i]) == Ok(t.items[id]))
  {
    ConstructSpec(rows, make);
    var c := Construct(rows, make);
    if c.Ok? {
      var items := c.value;
      KeepLiveSound(items, key, deleted);
      KeepLiveOrder(items, key, deleted);
      forall id | id in KeepLive(items, key, deleted).items
        ensures exists i :: 0 <= i < |rows| && make(rows[i]) == Ok(KeepLive(items, key, deleted).items[id])
      {
        KeepLiveLast(items, key, deleted, id);
        var i :| 0 <= i < |items| && items[i] == KeepLive(items, key, deleted).items[id]
                 && forall j :: i < j < |items| ==> deleted(items[j]) || key(items[j]) != id;
        assert make(rows[i]) == Ok(items[i]);
      }
    } else {
      var i :| 0 <= i < |rows| && make(rows[i]).Err?;
    }
  }

  // ------------------------------------------------------------- the tables of one load

  /** The monster constructor with the two text helpers it is given. */
  function MonsterMaker(romaSubname: string -> string, rmdiacritics: string -> string): MonsterRow -> Result<MonsterRec>
  {
    (row: MonsterRow) => NewMonster(row, romaSubname, rmdiacritics)
  }

  // `self._load(PgX)` for each table of the input, with the constructor, key and
  // deleted test that table's class gives.

  function AttributeLoad(t: Tables): Result<Table<AttributeRec>>
  { LoadTable(t.attributes, NewAttribute, AttributeKey, NeverDeleted<AttributeRec>) }
  function AwakeningLoad(t: Tables): Result<Table<AwakeningRec>>
  { LoadTable(t.awakenings, NewAwakening, AwakeningKey, AwakeningDeleted) }
  function DungeonLoad(t: Tables): Result<Table<DungeonRec>>
  { LoadTable(t.dungeons, NewDungeon, DungeonKey, NeverDeleted<DungeonRec>) }
  function DropLoad(t: Tables): Result<Table<DropRec>>
  { LoadTable(t.drops, NewDrop, DropKey, NeverDeleted<DropRec>) }
  function DungeonMonsterLoad(t: Tables): Result<Table<DungeonMonsterRec>>
  { LoadTable(t.dungeonMonsters, NewDungeonMonster, DungeonMonsterKey, NeverDeleted<DungeonMonsterRec>) }
  function EvolutionLoad(t: Tables): Result<Table<EvolutionRec>>
  { LoadTable(t.evolutions, NewEvolution, EvolutionKey, EvolutionDeleted) }
  function EvoMaterialLoad(t: Tables): Result<Table<EvoMaterialRec>>
  { LoadTable(t.evoMaterials, NewEvoMaterial, EvoMaterialKey, NeverDeleted<EvoMaterialRec>) }
  function MonsterLoad(t: Tables, romaSubname: string -> string, rmdiacritics: string -> string): Result<Table<MonsterRec>>
  { LoadTable(t.monsters, MonsterMaker(romaSubname, rmdiacritics), MonsterKey, NeverDeleted<MonsterRec>) }
  function AddInfoLoad(t: Tables): Result<Table<AddInfoRec>>
  { LoadTable(t.addInfos, NewAddInfo, AddInfoKey, NeverDeleted<AddInfoRec>) }
  function InfoLoad(t: Tables): Result<Table<InfoRec>>
  { LoadTable(t.infos, NewInfo, InfoKey, NeverDeleted<InfoRec>) }
  function PriceLoad(t: Tables): Result<Table<PriceRec>>
  { LoadTable(t.prices, NewPrice, PriceKey, NeverDeleted<PriceRec>) }
  function SeriesLoad(t: Tables): Result<Table<SeriesRec>>
  { LoadTable(t.series, NewSeries, SeriesKey, SeriesDeleted) }
  function LeaderDataLoad(t: Tables): Result<Table<LeaderDataRec>>
  { LoadTable(t.leaderData, NewLeaderData, LeaderDataKey, NeverDeleted<LeaderDataRec>) }
  function SkillLoad(t: Tables): Result<Table<SkillRec>>
  { LoadTable(t.skills, NewSkill, SkillKey, NeverDeleted<SkillRec>) }
  function RotationLoad(t: Tables): Result<Table<RotationRec>>
  { LoadTable(t.rotations, NewRotation, RotationKey, RotationDeleted) }
  function DatedRotationLoad(t: Tables): Result<Table<DatedRotationRec>>
  { LoadTable(t.datedRotations, NewDatedRotation, DatedRotationKey, NeverDeleted<DatedRotationRec>) }
  function TypeLoad(t: Tables): Result<Table<TypeRec>>
  { LoadTable(t.types, NewType, TypeKey, NeverDeleted<TypeRec>) }

  /** What the seventeen `_load` calls of one load return, table by table. */
  datatype Loads = Loads(
    attributes: Result<Table<AttributeRec>>,
    awakenings: Result<Table<AwakeningRec>>,
    dungeons: Result<Table<DungeonRec>>,
    drops: Result<Table<DropRec>>,
    dungeonMonsters: Result<Table<DungeonMonsterRec>>,
    evolutions: Result<Table<EvolutionRec>>,
    evoMaterials: Result<Table<EvoMaterialRec>>,
    monsters: Result<Table<MonsterRec>>,
    addInfos: Result<Table<AddInfoRec>>,
    infos: Result<Table<InfoRec>>,
    prices: Result<Table<PriceRec>>,
    series: Result<Table<SeriesRec>>,
    leaderData: Result<Table<LeaderDataRec>>,
    skills: Result<Table<SkillRec>>,
    rotations: Result<Table<RotationRec>>,
    datedRotations: Result<Table<DatedRotationRec>>,
    types: Result<Table<TypeRec>>)

  /** The `_load` result of every table of the input, with the text helpers the monster constructor is given. */
  function LoadsOf(t: Tables, romaSubname: string -> string, rmdiacritics: string -> string): Loads
  {
    Loads(
      AttributeLoad(t),
      AwakeningLoad(t),
      DungeonLoad(t),
      DropLoad(t),
      DungeonMonsterLoad(t),
      EvolutionLoad(t),
      EvoMaterialLoad(t),
      MonsterLoad(t, romaSubname, rmdiacritics),
      AddInfoLoad(t),
      InfoLoad(t),
      PriceLoad(t),
      SeriesLoad(t),
      LeaderDataLoad(t),
      SkillLoad(t),
      RotationLoad(t),
      DatedRotationLoad(t),
      TypeLoad(t))
  }

  // ------------------------------------------------------------- the `_load` lines

  /** What the `_load` lines build: the seventeen tables, the monster order and `_all_pg_items`. */
  datatype Store = Store(
    attributes: map<int, AttributeRec>, awakenings: map<int, AwakeningRec>, dungeons: map<int, DungeonRec>,
    drops: map<int, DropRec>, dungeonMonsters: map<int, DungeonMonsterRec>, evolutions: map<int, EvolutionRec>,
    evoMaterials: map<int, EvoMaterialRec>, monsters: map<int, MonsterRec>, addInfos: map<int, AddInfoRec>,
    infos: map<int, InfoRec>, prices: map<int, PriceRec>, series: map<int, SeriesRec>,
    leaderData: map<int, LeaderDataRec>, skills: map<int, SkillRec>, rotations: map<int, RotationRec>,
    datedRotations: map<int, DatedRotationRec>, types: map<int, TypeRec>, monsterOrder: seq<int>, allItems: seq<Key>)

  /** `PgRawDatabase` before its first `_load` line. */
  const EmptyStore: Store :=
    Store(map[], map[], map[], map[], map[], map[], map[], map[], map[], map[], map[], map[], map[], map[], map[],
          map[], map[], [], [])

  // `self._x_map = self._load(PgX)`, one line each: the table becomes the live
  // items, appended in their order to `_all_pg_items`; a constructor that
  // raises ends the load with its error.

  function AttributesLine(l: Loads, s: Store): Result<Store>
  {
    var tab :- l.attributes;
    Ok(s.(attributes := tab.items, allItems := s.allItems + KeysFor(KAttribute, tab.order)))
  }

  function AwakeningsLine(l: Loads, s: Store): Result<Store>
  {
    var tab :- l.awakenings;
    Ok(s.(awakenings := tab.items, allItems := s.allItems + KeysFor(KAwakening, tab.order)))
  }

  function DungeonsLine(l: Loads, s: Store): Result<Store>
  {
    var tab :- l.dungeons;
    Ok(s.(dungeons := tab.items, allItems := s.allItems + KeysFor(KDungeon, tab.order)))
  }

  function DropsLine(l: Loads, s: Store): Result<Store>
  {
    var tab :- l.drops;
    Ok(s.(drops := tab.items, allItems := s.allItems + KeysFor(KDrop, tab.order)))
  }

  function DungeonMonstersLine(l: Loads, s: Store): Result<Store>
  {
    var tab :- l.dungeonMonsters;
    Ok(s.(dungeonMonsters := tab.items, allItems := s.allItems + KeysFor(KDungeonMonster, tab.order)))
  }

  function EvolutionsLine(l: Loads, s: Store): Result<Store>
  {
    var tab :- l.evolutions;
    Ok(s.(evolutions := tab.items, allItems := s.allItems + KeysFor(KEvolution, tab.order)))
  }

  function EvoMaterialsLine(l: Loads, s: Store): Result<Store>
  {
    var tab :- l.evoMaterials;
    Ok(s.(evoMaterials := tab.items, allItems := s.allItems + KeysFor(KEvoMaterial, tab.order)))
  }

  function MonstersLine(l: Loads, s: Store): Result<Store>
  {
    var tab :- l.monsters;
    Ok(s.(monsters := tab.items, monsterOrder := tab.order, allItems := s.allItems + KeysFor(KMonster, tab.order)))
  }

  function AddInfosLine(l: Loads, s: Store): Result<Store>
  {
    var tab :- l.addInfos;
    Ok(s.(addInfos := tab.items, allItems := s.allItems + KeysFor(KAddInfo, tab.order)))
  }

  function InfosLine(l: Loads, s: Store): Result<Store>
  {
    var tab :- l.infos;
    Ok(s.(infos := tab.items, allItems := s.allItems + KeysFor(KInfo, tab.order)))
  }

  function PricesLine(l: Loads, s: Store): Result<Store>
  {
    var tab :- l.prices;
    Ok(s.(prices := tab.items, allItems := s.allItems + KeysFor(KPrice, tab.order)))
  }

  function SeriesLine(l: Loads, s: Store): Result<Store>
  {
    var tab :- l.series;
    Ok(s.(series := tab.items, allItems := s.allItems + KeysFor(KSeries, tab.order)))
  }

  function LeaderDataLine(l: Loads, s: Store): Result<Store>
  {
    var tab :- l.leaderData;
    Ok(s.(leaderData := tab.items, allItems := s.allItems + KeysFor(KLeaderData, tab.order)))
  }

  function SkillsLine(l: Loads, s: Store): Result<Store>
  {
    var tab :- l.skills;
    Ok(s.(skills := tab.items, allItems := s.allItems + KeysFor(KSkill, tab.order)))
  }

  function RotationsLine(l: Loads, s: Store): Result<Store>
  {
    var tab :- l.rotations;
    Ok(s.(rotations := tab.items, allItems := s.allItems + KeysFor(KRotation, tab.order)))
  }

  function DatedRotationsLine(l: Loads, s: Store): Result<Store>
  {
    var tab :- l.datedRotations;
    Ok(s.(datedRotations := tab.items, allItems := s.allItems + KeysFor(KDatedRotation, tab.order)))
  }

  function TypesLine(l: Loads, s: Store): Result<Store>
  {
    var tab :- l.types;
    Ok(s.(types := tab.items, allItems := s.allItems + KeysFor(KType, tab.order)))
  }

  // The `_load` lines in four runs, each from the store the run before it left.

  function AttributesToDrops(l: Loads, s: Store): Result<Store>
  {
    var s1 :- AttributesLine(l, s);
    var s2 :- AwakeningsLine(l, s1);
    var s3 :- DungeonsLine(l, s2);
    DropsLine(l, s3)
  }

  function DungeonMonstersToMonsters(l: Loads, s: Store): Result<Store>
  {
    var s1 :- DungeonMonstersLine(l, s);
    var s2 :- EvolutionsLine(l, s1);
    var s3 :- EvoMaterialsLine(l, s2);
    MonstersLine(l, s3)
  }

  function AddInfosToSeries(l: Loads, s: Store): Result<Store>
  {
    var s1 :- AddInfosLine(l, s);
    var s2 :- InfosLine(l, s1);
    var s3 :- PricesLine(l, s2);
    SeriesLine(l, s3)
  }

  function LeaderDataToTypes(l: Loads, s: Store): Result<Store>
  {
    var s1 :- LeaderDataLine(l, s);
    var s2 :- SkillsLine(l, s1);
    var s3 :- RotationsLine(l, s2);
    var s4 :- DatedRotationsLine(l, s3);
    TypesLine(l, s4)
  }

  /** The seventeen `_load` lines of `PgRawDatabase.__init__` in their order: the first constructor that raises ends the load. */
  function Loaded(l: Loads): Result<Store>
  {
    var s4 :- AttributesToDrops(l, EmptyStore);
    var s8 :- DungeonMonstersToMonsters(l, s4);
    var s12 :- AddInfosToSeries(l, s8);
    LeaderDataToTypes(l, s12)
  }

  /** The error of the first table, in load order, whose constructor raises; `None` when none does. */
  function FirstError(l: Loads): Option<string>
  {
    if l.attributes.Err? then Some(l.attributes.error)
    else if l.awakenings.Err? then Some(l.awakenings.error)
    else if l.dungeons.Err? then Some(l.dungeons.error)
    else if l.drops.Err? then Some(l.drops.error)
    else if l.dungeonMonsters.Err? then Some(l.dungeonMonsters.error)
    else if l.evolutions.Err? then Some(l.evolutions.error)
    else if l.evoMaterials.Err? then Some(l.evoMaterials.error)
    else if l.monsters.Err? then Some(l.monsters.error)
    else if l.addInfos.Err? then Some(l.addInfos.error)
    else if l.infos.Err? then Some(l.infos.error)
    else if l.prices.Err? then Some(l.prices.error)
    else if l.series.Err? then Some(l.series.error)
    else if l.leaderData.Err? then Some(l.leaderData.error)
    else if l.skills.Err? then Some(l.skills.error)
    else if l.rotations.Err? then Some(l.rotations.error)
    else if l.datedRotations.Err? then Some(l.datedRotations.error)
    else if l.types.Err? then Some(l.types.error)
    else None
  }

  /** Every one of the seventeen constructors succeeds on its table's rows. */
  predicate AllOk(l: Loads)
  {
    FirstError(l).None?
  }

  /** No constructor raises exactly when each table loads. */
  lemma AllOkTables(l: Loads)
    ensures AllOk(l) <==>
      l.attributes.Ok? && l.awakenings.Ok? && l.dungeons.Ok? && l.drops.Ok? && l.dungeonMonsters.Ok? && l.evolutions.Ok?
      && l.evoMaterials.Ok? && l.monsters.Ok? && l.addInfos.Ok? && l.infos.Ok? && l.prices.Ok? && l.series.Ok?
      && l.leaderData.Ok? && l.skills.Ok? && l.rotations.Ok? && l.datedRotations.Ok? && l.types.Ok?
  {
  }

  /** `_all_pg_items` after a load: the keys of each table in its order, the tables in load order. */
  function AllKeys(l: Loads): seq<Key>
    requires AllOk(l)
  {
    KeysFor(KAttribute, l.attributes.value.order)
    + KeysFor(KAwakening, l.awakenings.value.order)
    + KeysFor(KDungeon, l.dungeons.value.order)
    + KeysFor(KDrop, l.drops.value.order)
    + KeysFor(KDungeonMonster, l.dungeonMonsters.value.order)
    + KeysFor(KEvolution, l.evolutions.value.order)
    + KeysFor(KEvoMaterial, l.evoMaterials.value.order)
    + KeysFor(KMonster, l.monsters.value.order)
    + KeysFor(KAddInfo, l.addInfos.value.order)
    + KeysFor(KInfo, l.infos.value.order)
    + KeysFor(KPrice, l.prices.value.order)
    + KeysFor(KSeries, l.series.value.order)
    + KeysFor(KLeaderData, l.leaderData.value.order)
    + KeysFor(KSkill, l.skills.value.order)
    + KeysFor(KRotation, l.rotations.value.order)
    + KeysFor(KDatedRotation, l.datedRotations.value.order)
    + KeysFor(KType, l.types.value.order)
  }

  /** The load succeeds exactly when every constructor does, and otherwise fails with the first error. */
  lemma LoadedOk(l: Loads)
    ensures Loaded(l).Ok? <==> AllOk(l)
    ensures Loaded(l).Err? ==> FirstError(l) == Some(Loaded(l).error)
  {
  }

  /** The store a load that succeeds leaves: each table as `_load` returned it, `_all_pg_items` as `AllKeys`. */
  function LoadedStore(l: Loads): Store
    requires AllOk(l)
  {
    Store(
      l.attributes.value.items,
      l.awakenings.value.items,
      l.dungeons.value.items,
      l.drops.value.items,
      l.dungeonMonsters.value.items,
      l.evolutions.value.items,
      l.evoMaterials.value.items,
      l.monsters.value.items,
      l.addInfos.value.items,
      l.infos.value.items,
      l.prices.value.items,
      l.series.value.items,
      l.leaderData.value.items,
      l.skills.value.items,
      l.rotations.value.items,
      l.datedRotations.value.items,
      l.types.value.items,
      l.monsters.value.order, AllKeys(l))
  }

  /** The `_load` lines, run one after the other, build exactly that store. */
  lemma LoadedContents(l: Loads)
    requires AllOk(l)
    ensures Loaded(l) == Ok(LoadedStore(l))
  {
    assert [] + KeysFor(KAttribute, l.attributes.value.order) == KeysFor(KAttribute, l.attributes.value.order);
  }

  /** What the link passes rely on: evolutions are not yet tied to their target, monsters have no references yet. */
  predicate Sound(l: Loads)
  {
    (l.evolutions.Ok? ==> forall tv :: tv in l.evolutions.value.items ==> l.evolutions.value.items[tv].toMonster.None?)
    && (l.monsters.Ok? ==> forall no :: no in l.monsters.value.items ==> Pristine(l.monsters.value.items[no]))
  }

  lemma LoadsOfSound(t: Tables, romaSubname: string -> string, rmdiacritics: string -> string)
    ensures Sound(LoadsOf(t, romaSubname, rmdiacritics))
  {
    LoadTableSpec(t.evolutions, NewEvolution, EvolutionKey, EvolutionDeleted);
    LoadTableSpec(t.monsters, MonsterMaker(romaSubname, rmdiacritics), MonsterKey, NeverDeleted<MonsterRec>);
  }

  /**
   * What the ensure and finalize passes keep of a loaded store: the tables
   * whose items nothing links, the monster order and `_all_pg_items` as they
   * are, and of every other table its ids.
   */
  datatype Shape = Shape(
    attributes: map<int, AttributeRec>, dungeons: map<int, DungeonRec>, addInfos: map<int, AddInfoRec>,
    prices: map<int, PriceRec>, leaderData: map<int, LeaderDataRec>, types: map<int, TypeRec>,
    monsterOrder: seq<int>, allItems: seq<Key>,
    awakeningIds: set<int>, dropIds: set<int>, dungeonMonsterIds: set<int>, evolutionIds: set<int>,
    evoMaterialIds: set<int>, monsterIds: set<int>, infoIds: set<int>, seriesIds: set<int>, skillIds: set<int>,
    rotationIds: set<int>, datedRotationIds: set<int>)

  function ShapeOf(s: Store): Shape
  {
    Shape(s.attributes, s.dungeons, s.addInfos, s.prices, s.leaderData, s.types, s.monsterOrder, s.allItems,
          s.awakenings.Keys, s.drops.Keys, s.dungeonMonsters.Keys, s.evolutions.Keys, s.evoMaterials.Keys,
          s.monsters.Keys, s.infos.Keys, s.series.Keys, s.skills.Keys, s.rotations.Keys, s.datedRotations.Keys)
  }

  /** The ids of one table, as a shape records them. */
  function IdsOf(sh: Shape, kind: Kind): set<int>
  {
    match kind
    case KAttribute => sh.attributes.Keys
    case KAwakening => sh.awakeningIds
    case KDungeon => sh.dungeons.Keys
    case KDrop => sh.dropIds
    case KDungeonMonster => sh.dungeonMonsterIds
    case KEvolution => sh.evolutionIds
    case KEvoMaterial => sh.evoMaterialIds
    case KMonster => sh.monsterIds
    case KAddInfo => sh.addInfos.Keys
    case KInfo => sh.infoIds
    case KPrice => sh.prices.Keys
    case KSeries => sh.seriesIds
    case KLeaderData => sh.leaderData.Keys
    case KSkill => sh.skillIds
    case KRotation => sh.rotationIds
    case KDatedRotation => sh.datedRotationIds
    case KType => sh.types.Keys
  }

  /**
   * What decides whether a record's `load` raises: the ids of the monsters,
   * skills, series and prices, the series id of each monster info, and the rows
   * of the awakenings, evolutions and evolution materials.  The ensure pass
   * changes none of it.
   */
  datatype Wiring = Wiring(
    monsterIds: set<int>, skillIds: set<int>, seriesIds: set<int>, priceIds: set<int>,
    infoSeries: map<int, Option<int>>, awakenings: map<int, AwakeningRow>,
    evolutions: map<int, EvolutionRow>, evoMaterials: map<int, EvoMaterialRow>)

  function InfoSeries(infos: map<int, InfoRec>): map<int, Option<int>>
  {
    map no | no in infos :: infos[no].tsrSeq
  }

  function AwakeningRows(awakenings: map<int, AwakeningRec>): map<int, AwakeningRow>
  {
    map id | id in awakenings :: awakenings[id].row
  }

  function EvolutionRows(evolutions: map<int, EvolutionRec>): map<int, EvolutionRow>
  {
    map tv | tv in evolutions :: evolutions[tv].row
  }

  function MaterialRows(evoMaterials: map<int, EvoMaterialRec>): map<int, EvoMaterialRow>
  {
    map id | id in evoMaterials :: evoMaterials[id].row
  }

  /** Linking a monster info sets its series, never its `tsr_seq`. */
  lemma InfoSeriesUpdate(infos: map<int, InfoRec>, no: int, v: InfoRec)
    requires no in infos && v.tsrSeq == infos[no].tsrSeq
    ensures InfoSeries(infos[no := v]) == InfoSeries(infos)
  {
  }

  /** Linking an awakening rewrites its links, never its row. */
  lemma AwakeningRowsUpdate(a: map<int, AwakeningRec>, id: int, v: AwakeningRec)
    requires id in a && v.row == a[id].row
    ensures AwakeningRows(a[id := v]) == AwakeningRows(a)
  {
  }

  /** Linking an evolution rewrites its links, never its row. */
  lemma EvolutionRowsUpdate(e: map<int, EvolutionRec>, tv: int, v: EvolutionRec)
    requires tv in e && v.row == e[tv].row
    ensures EvolutionRows(e[tv := v]) == EvolutionRows(e)
  {
  }

  /** Linking an evolution material rewrites its links, never its row. */
  lemma MaterialRowsUpdate(m: map<int, EvoMaterialRec>, id: int, v: EvoMaterialRec)
    requires id in m && v.row == m[id].row
    ensures MaterialRows(m[id := v]) == MaterialRows(m)
  {
  }

  function WiringOf(s: Store): Wiring
  {
    Wiring(s.monsters.Keys, s.skills.Keys, s.series.Keys, s.prices.Keys, InfoSeries(s.infos),
           AwakeningRows(s.awakenings), EvolutionRows(s.evolutions), MaterialRows(s.evoMaterials))
  }

  /** PgMonster.load finds the monster's info, the series that info names, and the monster's price. */
  predicate Linkable(w: Wiring, no: int)
  {
    no in w.infoSeries && Lookup(w.seriesIds, w.infoSeries[no]).Some? && no in w.priceIds
  }

  /**
   * Some record's `load` raises: a monster that cannot be linked, an awakening
   * whose monster or skill is missing, an evolution whose source or target is
   * missing, or a material of a known evolution whose fodder is missing.
   */
  predicate LoadRaises(w: Wiring)
  {
    (exists no :: no in w.monsterIds && !Linkable(w, no))
    || (exists id :: id in w.awakenings
                     && (w.awakenings[id].monsterNo !in w.monsterIds || w.awakenings[id].tsSeq !in w.skillIds))
    || (exists tv :: tv in w.evolutions
                     && (w.evolutions[tv].monsterNo !in w.monsterIds || w.evolutions[tv].toNo !in w.monsterIds))
    || (exists id :: id in w.evoMaterials && w.evoMaterials[id].tvSeq in w.evolutions
                     && w.evoMaterials[id].monsterNo !in w.monsterIds)
  }
}
