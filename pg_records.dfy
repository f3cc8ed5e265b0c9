/**
 * The PadGuide records of the padguide2 cog: the rows as they arrive (already
 * parsed from JSON), what each constructor derives from its row, which rows
 * count as deleted, and the value-level helpers the cog defines beside them.
 */
module PgRecords {

  import opened Wrappers
  import opened Text

  // ------------------------------------------------------------- enums

  /** The five orb colours; PadGuide numbers them 1 to 5. */
  datatype Attribute = Fire | Water | Wood | Light | Dark

  /** `Attribute(n)`: the enum for a PadGuide attribute id, or the ValueError for any other number. */
  function AttributeOf(n: int): (r: Option<Attribute>)
    ensures r.Some? <==> 1 <= n <= 5
  {
    if n == 1 then Some(Fire) else if n == 2 then Some(Water) else if n == 3 then Some(Wood)
    else if n == 4 then Some(Light) else if n == 5 then Some(Dark) else None
  }

  datatype DungeonType = Unknown | Normal | CoinDailyOther | Technical | Etc

  function DungeonTypeOf(n: int): (r: Option<DungeonType>)
    ensures r.Some? <==> -1 <= n <= 3
  {
    if n == -1 then Some(Unknown) else if n == 0 then Some(Normal) else if n == 1 then Some(CoinDailyOther)
    else if n == 2 then Some(Technical) else if n == 3 then Some(Etc) else None
  }

  /** Evolution kinds; `Base` (-1) marks a monster no evolution produces. */
  datatype EvoType = Base | Evo | UvoAwoken | UuvoReincarnated

  function EvoTypeOf(n: int): (r: Option<EvoType>)
    ensures r.Some? <==> -1 <= n <= 2
  {
    if n == -1 then Some(Base) else if n == 0 then Some(Evo) else if n == 1 then Some(UvoAwoken)
    else if n == 2 then Some(UuvoReincarnated) else None
  }

  // ------------------------------------------------------------- int_or_none

  /** `int_or_none`: the empty string is None, anything else goes through `int()`, which may fail. */
  function IntOrNone(s: string): (r: Result<Option<int>>)
    ensures s == [] ==> r == Ok(None)
    ensures s != [] ==> (r.Ok? <==> ParseInt(s).Some?)
    ensures s != [] && r.Ok? ==> r.value == ParseInt(s)
  {
    if |s| == 0 then Ok(None)
    else match ParseInt(s)
      case Some(n) => Ok(Some(n))
      case None => Err("ValueError: invalid literal for int()")
  }

  /** int_or_none(str(n)) gives n back. */
  lemma IntOrNoneRoundTrip(n: int)
    ensures IntOrNone(IntToString(n)) == Ok(Some(n))
  {
    IntRoundTrip(n);
  }

  // ------------------------------------------------------------- rows

  datatype AttributeRow = AttributeRow(taSeq: int, nameUs: string)
  datatype AwakeningRow = AwakeningRow(tmaSeq: int, tsSeq: int, delYn: string, monsterNo: int, orderIdx: int)
  datatype DungeonRow = DungeonRow(dungeonSeq: int, dungeonType: int, nameUs: string, showYn: string)
  datatype DropRow = DropRow(tdmdSeq: int, monsterNo: int, status: string, tdmSeq: int)
  datatype DungeonMonsterRow = DungeonMonsterRow(tdmSeq: int, dropNo: int, monsterNo: int, dungeonSeq: int, tsdSeq: int)
  datatype EvolutionRow = EvolutionRow(tvSeq: int, monsterNo: int, toNo: int, tvType: int)
  datatype EvoMaterialRow = EvoMaterialRow(temSeq: int, tvSeq: int, monsterNo: int, orderIdx: int)
  datatype AddInfoRow = AddInfoRow(monsterNo: int, subType: int, extraVal1: string)
  datatype InfoRow = InfoRow(monsterNo: int, onUs: string, tsrSeq: string, palEgg: string, rareEgg: string)
  datatype MonsterRow = MonsterRow(
    monsterNo: int, monsterNoUs: int, monsterNoJp: int,
    hpMax: int, atkMax: int, rcvMax: int,
    tsSeqSkill: string, tsSeqLeader: string,
    rarity: int, cost: int, level: int,
    nameUs: string, nameJp: string,
    taSeq: int, taSeqSub: int, teSeq: int, ttSeq: int, ttSeqSub: int)
  datatype PriceRow = PriceRow(monsterNo: int, buyPrice: int, sellPrice: int)
  datatype SeriesRow = SeriesRow(tsrSeq: int, nameUs: string, delYn: string)
  datatype LeaderDataRow = LeaderDataRow(tsSeq: int, leaderData: string)
  datatype SkillRow = SkillRow(tsSeq: int, nameUs: string, descUs: string, turnMin: int, turnMax: int)
  datatype RotationRow = RotationRow(tsrSeq: int, monsterNo: int, server: string, status: string)
  datatype DatedRotationRow = DatedRotationRow(tsrlSeq: int, tsrSeq: int, tsSeq: int, rotationDate: string)
  datatype TypeRow = TypeRow(ttSeq: int, nameUs: string)

  // ------------------------------------------------------------- records
  // Each record keeps its row and adds what the constructor derives and what
  // `load` fills in; references to other records are their ids.

  datatype AttributeRec = AttributeRec(row: AttributeRow, value: Attribute)
  datatype AwakeningRec = AwakeningRec(row: AwakeningRow, skill: Option<int>, monster: Option<int>)
  datatype DungeonRec = DungeonRec(row: DungeonRow, dtype: DungeonType)
  datatype DropRec = DropRec(row: DropRow, monster: Option<int>, dungeonMonster: Option<int>)
  datatype DungeonMonsterRec = DungeonMonsterRec(row: DungeonMonsterRow, dropMonster: Option<int>, monster: Option<int>, dungeon: Option<int>)
  datatype EvolutionRec = EvolutionRec(row: EvolutionRow, evoType: EvoType, fromMonster: Option<int>, toMonster: Option<int>)
  datatype EvoMaterialRec = EvoMaterialRec(row: EvoMaterialRow, evolution: Option<int>, fodder: Option<int>)
  datatype AddInfoRec = AddInfoRec(row: AddInfoRow, extraVal1: Option<int>)
  datatype InfoRec = InfoRec(row: InfoRow, onNa: bool, tsrSeq: Option<int>, inPem: bool, inRem: bool, series: Option<int>)
  datatype PriceRec = PriceRec(row: PriceRow)
  datatype SeriesRec = SeriesRec(row: SeriesRow, monsters: seq<int>)
  datatype LeaderDataRec = LeaderDataRec(row: LeaderDataRow)
  datatype SkillRec = SkillRec(row: SkillRow, withActive: seq<int>, withLeader: seq<int>, withAwakening: seq<int>)
  datatype RotationRec = RotationRec(row: RotationRow, monster: Option<int>)
  datatype DatedRotationRec = DatedRotationRec(row: DatedRotationRow, skill: Option<int>, skillRotation: Option<int>)
  datatype TypeRec = TypeRec(row: TypeRow)

  /** What PgMonster.load links: skills, attributes, types, the monster info's fields and the prices. */
  datatype MonsterLinks = MonsterLinks(
    activeSkill: Option<int>, leaderSkill: Option<int>, leaderSkillData: Option<int>,
    attr1: Option<Attribute>, attr2: Option<Attribute>,
    type1: Option<string>, type2: Option<string>, type3: Option<string>,
    onNa: bool, series: int, isGfe: bool,
    inPem: bool, inRem: bool, sellMp: int, buyMp: int, inMpshop: bool,
    isInheritable: bool)

  /** What the loads of other records append to a monster. */
  datatype MonsterRefs = MonsterRefs(
    curEvoType: EvoType, evoTo: seq<int>, evoFrom: Option<int>,
    matsForEvo: seq<int>, materialOf: seq<int>, awakenings: seq<int>, dropDungeons: seq<Option<int>>)

  /** The acquisition flags `finalize` and the evolution group set. */
  datatype MonsterFlags = MonsterFlags(farmable: bool, farmableEvo: bool, pemEvo: bool, remEvo: bool, mpEvo: bool)

  /** A monster: the constructor's fields, then what `load`, the other records' loads and `finalize` set. */
  datatype MonsterRec = MonsterRec(
    row: MonsterRow,
    nameNa: string,
    tsSeqActive: Option<int>, tsSeqLeader: Option<int>,
    weightedStats: int,
    romaSubname: Option<string>,
    links: MonsterLinks,
    refs: MonsterRefs,
    flags: MonsterFlags)

  const NoLinks := MonsterLinks(None, None, None, None, None, None, None, None,
                                false, 0, false, false, false, 0, 0, false, false)
  const NoRefs := MonsterRefs(Base, [], None, [], [], [], [])
  const NoFlags := MonsterFlags(false, false, false, false, false)

  // ------------------------------------------------------------- constructors

  function NewAttribute(row: AttributeRow): Result<AttributeRec>
  {
    match AttributeOf(row.taSeq)
    case Some(a) => Ok(AttributeRec(row, a))
    case None => Err("ValueError: not an Attribute")
  }

  function NewDungeon(row: DungeonRow): Result<DungeonRec>
  {
    match DungeonTypeOf(row.dungeonType)
    case Some(t) => Ok(DungeonRec(row, t))
    case None => Err("ValueError: not a DungeonType")
  }

  function NewEvolution(row: EvolutionRow): Result<EvolutionRec>
  {
    match EvoTypeOf(row.tvType)
    case Some(t) => Ok(EvolutionRec(row, t, None, None))
    case None => Err("ValueError: not an EvoType")
  }

  function NewAddInfo(row: AddInfoRow): Result<AddInfoRec>
  {
    match IntOrNone(row.extraVal1)
    case Ok(v) => Ok(AddInfoRec(row, v))
    case Err(e) => Err(e)
  }

  function NewInfo(row: InfoRow): Result<InfoRec>
  {
    match IntOrNone(row.tsrSeq)
    case Ok(v) => Ok(InfoRec(row, row.onUs == "1", v, row.palEgg == "1", row.rareEgg == "1", None))
    case Err(e) => Err(e)
  }

  // The constructors that only copy their row and start every reference empty.
  function NewAwakening(row: AwakeningRow): Result<AwakeningRec> { Ok(AwakeningRec(row, None, None)) }
  function NewDrop(row: DropRow): Result<DropRec> { Ok(DropRec(row, None, None)) }
  function NewDungeonMonster(row: DungeonMonsterRow): Result<DungeonMonsterRec> { Ok(DungeonMonsterRec(row, None, None, None)) }
  function NewEvoMaterial(row: EvoMaterialRow): Result<EvoMaterialRec> { Ok(EvoMaterialRec(row, None, None)) }
  function NewPrice(row: PriceRow): Result<PriceRec> { Ok(PriceRec(row)) }
  function NewSeries(row: SeriesRow): Result<SeriesRec> { Ok(SeriesRec(row, [])) }
  function NewLeaderData(row: LeaderDataRow): Result<LeaderDataRec> { Ok(LeaderDataRec(row)) }
  function NewSkill(row: SkillRow): Result<SkillRec> { Ok(SkillRec(row, [], [], [])) }
  function NewRotation(row: RotationRow): Result<RotationRec> { Ok(RotationRec(row, None)) }
  function NewDatedRotation(row: DatedRotationRow): Result<DatedRotationRec> { Ok(DatedRotationRec(row, None, None)) }
  function NewType(row: TypeRow): Result<TypeRec> { Ok(TypeRec(row)) }

  /**
   * `int(hp / 10 + atk / 5 + rcv / 3)`.  The three quotients are added as
   * exact rationals, (3 hp + 6 atk + 10 rcv) / 30, and `int()` truncates the sum toward zero.
   */
  function WeightedStats(hp: int, atk: int, rcv: int): int
  {
    var num := 3 * hp + 6 * atk + 10 * rcv;
    if num >= 0 then num / 30 else -((-num) / 30)
  }

  /** For non-negative stats the weighted stat is the floor of the rational sum. */
  lemma WeightedStatsBounds(hp: nat, atk: nat, rcv: nat)
    ensures 30 * WeightedStats(hp, atk, rcv) <= 3 * hp + 6 * atk + 10 * rcv < 30 * (WeightedStats(hp, atk, rcv) + 1)
  {
  }

  /** Truncation toward zero makes the weighted stat an odd function of the stats. */
  lemma WeightedStatsOdd(hp: int, atk: int, rcv: int)
    ensures WeightedStats(-hp, -atk, -rcv) == -WeightedStats(hp, atk, rcv)
  {
  }

  /** Raising any stat never lowers the weighted stat. */
  lemma WeightedStatsMonotone(hp: int, atk: int, rcv: int, hp2: int, atk2: int, rcv2: int)
    requires hp <= hp2 && atk <= atk2 && rcv <= rcv2
    ensures WeightedStats(hp, atk, rcv) <= WeightedStats(hp2, atk2, rcv2)
  {
    var n1 := 3 * hp + 6 * atk + 10 * rcv;
    var n2 := 3 * hp2 + 6 * atk2 + 10 * rcv2;
    assert n1 <= n2;
    if n1 >= 0 {
      DivMonotone(n1, n2);
    } else if n2 < 0 {
      DivMonotone(-n2, -n1);
    }
  }

  lemma DivMonotone(a: nat, b: nat)
    requires a <= b
    ensures a / 30 <= b / 30
  {
  }

  /** No other record has touched the monster yet. */
  predicate Pristine(m: MonsterRec)
  {
    m.refs == NoRefs
  }

  /**
   * PgMonster's constructor.  When the NA name equals the JP name the monster
   * gets a romanised subname (make_roma_subname, a parameter here); otherwise
   * the NA name loses its diacritics (rmdiacritics, also a parameter).
   */
  function NewMonster(row: MonsterRow, romaSubname: string -> string, rmdiacritics: string -> string): (r: Result<MonsterRec>)
    ensures r.Ok? ==> r.value.row == row && Pristine(r.value)
    ensures r.Ok? ==> (r.value.romaSubname.Some? <==> row.nameUs == row.nameJp)
    ensures r.Ok? ==> r.value.nameNa == if row.nameUs == row.nameJp then row.nameUs else rmdiacritics(row.nameUs)
  {
    match (IntOrNone(row.tsSeqSkill), IntOrNone(row.tsSeqLeader))
    case (Ok(active), Ok(leader)) =>
      var same := row.nameUs == row.nameJp;
      Ok(MonsterRec(
        row,
        if same then row.nameUs else rmdiacritics(row.nameUs),
        active, leader,
        WeightedStats(row.hpMax, row.atkMax, row.rcvMax),
        if same then Some(romaSubname(row.nameJp)) else None,
        NoLinks, NoRefs, NoFlags))
    case (Err(e), _) => Err(e)
    case (_, Err(e)) => Err(e)
  }

  // ------------------------------------------------------------- deleted()

  predicate AwakeningDeleted(r: AwakeningRec) { r.row.delYn == "Y" }
  predicate EvolutionDeleted(r: EvolutionRec) { r.row.monsterNo == 0 || r.row.toNo == 0 }
  predicate SeriesDeleted(r: SeriesRec) { r.row.delYn == "Y" }
  predicate RotationDeleted(r: RotationRec) { r.row.server == "KR" }

  // ------------------------------------------------------------- key()

  function AttributeKey(r: AttributeRec): int { r.row.taSeq }
  function AwakeningKey(r: AwakeningRec): int { r.row.tmaSeq }
  function DungeonKey(r: DungeonRec): int { r.row.dungeonSeq }
  function DropKey(r: DropRec): int { r.row.tdmdSeq }
  function DungeonMonsterKey(r: DungeonMonsterRec): int { r.row.tdmSeq }
  function EvolutionKey(r: EvolutionRec): int { r.row.tvSeq }
  function EvoMaterialKey(r: EvoMaterialRec): int { r.row.temSeq }
  function MonsterKey(r: MonsterRec): int { r.row.monsterNo }
  function AddInfoKey(r: AddInfoRec): int { r.row.monsterNo }
  function InfoKey(r: InfoRec): int { r.row.monsterNo }
  function PriceKey(r: PriceRec): int { r.row.monsterNo }
  function SeriesKey(r: SeriesRec): int { r.row.tsrSeq }
  function LeaderDataKey(r: LeaderDataRec): int { r.row.tsSeq }
  function SkillKey(r: SkillRec): int { r.row.tsSeq }
  function RotationKey(r: RotationRec): int { r.row.tsrSeq }
  function DatedRotationKey(r: DatedRotationRec): int { r.row.tsrlSeq }
  function TypeKey(r: TypeRec): int { r.row.ttSeq }

  /** The default `deleted()`. */
  predicate NeverDeleted<R>(r: R) { false }

  // ------------------------------------------------------------- _load

  /** An id -> record table plus the order in which Python's dict yields its values. */
  datatype Table<R> = Table(items: map<int, R>, order: seq<int>)

  predicate Distinct(s: seq<int>)
  {
    forall i, j :: 0 <= i < j < |s| ==> s[i] != s[j]
  }

  /**
   * `{item.key(): item for item in items if not item.deleted()}`: deleted rows are
   * skipped, a repeated key keeps its first position and takes the value of its
   * last live row.
   */
  function KeepLive<R>(rows: seq<R>, key: R -> int, deleted: R -> bool): Table<R>
  {
    if rows == [] then Table(map[], [])
    else
      var t := KeepLive(rows[..|rows| - 1], key, deleted);
      var last := rows[|rows| - 1];
      if deleted(last) then t
      else Table(t.items[key(last) := last], if key(last) in t.items then t.order else t.order + [key(last)])
  }

  /** Only live rows are kept, each under its own key. */
  lemma {:induction false} KeepLiveSound<R>(rows: seq<R>, key: R -> int, deleted: R -> bool)
    ensures forall k :: k in KeepLive(rows, key, deleted).items ==>
              !deleted(KeepLive(rows, key, deleted).items[k]) && key(KeepLive(rows, key, deleted).items[k]) == k
  {
    if rows != [] {
      KeepLiveSound(rows[..|rows| - 1], key, deleted);
    }
  }

  /** Every live row's key is in the table. */
  lemma {:induction false} KeepLiveComplete<R>(rows: seq<R>, key: R -> int, deleted: R -> bool)
    ensures forall i :: 0 <= i < |rows| && !deleted(rows[i]) ==> key(rows[i]) in KeepLive(rows, key, deleted).items
  {
    if rows != [] {
      var front := rows[..|rows| - 1];
      KeepLiveComplete(front, key, deleted);
      assert forall i :: 0 <= i < |front| ==> front[i] == rows[i];
    }
  }

  /** The iteration order lists every key of the table once. */
  lemma {:induction false} KeepLiveOrder<R>(rows: seq<R>, key: R -> int, deleted: R -> bool)
    ensures forall k :: k in KeepLive(rows, key, deleted).order <==> k in KeepLive(rows, key, deleted).items
    ensures Distinct(KeepLive(rows, key, deleted).order)
  {
    if rows != [] {
      KeepLiveOrder(rows[..|rows| - 1], key, deleted);
    }
  }

  /** A repeated key holds its last live row: no later live row has the same key. */
  lemma {:induction false} KeepLiveLast<R>(rows: seq<R>, key: R -> int, deleted: R -> bool, k: int)
    requires k in KeepLive(rows, key, deleted).items
    ensures exists i :: 0 <= i < |rows| && rows[i] == KeepLive(rows, key, deleted).items[k]
              && forall j :: i < j < |rows| ==> deleted(rows[j]) || key(rows[j]) != k
  {
    var front := rows[..|rows| - 1];
    var last := rows[|rows| - 1];
    assert forall i :: 0 <= i < |front| ==> front[i] == rows[i];
    if !deleted(last) && key(last) == k {
      assert rows[|rows| - 1] == KeepLive(rows, key, deleted).items[k];
    } else {
      KeepLiveLast(front, key, deleted, k);
      var i :| 0 <= i < |front| && front[i] == KeepLive(front, key, deleted).items[k]
                && forall j :: i < j < |front| ==> deleted(front[j]) || key(front[j]) != k;
      assert rows[i] == KeepLive(rows, key, deleted).items[k];
    }
  }

  // ------------------------------------------------------------- load() helpers

  function TypeName(types: map<int, TypeRec>, id: int): Option<string>
  {
    if id in types then Some(types[id].row.nameUs) else None
  }

  function AttributeEnum(attributes: map<int, AttributeRec>, id: int): Option<Attribute>
  {
    if id in attributes then Some(attributes[id].value) else None
  }

  function Lookup(ids: set<int>, id: Option<int>): Option<int>
  {
    if id.Some? && id.value in ids then id else None
  }

  /**
   * `is_inheritable`: assist setting 1 forces True, 2 forces False, and otherwise
   * the monster needs awakenings, rarity 5 or more and a sell price above 3000.
   */
  function Inheritable(assist: Option<int>, awakeningCount: nat, rarity: int, sellMp: int): bool
  {
    if assist == Some(1) then true
    else if assist == Some(2) then false
    else awakeningCount > 0 && rarity >= 5 && sellMp > 3000
  }

  lemma InheritableCases(assist: Option<int>, awakeningCount: nat, rarity: int, sellMp: int)
    ensures assist == Some(1) ==> Inheritable(assist, awakeningCount, rarity, sellMp)
    ensures assist == Some(2) ==> !Inheritable(assist, awakeningCount, rarity, sellMp)
    ensures awakeningCount == 0 ==> (Inheritable(assist, awakeningCount, rarity, sellMp) <==> assist == Some(1))
  {
  }

  /**
   * What PgMonster.load computes from the tables it reads; it fails where the
   * source dereferences a missing monster info, series or price.  The
   * back-references it makes (into skills and series) are the store's business.
   * `no` is the monster's number, the key it is stored under.
   */
  function LinkMonster(no: int, m: MonsterRec, skills: set<int>, leaderData: set<int>,
                       attributes: map<int, AttributeRec>, types: map<int, TypeRec>,
                       addInfos: map<int, AddInfoRec>, infos: map<int, InfoRec>,
                       series: set<int>, prices: map<int, PriceRec>): (r: Result<MonsterRec>)
    ensures r.Ok? <==> no in infos && Lookup(series, infos[no].tsrSeq).Some? && no in prices
    ensures r.Ok? ==> r.value.(links := m.links, flags := m.flags) == m
    ensures r.Ok? ==> r.value.links.series == infos[no].tsrSeq.value && r.value.links.series in series
    ensures r.Ok? ==> (r.value.links.activeSkill.Some? ==> r.value.links.activeSkill.value in skills)
                      && (r.value.links.leaderSkill.Some? ==> r.value.links.leaderSkill.value in skills)
    ensures r.Ok? ==> (r.value.links.isGfe <==> r.value.links.series == 34)
                      && (r.value.links.inMpshop <==> r.value.links.buyMp > 0)
    ensures r.Ok? ==> r.value.flags == m.flags.(pemEvo := r.value.links.inPem, remEvo := r.value.links.inRem,
                                                 mpEvo := r.value.links.inMpshop)
    ensures r.Ok? && m.refs.awakenings == [] ==>
              (r.value.links.isInheritable <==> no in addInfos && addInfos[no].extraVal1 == Some(1))
  {
    var addInfo := if no in addInfos then Some(addInfos[no]) else None;
    var assist := if addInfo.Some? then addInfo.value.extraVal1 else None;
    if no !in infos then Err("AttributeError: monster has no monster info")
    else
      var info := infos[no];
      match Lookup(series, info.tsrSeq)
      case None => Err("AttributeError: monster info names no series")
      case Some(s) =>
        if no !in prices then Err("AttributeError: monster has no price")
        else
          var price := prices[no].row;
          Ok(m.(links := MonsterLinks(
                  Lookup(skills, m.tsSeqActive), Lookup(skills, m.tsSeqLeader), Lookup(leaderData, m.tsSeqLeader),
                  AttributeEnum(attributes, m.row.taSeq), AttributeEnum(attributes, m.row.taSeqSub),
                  TypeName(types, m.row.ttSeq), TypeName(types, m.row.ttSeqSub),
                  if addInfo.Some? then TypeName(types, addInfo.value.row.subType) else None,
                  info.onNa, s, s == 34, info.inPem, info.inRem,
                  price.sellPrice, price.buyPrice, price.buyPrice > 0,
                  Inheritable(assist, |m.refs.awakenings|, m.row.rarity, price.sellPrice)),
                flags := m.flags.(pemEvo := info.inPem, remEvo := info.inRem, mpEvo := price.buyPrice > 0)))
  }

  /** The assist setting of monster `no`: its add info's `extra_val1`, if it has one. */
  function Assist(addInfos: map<int, AddInfoRec>, no: int): Option<int>
  {
    if no in addInfos then addInfos[no].extraVal1 else None
  }

  /** `finalize`: a monster is farmable when some dungeon drops it. */
  function Finalized(m: MonsterRec): (r: MonsterRec)
    ensures r.flags.farmable <==> |m.refs.dropDungeons| > 0
    ensures r.flags.farmableEvo == r.flags.farmable
    ensures r.(flags := m.flags) == m
    ensures r.flags.(farmable := m.flags.farmable, farmableEvo := m.flags.farmableEvo) == m.flags
  {
    m.(flags := m.flags.(farmable := |m.refs.dropDungeons| > 0, farmableEvo := |m.refs.dropDungeons| > 0))
  }

  /** A monster listed twice in the item list is finalized twice, which does not differ from once. */
  lemma FinalizedIdempotent(m: MonsterRec)
    ensures Finalized(Finalized(m)) == Finalized(m)
  {
  }

  /**
   * `is_inheritable` evaluated once every awakening is attached, which is when
   * the awakening count it tests can be non-zero.
   */
  function WithInheritance(m: MonsterRec, assist: Option<int>): (r: MonsterRec)
    ensures r.links.isInheritable == Inheritable(assist, |m.refs.awakenings|, m.row.rarity, m.links.sellMp)
    ensures r.(links := m.links) == m
    ensures r.links.(isInheritable := m.links.isInheritable) == m.links
  {
    m.(links := m.links.(isInheritable := Inheritable(assist, |m.refs.awakenings|, m.row.rarity, m.links.sellMp)))
  }

  /**
   * The intended finalize pass: `finalize` itself, and `is_inheritable` judged
   * now that the awakenings are attached.  The pass as written
   * (`PgDatabase.RawDatabase.FinalizeAll`) applies only `Finalized`.
   */
  function FinishMonster(m: MonsterRec, assist: Option<int>): (r: MonsterRec)
    ensures r.flags.farmable == r.flags.farmableEvo == (|m.refs.dropDungeons| > 0)
    ensures r.links.isInheritable == Inheritable(assist, |m.refs.awakenings|, m.row.rarity, m.links.sellMp)
    ensures r.row == m.row && r.refs == m.refs
  {
    WithInheritance(Finalized(m), assist)
  }

  /**
   * The load as written judges inheritance before any awakening is attached:
   * a rarity-6 monster selling for 5000 with no assist setting comes out not
   * inheritable, although `is_inheritable` holds for it once it has an awakening.
   */
  lemma InheritanceAsWritten(no: int, m: MonsterRec, skills: set<int>, leaderData: set<int>,
                             attributes: map<int, AttributeRec>, types: map<int, TypeRec>,
                             addInfos: map<int, AddInfoRec>, infos: map<int, InfoRec>,
                             series: set<int>, prices: map<int, PriceRec>)
    requires Pristine(m) && m.row.rarity == 6 && no !in addInfos
    requires no in infos && Lookup(series, infos[no].tsrSeq).Some?
    requires no in prices && prices[no].row.sellPrice == 5000
    ensures LinkMonster(no, m, skills, leaderData, attributes, types, addInfos, infos, series, prices).Ok?
    ensures !LinkMonster(no, m, skills, leaderData, attributes, types, addInfos, infos, series, prices).value.links.isInheritable
    ensures Inheritable(None, 1, 6, 5000)
  {
  }

  /** With the awakenings attached, finishing the same monster makes it inheritable. */
  lemma InheritanceCorrected(m: MonsterRec)
    requires |m.refs.awakenings| == 1 && m.row.rarity == 6 && m.links.sellMp == 5000
    ensures FinishMonster(m, None).links.isInheritable
  {
  }

  /** Finishing a record twice leaves it as finishing it once, so a key listed twice is harmless. */
  lemma FinishIdempotent(m: MonsterRec, assist: Option<int>)
    ensures FinishMonster(FinishMonster(m, assist), assist) == FinishMonster(m, assist)
  {
  }

  // ------------------------------------------------------------- small helpers of the cog

  /** `normalizeServer`: upper-case, with 'US' read as 'NA'. */
  function NormalizeServer(server: string): (r: string)
    ensures r != "US"
    ensures Upper(server) != "US" ==> r == Upper(server)
    ensures Upper(server) == "US" ==> r == "NA"
  {
    var s := Upper(server);
    if s == "US" then "NA" else s
  }

  /**
   * Two server names select the same server exactly when they agree ignoring
   * case, or both are one of US and NA.
   */
  lemma NormalizeSame(a: string, b: string)
    ensures NormalizeServer(a) == NormalizeServer(b)
            <==> Upper(a) == Upper(b) || (Upper(a) in {"US", "NA"} && Upper(b) in {"US", "NA"})
  {
  }

  /** `type_to_killers_map`: the killer awakenings that hit a type. */
  function KillersOf(t: string): seq<string>
  {
    if t == "God" then ["Devil"]
    else if t == "Devil" then ["God"]
    else if t == "Machine" then ["God", "Balance"]
    else if t == "Dragon" then ["Machine", "Healer"]
    else if t == "Physical" then ["Machine", "Healer"]
    else if t == "Attacker" then ["Devil", "Physical"]
    else if t == "Healer" then ["Dragon", "Attacker"]
    else []
  }

  /** Every killer name that appears in the table, in ascending string order. */
  const AllKillers: seq<string> := ["Attacker", "Balance", "Devil", "Dragon", "God", "Healer", "Machine", "Physical"]

  /** Python's `<` on strings (code-point lexicographic). */
  predicate StrLt(a: string, b: string)
  {
    if a == [] then b != []
    else if b == [] then false
    else a[0] < b[0] || (a[0] == b[0] && StrLt(a[1..], b[1..]))
  }

  predicate StrictlySorted(s: seq<string>)
  {
    forall i :: 0 <= i < |s| - 1 ==> StrLt(s[i], s[i + 1])
  }

  predicate IsKillerOf(types: seq<string>, k: string)
  {
    exists t :: t in types && k in KillersOf(t)
  }

  /** The set `compute_killers` accumulates: every killer of every type it is given. */
  function KillerSet(types: seq<string>): set<string>
  {
    set t, k | t in types && k in KillersOf(t) :: k
  }

  /** `sorted(s)` for a set of names drawn from `cands`, which lists them in ascending order. */
  function SortedNames(cands: seq<string>, s: set<string>): (r: seq<string>)
    ensures forall k :: k in r <==> k in cands && k in s
    ensures forall i :: 0 <= i < |r| ==> exists j :: 0 <= j < |cands| && cands[j] == r[i]
  {
    if cands == [] then []
    else (if cands[0] in s then [cands[0]] else []) + SortedNames(cands[1..], s)
  }

  lemma AllKillersComplete(t: string, k: string)
    requires k in KillersOf(t)
    ensures k in AllKillers
  {
  }

  lemma AllKillersSorted()
    ensures StrictlySorted(AllKillers)
  {
    assert StrLt("Attacker", "Balance");
    assert StrLt("Balance", "Devil");
    assert StrLt("Devil", "Dragon") by { assert StrLt("evil", "ragon"); }
    assert StrLt("Dragon", "God");
    assert StrLt("God", "Healer");
    assert StrLt("Healer", "Machine");
    assert StrLt("Machine", "Physical");
  }

  /**
   * `compute_killers(*types)`: ['Any'] when Balance is among the types, otherwise
   * the sorted union of the killers of each type, without repeats.
   */
  function ComputeKillers(types: seq<string>): seq<string>
  {
    if "Balance" in types then ["Any"] else SortedNames(AllKillers, KillerSet(types))
  }

  /**
   * `compute_killers` as the source runs it: the killers of each type are
   * added to a set, which is then sorted.
   */
  method CollectKillers(types: seq<string>) returns (r: seq<string>)
    ensures r == ComputeKillers(types)
  {
    if "Balance" in types {
      return ["Any"];
    }
    var killers: set<string> := {};
    for i := 0 to |types|
      invariant forall k :: k in killers <==> IsKillerOf(types[..i], k)
    {
      forall k ensures IsKillerOf(types[..i + 1], k) <==> IsKillerOf(types[..i], k) || k in KillersOf(types[i]) {
        assert types[..i + 1] == types[..i] + [types[i]];
      }
      killers := killers + set k | k in KillersOf(types[i]);
    }
    assert types[..|types|] == types;
    assert killers == KillerSet(types);
    r := SortedNames(AllKillers, killers);
  }

  lemma StrLtTransitive(a: string, b: string, c: string)
    requires StrLt(a, b) && StrLt(b, c)
    ensures StrLt(a, c)
  {
    if a != [] && b != [] && c != [] && a[0] == b[0] && b[0] == c[0] {
      StrLtTransitive(a[1..], b[1..], c[1..]);
    }
  }

  /** Picking names out of an ascending list keeps them ascending. */
  lemma {:induction false} SortedNamesSorted(cands: seq<string>, s: set<string>)
    requires forall i, j :: 0 <= i < j < |cands| ==> StrLt(cands[i], cands[j])
    ensures forall i, j :: 0 <= i < j < |SortedNames(cands, s)| ==> StrLt(SortedNames(cands, s)[i], SortedNames(cands, s)[j])
  {
    if cands != [] {
      SortedNamesSorted(cands[1..], s);
      var rest := SortedNames(cands[1..], s);
      forall i | 0 <= i < |rest| ensures StrLt(cands[0], rest[i]) {
        var j :| 0 <= j < |cands[1..]| && cands[1..][j] == rest[i];
        assert cands[j + 1] == rest[i];
      }
    }
  }

  lemma AllKillersPairwise()
    ensures forall i, j :: 0 <= i < j < |AllKillers| ==> StrLt(AllKillers[i], AllKillers[j])
  {
    AllKillersSorted();
    forall i, j | 0 <= i < j < |AllKillers| ensures StrLt(AllKillers[i], AllKillers[j]) {
      PairwiseFromAdjacent(AllKillers, i, j);
    }
  }

  lemma {:induction false} PairwiseFromAdjacent(s: seq<string>, i: nat, j: nat)
    requires StrictlySorted(s) && i < j < |s|
    ensures StrLt(s[i], s[j])
    decreases j - i
  {
    if j > i + 1 {
      PairwiseFromAdjacent(s, i + 1, j);
      StrLtTransitive(s[i], s[i + 1], s[j]);
    }
  }

  /** The killers are exactly the union of each type's killers, ascending and without repeats; Balance short-circuits to Any. */
  lemma ComputeKillersSpec(types: seq<string>)
    ensures "Balance" in types ==> ComputeKillers(types) == ["Any"]
    ensures "Balance" !in types ==>
              (forall k :: k in ComputeKillers(types) <==> IsKillerOf(types, k))
              && forall i, j :: 0 <= i < j < |ComputeKillers(types)| ==> StrLt(ComputeKillers(types)[i], ComputeKillers(types)[j])
  {
    if "Balance" !in types {
      AllKillersPairwise();
      SortedNamesSorted(AllKillers, KillerSet(types));
      forall k | IsKillerOf(types, k) ensures k in AllKillers {
        var t :| t in types && k in KillersOf(t);
        AllKillersComplete(t, k);
      }
    }
  }
}
