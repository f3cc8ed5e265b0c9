/**
 * PgRawDatabase of the padguide2 cog: seventeen id -> record tables filled from
 * the PadGuide rows, a memoised `ensure_loaded` pass that links records to one
 * another and appends back-references, a `finalize` pass, and the evolution
 * groups with their shared acquisition flags.
 */
module PgDatabase {

  import opened Wrappers
  import opened PgRecords
  import opened PgLoad

  // ------------------------------------------------------------- evolution groups

  /** The `evo_to` lists of all monsters. */
  function EvoGraph(ms: map<int, MonsterRec>): (g: map<int, seq<int>>)
    ensures g.Keys == ms.Keys
    ensures forall no :: no in ms ==> g[no] == ms[no].refs.evoTo
  {
    map no | no in ms :: ms[no].refs.evoTo
  }

  /**
   * `MonsterGroup._recursive_add`: the pre-order walk over `evo_to` from `v`.
   * `path` holds the monsters on the current call stack; meeting one again is the
   * endless recursion Python stops with a RecursionError (None here).
   */
  function Preorder(g: map<int, seq<int>>, v: int, path: set<int>): (r: Option<seq<int>>)
    ensures r.Some? ==> |r.value| >= 1 && r.value[0] == v
    ensures r.Some? ==> forall u :: u in r.value ==> u in g
    decreases g.Keys - path, 0, 0
  {
    if v !in g || v in path then None
    else
      match PreorderAll(g, g[v], path + {v})
      case None => None
      case Some(rest) => Some([v] + rest)
  }

  function PreorderAll(g: map<int, seq<int>>, vs: seq<int>, path: set<int>): (r: Option<seq<int>>)
    ensures r.Some? ==> forall u :: u in r.value ==> u in g
    decreases g.Keys - path, 1, |vs|
  {
    if vs == [] then Some([])
    else
      match Preorder(g, vs[0], path)
      case None => None
      case Some(a) =>
        match PreorderAll(g, vs[1..], path)
        case None => None
        case Some(b) => Some(a + b)
  }

  /** A group contains every evolution of each of its members. */
  lemma {:induction false} PreorderClosed(g: map<int, seq<int>>, v: int, path: set<int>)
    requires Preorder(g, v, path).Some?
    ensures forall u, w :: u in Preorder(g, v, path).value && u in g && w in g[u] ==> w in Preorder(g, v, path).value
    decreases g.Keys - path, 0, 0
  {
    PreorderAllClosed(g, g[v], path + {v});
  }

  lemma {:induction false} PreorderAllClosed(g: map<int, seq<int>>, vs: seq<int>, path: set<int>)
    requires PreorderAll(g, vs, path).Some?
    ensures forall x :: x in vs ==> x in PreorderAll(g, vs, path).value
    ensures forall u, w :: u in PreorderAll(g, vs, path).value && u in g && w in g[u] ==> w in PreorderAll(g, vs, path).value
    decreases g.Keys - path, 1, |vs|
  {
    if vs != [] {
      PreorderClosed(g, vs[0], path);
      PreorderAllClosed(g, vs[1..], path);
      var a := Preorder(g, vs[0], path).value;
      var b := PreorderAll(g, vs[1..], path).value;
      assert PreorderAll(g, vs, path).value == a + b;
      assert forall x :: x in vs ==> x == vs[0] || x in vs[1..];
    }
  }

  /** A monster without evolutions forms a group of its own. */
  lemma SingletonGroup(ms: map<int, MonsterRec>, no: int)
    requires no in ms && ms[no].refs.evoTo == []
    ensures Preorder(EvoGraph(ms), no, {}) == Some([no])
  {
    var g := EvoGraph(ms);
    assert g[no] == [];
    assert PreorderAll(g, g[no], {} + {no}) == Some([]);
    assert [no] + [] == [no];
  }

  /** The Base monsters of `order`, in that order: the roots `grouped_monsters` is built from. */
  function BaseMonsters(order: seq<int>, ms: map<int, MonsterRec>): seq<int>
  {
    if order == [] then []
    else
      var last := order[|order| - 1];
      BaseMonsters(order[..|order| - 1], ms) + (if last in ms && ms[last].refs.curEvoType == Base then [last] else [])
  }

  /** A monster is a root exactly when it is listed, known and of the Base stage. */
  lemma {:induction false} BaseMonstersMembers(order: seq<int>, ms: map<int, MonsterRec>)
    ensures forall x :: x in BaseMonsters(order, ms) <==> x in order && x in ms && ms[x].refs.curEvoType == Base
  {
    if order != [] {
      var last := order[|order| - 1];
      assert order == order[..|order| - 1] + [last];
      BaseMonstersMembers(order[..|order| - 1], ms);
    }
  }

  /** Two record maps with the same ids whose records have the same references. */
  predicate RefsKept(ms: map<int, MonsterRec>, ms2: map<int, MonsterRec>)
  {
    ms2.Keys == ms.Keys && forall no :: no in ms ==> ms2[no].refs == ms[no].refs
  }

  /** Changing anything but a monster's references, as the flag passes do, does not change which monsters are roots. */
  lemma {:induction false} BaseMonstersStable(order: seq<int>, ms: map<int, MonsterRec>, ms2: map<int, MonsterRec>)
    requires RefsKept(ms, ms2)
    ensures BaseMonsters(order, ms2) == BaseMonsters(order, ms)
  {
    if order != [] {
      BaseMonstersStable(order[..|order| - 1], ms, ms2);
    }
  }

  /** Two walks one after the other; a walk that failed fails the pair. */
  function Concat(a: Option<seq<int>>, b: Option<seq<int>>): Option<seq<int>>
  {
    if a.Some? && b.Some? then Some(a.value + b.value) else None
  }

  lemma {:induction false} PreorderAllAppend(g: map<int, seq<int>>, vs: seq<int>, ws: seq<int>, path: set<int>)
    ensures PreorderAll(g, vs + ws, path) == Concat(PreorderAll(g, vs, path), PreorderAll(g, ws, path))
    decreases |vs|
  {
    if vs == [] {
      assert vs + ws == ws;
      var c := PreorderAll(g, ws, path);
      if c.Some? {
        assert [] + c.value == c.value;
      }
    } else {
      assert (vs + ws)[0] == vs[0] && (vs + ws)[1..] == vs[1..] + ws;
      PreorderAllAppend(g, vs[1..], ws, path);
      var a, b, c := Preorder(g, vs[0], path), PreorderAll(g, vs[1..], path), PreorderAll(g, ws, path);
      if a.Some? && b.Some? && c.Some? {
        assert a.value + (b.value + c.value) == (a.value + b.value) + c.value;
      }
    }
  }

  /**
   * `_recursive_add(v)` with `acc` the members so far: append `v`, then walk each
   * of its evolutions in turn.  `path` stands for the Python call stack.
   */
  method RecursiveAdd(g: map<int, seq<int>>, v: int, path: set<int>, acc: seq<int>) returns (r: Option<seq<int>>)
    ensures r == Concat(Some(acc), Preorder(g, v, path))
    decreases g.Keys - path
  {
    if v !in g || v in path {
      return None;
    }
    var members := acc + [v];
    var i := 0;
    while i < |g[v]|
      invariant 0 <= i <= |g[v]|
      invariant PreorderAll(g, g[v][..i], path + {v}).Some?
      invariant members == acc + [v] + PreorderAll(g, g[v][..i], path + {v}).value
    {
      var next := RecursiveAdd(g, g[v][i], path + {v}, members);
      assert g[v][..i + 1] == g[v][..i] + [g[v][i]];
      PreorderAllAppend(g, g[v][..i], [g[v][i]], path + {v});
      if next.None? {
        assert g[v] == g[v][..i + 1] + g[v][i + 1..];
        PreorderAllAppend(g, g[v][..i + 1], g[v][i + 1..], path + {v});
        return None;
      }
      members := next.value;
      i := i + 1;
    }
    assert g[v][..i] == g[v];
    assert Preorder(g, v, path) == Some([v] + PreorderAll(g, g[v], path + {v}).value);
    assert members == acc + ([v] + PreorderAll(g, g[v], path + {v}).value);
    return Some(members);
  }

  /** The groups of the Base monsters `bases`, in order; one walk that fails fails them all. */
  function GroupWalks(g: map<int, seq<int>>, bases: seq<int>): Option<seq<seq<int>>>
  {
    if bases == [] then Some([])
    else
      match (GroupWalks(g, bases[..|bases| - 1]), Preorder(g, bases[|bases| - 1], {}))
      case (Some(gs), Some(m)) => Some(gs + [m])
      case _ => None
  }

  /** Group `i` is the walk from the `i`-th root, and all of them succeed; otherwise some walk fails. */
  lemma {:induction false} GroupWalksSpec(g: map<int, seq<int>>, bases: seq<int>)
    ensures GroupWalks(g, bases).Some? ==>
              (|GroupWalks(g, bases).value| == |bases|
               && forall i :: 0 <= i < |bases| ==> Preorder(g, bases[i], {}) == Some(GroupWalks(g, bases).value[i]))
    ensures GroupWalks(g, bases).None? ==> exists i :: 0 <= i < |bases| && Preorder(g, bases[i], {}).None?
  {
    if bases != [] {
      var p := bases[..|bases| - 1];
      GroupWalksSpec(g, p);
      assert forall i :: 0 <= i < |p| ==> p[i] == bases[i];
    }
  }

  /**
   * Some Base monster of `order` reaches an evolution cycle: its
   * `_recursive_add` recurses without end and raises RecursionError.
   */
  predicate EvoCycle(order: seq<int>, ms: map<int, MonsterRec>)
  {
    exists no :: no in BaseMonsters(order, ms) && Preorder(EvoGraph(ms), no, {}).None?
  }

  /** Every group can be built exactly when no root reaches an evolution cycle. */
  lemma NoCycleIff(order: seq<int>, ms: map<int, MonsterRec>)
    ensures GroupWalks(EvoGraph(ms), BaseMonsters(order, ms)).Some? <==> !EvoCycle(order, ms)
  {
    var g, bases := EvoGraph(ms), BaseMonsters(order, ms);
    GroupWalksSpec(g, bases);
    if GroupWalks(g, bases).Some? {
      forall no | no in bases
        ensures Preorder(g, no, {}).Some?
      {
        var i :| 0 <= i < |bases| && bases[i] == no;
      }
    } else {
      var i :| 0 <= i < |bases| && Preorder(g, bases[i], {}).None?;
      assert bases[i] in bases;
    }
  }

  /** Passes that keep every monster's references keep the evolution cycles too. */
  lemma EvoCycleStable(order: seq<int>, ms: map<int, MonsterRec>, ms2: map<int, MonsterRec>)
    requires RefsKept(ms, ms2)
    ensures EvoCycle(order, ms2) == EvoCycle(order, ms)
  {
    BaseMonstersStable(order, ms, ms2);
    EvoGraphStable(ms, ms2);
  }

  datatype Flag = Farmable | InPem | InRem | InMpShop

  function FlagOf(m: MonsterRec, f: Flag): bool
  {
    match f
    case Farmable => m.flags.farmable
    case InPem => m.links.inPem
    case InRem => m.links.inRem
    case InMpShop => m.links.inMpshop
  }

  /** The OR of one acquisition flag over the members of a group. */
  predicate AnyFlag(ms: map<int, MonsterRec>, members: seq<int>, f: Flag)
  {
    exists j :: 0 <= j < |members| && members[j] in ms && FlagOf(ms[members[j]], f)
  }

  /** A record with its four `*_evo` flags replaced. */
  function WithEvoFlags(m: MonsterRec, farmableEvo: bool, pemEvo: bool, remEvo: bool, mpEvo: bool): MonsterRec
  {
    m.(flags := m.flags.(farmableEvo := farmableEvo, pemEvo := pemEvo, remEvo := remEvo, mpEvo := mpEvo))
  }

  /** `_initialize_members` on one monster: the `*_evo` flags become the group's ORs. */
  function Broadcast(m: MonsterRec, ms: map<int, MonsterRec>, members: seq<int>): MonsterRec
  {
    WithEvoFlags(m, AnyFlag(ms, members, Farmable), AnyFlag(ms, members, InPem), AnyFlag(ms, members, InRem),
                 AnyFlag(ms, members, InMpShop))
  }

  /** Only the four `*_evo` flags of two records may differ. */
  predicate SameButEvoFlags(a: MonsterRec, b: MonsterRec)
  {
    a == b.(flags := b.flags.(farmableEvo := a.flags.farmableEvo, pemEvo := a.flags.pemEvo,
                              remEvo := a.flags.remEvo, mpEvo := a.flags.mpEvo))
  }

  /** The acquisition flags of a group, read in one record map, agree with those read in another that changed only `*_evo` flags. */
  lemma AnyFlagStable(ms: map<int, MonsterRec>, ms2: map<int, MonsterRec>, members: seq<int>, f: Flag)
    requires ms.Keys == ms2.Keys
    requires forall no :: no in ms ==> SameButEvoFlags(ms2[no], ms[no])
    ensures AnyFlag(ms, members, f) == AnyFlag(ms2, members, f)
  {
    if AnyFlag(ms, members, f) {
      var j :| 0 <= j < |members| && members[j] in ms && FlagOf(ms[members[j]], f);
      var no := members[j];
      assert SameButEvoFlags(ms2[no], ms[no]);
      assert FlagOf(ms2[no], f);
    }
    if AnyFlag(ms2, members, f) {
      var j :| 0 <= j < |members| && members[j] in ms2 && FlagOf(ms2[members[j]], f);
      var no := members[j];
      assert SameButEvoFlags(ms2[no], ms[no]);
      assert FlagOf(ms[no], f);
    }
  }


  lemma {:induction false} AnyFlagSnoc(ms: map<int, MonsterRec>, members: seq<int>, i: int, f: Flag)
    requires 0 <= i < |members|
    ensures AnyFlag(ms, members[..i + 1], f) == (AnyFlag(ms, members[..i], f) || (members[i] in ms && FlagOf(ms[members[i]], f)))
  {
    var p, q := members[..i], members[..i + 1];
    assert forall j :: 0 <= j < i ==> q[j] == p[j];
    if AnyFlag(ms, q, f) && !(members[i] in ms && FlagOf(ms[members[i]], f)) {
      var j :| 0 <= j < |q| && q[j] in ms && FlagOf(ms[q[j]], f);
      assert j < i;
    }
  }

  /** Broadcasting over records that differ only in `*_evo` flags gives the same record. */
  lemma BroadcastStable(a: MonsterRec, b: MonsterRec, ms: map<int, MonsterRec>, ms2: map<int, MonsterRec>, members: seq<int>)
    requires SameButEvoFlags(a, b)
    requires ms.Keys == ms2.Keys
    requires forall no :: no in ms ==> SameButEvoFlags(ms2[no], ms[no])
    ensures Broadcast(a, ms2, members) == Broadcast(b, ms, members)
  {
    AnyFlagStable(ms, ms2, members, Farmable);
    AnyFlagStable(ms, ms2, members, InPem);
    AnyFlagStable(ms, ms2, members, InRem);
    AnyFlagStable(ms, ms2, members, InMpShop);
  }

  /** Keeping every monster's references keeps the evolution graph. */
  lemma EvoGraphStable(ms: map<int, MonsterRec>, ms2: map<int, MonsterRec>)
    requires RefsKept(ms, ms2)
    ensures EvoGraph(ms2) == EvoGraph(ms)
  {
    assert forall no :: no in ms2 ==> EvoGraph(ms2)[no] == EvoGraph(ms)[no];
  }

  /**
   * The records once the groups `gm` have been initialised in turn, starting
   * from `ms0`: each group rewrites its members' `*_evo` flags.
   */
  function GroupedRecords(ms0: map<int, MonsterRec>, gm: seq<seq<int>>): (r: map<int, MonsterRec>)
    ensures r.Keys == ms0.Keys
  {
    if gm == [] then ms0
    else
      var e := GroupedRecords(ms0, gm[..|gm| - 1]);
      var last := gm[|gm| - 1];
      map no | no in e :: if no in last then Broadcast(ms0[no], ms0, last) else e[no]
  }

  /** Grouping changes nothing but `*_evo` flags. */
  lemma {:induction false} GroupedRecordsShape(ms0: map<int, MonsterRec>, gm: seq<seq<int>>)
    ensures forall no :: no in ms0 ==> SameButEvoFlags(GroupedRecords(ms0, gm)[no], ms0[no])
    ensures RefsKept(ms0, GroupedRecords(ms0, gm))
    decreases |gm|
  {
    if gm != [] {
      GroupedRecordsShape(ms0, gm[..|gm| - 1]);
    }
  }

  /** A monster's `*_evo` flags are the ORs of the last group that lists it. */
  lemma {:induction false} GroupedRecordsLast(ms0: map<int, MonsterRec>, gm: seq<seq<int>>, no: int, j: int)
    requires no in ms0 && LastGroupOf(gm, j, no)
    ensures GroupedRecords(ms0, gm)[no] == Broadcast(ms0[no], ms0, gm[j])
    decreases |gm|
  {
    if j < |gm| - 1 {
      var p := gm[..|gm| - 1];
      assert p[j] == gm[j];
      assert LastGroupOf(p, j, no) by {
        forall k | j < k < |p| ensures no !in p[k] {
          assert p[k] == gm[k];
        }
      }
      GroupedRecordsLast(ms0, p, no, j);
    }
  }

  /** A monster no group lists keeps its record. */
  lemma {:induction false} GroupedRecordsUngrouped(ms0: map<int, MonsterRec>, gm: seq<seq<int>>, no: int)
    requires no in ms0 && forall j :: 0 <= j < |gm| ==> no !in gm[j]
    ensures GroupedRecords(ms0, gm)[no] == ms0[no]
    decreases |gm|
  {
    if gm != [] {
      var p := gm[..|gm| - 1];
      assert forall j :: 0 <= j < |p| ==> p[j] == gm[j];
      GroupedRecordsUngrouped(ms0, p, no);
    }
  }

  lemma GroupedRecordsRefs(ms0: map<int, MonsterRec>, gm: seq<seq<int>>, no: int)
    requires no in ms0
    ensures GroupedRecords(ms0, gm)[no].refs == ms0[no].refs
  {
    GroupedRecordsShape(ms0, gm);
  }

  lemma BaseMonstersStep(order: seq<int>, i: int, ms: map<int, MonsterRec>)
    requires 0 <= i < |order|
    ensures BaseMonsters(order[..i + 1], ms)
            == BaseMonsters(order[..i], ms) + (if order[i] in ms && ms[order[i]].refs.curEvoType == Base then [order[i]] else [])
  {
    assert order[..i + 1][..i] == order[..i];
  }

  lemma GroupWalksStep(g: map<int, seq<int>>, bases: seq<int>, x: int)
    ensures GroupWalks(g, bases + [x]) == if GroupWalks(g, bases).Some? && Preorder(g, x, {}).Some?
                                          then Some(GroupWalks(g, bases).value + [Preorder(g, x, {}).value]) else None
  {
    assert (bases + [x])[..|bases|] == bases;
  }

  /** The `*_evo` flag that carries the group-wide OR of `f`. */
  function EvoFlagOf(m: MonsterRec, f: Flag): bool
  {
    match f
    case Farmable => m.flags.farmableEvo
    case InPem => m.flags.pemEvo
    case InRem => m.flags.remEvo
    case InMpShop => m.flags.mpEvo
  }

  /**
   * Once the groups are initialised, a monster's `*_evo` flag is the OR of the
   * acquisition flag over the members of the last group listing it, read in
   * the final records.
   */
  lemma GroupedFlags(ms0: map<int, MonsterRec>, gm: seq<seq<int>>, no: int, j: int, f: Flag)
    requires no in ms0 && LastGroupOf(gm, j, no)
    ensures EvoFlagOf(GroupedRecords(ms0, gm)[no], f) == AnyFlag(GroupedRecords(ms0, gm), gm[j], f)
  {
    GroupedRecordsLast(ms0, gm, no, j);
    GroupedRecordsShape(ms0, gm);
    AnyFlagStable(ms0, GroupedRecords(ms0, gm), gm[j], f);
  }

  /**
   * After the finalize pass and the grouping, a monster keeps its links, references
   * and row; its `farmable` flag is the one `finalize` set, and a monster no group
   * lists keeps `farmable_evo` equal to it.
   */
  lemma FinalizedGrouped(ms: map<int, MonsterRec>, finished: map<int, MonsterRec>, gm: seq<seq<int>>, items: seq<Key>)
    requires finished.Keys == ms.Keys
    requires forall no :: no in ms ==> finished[no] == if Key(KMonster, no) in items then Finalized(ms[no]) else ms[no]
    ensures forall no :: no in ms ==>
              GroupedRecords(finished, gm)[no].links == ms[no].links && GroupedRecords(finished, gm)[no].refs == ms[no].refs
              && GroupedRecords(finished, gm)[no].row == ms[no].row
    ensures forall no :: no in ms ==>
              GroupedRecords(finished, gm)[no].flags.farmable
              == if Key(KMonster, no) in items then |ms[no].refs.dropDungeons| > 0 else ms[no].flags.farmable
    ensures forall no :: no in ms && Key(KMonster, no) in items && NoGroupOf(gm, no) ==>
              GroupedRecords(finished, gm)[no].flags.farmableEvo == GroupedRecords(finished, gm)[no].flags.farmable
  {
    GroupedRecordsShape(finished, gm);
    forall no | no in ms && NoGroupOf(gm, no)
      ensures GroupedRecords(finished, gm)[no] == finished[no]
    {
      GroupedRecordsUngrouped(finished, gm, no);
    }
  }

  /** No group lists `v`. */
  predicate NoGroupOf(gm: seq<seq<int>>, v: int)
  {
    forall j :: 0 <= j < |gm| ==> v !in gm[j]
  }

  /** Every member of a group ends up with that group's acquisition flags, whatever group came before. */
  predicate LastGroupOf(gm: seq<seq<int>>, i: int, v: int)
  {
    0 <= i < |gm| && v in gm[i] && forall j :: i < j < |gm| ==> v !in gm[j]
  }

  /** `{m.monster_no_na: m.monster_no for m in values}`: a later monster with the same NA number wins. */
  function NaToNo(order: seq<int>, ms: map<int, MonsterRec>): (r: map<int, int>)
    ensures forall na :: na in r ==> r[na] in ms && ms[r[na]].row.monsterNoUs == na
    ensures forall i :: 0 <= i < |order| && order[i] in ms ==> ms[order[i]].row.monsterNoUs in r
  {
    if order == [] then map[]
    else
      var r := NaToNo(order[..|order| - 1], ms);
      var last := order[|order| - 1];
      assert forall i :: 0 <= i < |order| - 1 ==> order[..|order| - 1][i] == order[i];
      if last in ms then r[ms[last].row.monsterNoUs := last] else r
  }


  /** `s[-1] == x`. */
  predicate EndsWith<T(==)>(s: seq<T>, x: T)
  {
    |s| > 0 && s[|s| - 1] == x
  }

  /** The monster infos once info `no` has run its `load` (when `firstLoad`), which links its series. */
  function InfoLinked(infos: map<int, InfoRec>, firstLoad: bool, no: int, seriesIds: set<int>): (r: map<int, InfoRec>)
    ensures r.Keys == infos.Keys
    ensures forall id :: id in r ==> r[id].row == infos[id].row && r[id].tsrSeq == infos[id].tsrSeq
  {
    if firstLoad && no in infos then infos[no := infos[no].(series := Lookup(seriesIds, infos[no].tsrSeq))] else infos
  }


  /** What the ensure pass keeps or only grows: the record tables' ids, the wiring, and the load flags. */
  datatype Marks = Marks(infoIds: set<int>, awakeningIds: set<int>, dungeonMonsterIds: set<int>, dropIds: set<int>,
                         evolutionIds: set<int>, materialIds: set<int>, rotationIds: set<int>, datedRotationIds: set<int>,
                         wires: Wiring, loaded: set<Key>, loadedMonsters: set<int>)

  /** From `a` to `b` every id and the wiring are kept, and load flags are only set. */
  predicate Kept(a: Marks, b: Marks)
  {
    a.(loaded := b.loaded, loadedMonsters := b.loadedMonsters) == b
    && a.loaded <= b.loaded && a.loadedMonsters <= b.loadedMonsters
  }

  /** Two steps that each keep the marks keep them together. */
  lemma KeptTrans(a: Marks, b: Marks, c: Marks)
    requires Kept(a, b) && Kept(b, c)
    ensures Kept(a, c)
  {
  }

  // ------------------------------------------------------------- the store

  class RawDatabase {
    var attributes: map<int, AttributeRec>
    var awakenings: map<int, AwakeningRec>
    var dungeons: map<int, DungeonRec>
    var drops: map<int, DropRec>
    var dungeonMonsters: map<int, DungeonMonsterRec>
    var evolutions: map<int, EvolutionRec>
    var evoMaterials: map<int, EvoMaterialRec>
    var monsters: map<int, MonsterRec>
    var addInfos: map<int, AddInfoRec>
    var infos: map<int, InfoRec>
    var prices: map<int, PriceRec>
    var series: map<int, SeriesRec>
    var leaderData: map<int, LeaderDataRec>
    var skills: map<int, SkillRec>
    var rotations: map<int, RotationRec>
    var datedRotations: map<int, DatedRotationRec>
    var types: map<int, TypeRec>

    /** The order in which `_monster_map.values()` yields the monsters. */
    var monsterOrder: seq<int>
    /** `_all_pg_items`. */
    var allItems: seq<Key>
    /** The items other than monsters whose `_loaded` flag is set. */
    var loaded: set<Key>
    /** The monsters whose `_loaded` flag is set. */
    var loadedMonsters: set<int>
    /** `grouped_monsters`: the members of each group, base first. */
    var groupedMonsters: seq<seq<int>>
    var monsterNoNaToMonsterNo: map<int, int>

    function KeysOf(kind: Kind): set<int>
      reads this`attributes, this`awakenings, this`dungeons, this`drops, this`dungeonMonsters,
            this`evolutions, this`evoMaterials, this`monsters, this`addInfos, this`infos, this`prices,
            this`series, this`leaderData, this`skills, this`rotations, this`datedRotations, this`types
    {
      match kind
      case KAttribute => attributes.Keys
      case KAwakening => awakenings.Keys
      case KDungeon => dungeons.Keys
      case KDrop => drops.Keys
      case KDungeonMonster => dungeonMonsters.Keys
      case KEvolution => evolutions.Keys
      case KEvoMaterial => evoMaterials.Keys
      case KMonster => monsters.Keys
      case KAddInfo => addInfos.Keys
      case KInfo => infos.Keys
      case KPrice => prices.Keys
      case KSeries => series.Keys
      case KLeaderData => leaderData.Keys
      case KSkill => skills.Keys
      case KRotation => rotations.Keys
      case KDatedRotation => datedRotations.Keys
      case KType => types.Keys
    }

    /** The ids of a table whose `load` does nothing. */
    function LeafIds(kind: Kind): set<int>
      reads this`attributes, this`dungeons, this`addInfos, this`prices, this`series, this`leaderData,
            this`skills, this`types
    {
      match kind
      case KAttribute => attributes.Keys
      case KDungeon => dungeons.Keys
      case KAddInfo => addInfos.Keys
      case KPrice => prices.Keys
      case KSeries => series.Keys
      case KLeaderData => leaderData.Keys
      case KSkill => skills.Keys
      case KType => types.Keys
      case _ => {}
    }

    predicate IsLoaded(k: Key)
      reads this`loaded, this`loadedMonsters
    {
      if k.kind == KMonster then k.id in loadedMonsters else k in loaded
    }

    /** Every item `_all_pg_items` lists and the tables of `sh` hold has been through `_ensure_loaded`. */
    ghost predicate AllLoaded(sh: Shape)
      reads this`allItems, this`loaded, this`loadedMonsters
    {
      forall k :: k in allItems && k.id in IdsOf(sh, k.kind) ==> IsLoaded(k)
    }

    predicate AssistForcesInheritable(no: int)
      reads this`addInfos
    {
      no in addInfos && addInfos[no].extraVal1 == Some(1)
    }

    /** Every monster `_all_pg_items` lists has the `is_inheritable` its assist setting fixes. */
    predicate ListedInheritable()
      reads this`monsters, this`allItems, this`addInfos
    {
      forall no :: no in monsters && Key(KMonster, no) in allItems ==>
        monsters[no].links.isInheritable == AssistForcesInheritable(no)
    }

    /**
     * While the ensure pass runs: a monster nobody has fetched yet is untouched
     * by other records' loads, a fetched monster's `is_inheritable` is fixed by
     * its assist setting alone, and an evolution's target has been fetched.
     */
    ghost predicate MonsterInv()
      reads this`monsters, this`loadedMonsters, this`addInfos, this`evolutions
    {
      loadedMonsters <= monsters.Keys
      && (forall no :: no in monsters && no !in loadedMonsters ==> Pristine(monsters[no]))
      && (forall no :: no in loadedMonsters ==> monsters[no].links.isInheritable == AssistForcesInheritable(no))
      && (forall tv :: tv in evolutions && evolutions[tv].toMonster.Some? ==> evolutions[tv].toMonster.value in loadedMonsters)
    }

    /** What a monster fetch may change about the store's shape: no table gains or loses an id, and load flags are only set. */
    twostate predicate Grows()
      reads this`monsters, this`infos, this`skills, this`series, this`loaded, this`loadedMonsters
    {
      monsters.Keys == old(monsters.Keys) && infos.Keys == old(infos.Keys)
      && skills.Keys == old(skills.Keys) && series.Keys == old(series.Keys)
      && old(loaded) <= loaded && old(loadedMonsters) <= loadedMonsters
    }

    /** No record table other than the monster ones gains or loses an id. */
    twostate predicate TablesKept()
      reads this`awakenings, this`dungeonMonsters, this`drops, this`evolutions, this`evoMaterials, this`rotations,
            this`datedRotations
    {
      awakenings.Keys == old(awakenings.Keys) && dungeonMonsters.Keys == old(dungeonMonsters.Keys)
      && drops.Keys == old(drops.Keys) && evolutions.Keys == old(evolutions.Keys)
      && evoMaterials.Keys == old(evoMaterials.Keys) && rotations.Keys == old(rotations.Keys)
      && datedRotations.Keys == old(datedRotations.Keys)
    }

    /** What a step of the ensure pass keeps: every table's ids and the wiring; load flags are only set. */
    twostate predicate StepKept()
      reads this`monsters, this`infos, this`skills, this`series, this`loaded, this`loadedMonsters, this`prices,
            this`awakenings, this`dungeonMonsters, this`drops, this`evolutions, this`evoMaterials, this`rotations,
            this`datedRotations
    {
      Kept(old(Marked()), Marked())
    }

    function Marked(): Marks
      reads this`monsters, this`infos, this`skills, this`series, this`loaded, this`loadedMonsters, this`prices,
            this`awakenings, this`dungeonMonsters, this`drops, this`evolutions, this`evoMaterials, this`rotations,
            this`datedRotations
    {
      Marks(infos.Keys, awakenings.Keys, dungeonMonsters.Keys, drops.Keys, evolutions.Keys, evoMaterials.Keys,
            rotations.Keys, datedRotations.Keys, Wires(), loaded, loadedMonsters)
    }

    /** StepKept spelled out field by field. */
    twostate lemma StepKeptMeans()
      ensures StepKept() <==> Grows() && TablesKept() && Wires() == old(Wires())
    {
      if StepKept() {
        assert Wires().monsterIds == old(Wires()).monsterIds;
      }
    }

    /** The store's wiring: what decides whether a record's `load` raises. */
    function Wires(): Wiring
      reads this`monsters, this`skills, this`series, this`prices, this`infos, this`awakenings, this`evolutions,
            this`evoMaterials
    {
      Wiring(monsters.Keys, skills.Keys, series.Keys, prices.Keys, InfoSeries(infos), AwakeningRows(awakenings),
             EvolutionRows(evolutions), MaterialRows(evoMaterials))
    }

    /** A monster PgMonster.load cannot link is a load that raises. */
    lemma LinkedRaises(no: int)
      requires no in monsters && Linked(no).Err?
      ensures LoadRaises(Wires())
    {
      assert no in Wires().monsterIds && !Linkable(Wires(), no);
    }

    /**
     * An evolution marked loaded has its target.  It holds as long as no load
     * has raised; the first one that raises ends the pass.
     */
    ghost predicate EvoInv()
      reads this`evolutions, this`loaded
    {
      forall tv :: tv in evolutions && Key(KEvolution, tv) in loaded ==> evolutions[tv].toMonster.Some?
    }

    /** No evolution is newly marked as loaded. */
    twostate predicate EvoMarksKept()
      reads this`loaded
    {
      forall tv :: Key(KEvolution, tv) in loaded ==> Key(KEvolution, tv) in old(loaded)
    }

    /** A step that keeps the evolutions and marks no evolution keeps EvoInv. */
    twostate lemma EvoInvKept()
      requires old(EvoInv()) && EvoMarksKept() && unchanged(this`evolutions)
      ensures EvoInv()
    {
    }

    /** `PgRawDatabase(skip_load=True)`: every table empty, nothing loaded. */
    constructor Empty()
      ensures MonsterInv()
      ensures attributes == map[] && awakenings == map[] && dungeons == map[] && drops == map[]
      ensures dungeonMonsters == map[] && evolutions == map[] && evoMaterials == map[] && monsters == map[]
      ensures addInfos == map[] && infos == map[] && prices == map[] && series == map[]
      ensures leaderData == map[] && skills == map[] && rotations == map[] && datedRotations == map[] && types == map[]
      ensures allItems == [] && monsterOrder == [] && loaded == {} && loadedMonsters == {}
      ensures groupedMonsters == [] && monsterNoNaToMonsterNo == map[]
    {
      attributes, awakenings, dungeons, drops := map[], map[], map[], map[];
      dungeonMonsters, evolutions, evoMaterials, monsters := map[], map[], map[], map[];
      addInfos, infos, prices, series := map[], map[], map[], map[];
      leaderData, skills, rotations, datedRotations, types := map[], map[], map[], map[], map[];
      monsterOrder, allItems, loaded, loadedMonsters := [], [], {}, {};
      groupedMonsters, monsterNoNaToMonsterNo := [], map[];
    }

    // ----------------------------------------------------------- ensure_loaded

    /** `_ensure_loaded(table.get(id))` for a table whose `load` does nothing. */
    method FetchLeaf(kind: Kind, id: Option<int>) returns (r: Option<int>)
      requires IsLeaf(kind)
      modifies this`loaded
      ensures r == Lookup(LeafIds(kind), id)
      ensures loaded == old(loaded) + OptKey(kind, r)
      ensures id.Some? && Key(kind, id.value) in old(loaded) ==> unchanged(this)
    {
      r := None;
      if id.Some? && id.value in LeafIds(kind) {
        r := id;
        if Key(kind, id.value) !in loaded {
          loaded := loaded + {Key(kind, id.value)};
        }
      }
    }

    /** `getMonsterInfo(no)`; the info's own `load` fetches its series. */
    method FetchInfo(no: int) returns (present: bool)
      modifies this`loaded, this`infos
      ensures present == (no in infos)
      ensures infos == InfoLinked(old(infos), Key(KInfo, no) !in old(loaded), no, series.Keys)
      ensures Wires() == old(Wires()) && EvoMarksKept()
      ensures Key(KInfo, no) in old(loaded) ==> unchanged(this)
      ensures loaded == if present && Key(KInfo, no) !in old(loaded)
                        then old(loaded) + {Key(KInfo, no)} + OptKey(KSeries, Lookup(series.Keys, infos[no].tsrSeq))
                        else old(loaded)
    {
      present := no in infos;
      if present && Key(KInfo, no) !in loaded {
        loaded := loaded + {Key(KInfo, no)};
        var s := FetchLeaf(KSeries, infos[no].tsrSeq);
        InfoSeriesUpdate(infos, no, infos[no].(series := s));
        infos := infos[no := infos[no].(series := s)];
      }
    }

    /** The leaf fetches PgMonster.load makes before it reads the monster info, in its order. */
    function PreInfoRequests(no: int, m: MonsterRec): (r: seq<Request>)
      reads this`addInfos
      ensures forall i :: 0 <= i < |r| ==> IsLeaf(r[i].kind)
    {
      [Request(KSkill, m.tsSeqActive), Request(KSkill, m.tsSeqLeader), Request(KLeaderData, m.tsSeqLeader),
       Request(KAttribute, Some(m.row.taSeq)), Request(KAttribute, Some(m.row.taSeqSub)),
       Request(KType, Some(m.row.ttSeq)), Request(KType, Some(m.row.ttSeqSub)), Request(KAddInfo, Some(no))]
      + (if no in addInfos then [Request(KType, Some(addInfos[no].row.subType))] else [])
    }

    /** The leaf fetches after it: the info's series (when there is an info) and the price. */
    function PostInfoRequests(no: int): (r: seq<Request>)
      reads this`infos
      ensures forall i :: 0 <= i < |r| ==> IsLeaf(r[i].kind)
    {
      (if no in infos then [Request(KSeries, infos[no].tsrSeq)] else []) + [Request(KPrice, Some(no))]
    }

    /** One `_ensure_loaded(getter(id))` per request, left to right; only leaf items become loaded. */
    method FetchLeaves(reqs: seq<Request>)
      requires forall i :: 0 <= i < |reqs| ==> IsLeaf(reqs[i].kind)
      modifies this`loaded
      ensures old(loaded) <= loaded && EvoMarksKept()
      ensures forall k :: k in loaded && k !in old(loaded) ==> IsLeaf(k.kind)
      ensures forall i :: 0 <= i < |reqs| && reqs[i].id.Some? && reqs[i].id.value in LeafIds(reqs[i].kind) ==>
                Key(reqs[i].kind, reqs[i].id.value) in loaded
    {
      var i := 0;
      while i < |reqs|
        invariant 0 <= i <= |reqs|
        invariant old(loaded) <= loaded
        invariant forall k :: k in loaded && k !in old(loaded) ==> IsLeaf(k.kind)
        invariant forall j :: 0 <= j < i && reqs[j].id.Some? && reqs[j].id.value in LeafIds(reqs[j].kind) ==>
                    Key(reqs[j].kind, reqs[j].id.value) in loaded
      {
        var _ := FetchLeaf(reqs[i].kind, reqs[i].id);
        i := i + 1;
      }
    }

    /** The fetches of PgMonster.load, in its order: skills, leader data, attributes, types, add info, info, series, price. */
    method FetchMonsterDeps(no: int, m: MonsterRec)
      modifies this`loaded, this`infos
      ensures infos == InfoLinked(old(infos), Key(KInfo, no) !in old(loaded), no, series.Keys)
      ensures old(loaded) <= loaded
      ensures no in infos ==> Key(KInfo, no) in loaded
      ensures Wires() == old(Wires()) && EvoMarksKept()
    {
      FetchLeaves(PreInfoRequests(no, m));
      var hasInfo := FetchInfo(no);
      FetchLeaves(PostInfoRequests(no));
    }

    /** What PgMonster.load computes for monster `no` from the current tables. */
    function Linked(no: int): Result<MonsterRec>
      requires no in monsters
      reads this`monsters, this`skills, this`leaderData, this`attributes, this`types, this`addInfos,
            this`infos, this`series, this`prices
    {
      LinkMonster(no, monsters[no], skills.Keys, leaderData.Keys, attributes, types, addInfos, infos, series.Keys, prices)
    }

    /** The back-references PgMonster.load appends to its active and leader skills. */
    static function WithSkillRefs(sk: map<int, SkillRec>, active: Option<int>, leader: Option<int>, no: int): (r: map<int, SkillRec>)
      requires active.Some? ==> active.value in sk
      requires leader.Some? ==> leader.value in sk
      ensures r.Keys == sk.Keys
      ensures forall id :: id in sk ==> r[id].row == sk[id].row
    {
      var s1 := if active.Some? then sk[active.value := sk[active.value].(withActive := sk[active.value].withActive + [no])] else sk;
      if leader.Some? then s1[leader.value := s1[leader.value].(withLeader := s1[leader.value].withLeader + [no])] else s1
    }

    /** The linked monster replaces the constructed one and is marked loaded. */
    method StoreLinked(no: int, lm: MonsterRec)
      requires MonsterInv() && no in monsters && no !in loadedMonsters
      requires lm.links.isInheritable == AssistForcesInheritable(no)
      modifies this`monsters, this`loadedMonsters
      ensures MonsterInv()
      ensures monsters == old(monsters)[no := lm] && loadedMonsters == old(loadedMonsters) + {no}
      ensures monsters.Keys == old(monsters.Keys) && Wires() == old(Wires())
    {
      monsters := monsters[no := lm];
      loadedMonsters := loadedMonsters + {no};
    }

    /** The back-references a fresh PgMonster.load appends: the monster joins its skills and its series. */
    method AddMonsterRefs(no: int, lm: MonsterRec)
      requires lm.links.series in series
      requires lm.links.activeSkill.Some? ==> lm.links.activeSkill.value in skills
      requires lm.links.leaderSkill.Some? ==> lm.links.leaderSkill.value in skills
      modifies this`skills, this`series
      ensures skills == WithSkillRefs(old(skills), lm.links.activeSkill, lm.links.leaderSkill, no)
      ensures series == old(series)[lm.links.series := old(series)[lm.links.series].(
                                      monsters := old(series)[lm.links.series].monsters + [no])]
      ensures skills.Keys == old(skills.Keys) && series.Keys == old(series.Keys) && Wires() == old(Wires())
    {
      skills := WithSkillRefs(skills, lm.links.activeSkill, lm.links.leaderSkill, no);
      series := series[lm.links.series := series[lm.links.series].(monsters := series[lm.links.series].monsters + [no])];
    }

    /** StoreLinked followed by AddMonsterRefs: the linked monster is stored and joins its skills and series. */
    method CommitLinked(no: int, lm: MonsterRec)
      requires MonsterInv() && no in monsters && no !in loadedMonsters
      requires lm.links.isInheritable == AssistForcesInheritable(no)
      requires lm.links.series in series
      requires lm.links.activeSkill.Some? ==> lm.links.activeSkill.value in skills
      requires lm.links.leaderSkill.Some? ==> lm.links.leaderSkill.value in skills
      modifies this`monsters, this`loadedMonsters, this`skills, this`series
      ensures MonsterInv()
      ensures monsters == old(monsters)[no := lm] && loadedMonsters == old(loadedMonsters) + {no}
      ensures skills == WithSkillRefs(old(skills), lm.links.activeSkill, lm.links.leaderSkill, no)
      ensures series == old(series)[lm.links.series := old(series)[lm.links.series].(
                                      monsters := old(series)[lm.links.series].monsters + [no])]
      ensures monsters.Keys == old(monsters.Keys) && skills.Keys == old(skills.Keys)
      ensures series.Keys == old(series.Keys) && Wires() == old(Wires())
    {
      StoreLinked(no, lm);
      AddMonsterRefs(no, lm);
    }

    /**
     * The first `getMonster(no)` with `_ensure_loaded`: PgMonster.load links the
     * monster, appends it to its skills and its series, and fixes
     * `is_inheritable` before any awakening can have been attached to it.  It
     * fails exactly where LinkMonster does.
     */
    method LoadMonster(no: int) returns (r: Result<bool>)
      requires MonsterInv() && no in monsters && no !in loadedMonsters
      modifies this`loaded, this`loadedMonsters, this`monsters, this`infos, this`skills, this`series
      ensures r.Ok? <==> old(Linked(no)).Ok?
      ensures r.Ok? ==> r.value && MonsterInv()
      ensures Grows() && Wires() == old(Wires()) && EvoMarksKept()
      ensures r.Err? ==> LoadRaises(old(Wires()))
      ensures r.Ok? ==>
                var lm := old(Linked(no)).value;
                monsters == old(monsters)[no := lm]
                && skills == WithSkillRefs(old(skills), lm.links.activeSkill, lm.links.leaderSkill, no)
                && series == old(series)[lm.links.series := old(series)[lm.links.series].(
                                            monsters := old(series)[lm.links.series].monsters + [no])]
                && infos == InfoLinked(old(infos), Key(KInfo, no) !in old(loaded), no, old(series.Keys))
                && loadedMonsters == old(loadedMonsters) + {no}
                && lm.links.isInheritable == AssistForcesInheritable(no)
    {
      var linked := Linked(no);
      if linked.Err? {
        LoadMonsterRaising(no);
        return Err(linked.error);
      }
      LoadMonsterLinked(no, linked.value);
      return Ok(true);
    }

    /** A PgMonster.load that raises: its dependencies were fetched first, and `_ensure_loaded` has marked it. */
    method LoadMonsterRaising(no: int)
      requires no in monsters && no !in loadedMonsters && Linked(no).Err?
      modifies this`loaded, this`loadedMonsters, this`infos
      ensures Grows() && Wires() == old(Wires()) && EvoMarksKept()
      ensures LoadRaises(old(Wires()))
    {
      LinkedRaises(no);
      FetchMonsterDeps(no, monsters[no]);
      loadedMonsters := loadedMonsters + {no};
    }

    /** A PgMonster.load that succeeds with `lm`: dependencies fetched, then CommitLinked. */
    method LoadMonsterLinked(no: int, lm: MonsterRec)
      requires MonsterInv() && no in monsters && no !in loadedMonsters && Linked(no) == Ok(lm)
      modifies this`loaded, this`loadedMonsters, this`monsters, this`infos, this`skills, this`series
      ensures MonsterInv() && Grows() && Wires() == old(Wires()) && EvoMarksKept()
      ensures monsters == old(monsters)[no := lm] && loadedMonsters == old(loadedMonsters) + {no}
      ensures skills == WithSkillRefs(old(skills), lm.links.activeSkill, lm.links.leaderSkill, no)
      ensures series == old(series)[lm.links.series := old(series)[lm.links.series].(
                                      monsters := old(series)[lm.links.series].monsters + [no])]
      ensures infos == InfoLinked(old(infos), Key(KInfo, no) !in old(loaded), no, old(series.Keys))
      ensures lm.links.isInheritable == AssistForcesInheritable(no)
    {
      FetchMonsterDeps(no, monsters[no]);
      CommitLinked(no, lm);
    }

    /** `getMonster(no)` followed by `_ensure_loaded`: only the first fetch of a monster loads it. */
    method FetchMonster(no: int) returns (r: Result<bool>)
      requires MonsterInv()
      modifies this`loaded, this`loadedMonsters, this`monsters, this`infos, this`skills, this`series
      ensures r.Ok? ==> MonsterInv()
      ensures Grows() && Wires() == old(Wires()) && EvoMarksKept()
      ensures r.Ok? ==> (r.value <==> no in monsters) && (r.value ==> no in loadedMonsters)
      ensures !(no in old(monsters) && no !in old(loadedMonsters)) ==> r.Ok? && unchanged(this)
      ensures r.Ok? && no in old(monsters) && no !in old(loadedMonsters) ==>
                old(Linked(no)).Ok?
                && monsters == old(monsters)[no := old(Linked(no)).value]
                && skills == WithSkillRefs(old(skills), monsters[no].links.activeSkill, monsters[no].links.leaderSkill, no)
                && series == old(series)[monsters[no].links.series := old(series)[monsters[no].links.series].(
                                            monsters := old(series)[monsters[no].links.series].monsters + [no])]
                && infos == InfoLinked(old(infos), Key(KInfo, no) !in old(loaded), no, old(series.Keys))
                && loadedMonsters == old(loadedMonsters) + {no}
                && monsters[no].links.isInheritable == AssistForcesInheritable(no)
      ensures r.Err? ==> no in old(monsters) && no !in old(loadedMonsters) && old(Linked(no)).Err?
      ensures r.Err? ==> LoadRaises(old(Wires()))
    {
      if no !in monsters || no in loadedMonsters {
        return Ok(no in monsters);
      }
      r := LoadMonster(no);
    }

    /**
     * `getMonster(no)` as the other records' loads use it: what they rely on is
     * that the monster, when it exists, ends up loaded, that a loaded or missing
     * monster is left alone, that the fetch fails exactly when the monster cannot
     * be linked, and that the store keeps its shape and its wiring.
     */
    method GetMonster(no: int) returns (r: Result<bool>)
      requires MonsterInv()
      modifies this`loaded, this`loadedMonsters, this`monsters, this`infos, this`skills, this`series
      ensures Grows() && Wires() == old(Wires()) && EvoMarksKept()
      ensures old(EvoInv()) ==> EvoInv()
      ensures r.Ok? ==> MonsterInv() && (r.value <==> no in monsters) && (r.value ==> no in loadedMonsters)
      ensures !(no in old(monsters) && no !in old(loadedMonsters)) ==> r.Ok? && unchanged(this)
      ensures r.Err? <==> no in old(monsters) && no !in old(loadedMonsters) && old(Linked(no)).Err?
      ensures r.Err? ==> LoadRaises(old(Wires()))
    {
      r := FetchMonster(no);
      if old(EvoInv()) {
        EvoInvKept();
      }
    }

    /** `getMonster(a)` then `getMonster(b)`, as a record's load makes them; a first fetch that raises ends the load. */
    method FetchMonsterPair(a: int, b: int) returns (r: Result<(bool, bool)>)
      requires MonsterInv()
      modifies this`loaded, this`loadedMonsters, this`monsters, this`infos, this`skills, this`series
      ensures Grows() && Wires() == old(Wires()) && EvoMarksKept()
      ensures r.Err? ==> LoadRaises(old(Wires()))
      ensures r.Ok? ==>
                MonsterInv()
                && (r.value.0 <==> a in monsters) && (r.value.0 ==> a in loadedMonsters)
                && (r.value.1 <==> b in monsters) && (r.value.1 ==> b in loadedMonsters)
    {
      var x := GetMonster(a);
      if x.Err? {
        return Err(x.error);
      }
      var y := GetMonster(b);
      if y.Err? {
        return Err(y.error);
      }
      return Ok((x.value, y.value));
    }

    // ------------------------------------------------------------- back-references

    /** Another record's load rewrites the back-references of a monster that has been fetched already. */
    method SetRefs(no: int, refs: MonsterRefs)
      requires MonsterInv() && no in loadedMonsters
      modifies this`monsters
      ensures MonsterInv()
      ensures monsters == old(monsters)[no := old(monsters)[no].(refs := refs)]
      ensures monsters.Keys == old(monsters.Keys) && Wires() == old(Wires())
    {
      monsters := monsters[no := monsters[no].(refs := refs)];
    }

    // ------------------------------------------------------------- awakenings

    /**
     * PgAwakening.load once the skill and the monster are fetched: record them,
     * then append the awakening to the monster and the monster to the skill.
     * A missing monster or skill is the AttributeError of appending to None.
     */
    method LinkAwakening(id: int, skill: Option<int>, hasMonster: bool) returns (r: Outcome)
      requires MonsterInv() && id in awakenings
      requires skill == Lookup(skills.Keys, Some(awakenings[id].row.tsSeq))
      requires hasMonster == (awakenings[id].row.monsterNo in monsters)
      requires hasMonster ==> awakenings[id].row.monsterNo in loadedMonsters
      modifies this`monsters, this`skills, this`awakenings
      ensures monsters.Keys == old(monsters.Keys) && skills.Keys == old(skills.Keys) && awakenings.Keys == old(awakenings.Keys)
      ensures Wires() == old(Wires())
      ensures r.Pass? <==> hasMonster && skill.Some?
      ensures r.Fail? ==> LoadRaises(old(Wires()))
      ensures r.Pass? ==>
                var a := old(awakenings[id].row);
                MonsterInv()
                && awakenings == old(awakenings)[id := old(awakenings[id]).(skill := skill, monster := Some(a.monsterNo))]
                && monsters == old(monsters)[a.monsterNo := old(monsters[a.monsterNo]).(
                                 refs := old(monsters[a.monsterNo]).refs.(awakenings := old(monsters[a.monsterNo]).refs.awakenings + [id]))]
                && skills == old(skills)[a.tsSeq := old(skills[a.tsSeq]).(withAwakening := old(skills[a.tsSeq]).withAwakening + [a.monsterNo])]
    {
      var a := awakenings[id].row;
      assert id in Wires().awakenings && Wires().awakenings[id] == a;
      AwakeningRowsUpdate(awakenings, id, awakenings[id].(skill := skill, monster := if hasMonster then Some(a.monsterNo) else None));
      awakenings := awakenings[id := awakenings[id].(skill := skill, monster := if hasMonster then Some(a.monsterNo) else None)];
      if !hasMonster {
        return Fail("AttributeError: the awakening's monster is None");
      }
      var refs := monsters[a.monsterNo].refs;
      SetRefs(a.monsterNo, refs.(awakenings := refs.awakenings + [id]));
      if skill.None? {
        return Fail("AttributeError: the awakening's skill is None");
      }
      skills := skills[a.tsSeq := skills[a.tsSeq].(withAwakening := skills[a.tsSeq].withAwakening + [a.monsterNo])];
      return Pass;
    }

    /** PgAwakening.load: fetch the skill, then the monster, then link them. */
    method LoadAwakening(id: int) returns (r: Outcome)
      requires MonsterInv() && id in awakenings
      modifies this`loaded, this`loadedMonsters, this`monsters, this`infos, this`skills, this`series, this`awakenings
      ensures Grows() && awakenings.Keys == old(awakenings.Keys) && Wires() == old(Wires()) && EvoMarksKept()
      ensures r.Fail? ==> LoadRaises(old(Wires()))
      ensures r.Pass? ==> MonsterInv()
      ensures r.Pass? ==>
                var a := old(awakenings[id].row);
                awakenings == old(awakenings)[id := old(awakenings[id]).(skill := Some(a.tsSeq), monster := Some(a.monsterNo))]
                && a.monsterNo in loadedMonsters && a.tsSeq in skills
                && EndsWith(monsters[a.monsterNo].refs.awakenings, id)
                && EndsWith(skills[a.tsSeq].withAwakening, a.monsterNo)
      ensures old(awakenings[id].row.monsterNo) !in old(monsters) || old(awakenings[id].row.tsSeq) !in old(skills) ==> r.Fail?
    {
      var a := awakenings[id].row;
      var skill, m := FetchSkillAndMonster(a.tsSeq, a.monsterNo);
      if m.Err? {
        return Fail(m.error);
      }
      r := LinkAwakening(id, skill, m.value);
    }

    /** The fetches PgAwakening.load makes before it links: the skill, then the monster. */
    method FetchSkillAndMonster(ts: int, no: int) returns (skill: Option<int>, m: Result<bool>)
      requires MonsterInv()
      modifies this`loaded, this`loadedMonsters, this`monsters, this`infos, this`skills, this`series
      ensures Grows() && Wires() == old(Wires()) && EvoMarksKept()
      ensures skill == Lookup(skills.Keys, Some(ts))
      ensures m.Err? ==> LoadRaises(old(Wires()))
      ensures m.Ok? ==> MonsterInv() && (m.value <==> no in monsters) && (m.value ==> no in loadedMonsters)
    {
      skill := FetchLeaf(KSkill, Some(ts));
      m := GetMonster(no);
    }

    /** `getAwakening(id)` with `_ensure_loaded`: only the first fetch of a present awakening loads it. */
    method FetchAwakening(id: int) returns (r: Result<bool>)
      requires MonsterInv()
      modifies this`loaded, this`loadedMonsters, this`monsters, this`infos, this`skills, this`series, this`awakenings
      ensures Grows() && awakenings.Keys == old(awakenings.Keys) && Wires() == old(Wires()) && EvoMarksKept()
      ensures r.Err? ==> LoadRaises(old(Wires()))
      ensures r.Ok? ==> MonsterInv() && (r.value <==> id in awakenings) && (r.value ==> Key(KAwakening, id) in loaded)
      ensures !(id in old(awakenings) && Key(KAwakening, id) !in old(loaded)) ==> r.Ok? && unchanged(this)
    {
      if id !in awakenings || Key(KAwakening, id) in loaded {
        return Ok(id in awakenings);
      }
      loaded := loaded + {Key(KAwakening, id)};
      var o := LoadAwakening(id);
      r := if o.Pass? then Ok(true) else Err(o.error);
    }

    // ------------------------------------------------------------- dungeon monsters and drops

    /**
     * PgDungeonMonster.load once its monsters are fetched: fetch the dungeon,
     * then a dropped monster records the dungeon, which may be None.
     */
    method LinkDungeonMonster(id: int, hasDrop: bool, hasMonster: bool)
      requires MonsterInv() && id in dungeonMonsters
      requires hasDrop == (dungeonMonsters[id].row.dropNo in monsters)
      requires hasDrop ==> dungeonMonsters[id].row.dropNo in loadedMonsters
      requires hasMonster == (dungeonMonsters[id].row.monsterNo in monsters)
      modifies this`loaded, this`monsters, this`dungeonMonsters
      ensures MonsterInv()
      ensures monsters.Keys == old(monsters.Keys) && dungeonMonsters.Keys == old(dungeonMonsters.Keys) && Wires() == old(Wires())
      ensures var dungeon := Lookup(dungeons.Keys, Some(old(dungeonMonsters[id].row.dungeonSeq)));
              loaded == old(loaded) + OptKey(KDungeon, dungeon)
      ensures var d := old(dungeonMonsters[id].row);
              var dungeon := Lookup(dungeons.Keys, Some(d.dungeonSeq));
              dungeonMonsters == old(dungeonMonsters)[id := old(dungeonMonsters[id]).(
                                   dropMonster := Lookup(monsters.Keys, Some(d.dropNo)),
                                   monster := Lookup(monsters.Keys, Some(d.monsterNo)), dungeon := dungeon)]
              && monsters == if hasDrop
                             then old(monsters)[d.dropNo := old(monsters[d.dropNo]).(
                                    refs := old(monsters[d.dropNo]).refs.(dropDungeons := old(monsters[d.dropNo]).refs.dropDungeons + [dungeon]))]
                             else old(monsters)
    {
      var d := dungeonMonsters[id].row;
      var dungeon := FetchLeaf(KDungeon, Some(d.dungeonSeq));
      dungeonMonsters := dungeonMonsters[id := dungeonMonsters[id].(
                           dropMonster := if hasDrop then Some(d.dropNo) else None,
                           monster := if hasMonster then Some(d.monsterNo) else None, dungeon := dungeon)];
      if hasDrop {
        var refs := monsters[d.dropNo].refs;
        SetRefs(d.dropNo, refs.(dropDungeons := refs.dropDungeons + [dungeon]));
      }
    }

    /** PgDungeonMonster.load: fetch the drop monster, the monster and the dungeon, then link them. */
    method LoadDungeonMonster(id: int) returns (r: Outcome)
      requires MonsterInv() && id in dungeonMonsters
      modifies this`loaded, this`loadedMonsters, this`monsters, this`infos, this`skills, this`series, this`dungeonMonsters
      ensures Grows() && dungeonMonsters.Keys == old(dungeonMonsters.Keys) && Wires() == old(Wires()) && EvoMarksKept()
      ensures r.Fail? ==> LoadRaises(old(Wires()))
      ensures r.Pass? ==> MonsterInv()
      ensures r.Pass? ==>
                var d := old(dungeonMonsters[id].row);
                dungeonMonsters[id].dropMonster == Lookup(monsters.Keys, Some(d.dropNo))
                && dungeonMonsters[id].monster == Lookup(monsters.Keys, Some(d.monsterNo))
                && dungeonMonsters[id].dungeon == Lookup(dungeons.Keys, Some(d.dungeonSeq))
                && (d.dropNo in monsters ==> EndsWith(monsters[d.dropNo].refs.dropDungeons, Lookup(dungeons.Keys, Some(d.dungeonSeq))))
    {
      var d := dungeonMonsters[id].row;
      var pair := FetchMonsterPair(d.dropNo, d.monsterNo);
      if pair.Err? {
        return Fail(pair.error);
      }
      LinkDungeonMonster(id, pair.value.0, pair.value.1);
      return Pass;
    }

    /** `getDungeonMonster(id)` with `_ensure_loaded`. */
    method FetchDungeonMonster(id: int) returns (r: Result<bool>)
      requires MonsterInv()
      modifies this`loaded, this`loadedMonsters, this`monsters, this`infos, this`skills, this`series, this`dungeonMonsters
      ensures Grows() && dungeonMonsters.Keys == old(dungeonMonsters.Keys) && Wires() == old(Wires()) && EvoMarksKept()
      ensures r.Err? ==> LoadRaises(old(Wires()))
      ensures r.Ok? ==> MonsterInv() && (r.value <==> id in dungeonMonsters) && (r.value ==> Key(KDungeonMonster, id) in loaded)
      ensures !(id in old(dungeonMonsters) && Key(KDungeonMonster, id) !in old(loaded)) ==> r.Ok? && unchanged(this)
    {
      if id !in dungeonMonsters || Key(KDungeonMonster, id) in loaded {
        return Ok(id in dungeonMonsters);
      }
      loaded := loaded + {Key(KDungeonMonster, id)};
      var o := LoadDungeonMonster(id);
      r := if o.Pass? then Ok(true) else Err(o.error);
    }

    /** PgDungeonMonsterDrop.load: fetch the monster and the dungeon monster and record them. */
    method LoadDrop(id: int) returns (r: Outcome)
      requires MonsterInv() && id in drops
      modifies this`loaded, this`loadedMonsters, this`monsters, this`infos, this`skills, this`series, this`dungeonMonsters, this`drops
      ensures Grows() && dungeonMonsters.Keys == old(dungeonMonsters.Keys) && drops.Keys == old(drops.Keys)
      ensures Wires() == old(Wires()) && EvoMarksKept()
      ensures r.Fail? ==> LoadRaises(old(Wires()))
      ensures r.Pass? ==> MonsterInv()
      ensures r.Pass? ==>
                var d := old(drops[id].row);
                drops == old(drops)[id := old(drops[id]).(monster := Lookup(monsters.Keys, Some(d.monsterNo)),
                                                          dungeonMonster := Lookup(dungeonMonsters.Keys, Some(d.tdmSeq)))]
                && (d.monsterNo in monsters ==> d.monsterNo in loadedMonsters)
                && (d.tdmSeq in dungeonMonsters ==> Key(KDungeonMonster, d.tdmSeq) in loaded)
    {
      var d := drops[id].row;
      var deps := FetchDropDeps(d.monsterNo, d.tdmSeq);
      if deps.Err? {
        return Fail(deps.error);
      }
      drops := drops[id := drops[id].(monster := if deps.value.0 then Some(d.monsterNo) else None,
                                      dungeonMonster := if deps.value.1 then Some(d.tdmSeq) else None)];
      return Pass;
    }

    /** The fetches PgDungeonMonsterDrop.load makes: the monster, then the dungeon monster. */
    method FetchDropDeps(no: int, tdm: int) returns (r: Result<(bool, bool)>)
      requires MonsterInv()
      modifies this`loaded, this`loadedMonsters, this`monsters, this`infos, this`skills, this`series, this`dungeonMonsters
      ensures Grows() && dungeonMonsters.Keys == old(dungeonMonsters.Keys) && Wires() == old(Wires()) && EvoMarksKept()
      ensures r.Err? ==> LoadRaises(old(Wires()))
      ensures r.Ok? ==>
                MonsterInv()
                && (r.value.0 <==> no in monsters) && (r.value.0 ==> no in loadedMonsters)
                && (r.value.1 <==> tdm in dungeonMonsters) && (r.value.1 ==> Key(KDungeonMonster, tdm) in loaded)
    {
      var m := GetMonster(no);
      if m.Err? {
        return Err(m.error);
      }
      var dm := FetchDungeonMonster(tdm);
      if dm.Err? {
        return Err(dm.error);
      }
      return Ok((m.value, dm.value));
    }

    /** `getDungeonMonsterDrop(id)` with `_ensure_loaded`. */
    method FetchDrop(id: int) returns (r: Result<bool>)
      requires MonsterInv()
      modifies this`loaded, this`loadedMonsters, this`monsters, this`infos, this`skills, this`series, this`dungeonMonsters, this`drops
      ensures Grows() && dungeonMonsters.Keys == old(dungeonMonsters.Keys) && drops.Keys == old(drops.Keys)
      ensures Wires() == old(Wires()) && EvoMarksKept()
      ensures r.Err? ==> LoadRaises(old(Wires()))
      ensures r.Ok? ==> MonsterInv() && (r.value <==> id in drops) && (r.value ==> Key(KDrop, id) in loaded)
      ensures !(id in old(drops) && Key(KDrop, id) !in old(loaded)) ==> r.Ok? && unchanged(this)
    {
      if id !in drops || Key(KDrop, id) in loaded {
        return Ok(id in drops);
      }
      loaded := loaded + {Key(KDrop, id)};
      var o := LoadDrop(id);
      r := if o.Pass? then Ok(true) else Err(o.error);
    }

    // ------------------------------------------------------------- evolutions

    /**
     * PgEvolution.load once both monsters are fetched: the target takes the
     * evolution type and its source, and the source lists the target in
     * `evo_to`.  A missing target or source is the AttributeError of using None.
     */
    method LinkEvolution(tv: int, hasFrom: bool, hasTo: bool) returns (r: Outcome)
      requires MonsterInv() && tv in evolutions
      requires hasFrom == (evolutions[tv].row.monsterNo in monsters)
      requires hasFrom ==> evolutions[tv].row.monsterNo in loadedMonsters
      requires hasTo == (evolutions[tv].row.toNo in monsters)
      requires hasTo ==> evolutions[tv].row.toNo in loadedMonsters
      modifies this`monsters, this`evolutions
      ensures monsters.Keys == old(monsters.Keys) && Wires() == old(Wires())
      ensures var e := old(evolutions[tv]);
              evolutions == old(evolutions)[tv := e.(fromMonster := Lookup(monsters.Keys, Some(e.row.monsterNo)),
                                                     toMonster := Lookup(monsters.Keys, Some(e.row.toNo)))]
      ensures r.Pass? <==> hasFrom && hasTo
      ensures r.Fail? ==> LoadRaises(old(Wires()))
      ensures r.Pass? ==>
                var e := old(evolutions[tv]);
                MonsterInv()
                && evolutions == old(evolutions)[tv := e.(fromMonster := Some(e.row.monsterNo), toMonster := Some(e.row.toNo))]
                && monsters[e.row.toNo].refs.curEvoType == e.evoType
                && monsters[e.row.toNo].refs.evoFrom == Some(e.row.monsterNo)
                && EndsWith(monsters[e.row.monsterNo].refs.evoTo, e.row.toNo)
                && (forall no :: no in monsters && no != e.row.monsterNo && no != e.row.toNo ==> monsters[no] == old(monsters[no]))
    {
      var e := evolutions[tv];
      var from, to := e.row.monsterNo, e.row.toNo;
      assert tv in Wires().evolutions && Wires().evolutions[tv] == e.row;
      EvolutionRowsUpdate(evolutions, tv, e.(fromMonster := if hasFrom then Some(from) else None,
                                             toMonster := if hasTo then Some(to) else None));
      evolutions := evolutions[tv := e.(fromMonster := if hasFrom then Some(from) else None,
                                        toMonster := if hasTo then Some(to) else None)];
      if !hasTo {
        return Fail("AttributeError: the evolution's target is None");
      }
      var refs := monsters[to].refs;
      SetRefs(to, refs.(curEvoType := e.evoType, evoFrom := if hasFrom then Some(from) else None));
      if !hasFrom {
        return Fail("AttributeError: the evolution's source is None");
      }
      refs := monsters[from].refs;
      SetRefs(from, refs.(evoTo := refs.evoTo + [to]));
      return Pass;
    }

    /** PgEvolution.load: fetch the source monster, then the target, then link them. */
    method LoadEvolution(tv: int) returns (r: Outcome)
      requires MonsterInv() && tv in evolutions
      modifies this`loaded, this`loadedMonsters, this`monsters, this`infos, this`skills, this`series, this`evolutions
      ensures Grows() && evolutions.Keys == old(evolutions.Keys) && Wires() == old(Wires()) && EvoMarksKept()
      ensures forall x :: x in old(evolutions) && x != tv ==> evolutions[x] == old(evolutions[x])
      ensures r.Fail? ==> LoadRaises(old(Wires()))
      ensures r.Pass? ==>
                var e := old(evolutions[tv]);
                MonsterInv()
                && evolutions[tv] == e.(fromMonster := Some(e.row.monsterNo), toMonster := Some(e.row.toNo))
                && e.row.monsterNo in loadedMonsters && e.row.toNo in loadedMonsters
                && monsters[e.row.toNo].refs.curEvoType == e.evoType
                && monsters[e.row.toNo].refs.evoFrom == Some(e.row.monsterNo)
                && EndsWith(monsters[e.row.monsterNo].refs.evoTo, e.row.toNo)
      ensures old(evolutions[tv].row.monsterNo) !in old(monsters) || old(evolutions[tv].row.toNo) !in old(monsters) ==> r.Fail?
    {
      var e := evolutions[tv].row;
      var pair := FetchMonsterPair(e.monsterNo, e.toNo);
      if pair.Err? {
        return Fail(pair.error);
      }
      r := LinkEvolution(tv, pair.value.0, pair.value.1);
    }

    /** `getEvolution(tv)` with `_ensure_loaded`. */
    method FetchEvolution(tv: int) returns (r: Result<bool>)
      requires MonsterInv() && EvoInv()
      modifies this`loaded, this`loadedMonsters, this`monsters, this`infos, this`skills, this`series, this`evolutions
      ensures Grows() && evolutions.Keys == old(evolutions.Keys) && Wires() == old(Wires())
      ensures r.Err? ==> LoadRaises(old(Wires()))
      ensures r.Ok? ==> EvoInv()
      ensures r.Ok? ==> MonsterInv() && (r.value <==> tv in evolutions) && (r.value ==> Key(KEvolution, tv) in loaded)
      ensures !(tv in old(evolutions) && Key(KEvolution, tv) !in old(loaded)) ==> r.Ok? && unchanged(this)
    {
      if tv !in evolutions || Key(KEvolution, tv) in loaded {
        return Ok(tv in evolutions);
      }
      loaded := loaded + {Key(KEvolution, tv)};
      var o := LoadEvolution(tv);
      r := if o.Pass? then Ok(true) else Err(o.error);
    }

    /**
     * PgEvolutionMaterial.load once the evolution and the fodder are fetched: a
     * missing evolution ends the load quietly; otherwise the evolution's target
     * lists the fodder and the fodder lists the target.
     */
    method LinkEvoMaterial(id: int, hasEvolution: bool, hasFodder: bool) returns (r: Outcome)
      requires MonsterInv() && id in evoMaterials
      requires hasEvolution == (evoMaterials[id].row.tvSeq in evolutions)
      requires hasFodder == (evoMaterials[id].row.monsterNo in monsters)
      requires hasFodder ==> evoMaterials[id].row.monsterNo in loadedMonsters
      modifies this`monsters, this`evoMaterials
      ensures monsters.Keys == old(monsters.Keys) && evoMaterials.Keys == old(evoMaterials.Keys) && Wires() == old(Wires())
      ensures var tv := old(evoMaterials[id].row.tvSeq);
              r.Pass? <==> !hasEvolution || (evolutions[tv].toMonster.Some? && hasFodder)
      ensures r.Fail? ==> LoadRaises(old(Wires())) || evolutions[old(evoMaterials[id].row.tvSeq)].toMonster.None?
      ensures r.Pass? ==>
                var em := old(evoMaterials[id]);
                MonsterInv()
                && evoMaterials == old(evoMaterials)[id := em.(evolution := Lookup(evolutions.Keys, Some(em.row.tvSeq)),
                                                              fodder := Lookup(monsters.Keys, Some(em.row.monsterNo)))]
                && (!hasEvolution ==> monsters == old(monsters))
                && (hasEvolution ==>
                      var target := evolutions[em.row.tvSeq].toMonster.value;
                      EndsWith(monsters[target].refs.matsForEvo, em.row.monsterNo)
                      && EndsWith(monsters[em.row.monsterNo].refs.materialOf, target))
    {
      var em := evoMaterials[id];
      assert id in Wires().evoMaterials && Wires().evoMaterials[id] == em.row;
      MaterialRowsUpdate(evoMaterials, id, em.(evolution := if hasEvolution then Some(em.row.tvSeq) else None,
                                               fodder := if hasFodder then Some(em.row.monsterNo) else None));
      evoMaterials := evoMaterials[id := em.(evolution := if hasEvolution then Some(em.row.tvSeq) else None,
                                             fodder := if hasFodder then Some(em.row.monsterNo) else None)];
      if !hasEvolution {
        return Pass;
      }
      var target := evolutions[em.row.tvSeq].toMonster;
      if target.None? {
        return Fail("AttributeError: the evolution's target is None");
      }
      if !hasFodder {
        return Fail("AttributeError: the material's fodder is None");
      }
      var t, f := target.value, em.row.monsterNo;
      var refs := monsters[t].refs;
      SetRefs(t, refs.(matsForEvo := refs.matsForEvo + [f]));
      refs := monsters[f].refs;
      SetRefs(f, refs.(materialOf := refs.materialOf + [t]));
      return Pass;
    }

    /** PgEvolutionMaterial.load: fetch the evolution, then the fodder monster, then link them. */
    method LoadEvoMaterial(id: int) returns (r: Outcome)
      requires MonsterInv() && EvoInv() && id in evoMaterials
      modifies this`loaded, this`loadedMonsters, this`monsters, this`infos, this`skills, this`series, this`evolutions, this`evoMaterials
      ensures Grows() && evolutions.Keys == old(evolutions.Keys) && evoMaterials.Keys == old(evoMaterials.Keys)
      ensures Wires() == old(Wires()) && (r.Pass? ==> EvoInv())
      ensures r.Fail? ==> LoadRaises(old(Wires()))
      ensures r.Pass? ==>
                var em := old(evoMaterials[id].row);
                MonsterInv()
                && evoMaterials[id].evolution == Lookup(evolutions.Keys, Some(em.tvSeq))
                && evoMaterials[id].fodder == Lookup(monsters.Keys, Some(em.monsterNo))
                && (em.tvSeq in evolutions ==>
                      evolutions[em.tvSeq].toMonster.Some? && em.monsterNo in loadedMonsters
                      && EndsWith(monsters[evolutions[em.tvSeq].toMonster.value].refs.matsForEvo, em.monsterNo)
                      && EndsWith(monsters[em.monsterNo].refs.materialOf, evolutions[em.tvSeq].toMonster.value))
    {
      var em := evoMaterials[id].row;
      var deps := FetchMaterialDeps(em.tvSeq, em.monsterNo);
      if deps.Err? {
        return Fail(deps.error);
      }
      r := LinkEvoMaterial(id, deps.value.0, deps.value.1);
    }

    /** The fetches PgEvolutionMaterial.load makes: the evolution, then the fodder monster. */
    method FetchMaterialDeps(tv: int, no: int) returns (r: Result<(bool, bool)>)
      requires MonsterInv() && EvoInv()
      modifies this`loaded, this`loadedMonsters, this`monsters, this`infos, this`skills, this`series, this`evolutions
      ensures Grows() && evolutions.Keys == old(evolutions.Keys) && Wires() == old(Wires())
      ensures r.Err? ==> LoadRaises(old(Wires()))
      ensures r.Ok? ==>
                MonsterInv() && EvoInv()
                && (r.value.0 <==> tv in evolutions) && (r.value.0 ==> Key(KEvolution, tv) in loaded)
                && (r.value.1 <==> no in monsters) && (r.value.1 ==> no in loadedMonsters)
    {
      var ev := FetchEvolution(tv);
      if ev.Err? {
        return Err(ev.error);
      }
      var fodder := GetMonster(no);
      if fodder.Err? {
        return Err(fodder.error);
      }
      return Ok((ev.value, fodder.value));
    }

    /** `getEvolutionMaterial(id)` with `_ensure_loaded`. */
    method FetchEvoMaterial(id: int) returns (r: Result<bool>)
      requires MonsterInv() && EvoInv()
      modifies this`loaded, this`loadedMonsters, this`monsters, this`infos, this`skills, this`series, this`evolutions, this`evoMaterials
      ensures Grows() && evolutions.Keys == old(evolutions.Keys) && evoMaterials.Keys == old(evoMaterials.Keys)
      ensures Wires() == old(Wires()) && (r.Ok? ==> EvoInv())
      ensures r.Err? ==> LoadRaises(old(Wires()))
      ensures r.Ok? ==> MonsterInv() && (r.value <==> id in evoMaterials) && (r.value ==> Key(KEvoMaterial, id) in loaded)
      ensures !(id in old(evoMaterials) && Key(KEvoMaterial, id) !in old(loaded)) ==> r.Ok? && unchanged(this)
    {
      if id !in evoMaterials || Key(KEvoMaterial, id) in loaded {
        return Ok(id in evoMaterials);
      }
      loaded := loaded + {Key(KEvoMaterial, id)};
      var o := LoadEvoMaterial(id);
      r := if o.Pass? then Ok(true) else Err(o.error);
    }

    // ------------------------------------------------------------- skill rotations

    /** PgSkillRotation.load: fetch the monster and record it. */
    method LoadRotation(id: int) returns (r: Outcome)
      requires MonsterInv() && id in rotations
      modifies this`loaded, this`loadedMonsters, this`monsters, this`infos, this`skills, this`series, this`rotations
      ensures Grows() && rotations.Keys == old(rotations.Keys) && Wires() == old(Wires()) && EvoMarksKept()
      ensures r.Fail? ==> LoadRaises(old(Wires()))
      ensures r.Pass? ==>
                MonsterInv()
                && rotations == old(rotations)[id := old(rotations[id]).(monster := Lookup(monsters.Keys, Some(old(rotations[id].row.monsterNo))))]
    {
      var m := GetMonster(rotations[id].row.monsterNo);
      if m.Err? {
        return Fail(m.error);
      }
      rotations := rotations[id := rotations[id].(monster := if m.value then Some(rotations[id].row.monsterNo) else None)];
      return Pass;
    }

    /** `getSkillRotation(id)` with `_ensure_loaded`. */
    method FetchRotation(id: int) returns (r: Result<bool>)
      requires MonsterInv()
      modifies this`loaded, this`loadedMonsters, this`monsters, this`infos, this`skills, this`series, this`rotations
      ensures Grows() && rotations.Keys == old(rotations.Keys) && Wires() == old(Wires()) && EvoMarksKept()
      ensures r.Err? ==> LoadRaises(old(Wires()))
      ensures r.Ok? ==> MonsterInv() && (r.value <==> id in rotations) && (r.value ==> Key(KRotation, id) in loaded)
      ensures !(id in old(rotations) && Key(KRotation, id) !in old(loaded)) ==> r.Ok? && unchanged(this)
    {
      if id !in rotations || Key(KRotation, id) in loaded {
        return Ok(id in rotations);
      }
      loaded := loaded + {Key(KRotation, id)};
      var o := LoadRotation(id);
      r := if o.Pass? then Ok(true) else Err(o.error);
    }

    /** PgSkillRotationDated.load: fetch the skill and the rotation and record them. */
    method LoadDatedRotation(id: int) returns (r: Outcome)
      requires MonsterInv() && id in datedRotations
      modifies this`loaded, this`loadedMonsters, this`monsters, this`infos, this`skills, this`series, this`rotations, this`datedRotations
      ensures Grows() && rotations.Keys == old(rotations.Keys) && datedRotations.Keys == old(datedRotations.Keys)
      ensures Wires() == old(Wires()) && EvoMarksKept()
      ensures r.Fail? ==> LoadRaises(old(Wires()))
      ensures r.Pass? ==>
                var d := old(datedRotations[id]);
                MonsterInv()
                && datedRotations == old(datedRotations)[id := d.(skill := Lookup(skills.Keys, Some(d.row.tsSeq)),
                                                                  skillRotation := Lookup(rotations.Keys, Some(d.row.tsrSeq)))]
    {
      var d := datedRotations[id];
      var skill, rot := FetchDatedDeps(d.row.tsSeq, d.row.tsrSeq);
      if rot.Err? {
        return Fail(rot.error);
      }
      datedRotations := datedRotations[id := d.(skill := skill, skillRotation := if rot.value then Some(d.row.tsrSeq) else None)];
      return Pass;
    }

    /** The fetches PgSkillRotationDated.load makes: the skill, then the rotation. */
    method FetchDatedDeps(ts: int, tsr: int) returns (skill: Option<int>, rot: Result<bool>)
      requires MonsterInv()
      modifies this`loaded, this`loadedMonsters, this`monsters, this`infos, this`skills, this`series, this`rotations
      ensures Grows() && rotations.Keys == old(rotations.Keys) && Wires() == old(Wires()) && EvoMarksKept()
      ensures skill == Lookup(skills.Keys, Some(ts))
      ensures rot.Err? ==> LoadRaises(old(Wires()))
      ensures rot.Ok? ==> MonsterInv() && (rot.value <==> tsr in rotations)
    {
      skill := FetchLeaf(KSkill, Some(ts));
      rot := FetchRotation(tsr);
    }

    /** `getSkillRotationDated(id)` with `_ensure_loaded`. */
    method FetchDatedRotation(id: int) returns (r: Result<bool>)
      requires MonsterInv()
      modifies this`loaded, this`loadedMonsters, this`monsters, this`infos, this`skills, this`series, this`rotations, this`datedRotations
      ensures Grows() && rotations.Keys == old(rotations.Keys) && datedRotations.Keys == old(datedRotations.Keys)
      ensures Wires() == old(Wires()) && EvoMarksKept()
      ensures r.Err? ==> LoadRaises(old(Wires()))
      ensures r.Ok? ==> MonsterInv() && (r.value <==> id in datedRotations) && (r.value ==> Key(KDatedRotation, id) in loaded)
      ensures !(id in old(datedRotations) && Key(KDatedRotation, id) !in old(loaded)) ==> r.Ok? && unchanged(this)
    {
      if id !in datedRotations || Key(KDatedRotation, id) in loaded {
        return Ok(id in datedRotations);
      }
      loaded := loaded + {Key(KDatedRotation, id)};
      var o := LoadDatedRotation(id);
      r := if o.Pass? then Ok(true) else Err(o.error);
    }

    // ------------------------------------------------------------- the ensure pass

    /**
     * `_ensure_loaded` on a monster or an awakening: an item already loaded is
     * left alone, a monster's fetch fails exactly when it cannot be linked, and
     * any failure comes from a record whose load raises.
     */
    method EnsureMonsterSide(k: Key) returns (r: Outcome)
      requires MonsterInv() && EvoInv() && (k.kind == KMonster || k.kind == KAwakening)
      modifies this`loaded, this`loadedMonsters, this`monsters, this`infos, this`skills, this`series, this`awakenings, this`dungeonMonsters, this`drops, this`evolutions, this`evoMaterials, this`rotations, this`datedRotations
      ensures StepKept()
      ensures r.Pass? ==> MonsterInv() && EvoInv() && (k.id in old(KeysOf(k.kind)) ==> IsLoaded(k))
      ensures r.Fail? ==> LoadRaises(old(Wires()))
      ensures old(IsLoaded(k)) ==> r.Pass? && unchanged(this)
      ensures k.kind == KMonster && k.id in old(monsters) ==> (r.Fail? <==> !old(IsLoaded(k)) && old(Linked(k.id)).Err?)
    {
      var x: Result<bool>;
      if k.kind == KMonster {
        x := GetMonster(k.id);
      } else {
        x := FetchAwakening(k.id);
        EvoInvKept();
      }
      StepKeptMeans();
      r := if x.Ok? then Pass else Fail(x.error);
    }

    /**
     * `_ensure_loaded` on a dungeon monster or a drop: an item already loaded
     * is left alone, and any failure comes from a record whose load raises.
     */
    method EnsureDungeonSide(k: Key) returns (r: Outcome)
      requires MonsterInv() && EvoInv() && (k.kind == KDungeonMonster || k.kind == KDrop)
      modifies this`loaded, this`loadedMonsters, this`monsters, this`infos, this`skills, this`series, this`awakenings, this`dungeonMonsters, this`drops, this`evolutions, this`evoMaterials, this`rotations, this`datedRotations
      ensures StepKept()
      ensures r.Pass? ==> MonsterInv() && EvoInv() && (k.id in old(KeysOf(k.kind)) ==> IsLoaded(k))
      ensures r.Fail? ==> LoadRaises(old(Wires()))
      ensures old(IsLoaded(k)) ==> r.Pass? && unchanged(this)
    {
      var x: Result<bool>;
      if k.kind == KDungeonMonster {
        x := FetchDungeonMonster(k.id);
        EvoInvKept();
      } else {
        x := FetchDrop(k.id);
        EvoInvKept();
      }
      StepKeptMeans();
      r := if x.Ok? then Pass else Fail(x.error);
    }

    /**
     * `_ensure_loaded` on an evolution or an evolution material: an item
     * already loaded is left alone, and any failure comes from a record whose
     * load raises.
     */
    method EnsureEvoSide(k: Key) returns (r: Outcome)
      requires MonsterInv() && EvoInv() && (k.kind == KEvolution || k.kind == KEvoMaterial)
      modifies this`loaded, this`loadedMonsters, this`monsters, this`infos, this`skills, this`series, this`awakenings, this`dungeonMonsters, this`drops, this`evolutions, this`evoMaterials, this`rotations, this`datedRotations
      ensures StepKept()
      ensures r.Pass? ==> MonsterInv() && EvoInv() && (k.id in old(KeysOf(k.kind)) ==> IsLoaded(k))
      ensures r.Fail? ==> LoadRaises(old(Wires()))
      ensures old(IsLoaded(k)) ==> r.Pass? && unchanged(this)
    {
      var x: Result<bool>;
      if k.kind == KEvolution {
        x := FetchEvolution(k.id);
      } else {
        x := FetchEvoMaterial(k.id);
      }
      StepKeptMeans();
      r := if x.Ok? then Pass else Fail(x.error);
    }

    /**
     * `_ensure_loaded` on a skill rotation or a dated rotation: an item already
     * loaded is left alone, and any failure comes from a record whose load
     * raises.
     */
    method EnsureRotationSide(k: Key) returns (r: Outcome)
      requires MonsterInv() && EvoInv() && (k.kind == KRotation || k.kind == KDatedRotation)
      modifies this`loaded, this`loadedMonsters, this`monsters, this`infos, this`skills, this`series, this`awakenings, this`dungeonMonsters, this`drops, this`evolutions, this`evoMaterials, this`rotations, this`datedRotations
      ensures StepKept()
      ensures r.Pass? ==> MonsterInv() && EvoInv() && (k.id in old(KeysOf(k.kind)) ==> IsLoaded(k))
      ensures r.Fail? ==> LoadRaises(old(Wires()))
      ensures old(IsLoaded(k)) ==> r.Pass? && unchanged(this)
    {
      var x: Result<bool>;
      if k.kind == KRotation {
        x := FetchRotation(k.id);
        EvoInvKept();
      } else {
        x := FetchDatedRotation(k.id);
        EvoInvKept();
      }
      StepKeptMeans();
      r := if x.Ok? then Pass else Fail(x.error);
    }

    /** `_ensure_loaded` on a monster info: its `load` fetches its series and never fails. */
    method EnsureInfo(no: int)
      requires MonsterInv() && EvoInv()
      modifies this`loaded, this`infos
      ensures StepKept() && EvoInv() && MonsterInv()
      ensures no in old(infos) ==> Key(KInfo, no) in loaded
      ensures Key(KInfo, no) in old(loaded) ==> unchanged(this)
    {
      var _ := FetchInfo(no);
      EvoInvKept();
    }

    /** `_ensure_loaded` on a record whose `load` does nothing: the flag is set and nothing fails. */
    method EnsureLeaf(k: Key)
      requires MonsterInv() && EvoInv() && IsLeaf(k.kind)
      modifies this`loaded
      ensures StepKept() && EvoInv() && MonsterInv()
      ensures k.id in old(KeysOf(k.kind)) ==> IsLoaded(k)
      ensures old(IsLoaded(k)) ==> unchanged(this)
    {
      assert KeysOf(k.kind) == LeafIds(k.kind);
      var _ := FetchLeaf(k.kind, Some(k.id));
      EvoInvKept();
    }

    /**
     * `_ensure_loaded(item)` for the item `k` names: an item that is loaded
     * already is left alone, a leaf or a monster info never fails, a monster
     * fails exactly when it cannot be linked, and any failure comes from a
     * record whose load raises.
     */
    method EnsureLoaded(k: Key) returns (r: Outcome)
      requires MonsterInv() && EvoInv() && k.id in KeysOf(k.kind)
      modifies this`loaded, this`loadedMonsters, this`monsters, this`infos, this`skills, this`series, this`awakenings, this`dungeonMonsters, this`drops, this`evolutions, this`evoMaterials, this`rotations, this`datedRotations
      ensures StepKept()
      ensures r.Pass? ==> MonsterInv() && EvoInv() && IsLoaded(k)
      ensures r.Fail? ==> LoadRaises(old(Wires()))
      ensures old(IsLoaded(k)) ==> r.Pass? && unchanged(this)
      ensures IsLeaf(k.kind) || k.kind == KInfo ==> r.Pass?
      ensures k.kind == KMonster ==> (r.Fail? <==> !old(IsLoaded(k)) && old(Linked(k.id)).Err?)
    {
      match k.kind
      case KMonster | KAwakening =>
        assert !IsLeaf(k.kind) && k.kind != KInfo;
        r := EnsureMonsterSide(k);
      case KDungeonMonster | KDrop =>
        assert !IsLeaf(k.kind) && k.kind != KInfo;
        r := EnsureDungeonSide(k);
      case KEvolution | KEvoMaterial =>
        assert !IsLeaf(k.kind) && k.kind != KInfo;
        r := EnsureEvoSide(k);
      case KRotation | KDatedRotation =>
        assert !IsLeaf(k.kind) && k.kind != KInfo;
        r := EnsureRotationSide(k);
      case KInfo =>
        EnsureInfo(k.id);
        r := Pass;
      case KAttribute | KDungeon | KAddInfo | KPrice | KSeries | KLeaderData | KSkill | KType =>
        EnsureLeaf(k);
        r := Pass;
    }

    /** The tables whose ids a load keeps also keep `KeysOf`. */
    twostate lemma KeysOfKept(kind: Kind)
      requires StepKept()
      requires unchanged(this`attributes, this`dungeons, this`addInfos, this`prices, this`leaderData, this`types)
      ensures KeysOf(kind) == old(KeysOf(kind))
    {
      StepKeptMeans();
    }

    /** One step of the ensure pass: `_ensure_loaded` on the item `k` names, if its table holds it. */
    method EnsureItem(k: Key) returns (r: Outcome)
      requires MonsterInv() && EvoInv()
      modifies this`loaded, this`loadedMonsters, this`monsters, this`infos, this`skills, this`series, this`awakenings, this`dungeonMonsters, this`drops, this`evolutions, this`evoMaterials, this`rotations, this`datedRotations
      ensures StepKept()
      ensures r.Pass? ==> MonsterInv() && EvoInv() && (k.id in old(KeysOf(k.kind)) ==> IsLoaded(k))
      ensures r.Fail? ==> LoadRaises(old(Wires()))
      ensures k.id !in old(KeysOf(k.kind)) || old(IsLoaded(k)) ==> r.Pass? && unchanged(this)
      ensures IsLeaf(k.kind) || k.kind == KInfo ==> r.Pass?
      ensures forall kind :: KeysOf(kind) == old(KeysOf(kind))
    {
      r := Pass;
      if k.id in KeysOf(k.kind) {
        r := EnsureLoaded(k);
      }
      forall kind ensures KeysOf(kind) == old(KeysOf(kind)) {
        KeysOfKept(kind);
      }
    }

    /**
     * `for i in self._all_pg_items: self._ensure_loaded(i)`: afterwards every
     * item has run its `load`; the first load that raises ends the pass.
     */
    method EnsureAll() returns (r: Outcome)
      requires MonsterInv() && EvoInv()
      modifies this`loaded, this`loadedMonsters, this`monsters, this`infos, this`skills, this`series, this`awakenings, this`dungeonMonsters, this`drops, this`evolutions, this`evoMaterials, this`rotations, this`datedRotations
      ensures StepKept()
      ensures r.Pass? ==> MonsterInv() && forall k :: k in allItems && k.id in KeysOf(k.kind) ==> IsLoaded(k)
      ensures r.Fail? ==> LoadRaises(old(Wires()))
    {
      var i := 0;
      ghost var m0 := Marked();
      while i < |allItems|
        invariant 0 <= i <= |allItems|
        invariant MonsterInv() && EvoInv() && Kept(m0, Marked()) && LoadedBefore(i)
      {
        r := EnsureNext(i, m0);
        if r.Fail? {
          return;
        }
        i := i + 1;
      }
      r := Pass;
    }

    /** The items of `_all_pg_items` before position `i` that their tables hold have run their load. */
    ghost predicate LoadedBefore(i: int)
      requires 0 <= i <= |allItems|
      reads this`allItems, this`loaded, this`loadedMonsters, this`attributes, this`awakenings, this`dungeons,
            this`drops, this`dungeonMonsters, this`evolutions, this`evoMaterials, this`monsters, this`addInfos,
            this`infos, this`prices, this`series, this`leaderData, this`skills, this`rotations,
            this`datedRotations, this`types
    {
      forall j :: 0 <= j < i && allItems[j].id in KeysOf(allItems[j].kind) ==> IsLoaded(allItems[j])
    }

    /** One step of the ensure pass: the item at `i` joins the loaded ones, or its load raises. */
    method EnsureNext(i: int, ghost m0: Marks) returns (r: Outcome)
      requires 0 <= i < |allItems|
      requires MonsterInv() && EvoInv() && Kept(m0, Marked()) && LoadedBefore(i)
      modifies this`loaded, this`loadedMonsters, this`monsters, this`infos, this`skills, this`series, this`awakenings, this`dungeonMonsters, this`drops, this`evolutions, this`evoMaterials, this`rotations, this`datedRotations
      ensures Kept(m0, Marked())
      ensures r.Pass? ==> MonsterInv() && EvoInv() && LoadedBefore(i + 1)
      ensures r.Fail? ==> LoadRaises(m0.wires)
    {
      ghost var before := Marked();
      r := EnsureItem(allItems[i]);
      KeptTrans(m0, before, Marked());
    }

    /**
     * `for i in self._all_pg_items: i.finalize()`: only monsters finalize
     * anything, and `finalize` sets only the two farmable flags, so
     * `is_inheritable` keeps the value `load` gave it.  A monster listed twice
     * is finalized twice, which does not differ from once.
     */
    method FinalizeAll()
      modifies this`monsters
      ensures monsters.Keys == old(monsters.Keys)
      ensures forall no :: no in monsters ==>
                monsters[no] == if Key(KMonster, no) in allItems then Finalized(old(monsters[no])) else old(monsters[no])
    {
      var i := 0;
      while i < |allItems|
        invariant 0 <= i <= |allItems|
        invariant monsters.Keys == old(monsters.Keys)
        invariant forall no :: no in monsters ==>
                    monsters[no] == if Key(KMonster, no) in allItems[..i] then Finalized(old(monsters[no])) else old(monsters[no])
      {
        var k := allItems[i];
        if k.kind == KMonster && k.id in monsters {
          FinalizedIdempotent(old(monsters[k.id]));
          monsters := monsters[k.id := Finalized(monsters[k.id])];
        }
        assert allItems[..i + 1] == allItems[..i] + [k];
        i := i + 1;
      }
      assert allItems[..i] == allItems;
    }

    /** The first loop of `MonsterGroup._initialize_members`: the OR of each acquisition flag over the members. */
    method GroupFlags(members: seq<int>) returns (farmableEvo: bool, pemEvo: bool, remEvo: bool, mpEvo: bool)
      requires forall x :: x in members ==> x in monsters
      ensures farmableEvo == AnyFlag(monsters, members, Farmable) && pemEvo == AnyFlag(monsters, members, InPem)
      ensures remEvo == AnyFlag(monsters, members, InRem) && mpEvo == AnyFlag(monsters, members, InMpShop)
    {
      farmableEvo, pemEvo, remEvo, mpEvo := false, false, false, false;
      var i := 0;
      while i < |members|
        invariant 0 <= i <= |members|
        invariant farmableEvo == AnyFlag(monsters, members[..i], Farmable) && pemEvo == AnyFlag(monsters, members[..i], InPem)
        invariant remEvo == AnyFlag(monsters, members[..i], InRem) && mpEvo == AnyFlag(monsters, members[..i], InMpShop)
      {
        var no := members[i];
        assert no in members;
        var m := monsters[no];
        AnyFlagSnoc(monsters, members, i, Farmable);
        AnyFlagSnoc(monsters, members, i, InPem);
        AnyFlagSnoc(monsters, members, i, InRem);
        AnyFlagSnoc(monsters, members, i, InMpShop);
        farmableEvo := farmableEvo || m.flags.farmable;
        pemEvo := pemEvo || m.links.inPem;
        remEvo := remEvo || m.links.inRem;
        mpEvo := mpEvo || m.links.inMpshop;
        i := i + 1;
      }
      assert members[..i] == members;
    }

    /** The second loop of `MonsterGroup._initialize_members`: write the four flags into every member. */
    method SetEvoFlags(members: seq<int>, farmableEvo: bool, pemEvo: bool, remEvo: bool, mpEvo: bool)
      requires forall x :: x in members ==> x in monsters
      modifies this`monsters
      ensures monsters.Keys == old(monsters.Keys)
      ensures forall no :: no in monsters ==>
                monsters[no] == if no in members then WithEvoFlags(old(monsters[no]), farmableEvo, pemEvo, remEvo, mpEvo)
                                else old(monsters[no])
    {
      var i := 0;
      assert members[..0] == [];
      while i < |members|
        invariant 0 <= i <= |members|
        invariant monsters.Keys == old(monsters.Keys)
        invariant forall no :: no in monsters ==>
                    monsters[no] == if no in members[..i] then WithEvoFlags(old(monsters[no]), farmableEvo, pemEvo, remEvo, mpEvo)
                                    else old(monsters[no])
      {
        var no := members[i];
        monsters := monsters[no := WithEvoFlags(monsters[no], farmableEvo, pemEvo, remEvo, mpEvo)];
        assert members[..i + 1] == members[..i] + [no];
        i := i + 1;
      }
      assert members[..i] == members;
    }

    /**
     * `MonsterGroup._initialize_members`: every member's `*_evo` flags become
     * the group's ORs.
     */
    method InitializeMembers(members: seq<int>)
      requires forall x :: x in members ==> x in monsters
      modifies this`monsters
      ensures monsters.Keys == old(monsters.Keys)
      ensures forall no :: no in monsters ==>
                monsters[no] == if no in members then Broadcast(old(monsters[no]), old(monsters), members) else old(monsters[no])
    {
      var farmableEvo, pemEvo, remEvo, mpEvo := GroupFlags(members);
      SetEvoFlags(members, farmableEvo, pemEvo, remEvo, mpEvo);
    }

    /** `grouped_monsters.append(MonsterGroup(base))`; the walk fails on an evolution cycle. */
    method AddGroup(ghost ms0: map<int, MonsterRec>, base: int) returns (r: Outcome)
      requires monsters == GroupedRecords(ms0, groupedMonsters)
      modifies this`monsters, this`groupedMonsters
      ensures r.Pass? <==> Preorder(EvoGraph(ms0), base, {}).Some?
      ensures r.Fail? ==> monsters == old(monsters)
      ensures r.Pass? ==> groupedMonsters == old(groupedMonsters) + [Preorder(EvoGraph(ms0), base, {}).value]
                          && monsters == GroupedRecords(ms0, groupedMonsters)
    {
      GroupedRecordsShape(ms0, groupedMonsters);
      EvoGraphStable(ms0, monsters);
      var walk := RecursiveAdd(EvoGraph(monsters), base, {}, []);
      if walk.None? {
        return Fail("RecursionError: evolution cycle");
      }
      var members := walk.value;
      assert members == [] + Preorder(EvoGraph(ms0), base, {}).value;
      assert members == Preorder(EvoGraph(ms0), base, {}).value;
      ghost var prev := monsters;
      InitializeMembers(members);
      var gm := groupedMonsters + [members];
      assert gm[..|gm| - 1] == groupedMonsters;
      forall no | no in monsters
        ensures monsters[no] == GroupedRecords(ms0, gm)[no]
      {
        if no in members {
          BroadcastStable(prev[no], ms0[no], ms0, prev, members);
        }
      }
      groupedMonsters := gm;
      r := Pass;
    }

    /**
     * The group-building loop of `PgRawDatabase.__init__`: one MonsterGroup per
     * Base monster, in the order the monster map yields them.
     */
    method BuildGroups() returns (r: Outcome)
      modifies this`monsters, this`groupedMonsters
      ensures r.Pass? ==> GroupWalks(EvoGraph(old(monsters)), BaseMonsters(monsterOrder, old(monsters))) == Some(groupedMonsters)
                          && monsters == GroupedRecords(old(monsters), groupedMonsters)
      ensures r.Fail? <==> EvoCycle(monsterOrder, old(monsters))
      ensures RefsKept(old(monsters), monsters)
    {
      ghost var ms0 := monsters;
      groupedMonsters := [];
      var i := 0;
      while i < |monsterOrder|
        invariant 0 <= i <= |monsterOrder|
        invariant monsters == GroupedRecords(ms0, groupedMonsters)
        invariant GroupWalks(EvoGraph(ms0), BaseMonsters(monsterOrder[..i], ms0)) == Some(groupedMonsters)
      {
        GroupedRecordsShape(ms0, groupedMonsters);
        var no := monsterOrder[i];
        ghost var bases := BaseMonsters(monsterOrder[..i], ms0);
        BaseMonstersStep(monsterOrder, i, ms0);
        if no in monsters {
          GroupedRecordsRefs(ms0, groupedMonsters, no);
        }
        if no in monsters && monsters[no].refs.curEvoType == Base {
          assert BaseMonsters(monsterOrder[..i + 1], ms0) == bases + [no];
          GroupWalksStep(EvoGraph(ms0), bases, no);
          r := AddGroup(ms0, no);
          if r.Fail? {
            BaseMonstersMembers(monsterOrder, ms0);
            return;
          }
        } else {
          assert BaseMonsters(monsterOrder[..i + 1], ms0) == bases + [];
          assert bases + [] == bases;
        }
        i := i + 1;
      }
      assert monsterOrder[..i] == monsterOrder;
      GroupedRecordsShape(ms0, groupedMonsters);
      NoCycleIff(monsterOrder, ms0);
      r := Pass;
    }

    /** The fields the `_load` lines assign. */
    function Snapshot(): Store
      reads this`attributes, this`awakenings, this`dungeons, this`drops, this`dungeonMonsters,
            this`evolutions, this`evoMaterials, this`monsters, this`addInfos, this`infos, this`prices,
            this`series, this`leaderData, this`skills, this`rotations, this`datedRotations, this`types,
            this`monsterOrder, this`allItems
    {
      Store(attributes, awakenings, dungeons, drops, dungeonMonsters, evolutions, evoMaterials, monsters, addInfos,
            infos, prices, series, leaderData, skills, rotations, datedRotations, types, monsterOrder, allItems)
    }

    // `self._x_map = self._load(PgX)`, one table each: the table becomes the
    // live items and their keys are appended to `_all_pg_items`.

    method LoadAttributes(l: Loads) returns (r: Outcome)
      modifies this`attributes, this`allItems
      ensures r.Pass? <==> l.attributes.Ok?
      ensures r.Pass? ==> AttributesLine(l, old(Snapshot())) == Ok(Snapshot())
    {
      if l.attributes.Err? {
        return Fail(l.attributes.error);
      }
      attributes, allItems := l.attributes.value.items, allItems + KeysFor(KAttribute, l.attributes.value.order);
      r := Pass;
    }

    method LoadAwakenings(l: Loads) returns (r: Outcome)
      modifies this`awakenings, this`allItems
      ensures r.Pass? <==> l.awakenings.Ok?
      ensures r.Pass? ==> AwakeningsLine(l, old(Snapshot())) == Ok(Snapshot())
    {
      if l.awakenings.Err? {
        return Fail(l.awakenings.error);
      }
      awakenings, allItems := l.awakenings.value.items, allItems + KeysFor(KAwakening, l.awakenings.value.order);
      r := Pass;
    }

    method LoadDungeons(l: Loads) returns (r: Outcome)
      modifies this`dungeons, this`allItems
      ensures r.Pass? <==> l.dungeons.Ok?
      ensures r.Pass? ==> DungeonsLine(l, old(Snapshot())) == Ok(Snapshot())
    {
      if l.dungeons.Err? {
        return Fail(l.dungeons.error);
      }
      dungeons, allItems := l.dungeons.value.items, allItems + KeysFor(KDungeon, l.dungeons.value.order);
      r := Pass;
    }

    method LoadDrops(l: Loads) returns (r: Outcome)
      modifies this`drops, this`allItems
      ensures r.Pass? <==> l.drops.Ok?
      ensures r.Pass? ==> DropsLine(l, old(Snapshot())) == Ok(Snapshot())
    {
      if l.drops.Err? {
        return Fail(l.drops.error);
      }
      drops, allItems := l.drops.value.items, allItems + KeysFor(KDrop, l.drops.value.order);
      r := Pass;
    }

    method LoadDungeonMonsters(l: Loads) returns (r: Outcome)
      modifies this`dungeonMonsters, this`allItems
      ensures r.Pass? <==> l.dungeonMonsters.Ok?
      ensures r.Pass? ==> DungeonMonstersLine(l, old(Snapshot())) == Ok(Snapshot())
    {
      if l.dungeonMonsters.Err? {
        return Fail(l.dungeonMonsters.error);
      }
      dungeonMonsters, allItems := l.dungeonMonsters.value.items, allItems + KeysFor(KDungeonMonster, l.dungeonMonsters.value.order);
      r := Pass;
    }

    method LoadEvolutions(l: Loads) returns (r: Outcome)
      modifies this`evolutions, this`allItems
      ensures r.Pass? <==> l.evolutions.Ok?
      ensures r.Pass? ==> EvolutionsLine(l, old(Snapshot())) == Ok(Snapshot())
    {
      if l.evolutions.Err? {
        return Fail(l.evolutions.error);
      }
      evolutions, allItems := l.evolutions.value.items, allItems + KeysFor(KEvolution, l.evolutions.value.order);
      r := Pass;
    }

    method LoadEvoMaterials(l: Loads) returns (r: Outcome)
      modifies this`evoMaterials, this`allItems
      ensures r.Pass? <==> l.evoMaterials.Ok?
      ensures r.Pass? ==> EvoMaterialsLine(l, old(Snapshot())) == Ok(Snapshot())
    {
      if l.evoMaterials.Err? {
        return Fail(l.evoMaterials.error);
      }
      evoMaterials, allItems := l.evoMaterials.value.items, allItems + KeysFor(KEvoMaterial, l.evoMaterials.value.order);
      r := Pass;
    }

    method LoadMonsters(l: Loads) returns (r: Outcome)
      modifies this`monsters, this`allItems, this`monsterOrder
      ensures r.Pass? <==> l.monsters.Ok?
      ensures r.Pass? ==> MonstersLine(l, old(Snapshot())) == Ok(Snapshot())
    {
      if l.monsters.Err? {
        return Fail(l.monsters.error);
      }
      monsters, monsterOrder, allItems := l.monsters.value.items, l.monsters.value.order, allItems + KeysFor(KMonster, l.monsters.value.order);
      r := Pass;
    }

    method LoadAddInfos(l: Loads) returns (r: Outcome)
      modifies this`addInfos, this`allItems
      ensures r.Pass? <==> l.addInfos.Ok?
      ensures r.Pass? ==> AddInfosLine(l, old(Snapshot())) == Ok(Snapshot())
    {
      if l.addInfos.Err? {
        return Fail(l.addInfos.error);
      }
      addInfos, allItems := l.addInfos.value.items, allItems + KeysFor(KAddInfo, l.addInfos.value.order);
      r := Pass;
    }

    method LoadInfos(l: Loads) returns (r: Outcome)
      modifies this`infos, this`allItems
      ensures r.Pass? <==> l.infos.Ok?
      ensures r.Pass? ==> InfosLine(l, old(Snapshot())) == Ok(Snapshot())
    {
      if l.infos.Err? {
        return Fail(l.infos.error);
      }
      infos, allItems := l.infos.value.items, allItems + KeysFor(KInfo, l.infos.value.order);
      r := Pass;
    }

    method LoadPrices(l: Loads) returns (r: Outcome)
      modifies this`prices, this`allItems
      ensures r.Pass? <==> l.prices.Ok?
      ensures r.Pass? ==> PricesLine(l, old(Snapshot())) == Ok(Snapshot())
    {
      if l.prices.Err? {
        return Fail(l.prices.error);
      }
      prices, allItems := l.prices.value.items, allItems + KeysFor(KPrice, l.prices.value.order);
      r := Pass;
    }

    method LoadSeries(l: Loads) returns (r: Outcome)
      modifies this`series, this`allItems
      ensures r.Pass? <==> l.series.Ok?
      ensures r.Pass? ==> SeriesLine(l, old(Snapshot())) == Ok(Snapshot())
    {
      if l.series.Err? {
        return Fail(l.series.error);
      }
      series, allItems := l.series.value.items, allItems + KeysFor(KSeries, l.series.value.order);
      r := Pass;
    }

    method LoadLeaderData(l: Loads) returns (r: Outcome)
      modifies this`leaderData, this`allItems
      ensures r.Pass? <==> l.leaderData.Ok?
      ensures r.Pass? ==> LeaderDataLine(l, old(Snapshot())) == Ok(Snapshot())
    {
      if l.leaderData.Err? {
        return Fail(l.leaderData.error);
      }
      leaderData, allItems := l.leaderData.value.items, allItems + KeysFor(KLeaderData, l.leaderData.value.order);
      r := Pass;
    }

    method LoadSkills(l: Loads) returns (r: Outcome)
      modifies this`skills, this`allItems
      ensures r.Pass? <==> l.skills.Ok?
      ensures r.Pass? ==> SkillsLine(l, old(Snapshot())) == Ok(Snapshot())
    {
      if l.skills.Err? {
        return Fail(l.skills.error);
      }
      skills, allItems := l.skills.value.items, allItems + KeysFor(KSkill, l.skills.value.order);
      r := Pass;
    }

    method LoadRotations(l: Loads) returns (r: Outcome)
      modifies this`rotations, this`allItems
      ensures r.Pass? <==> l.rotations.Ok?
      ensures r.Pass? ==> RotationsLine(l, old(Snapshot())) == Ok(Snapshot())
    {
      if l.rotations.Err? {
        return Fail(l.rotations.error);
      }
      rotations, allItems := l.rotations.value.items, allItems + KeysFor(KRotation, l.rotations.value.order);
      r := Pass;
    }

    method LoadDatedRotations(l: Loads) returns (r: Outcome)
      modifies this`datedRotations, this`allItems
      ensures r.Pass? <==> l.datedRotations.Ok?
      ensures r.Pass? ==> DatedRotationsLine(l, old(Snapshot())) == Ok(Snapshot())
    {
      if l.datedRotations.Err? {
        return Fail(l.datedRotations.error);
      }
      datedRotations, allItems := l.datedRotations.value.items, allItems + KeysFor(KDatedRotation, l.datedRotations.value.order);
      r := Pass;
    }

    method LoadTypes(l: Loads) returns (r: Outcome)
      modifies this`types, this`allItems
      ensures r.Pass? <==> l.types.Ok?
      ensures r.Pass? ==> TypesLine(l, old(Snapshot())) == Ok(Snapshot())
    {
      if l.types.Err? {
        return Fail(l.types.error);
      }
      types, allItems := l.types.value.items, allItems + KeysFor(KType, l.types.value.order);
      r := Pass;
    }

    /** The `_load` lines from attributes to drops. */
    method LoadAttributesToDrops(l: Loads) returns (r: Outcome)
      modifies this`allItems, this`attributes, this`awakenings, this`dungeons, this`drops
      ensures r.Pass? <==> l.attributes.Ok? && l.awakenings.Ok? && l.dungeons.Ok? && l.drops.Ok?
      ensures r.Pass? ==> Snapshot() == old(Snapshot()).(attributes := l.attributes.value.items, awakenings := l.awakenings.value.items, dungeons := l.dungeons.value.items, drops := l.drops.value.items,
                                                      allItems := old(allItems) + KeysFor(KAttribute, l.attributes.value.order) + KeysFor(KAwakening, l.awakenings.value.order) + KeysFor(KDungeon, l.dungeons.value.order) + KeysFor(KDrop, l.drops.value.order))
    {
      r := LoadAttributes(l);
      if r.Fail? { return; }
      r := LoadAwakenings(l);
      if r.Fail? { return; }
      r := LoadDungeons(l);
      if r.Fail? { return; }
      r := LoadDrops(l);
    }

    /** The `_load` lines from dungeon monsters to monsters. */
    method LoadDungeonMonstersToMonsters(l: Loads) returns (r: Outcome)
      modifies this`allItems, this`dungeonMonsters, this`evolutions, this`evoMaterials, this`monsters, this`monsterOrder
      ensures r.Pass? <==> l.dungeonMonsters.Ok? && l.evolutions.Ok? && l.evoMaterials.Ok? && l.monsters.Ok?
      ensures r.Pass? ==> Snapshot() == old(Snapshot()).(dungeonMonsters := l.dungeonMonsters.value.items, evolutions := l.evolutions.value.items, evoMaterials := l.evoMaterials.value.items, monsters := l.monsters.value.items, monsterOrder := l.monsters.value.order,
                                                      allItems := old(allItems) + KeysFor(KDungeonMonster, l.dungeonMonsters.value.order) + KeysFor(KEvolution, l.evolutions.value.order) + KeysFor(KEvoMaterial, l.evoMaterials.value.order) + KeysFor(KMonster, l.monsters.value.order))
    {
      r := LoadDungeonMonsters(l);
      if r.Fail? { return; }
      r := LoadEvolutions(l);
      if r.Fail? { return; }
      r := LoadEvoMaterials(l);
      if r.Fail? { return; }
      r := LoadMonsters(l);
    }

    /** The `_load` lines from monster add-infos to series. */
    method LoadAddInfosToSeries(l: Loads) returns (r: Outcome)
      modifies this`allItems, this`addInfos, this`infos, this`prices, this`series
      ensures r.Pass? <==> l.addInfos.Ok? && l.infos.Ok? && l.prices.Ok? && l.series.Ok?
      ensures r.Pass? ==> Snapshot() == old(Snapshot()).(addInfos := l.addInfos.value.items, infos := l.infos.value.items, prices := l.prices.value.items, series := l.series.value.items,
                                                      allItems := old(allItems) + KeysFor(KAddInfo, l.addInfos.value.order) + KeysFor(KInfo, l.infos.value.order) + KeysFor(KPrice, l.prices.value.order) + KeysFor(KSeries, l.series.value.order))
    {
      r := LoadAddInfos(l);
      if r.Fail? { return; }
      r := LoadInfos(l);
      if r.Fail? { return; }
      r := LoadPrices(l);
      if r.Fail? { return; }
      r := LoadSeries(l);
    }

    /** The `_load` lines from leader data to types. */
    method LoadLeaderDataToTypes(l: Loads) returns (r: Outcome)
      modifies this`allItems, this`leaderData, this`skills, this`rotations, this`datedRotations, this`types
      ensures r.Pass? <==> l.leaderData.Ok? && l.skills.Ok? && l.rotations.Ok? && l.datedRotations.Ok? && l.types.Ok?
      ensures r.Pass? ==> Snapshot() == old(Snapshot()).(leaderData := l.leaderData.value.items, skills := l.skills.value.items, rotations := l.rotations.value.items, datedRotations := l.datedRotations.value.items, types := l.types.value.items,
                                                      allItems := old(allItems) + KeysFor(KLeaderData, l.leaderData.value.order) + KeysFor(KSkill, l.skills.value.order) + KeysFor(KRotation, l.rotations.value.order) + KeysFor(KDatedRotation, l.datedRotations.value.order) + KeysFor(KType, l.types.value.order))
    {
      r := LoadLeaderData(l);
      if r.Fail? { return; }
      r := LoadSkills(l);
      if r.Fail? { return; }
      r := LoadRotations(l);
      if r.Fail? { return; }
      r := LoadDatedRotations(l);
      if r.Fail? { return; }
      r := LoadTypes(l);
    }

    /**
     * The seventeen `self._x_map = self._load(PgX)` lines of
     * `PgRawDatabase.__init__`.  A constructor that raises aborts `__init__`,
     * so no caller sees the tables filled so far: the lines are run on values
     * and the store they build is assigned at once.
     */
    method LoadRecordTables(l: Loads) returns (r: Outcome)
      requires Sound(l) && Snapshot() == EmptyStore
      modifies this`allItems, this`attributes, this`awakenings, this`dungeons, this`drops, this`dungeonMonsters,
               this`evolutions, this`evoMaterials, this`monsterOrder, this`monsters, this`addInfos, this`infos,
               this`prices, this`series, this`leaderData, this`skills, this`rotations, this`datedRotations, this`types
      ensures r.Pass? <==> AllOk(l)
      ensures r.Pass? ==> Snapshot() == LoadedStore(l)
      ensures r.Pass? ==> forall tv :: tv in evolutions ==> evolutions[tv].toMonster.None?
      ensures r.Pass? ==> forall no :: no in monsters ==> Pristine(monsters[no])
    {
      AllOkTables(l);
      r := LoadAttributesToDrops(l);
      if r.Pass? {
        r := LoadDungeonMonstersToMonsters(l);
      }
      if r.Pass? {
        r := LoadAddInfosToSeries(l);
      }
      if r.Pass? {
        r := LoadLeaderDataToTypes(l);
      }
      if r.Pass? {
        assert [] + KeysFor(KAttribute, l.attributes.value.order) == KeysFor(KAttribute, l.attributes.value.order);
      } else {
        LoadedOk(l);
      }
    }


    /**
     * The state `__init__` starts from: the object is new, so every table is
     * empty and nothing is marked as loaded.
     */
    predicate Unloaded()
      reads this`attributes, this`awakenings, this`dungeons, this`drops, this`dungeonMonsters,
            this`evolutions, this`evoMaterials, this`monsters, this`addInfos, this`infos, this`prices,
            this`series, this`leaderData, this`skills, this`rotations, this`datedRotations, this`types,
            this`monsterOrder, this`allItems, this`loaded, this`loadedMonsters
    {
      Snapshot() == EmptyStore && loaded == {} && loadedMonsters == {}
    }

    /** The loading half of `PgRawDatabase.__init__`: the `_load` lines and the ensure pass. */
    method LoadAndLink(l: Loads) returns (r: Outcome)
      requires Sound(l) && Unloaded()
      modifies this
      ensures r.Pass? ==> AllOk(l) && ShapeOf(Snapshot()) == ShapeOf(LoadedStore(l))
      ensures r.Pass? ==> AllLoaded(ShapeOf(LoadedStore(l)))
      ensures r.Pass? ==> ListedInheritable()
      ensures r.Fail? ==> !AllOk(l) || LoadRaises(WiringOf(LoadedStore(l)))
    {
      r := LoadRecordTables(l);
      if r.Pass? {
        WiresOfSnapshot();
        r := LinkAll();
      }
    }

    /** The wiring is read off the loaded store. */
    lemma WiresOfSnapshot()
      ensures Wires() == WiringOf(Snapshot())
    {
    }

    /** A pass that keeps the ids of every table and changes no other field keeps the loaded store. */
    twostate lemma KeptByLinks()
      requires Grows() && TablesKept()
      requires unchanged(this`attributes, this`dungeons, this`addInfos, this`prices, this`leaderData, this`types,
                         this`monsterOrder, this`allItems)
      ensures ShapeOf(Snapshot()) == old(ShapeOf(Snapshot()))
    {
    }

    lemma KeysOfShape(kind: Kind)
      ensures KeysOf(kind) == IdsOf(ShapeOf(Snapshot()), kind)
    {
    }

    /** The ensure pass over the freshly loaded tables. */
    method LinkAll() returns (r: Outcome)
      requires loaded == {} && loadedMonsters == {}
      requires forall tv :: tv in evolutions ==> evolutions[tv].toMonster.None?
      requires forall no :: no in monsters ==> Pristine(monsters[no])
      modifies this`loaded, this`loadedMonsters, this`monsters, this`infos, this`skills, this`series, this`awakenings, this`dungeonMonsters, this`drops, this`evolutions, this`evoMaterials, this`rotations, this`datedRotations
      ensures r.Pass? ==> ShapeOf(Snapshot()) == old(ShapeOf(Snapshot()))
      ensures r.Pass? ==> forall k :: k in allItems && k.id in IdsOf(ShapeOf(Snapshot()), k.kind) ==> IsLoaded(k)
      ensures r.Pass? ==> ListedInheritable()
      ensures r.Fail? ==> LoadRaises(old(Wires()))
    {
      r := EnsureAll();
      if r.Pass? {
        KeptByLinks();
        forall kind ensures KeysOf(kind) == IdsOf(ShapeOf(Snapshot()), kind) {
          KeysOfShape(kind);
        }
        forall no | no in monsters && Key(KMonster, no) in allItems
          ensures monsters[no].links.isInheritable == AssistForcesInheritable(no)
        {
          assert Key(KMonster, no).id in KeysOf(KMonster);
        }
      }
    }

    /** The rest of `PgRawDatabase.__init__`: the finalize pass, the evolution groups and the NA-number index. */
    method FinishLoad() returns (r: Outcome)
      modifies this`monsters, this`groupedMonsters, this`monsterNoNaToMonsterNo
      ensures r.Fail? <==> EvoCycle(monsterOrder, old(monsters))
      ensures RefsKept(old(monsters), monsters)
      ensures r.Pass? ==> monsters.Keys == old(monsters.Keys)
      ensures r.Pass? ==> GroupWalks(EvoGraph(monsters), BaseMonsters(monsterOrder, monsters)) == Some(groupedMonsters)
      ensures r.Pass? ==> forall no, j, f :: no in monsters && LastGroupOf(groupedMonsters, j, no) ==>
                            EvoFlagOf(monsters[no], f) == AnyFlag(monsters, groupedMonsters[j], f)
      ensures r.Pass? ==> monsterNoNaToMonsterNo == NaToNo(monsterOrder, monsters)
      ensures r.Pass? ==> forall no :: no in monsters ==>
                            monsters[no].links == old(monsters[no].links) && monsters[no].refs == old(monsters[no].refs)
                            && monsters[no].row == old(monsters[no].row)
      ensures r.Pass? ==> forall no :: no in monsters ==>
                            monsters[no].flags.farmable == if Key(KMonster, no) in allItems then |monsters[no].refs.dropDungeons| > 0
                                                           else old(monsters[no].flags.farmable)
      ensures r.Pass? ==> forall no :: no in monsters && Key(KMonster, no) in allItems && NoGroupOf(groupedMonsters, no) ==>
                            monsters[no].flags.farmableEvo == monsters[no].flags.farmable
    {
      r := FinalizeAndGroup();
      if r.Fail? {
        return;
      }
      monsterNoNaToMonsterNo := NaToNo(monsterOrder, monsters);
    }

    /**
     * What `__init__` leaves after the finalize pass: the groups are the
     * preorder walks from the base monsters, every monster in a group carries
     * the group's flags, the NA-number index, and each listed monster's
     * farmable and inheritable flags.
     */
    ghost predicate Finished(r: Outcome)
      reads this`monsters, this`monsterOrder, this`groupedMonsters, this`monsterNoNaToMonsterNo, this`allItems, this`addInfos
    {
      match r
      case Fail(_) => true
      case Pass =>
        GroupWalks(EvoGraph(monsters), BaseMonsters(monsterOrder, monsters)) == Some(groupedMonsters)
        && (forall no, j, f :: no in monsters && LastGroupOf(groupedMonsters, j, no) ==>
              EvoFlagOf(monsters[no], f) == AnyFlag(monsters, groupedMonsters[j], f))
        && monsterNoNaToMonsterNo == NaToNo(monsterOrder, monsters)
        && (forall no :: no in monsters && Key(KMonster, no) in allItems ==>
              (monsters[no].flags.farmable <==> |monsters[no].refs.dropDungeons| > 0)
              && (monsters[no].links.isInheritable <==> AssistForcesInheritable(no)))
        && (forall no :: no in monsters && Key(KMonster, no) in allItems && NoGroupOf(groupedMonsters, no) ==>
              monsters[no].flags.farmableEvo == monsters[no].flags.farmable)
    }

    /** `FinishLoad`, which keeps the shape of the store. */
    method Finish() returns (r: Outcome)
      requires ListedInheritable()
      modifies this`monsters, this`groupedMonsters, this`monsterNoNaToMonsterNo
      ensures r.Fail? <==> EvoCycle(monsterOrder, old(monsters))
      ensures r.Fail? <==> EvoCycle(monsterOrder, monsters)
      ensures r.Pass? ==> ShapeOf(Snapshot()) == old(ShapeOf(Snapshot()))
      ensures Finished(r)
    {
      r := FinishLoad();
      EvoCycleStable(monsterOrder, old(monsters), monsters);
      if r.Pass? {
        ShapeKeptByFinish();
      }
    }

    /** The finalize pass followed by the group-building loop. */
    method FinalizeAndGroup() returns (r: Outcome)
      modifies this`monsters, this`groupedMonsters
      ensures r.Fail? <==> EvoCycle(monsterOrder, old(monsters))
      ensures RefsKept(old(monsters), monsters)
      ensures r.Pass? ==> monsters.Keys == old(monsters.Keys)
      ensures r.Pass? ==> GroupWalks(EvoGraph(monsters), BaseMonsters(monsterOrder, monsters)) == Some(groupedMonsters)
      ensures r.Pass? ==> forall no, j, f :: no in monsters && LastGroupOf(groupedMonsters, j, no) ==>
                            EvoFlagOf(monsters[no], f) == AnyFlag(monsters, groupedMonsters[j], f)
      ensures r.Pass? ==> forall no :: no in monsters ==>
                            monsters[no].links == old(monsters[no].links) && monsters[no].refs == old(monsters[no].refs)
                            && monsters[no].row == old(monsters[no].row)
      ensures r.Pass? ==> forall no :: no in monsters ==>
                            monsters[no].flags.farmable == if Key(KMonster, no) in allItems then |monsters[no].refs.dropDungeons| > 0
                                                           else old(monsters[no].flags.farmable)
      ensures r.Pass? ==> forall no :: no in monsters && Key(KMonster, no) in allItems && NoGroupOf(groupedMonsters, no) ==>
                            monsters[no].flags.farmableEvo == monsters[no].flags.farmable
    {
      FinalizeAll();
      ghost var finished := monsters;
      assert RefsKept(old(monsters), finished);
      EvoCycleStable(monsterOrder, old(monsters), finished);
      r := BuildGroups();
      assert RefsKept(old(monsters), monsters);
      if r.Fail? {
        return;
      }
      FinalizedGrouped(old(monsters), finished, groupedMonsters, allItems);
      GroupedRecordsShape(finished, groupedMonsters);
      EvoGraphStable(finished, monsters);
      BaseMonstersStable(monsterOrder, finished, monsters);
      forall no, j, f | no in monsters && LastGroupOf(groupedMonsters, j, no)
        ensures EvoFlagOf(monsters[no], f) == AnyFlag(monsters, groupedMonsters[j], f)
      {
        GroupedFlags(finished, groupedMonsters, no, j, f);
      }
    }

    /** Changing the monster records but not their ids, and no other table, keeps the shape. */
    twostate lemma ShapeKeptByFinish()
      requires monsters.Keys == old(monsters.Keys)
      requires unchanged(this`attributes, this`awakenings, this`dungeons, this`drops, this`dungeonMonsters, this`evolutions,
                         this`evoMaterials, this`addInfos, this`infos, this`prices, this`series, this`leaderData,
                         this`skills, this`rotations, this`datedRotations, this`types, this`monsterOrder, this`allItems)
      ensures ShapeOf(Snapshot()) == old(ShapeOf(Snapshot()))
    {
    }

    /** A pass that leaves `_all_pg_items` and the loaded marks alone keeps them all loaded. */
    twostate lemma LoadedKept(sh: Shape)
      requires old(AllLoaded(sh))
      requires unchanged(this`allItems, this`loaded, this`loadedMonsters)
      ensures AllLoaded(sh)
    {
    }

    /** `PgRawDatabase.__init__` from the tables its `_load` calls return. */
    method InitFrom(l: Loads) returns (r: Outcome)
      requires Sound(l) && Unloaded()
      modifies this
      ensures r.Pass? ==> AllOk(l) && ShapeOf(Snapshot()) == ShapeOf(LoadedStore(l))
      ensures r.Pass? ==> AllLoaded(ShapeOf(LoadedStore(l)))
      ensures Finished(r)
      ensures r.Pass? ==> !EvoCycle(monsterOrder, monsters)
      ensures r.Fail? ==> !AllOk(l) || LoadRaises(WiringOf(LoadedStore(l))) || EvoCycle(monsterOrder, monsters)
    {
      r := LoadAndLink(l);
      if r.Pass? {
        label Linked:
        r := Finish();
        LoadedKept@Linked(ShapeOf(LoadedStore(l)));
      }
    }

    /** `PgRawDatabase.__init__`. */
    method Init(t: Tables, romaSubname: string -> string, rmdiacritics: string -> string) returns (r: Outcome)
      requires Unloaded()
      modifies this
      ensures r.Pass? ==> AllOk(LoadsOf(t, romaSubname, rmdiacritics))
      ensures r.Pass? ==> ShapeOf(Snapshot()) == ShapeOf(LoadedStore(LoadsOf(t, romaSubname, rmdiacritics)))
      ensures r.Pass? ==> AllLoaded(ShapeOf(LoadedStore(LoadsOf(t, romaSubname, rmdiacritics))))
      ensures Finished(r)
      ensures r.Pass? ==> !EvoCycle(monsterOrder, monsters)
      ensures r.Fail? ==> !AllOk(LoadsOf(t, romaSubname, rmdiacritics))
                          || LoadRaises(WiringOf(LoadedStore(LoadsOf(t, romaSubname, rmdiacritics))))
                          || EvoCycle(monsterOrder, monsters)
    {
      LoadsOfSound(t, romaSubname, rmdiacritics);
      r := InitFrom(LoadsOf(t, romaSubname, rmdiacritics));
    }
  }
}
