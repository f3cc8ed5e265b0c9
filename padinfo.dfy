/**
 * The older padinfo pipeline: the `Monster` records it derives from the data
 * files, their nicknames and prefixes, the evolution groups, the nickname
 * tables of `PgDataWrapper` with their overrides, and the `findMonster` lookup
 * of the padinfo cog.  Its rules differ from padguide2's in several places:
 * 'the' needs no following space, 'awoken' is removed anywhere in the name,
 * there are no evolution-stage prefixes, and the nickname tables keep their
 * first claimant instead of their last.
 */
module PadInfo {

  import opened Wrappers
  import opened Text
  import opened Ranking
  import opened PgNames
  import PgDatabase
  import PgIndex

  // ------------------------------------------------------------ the monster

  const HighSelectionPriority := 2
  const LowSelectionPriority := 1
  const UnknownSelectionPriority := 0

  /**
   * A `Monster` as far as the lookup uses it.  The first eleven fields are what
   * the constructor derives from the data files; `nickname`, `prefixes`,
   * `originalNickname`, `groupSize` and `selectionPriority` are written later
   * by `addNickname`, `addPrefixes` and `PgDataWrapper`.
   */
  datatype Monster = Monster(
    monsterId: int,
    monsterIdNa: int,
    nameNa: string,
    nameJp: string,
    rarity: int,
    attr1: Option<string>,
    attr2: Option<string>,
    type1: Option<string>,
    seriesId: string,
    evoTo: seq<int>,
    romaSubname: Option<string>,
    nickname: string,
    originalNickname: string,
    prefixes: set<string>,
    groupSize: int,
    selectionPriority: int)

  // --------------------------------------------------------------- nickname

  /**
   * The comma rule of `addNickname`: for 'xxx, theyyy' keep what precedes the
   * first comma (no space is needed after 'the'), otherwise keep what follows
   * the last comma.
   */
  function CommaPart(name: string): (r: string)
    ensures ',' !in r
    ensures ',' !in name ==> r == name
    ensures forall c :: c in r ==> c in name
  {
    if ',' !in name then name
    else
      var parts := Split(name, ',');
      SplitCount(name, ',');
      SplitChars(name, ',');
      if StartsWith(Strip(parts[1]), "the") then parts[0] else parts[|parts| - 1]
  }

  /** `addNickname`: the lower-cased name, its comma rule applied, every 'awoken' removed, stripped. */
  function Nickname(nameNa: string): string
  {
    var picked := CommaPart(Lower(nameNa));
    Strip(if Contains(picked, "awoken") then RemoveAll(picked, "awoken") else picked)
  }

  /** A nickname has no comma, no upper-case letter and no surrounding whitespace, and uses only the name's letters. */
  lemma NicknameShape(nameNa: string)
    ensures ',' !in Nickname(nameNa)
    ensures forall c :: c in Nickname(nameNa) ==> !IsUpper(c) && c in Lower(nameNa)
    ensures var r := Nickname(nameNa); r == [] || (!IsSpace(r[0]) && !IsSpace(r[|r| - 1]))
  {
    var low := Lower(nameNa);
    var picked := CommaPart(low);
    RemoveAllChars(picked, "awoken");
    StripChars(if Contains(picked, "awoken") then RemoveAll(picked, "awoken") else picked);
    forall c | c in low ensures !IsUpper(c) {
      var i :| 0 <= i < |low| && low[i] == c;
    }
  }

  /** A name with no comma and no 'awoken' anywhere keeps its lower-cased, stripped self. */
  lemma NicknamePlain(nameNa: string)
    requires ',' !in Lower(nameNa) && !Contains(Lower(nameNa), "awoken")
    ensures Nickname(nameNa) == Strip(Lower(nameNa))
  {
  }

  /** For 'xxx,theyyy' with one comma the nickname comes from 'xxx'; with anything else after the comma, from that. */
  lemma CommaRule(f: string, s: string)
    requires ',' !in f && ',' !in s
    ensures CommaPart(f + [','] + s) == if StartsWith(Strip(s), "the") then f else s
  {
    SplitTwo(f, s, ',');
  }

  /**
   * Where padinfo's rule and padguide2's part: after a comma, text starting
   * 'the' but not 'the ' (as in 'Ra, Theia') picks the part before the comma
   * here and the part after it in padguide2's basename.
   */
  lemma TheNeedsNoSpace(f: string, s: string)
    requires ',' !in f && ',' !in s
    requires StartsWith(Strip(s), "the") && !StartsWith(Strip(s), "the ")
    ensures CommaPart(f + [','] + s) == f
    ensures CommaSegment(f + [','] + s) == s
  {
    SplitTwo(f, s, ',');
  }

  // --------------------------------------------------------------- prefixes

  const AttrShort: map<string, string> := map["Fire" := "r", "Water" := "b", "Wood" := "g", "Light" := "l", "Dark" := "d"]
  const AttrLong: map<string, string> := map["Fire" := "red", "Water" := "blue", "Wood" := "green", "Light" := "light", "Dark" := "dark"]

  /** The collaboration prefixes, by series id. */
  const SeriesToPrefix: map<string, set<string>> := map[
    "130" := {"halloween"}, "136" := {"xmas", "christmas"}, "125" := {"summer", "beach"},
    "114" := {"school"}, "139" := {"new years", "ny"}, "149" := {"wedding", "bride"}, "154" := {"padr"}]

  /** The Japanese words for awoken and for reincarnated. */
  const Kakusei := "\U{899A}\U{9192}"
  const Tensei := "\U{8EE2}\U{751F}"

  /** The colour prefixes of `addPrefixes`: short code, long colour, attribute name, and the two dual-attribute forms. */
  function AttrPrefixes(a1: string, a2: Option<string>): set<string>
    requires a1 in AttrShort && (a2.Some? ==> a2.value in AttrShort)
  {
    {AttrShort[a1], AttrLong[a1], Lower(a1)}
    + if a2.Some? then {AttrShort[a1] + AttrShort[a2.value], AttrShort[a1] + "/" + AttrShort[a2.value]} else {}
  }

  /** When `addPrefixes` adds each of the name-derived words. */
  predicate NameRule(w: string, nameNa: string, nameJp: string)
  {
    if w == "chibi" then Lower(nameNa) == nameNa && nameNa != nameJp
    else if w == "a" then Contains(Lower(nameNa), "awoken") || Contains(nameNa, Kakusei)
    else if w == "awoken" then Contains(nameNa, Kakusei)
    else if w == "revo" then Contains(Lower(nameNa), "reincarnated") || Contains(nameNa, Tensei)
    else Contains(nameNa, Tensei)
  }

  /** The prefixes `addPrefixes` reads off the names: 'chibi', 'a'/'awoken' and 'revo'/'reincarnated'. */
  function NamePrefixes(nameNa: string, nameJp: string): set<string>
  {
    set w | w in NameWords && NameRule(w, nameNa, nameJp)
  }

  function SeriesPrefixesOf(seriesId: string): set<string>
  {
    if seriesId in SeriesToPrefix then SeriesToPrefix[seriesId] else {}
  }

  /** `addPrefixes`; an attribute with no colour code (or none at all as the first) is a `KeyError`. */
  function Prefixes(m: Monster): (r: Result<set<string>>)
    ensures r.Ok? <==> m.attr1.Some? && m.attr1.value in AttrShort && (m.attr2.Some? ==> m.attr2.value in AttrShort)
  {
    if m.attr1.None? || m.attr1.value !in AttrShort then Err("KeyError: attr_prefix_map")
    else if m.attr2.Some? && m.attr2.value !in AttrShort then Err("KeyError: attr_prefix_map")
    else Ok(AttrPrefixes(m.attr1.value, m.attr2) + NamePrefixes(m.nameNa, m.nameJp) + SeriesPrefixesOf(m.seriesId))
  }

  /** What tells a colour prefix from the name-derived words: its first letter and its length. */
  predicate AttrShaped(p: string)
  {
    0 < |p| <= 5 && p[0] != 'a' && p[0] != 'c' && (p[0] == 'r' ==> |p| <= 3)
  }

  lemma AttrNamesShaped(a1: string)
    requires a1 in AttrShort
    ensures AttrShaped(AttrShort[a1]) && AttrShaped(AttrLong[a1]) && AttrShaped(Lower(a1))
  {
    ShortAttrShaped(a1);
    LongAttrShaped(a1);
    LowerAttrShaped(a1);
  }

  lemma ShortAttrShaped(a1: string)
    requires a1 in AttrShort
    ensures AttrShaped(AttrShort[a1])
  {
    assert a1 == "Fire" || a1 == "Water" || a1 == "Wood" || a1 == "Light" || a1 == "Dark";
  }

  lemma LongAttrShaped(a1: string)
    requires a1 in AttrShort
    ensures AttrShaped(AttrLong[a1])
  {
    assert a1 == "Fire" || a1 == "Water" || a1 == "Wood" || a1 == "Light" || a1 == "Dark";
  }

  lemma LowerAttrShaped(a1: string)
    requires a1 in AttrShort
    ensures AttrShaped(Lower(a1))
  {
    assert 4 <= |a1| <= 5 && (a1[0] == 'F' || a1[0] == 'W' || a1[0] == 'L' || a1[0] == 'D') by {
      assert a1 == "Fire" || a1 == "Water" || a1 == "Wood" || a1 == "Light" || a1 == "Dark";
    }
    LowerAt(a1, 0);
  }

  /** None of the five name-derived words is a colour prefix. */
  lemma AttrPrefixesApart(a1: string, a2: Option<string>)
    requires a1 in AttrShort && (a2.Some? ==> a2.value in AttrShort)
    ensures forall w :: w in NameWords ==> w !in AttrPrefixes(a1, a2)
  {
    AttrNamesShaped(a1);
    var s := AttrShort[a1];
    if a2.Some? {
      var t := AttrShort[a2.value];
      ShortAttrShaped(a2.value);
      assert (s + t)[0] == s[0] && |s + t| == 2;
      assert (s + "/" + t)[0] == s[0] && |s + "/" + t| == 3;
    }
    NameWordsNotAttrShaped();
  }

  lemma NameWordsNotAttrShaped()
    ensures forall w :: w in NameWords ==> !AttrShaped(w)
  {
    assert "chibi"[0] == 'c' && "a"[0] == 'a' && "awoken"[0] == 'a';
    assert "revo"[0] == 'r' && |"revo"| == 4 && "reincarnated"[0] == 'r' && |"reincarnated"| == 12;
  }

  lemma SeriesPrefixesApart(seriesId: string)
    ensures forall w :: w in NameWords ==> w !in SeriesPrefixesOf(seriesId)
  {
  }

  const NameWords: set<string> := {"chibi", "a", "awoken", "revo", "reincarnated"}

  /**
   * The prefixes of a monster: every colour and collaboration prefix, and each
   * name-derived word exactly when its rule holds.
   */
  lemma PrefixRules(m: Monster)
    requires Prefixes(m).Ok?
    ensures var r := Prefixes(m).value;
      && AttrPrefixes(m.attr1.value, m.attr2) <= r && SeriesPrefixesOf(m.seriesId) <= r
      && {AttrShort[m.attr1.value], AttrLong[m.attr1.value], Lower(m.attr1.value)} <= r
      && ("chibi" in r <==> Lower(m.nameNa) == m.nameNa && m.nameNa != m.nameJp)
      && ("a" in r <==> Contains(Lower(m.nameNa), "awoken") || Contains(m.nameNa, Kakusei))
      && ("awoken" in r <==> Contains(m.nameNa, Kakusei))
      && ("revo" in r <==> Contains(Lower(m.nameNa), "reincarnated") || Contains(m.nameNa, Tensei))
      && ("reincarnated" in r <==> Contains(m.nameNa, Tensei))
  {
    AttrPrefixesApart(m.attr1.value, m.attr2);
    SeriesPrefixesApart(m.seriesId);
    NamePrefixRules(m.nameNa, m.nameJp);
  }

  lemma NamePrefixRules(nameNa: string, nameJp: string)
    ensures var r := NamePrefixes(nameNa, nameJp);
      && ("chibi" in r <==> Lower(nameNa) == nameNa && nameNa != nameJp)
      && ("a" in r <==> Contains(Lower(nameNa), "awoken") || Contains(nameNa, Kakusei))
      && ("awoken" in r <==> Contains(nameNa, Kakusei))
      && ("revo" in r <==> Contains(Lower(nameNa), "reincarnated") || Contains(nameNa, Tensei))
      && ("reincarnated" in r <==> Contains(nameNa, Tensei))
  {
    assert |"chibi"| == 5 && |"a"| == 1 && |"awoken"| == 6 && |"revo"| == 4 && |"reincarnated"| == 12;
  }

  // ------------------------------------------------------- priority, best pick

  /** `shouldFilterMonster`; a monster with no first type fails on `None.lower()`. */
  function ShouldFilterMonster(m: Monster): (r: Result<bool>)
    ensures r.Ok? <==> m.type1.Some?
    ensures r.Ok? ==> (r.value <==> Lower(m.type1.value) in LowPriorityTypes || Contains(Lower(m.nameNa), "tamadra")
                                     || m.rarity < 2 || Lower(m.nameNa) == m.nameNa)
  {
    match m.type1
    case None => Err("AttributeError: 'NoneType' object has no attribute 'lower'")
    case Some(t) =>
      Ok(Lower(t) in LowPriorityTypes || Contains(Lower(m.nameNa), "tamadra") || m.rarity < 2 || Lower(m.nameNa) == m.nameNa)
  }

  /** `max(m.rarity for m in members)`. */
  function MaxRarityOf(ms: seq<Monster>): (r: int)
    requires |ms| > 0
    ensures exists i :: 0 <= i < |ms| && ms[i].rarity == r
    ensures forall i :: 0 <= i < |ms| ==> ms[i].rarity <= r
  {
    if |ms| == 1 then ms[0].rarity
    else
      var rest := MaxRarityOf(ms[1..]);
      assert forall i :: 1 <= i < |ms| ==> ms[i] == ms[1..][i - 1];
      if ms[0].rarity >= rest then ms[0].rarity else rest
  }

  /** `shouldFilterGroup`: a group is filtered exactly when every member has rarity below 5. */
  function ShouldFilterGroup(ms: seq<Monster>): (r: bool)
    requires |ms| > 0
    ensures r <==> forall i :: 0 <= i < |ms| ==> ms[i].rarity < 5
  {
    MaxRarityOf(ms) < 5
  }

  /** The test that sends a group to the low-priority list; `or` never evaluates the group test after an error. */
  function IsLowGroup(ms: seq<Monster>): Result<bool>
    requires |ms| > 0
  {
    match ShouldFilterMonster(ms[0])
    case Err(e) => Err(e)
    case Ok(b) => Ok(b || ShouldFilterGroup(ms))
  }

  /** `(selection_priority, rarity, monster_id_na)`. */
  function SelectKey(m: Monster): Key3
  {
    Key3(m.selectionPriority, m.rarity, m.monsterIdNa)
  }

  /** `pickBestMonster`: `max` over a list, which keeps the first of the monsters with the largest key. */
  function PickBestMonster(ms: seq<Monster>): (r: Monster)
    requires |ms| > 0
    ensures r in ms
    ensures forall x :: x in ms ==> Le(SelectKey(x), SelectKey(r))
    ensures exists i :: 0 <= i < |ms| && ms[i] == r && forall j :: 0 <= j < i ==> Lt(SelectKey(ms[j]), SelectKey(r))
  {
    var i := FirstMax(ms, SelectKey);
    ms[i]
  }

  // ------------------------------------------------- the monster list and map

  /** `addNickname`. */
  function AddNickname(m: Monster): Monster
  {
    m.(nickname := Nickname(m.nameNa))
  }

  /** One monster after `addNickname` and `addPrefixes`. */
  function Prepared(m: Monster): Result<Monster>
  {
    match Prefixes(m)
    case Err(e) => Err(e)
    case Ok(p) => Ok(AddNickname(m).(prefixes := p))
  }

  /** A loop that appends `f(x)` for each `x` in turn and stops at the first error. */
  function MapResult<A, B>(xs: seq<A>, f: A -> Result<B>): Result<seq<B>>
  {
    if xs == [] then Ok([])
    else
      match MapResult(xs[..|xs| - 1], f)
      case Err(e) => Err(e)
      case Ok(ys) =>
        match f(xs[|xs| - 1])
        case Err(e) => Err(e)
        case Ok(y) => Ok(ys + [y])
  }

  /** The loop succeeds exactly when every step does, and then keeps order and count. */
  lemma {:induction false} MapResultSpec<A, B>(xs: seq<A>, f: A -> Result<B>)
    ensures MapResult(xs, f).Ok? <==> forall i :: 0 <= i < |xs| ==> f(xs[i]).Ok?
    ensures MapResult(xs, f).Ok? ==>
              |MapResult(xs, f).value| == |xs|
              && forall i :: 0 <= i < |xs| ==> MapResult(xs, f).value[i] == f(xs[i]).value
  {
    if xs != [] {
      var front := xs[..|xs| - 1];
      MapResultSpec(front, f);
      assert forall i :: 0 <= i < |front| ==> front[i] == xs[i];
    }
  }

  lemma MapResultStep<A, B>(xs: seq<A>, f: A -> Result<B>, i: nat)
    requires i < |xs| && MapResult(xs[..i], f).Ok?
    ensures MapResult(xs[..i + 1], f) == if f(xs[i]).Ok? then Ok(MapResult(xs[..i], f).value + [f(xs[i]).value]) else Err(f(xs[i]).error)
  {
    assert xs[..i + 1][..i] == xs[..i];
  }

  /** Once a prefix of the loop fails, the whole loop fails. */
  lemma MapResultPrefix<A, B>(xs: seq<A>, f: A -> Result<B>, k: nat)
    requires k <= |xs| && MapResult(xs[..k], f).Err?
    ensures MapResult(xs, f).Err?
  {
    MapResultSpec(xs[..k], f);
    MapResultSpec(xs, f);
    var i :| 0 <= i < k && f(xs[..k][i]).Err?;
    assert xs[..k][i] == xs[i];
  }

  function IdOf(m: Monster): int { m.monsterId }
  function IdNaOf(m: Monster): int { m.monsterIdNa }

  // ---------------------------------------------------------------- evo_from

  function EvoSources(ef: map<int, seq<int>>, t: int): seq<int>
  {
    if t in ef then ef[t] else []
  }

  /** The inner loop: `from` is appended to the `evo_from` of each of its evolutions; an unknown one is a `KeyError`. */
  function EvoFromOne(ef: map<int, seq<int>>, from: int, tos: seq<int>, byId: map<int, Monster>): Result<map<int, seq<int>>>
  {
    if tos == [] then Ok(ef)
    else
      match EvoFromOne(ef, from, tos[..|tos| - 1], byId)
      case Err(e) => Err(e)
      case Ok(e1) =>
        var t := tos[|tos| - 1];
        if t !in byId then Err("KeyError: full_monster_map")
        else Ok(e1[t := EvoSources(e1, t) + [from]])
  }

  /** `evo_from` of every monster after the outer loop over `full_monster_list`. */
  function EvoFromAll(ms: seq<Monster>, byId: map<int, Monster>): Result<map<int, seq<int>>>
  {
    if ms == [] then Ok(map[])
    else
      match EvoFromAll(ms[..|ms| - 1], byId)
      case Err(e) => Err(e)
      case Ok(ef) => EvoFromOne(ef, ms[|ms| - 1].monsterId, ms[|ms| - 1].evoTo, byId)
  }

  lemma {:induction false} EvoFromOneSpec(ef: map<int, seq<int>>, from: int, tos: seq<int>, byId: map<int, Monster>)
    ensures EvoFromOne(ef, from, tos, byId).Ok? <==> forall t :: t in tos ==> t in byId
    ensures EvoFromOne(ef, from, tos, byId).Ok? ==>
              forall t, u :: u in EvoSources(EvoFromOne(ef, from, tos, byId).value, t) <==>
                             u in EvoSources(ef, t) || (u == from && t in tos)
  {
    if tos != [] {
      var front := tos[..|tos| - 1];
      var last := tos[|tos| - 1];
      EvoFromOneSpec(ef, from, front, byId);
      assert tos == front + [last];
      var r1 := EvoFromOne(ef, from, front, byId);
      if r1.Ok? && last in byId {
        var e2 := r1.value[last := EvoSources(r1.value, last) + [from]];
        assert EvoFromOne(ef, from, tos, byId) == Ok(e2);
        forall t, u ensures u in EvoSources(e2, t) <==> u in EvoSources(ef, t) || (u == from && t in tos) {
          if t == last {
            assert EvoSources(e2, t) == EvoSources(r1.value, t) + [from];
          } else {
            assert EvoSources(e2, t) == EvoSources(r1.value, t);
          }
        }
      }
    }
  }

  /**
   * The loop fails exactly when some evolution names an unknown monster, and
   * otherwise `u` is in the `evo_from` of `t` exactly when monster `u` evolves into `t`.
   */
  lemma {:induction false} EvoFromAllSpec(ms: seq<Monster>, byId: map<int, Monster>)
    ensures EvoFromAll(ms, byId).Ok? <==> forall k, t :: 0 <= k < |ms| && t in ms[k].evoTo ==> t in byId
    ensures EvoFromAll(ms, byId).Ok? ==>
              forall t, u :: u in EvoSources(EvoFromAll(ms, byId).value, t) <==>
                             exists k :: 0 <= k < |ms| && ms[k].monsterId == u && t in ms[k].evoTo
  {
    if ms != [] {
      var front := ms[..|ms| - 1];
      var last := ms[|ms| - 1];
      EvoFromAllSpec(front, byId);
      assert forall k :: 0 <= k < |front| ==> front[k] == ms[k];
      if EvoFromAll(front, byId).Ok? {
        EvoFromOneSpec(EvoFromAll(front, byId).value, last.monsterId, last.evoTo, byId);
      }
    }
  }

  // ---------------------------------------------------------------- groups

  /** The monsters with an empty `evo_from`, in list order: the roots of the groups. */
  function Roots(ms: seq<Monster>, ef: map<int, seq<int>>): seq<int>
  {
    if ms == [] then []
    else Roots(ms[..|ms| - 1], ef) + if EvoSources(ef, ms[|ms| - 1].monsterId) == [] then [ms[|ms| - 1].monsterId] else []
  }

  /** The evolution graph, `evo_to` by monster id. */
  function Graph(byId: map<int, Monster>): (g: map<int, seq<int>>)
    ensures g.Keys == byId.Keys
  {
    map id | id in byId :: byId[id].evoTo
  }

  function MembersOf(byId: map<int, Monster>, ids: seq<int>): (r: seq<Monster>)
    requires forall i :: 0 <= i < |ids| ==> ids[i] in byId
    ensures |r| == |ids|
  {
    seq(|ids|, i requires 0 <= i < |ids| => byId[ids[i]])
  }

  function Nicknames(ms: seq<Monster>): (r: seq<string>)
    ensures |r| == |ms|
  {
    seq(|ms|, i requires 0 <= i < |ms| => ms[i].nickname)
  }

  /**
   * `computeNickname` and the group-size loop: every member takes the group's
   * most frequent nickname (the same choice as padguide2's group basename),
   * keeps its own as `original_nickname`, and learns the group's size.
   */
  function Grouped(ms: seq<Monster>): (r: seq<Monster>)
    requires |ms| > 0
    ensures |r| == |ms|
  {
    var nick := GroupBasename(Nicknames(ms));
    seq(|ms|, i requires 0 <= i < |ms| => ms[i].(originalNickname := ms[i].nickname, nickname := nick, groupSize := |ms|))
  }

  /**
   * A grouped member keeps everything but its nickname fields and size; all share
   * the most frequent nickname, the smallest one among ties, as `max` over the
   * name-sorted `groupby` picks the first.
   */
  lemma GroupedSpec(ms: seq<Monster>)
    requires |ms| > 0
    ensures forall i :: 0 <= i < |ms| ==>
              Grouped(ms)[i].(nickname := ms[i].nickname, originalNickname := ms[i].originalNickname, groupSize := ms[i].groupSize) == ms[i]
              && Grouped(ms)[i].originalNickname == ms[i].nickname && Grouped(ms)[i].groupSize == |ms|
              && Grouped(ms)[i].nickname == Grouped(ms)[0].nickname
    ensures Grouped(ms)[0].nickname in Nicknames(ms)
    ensures forall n :: n in Nicknames(ms) ==> Count(Nicknames(ms), n) <= Count(Nicknames(ms), Grouped(ms)[0].nickname)
    ensures forall n :: n in Nicknames(ms) && Count(Nicknames(ms), n) == Count(Nicknames(ms), Grouped(ms)[0].nickname) ==>
              StrLe(Grouped(ms)[0].nickname, n)
  {
    GroupBasenameBest(Nicknames(ms));
  }

  /** One root's group: the pre-order walk (a cycle recurses without end), named, sized and classified. */
  function GroupAt(byId: map<int, Monster>, root: int): Result<(seq<Monster>, bool)>
  {
    match PgDatabase.Preorder(Graph(byId), root, {})
    case None => Err("RecursionError: maximum recursion depth exceeded")
    case Some(ids) =>
      assert forall i :: 0 <= i < |ids| ==> ids[i] in ids;
      var g := Grouped(MembersOf(byId, ids));
      match IsLowGroup(g)
      case Err(e) => Err(e)
      case Ok(low) => Ok((g, low))
  }

  /** `hp_monster_groups` and `lp_monster_groups` after the loop over the roots. */
  function SplitGroups(byId: map<int, Monster>, roots: seq<int>): Result<(seq<seq<Monster>>, seq<seq<Monster>>)>
  {
    if roots == [] then Ok(([], []))
    else
      match SplitGroups(byId, roots[..|roots| - 1])
      case Err(e) => Err(e)
      case Ok(hl) =>
        match GroupAt(byId, roots[|roots| - 1])
        case Err(e) => Err(e)
        case Ok(gl) => if gl.1 then Ok((hl.0, hl.1 + [gl.0])) else Ok((hl.0 + [gl.0], hl.1))
  }

  /** The unzip loop: every member of every group, in order, with its selection priority. */
  function Flatten(gs: seq<seq<Monster>>, priority: int): seq<Monster>
  {
    if gs == [] then []
    else
      var g := gs[|gs| - 1];
      Flatten(gs[..|gs| - 1], priority) + seq(|g|, i requires 0 <= i < |g| => g[i].(selectionPriority := priority))
  }

  /** The flattened list holds exactly the members of the groups, each carrying the priority. */
  lemma {:induction false} FlattenSpec(gs: seq<seq<Monster>>, priority: int)
    ensures forall x :: x in Flatten(gs, priority) ==> x.selectionPriority == priority
    ensures forall x :: x in Flatten(gs, priority) <==>
              exists k, i :: 0 <= k < |gs| && 0 <= i < |gs[k]| && x == gs[k][i].(selectionPriority := priority)
  {
    if gs != [] {
      var front := gs[..|gs| - 1];
      var g := gs[|gs| - 1];
      FlattenSpec(front, priority);
      var tail := seq(|g|, i requires 0 <= i < |g| => g[i].(selectionPriority := priority));
      assert Flatten(gs, priority) == Flatten(front, priority) + tail;
      forall x ensures x in Flatten(gs, priority) <==>
                       exists k, i :: 0 <= k < |gs| && 0 <= i < |gs[k]| && x == gs[k][i].(selectionPriority := priority) {
        if x in tail {
          var i :| 0 <= i < |g| && tail[i] == x;
          assert gs[|gs| - 1] == g;
        }
        if exists k, i :: 0 <= k < |gs| && 0 <= i < |gs[k]| && x == gs[k][i].(selectionPriority := priority) {
          var k, i :| 0 <= k < |gs| && 0 <= i < |gs[k]| && x == gs[k][i].(selectionPriority := priority);
          if k < |front| {
            assert gs[k] == front[k];
          } else {
            assert tail[i] == x;
          }
        }
      }
    }
  }

  /** The key of `sort(key=lambda m: (m.group_size, m.monster_id_na), reverse=True)`, as an ascending key. */
  function DescKey(m: Monster): Key3
  {
    Negated(Key3(m.groupSize, m.monsterIdNa, 0))
  }

  // ---------------------------------------------------------- nickname tables

  /** What `buildNicknameLists` files a monster under in `all_entries`. */
  function EntryNames(m: Monster): set<string>
  {
    {m.nickname} + Glued(m.prefixes, m.nickname)
    + if m.romaSubname.Some? && m.romaSubname.value != "" then {m.romaSubname.value} else {}
  }

  /** What it files a monster under in `two_word_entries`: only a nickname of exactly two words counts. */
  function TwoWordNames(m: Monster): set<string>
  {
    var words := Split(m.nickname, ' ');
    if |words| != 2 then {} else {words[1]} + Glued(m.prefixes, words[1])
  }

  /** `maybeAdd` for every name of `x`: only names not yet present are added. */
  function KeepFirst<T>(e: map<string, T>, names: set<string>, x: T): (r: map<string, T>)
    ensures r.Keys == e.Keys + names
  {
    map n | n in e.Keys + names :: if n in e then e[n] else x
  }

  /** Adding two batches of names for the same element is adding their union. */
  lemma KeepFirstUnion<T>(e: map<string, T>, a: set<string>, b: set<string>, x: T)
    ensures KeepFirst(KeepFirst(e, a, x), b, x) == KeepFirst(e, a + b, x)
  {
  }

  /** One prefix more: its two glued names, added one after the other. */
  lemma KeepFirstGluedStep<T>(e: map<string, T>, done: set<string>, p: string, name: string, x: T)
    ensures KeepFirst(KeepFirst(KeepFirst(e, Glued(done, name), x), {p + name}, x), {p + " " + name}, x)
            == KeepFirst(e, Glued(done + {p}, name), x)
  {
    KeepFirstUnion(e, Glued(done, name), {p + name}, x);
    KeepFirstUnion(e, Glued(done, name) + {p + name}, {p + " " + name}, x);
    GluedAdd(done, p, name);
    assert Glued(done, name) + {p + name} + {p + " " + name} == Glued(done + {p}, name);
  }

  /** The tables after `buildNicknameLists` has run over `xs`, starting from `e`. */
  function FirstClaims<T>(e: map<string, T>, xs: seq<T>, names: T -> set<string>): map<string, T>
  {
    if xs == [] then e else KeepFirst(FirstClaims(e, xs[..|xs| - 1], names), names(xs[|xs| - 1]), xs[|xs| - 1])
  }

  /** Running over two lists in turn is running over their concatenation. */
  lemma {:induction false} FirstClaimsAppend<T>(e: map<string, T>, xs: seq<T>, ys: seq<T>, names: T -> set<string>)
    ensures FirstClaims(FirstClaims(e, xs, names), ys, names) == FirstClaims(e, xs + ys, names)
  {
    if ys == [] {
      assert xs + ys == xs;
    } else {
      FirstClaimsAppend(e, xs, ys[..|ys| - 1], names);
      assert (xs + ys)[..|xs + ys| - 1] == xs + ys[..|ys| - 1];
    }
  }

  /**
   * `maybeAdd` never overwrites: a name present at the start keeps its value,
   * and any other name maps to the first element that claims it.
   */
  lemma {:induction false} FirstClaimsFirst<T>(e: map<string, T>, xs: seq<T>, names: T -> set<string>, n: string)
    ensures n in FirstClaims(e, xs, names) <==> n in e || exists i :: 0 <= i < |xs| && n in names(xs[i])
    ensures n in e ==> FirstClaims(e, xs, names)[n] == e[n]
    ensures n !in e && n in FirstClaims(e, xs, names) ==>
              exists i :: 0 <= i < |xs| && n in names(xs[i]) && FirstClaims(e, xs, names)[n] == xs[i]
                          && forall j :: 0 <= j < i ==> n !in names(xs[j])
  {
    if xs != [] {
      var front := xs[..|xs| - 1];
      FirstClaimsFirst(e, front, names, n);
      assert forall i :: 0 <= i < |front| ==> front[i] == xs[i];
      if n !in e && n !in FirstClaims(e, front, names) && n in names(xs[|xs| - 1]) {
        assert FirstClaims(e, xs, names)[n] == xs[|xs| - 1];
      }
    }
  }

  // ---------------------------------------------------------------- overrides

  /**
   * The part of `populateWithOverrides` that reads one row: at least four
   * columns, nickname, id and approval all non-empty after stripping, approval
   * 'TRUE' in any case, and an all-digit id.
   */
  function OverrideRow(row: seq<string>): Option<(string, int)>
  {
    if |row| < 4 then None
    else
      var nickname := Lower(Strip(row[1]));
      var mId := Strip(row[2]);
      var approved := Upper(Strip(row[3]));
      if nickname == [] || mId == [] || approved == [] then None
      else if approved != "TRUE" || !IsDigits(mId) then None
      else Some((nickname, DigitsValue(mId)))
  }

  /** Every row as `OverrideRow` reads it. */
  function ReadRows(rows: seq<seq<string>>): (os: seq<Option<(string, int)>>)
    ensures |os| == |rows| && forall k :: 0 <= k < |rows| ==> os[k] == OverrideRow(rows[k])
  {
    seq(|rows|, k requires 0 <= k < |rows| => OverrideRow(rows[k]))
  }

  /**
   * `all_entries` after the override loop over the rows as read, and whether
   * it ran to the end: an accepted row whose id is unknown raises, and the rows
   * before it have already written their entries.
   */
  function Overrides<T>(e: map<string, T>, os: seq<Option<(string, int)>>, ids: map<int, T>): (map<string, T>, Outcome)
  {
    if os == [] then (e, Pass)
    else
      var before := Overrides(e, os[..|os| - 1], ids);
      if before.1.Fail? then before
      else
        match os[|os| - 1]
        case None => before
        case Some(o) =>
          if o.1 !in ids then (before.0, Fail("KeyError: id_to_monster"))
          else (before.0[o.0 := ids[o.1]], Pass)
  }

  /** The loop runs to the end exactly when every accepted row names a known id. */
  lemma {:induction false} OverridesPass<T>(e: map<string, T>, os: seq<Option<(string, int)>>, ids: map<int, T>)
    ensures Overrides(e, os, ids).1.Pass? <==> forall k :: 0 <= k < |os| && os[k].Some? ==> os[k].value.1 in ids
  {
    if os != [] {
      var front := os[..|os| - 1];
      OverridesPass(e, front, ids);
      assert forall k :: 0 <= k < |front| ==> front[k] == os[k];
    }
  }

  /**
   * When the loop runs to the end, a nickname of some accepted row maps to the
   * monster of the last such row, and every other entry is unchanged.
   */
  lemma {:induction false} OverridesLast<T>(e: map<string, T>, os: seq<Option<(string, int)>>, ids: map<int, T>, n: string)
    requires Overrides(e, os, ids).1.Pass?
    ensures n in Overrides(e, os, ids).0 <==> n in e || exists k :: 0 <= k < |os| && os[k].Some? && os[k].value.0 == n
    ensures (forall k :: 0 <= k < |os| && os[k].Some? ==> os[k].value.0 != n) && n in e ==> Overrides(e, os, ids).0[n] == e[n]
    ensures forall k :: 0 <= k < |os| && os[k].Some? && os[k].value.0 == n
                        && (forall j :: k < j < |os| && os[j].Some? ==> os[j].value.0 != n) ==>
              os[k].value.1 in ids && Overrides(e, os, ids).0[n] == ids[os[k].value.1]
  {
    OverridesPass(e, os, ids);
    if os != [] {
      var front := os[..|os| - 1];
      var last := os[|os| - 1];
      assert Overrides(e, front, ids).1.Pass?;
      OverridesLast(e, front, ids, n);
      assert forall k :: 0 <= k < |front| ==> front[k] == os[k];
    }
  }

  // ------------------------------------------------------------ the wrapper

  /** What `findMonster` answers: a monster and the stage that found it, or the error message. */
  datatype Answer = Hit(monster: Monster, stage: PgIndex.Stage) | Miss(error: string)

  /** The full-name test: the NA or the JP name, lower-cased, starts with the query. */
  predicate NamePrefixMatch(m: Monster, q: string)
  {
    StartsWith(Lower(m.nameNa), q) || StartsWith(Lower(m.nameJp), q)
  }

  predicate NameContainsQuery(m: Monster, q: string)
  {
    Contains(Lower(m.nameNa), q) || Contains(Lower(m.nameJp), q)
  }

  /** The test each loop of `findMonster` applies to a nickname and its monster. */
  datatype EntryTest = SpacePrefixOf(q: string) | PrefixOf(q: string) | FullNameOf(q: string) | NameInOf(q: string)

  predicate PassesTest(t: EntryTest, n: string, m: Monster)
  {
    match t
    case SpacePrefixOf(q) => StartsWith(n, q + " ")
    case PrefixOf(q) => StartsWith(n, q)
    case FullNameOf(q) => NamePrefixMatch(m, q)
    case NameInOf(q) => NameContainsQuery(m, q)
  }

  /** The monsters a loop over `all_entries.items()` collects, as a set (the dict order is left open). */
  function Matches(e: map<string, Monster>, keys: set<string>, t: EntryTest): set<Monster>
  {
    set n | n in keys && n in e && PassesTest(t, n, e[n]) :: e[n]
  }

  lemma MatchesGrow(e: map<string, Monster>, keys: set<string>, n: string, t: EntryTest)
    requires n in e
    ensures Matches(e, keys + {n}, t) == Matches(e, keys, t) + (if PassesTest(t, n, e[n]) then {e[n]} else {})
  {
  }

  function ListMatchesOf(ms: seq<Monster>, q: string): set<Monster>
  {
    set i | 0 <= i < |ms| && NameContainsQuery(ms[i], q) :: ms[i]
  }

  /** The answer of a stage with a non-empty match list: one of the matches, and none outranks it. */
  predicate BestHit(r: Answer, s: set<Monster>, stage: PgIndex.Stage)
  {
    r.Hit? && r.stage == stage && r.monster in s && forall x :: x in s ==> Le(SelectKey(x), SelectKey(r.monster))
  }

  /** The version of a monster the tables end up holding: its grouped copy, if it has one. */
  function FinalOf(m: Monster, grouped: map<int, Monster>): Monster
  {
    if m.monsterId in grouped then grouped[m.monsterId] else m
  }

  function FinalList(ms: seq<Monster>, grouped: map<int, Monster>): (r: seq<Monster>)
    ensures |r| == |ms|
  {
    seq(|ms|, i requires 0 <= i < |ms| => FinalOf(ms[i], grouped))
  }

  // ------------------------------------------------------- loop step lemmas


  lemma EvoFromOneStep(ef: map<int, seq<int>>, from: int, tos: seq<int>, byId: map<int, Monster>, j: nat)
    requires j < |tos| && EvoFromOne(ef, from, tos[..j], byId).Ok?
    ensures EvoFromOne(ef, from, tos[..j + 1], byId) ==
              var e1 := EvoFromOne(ef, from, tos[..j], byId).value;
              if tos[j] !in byId then Err("KeyError: full_monster_map") else Ok(e1[tos[j] := EvoSources(e1, tos[j]) + [from]])
  {
    assert tos[..j + 1][..j] == tos[..j];
  }

  lemma EvoFromAllStep(ms: seq<Monster>, byId: map<int, Monster>, i: nat)
    requires i < |ms| && EvoFromAll(ms[..i], byId).Ok?
    ensures EvoFromAll(ms[..i + 1], byId) == EvoFromOne(EvoFromAll(ms[..i], byId).value, ms[i].monsterId, ms[i].evoTo, byId)
  {
    assert ms[..i + 1][..i] == ms[..i];
  }

  lemma {:induction false} RootsAppend(a: seq<Monster>, b: seq<Monster>, ef: map<int, seq<int>>)
    ensures Roots(a + b, ef) == Roots(a, ef) + Roots(b, ef)
  {
    if b == [] {
      assert a + b == a;
    } else {
      RootsAppend(a, b[..|b| - 1], ef);
      assert (a + b)[..|a + b| - 1] == a + b[..|b| - 1];
    }
  }

  /** A failure on a prefix of the roots is a failure of the whole loop. */
  lemma {:induction false} SplitGroupsPrefix(byId: map<int, Monster>, roots: seq<int>, k: nat)
    requires k <= |roots| && SplitGroups(byId, roots[..k]).Err?
    ensures SplitGroups(byId, roots).Err?
  {
    if k < |roots| {
      var front := roots[..|roots| - 1];
      assert front[..k] == roots[..k];
      SplitGroupsPrefix(byId, front, k);
    } else {
      assert roots[..k] == roots;
    }
  }

  lemma SplitGroupsStep(byId: map<int, Monster>, roots: seq<int>, root: int)
    requires SplitGroups(byId, roots).Ok?
    ensures SplitGroups(byId, roots + [root]) ==
              var hl := SplitGroups(byId, roots).value;
              match GroupAt(byId, root)
              case Err(e) => Err(e)
              case Ok(gl) => if gl.1 then Ok((hl.0, hl.1 + [gl.0])) else Ok((hl.0 + [gl.0], hl.1))
  {
    assert (roots + [root])[..|roots|] == roots;
  }

  lemma RootsStep(ms: seq<Monster>, ef: map<int, seq<int>>, i: nat)
    requires i < |ms|
    ensures Roots(ms[..i + 1], ef) == Roots(ms[..i], ef) + if EvoSources(ef, ms[i].monsterId) == [] then [ms[i].monsterId] else []
  {
    assert ms[..i + 1][..i] == ms[..i];
  }

  /** A root whose group fails makes the whole loop fail. */
  lemma RootFails(byId: map<int, Monster>, ms: seq<Monster>, ef: map<int, seq<int>>, i: nat)
    requires i < |ms| && EvoSources(ef, ms[i].monsterId) == []
    requires SplitGroups(byId, Roots(ms[..i + 1], ef)).Err?
    ensures SplitGroups(byId, Roots(ms, ef)).Err?
  {
    RootsAppend(ms[..i + 1], ms[i + 1..], ef);
    assert ms[..i + 1] + ms[i + 1..] == ms;
    var k := |Roots(ms[..i + 1], ef)|;
    assert Roots(ms, ef)[..k] == Roots(ms[..i + 1], ef);
    SplitGroupsPrefix(byId, Roots(ms, ef), k);
  }

  /** Once an accepted row has raised, later rows change nothing. */
  lemma {:induction false} OverridesFailStays<T>(e: map<string, T>, os: seq<Option<(string, int)>>, ids: map<int, T>, k: nat)
    requires k <= |os| && Overrides(e, os[..k], ids).1.Fail?
    ensures Overrides(e, os, ids) == Overrides(e, os[..k], ids)
  {
    if k < |os| {
      var front := os[..|os| - 1];
      assert front[..k] == os[..k];
      OverridesFailStays(e, front, ids, k);
    } else {
      assert os[..k] == os;
    }
  }

  lemma OverridesStep<T>(e: map<string, T>, os: seq<Option<(string, int)>>, ids: map<int, T>, i: nat)
    requires i < |os|
    ensures Overrides(e, os[..i + 1], ids) == 
              var before := Overrides(e, os[..i], ids);
              if before.1.Fail? || os[i].None? then before
              else if os[i].value.1 !in ids then (before.0, Fail("KeyError: id_to_monster"))
              else (before.0[os[i].value.0 := ids[os[i].value.1]], Pass)
  {
    assert os[..i + 1][..i] == os[..i];
  }

  lemma ListMatchesStep(ms: seq<Monster>, q: string, i: nat)
    requires i < |ms|
    ensures ListMatchesOf(ms[..i + 1], q) == ListMatchesOf(ms[..i], q) + if NameContainsQuery(ms[i], q) then {ms[i]} else {}
  {
    assert forall k :: 0 <= k < i ==> ms[..i + 1][k] == ms[..i][k];
  }

  // --------------------------------------------------------- the whole load

  /** Every table `__init__` fills. */
  datatype Tables = Tables(
    fullMonsterList: seq<Monster>, fullMonsterMap: map<int, Monster>, evoFrom: map<int, seq<int>>,
    hpMonsterGroups: seq<seq<Monster>>, lpMonsterGroups: seq<seq<Monster>>,
    hpMonsters: seq<Monster>, lpMonsters: seq<Monster>,
    allEntries: map<string, Monster>, twoWordEntries: map<string, Monster>, idToMonster: map<int, Monster>)

  /** `PgDataWrapper.__init__` over the base monsters, or the error that stops it. */
  function Loaded(raw: seq<Monster>): Result<Tables>
  {
    match MapResult(raw, Prepared)
    case Err(e) => Err(e)
    case Ok(list0) => Linked(list0)
  }

  /** The stages after the monster loop: `evo_from`, then the groups. */
  function Linked(list0: seq<Monster>): Result<Tables>
  {
    var byId := PgIndex.IndexBy(list0, IdOf);
    match EvoFromAll(list0, byId)
    case Err(e) => Err(e)
    case Ok(ef) =>
      match SplitGroups(byId, Roots(list0, ef))
      case Err(e) => Err(e)
      case Ok(groups) => Ok(Finished(list0, byId, ef, groups.0, groups.1))
  }

  /** The stages that cannot fail: unzip and sort, the nickname tables, the id index. */
  function Finished(list0: seq<Monster>, byId: map<int, Monster>, ef: map<int, seq<int>>,
                    hg: seq<seq<Monster>>, lg: seq<seq<Monster>>): Tables
  {
    var hp := SortByKey(Flatten(hg, HighSelectionPriority), DescKey);
    var lp := SortByKey(Flatten(lg, LowSelectionPriority), DescKey);
    var list := FinalList(list0, PgIndex.IndexBy(hp + lp, IdOf));
    Tables(list, byId, ef, hg, lg, hp, lp,
           FirstClaims(map[], hp + lp, EntryNames), FirstClaims(map[], hp + lp, TwoWordNames),
           PgIndex.IndexBy(list, IdNaOf))
  }

  /** `Finished` recognised from its parts. */
  lemma FinishedIs(list0: seq<Monster>, byId: map<int, Monster>, ef: map<int, seq<int>>,
                   hg: seq<seq<Monster>>, lg: seq<seq<Monster>>, t: Tables)
    requires t.fullMonsterMap == byId && t.evoFrom == ef && t.hpMonsterGroups == hg && t.lpMonsterGroups == lg
    requires t.hpMonsters == SortByKey(Flatten(hg, HighSelectionPriority), DescKey)
    requires t.lpMonsters == SortByKey(Flatten(lg, LowSelectionPriority), DescKey)
    requires t.allEntries == FirstClaims(map[], t.hpMonsters + t.lpMonsters, EntryNames)
    requires t.twoWordEntries == FirstClaims(map[], t.hpMonsters + t.lpMonsters, TwoWordNames)
    requires t.fullMonsterList == FinalList(list0, PgIndex.IndexBy(t.hpMonsters + t.lpMonsters, IdOf))
    requires t.idToMonster == PgIndex.IndexBy(t.fullMonsterList, IdNaOf)
    ensures Finished(list0, byId, ef, hg, lg) == t
  {
  }

  /** The load fails exactly when a monster has an unknown attribute or evolution, or a group fails. */
  lemma LoadedFails(raw: seq<Monster>)
    ensures Loaded(raw).Err? <==>
              || (exists i :: 0 <= i < |raw| && Prepared(raw[i]).Err?)
              || (MapResult(raw, Prepared).Ok? &&
                  var list0 := MapResult(raw, Prepared).value;
                  || (exists k, t :: 0 <= k < |list0| && t in list0[k].evoTo && t !in PgIndex.IndexBy(list0, IdOf))
                  || (EvoFromAll(list0, PgIndex.IndexBy(list0, IdOf)).Ok? &&
                      SplitGroups(PgIndex.IndexBy(list0, IdOf), Roots(list0, EvoFromAll(list0, PgIndex.IndexBy(list0, IdOf)).value)).Err?))
  {
    MapResultSpec(raw, Prepared);
    if MapResult(raw, Prepared).Ok? {
      var list0 := MapResult(raw, Prepared).value;
      EvoFromAllSpec(list0, PgIndex.IndexBy(list0, IdOf));
    }
  }

  /**
   * After a load, each priority list is sorted largest group first, holds
   * exactly the members of its groups, and each carries its list's priority.
   */
  lemma LoadedPriorities(raw: seq<Monster>)
    requires Loaded(raw).Ok?
    ensures var t := Loaded(raw).value;
      && SortedBy(t.hpMonsters, DescKey) && SortedBy(t.lpMonsters, DescKey)
      && multiset(t.hpMonsters) == multiset(Flatten(t.hpMonsterGroups, HighSelectionPriority))
      && multiset(t.lpMonsters) == multiset(Flatten(t.lpMonsterGroups, LowSelectionPriority))
      && (forall x :: x in t.hpMonsters ==> x.selectionPriority == HighSelectionPriority)
      && (forall x :: x in t.lpMonsters ==> x.selectionPriority == LowSelectionPriority)
  {
    var t := Loaded(raw).value;
    FlattenSpec(t.hpMonsterGroups, HighSelectionPriority);
    FlattenSpec(t.lpMonsterGroups, LowSelectionPriority);
    forall x | x in t.hpMonsters ensures x.selectionPriority == HighSelectionPriority {
      assert x in multiset(t.hpMonsters);
    }
    forall x | x in t.lpMonsters ensures x.selectionPriority == LowSelectionPriority {
      assert x in multiset(t.lpMonsters);
    }
  }

  /** Every table value the lookups can return is a monster the load knows. */
  predicate Known(t: Tables)
  {
    && (forall n :: n in t.allEntries ==> t.allEntries[n] in t.fullMonsterList || t.allEntries[n] in t.hpMonsters + t.lpMonsters)
    && (forall n :: n in t.twoWordEntries ==> t.twoWordEntries[n] in t.hpMonsters + t.lpMonsters)
    && (forall k :: k in t.idToMonster ==> t.idToMonster[k] in t.fullMonsterList && t.idToMonster[k].monsterIdNa == k)
  }

  lemma {:induction false} FirstClaimsValues<T>(e: map<string, T>, xs: seq<T>, names: T -> set<string>, n: string)
    requires n in FirstClaims(e, xs, names) && n !in e
    ensures FirstClaims(e, xs, names)[n] in xs && n in names(FirstClaims(e, xs, names)[n])
  {
    FirstClaimsFirst(e, xs, names, n);
  }

  /**
   * A successful load leaves every entry filed under one of its own names, and
   * `id_to_monster` filing each monster of the list under its NA id.
   */
  lemma LoadedKnown(raw: seq<Monster>)
    requires Loaded(raw).Ok?
    ensures Known(Loaded(raw).value)
    ensures var t := Loaded(raw).value;
      && (forall n :: n in t.allEntries ==> n in EntryNames(t.allEntries[n]))
      && (forall n :: n in t.twoWordEntries ==> n in TwoWordNames(t.twoWordEntries[n]))
      && (forall k :: k in t.idToMonster <==> exists i :: 0 <= i < |t.fullMonsterList| && t.fullMonsterList[i].monsterIdNa == k)
  {
    var t := Loaded(raw).value;
    forall n | n in t.allEntries ensures t.allEntries[n] in t.hpMonsters + t.lpMonsters && n in EntryNames(t.allEntries[n]) {
      FirstClaimsValues(map[], t.hpMonsters + t.lpMonsters, EntryNames, n);
    }
    forall n | n in t.twoWordEntries ensures t.twoWordEntries[n] in t.hpMonsters + t.lpMonsters && n in TwoWordNames(t.twoWordEntries[n]) {
      FirstClaimsValues(map[], t.hpMonsters + t.lpMonsters, TwoWordNames, n);
    }
    forall k ensures (k in t.idToMonster ==> t.idToMonster[k] in t.fullMonsterList && t.idToMonster[k].monsterIdNa == k)
                     && (k in t.idToMonster <==> exists i :: 0 <= i < |t.fullMonsterList| && t.fullMonsterList[i].monsterIdNa == k) {
      PgIndex.IndexByLast(t.fullMonsterList, IdNaOf, k);
    }
  }

  /** Every value the override loop writes is a value of `id_to_monster`. */
  lemma {:induction false} OverridesValues<T>(e: map<string, T>, os: seq<Option<(string, int)>>, ids: map<int, T>, n: string)
    requires n in Overrides(e, os, ids).0
    ensures (n in e && Overrides(e, os, ids).0[n] == e[n]) || exists k :: k in ids && Overrides(e, os, ids).0[n] == ids[k]
  {
    if os != [] {
      var front := os[..|os| - 1];
      var before := Overrides(e, front, ids);
      if before.1.Pass? && os[|os| - 1].Some? && os[|os| - 1].value.1 in ids && os[|os| - 1].value.0 == n {
        var k := os[|os| - 1].value.1;
        assert Overrides(e, os, ids).0[n] == ids[k];
      } else {
        OverridesValues(e, front, ids, n);
      }
    }
  }

  /** The overrides keep every table value known. */
  lemma OverridesKnown(t: Tables, os: seq<Option<(string, int)>>)
    requires Known(t)
    ensures Known(t.(allEntries := Overrides(t.allEntries, os, t.idToMonster).0))
  {
    forall n | n in Overrides(t.allEntries, os, t.idToMonster).0
      ensures Overrides(t.allEntries, os, t.idToMonster).0[n] in t.fullMonsterList
              || Overrides(t.allEntries, os, t.idToMonster).0[n] in t.hpMonsters + t.lpMonsters {
      OverridesValues(t.allEntries, os, t.idToMonster, n);
    }
  }

  // ------------------------------------------------------------ findMonster

  /** The loop over `all_entries.items()` of one stage. */
  method CollectEntries(e: map<string, Monster>, t: EntryTest) returns (s: set<Monster>)
    ensures s == Matches(e, e.Keys, t)
  {
    s := {};
    var rest, done := e.Keys, {};
    while rest != {}
      invariant done + rest == e.Keys
      invariant s == Matches(e, done, t)
      decreases |rest|
    {
      var n :| n in rest;
      MatchesGrow(e, done, n, t);
      PgIndex.SetStep(done, rest, n);
      if PassesTest(t, n, e[n]) {
        s := s + {e[n]};
      }
      rest, done := rest - {n}, done + {n};
    }
  }

  /** The loop over `full_monster_list` of the last stage. */
  method CollectList(ms: seq<Monster>, q: string) returns (s: set<Monster>)
    ensures s == ListMatchesOf(ms, q)
  {
    s := {};
    var i := 0;
    while i < |ms|
      invariant 0 <= i <= |ms|
      invariant s == ListMatchesOf(ms[..i], q)
    {
      ListMatchesStep(ms, q, i);
      if NameContainsQuery(ms[i], q) {
        s := s + {ms[i]};
      }
      i := i + 1;
    }
    assert ms[..i] == ms;
  }

  /**
   * What `findMonster` answers for a lowered and stripped query over the
   * tables: an id lookup for digits, an exact nickname, the length gate, then
   * the first stage whose match set is non-empty, settled by `pickBestMonster`.
   */
  ghost predicate Resolves(t: Tables, q: string, r: Answer)
  {
    if IsDigits(q) then
      r == if DigitsValue(q) in t.idToMonster then Hit(t.idToMonster[DigitsValue(q)], PgIndex.IdLookup)
           else Miss(PgIndex.IdNotFound)
    else if q in t.allEntries then r == Hit(t.allEntries[q], PgIndex.ExactNickname)
    else if |q| < 4 then r == Miss(PgIndex.TooShort)
    else if Matches(t.allEntries, t.allEntries.Keys, SpacePrefixOf(q)) != {} then
      BestHit(r, Matches(t.allEntries, t.allEntries.Keys, SpacePrefixOf(q)), PgIndex.SpaceNicknamePrefix)
    else if Matches(t.allEntries, t.allEntries.Keys, PrefixOf(q)) != {} then
      BestHit(r, Matches(t.allEntries, t.allEntries.Keys, PrefixOf(q)), PgIndex.NicknamePrefix)
    else if Matches(t.allEntries, t.allEntries.Keys, FullNameOf(q)) != {} then
      BestHit(r, Matches(t.allEntries, t.allEntries.Keys, FullNameOf(q)), PgIndex.FullNamePrefix)
    else if q in t.twoWordEntries then r == Hit(t.twoWordEntries[q], PgIndex.SecondWordNickname)
    else if Matches(t.allEntries, t.allEntries.Keys, NameInOf(q)) != {} then
      BestHit(r, Matches(t.allEntries, t.allEntries.Keys, NameInOf(q)), PgIndex.NameOnNickname)
    else if ListMatchesOf(t.fullMonsterList, q) != {} then
      BestHit(r, ListMatchesOf(t.fullMonsterList, q), PgIndex.NameOnFullList)
    else r == Miss("Could not find a match for: " + q)
  }

  /** Over tables the load and the overrides produced, any monster found is one the load knows. */
  lemma HitIsKnown(t: Tables, q: string, r: Answer)
    requires Known(t) && Resolves(t, q, r) && r.Hit?
    ensures r.monster in t.fullMonsterList || r.monster in t.hpMonsters + t.lpMonsters
  {
    if IsDigits(q) {
    } else if q in t.allEntries {
    } else if r.stage == PgIndex.SecondWordNickname {
    } else if r.stage == PgIndex.NameOnFullList {
      assert r.monster in ListMatchesOf(t.fullMonsterList, q);
    } else {
      var n :| n in t.allEntries && t.allEntries[n] == r.monster;
    }
  }

  /** `PgDataWrapper`: the monster list, its evolution groups and the nickname tables. */
  class PgDataWrapper {
    var fullMonsterList: seq<Monster>
    var fullMonsterMap: map<int, Monster>
    var evoFrom: map<int, seq<int>>
    var hpMonsterGroups: seq<seq<Monster>>
    var lpMonsterGroups: seq<seq<Monster>>
    var hpMonsters: seq<Monster>
    var lpMonsters: seq<Monster>
    var allEntries: map<string, Monster>
    var twoWordEntries: map<string, Monster>
    var idToMonster: map<int, Monster>

    /** The empty wrapper, before `Load` runs the body of `__init__`. */
    constructor ()
      ensures fullMonsterList == [] && fullMonsterMap == map[] && evoFrom == map[]
      ensures hpMonsterGroups == [] && lpMonsterGroups == [] && hpMonsters == [] && lpMonsters == []
      ensures allEntries == map[] && twoWordEntries == map[] && idToMonster == map[]
    {
      fullMonsterList, fullMonsterMap, evoFrom := [], map[], map[];
      hpMonsterGroups, lpMonsterGroups, hpMonsters, lpMonsters := [], [], [], [];
      allEntries, twoWordEntries, idToMonster := map[], map[], map[];
    }

    /**
     * The loop over the base monsters: each one through `step`, then into the
     * list and the map by id; the first error stops it.
     */
    static method PrepareAll(raw: seq<Monster>, step: Monster -> Result<Monster>)
      returns (r: Result<(seq<Monster>, map<int, Monster>)>)
      ensures r.Ok? <==> MapResult(raw, step).Ok?
      ensures r.Ok? ==> r.value.0 == MapResult(raw, step).value && r.value.1 == PgIndex.IndexBy(r.value.0, IdOf)
    {
      var list, byId := [], map[];
      var i := 0;
      while i < |raw|
        invariant 0 <= i <= |raw|
        invariant MapResult(raw[..i], step) == Ok(list)
        invariant byId == PgIndex.IndexBy(list, IdOf)
      {
        var m := step(raw[i]);
        MapResultStep(raw, step, i);
        if m.Err? {
          MapResultPrefix(raw, step, i + 1);
          return Err(m.error);
        }
        ghost var before := list;
        list := list + [m.value];
        byId := byId[m.value.monsterId := m.value];
        assert list[..|list| - 1] == before;
        i := i + 1;
      }
      assert raw[..i] == raw;
      return Ok((list, byId));
    }

    /** The monster loop of `__init__`: nickname and prefixes for each, then into the list and the map. */
    method LoadMonsters(raw: seq<Monster>) returns (r: Outcome)
      modifies this`fullMonsterList, this`fullMonsterMap
      ensures r.Pass? <==> MapResult(raw, Prepared).Ok?
      ensures r.Pass? ==> fullMonsterList == MapResult(raw, Prepared).value && fullMonsterMap == PgIndex.IndexBy(fullMonsterList, IdOf)
    {
      var res := PrepareAll(raw, Prepared);
      if res.Err? {
        return Fail(res.error);
      }
      fullMonsterList, fullMonsterMap := res.value.0, res.value.1;
      return Pass;
    }

    /** The `evo_from` loops: each monster's id is appended to the list of every monster it evolves into. */
    method LinkEvoFrom() returns (r: Outcome)
      modifies this`evoFrom
      ensures r.Pass? <==> EvoFromAll(fullMonsterList, fullMonsterMap).Ok?
      ensures r.Pass? ==> evoFrom == EvoFromAll(fullMonsterList, fullMonsterMap).value
    {
      evoFrom := map[];
      var i := 0;
      while i < |fullMonsterList|
        invariant 0 <= i <= |fullMonsterList|
        invariant EvoFromAll(fullMonsterList[..i], fullMonsterMap) == Ok(evoFrom)
      {
        var m := fullMonsterList[i];
        ghost var start := evoFrom;
        var j := 0;
        while j < |m.evoTo|
          invariant 0 <= j <= |m.evoTo|
          invariant EvoFromOne(start, m.monsterId, m.evoTo[..j], fullMonsterMap) == Ok(evoFrom)
        {
          var t := m.evoTo[j];
          EvoFromOneStep(start, m.monsterId, m.evoTo, fullMonsterMap, j);
          if t !in fullMonsterMap {
            EvoFromAllSpec(fullMonsterList, fullMonsterMap);
            assert t in fullMonsterList[i].evoTo;
            return Fail("KeyError: full_monster_map");
          }
          evoFrom := evoFrom[t := EvoSources(evoFrom, t) + [m.monsterId]];
          j := j + 1;
        }
        assert m.evoTo[..j] == m.evoTo;
        EvoFromAllStep(fullMonsterList, fullMonsterMap, i);
        i := i + 1;
      }
      assert fullMonsterList[..i] == fullMonsterList;
      return Pass;
    }

    /** One root: `buildMonsterGroup`'s walk, then the group nickname, the sizes and the priority test. */
    static method GroupOne(byId: map<int, Monster>, root: int) returns (r: Result<(seq<Monster>, bool)>)
      ensures r == GroupAt(byId, root)
    {
      var walk := PgDatabase.RecursiveAdd(Graph(byId), root, {}, []);
      if walk.None? {
        return Err("RecursionError: maximum recursion depth exceeded");
      }
      var ids := walk.value;
      ghost var pre := PgDatabase.Preorder(Graph(byId), root, {});
      assert pre.Some? && [] + pre.value == pre.value;
      assert ids == pre.value;
      assert forall i :: 0 <= i < |ids| ==> ids[i] in ids;
      var g := Grouped(MembersOf(byId, ids));
      var low := IsLowGroup(g);
      if low.Err? {
        return Err(low.error);
      }
      return Ok((g, low.value));
    }

    /** The loop over `full_monster_list` that builds a group from each root and files it as high or low priority. */
    method BuildGroups() returns (r: Outcome)
      modifies this`hpMonsterGroups, this`lpMonsterGroups
      ensures r.Pass? <==> SplitGroups(fullMonsterMap, Roots(fullMonsterList, evoFrom)).Ok?
      ensures r.Pass? ==> (hpMonsterGroups, lpMonsterGroups) == SplitGroups(fullMonsterMap, Roots(fullMonsterList, evoFrom)).value
    {
      var groups := GroupRoots(fullMonsterList, fullMonsterMap, evoFrom);
      if groups.Err? {
        return Fail(groups.error);
      }
      hpMonsterGroups, lpMonsterGroups := groups.value.0, groups.value.1;
      return Pass;
    }

    /** The body of that loop over the list, the map and `evo_from` as values. */
    static method GroupRoots(list: seq<Monster>, byId: map<int, Monster>, ef: map<int, seq<int>>)
      returns (r: Result<(seq<seq<Monster>>, seq<seq<Monster>>)>)
      ensures r.Ok? <==> SplitGroups(byId, Roots(list, ef)).Ok?
      ensures r.Ok? ==> r.value == SplitGroups(byId, Roots(list, ef)).value
    {
      var hg, lg := [], [];
      var i := 0;
      ghost var roots: seq<int> := [];
      while i < |list|
        invariant 0 <= i <= |list|
        invariant roots == Roots(list[..i], ef)
        invariant SplitGroups(byId, roots) == Ok((hg, lg))
      {
        var m := list[i];
        RootsStep(list, ef, i);
        if EvoSources(ef, m.monsterId) == [] {
          var g := GroupOne(byId, m.monsterId);
          SplitGroupsStep(byId, roots, m.monsterId);
          if g.Err? {
            RootFails(byId, list, ef, i);
            return Err(g.error);
          }
          if g.value.1 {
            lg := lg + [g.value.0];
          } else {
            hg := hg + [g.value.0];
          }
          roots := roots + [m.monsterId];
        }
        i := i + 1;
      }
      assert list[..i] == list;
      return Ok((hg, lg));
    }

    /** The unzip loop over one list of groups, setting each member's selection priority. */
    static method AppendGroups(gs: seq<seq<Monster>>, priority: int) returns (r: seq<Monster>)
      ensures r == Flatten(gs, priority)
    {
      r := [];
      var k := 0;
      while k < |gs|
        invariant 0 <= k <= |gs|
        invariant r == Flatten(gs[..k], priority)
      {
        var g := gs[k];
        ghost var start := r;
        var i := 0;
        while i < |g|
          invariant 0 <= i <= |g|
          invariant r == start + seq(i, j requires 0 <= j < i => g[j].(selectionPriority := priority))
        {
          r := r + [g[i].(selectionPriority := priority)];
          i := i + 1;
        }
        assert gs[..k + 1][..k] == gs[..k];
        k := k + 1;
      }
      assert gs[..k] == gs;
    }

    /** The unzip loops and the two sorts, largest group first and then largest NA id. */
    method Unzip()
      modifies this`hpMonsters, this`lpMonsters
      ensures hpMonsters == SortByKey(Flatten(hpMonsterGroups, HighSelectionPriority), DescKey)
      ensures lpMonsters == SortByKey(Flatten(lpMonsterGroups, LowSelectionPriority), DescKey)
    {
      var hp := AppendGroups(hpMonsterGroups, HighSelectionPriority);
      var lp := AppendGroups(lpMonsterGroups, LowSelectionPriority);
      hpMonsters := SortByKey(hp, DescKey);
      lpMonsters := SortByKey(lp, DescKey);
    }

    /** `maybeAdd`: a name already present keeps its monster. */
    static method MaybeAdd<T>(e: map<string, T>, name: string, x: T) returns (r: map<string, T>)
      ensures r == KeepFirst(e, {name}, x)
    {
      if name !in e {
        r := e[name := x];
      } else {
        r := e;
      }
    }

    /** The loop over a monster's prefixes: `p + name` and then `p + ' ' + name`. */
    static method AddGlued<T>(e: map<string, T>, ps: set<string>, name: string, x: T) returns (r: map<string, T>)
      ensures r == KeepFirst(e, Glued(ps, name), x)
    {
      r := e;
      var rest, done := ps, {};
      while rest != {}
        invariant done + rest == ps
        invariant r == KeepFirst(e, Glued(done, name), x)
        decreases |rest|
      {
        var p :| p in rest;
        r := MaybeAdd(r, p + name, x);
        r := MaybeAdd(r, p + " " + name, x);
        KeepFirstGluedStep(e, done, p, name, x);
        PgIndex.SetStep(done, rest, p);
        rest, done := rest - {p}, done + {p};
      }
    }

    /** The `all_entries` part of one step of `buildNicknameLists`. */
    static method AddEntryNames(e: map<string, Monster>, m: Monster) returns (r: map<string, Monster>)
      ensures r == KeepFirst(e, EntryNames(m), m)
    {
      r := MaybeAdd(e, m.nickname, m);
      r := AddGlued(r, m.prefixes, m.nickname, m);
      KeepFirstUnion(e, {m.nickname}, Glued(m.prefixes, m.nickname), m);
      if m.romaSubname.Some? && m.romaSubname.value != "" {
        KeepFirstUnion(e, {m.nickname} + Glued(m.prefixes, m.nickname), {m.romaSubname.value}, m);
        r := MaybeAdd(r, m.romaSubname.value, m);
      } else {
        assert EntryNames(m) == {m.nickname} + Glued(m.prefixes, m.nickname);
      }
    }

    /** The `two_word_entries` part: only a nickname of two words adds its second word. */
    static method AddTwoWordNames(e: map<string, Monster>, m: Monster) returns (r: map<string, Monster>)
      ensures r == KeepFirst(e, TwoWordNames(m), m)
    {
      var words := Split(m.nickname, ' ');
      if |words| == 2 {
        r := MaybeAdd(e, words[1], m);
        r := AddGlued(r, m.prefixes, words[1], m);
        KeepFirstUnion(e, {words[1]}, Glued(m.prefixes, words[1]), m);
      } else {
        r := e;
        assert KeepFirst(e, {}, m) == e;
      }
    }

    /** `buildNicknameLists`: every name of every monster, first claim wins, in both tables. */
    method BuildNicknameLists(ms: seq<Monster>)
      modifies this`allEntries, this`twoWordEntries
      ensures allEntries == FirstClaims(old(allEntries), ms, EntryNames)
      ensures twoWordEntries == FirstClaims(old(twoWordEntries), ms, TwoWordNames)
    {
      var i := 0;
      while i < |ms|
        invariant 0 <= i <= |ms|
        invariant allEntries == FirstClaims(old(allEntries), ms[..i], EntryNames)
        invariant twoWordEntries == FirstClaims(old(twoWordEntries), ms[..i], TwoWordNames)
      {
        allEntries := AddEntryNames(allEntries, ms[i]);
        twoWordEntries := AddTwoWordNames(twoWordEntries, ms[i]);
        assert ms[..i + 1][..i] == ms[..i];
        i := i + 1;
      }
      assert ms[..i] == ms;
    }

    /**
     * The list now holds the grouped copies (`hp` before `lp`, so a monster in
     * both ends with the low priority), and `id_to_monster` indexes it by NA id.
     */
    method IndexIds()
      modifies this`fullMonsterList, this`idToMonster
      ensures fullMonsterList == FinalList(old(fullMonsterList), PgIndex.IndexBy(hpMonsters + lpMonsters, IdOf))
      ensures idToMonster == PgIndex.IndexBy(fullMonsterList, IdNaOf)
    {
      var list := FinalList(fullMonsterList, PgIndex.IndexBy(hpMonsters + lpMonsters, IdOf));
      var ids := map[];
      var i := 0;
      while i < |list|
        invariant 0 <= i <= |list|
        invariant ids == PgIndex.IndexBy(list[..i], IdNaOf)
      {
        PgIndex.IndexByStep(list, IdNaOf, i);
        ids := ids[list[i].monsterIdNa := list[i]];
        i := i + 1;
      }
      assert list[..i] == list;
      fullMonsterList, idToMonster := list, ids;
    }

    /** One row of the override loop, with its `continue` tests in order. */
    static method ReadOverride(row: seq<string>) returns (o: Option<(string, int)>)
      ensures o == OverrideRow(row)
    {
      if |row| < 4 {
        return None;
      }
      var nickname := Lower(Strip(row[1]));
      var mId := Strip(row[2]);
      var approved := Upper(Strip(row[3]));
      if nickname == [] || mId == [] || approved == [] {
        return None;
      }
      if approved != "TRUE" || !IsDigits(mId) {
        return None;
      }
      return Some((nickname, DigitsValue(mId)));
    }

    /** `populateWithOverrides` over the rows the CSV reader yields. */
    method PopulateWithOverrides(rows: seq<seq<string>>) returns (r: Outcome)
      modifies this`allEntries
      ensures (allEntries, r) == Overrides(old(allEntries), ReadRows(rows), idToMonster)
    {
      ghost var os := ReadRows(rows);
      var i := 0;
      while i < |rows|
        invariant 0 <= i <= |rows|
        invariant Overrides(old(allEntries), os[..i], idToMonster) == (allEntries, Pass)
      {
        var o := ReadOverride(rows[i]);
        OverridesStep(old(allEntries), os, idToMonster, i);
        if o.Some? {
          if o.value.1 !in idToMonster {
            OverridesFailStays(old(allEntries), os, idToMonster, i + 1);
            return Fail("KeyError: id_to_monster");
          }
          allEntries := allEntries[o.value.0 := idToMonster[o.value.1]];
        }
        i := i + 1;
      }
      assert os[..i] == os;
      return Pass;
    }
    /** The wrapper's tables as a value. */
    function Snapshot(): Tables
      reads this
    {
      Tables(fullMonsterList, fullMonsterMap, evoFrom, hpMonsterGroups, lpMonsterGroups,
             hpMonsters, lpMonsters, allEntries, twoWordEntries, idToMonster)
    }

    /** The body of `__init__`, stage by stage; an exception stops it. */
    method Load(raw: seq<Monster>) returns (r: Outcome)
      modifies this
      ensures r.Pass? <==> Loaded(raw).Ok?
      ensures r.Pass? ==> Snapshot() == Loaded(raw).value
    {
      r := LoadMonsters(raw);
      if r.Fail? {
        return;
      }
      assert Loaded(raw) == Linked(fullMonsterList);
      r := LinkAndGroup();
      if r.Fail? {
        return;
      }
      Finish();
    }

    /** The `evo_from` loops, then the groups. */
    method LinkAndGroup() returns (r: Outcome)
      requires fullMonsterMap == PgIndex.IndexBy(fullMonsterList, IdOf)
      modifies this`evoFrom, this`hpMonsterGroups, this`lpMonsterGroups
      ensures r.Pass? <==> Linked(fullMonsterList).Ok?
      ensures r.Pass? ==> Linked(fullMonsterList) == Ok(Finished(fullMonsterList, fullMonsterMap, evoFrom, hpMonsterGroups, lpMonsterGroups))
    {
      r := LinkEvoFrom();
      if r.Fail? {
        return;
      }
      r := BuildGroups();
    }

    /** The two calls of `buildNicknameLists`, high priority first, over empty tables. */
    method BuildTables()
      modifies this`allEntries, this`twoWordEntries
      ensures allEntries == FirstClaims(map[], hpMonsters + lpMonsters, EntryNames)
      ensures twoWordEntries == FirstClaims(map[], hpMonsters + lpMonsters, TwoWordNames)
    {
      allEntries, twoWordEntries := map[], map[];
      BuildNicknameLists(hpMonsters);
      BuildNicknameLists(lpMonsters);
      FirstClaimsAppend(map[], hpMonsters, lpMonsters, EntryNames);
      FirstClaimsAppend(map[], hpMonsters, lpMonsters, TwoWordNames);
    }

    /** The stages of `__init__` that cannot fail: unzip and sort, the nickname tables, the id index. */
    method Finish()
      modifies this`hpMonsters, this`lpMonsters, this`allEntries, this`twoWordEntries, this`fullMonsterList, this`idToMonster
      ensures Snapshot() == Finished(old(fullMonsterList), fullMonsterMap, evoFrom, hpMonsterGroups, lpMonsterGroups)
    {
      SortAndName();
      IndexIds();
      FinishedIs(old(fullMonsterList), fullMonsterMap, evoFrom, hpMonsterGroups, lpMonsterGroups, Snapshot());
    }

    /** Unzip and sort, then the nickname tables over the sorted lists. */
    method SortAndName()
      modifies this`hpMonsters, this`lpMonsters, this`allEntries, this`twoWordEntries
      ensures hpMonsters == SortByKey(Flatten(hpMonsterGroups, HighSelectionPriority), DescKey)
      ensures lpMonsters == SortByKey(Flatten(lpMonsterGroups, LowSelectionPriority), DescKey)
      ensures allEntries == FirstClaims(map[], hpMonsters + lpMonsters, EntryNames)
      ensures twoWordEntries == FirstClaims(map[], hpMonsters + lpMonsters, TwoWordNames)
    {
      Unzip();
      BuildTables();
    }

    /** `findMonster`, as the cog runs it over its wrapper's tables. */
    method FindMonster(query: string) returns (r: Answer)
      ensures Resolves(Snapshot(), Strip(Lower(query)), r)
    {
      var q := Strip(Lower(query));
      if IsDigits(q) {
        var no := DigitsValue(q);
        if no in idToMonster {
          return Hit(idToMonster[no], PgIndex.IdLookup);
        }
        return Miss(PgIndex.IdNotFound);
      }
      if q in allEntries {
        return Hit(allEntries[q], PgIndex.ExactNickname);
      }
      if |q| < 4 {
        return Miss(PgIndex.TooShort);
      }
      var matches := CollectEntries(allEntries, SpacePrefixOf(q));
      if matches != {} {
        var best := PickBest(matches, SelectKey);
        return Hit(best, PgIndex.SpaceNicknamePrefix);
      }
      matches := CollectEntries(allEntries, PrefixOf(q));
      if matches != {} {
        var best := PickBest(matches, SelectKey);
        return Hit(best, PgIndex.NicknamePrefix);
      }
      matches := CollectEntries(allEntries, FullNameOf(q));
      if matches != {} {
        var best := PickBest(matches, SelectKey);
        return Hit(best, PgIndex.FullNamePrefix);
      }
      if q in twoWordEntries {
        return Hit(twoWordEntries[q], PgIndex.SecondWordNickname);
      }
      matches := CollectEntries(allEntries, NameInOf(q));
      if matches != {} {
        var best := PickBest(matches, SelectKey);
        return Hit(best, PgIndex.NameOnNickname);
      }
      matches := CollectList(fullMonsterList, q);
      if matches != {} {
        var best := PickBest(matches, SelectKey);
        return Hit(best, PgIndex.NameOnFullList);
      }
      return Miss("Could not find a match for: " + q);
    }
  }
}
