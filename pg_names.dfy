/**
 * How the padguide2 index names a monster: the basename of one monster, the
 * basename of its evolution group, the group's priority, the prefixes a
 * monster answers to, the nickname sets of a `NamedMonster`, and the cleaning
 * of the two override tables.
 */
module PgNames {

  import opened Wrappers
  import opened Text
  import opened PgRecords

  // ------------------------------------------------------------ string order

  /** Python's `<=` on strings. */
  predicate StrLe(a: string, b: string)
  {
    a == b || StrLt(a, b)
  }

  lemma {:induction false} StrLtIrreflexive(a: string)
    ensures !StrLt(a, a)
  {
    if a != [] {
      StrLtIrreflexive(a[1..]);
    }
  }

  lemma {:induction false} StrLtTotal(a: string, b: string)
    requires a != b
    ensures StrLt(a, b) || StrLt(b, a)
  {
    if a != [] && b != [] && a[0] == b[0] {
      assert a == [a[0]] + a[1..] && b == [b[0]] + b[1..];
      StrLtTotal(a[1..], b[1..]);
    }
  }

  lemma StrLeTotal(a: string, b: string)
    ensures StrLe(a, b) || StrLe(b, a)
  {
    if a != b {
      StrLtTotal(a, b);
    }
  }

  lemma {:induction false} StrLtAsymmetric(a: string, b: string)
    requires StrLt(a, b)
    ensures !StrLt(b, a)
  {
    if a != [] && b != [] && a[0] == b[0] {
      StrLtAsymmetric(a[1..], b[1..]);
    }
  }

  // -------------------------------------------------------- monster basename

  /**
   * The comma rule of `_compute_monster_basename` on the lower-cased name: for
   * 'xxx, the yyy' keep what precedes the first comma, otherwise keep what
   * follows the last one.
   */
  function CommaSegment(name: string): (r: string)
    ensures ',' !in r
    ensures ',' !in name ==> r == name
    ensures forall c :: c in r ==> c in name
  {
    if ',' !in name then name
    else
      var parts := Split(name, ',');
      SplitCount(name, ',');
      SplitChars(name, ',');
      if StartsWith(Strip(parts[1]), "the ") then parts[0] else parts[|parts| - 1]
  }

  predicate StartsWith(s: string, p: string) { p <= s }

  lemma {:induction false} SplitChars(s: string, sep: char)
    ensures forall i, c :: 0 <= i < |Split(s, sep)| && c in Split(s, sep)[i] ==> c in s
  {
    if s != [] {
      SplitChars(s[1..], sep);
      var rest := Split(s[1..], sep);
      forall i, c | 0 <= i < |Split(s, sep)| && c in Split(s, sep)[i] ensures c in s {
        assert s == [s[0]] + s[1..];
        if s[0] == sep {
          assert Split(s, sep)[i] == ([""] + rest)[i];
          if i > 0 {
            assert c in rest[i - 1];
            assert c in s[1..];
          }
        } else if i == 0 {
          assert c in [s[0]] + rest[0];
          if c != s[0] {
            assert c in rest[0];
            assert c in s[1..];
          }
        } else {
          assert Split(s, sep)[i] == rest[i];
          assert c in s[1..];
        }
      }
    }
  }

  lemma {:induction false} RemoveAllChars(s: string, w: string)
    ensures forall c :: c in RemoveAll(s, w) ==> c in s
    decreases |s|
  {
    if s != [] && w != [] {
      if w <= s {
        RemoveAllChars(s[|w|..], w);
      } else {
        RemoveAllChars(s[1..], w);
      }
    }
  }

  lemma StripChars(s: string)
    ensures forall c :: c in Strip(s) ==> c in s
  {
    var t := TrimRight(s);
    assert forall c :: c in t ==> c in s;
    assert forall c :: c in TrimLeft(t) ==> c in t by {
      assert t[|t| - |TrimLeft(t)|..] == TrimLeft(t);
    }
  }

  /** Remove every occurrence of `word` when the name starts with it. */
  function DropLeading(s: string, word: string): (r: string)
    ensures forall c :: c in r ==> c in s
    ensures !StartsWith(s, word) ==> r == s
  {
    RemoveAllChars(s, word);
    if StartsWith(s, word) then RemoveAll(s, word) else s
  }

  /** `NamedMonsterGroup._compute_monster_basename`. */
  function MonsterBasename(nameNa: string): (r: string)
  {
    Strip(DropLeading(DropLeading(CommaSegment(Lower(nameNa)), "awoken"), "reincarnated"))
  }

  /**
   * A basename is lower case, has no comma and no surrounding whitespace,
   * and is made of characters of the name alone.
   */
  lemma MonsterBasenameShape(nameNa: string)
    ensures ',' !in MonsterBasename(nameNa)
    ensures forall c :: c in MonsterBasename(nameNa) ==> !IsUpper(c) && c in Lower(nameNa)
    ensures var r := MonsterBasename(nameNa); r == [] || (!IsSpace(r[0]) && !IsSpace(r[|r| - 1]))
  {
    var low := Lower(nameNa);
    var seg := CommaSegment(low);
    var d := DropLeading(DropLeading(seg, "awoken"), "reincarnated");
    StripChars(d);
    forall c | c in low ensures !IsUpper(c) {
      var i :| 0 <= i < |low| && low[i] == c;
    }
  }

  /** A name with no comma that starts with neither word keeps its lower-cased, stripped self. */
  lemma MonsterBasenamePlain(nameNa: string)
    requires ',' !in Lower(nameNa)
    requires !StartsWith(Lower(nameNa), "awoken") && !StartsWith(Lower(nameNa), "reincarnated")
    ensures MonsterBasename(nameNa) == Strip(Lower(nameNa))
  {
  }

  // ---------------------------------------------------------- group basename

  function Count(bs: seq<string>, b: string): nat
  {
    multiset(bs)[b]
  }

  /** `b` beats `c` when more members share it, or as many do and it sorts first. */
  predicate Beats(bs: seq<string>, b: string, c: string)
  {
    Count(bs, b) > Count(bs, c) || (Count(bs, b) == Count(bs, c) && StrLe(b, c))
  }

  /** The best basename among `cands` (a suffix of the members' basenames), by `Beats`. */
  function BestAmong(bs: seq<string>, cands: seq<string>): (r: string)
    requires |cands| > 0
    ensures r in cands
    ensures forall c :: c in cands ==> Beats(bs, r, c)
  {
    if |cands| == 1 then cands[0]
    else
      var rest := BestAmong(bs, cands[1..]);
      if Beats(bs, cands[0], rest) then
        forall c | c in cands[1..] ensures Beats(bs, cands[0], c) {
          assert Beats(bs, rest, c);
          if StrLt(cands[0], rest) && StrLt(rest, c) {
            StrLtTransitive(cands[0], rest, c);
          }
        }
        cands[0]
      else
        StrLeTotal(cands[0], rest);
        rest
  }

  /**
   * `_compute_group_basename`: the basename most members share; sorting before
   * `groupby` and taking the first maximum breaks ties towards the smallest.
   */
  function GroupBasename(bs: seq<string>): (r: string)
    requires |bs| > 0
  {
    BestAmong(bs, bs)
  }

  /** The group basename has the largest count, and the smallest name among those that tie with it. */
  lemma GroupBasenameBest(bs: seq<string>)
    requires |bs| > 0
    ensures GroupBasename(bs) in bs
    ensures forall b :: b in bs ==> Count(bs, b) <= Count(bs, GroupBasename(bs))
    ensures forall b :: b in bs && Count(bs, b) == Count(bs, GroupBasename(bs)) ==> StrLe(GroupBasename(bs), b)
  {
  }

  /** Only one basename has both properties, so they pin the result down completely. */
  lemma GroupBasenameUnique(bs: seq<string>, r: string)
    requires |bs| > 0 && r in bs
    requires forall b :: b in bs ==> Count(bs, b) <= Count(bs, r)
    requires forall b :: b in bs && Count(bs, b) == Count(bs, r) ==> StrLe(r, b)
    ensures r == GroupBasename(bs)
  {
    var g := GroupBasename(bs);
    assert Beats(bs, g, r);
    assert Count(bs, g) <= Count(bs, r);
    if r != g {
      assert StrLt(r, g) && StrLt(g, r);
      StrLtAsymmetric(r, g);
    }
  }

  /** `basename.replace('-', ' ')`. */
  function DashToSpace(s: string): (r: string)
    ensures |r| == |s| && '-' !in r
    ensures forall i :: 0 <= i < |s| ==> r[i] == if s[i] == '-' then ' ' else s[i]
  {
    if s == [] then [] else [if s[0] == '-' then ' ' else s[0]] + DashToSpace(s[1..])
  }

  /** `computed_basenames`: the group basename, and its spaced form when it holds a dash. */
  function ComputedBasenames(b: string): (r: set<string>)
    ensures b in r
    ensures forall x :: x in r ==> x == b || ('-' in b && x == DashToSpace(b))
    ensures '-' in b ==> DashToSpace(b) in r && |r| == 2
    ensures '-' !in b ==> r == {b}
  {
    if '-' in b then
      assert DashToSpace(b) != b by {
        var i :| 0 <= i < |b| && b[i] == '-';
        assert DashToSpace(b)[i] == ' ';
      }
      {b, DashToSpace(b)}
    else {b}
  }

  /** `basename_overrides or computed_basenames`. */
  function Basenames(overrides: set<string>, computed: string): (r: set<string>)
    ensures overrides != {} ==> r == overrides
    ensures overrides == {} ==> r == ComputedBasenames(computed)
  {
    if overrides != {} then overrides else ComputedBasenames(computed)
  }

  // ------------------------------------------------------------ priority

  const LowPriorityTypes: seq<string> := ["evolve", "enhance", "protected", "awoken", "vendor"]

  /** `_is_low_priority_monster`, given the name of the monster's first type. */
  predicate LowPriorityMonster(m: MonsterRec, type1: string)
  {
    Lower(type1) in LowPriorityTypes
    || Contains(Lower(m.nameNa), "tamadra")
    || m.row.rarity < 2
    || Lower(m.nameNa) == m.nameNa
  }

  /** `max(m.rarity for m in members)`. */
  function MaxRarity(members: seq<MonsterRec>): (r: int)
    requires |members| > 0
    ensures exists i :: 0 <= i < |members| && members[i].row.rarity == r
    ensures forall i :: 0 <= i < |members| ==> members[i].row.rarity <= r
  {
    if |members| == 1 then members[0].row.rarity
    else
      var rest := MaxRarity(members[1..]);
      assert forall i :: 1 <= i < |members| ==> members[i] == members[1..][i - 1];
      if members[0].row.rarity >= rest then members[0].row.rarity else rest
  }

  /**
   * `NamedMonsterGroup.is_low_priority`.  The base monster is the first member;
   * its `type1` is None when its type id names no type, and `.lower()` on it
   * raises.
   */
  function IsLowPriority(members: seq<MonsterRec>): (r: Result<bool>)
    requires |members| > 0
    ensures r.Ok? <==> members[0].links.type1.Some?
    ensures r.Ok? ==> (r.value <==> LowPriorityMonster(members[0], members[0].links.type1.value)
                                     || forall i :: 0 <= i < |members| ==> members[i].row.rarity < 5)
  {
    match members[0].links.type1
    case None => Err("AttributeError: 'NoneType' object has no attribute 'lower'")
    case Some(t) => Ok(LowPriorityMonster(members[0], t) || MaxRarity(members) < 5)
  }

  // ------------------------------------------------------------- prefixes

  function ShortPrefix(a: Attribute): string
  {
    match a
    case Fire => "r"
    case Water => "b"
    case Wood => "g"
    case Light => "l"
    case Dark => "d"
  }

  function LongPrefixes(a: Attribute): set<string>
  {
    match a
    case Fire => {"red", "fire"}
    case Water => {"blue", "water"}
    case Wood => {"green", "wood"}
    case Light => {"light"}
    case Dark => {"dark"}
  }

  function SeriesPrefixes(tsrSeq: int): set<string>
  {
    if tsrSeq == 130 then {"halloween"}
    else if tsrSeq == 136 then {"xmas", "christmas"}
    else if tsrSeq == 125 then {"summer", "beach"}
    else if tsrSeq == 114 then {"school", "academy", "gakuen"}
    else if tsrSeq == 139 then {"new years", "ny"}
    else if tsrSeq == 149 then {"wedding", "bride"}
    else if tsrSeq == 154 then {"padr"}
    else {}
  }

  predicate IsChibi(m: MonsterRec)
  {
    if m.nameNa != m.row.nameJp then Lower(m.nameNa) == m.nameNa else Contains(m.row.nameJp, "ミニ")
  }

  predicate Awoken(m: MonsterRec)
  {
    StartsWith(Lower(m.nameNa), "awoken") || Contains(Lower(m.nameNa), "覚醒")
  }

  predicate Revo(m: MonsterRec)
  {
    StartsWith(Lower(m.nameNa), "reincarnated") || Contains(Lower(m.nameNa), "転生")
  }

  function EvoPrefixes(t: EvoType, awokenOrRevo: bool): set<string>
  {
    match t
    case Base => {"base"}
    case Evo => {"evo"}
    case UvoAwoken => if awokenOrRevo then {} else {"uvo", "uevo"}
    case UuvoReincarnated => if awokenOrRevo then {} else {"uuvo", "uuevo"}
  }

  /** The attribute prefixes: both tables for the first attribute, and the short combinations with the second. */
  function AttrPrefixes(a1: Attribute, a2: Option<Attribute>): set<string>
  {
    {ShortPrefix(a1)} + LongPrefixes(a1)
    + (if a2.Some? then {ShortPrefix(a1) + ShortPrefix(a2.value), ShortPrefix(a1) + "/" + ShortPrefix(a2.value)} else {})
  }

  /** The prefixes that depend on the names and the evolution stage. */
  function FlagPrefixes(m: MonsterRec): set<string>
  {
    NameRulePrefixes(m) + EvoPrefixes(m.refs.curEvoType, Awoken(m) || Revo(m))
  }

  /** The prefixes of the chibi, awakened and reincarnated name rules. */
  function NameRulePrefixes(m: MonsterRec): set<string>
  {
    (if IsChibi(m) then {"chibi"} else {})
    + (if Awoken(m) then {"a", "awoken"} else {})
    + (if Revo(m) then {"revo", "reincarnated"} else {})
  }

  const FlagWords: set<string> := {"chibi", "a", "awoken", "revo", "reincarnated", "uvo", "uevo", "uuvo", "uuevo", "base", "evo"}

  /**
   * `MonsterIndex.compute_prefixes`.  A monster whose first attribute is None
   * hits the KeyError of the attribute prefix tables.
   */
  function ComputePrefixes(m: MonsterRec): (r: Result<set<string>>)
    ensures r.Ok? <==> m.links.attr1.Some?
    ensures r.Ok? ==> r.value == AttrPrefixes(m.links.attr1.value, m.links.attr2) + FlagPrefixes(m) + SeriesPrefixes(m.links.series)
  {
    match m.links.attr1
    case None => Err("KeyError: None")
    case Some(a1) => Ok(AttrPrefixes(a1, m.links.attr2) + FlagPrefixes(m) + SeriesPrefixes(m.links.series))
  }

  /**
   * A shape every name and stage prefix has and no attribute or series prefix
   * has: it tells the two kinds of prefix apart by first letter and length.
   */
  predicate FlagShaped(w: string)
  {
    |w| > 0 &&
    ((w[0] == 'c' && |w| == 5) || (w[0] == 'a' && (|w| == 1 || |w| == 6)) || w[0] == 'u' || w[0] == 'e'
     || (w[0] == 'r' && |w| >= 4) || (w[0] == 'b' && |w| == 4 && w[1] == 'a'))
  }

  lemma FlagWordsShaped()
    ensures forall w :: w in FlagWords ==> FlagShaped(w)
  {
  }

  /** No attribute prefix has the shape of a name or stage prefix. */
  lemma AttrPrefixesApart(a1: Attribute, a2: Option<Attribute>)
    ensures forall w :: w in AttrPrefixes(a1, a2) ==> !FlagShaped(w)
  {
    forall w | w in AttrPrefixes(a1, a2) ensures !FlagShaped(w) {
      if w == ShortPrefix(a1) {
        assert |w| == 1 && w[0] != 'a';
      } else if w in LongPrefixes(a1) {
      } else if a2.Some? && w == ShortPrefix(a1) + ShortPrefix(a2.value) {
        assert |w| == 2 && w[0] == ShortPrefix(a1)[0];
      } else {
        assert |w| == 3 && w[0] == ShortPrefix(a1)[0];
      }
    }
  }

  /** No series prefix has the shape of a name or stage prefix. */
  lemma SeriesPrefixesApart(tsrSeq: int)
    ensures forall w :: w in SeriesPrefixes(tsrSeq) ==> !FlagShaped(w)
  {
  }

  /** Every stage prefix starts with 'b', 'e' or 'u'. */
  lemma EvoPrefixLetters(t: EvoType, awokenOrRevo: bool)
    ensures forall w :: w in EvoPrefixes(t, awokenOrRevo) ==> w[0] == 'b' || w[0] == 'e' || w[0] == 'u'
  {
  }

  /** The chibi prefix appears exactly when the chibi rule fires. */
  lemma ChibiRule(m: MonsterRec)
    ensures "chibi" in FlagPrefixes(m) <==> IsChibi(m)
  {
    EvoPrefixLetters(m.refs.curEvoType, Awoken(m) || Revo(m));
    assert "chibi"[0] == 'c';
    assert "chibi" != "a" && "chibi" != "awoken" && "chibi" != "revo" && "chibi" != "reincarnated";
  }

  /** The awakened prefixes appear exactly when the awakened rule fires. */
  lemma AwokenRule(m: MonsterRec)
    ensures ("a" in FlagPrefixes(m) <==> Awoken(m)) && ("awoken" in FlagPrefixes(m) <==> Awoken(m))
  {
    EvoPrefixLetters(m.refs.curEvoType, Awoken(m) || Revo(m));
    assert "a"[0] == 'a' && "awoken"[0] == 'a';
    assert "a" != "chibi" && "a" != "revo" && "a" != "reincarnated";
    assert "awoken" != "chibi" && "awoken" != "revo" && "awoken" != "reincarnated";
  }

  /** The reincarnated prefixes appear exactly when the reincarnated rule fires. */
  lemma RevoRule(m: MonsterRec)
    ensures ("revo" in FlagPrefixes(m) <==> Revo(m)) && ("reincarnated" in FlagPrefixes(m) <==> Revo(m))
  {
    EvoPrefixLetters(m.refs.curEvoType, Awoken(m) || Revo(m));
    assert "revo"[0] == 'r' && "reincarnated"[0] == 'r';
    assert "revo" != "chibi" && "revo" != "a" && "revo" != "awoken";
    assert "reincarnated" != "chibi" && "reincarnated" != "a" && "reincarnated" != "awoken";
  }

  /** Every name-rule prefix starts with 'c', 'a' or 'r'. */
  lemma NamePrefixLetters(m: MonsterRec)
    ensures forall w :: w in NameRulePrefixes(m) ==> w[0] == 'c' || w[0] == 'a' || w[0] == 'r'
  {
  }

  /** The ultimate-evolution prefixes appear exactly when the stage calls for them and no name rule fired. */
  lemma UltimateRules(m: MonsterRec)
    ensures "uvo" in FlagPrefixes(m) <==> m.refs.curEvoType == UvoAwoken && !Awoken(m) && !Revo(m)
    ensures "uuvo" in FlagPrefixes(m) <==> m.refs.curEvoType == UuvoReincarnated && !Awoken(m) && !Revo(m)
  {
    NamePrefixLetters(m);
    assert "uvo"[0] == 'u' && "uuvo"[0] == 'u';
    assert "uvo" !in NameRulePrefixes(m) && "uuvo" !in NameRulePrefixes(m);
    match m.refs.curEvoType
    case Base => assert "uvo" != "base" && "uuvo" != "base";
    case Evo => assert "uvo" != "evo" && "uuvo" != "evo";
    case UvoAwoken => assert "uuvo" != "uvo" && "uuvo" != "uevo";
    case UuvoReincarnated => assert "uvo" != "uuvo" && "uvo" != "uuevo";
  }

  /** The base and evo prefixes appear exactly for those stages. */
  lemma StageRules(m: MonsterRec)
    ensures "base" in FlagPrefixes(m) <==> m.refs.curEvoType == Base
    ensures "evo" in FlagPrefixes(m) <==> m.refs.curEvoType == Evo
  {
    NamePrefixLetters(m);
    assert "base"[0] == 'b' && "evo"[0] == 'e';
    assert "base" !in NameRulePrefixes(m) && "evo" !in NameRulePrefixes(m);
    match m.refs.curEvoType
    case Base => assert "evo" != "base";
    case Evo => assert "base" != "evo";
    case UvoAwoken => assert "base" != "uvo" && "base" != "uevo" && "evo" != "uvo" && "evo" != "uevo";
    case UuvoReincarnated => assert "base" != "uuvo" && "base" != "uuevo" && "evo" != "uuvo" && "evo" != "uuevo";
  }

  /** What each rule of `compute_prefixes` contributes, and that each name or stage prefix appears only through its rule. */
  lemma PrefixRules(m: MonsterRec)
    requires m.links.attr1.Some?
    ensures var p := ComputePrefixes(m).value; var a1 := m.links.attr1.value;
      && ShortPrefix(a1) in p && LongPrefixes(a1) <= p
      && (m.links.attr2.Some? ==> ShortPrefix(a1) + ShortPrefix(m.links.attr2.value) in p
                                  && ShortPrefix(a1) + "/" + ShortPrefix(m.links.attr2.value) in p)
      && SeriesPrefixes(m.links.series) <= p
      && (forall w :: w in FlagWords ==> (w in p <==> w in FlagPrefixes(m)))
  {
    AttrPrefixesApart(m.links.attr1.value, m.links.attr2);
    SeriesPrefixesApart(m.links.series);
    FlagWordsShaped();
  }

  /** The awakened and reincarnated prefixes exclude the ultimate-evolution ones. */
  lemma PrefixExclusive(m: MonsterRec)
    requires m.links.attr1.Some?
    ensures var p := ComputePrefixes(m).value;
      ("awoken" in p || "revo" in p) ==> "uvo" !in p && "uevo" !in p && "uuvo" !in p && "uuevo" !in p
  {
    var p := ComputePrefixes(m).value;
    PrefixRules(m);
    assert "awoken" in FlagWords && "revo" in FlagWords;
    assert "uvo" in FlagWords && "uevo" in FlagWords && "uuvo" in FlagWords && "uuevo" in FlagWords;
    if "awoken" in p || "revo" in p {
      AwokenRule(m);
      RevoRule(m);
      NamePrefixLetters(m);
      assert EvoPrefixes(m.refs.curEvoType, Awoken(m) || Revo(m)) <= {"base", "evo"};
      assert "uvo"[0] == 'u' && "uevo"[0] == 'u' && "uuvo"[0] == 'u' && "uuevo"[0] == 'u';
    }
  }

  // ------------------------------------------------------ named monsters

  /** `NamedMonsterGroup`: the group's members, its size and the basenames its nicknames are built from. */
  datatype NamedGroup = NamedGroup(
    members: seq<MonsterRec>, groupSize: nat,
    computedBasename: string, computedBasenames: set<string>, basenames: set<string>,
    lowPriority: Result<bool>)

  function MemberBasenames(members: seq<MonsterRec>): seq<string>
  {
    seq(|members|, i requires 0 <= i < |members| => MonsterBasename(members[i].nameNa))
  }

  /** `NamedMonsterGroup(monster_group, basename_overrides)`. */
  function NameGroup(members: seq<MonsterRec>, overrides: set<string>): (g: NamedGroup)
    requires |members| > 0
    ensures g.members == members && g.groupSize == |members|
    ensures g.computedBasename in MemberBasenames(members)
    ensures g.basenames == if overrides != {} then overrides else ComputedBasenames(g.computedBasename)
    ensures g.lowPriority == IsLowPriority(members)
  {
    var cb := GroupBasename(MemberBasenames(members));
    GroupBasenameBest(MemberBasenames(members));
    NamedGroup(members, |members|, cb, ComputedBasenames(cb), Basenames(overrides, cb), IsLowPriority(members))
  }

  /** The fields a `NamedMonster` copies out of its monster and group, and the nickname sets it derives. */
  datatype NamedMonster = NamedMonster(
    monsterNo: int, monsterNoNa: int,
    groupBasenames: set<string>, prefixes: set<string>,
    isLowPriority: bool, groupSize: nat, rarity: int,
    nameNa: string, nameJp: string,
    monsterBasename: string, groupComputedBasename: string,
    extraNicknames: set<string>, twoWordBasenames: set<string>,
    finalNicknames: set<string>, finalTwoWordNicknames: set<string>)

  /** Second words of the basenames made of exactly two space-separated words. */
  function TwoWordBasenames(bs: set<string>): set<string>
  {
    set b | b in bs && |Split(b, ' ')| == 2 :: Split(b, ' ')[1]
  }

  /** Every basename, and each prefix glued to it directly or with a space. */
  function WithPrefixes(bs: set<string>, ps: set<string>): set<string>
  {
    bs + (set b, p | b in bs && p in ps :: p + b) + (set b, p | b in bs && p in ps :: p + " " + b)
  }

  /** `final_nicknames`: the override nicknames, a non-empty romanised subname, and the prefixed basenames. */
  function FinalNicknames(extra: set<string>, roma: Option<string>, bs: set<string>, ps: set<string>): set<string>
  {
    extra + (if roma.Some? && roma.value != "" then {roma.value} else {}) + WithPrefixes(bs, ps)
  }

  lemma {:induction false} SplitNone(s: string, sep: char)
    requires sep !in s
    ensures Split(s, sep) == [s]
  {
    if s != [] {
      SplitNone(s[1..], sep);
      assert [s[0]] + s[1..] == s;
    }
  }

  lemma {:induction false} SplitTwo(f: string, w: string, sep: char)
    requires sep !in f && sep !in w
    ensures Split(f + [sep] + w, sep) == [f, w]
  {
    if f == [] {
      assert f + [sep] + w == [sep] + w;
      assert ([sep] + w)[1..] == w;
      SplitNone(w, sep);
    } else {
      var s := f + [sep] + w;
      assert s[1..] == f[1..] + [sep] + w;
      SplitTwo(f[1..], w, sep);
      assert [f[0]] + f[1..] == f;
    }
  }

  /** A two-word second word is a space-free word that follows the only space of some basename. */
  lemma TwoWordBasenamesMeaning(bs: set<string>, w: string)
    ensures w in TwoWordBasenames(bs) <==> ' ' !in w && exists b, f :: b in bs && ' ' !in f && b == f + " " + w
  {
    if w in TwoWordBasenames(bs) {
      var b :| b in bs && |Split(b, ' ')| == 2 && Split(b, ' ')[1] == w;
      var parts := Split(b, ' ');
      JoinSplit(b, ' ');
      assert b == parts[0] + " " + parts[1];
    }
    if ' ' !in w && exists b, f :: b in bs && ' ' !in f && b == f + " " + w {
      var b, f :| b in bs && ' ' !in f && b == f + " " + w;
      SplitTwo(f, w, ' ');
      assert f + " " + w == f + [' '] + w;
    }
  }

  /** Every final nickname is an override, the subname, or ends with one of the group's basenames. */
  lemma FinalNicknamesEndWithBasename(extra: set<string>, roma: Option<string>, bs: set<string>, ps: set<string>, n: string)
    requires n in FinalNicknames(extra, roma, bs, ps)
    ensures n in extra || roma == Some(n) || exists b, k :: b in bs && 0 <= k <= |n| && n[k..] == b
  {
    if n !in extra && roma != Some(n) {
      if n in bs {
        assert n[0..] == n;
      } else if n in (set b, p | b in bs && p in ps :: p + b) {
        var b, p :| b in bs && p in ps && n == p + b;
        assert n[|p|..] == b;
      } else {
        var b, p :| b in bs && p in ps && n == p + " " + b;
        assert n[|p| + 1..] == b;
      }
    }
  }

  /** One basename with every prefix glued to it, directly and with a space. */
  function Glued(ps: set<string>, b: string): set<string>
  {
    (set p | p in ps :: p + b) + (set p | p in ps :: p + " " + b)
  }

  lemma GluedAdd(ps: set<string>, p: string, b: string)
    ensures Glued(ps + {p}, b) == Glued(ps, b) + {p + b, p + " " + b}
  {
  }

  lemma WithPrefixesAdd(bs: set<string>, b: string, ps: set<string>)
    ensures WithPrefixes(bs + {b}, ps) == WithPrefixes(bs, ps) + {b} + Glued(ps, b)
  {
    var l := WithPrefixes(bs + {b}, ps);
    var r := WithPrefixes(bs, ps) + {b} + Glued(ps, b);
    forall n | n in l ensures n in r {
      if n !in bs + {b} {
        if n in (set x, p | x in bs + {b} && p in ps :: p + x) {
          var x, p :| x in bs + {b} && p in ps && n == p + x;
        } else {
          var x, p :| x in bs + {b} && p in ps && n == p + " " + x;
        }
      }
    }
  }

  /** The loop over the prefixes in `NamedMonster`: `p + b` and `p + ' ' + b` for one basename. */
  method AddPrefixed(acc: set<string>, b: string, ps: set<string>) returns (r: set<string>)
    ensures r == acc + Glued(ps, b)
  {
    r := acc;
    var rest, done := ps, {};
    while rest != {}
      invariant done + rest == ps
      invariant r == acc + Glued(done, b)
      decreases |rest|
    {
      var p :| p in rest;
      GluedAdd(done, p, b);
      r := r + {p + b, p + " " + b};
      rest, done := rest - {p}, done + {p};
    }
  }

  /** The loop over the basenames in `NamedMonster`: each basename and its prefixed forms. */
  method AddWithPrefixes(acc: set<string>, bs: set<string>, ps: set<string>) returns (r: set<string>)
    ensures r == acc + WithPrefixes(bs, ps)
  {
    r := acc;
    var rest, done := bs, {};
    while rest != {}
      invariant done + rest == bs
      invariant r == acc + WithPrefixes(done, ps)
      decreases |rest|
    {
      var b :| b in rest;
      WithPrefixesAdd(done, b, ps);
      r := r + {b};
      r := AddPrefixed(r, b, ps);
      rest, done := rest - {b}, done + {b};
    }
  }

  /** The loop over the group basenames that collects the second words of two-word basenames. */
  method CollectTwoWords(bs: set<string>) returns (r: set<string>)
    ensures r == TwoWordBasenames(bs)
  {
    r := {};
    var rest, done := bs, {};
    while rest != {}
      invariant done + rest == bs
      invariant r == TwoWordBasenames(done)
      decreases |rest|
    {
      var b :| b in rest;
      var words := Split(b, ' ');
      if |words| == 2 {
        r := r + {words[1]};
      }
      rest, done := rest - {b}, done + {b};
    }
  }

  /** What `NamedMonster(...)` builds, as a value. */
  function NamedOf(m: MonsterRec, g: NamedGroup, prefixes: set<string>, extra: set<string>): Result<NamedMonster>
  {
    if g.lowPriority.Err? then Err(g.lowPriority.error)
    else
      Ok(NamedMonster(m.row.monsterNo, m.row.monsterNoUs, g.basenames, prefixes,
                      g.lowPriority.value, g.groupSize, m.row.rarity, m.nameNa, m.row.nameJp,
                      MonsterBasename(m.nameNa), g.computedBasename, extra, TwoWordBasenames(g.basenames),
                      FinalNicknames(extra, m.romaSubname, g.basenames, prefixes),
                      WithPrefixes(TwoWordBasenames(g.basenames), prefixes)))
  }

  /**
   * `NamedMonster(monster, named_group, prefixes, extra_nicknames)`: copies the
   * fields it keeps and builds both nickname sets.  It fails where the group's
   * `is_low_priority` raises.
   */
  method NameMonster(m: MonsterRec, g: NamedGroup, prefixes: set<string>, extra: set<string>) returns (r: Result<NamedMonster>)
    ensures r == NamedOf(m, g, prefixes, extra)
  {
    if g.lowPriority.Err? {
      return Err(g.lowPriority.error);
    }
    var twoWords := CollectTwoWords(g.basenames);
    var finals := extra;
    if m.romaSubname.Some? && m.romaSubname.value != "" {
      finals := finals + {m.romaSubname.value};
    }
    finals := AddWithPrefixes(finals, g.basenames, prefixes);
    assert finals == FinalNicknames(extra, m.romaSubname, g.basenames, prefixes);
    var finalTwo := AddWithPrefixes({}, twoWords, prefixes);
    assert finalTwo == WithPrefixes(TwoWordBasenames(g.basenames), prefixes);
    r := Ok(NamedMonster(m.row.monsterNo, m.row.monsterNoUs, g.basenames, prefixes,
                         g.lowPriority.value, g.groupSize, m.row.rarity, m.nameNa, m.row.nameJp,
                         MonsterBasename(m.nameNa), g.computedBasename, extra, twoWords, finals, finalTwo));
  }

  // ------------------------------------------------------ override tables

  /** A Python dict of strings as its items in insertion order. */
  type Dict = seq<(string, string)>

  predicate DistinctKeys(d: Dict)
  {
    forall i, j :: 0 <= i < j < |d| ==> d[i].0 != d[j].0
  }

  function Get(d: Dict, k: string): (r: Option<string>)
    ensures r.Some? <==> exists i :: 0 <= i < |d| && d[i].0 == k
  {
    if d == [] then None else if d[0].0 == k then Some(d[0].1) else Get(d[1..], k)
  }

  /** `d[k] = v`: a new key goes last, an existing key keeps its place and takes the new value. */
  function Put(d: Dict, k: string, v: string): (r: Dict)
    ensures |r| == |d| || |r| == |d| + 1
  {
    if d == [] then [(k, v)]
    else if d[0].0 == k then [(k, v)] + d[1..]
    else [d[0]] + Put(d[1..], k, v)
  }

  /** `Put` keeps every key in its place, appends a new one, and holds no pair but the old ones and `(k, v)`. */
  lemma {:induction false} PutShape(d: Dict, k: string, v: string)
    ensures |Put(d, k, v)| == |d| || (|Put(d, k, v)| == |d| + 1 && Put(d, k, v)[|d|] == (k, v))
    ensures forall i :: 0 <= i < |d| ==> Put(d, k, v)[i].0 == d[i].0
    ensures forall i :: 0 <= i < |Put(d, k, v)| ==> Put(d, k, v)[i] == (k, v) || Put(d, k, v)[i] in d
  {
    if d != [] && d[0].0 != k {
      PutShape(d[1..], k, v);
      var rest := Put(d[1..], k, v);
      assert Put(d, k, v) == [d[0]] + rest;
      assert forall i :: 0 < i < |d| ==> d[1..][i - 1] == d[i];
      assert forall x :: x in d[1..] ==> x in d;
    }
  }

  lemma {:induction false} PutGet(d: Dict, k: string, v: string, k2: string)
    ensures Get(Put(d, k, v), k2) == if k2 == k then Some(v) else Get(d, k2)
  {
    if d != [] && d[0].0 != k {
      PutGet(d[1..], k, v, k2);
    }
  }

  lemma {:induction false} PutDistinct(d: Dict, k: string, v: string)
    requires DistinctKeys(d)
    ensures DistinctKeys(Put(d, k, v))
  {
    PutShape(d, k, v);
    if d != [] && d[0].0 != k {
      PutDistinct(d[1..], k, v);
      PutShape(d[1..], k, v);
      var r := Put(d, k, v);
      forall j | 0 < j < |r| ensures r[0].0 != r[j].0 {
        if j - 1 < |d| - 1 {
          assert r[j].0 == d[j].0;
        } else {
          assert r[j] == (k, v);
        }
      }
    }
  }

  /** The row filter of `_csv_to_key_value_map`: at least two cells, both non-empty once stripped. */
  predicate Accepted(row: seq<string>)
  {
    |row| >= 2 && |Strip(row[0])| > 0 && |Strip(row[1])| > 0
  }

  /** What `_csv_to_key_value_map` returns for rows read in order. */
  function KeyValueMap(rows: seq<seq<string>>): Dict
  {
    if rows == [] then []
    else
      var d := KeyValueMap(rows[..|rows| - 1]);
      var row := rows[|rows| - 1];
      if Accepted(row) then Put(d, Strip(row[0]), Strip(row[1])) else d
  }

  /** The stripped value of the last accepted row with stripped key `k`. */
  function LastValue(rows: seq<seq<string>>, k: string): Option<string>
  {
    if rows == [] then None
    else
      var row := rows[|rows| - 1];
      if Accepted(row) && Strip(row[0]) == k then Some(Strip(row[1])) else LastValue(rows[..|rows| - 1], k)
  }

  /** A later row overwrites an earlier one with the same key, and rows the filter rejects leave no trace. */
  lemma {:induction false} KeyValueMapLast(rows: seq<seq<string>>, k: string)
    ensures Get(KeyValueMap(rows), k) == LastValue(rows, k)
  {
    if rows != [] {
      KeyValueMapLast(rows[..|rows| - 1], k);
      var row := rows[|rows| - 1];
      if Accepted(row) {
        PutGet(KeyValueMap(rows[..|rows| - 1]), Strip(row[0]), Strip(row[1]), k);
      }
    }
  }

  /** Keys are distinct, and every key and value is non-empty and already stripped. */
  lemma {:induction false} KeyValueMapShape(rows: seq<seq<string>>)
    ensures DistinctKeys(KeyValueMap(rows))
    ensures forall e :: e in KeyValueMap(rows) ==> e.0 != [] && e.1 != [] && Strip(e.0) == e.0 && Strip(e.1) == e.1
  {
    if rows != [] {
      var front := rows[..|rows| - 1];
      KeyValueMapShape(front);
      var row := rows[|rows| - 1];
      if Accepted(row) {
        PutDistinct(KeyValueMap(front), Strip(row[0]), Strip(row[1]));
        PutShape(KeyValueMap(front), Strip(row[0]), Strip(row[1]));
        StripIdempotent(row[0]);
        StripIdempotent(row[1]);
        var r := KeyValueMap(rows);
        forall e | e in r ensures e.0 != [] && e.1 != [] && Strip(e.0) == e.0 && Strip(e.1) == e.1 {
          var i :| 0 <= i < |r| && r[i] == e;
        }
      }
    }
  }

  lemma {:induction false} GetAt(d: Dict, i: nat)
    requires DistinctKeys(d) && i < |d|
    ensures Get(d, d[i].0) == Some(d[i].1)
  {
    if i > 0 {
      assert d[0].0 != d[i].0;
      GetAt(d[1..], i - 1);
    }
  }

  /** `_csv_to_key_value_map` over rows that have already been read from the file. */
  method CsvToKeyValueMap(rows: seq<seq<string>>) returns (d: Dict)
    ensures d == KeyValueMap(rows)
  {
    d := [];
    var i := 0;
    while i < |rows|
      invariant 0 <= i <= |rows|
      invariant d == KeyValueMap(rows[..i])
    {
      var row := rows[i];
      assert rows[..i + 1][..i] == rows[..i];
      if |row| >= 2 {
        var key := Strip(row[0]);
        var value := Strip(row[1]);
        if |key| > 0 && |value| > 0 {
          d := Put(d, key, value);
        }
      }
      i := i + 1;
    }
    assert rows[..i] == rows;
  }

  /** `{k.lower(): int(v) for k, v in d.items() if v.isdigit()}`. */
  function NicknameOverrides(d: Dict): (r: map<string, int>)
    ensures forall n :: n in r ==> exists i :: 0 <= i < |d| && IsDigits(d[i].1) && Lower(d[i].0) == n
    ensures forall i :: 0 <= i < |d| && IsDigits(d[i].1) ==> Lower(d[i].0) in r
  {
    if d == [] then map[]
    else
      var m := NicknameOverrides(d[..|d| - 1]);
      var (k, v) := d[|d| - 1];
      assert forall i :: 0 <= i < |d| - 1 ==> d[..|d| - 1][i] == d[i];
      if IsDigits(v) then m[Lower(k) := DigitsValue(v)] else m
  }

  /** Every cleaned nickname is lower case and maps to the value of the last digit-valued item that lowers to it. */
  lemma {:induction false} NicknameOverridesLast(d: Dict, i: nat)
    requires i < |d| && IsDigits(d[i].1)
    requires forall j :: i < j < |d| && IsDigits(d[j].1) ==> Lower(d[j].0) != Lower(d[i].0)
    ensures NicknameOverrides(d)[Lower(d[i].0)] == DigitsValue(d[i].1)
  {
    if i < |d| - 1 {
      NicknameOverridesLast(d[..|d| - 1], i);
    }
  }

  /** The item's key is a number's digits. */
  predicate KeyReads(e: (string, string), n: int)
  {
    IsDigits(e.0) && DigitsValue(e.0) == n
  }

  /** The defaultdict loop that gathers basename overrides under each digit key. */
  function BasenameOverrides(d: Dict): (r: map<int, set<string>>)
    ensures forall n :: n in r <==> exists i :: 0 <= i < |d| && KeyReads(d[i], n)
  {
    if d == [] then map[]
    else
      var m := BasenameOverrides(d[..|d| - 1]);
      var (k, v) := d[|d| - 1];
      assert forall i :: 0 <= i < |d| - 1 ==> d[..|d| - 1][i] == d[i];
      if IsDigits(k) then
        var n := DigitsValue(k);
        m[n := (if n in m then m[n] else {}) + {Lower(v)}]
      else m
  }

  lemma BasenameOverridesStep(d: Dict, n: int)
    requires n in BasenameOverrides(d)
    ensures var m := BasenameOverrides(d[..|d| - 1]);
            BasenameOverrides(d)[n]
            == (if n in m then m[n] else {}) + (if KeyReads(d[|d| - 1], n) then {Lower(d[|d| - 1].1)} else {})
  {
  }

  /** The overrides of a number are the lower-cased values of exactly the items whose digit key reads as it. */
  lemma {:induction false} BasenameOverridesMembers(d: Dict, n: int, x: string)
    requires n in BasenameOverrides(d)
    ensures x in BasenameOverrides(d)[n] <==> exists i :: 0 <= i < |d| && KeyReads(d[i], n) && Lower(d[i].1) == x
  {
    var front := d[..|d| - 1];
    var last := d[|d| - 1];
    var m := BasenameOverrides(front);
    BasenameOverridesStep(d, n);
    if n in m {
      BasenameOverridesMembers(front, n, x);
    }
    if x in BasenameOverrides(d)[n] {
      if KeyReads(last, n) && Lower(last.1) == x {
        assert d[|d| - 1] == last;
      } else {
        var i :| 0 <= i < |front| && KeyReads(front[i], n) && Lower(front[i].1) == x;
        assert d[i] == front[i];
      }
    } else {
      forall i | 0 <= i < |d| && KeyReads(d[i], n) ensures Lower(d[i].1) != x {
        if i < |d| - 1 {
          assert d[i] == front[i];
        }
      }
    }
  }
}
