/**
 * `MonsterIndex` of the padguide2 cog: the named monsters of every evolution
 * group, the nickname tables built from them (later, higher-ranked monsters
 * overwrite earlier ones; override nicknames are written last), and
 * `find_monster`, which tries a fixed sequence of match stages.
 */
module PgIndex {

  import opened Wrappers
  import opened Text
  import opened Ranking
  import opened PgRecords
  import opened PgNames

  // ---------------------------------------------------- naming every group

  /** `monster_no_na_to_nicknames[no_na]`: the override nicknames that point at a monster. */
  function ExtraNicknames(nick: map<string, int>, noNa: int): (r: set<string>)
    ensures forall n :: n in r <==> n in nick && nick[n] == noNa
  {
    set n | n in nick && nick[n] == noNa
  }

  /** `basename_overrides.get(no_na, [])`. */
  function BasenameOverridesOf(base: map<int, set<string>>, noNa: int): set<string>
  {
    if noNa in base then base[noNa] else {}
  }

  /** The named monster of one accepted member: its prefixes first, then the group's priority. */
  function NamedMember(m: MonsterRec, g: NamedGroup, nick: map<string, int>): Result<NamedMonster>
  {
    match ComputePrefixes(m)
    case Err(e) => Err(e)
    case Ok(p) => NamedOf(m, g, p, ExtraNicknames(nick, m.row.monsterNoUs))
  }

  /** The inner loop of `MonsterIndex.__init__` over one group's first `ms`; the first failure wins. */
  function NamedMembers(g: NamedGroup, ms: seq<MonsterRec>, nick: map<string, int>, accept: MonsterRec -> bool): Result<seq<NamedMonster>>
  {
    if ms == [] then Ok([])
    else
      match NamedMembers(g, ms[..|ms| - 1], nick, accept)
      case Err(e) => Err(e)
      case Ok(front) =>
        var m := ms[|ms| - 1];
        if !accept(m) then Ok(front)
        else
          match NamedMember(m, g, nick)
          case Err(e) => Err(e)
          case Ok(nm) => Ok(front + [nm])
  }

  function GroupOf(members: seq<MonsterRec>, base: map<int, set<string>>): NamedGroup
    requires |members| > 0
  {
    NameGroup(members, BasenameOverridesOf(base, members[0].row.monsterNoUs))
  }

  predicate NonEmptyGroups(groups: seq<seq<MonsterRec>>)
  {
    forall i :: 0 <= i < |groups| ==> |groups[i]| > 0
  }

  /** `named_monsters` before sorting: every accepted member of every group, in group order. */
  function NamedGroups(groups: seq<seq<MonsterRec>>, nick: map<string, int>, base: map<int, set<string>>,
                       accept: MonsterRec -> bool): Result<seq<NamedMonster>>
    requires NonEmptyGroups(groups)
  {
    if groups == [] then Ok([])
    else
      match NamedGroups(groups[..|groups| - 1], nick, base, accept)
      case Err(e) => Err(e)
      case Ok(front) =>
        var g := groups[|groups| - 1];
        match NamedMembers(GroupOf(g, base), g, nick, accept)
        case Err(e) => Err(e)
        case Ok(named) => Ok(front + named)
  }

  /** Every named monster stands for an accepted member: rejected monsters appear nowhere. */
  lemma {:induction false} NamedMembersAccepted(g: NamedGroup, ms: seq<MonsterRec>, nick: map<string, int>, accept: MonsterRec -> bool)
    requires NamedMembers(g, ms, nick, accept).Ok?
    ensures forall nm :: nm in NamedMembers(g, ms, nick, accept).value ==>
              exists m :: m in ms && accept(m) && nm.monsterNo == m.row.monsterNo && nm.monsterNoNa == m.row.monsterNoUs
  {
    if ms != [] {
      var front := ms[..|ms| - 1];
      NamedMembersAccepted(g, front, nick, accept);
      var m := ms[|ms| - 1];
      forall nm | nm in NamedMembers(g, ms, nick, accept).value
        ensures exists m' :: m' in ms && accept(m') && nm.monsterNo == m'.row.monsterNo && nm.monsterNoNa == m'.row.monsterNoUs
      {
        if nm in NamedMembers(g, front, nick, accept).value {
          var m' :| m' in front && accept(m') && nm.monsterNo == m'.row.monsterNo && nm.monsterNoNa == m'.row.monsterNoUs;
          assert m' in ms;
        } else {
          assert m in ms;
        }
      }
    }
  }

  /** Every accepted member is named, when naming succeeds. */
  lemma {:induction false} NamedMembersComplete(g: NamedGroup, ms: seq<MonsterRec>, nick: map<string, int>, accept: MonsterRec -> bool, i: nat)
    requires NamedMembers(g, ms, nick, accept).Ok? && i < |ms| && accept(ms[i])
    ensures NamedMember(ms[i], g, nick).Ok? && NamedMember(ms[i], g, nick).value in NamedMembers(g, ms, nick, accept).value
  {
    if i < |ms| - 1 {
      NamedMembersComplete(g, ms[..|ms| - 1], nick, accept, i);
    }
  }

  // ---------------------------------------------------- ranking and tables

  /** `named_monsters_sort`: high priority, then larger groups, then larger NA numbers, come later. */
  function RankKey(nm: NamedMonster): Key3
  {
    Key3(BoolKey(!nm.isLowPriority), nm.groupSize, nm.monsterNoNa)
  }

  /** `pickBestMonster`'s key: high priority, then rarity, then the NA number. */
  function PickKey(nm: NamedMonster): Key3
  {
    Key3(BoolKey(!nm.isLowPriority), nm.rarity, nm.monsterNoNa)
  }

  function NamesOf(nm: NamedMonster, twoWord: bool): set<string>
  {
    if twoWord then nm.finalTwoWordNicknames else nm.finalNicknames
  }

  /** `table[n] = nm` for every `n` in `names`. */
  function Claim(e: map<string, NamedMonster>, names: set<string>, nm: NamedMonster): (r: map<string, NamedMonster>)
    ensures r.Keys == e.Keys + names
    ensures forall n :: n in names ==> r[n] == nm
    ensures forall n :: n in e && n !in names ==> r[n] == e[n]
  {
    map n | n in e.Keys + names :: if n in names then nm else e[n]
  }

  /** `all_entries` (or, with `twoWord`, `two_word_entries`) after the loop over the sorted monsters. */
  function Entries(nms: seq<NamedMonster>, twoWord: bool): map<string, NamedMonster>
  {
    if nms == [] then map[]
    else Claim(Entries(nms[..|nms| - 1], twoWord), NamesOf(nms[|nms| - 1], twoWord), nms[|nms| - 1])
  }

  /** A nickname has an entry exactly when some monster claims it, and the entry is its last claimant. */
  lemma {:induction false} EntriesLast(nms: seq<NamedMonster>, twoWord: bool, n: string)
    ensures n in Entries(nms, twoWord) <==> exists i :: 0 <= i < |nms| && n in NamesOf(nms[i], twoWord)
    ensures n in Entries(nms, twoWord) ==>
              exists i :: 0 <= i < |nms| && n in NamesOf(nms[i], twoWord) && Entries(nms, twoWord)[n] == nms[i]
                          && forall j :: i < j < |nms| ==> n !in NamesOf(nms[j], twoWord)
  {
    if nms != [] {
      var front := nms[..|nms| - 1];
      var last := nms[|nms| - 1];
      EntriesLast(front, twoWord, n);
      assert forall i :: 0 <= i < |front| ==> front[i] == nms[i];
      if n in NamesOf(last, twoWord) {
        assert Entries(nms, twoWord)[n] == last;
      } else if n in Entries(front, twoWord) {
        var i :| 0 <= i < |front| && n in NamesOf(front[i], twoWord) && Entries(front, twoWord)[n] == front[i]
                 && forall j :: i < j < |front| ==> n !in NamesOf(front[j], twoWord);
        assert forall j :: i < j < |nms| ==> n !in NamesOf(nms[j], twoWord) by {
          forall j | i < j < |nms| ensures n !in NamesOf(nms[j], twoWord) {
            if j < |front| {
              assert nms[j] == front[j];
            }
          }
        }
      }
    }
  }

  /**
   * In a list sorted by rank, the entry of a nickname is a claimant that no
   * other claimant outranks.
   */
  lemma EntriesBest(nms: seq<NamedMonster>, twoWord: bool, n: string, j: nat)
    requires SortedBy(nms, RankKey)
    requires j < |nms| && n in NamesOf(nms[j], twoWord)
    ensures n in Entries(nms, twoWord)
    ensures n in NamesOf(Entries(nms, twoWord)[n], twoWord)
    ensures Le(RankKey(nms[j]), RankKey(Entries(nms, twoWord)[n]))
  {
    EntriesLast(nms, twoWord, n);
    var i :| 0 <= i < |nms| && n in NamesOf(nms[i], twoWord) && Entries(nms, twoWord)[n] == nms[i]
             && forall k :: i < k < |nms| ==> n !in NamesOf(nms[k], twoWord);
    assert j <= i;
    if j < i {
      assert Le(RankKey(nms[j]), RankKey(nms[i]));
    }
  }

  /** `{f(x): x for x in xs}`: each key maps to the last element with that key. */
  function IndexBy<T, K>(xs: seq<T>, f: T -> K): map<K, T>
  {
    if xs == [] then map[] else IndexBy(xs[..|xs| - 1], f)[f(xs[|xs| - 1]) := xs[|xs| - 1]]
  }

  /** The comprehension as a loop fills it, one element at a time. */
  lemma IndexByStep<T, K>(xs: seq<T>, f: T -> K, i: nat)
    requires i < |xs|
    ensures IndexBy(xs[..i + 1], f) == IndexBy(xs[..i], f)[f(xs[i]) := xs[i]]
  {
    assert xs[..i + 1][..i] == xs[..i];
  }

  lemma {:induction false} IndexByLast<T, K>(nms: seq<T>, f: T -> K, k: K)
    ensures k in IndexBy(nms, f) <==> exists i :: 0 <= i < |nms| && f(nms[i]) == k
    ensures k in IndexBy(nms, f) ==>
              exists i :: 0 <= i < |nms| && IndexBy(nms, f)[k] == nms[i] && f(nms[i]) == k
                          && forall j :: i < j < |nms| ==> f(nms[j]) != k
  {
    if nms != [] {
      var front := nms[..|nms| - 1];
      IndexByLast(front, f, k);
      assert forall i :: 0 <= i < |front| ==> front[i] == nms[i];
      if f(nms[|nms| - 1]) != k && k in IndexBy(front, f) {
        var i :| 0 <= i < |front| && IndexBy(front, f)[k] == front[i] && f(front[i]) == k
                 && forall j :: i < j < |front| ==> f(front[j]) != k;
        assert forall j :: i < j < |nms| ==> f(nms[j]) != k by {
          forall j | i < j < |nms| ensures f(nms[j]) != k {
            if j < |front| {
              assert nms[j] == front[j];
            }
          }
        }
      }
    }
  }

  function NoNaOf(nm: NamedMonster): int { nm.monsterNoNa }
  function NoOf(nm: NamedMonster): int { nm.monsterNo }
  function NaNameOf(nm: NamedMonster): string { Lower(nm.nameNa) }

  /** The override nicknames among `keys` whose target NA number has a named monster. */
  function LiveOverrides(nick: map<string, int>, keys: set<string>, byNoNa: map<int, NamedMonster>): set<string>
  {
    set n | n in keys && n in nick && nick[n] in byNoNa
  }

  /** The final loop of `__init__`, over the override nicknames in `keys`: each live one maps to its target. */
  function Overridden(e: map<string, NamedMonster>, nick: map<string, int>, keys: set<string>,
                      byNoNa: map<int, NamedMonster>): (r: map<string, NamedMonster>)
    ensures r.Keys == e.Keys + LiveOverrides(nick, keys, byNoNa)
    ensures forall n :: n in LiveOverrides(nick, keys, byNoNa) ==> r[n] == byNoNa[nick[n]]
    ensures forall n :: n in e && n !in LiveOverrides(nick, keys, byNoNa) ==> r[n] == e[n]
  {
    map n | n in e.Keys + LiveOverrides(nick, keys, byNoNa) ::
      if n in LiveOverrides(nick, keys, byNoNa) then byNoNa[nick[n]] else e[n]
  }

  lemma ClaimNone(e: map<string, NamedMonster>, nm: NamedMonster)
    ensures Claim(e, {}, nm) == e
  {
  }

  /** Moving one element from the to-do set to the done set of a loop over a set. */
  lemma SetStep<T>(done: set<T>, rest: set<T>, n: T)
    requires n in rest
    ensures (done + {n}) + (rest - {n}) == done + rest
    ensures |rest - {n}| < |rest|
  {
  }

  lemma ClaimAdd(e: map<string, NamedMonster>, names: set<string>, n: string, nm: NamedMonster)
    ensures Claim(e, names + {n}, nm) == Claim(e, names, nm)[n := nm]
  {
  }

  lemma OverriddenAdd(e: map<string, NamedMonster>, nick: map<string, int>, keys: set<string>,
                      byNoNa: map<int, NamedMonster>, n: string)
    requires n in nick
    ensures Overridden(e, nick, keys + {n}, byNoNa)
         == if nick[n] in byNoNa then Overridden(e, nick, keys, byNoNa)[n := byNoNa[nick[n]]] else Overridden(e, nick, keys, byNoNa)
  {
  }

  /**
   * What the finished tables say about a nickname: a live override names its
   * target; any other nickname has an entry exactly when some named monster
   * claims it, and the entry is a claimant that no other claimant outranks.
   */
  lemma TableEntry(nms: seq<NamedMonster>, nick: map<string, int>, n: string)
    requires SortedBy(nms, RankKey)
    ensures var e := Overridden(Entries(nms, false), nick, nick.Keys, IndexBy(nms, NoNaOf));
      && (n in LiveOverrides(nick, nick.Keys, IndexBy(nms, NoNaOf)) ==> e[n] == IndexBy(nms, NoNaOf)[nick[n]])
      && (n !in LiveOverrides(nick, nick.Keys, IndexBy(nms, NoNaOf)) ==>
            (n in e <==> exists j :: 0 <= j < |nms| && n in nms[j].finalNicknames)
            && (n in e ==> n in e[n].finalNicknames)
            && forall j :: 0 <= j < |nms| && n in nms[j].finalNicknames ==> Le(RankKey(nms[j]), RankKey(e[n])))
  {
    EntriesLast(nms, false, n);
    forall j | 0 <= j < |nms| && n in nms[j].finalNicknames
      ensures n in Entries(nms, false) && Le(RankKey(nms[j]), RankKey(Entries(nms, false)[n]))
    {
      EntriesBest(nms, false, n, j);
    }
    if n in Entries(nms, false) {
      var j :| 0 <= j < |nms| && n in NamesOf(nms[j], false);
      EntriesBest(nms, false, n, j);
    }
  }

  /** Every entry of the finished tables is one of the named monsters. */
  lemma TableValues(nms: seq<NamedMonster>, nick: map<string, int>, n: string)
    requires n in Overridden(Entries(nms, false), nick, nick.Keys, IndexBy(nms, NoNaOf))
    ensures Overridden(Entries(nms, false), nick, nick.Keys, IndexBy(nms, NoNaOf))[n] in nms
  {
    if n in LiveOverrides(nick, nick.Keys, IndexBy(nms, NoNaOf)) {
      IndexByLast(nms, NoNaOf, nick[n]);
    } else {
      EntriesLast(nms, false, n);
    }
  }

  /** One more group extends the collected list by that group's named members. */
  lemma NamedGroupsStep(groups: seq<seq<MonsterRec>>, nick: map<string, int>, base: map<int, set<string>>,
                        accept: MonsterRec -> bool, i: nat, acc: seq<NamedMonster>)
    requires NonEmptyGroups(groups) && i < |groups|
    requires NamedGroups(groups[..i], nick, base, accept) == Ok(acc)
    ensures NamedGroups(groups[..i + 1], nick, base, accept)
            == match NamedMembers(GroupOf(groups[i], base), groups[i], nick, accept)
               case Err(e) => Err(e)
               case Ok(named) => Ok(acc + named)
  {
    assert groups[..i + 1][..i] == groups[..i];
  }

  /** Every named monster stands for an accepted member of some group. */
  lemma {:induction false} NamedGroupsAccepted(groups: seq<seq<MonsterRec>>, nick: map<string, int>, base: map<int, set<string>>,
                                               accept: MonsterRec -> bool, nm: NamedMonster)
    requires NonEmptyGroups(groups) && NamedGroups(groups, nick, base, accept).Ok?
    requires nm in NamedGroups(groups, nick, base, accept).value
    ensures exists i, m :: 0 <= i < |groups| && m in groups[i] && accept(m) && nm.monsterNo == m.row.monsterNo
  {
    assert groups != [];
    var front := groups[..|groups| - 1];
    var g := groups[|groups| - 1];
    assert forall i :: 0 <= i < |front| ==> front[i] == groups[i];
    var named := NamedGroups(front, nick, base, accept);
    var members := NamedMembers(GroupOf(g, base), g, nick, accept);
    assert named.Ok? && members.Ok? && NamedGroups(groups, nick, base, accept).value == named.value + members.value;
    if nm in named.value {
      NamedGroupsAccepted(front, nick, base, accept, nm);
      var i, m :| 0 <= i < |front| && m in front[i] && accept(m) && nm.monsterNo == m.row.monsterNo;
      assert m in groups[i];
    } else {
      assert nm in members.value;
      NamedMembersAccepted(GroupOf(g, base), g, nick, accept);
      var m :| m in g && accept(m) && nm.monsterNo == m.row.monsterNo && nm.monsterNoNa == m.row.monsterNoUs;
      assert m in groups[|groups| - 1];
    }
  }

  // ---------------------------------------------------- finding a monster

  /** Which rule of `find_monster` produced a result. */
  datatype Stage =
    | IdLookup | ExactNickname | SpaceNicknamePrefix | NicknamePrefix | FullNamePrefix
    | SecondWordNickname | NameOnNickname | NameOnFullList

  /**
   * A `find_monster` answer: a monster and the stage that found it, an error
   * message, or the query that the fuzzy stages would now try.
   */
  datatype Lookup = Found(monster: NamedMonster, stage: Stage) | NotFound(error: string) | TryClose(query: string)

  const IdNotFound := "Looks like a monster ID but was not found"
  const JpTooShort := "Japanese queries must be at least 2 characters"
  const TooShort := "Your query must be at least 4 letters"

  /** The normalised query: diacritics removed, lower-cased, stripped. */
  function CleanQuery(query: string, rmdiacritics: string -> string): string
  {
    Strip(Lower(rmdiacritics(query)))
  }

  predicate NamePrefix(nm: NamedMonster, q: string)
  {
    StartsWith(Lower(nm.nameNa), q) || StartsWith(Lower(nm.nameJp), q)
  }

  predicate NameContains(nm: NamedMonster, q: string)
  {
    Contains(Lower(nm.nameNa), q) || Contains(Lower(nm.nameJp), q)
  }

  /** A match stage over `all_entries`, as a test of the nickname and its monster. */
  datatype EntryTest = SpacePrefix(q: string) | Prefix(q: string) | FullName(q: string) | NameIn(q: string)

  predicate Passes(t: EntryTest, n: string, nm: NamedMonster)
  {
    match t
    case SpacePrefix(q) => StartsWith(n, q + " ")
    case Prefix(q) => StartsWith(n, q)
    case FullName(q) => NamePrefix(nm, q)
    case NameIn(q) => NameContains(nm, q)
  }

  function EntryMatches(e: map<string, NamedMonster>, keys: set<string>, t: EntryTest): set<NamedMonster>
  {
    set n | n in keys && n in e && Passes(t, n, e[n]) :: e[n]
  }

  function ListMatches(ms: seq<NamedMonster>, q: string): set<NamedMonster>
  {
    set i | 0 <= i < |ms| && NameContains(ms[i], q) :: ms[i]
  }

  /** The monster a stage settles on: one in its match set that no other match outranks. */
  predicate BestOf(r: Lookup, s: set<NamedMonster>, stage: Stage)
  {
    r.Found? && r.stage == stage && r.monster in s && forall x :: x in s ==> Le(PickKey(x), PickKey(r.monster))
  }

  lemma EntryMatchesGrow(e: map<string, NamedMonster>, keys: set<string>, n: string, t: EntryTest)
    requires n in e
    ensures EntryMatches(e, keys + {n}, t) == EntryMatches(e, keys, t) + (if Passes(t, n, e[n]) then {e[n]} else {})
  {
  }

  // ---------------------------------------------------- the index object

  class MonsterIndex {
    var allEntries: map<string, NamedMonster>
    var twoWordEntries: map<string, NamedMonster>
    var allMonsters: seq<NamedMonster>
    var allNaNameToMonsters: map<string, NamedMonster>
    var monsterNoNaToNamedMonster: map<int, NamedMonster>
    var monsterNoToNamedMonster: map<int, NamedMonster>

    /** `empty_index()`: no monsters, so no nicknames. */
    constructor()
      ensures allEntries == map[] && twoWordEntries == map[] && allMonsters == []
      ensures allNaNameToMonsters == map[] && monsterNoNaToNamedMonster == map[] && monsterNoToNamedMonster == map[]
    {
      allEntries, twoWordEntries, allMonsters := map[], map[], [];
      allNaNameToMonsters, monsterNoNaToNamedMonster, monsterNoToNamedMonster := map[], map[], map[];
    }

    /** The two loops over one group's accepted members. */
    static method NameMembers(g: NamedGroup, ms: seq<MonsterRec>, nick: map<string, int>, accept: MonsterRec -> bool)
      returns (r: Result<seq<NamedMonster>>)
      ensures r == NamedMembers(g, ms, nick, accept)
    {
      var acc := [];
      var i := 0;
      while i < |ms|
        invariant 0 <= i <= |ms|
        invariant NamedMembers(g, ms[..i], nick, accept) == Ok(acc)
      {
        var m := ms[i];
        assert ms[..i + 1][..i] == ms[..i];
        if accept(m) {
          var p := ComputePrefixes(m);
          if p.Err? {
            NamedMembersPrefixErr(g, ms, nick, accept, i);
            return Err(p.error);
          }
          var nm := NameMonster(m, g, p.value, ExtraNicknames(nick, m.row.monsterNoUs));
          if nm.Err? {
            NamedMembersPrefixErr(g, ms, nick, accept, i);
            return Err(nm.error);
          }
          acc := acc + [nm.value];
        }
        i := i + 1;
      }
      assert ms[..i] == ms;
      r := Ok(acc);
    }

    /** The loop over the groups that collects `named_monsters`. */
    static method NameAll(groups: seq<seq<MonsterRec>>, nick: map<string, int>, base: map<int, set<string>>,
                          accept: MonsterRec -> bool) returns (r: Result<seq<NamedMonster>>)
      requires NonEmptyGroups(groups)
      ensures r == NamedGroups(groups, nick, base, accept)
    {
      var acc := [];
      var i := 0;
      while i < |groups|
        invariant 0 <= i <= |groups|
        invariant NamedGroups(groups[..i], nick, base, accept) == Ok(acc)
      {
        var g := GroupOf(groups[i], base);
        var named := NameMembers(g, groups[i], nick, accept);
        NamedGroupsStep(groups, nick, base, accept, i, acc);
        if named.Err? {
          NamedGroupsPrefixErr(groups, nick, base, accept, i);
          return Err(named.error);
        }
        acc := acc + named.value;
        i := i + 1;
      }
      assert groups[..i] == groups;
      r := Ok(acc);
    }

    /** `table[nickname] = nm` for every nickname of one monster. */
    static method ClaimAll(e: map<string, NamedMonster>, names: set<string>, nm: NamedMonster) returns (r: map<string, NamedMonster>)
      ensures r == Claim(e, names, nm)
    {
      r := e;
      var rest: set<string>, done: set<string> := names, {};
      ClaimNone(e, nm);
      while rest != {}
        invariant done + rest == names
        invariant r == Claim(e, done, nm)
        decreases |rest|
      {
        var n :| n in rest;
        ClaimAdd(e, done, n, nm);
        SetStep(done, rest, n);
        r := r[n := nm];
        rest, done := rest - {n}, done + {n};
      }
    }

    /** The loop that fills `all_entries` and `two_word_entries` from the sorted monsters. */
    method FillEntries(nms: seq<NamedMonster>)
      modifies this`allEntries, this`twoWordEntries
      ensures allEntries == Entries(nms, false) && twoWordEntries == Entries(nms, true)
    {
      allEntries, twoWordEntries := map[], map[];
      var i := 0;
      while i < |nms|
        invariant 0 <= i <= |nms|
        invariant allEntries == Entries(nms[..i], false) && twoWordEntries == Entries(nms[..i], true)
      {
        assert nms[..i + 1][..i] == nms[..i];
        allEntries := ClaimAll(allEntries, nms[i].finalNicknames, nms[i]);
        twoWordEntries := ClaimAll(twoWordEntries, nms[i].finalTwoWordNicknames, nms[i]);
        i := i + 1;
      }
      assert nms[..i] == nms;
    }

    /** The closing loop of `__init__`: override nicknames with a live target are written last. */
    method ApplyOverrides(nick: map<string, int>)
      modifies this`allEntries
      ensures allEntries == Overridden(old(allEntries), nick, nick.Keys, monsterNoNaToNamedMonster)
    {
      ghost var e0 := allEntries;
      var rest, done := nick.Keys, {};
      while rest != {}
        invariant done + rest == nick.Keys
        invariant allEntries == Overridden(e0, nick, done, monsterNoNaToNamedMonster)
        decreases |rest|
      {
        var n :| n in rest;
        OverriddenAdd(e0, nick, done, monsterNoNaToNamedMonster, n);
        SetStep(done, rest, n);
        var target := nick[n];
        if target in monsterNoNaToNamedMonster {
          allEntries := allEntries[n := monsterNoNaToNamedMonster[target]];
        }
        rest, done := rest - {n}, done + {n};
      }
    }

    /**
     * `MonsterIndex.__init__(database, nickname_overrides, basename_overrides,
     * accept_filter)`, given the members of each evolution group.
     */
    method Build(groups: seq<seq<MonsterRec>>, nick: map<string, int>, base: map<int, set<string>>,
                 accept: MonsterRec -> bool) returns (r: Outcome)
      requires NonEmptyGroups(groups)
      modifies this
      ensures r.Pass? <==> NamedGroups(groups, nick, base, accept).Ok?
      ensures r.Pass? ==> allMonsters == SortByKey(NamedGroups(groups, nick, base, accept).value, RankKey)
      ensures r.Pass? ==> twoWordEntries == Entries(allMonsters, true)
                          && allEntries == Overridden(Entries(allMonsters, false), nick, nick.Keys, monsterNoNaToNamedMonster)
      ensures r.Pass? ==> monsterNoNaToNamedMonster == IndexBy(allMonsters, NoNaOf)
                          && monsterNoToNamedMonster == IndexBy(allMonsters, NoOf)
                          && allNaNameToMonsters == IndexBy(allMonsters, NaNameOf)
    {
      var named := NameAll(groups, nick, base, accept);
      if named.Err? {
        return Fail(named.error);
      }
      Fill(named.value, nick);
      r := Pass;
    }

    /** The part of `__init__` after naming: sort, fill the nickname tables, index, override. */
    method Fill(named: seq<NamedMonster>, nick: map<string, int>)
      modifies this
      ensures allMonsters == SortByKey(named, RankKey)
      ensures twoWordEntries == Entries(allMonsters, true)
              && allEntries == Overridden(Entries(allMonsters, false), nick, nick.Keys, monsterNoNaToNamedMonster)
      ensures monsterNoNaToNamedMonster == IndexBy(allMonsters, NoNaOf)
              && monsterNoToNamedMonster == IndexBy(allMonsters, NoOf)
              && allNaNameToMonsters == IndexBy(allMonsters, NaNameOf)
    {
      IndexSorted(named);
      FillTables(nick);
    }

    /** `all_monsters` sorted by rank, and the three lookup maps built from it. */
    method IndexSorted(named: seq<NamedMonster>)
      modifies this`allMonsters, this`allNaNameToMonsters, this`monsterNoNaToNamedMonster, this`monsterNoToNamedMonster
      ensures allMonsters == SortByKey(named, RankKey)
      ensures monsterNoNaToNamedMonster == IndexBy(allMonsters, NoNaOf)
              && monsterNoToNamedMonster == IndexBy(allMonsters, NoOf)
              && allNaNameToMonsters == IndexBy(allMonsters, NaNameOf)
    {
      allMonsters := SortByKey(named, RankKey);
      allNaNameToMonsters := IndexBy(allMonsters, NaNameOf);
      monsterNoNaToNamedMonster := IndexBy(allMonsters, NoNaOf);
      monsterNoToNamedMonster := IndexBy(allMonsters, NoOf);
    }

    /** The nickname tables built over `all_monsters`, then the overrides applied. */
    method FillTables(nick: map<string, int>)
      modifies this`allEntries, this`twoWordEntries
      ensures twoWordEntries == Entries(allMonsters, true)
              && allEntries == Overridden(Entries(allMonsters, false), nick, nick.Keys, monsterNoNaToNamedMonster)
    {
      FillEntries(allMonsters);
      ApplyOverrides(nick);
    }

    /** One of the `for nickname, m in self.all_entries.items()` loops that fill `matches`. */
    method Collect(t: EntryTest) returns (s: set<NamedMonster>)
      ensures s == EntryMatches(allEntries, allEntries.Keys, t)
    {
      s := {};
      var rest, done := allEntries.Keys, {};
      while rest != {}
        invariant done + rest == allEntries.Keys
        invariant s == EntryMatches(allEntries, done, t)
        decreases |rest|
      {
        var n :| n in rest;
        EntryMatchesGrow(allEntries, done, n, t);
        SetStep(done, rest, n);
        if Passes(t, n, allEntries[n]) {
          s := s + {allEntries[n]};
        }
        rest, done := rest - {n}, done + {n};
      }
    }

    /** The loop over `all_monsters` of the last exact stage. */
    method CollectFromList(q: string) returns (s: set<NamedMonster>)
      ensures s == ListMatches(allMonsters, q)
    {
      s := {};
      var i := 0;
      while i < |allMonsters|
        invariant 0 <= i <= |allMonsters|
        invariant s == ListMatches(allMonsters[..i], q)
      {
        assert forall k :: 0 <= k < i ==> allMonsters[..i + 1][k] == allMonsters[..i][k];
        if NameContains(allMonsters[i], q) {
          s := s + {allMonsters[i]};
        }
        i := i + 1;
      }
      assert allMonsters[..i] == allMonsters;
    }

    /**
     * What `find_monster` answers for a cleaned query: an id lookup for digits,
     * then an exact nickname, then the length gate, then the first stage whose
     * match set is non-empty, settled by `pickBestMonster`.
     */
    ghost predicate Resolves(q: string, containsJp: string -> bool, r: Lookup)
      reads this
    {
      if IsDigits(q) then
        r == if DigitsValue(q) in monsterNoNaToNamedMonster then Found(monsterNoNaToNamedMonster[DigitsValue(q)], IdLookup)
             else NotFound(IdNotFound)
      else if q in allEntries then r == Found(allEntries[q], ExactNickname)
      else if |q| < 2 && containsJp(q) then r == NotFound(JpTooShort)
      else if |q| < 4 && !containsJp(q) then r == NotFound(TooShort)
      else if EntryMatches(allEntries, allEntries.Keys, SpacePrefix(q)) != {} then
        BestOf(r, EntryMatches(allEntries, allEntries.Keys, SpacePrefix(q)), SpaceNicknamePrefix)
      else if EntryMatches(allEntries, allEntries.Keys, Prefix(q)) != {} then
        BestOf(r, EntryMatches(allEntries, allEntries.Keys, Prefix(q)), NicknamePrefix)
      else if EntryMatches(allEntries, allEntries.Keys, FullName(q)) != {} then
        BestOf(r, EntryMatches(allEntries, allEntries.Keys, FullName(q)), FullNamePrefix)
      else if q in twoWordEntries then r == Found(twoWordEntries[q], SecondWordNickname)
      else if EntryMatches(allEntries, allEntries.Keys, NameIn(q)) != {} then
        BestOf(r, EntryMatches(allEntries, allEntries.Keys, NameIn(q)), NameOnNickname)
      else if ListMatches(allMonsters, q) != {} then
        BestOf(r, ListMatches(allMonsters, q), NameOnFullList)
      else r == TryClose(q)
    }

    /** `MonsterIndex.find_monster` up to the fuzzy stages. */
    method FindMonster(query: string, rmdiacritics: string -> string, containsJp: string -> bool) returns (r: Lookup)
      ensures Resolves(CleanQuery(query, rmdiacritics), containsJp, r)
    {
      var q := Strip(Lower(rmdiacritics(query)));
      if IsDigits(q) {
        var no := DigitsValue(q);
        if no in monsterNoNaToNamedMonster {
          return Found(monsterNoNaToNamedMonster[no], IdLookup);
        }
        return NotFound(IdNotFound);
      }
      if q in allEntries {
        return Found(allEntries[q], ExactNickname);
      }
      var jp := containsJp(q);
      if |q| < 2 && jp {
        return NotFound(JpTooShort);
      } else if |q| < 4 && !jp {
        return NotFound(TooShort);
      }
      var matches := Collect(SpacePrefix(q));
      if matches != {} {
        var best := PickBest(matches, PickKey);
        return Found(best, SpaceNicknamePrefix);
      }
      matches := Collect(Prefix(q));
      if matches != {} {
        var best := PickBest(matches, PickKey);
        return Found(best, NicknamePrefix);
      }
      matches := Collect(FullName(q));
      if matches != {} {
        var best := PickBest(matches, PickKey);
        return Found(best, FullNamePrefix);
      }
      if q in twoWordEntries {
        return Found(twoWordEntries[q], SecondWordNickname);
      }
      matches := Collect(NameIn(q));
      if matches != {} {
        var best := PickBest(matches, PickKey);
        return Found(best, NameOnNickname);
      }
      matches := CollectFromList(q);
      if matches != {} {
        var best := PickBest(matches, PickKey);
        return Found(best, NameOnFullList);
      }
      return TryClose(q);
    }

    /** The tables as `__init__` leaves them, over whatever `all_monsters` holds. */
    ghost predicate Built(nick: map<string, int>)
      reads this
    {
      && twoWordEntries == Entries(allMonsters, true)
      && allEntries == Overridden(Entries(allMonsters, false), nick, nick.Keys, monsterNoNaToNamedMonster)
      && monsterNoNaToNamedMonster == IndexBy(allMonsters, NoNaOf)
    }

    /** Whatever stage answers a query, the monster it finds is one of the indexed monsters. */
    lemma FoundIsIndexed(nick: map<string, int>, q: string, containsJp: string -> bool, r: Lookup)
      requires Built(nick) && Resolves(q, containsJp, r) && r.Found?
      ensures r.monster in allMonsters
    {
      if IsDigits(q) {
        IndexByLast(allMonsters, NoNaOf, DigitsValue(q));
      } else if q in allEntries {
        TableValues(allMonsters, nick, q);
      } else if r.stage == SecondWordNickname {
        EntriesLast(allMonsters, true, q);
      } else if r.stage == NameOnFullList {
        assert r.monster in ListMatches(allMonsters, q);
      } else {
        var n :| n in allEntries && allEntries[n] == r.monster;
        TableValues(allMonsters, nick, n);
      }
    }
  }

  /** A failure on a prefix of the members is the failure of the whole group. */
  lemma {:induction false} NamedMembersPrefixErr(g: NamedGroup, ms: seq<MonsterRec>, nick: map<string, int>,
                                                 accept: MonsterRec -> bool, i: nat)
    requires i < |ms| && NamedMembers(g, ms[..i + 1], nick, accept).Err?
    ensures NamedMembers(g, ms, nick, accept) == NamedMembers(g, ms[..i + 1], nick, accept)
    decreases |ms| - i
  {
    if i + 1 < |ms| {
      assert ms[..i + 2][..i + 1] == ms[..i + 1];
      NamedMembersPrefixErr(g, ms, nick, accept, i + 1);
    } else {
      assert ms[..i + 1] == ms;
    }
  }

  /** Once the groups so far have failed, one more group keeps the same failure. */
  lemma NamedGroupsErrStep(groups: seq<seq<MonsterRec>>, nick: map<string, int>, base: map<int, set<string>>,
                           accept: MonsterRec -> bool, i: nat)
    requires NonEmptyGroups(groups)
    requires i + 1 < |groups| && NamedGroups(groups[..i + 1], nick, base, accept).Err?
    ensures NamedGroups(groups[..i + 2], nick, base, accept) == NamedGroups(groups[..i + 1], nick, base, accept)
  {
    assert groups[..i + 2][..i + 1] == groups[..i + 1];
  }

  lemma {:induction false} NamedGroupsPrefixErr(groups: seq<seq<MonsterRec>>, nick: map<string, int>, base: map<int, set<string>>,
                                                accept: MonsterRec -> bool, i: nat)
    requires NonEmptyGroups(groups)
    requires i < |groups| && NamedGroups(groups[..i + 1], nick, base, accept).Err?
    ensures NamedGroups(groups, nick, base, accept) == NamedGroups(groups[..i + 1], nick, base, accept)
    decreases |groups| - i
  {
    if i + 1 < |groups| {
      NamedGroupsErrStep(groups, nick, base, accept, i);
      NamedGroupsPrefixErr(groups, nick, base, accept, i + 1);
    } else {
      assert groups[..i + 1] == groups;
    }
  }
}
