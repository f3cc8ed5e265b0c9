# A Dafny model of the PadGuide monster lookup and the settings cogs

This project models the core of a Red-DiscordBot cog collection:

- **padguide2.** It loads the PadGuide exports into `PgRawDatabase` in three passes, then finds monsters by query.
  - The passes are: build and filter the tables, a memoised `ensure_loaded` that links records and appends back-references, and `finalize`.
  - Then it groups monsters by evolution tree (`MonsterGroup`), with the acquisition flags shared across each tree.
  - It names every monster (`NamedMonsterGroup`, `NamedMonster`, the basename and prefix rules) and builds the `MonsterIndex` nickname tables with their overrides.
  - Queries go through `find_monster` and `pickBestMonster`.
  - Small helpers: `normalizeServer`, `int_or_none`, `compute_killers`, and the cleaning of the override sheets.
- **padinfo.** The older pipeline of the same lookup.
  - Nicknames and prefixes come from `addNickname` and `addPrefixes`.
  - Groups get a majority nickname (`computeNickname`).
  - `PgDataWrapper.__init__` has its high- and low-priority split, `maybeAdd` (first claim wins), `buildNicknameLists`, `populateWithOverrides` and the two filters.
  - Lookups go through `findMonster` and its own `pickBestMonster`.
- **seniority.** The settings tree with its accessors and setters, and three decisions:
  - `check_users_for_role`, which grants or removes a role by points;
  - `check_acceptable`, the message filter with its regular-expression cleaning;
  - the award arithmetic of `process_message`.
- **trutils.** The settings with their get-or-create accessors and tracked users, and the counters of `_do_all_members`.
- **streamcopy.** The settings and `ensure_user_streaming_role`.

How the source's forms map onto Dafny:

| Source form | Dafny form |
|---|---|
| Objects whose methods mutate fields (`PgRawDatabase`, `MonsterIndex`, `PgDataWrapper`, the settings objects, a guild member) | classes with `modifies` frames |
| Records that are only read | datatypes |
| Loops | methods with invariants, each proved against a function that specifies it |
| Rules written as expressions | functions with lemmas |

Files and modules:

| File | Module | Contents |
|---|---|---|
| `wrappers.dfy` | `Wrappers` | `Option`, `Result`, `Outcome` |
| `text.dfy` | `Text` | the Python string operations the code uses (ASCII) |
| `ranking.dfy` | `Ranking` | stable `sorted(key=…)` and `max(key=…)` |
| `pg_records.dfy` | `PgRecords` | the padguide2 record types, their constructors and loads, `finalize`, `compute_killers` |
| `pg_load.dfy` | `PgLoad` | `_load` and the seventeen `_load` lines of `PgRawDatabase.__init__`, as values |
| `pg_database.dfy` | `PgDatabase` | `PgRawDatabase` and `MonsterGroup` |
| `pg_names.dfy` | `PgNames` | basenames, prefixes, `NamedMonsterGroup`/`NamedMonster`, the override sheets |
| `pg_index.dfy` | `PgIndex` | `MonsterIndex` and `find_monster` |
| `padinfo.dfy` | `PadInfo` | the padinfo pipeline |
| `seniority.dfy`, `trutils.dfy`, `streamcopy.dfy` | one module each | the settings cogs |

Three things are parameters rather than code:
- **Foreign helpers** are function-typed parameters: `rmdiacritics`, `containsJp`, the romaniser, the command-prefix lookup and the Discord role lookups.
- **The data files** are modelled as sequences of already-parsed rows.
- **The clock** enters as a `today`/`now` string.

Where padinfo and padguide2 share a rule, the model keeps each cog's own variant:
- padinfo's `'the'` needs no following space;
- padinfo removes `'awoken'` anywhere in the name;
- padinfo's tables keep the first claimant, padguide2's the last.

## Model

| member | source | states |
|---|---|---|
| PgRecords.AttributeOf | padguide2/padguide2.py:386-402 | an attribute exactly for the PadGuide ids 1-5; any other id is the ValueError |
| PgRecords.DungeonTypeOf | padguide2/padguide2.py:470-476 | a dungeon type exactly for the values -1 to 3; any other value is the ValueError |
| PgRecords.EvoTypeOf | padguide2/padguide2.py:595-603 | an evolution type exactly for the values -1 to 2; any other value is the ValueError |
| PgRecords.IntOrNone | padguide2/padguide2.py:1615-1616 | the empty string gives None; a digit string gives its value; other text fails as `int()` does |
| PgRecords.IntOrNoneRoundTrip | padguide2/padguide2.py:1615-1616 | `int_or_none(str(n)) == n` for every integer |
| PgRecords.WeightedStatsBounds | padguide2/padguide2.py:795 | for non-negative stats the weighted stat is hp/10 + atk/5 + rcv/3 truncated, computed as an exact rational |
| PgRecords.WeightedStatsOdd | padguide2/padguide2.py:795 | `int()` truncates toward zero, so negating all stats negates the weighted stat |
| PgRecords.WeightedStatsMonotone | padguide2/padguide2.py:795 | raising any stat never lowers the weighted stat |
| PgRecords.NewMonster | padguide2/padguide2.py:773-826 | the row's fields are copied, the roma subname is set exactly when the NA and JP names agree, and the link fields start empty |
| PgRecords.KeepLiveSound | padguide2/padguide2.py:265 | the comprehension keeps only live items, each under its own key |
| PgRecords.KeepLiveComplete | padguide2/padguide2.py:265 | every live item's key is in the table |
| PgRecords.KeepLiveOrder | padguide2/padguide2.py:265-267 | the item order appended to `_all_pg_items` lists each key of the table exactly once |
| PgRecords.KeepLiveLast | padguide2/padguide2.py:265 | for a repeated key the table holds its last live item |
| PgRecords.InheritableCases | padguide2/padguide2.py:869-875 | an assist setting of 1 forces inheritable and 2 forbids it; without awakenings only the setting 1 makes a monster inheritable |
| PgRecords.LinkMonster | padguide2/padguide2.py:830-875 | load fails exactly when the monster info, its series or the price is missing (the source's attribute errors); otherwise only the link fields change, the series is the info's, the skills are known ones, and the GFE and MP-shop flags follow their rules |
| PgRecords.Finalized | padguide2/padguide2.py:877-879 | a monster is farmable exactly when some dungeon drops it; nothing else changes |
| PgRecords.FinalizedIdempotent | padguide2/padguide2.py:877-879 | finalizing a record twice equals finalizing it once |
| PgRecords.FinishMonster | padguide2/padguide2.py:869-879 | the intended finalize: `Finalized` plus the inheritance rule judged with the awakenings attached (used by the corrected half of the first finding, not by the load) |
| PgRecords.InheritanceAsWritten | padguide2/padguide2.py:869-875 | as written, a rarity-6 monster selling for 5000 with one awakening is judged not inheritable, because no awakening is attached yet at that point |
| PgRecords.InheritanceCorrected | padguide2/padguide2.py:869-875 | judged after the awakenings are attached, the same monster is inheritable |
| PgRecords.FinishIdempotent | padguide2/padguide2.py:877-879 | finishing a record twice equals finishing it once |
| PgRecords.NormalizeServer | padguide2/padguide2.py:1387-1389 | the result is the upper-cased server, with US read as NA |
| PgRecords.NormalizeSame | padguide2/padguide2.py:1387-1389 | two servers normalise alike exactly when they upper-case alike or both upper-case to US or NA |
| PgRecords.SortedNames | padguide2/padguide2.py:2039-2045 | a name is in the result exactly when it is a candidate and in the set; every result element is drawn from the candidates |
| PgRecords.CollectKillers | padguide2/padguide2.py:2039-2045 | the loop over the types returns exactly `ComputeKillers(types)` |
| PgRecords.ComputeKillersSpec | padguide2/padguide2.py:2039-2056 | Balance gives `['Any']`; otherwise the result is exactly the union of each type's killers, strictly ascending with no repeats |
| PgNames.CommaSegment | padguide2/padguide2.py:1862-1869 | the segment has no comma, a comma-free name is kept whole, and only the name's characters are used |
| PgNames.DropLeading | padguide2/padguide2.py:1871-1873 | only the name's characters are used, and a name that does not start with the word is unchanged |
| PgNames.MonsterBasenameShape | padguide2/padguide2.py:1860-1875 | a basename has no upper-case letters, no comma and no surrounding whitespace, and uses only characters of the name |
| PgNames.MonsterBasenamePlain | padguide2/padguide2.py:1860-1875 | a comma-free name that starts with neither word has the lower-cased, stripped name as its basename |
| PgNames.BestAmong | padguide2/padguide2.py:1877-1883 | the result is one of the candidates, and no candidate beats it |
| PgNames.GroupBasenameBest | padguide2/padguide2.py:1877-1883 | the group basename has the largest count, and is the smallest name among those tied with it |
| PgNames.GroupBasenameUnique | padguide2/padguide2.py:1877-1883 | exactly one basename has both properties |
| PgNames.DashToSpace | padguide2/padguide2.py:1856 | every dash becomes a space; the length is kept and nothing else changes |
| PgNames.ComputedBasenames | padguide2/padguide2.py:1852-1858 | the group basename, plus its spaced form exactly when it holds a dash |
| PgNames.Basenames | padguide2/padguide2.py:1858 | the overrides when there are any, otherwise the computed basenames |
| PgNames.MaxRarity | padguide2/padguide2.py:1901-1905 | an upper bound on every member's rarity, reached by some member |
| PgNames.IsLowPriority | padguide2/padguide2.py:1885-1905 | the monster rules (type, name substrings, rarity, chibi) or the group rule; a base monster without a type is the source's error |
| PgNames.ComputePrefixes | padguide2/padguide2.py:1699-1754 | an unknown first attribute is the KeyError; otherwise the rule-by-rule prefix set |
| PgNames.AttrPrefixesApart | padguide2/padguide2.py:1702-1712 | no attribute prefix has the shape of a name or stage prefix |
| PgNames.SeriesPrefixesApart | padguide2/padguide2.py:1752 | no series prefix has the shape of a name or stage prefix |
| PgNames.ChibiRule | padguide2/padguide2.py:1716-1722 | the chibi prefix appears exactly when the chibi rule fires |
| PgNames.AwokenRule | padguide2/padguide2.py:1724-1730 | the awoken prefixes appear exactly when the awoken rule fires |
| PgNames.RevoRule | padguide2/padguide2.py:1731-1737 | the reincarnated prefixes appear exactly when the reincarnated rule fires |
| PgNames.UltimateRules | padguide2/padguide2.py:1740-1749 | the ultimate-evolution prefixes appear exactly for that stage when no name rule fired |
| PgNames.StageRules | padguide2/padguide2.py:1740-1749 | the base and evo prefixes appear exactly for those stages |
| PgNames.PrefixRules | padguide2/padguide2.py:1699-1754 | each rule's contribution, and each name or stage prefix comes only from its own rule |
| PgNames.PrefixExclusive | padguide2/padguide2.py:1724-1749 | the awoken and reincarnated prefixes exclude the ultimate-evolution ones |
| PgNames.NameGroup | padguide2/padguide2.py:1844-1858 | the named group keeps the group's members, its basenames come from `Basenames`, and its low-priority flag is `IsLowPriority` |
| PgNames.TwoWordBasenamesMeaning | padguide2/padguide2.py:1932-1936 | a second word is a space-free word following the only space of some basename |
| PgNames.FinalNicknamesEndWithBasename | padguide2/padguide2.py:1938-1954 | every final nickname is an override, the roma subname, or ends with one of the group's basenames |
| PgNames.AddPrefixed | padguide2/padguide2.py:1945-1950 | the prefix loop adds exactly `p + b` and `p + ' ' + b` for each prefix |
| PgNames.AddWithPrefixes | padguide2/padguide2.py:1942-1950 | the basename loop adds each basename and its prefixed forms |
| PgNames.CollectTwoWords | padguide2/padguide2.py:1932-1936 | the loop collects exactly the second words of the two-word basenames |
| PgNames.NameMonster | padguide2/padguide2.py:1909-1965 | the kept fields are copied, and the final and two-word nickname sets are the loops' results |
| PgNames.Put | padguide2/padguide2.py:146 | `d[k] = v` adds at most one entry (PutShape and PutGet give its meaning) |
| PgNames.PutShape | padguide2/padguide2.py:146 | keys keep their places; a new one is appended; no pair appears but the old ones and `(k, v)` |
| PgNames.PutGet | padguide2/padguide2.py:146 | a read after `d[k] = v` gives `v`; other keys read as before |
| PgNames.KeyValueMapLast | padguide2/padguide2.py:133-147 | a later row overwrites an earlier one with the same key; rows the filter rejects leave no trace |
| PgNames.KeyValueMapShape | padguide2/padguide2.py:133-147 | keys are distinct, and keys and values are non-empty and stripped |
| PgNames.CsvToKeyValueMap | padguide2/padguide2.py:133-147 | the loop over the rows returns exactly the specified map |
| PgNames.NicknameOverrides | padguide2/padguide2.py:116-117 | keys are lower-cased, values are `int`s, and only digit values survive |
| PgNames.NicknameOverridesLast | padguide2/padguide2.py:116-117 | each cleaned nickname maps to the value of the last digit-valued item that lower-cases to it |
| PgNames.BasenameOverrides | padguide2/padguide2.py:119-122 | the monster numbers that have overrides, with their lower-cased values |
| PgNames.BasenameOverridesMembers | padguide2/padguide2.py:119-122 | a number's overrides are the lower-cased values of exactly the items whose digit key is that number |
| PgIndex.ExtraNicknames | padguide2/padguide2.py:1653-1655 | exactly the override nicknames that point at the monster |
| PgIndex.NamedMembersAccepted | padguide2/padguide2.py:1658-1667 | every named monster stands for an accepted member |
| PgIndex.NamedMembersComplete | padguide2/padguide2.py:1658-1667 | when naming succeeds, every accepted member is named |
| PgIndex.Claim | padguide2/padguide2.py:1680-1684 | every claimed name maps to the monster; every other name is unchanged |
| PgIndex.EntriesLast | padguide2/padguide2.py:1678-1684 | a nickname has an entry exactly when some monster claims it, and the entry is its last claimant |
| PgIndex.EntriesBest | padguide2/padguide2.py:1674-1684 | in the rank-sorted list, a nickname's entry is a claimant that no other claimant outranks |
| PgIndex.IndexByLast | padguide2/padguide2.py:1686-1689 | each key of the index maps to the last monster with that key |
| PgIndex.Overridden | padguide2/padguide2.py:1691-1694 | each override with a live target maps to it; the other names are kept |
| PgIndex.TableEntry | padguide2/padguide2.py:1678-1694 | a live override names its target; any other nickname's entry is its last claimant |
| PgIndex.TableValues | padguide2/padguide2.py:1678-1694 | every entry of the finished tables is one of the named monsters |
| PgIndex.NamedGroupsAccepted | padguide2/padguide2.py:1658-1667 | every collected named monster stands for an accepted member of some group |
| PgIndex.MonsterIndex.constructor | padguide2/padguide2.py:1624-1694 | the empty index has no monsters and no nicknames |
| PgIndex.MonsterIndex.NameMembers | padguide2/padguide2.py:1658-1667 | one group's loops return exactly `NamedMembers` |
| PgIndex.MonsterIndex.NameAll | padguide2/padguide2.py:1658-1667 | the group loop returns exactly `NamedGroups`, error included |
| PgIndex.MonsterIndex.ClaimAll | padguide2/padguide2.py:1680-1684 | `table[n] = nm` for every nickname, as `Claim` |
| PgIndex.MonsterIndex.FillEntries | padguide2/padguide2.py:1678-1684 | the tables become exactly the last-claim tables of the sorted monsters |
| PgIndex.MonsterIndex.ApplyOverrides | padguide2/padguide2.py:1691-1694 | the tables become `Overridden` of the filled tables |
| PgIndex.MonsterIndex.Build | padguide2/padguide2.py:1624-1694 | the whole `__init__`: the sorted monsters, the index maps and the nickname tables; naming errors propagate |
| PgIndex.MonsterIndex.Fill | padguide2/padguide2.py:1674-1694 | the stages after naming: sort, tables, index maps, overrides |
| PgIndex.MonsterIndex.IndexSorted | padguide2/padguide2.py:1674-1689 | `all_monsters` is a rank-sorted permutation, and the lookup maps are built over it |
| PgIndex.MonsterIndex.FillTables | padguide2/padguide2.py:1678-1694 | the tables become the filled tables with the overrides applied |
| PgIndex.MonsterIndex.Collect | padguide2/padguide2.py:1783-1815 | the loop collects exactly the entries whose nickname and monster pass the stage's test |
| PgIndex.MonsterIndex.CollectFromList | padguide2/padguide2.py:1819-1823 | the loop collects exactly the monsters whose NA or JP name contains the query |
| PgIndex.MonsterIndex.FindMonster | padguide2/padguide2.py:1756-1837 | the id lookup, exact entry, length gate and each stage, in order, each with its exact condition; where the fuzzy stages would run it answers `TryClose(q)` |
| PgIndex.MonsterIndex.FoundIsIndexed | padguide2/padguide2.py:1756-1837 | whatever stage answers, the monster found is an indexed monster |
| Ranking.SortByKey | padguide2/padguide2.py:1674-1676 | `sorted(key=…)`: a permutation of the input in non-decreasing key order (SortStable gives its stability) |
| Ranking.SortMembership | padguide2/padguide2.py:1674-1676 | an element is in the sorted list exactly when it is in the input |
| Ranking.SortStable | padguide2/padguide2.py:1674-1676 | `sorted` is stable: the elements sharing any one key come out in their input order |
| Ranking.PickBest | padguide2/padguide2.py:1839-1840 | `max(key=…)` over a set: an element of the set whose key no other exceeds |
| Ranking.FirstMax | padinfo/padinfo.py:261-262 | `max(key=…)` over a list: the first index whose key no element exceeds |
| PgLoad.ConstructSpec | padguide2/padguide2.py:263 | construction succeeds row by row, or some row's constructor raises |
| PgLoad.LoadTableSpec | padguide2/padguide2.py:254-269 | a loaded table holds live items from the rows, each under its key, and lists each key once; it fails exactly when some row's constructor raises |
| PgLoad.KeysFor | padguide2/padguide2.py:267 | the entries appended to `_all_pg_items`: one per id, in order, each the id under the table's kind |
| PgLoad.AllOkTables | padguide2/padguide2.py:216-232 | no load fails exactly when each of the seventeen tables loads |
| PgLoad.LoadedOk | padguide2/padguide2.py:216-232 | the seventeen lines succeed exactly when every constructor does; otherwise the error is that of the first table, in load order, whose constructor raises |
| PgLoad.LoadedContents | padguide2/padguide2.py:212-232 | a load that succeeds leaves each table exactly as `_load` returned it, the monster order as the monster table's order, and `_all_pg_items` as the keys of each table in its order, the tables in load order |
| PgLoad.LoadsOfSound | padguide2/padguide2.py:595-601 | every evolution the loads build starts without its target monster, and every monster starts with no back-references (lines 807-823) |
| PgDatabase.Preorder | padguide2/padguide2.py:891-894 | on success the walk starts at the root and lists only monsters of the graph; None is the endless recursion on a cycle |
| PgDatabase.PreorderClosed | padguide2/padguide2.py:891-894 | a group contains every evolution of each of its members |
| PgDatabase.SingletonGroup | padguide2/padguide2.py:891-894 | a monster with no evolutions forms a group on its own |
| PgDatabase.BaseMonstersMembers | padguide2/padguide2.py:244-248 | a monster is a root exactly when it is listed, present and of the Base stage |
| PgDatabase.BaseMonstersStable | padguide2/padguide2.py:244-248 | record maps with the same ids and the same references have the same roots, whatever their flags |
| PgDatabase.RecursiveAdd | padguide2/padguide2.py:891-894 | the recursive method appends exactly the pre-order walk, or fails on a cycle |
| PgDatabase.GroupWalksSpec | padguide2/padguide2.py:244-248 | group i is the walk from root i, and all walks succeed; otherwise some walk fails |
| PgDatabase.NoCycleIff | padguide2/padguide2.py:244-248 | every group can be built exactly when no Base monster's walk reaches an evolution cycle (`EvoCycle`), in both directions |
| PgDatabase.EvoCycleStable | padguide2/padguide2.py:239-248 | passes that keep every monster's id and references, as finalize and the group loop do, keep the cycle verdict |
| PgDatabase.AnyFlagStable | padguide2/padguide2.py:896-903 | a group's acquisition flags agree across record maps that differ only in `*_evo` flags |
| PgDatabase.BroadcastStable | padguide2/padguide2.py:904-910 | broadcasting over records that differ only in `*_evo` flags gives the same record |
| PgDatabase.GroupedRecordsShape | padguide2/padguide2.py:896-910 | initialising groups changes only `*_evo` flags |
| PgDatabase.GroupedRecordsLast | padguide2/padguide2.py:896-910 | a monster's `*_evo` flags come from the last group that lists it |
| PgDatabase.GroupedRecordsUngrouped | padguide2/padguide2.py:896-910 | a monster that no group lists keeps its record |
| PgDatabase.GroupedFlags | padguide2/padguide2.py:896-910 | each `*_evo` flag is the OR of the acquisition flag over the last group listing the monster |
| PgDatabase.FinalizedGrouped | padguide2/padguide2.py:239-248 | after finalize and grouping, links, back-references and rows are the loaded ones, farmable is set exactly for listed monsters, and an ungrouped listed monster has farmable_evo equal to farmable |
| PgDatabase.NaToNo | padguide2/padguide2.py:251-252 | every mapped NA number belongs to the monster it maps to, and every listed monster's NA number is mapped |
| PgDatabase.InfoLinked | padguide2/padguide2.py:727-728 | the info table keeps its keys, rows and series ids; only the series link of info `no` changes, on its first load |
| PgDatabase.RawDatabase.Empty | padguide2/padguide2.py:211-256 | the `skip_load` database: every table empty and nothing loaded |
| PgDatabase.RawDatabase.FetchLeaf | padguide2/padguide2.py:271-274 | `_ensure_loaded(get(id))` on a leaf table: present exactly when the table holds the id, and marked loaded |
| PgDatabase.RawDatabase.FetchInfo | padguide2/padguide2.py:727-728 | `getMonsterInfo` with `_ensure_loaded`: the info links its series on its first load |
| PgDatabase.RawDatabase.FetchLeaves | padguide2/padguide2.py:830-866 | each request is fetched in turn; only the present leaf items become loaded |
| PgDatabase.RawDatabase.FetchMonsterDeps | padguide2/padguide2.py:830-866 | the fetches PgMonster.load makes before linking, in their order |
| PgDatabase.RawDatabase.StoreLinked | padguide2/padguide2.py:351-357 | the linked monster replaces the constructed one and is marked loaded |
| PgDatabase.RawDatabase.AddMonsterRefs | padguide2/padguide2.py:840-866 | the monster is appended to its skills' and its series' back-references |
| PgDatabase.RawDatabase.LoadMonster | padguide2/padguide2.py:830-875 | succeeds exactly when the link succeeds; then the new monster record and every back-reference it appends are stated exactly |
| PgDatabase.RawDatabase.FetchMonster | padguide2/padguide2.py:351-357 | only the first fetch of a present monster loads it; later fetches change nothing |
| PgDatabase.RawDatabase.LinkedRaises | padguide2/padguide2.py:830-875 | a monster PgMonster.load cannot link is a load that raises in the current wiring |
| PgDatabase.RawDatabase.GetMonster | padguide2/padguide2.py:279-331 | `getMonster(no)` with `_ensure_loaded`: a present monster comes back loaded, an absent one as None; a monster that is absent or already loaded changes nothing; it fails exactly on the first load of a monster whose link raises, and then some record's load raises (`LoadRaises`); the wiring and the ids are kept |
| PgDatabase.RawDatabase.LinkAwakening | padguide2/padguide2.py:436-441 | the awakening records its skill and monster, and is appended to the monster's awakenings |
| PgDatabase.RawDatabase.LoadAwakening | padguide2/padguide2.py:436-441 | the skill is fetched, then the monster, then the two are linked; a missing monster is the AttributeError |
| PgDatabase.RawDatabase.FetchAwakening | padguide2/padguide2.py:351-357 | only the first fetch of a present awakening loads it |
| PgDatabase.RawDatabase.LinkDungeonMonster | padguide2/padguide2.py:561-567 | the dungeon is fetched and, when present, marked loaded; the dungeon monster records its drop monster, monster and dungeon, each None when absent; a present drop monster gets the dungeon (None included) appended to its drop-dungeons; nothing else changes |
| PgDatabase.RawDatabase.LoadDungeonMonster | padguide2/padguide2.py:561-567 | the drop monster, the monster and the dungeon are fetched, then linked; the missing cases fail as in the source |
| PgDatabase.RawDatabase.LoadDrop | padguide2/padguide2.py:521-523 | the monster and the dungeon monster are fetched and recorded |
| PgDatabase.RawDatabase.LinkEvolution | padguide2/padguide2.py:610-616 | succeeds exactly when both monsters exist; the target gets the evolution type and its evo_from, the source gets an evo_to appended |
| PgDatabase.RawDatabase.LoadEvolution | padguide2/padguide2.py:610-616 | both monsters are fetched and linked; a missing monster is a failure |
| PgDatabase.RawDatabase.LinkEvoMaterial | padguide2/padguide2.py:645-657 | succeeds exactly when the evolution is missing or has its target and the fodder exists; then the material is recorded on both monsters |
| PgDatabase.RawDatabase.LoadEvoMaterial | padguide2/padguide2.py:645-657 | the evolution is fetched, then the fodder, then linked |
| PgDatabase.RawDatabase.LoadRotation | padguide2/padguide2.py:1121-1122 | the monster is fetched and recorded |
| PgDatabase.RawDatabase.LoadDatedRotation | padguide2/padguide2.py:1153-1155 | the skill and the rotation are fetched and recorded |
| PgDatabase.RawDatabase.EnsureLoaded | padguide2/padguide2.py:351-357 | `_ensure_loaded(item)`: an item already loaded is left alone (the call passes and changes nothing); otherwise, on success, the item is loaded; a leaf or a monster info never fails; a monster fails exactly when its link raises; every failure has a record whose load raises in the wiring before the call; the ids, the wiring and the earlier load flags are kept |
| PgDatabase.RawDatabase.EnsureItem | padguide2/padguide2.py:235-236 | one loop step: an item its table holds ends up loaded; an item its table does not hold, or one already loaded, changes nothing; a leaf or an info never fails; every failure has a record whose load raises; ids, wiring and earlier flags are kept |
| PgDatabase.RawDatabase.EnsureAll | padguide2/padguide2.py:235-236 | after the pass, every item of `_all_pg_items` that its table holds has run its load; the first load that raises ends the pass, and a failure means some record's load raises in the wiring the pass started from; ids, wiring and earlier flags are kept |
| PgDatabase.RawDatabase.FinalizeAll | padguide2/padguide2.py:239-240 | every listed monster becomes `Finalized` of itself (only the farmable flag is set; `is_inheritable` stays as the load left it); everything else is unchanged |
| PgDatabase.RawDatabase.GroupFlags | padguide2/padguide2.py:896-903 | each flag is the OR of its acquisition flag over the members |
| PgDatabase.RawDatabase.SetEvoFlags | padguide2/padguide2.py:904-910 | every member gets the four flags; every other monster is unchanged |
| PgDatabase.RawDatabase.AddGroup | padguide2/padguide2.py:885-910 | succeeds exactly when the walk from the base succeeds; then the group is appended and the records are re-initialised; on failure the records are untouched |
| PgDatabase.RawDatabase.BuildGroups | padguide2/padguide2.py:244-248 | one group per Base monster, in table order, with the flags broadcast; it fails exactly when some Base monster's walk reaches an evolution cycle (`EvoCycle`, the RecursionError); on every path the monsters' ids and references are kept |
| PgDatabase.RawDatabase.LoadAttributes | padguide2/padguide2.py:216 | `self._attribute_map = self._load(PgAttribute)`: fails exactly when the table's load fails; otherwise the new store is what `AttributesLine` makes of the old one (the table becomes the loaded live items, their keys are appended to `_all_pg_items`, nothing else changes) |
| PgDatabase.RawDatabase.LoadAwakenings | padguide2/padguide2.py:217 | as above, for awakenings (`AwakeningsLine`) |
| PgDatabase.RawDatabase.LoadDungeons | padguide2/padguide2.py:218 | as above, for dungeons (`DungeonsLine`) |
| PgDatabase.RawDatabase.LoadDrops | padguide2/padguide2.py:219 | as above, for dungeon drops (`DropsLine`) |
| PgDatabase.RawDatabase.LoadDungeonMonsters | padguide2/padguide2.py:220 | as above, for dungeon monsters (`DungeonMonstersLine`) |
| PgDatabase.RawDatabase.LoadEvolutions | padguide2/padguide2.py:221 | as above, for evolutions (`EvolutionsLine`) |
| PgDatabase.RawDatabase.LoadEvoMaterials | padguide2/padguide2.py:222 | as above, for evolution materials (`EvoMaterialsLine`) |
| PgDatabase.RawDatabase.LoadMonsters | padguide2/padguide2.py:223 | as above, for monsters; the monster order becomes the table's order (`MonstersLine`) |
| PgDatabase.RawDatabase.LoadAddInfos | padguide2/padguide2.py:224 | as above, for monster add-infos (`AddInfosLine`) |
| PgDatabase.RawDatabase.LoadInfos | padguide2/padguide2.py:225 | as above, for monster infos (`InfosLine`) |
| PgDatabase.RawDatabase.LoadPrices | padguide2/padguide2.py:226 | as above, for prices (`PricesLine`) |
| PgDatabase.RawDatabase.LoadSeries | padguide2/padguide2.py:227 | as above, for series (`SeriesLine`) |
| PgDatabase.RawDatabase.LoadLeaderData | padguide2/padguide2.py:228 | as above, for leader data (`LeaderDataLine`) |
| PgDatabase.RawDatabase.LoadSkills | padguide2/padguide2.py:229 | as above, for skills (`SkillsLine`) |
| PgDatabase.RawDatabase.LoadRotations | padguide2/padguide2.py:230 | as above, for skill rotations (`RotationsLine`) |
| PgDatabase.RawDatabase.LoadDatedRotations | padguide2/padguide2.py:231 | as above, for dated skill rotations (`DatedRotationsLine`) |
| PgDatabase.RawDatabase.LoadTypes | padguide2/padguide2.py:232 | as above, for types (`TypesLine`) |
| PgDatabase.RawDatabase.LoadAttributesToDrops | padguide2/padguide2.py:216-219 | the four loads in order, stopping at the first that fails; passes exactly when all four tables load, and then the four tables are the loaded ones and their keys are appended in order, nothing else changed |
| PgDatabase.RawDatabase.LoadDungeonMonstersToMonsters | padguide2/padguide2.py:220-223 | as above, for dungeon monsters, evolutions, evolution materials and monsters, with the monster order |
| PgDatabase.RawDatabase.LoadAddInfosToSeries | padguide2/padguide2.py:224-227 | as above, for add-infos, infos, prices and series |
| PgDatabase.RawDatabase.LoadLeaderDataToTypes | padguide2/padguide2.py:228-232 | as above, for leader data, skills, rotations, dated rotations and types |
| PgDatabase.RawDatabase.LoadRecordTables | padguide2/padguide2.py:212-232 | from the empty store, the seventeen lines: passes exactly when every table loads, and then the store is `LoadedStore` (each table as `_load` returned it, `_all_pg_items` in load order), no evolution linked and every monster pristine |
| PgDatabase.RawDatabase.KeptByLinks | padguide2/padguide2.py:235-236 | a pass that only adds links, back-references and loaded marks keeps the store's shape: the unlinked tables, the order lists and every table's ids |
| PgDatabase.RawDatabase.KeysOfShape | padguide2/padguide2.py:235-236 | the ids the ensure pass looks an item up in are the ids the shape records |
| PgDatabase.RawDatabase.LinkAll | padguide2/padguide2.py:235-236 | the ensure pass over freshly loaded tables: on success the shape is kept, every listed item its table holds is loaded, and each listed monster is inheritable exactly when its assist setting is 1; a failure means some record's load raises in the loaded wiring |
| PgDatabase.RawDatabase.LoadAndLink | padguide2/padguide2.py:212-236 | from a new object: on success every table loaded, the store has the shape of `LoadedStore`, and every listed item is loaded; a failure means some table failed to load or some record's load raises in `LoadedStore` |
| PgDatabase.RawDatabase.FinishLoad | padguide2/padguide2.py:239-252 | finalize, groups and NA map: it fails exactly when some Base monster's walk reaches an evolution cycle, and keeps every monster's id and references either way; on success links, back-references and rows unchanged; farmable exactly when some dungeon drops a listed monster; the groups are the walks from the roots, each `*_evo` flag is its group's OR, an ungrouped monster's farmable_evo is its farmable; the NA map is `NaToNo` |
| PgDatabase.RawDatabase.ShapeKeptByFinish | padguide2/padguide2.py:239-252 | rewriting monster records without changing their ids keeps the store's shape |
| PgDatabase.RawDatabase.Finish | padguide2/padguide2.py:239-252 | FinishLoad's results (`Finished`); it fails exactly when some Base monster's walk reaches an evolution cycle, read in the records before or after; on success the shape is kept |
| PgDatabase.RawDatabase.LoadedKept | padguide2/padguide2.py:239-252 | a pass that leaves `_all_pg_items` and the loaded marks alone keeps every listed item loaded |
| PgDatabase.RawDatabase.FinalizeAndGroup | padguide2/padguide2.py:239-248 | the finalize pass then the group loop: it fails exactly when some Base monster's walk reaches an evolution cycle, and keeps ids and references either way; on success the same finalize and group results as FinishLoad |
| PgDatabase.RawDatabase.InitFrom | padguide2/padguide2.py:211-252 | the constructor from the seventeen `_load` results: on success every table loaded, the final store has the shape of `LoadedStore`, every listed item is loaded, no Base monster reaches an evolution cycle, and the finalize results hold (`Finished`); a failure means a table failed to load, some record's load raises in `LoadedStore`, or some Base monster reaches an evolution cycle |
| PgDatabase.RawDatabase.Init | padguide2/padguide2.py:211-252 | the whole constructor on a new object: it passes only when every table loads; then the unlinked tables, the monster order and `_all_pg_items` are exactly those of `LoadedStore` of the rows, every other table has its loaded ids, every listed item is loaded; each listed monster is farmable exactly when dropped and inheritable exactly when its assist setting is 1 (the as-written rule of the first finding); the groups, the shared flags and the NA map as in FinishLoad, and no Base monster reaches an evolution cycle; a failure means a table failed to load, some record's load raises in `LoadedStore` of the rows, or some Base monster reaches an evolution cycle |
| PadInfo.CommaPart | padinfo/padinfo.py:610-619 | the part has no comma, a comma-free name is kept whole, and only the name's characters are used (CommaRule gives which side) |
| PadInfo.NicknameShape | padinfo/padinfo.py:610-624 | a nickname has no comma, no upper-case letters and no surrounding whitespace, and uses only the name's characters |
| PadInfo.NicknamePlain | padinfo/padinfo.py:610-624 | a comma-free name without 'awoken' has its lower-cased, stripped self as its nickname |
| PadInfo.CommaRule | padinfo/padinfo.py:612-619 | which side of the comma the nickname comes from, in both cases |
| PadInfo.TheNeedsNoSpace | padinfo/padinfo.py:614 | after a comma, 'theyyy' selects the front part here, whereas padguide2 takes the back part |
| PadInfo.Prefixes | padinfo/padinfo.py:626-666 | succeeds exactly when the first attribute, and the second if any, has a colour code; otherwise the KeyError |
| PadInfo.AttrPrefixesApart | padinfo/padinfo.py:626-640 | no name-derived prefix is a colour prefix |
| PadInfo.SeriesPrefixesApart | padinfo/padinfo.py:661-663 | no name-derived prefix is a collaboration prefix |
| PadInfo.PrefixRules | padinfo/padinfo.py:626-666 | every colour and collaboration prefix, and each name-derived word exactly when its rule fires |
| PadInfo.ShouldFilterMonster | padinfo/padinfo.py:860-871 | filtered exactly by type, name substring, rarity below 2 or lower-case name; a missing type is the error |
| PadInfo.MaxRarityOf | padinfo/padinfo.py:875 | an upper bound on the members' rarities, reached by some member |
| PadInfo.ShouldFilterGroup | padinfo/padinfo.py:873-879 | a group is filtered exactly when every member's rarity is below 5 |
| PadInfo.PickBestMonster | padinfo/padinfo.py:261-262 | a member of the list that no element outranks, and the first such member |
| PadInfo.MapResultSpec | padinfo/padinfo.py:715-742 | the monster loop succeeds exactly when every step does, and keeps order and count |
| PadInfo.EvoFromAllSpec | padinfo/padinfo.py:745-747 | the loop fails exactly on an unknown evolution target; otherwise u is in v's evo_from exactly when v is in u's evo_to |
| PadInfo.Grouped | padinfo/padinfo.py:674-683 | one grouped member per member (GroupedSpec states what changes) |
| PadInfo.GroupedSpec | padinfo/padinfo.py:674-683 | members keep all other fields; they share the most frequent nickname, the smallest among ties, and the group size |
| PadInfo.FlattenSpec | padinfo/padinfo.py:781-792 | the flattened list is exactly the groups' members, each with the list's priority |
| PadInfo.KeepFirst | padinfo/padinfo.py:809-811 | the table gains exactly the given names (FirstClaimsFirst states which element each maps to) |
| PadInfo.FirstClaimsFirst | padinfo/padinfo.py:813-831 | `maybeAdd` never overwrites: a name present at the start keeps its value, and any other name maps to its first claimant |
| PadInfo.OverridesPass | padinfo/padinfo.py:839-856 | the loop runs to the end exactly when every accepted row names a known id |
| PadInfo.OverridesLast | padinfo/padinfo.py:839-856 | a nickname of an accepted row maps to the monster of the last such row; other names keep their entries |
| PadInfo.LoadedFails | padinfo/padinfo.py:688-807 | the load fails exactly on an unknown attribute, an unknown evolution target, or a failing group |
| PadInfo.LoadedPriorities | padinfo/padinfo.py:780-797 | each priority list is sorted largest group first, is exactly its groups' members, and carries its priority |
| PadInfo.LoadedKnown | padinfo/padinfo.py:799-807 | each entry is filed under one of its own names, and `id_to_monster` files each monster under its NA id |
| PadInfo.OverridesKnown | padinfo/padinfo.py:839-856 | the overrides keep every table value known |
| PadInfo.CollectEntries | padinfo/padinfo.py:215-248 | one stage's loop collects exactly the set of entries passing its test |
| PadInfo.CollectList | padinfo/padinfo.py:252-256 | the last stage's loop collects exactly the listed monsters whose names contain the query |
| PadInfo.HitIsKnown | padinfo/padinfo.py:194-259 | over tables the load produced, any monster found is one the load knows |
| PadInfo.PgDataWrapper.constructor | padinfo/padinfo.py:688-807 | the empty wrapper before the body of `__init__` runs |
| PadInfo.PgDataWrapper.PrepareAll | padinfo/padinfo.py:713-742 | the loop over the base monsters equals `MapResult`, and the map indexes the list by id |
| PadInfo.PgDataWrapper.LoadMonsters | padinfo/padinfo.py:713-742 | the same loop with `addNickname` and `addPrefixes` per monster |
| PadInfo.PgDataWrapper.LinkEvoFrom | padinfo/padinfo.py:745-747 | the evo_from map is exactly `EvoFromAll`, failures included |
| PadInfo.PgDataWrapper.GroupOne | padinfo/padinfo.py:754-777 | one root: its walk, the majority nickname, the sizes, and the filed priority |
| PadInfo.PgDataWrapper.BuildGroups | padinfo/padinfo.py:750-777 | a group per root, filed high or low exactly as the filters say |
| PadInfo.PgDataWrapper.GroupRoots | padinfo/padinfo.py:754-777 | succeeds exactly when `SplitGroups` does, and then returns its groups |
| PadInfo.PgDataWrapper.AppendGroups | padinfo/padinfo.py:783-792 | the unzip loop appends exactly the flattened members with the priority |
| PadInfo.PgDataWrapper.Unzip | padinfo/padinfo.py:781-797 | both lists are unzipped and sorted, largest group first and then largest NA id |
| PadInfo.PgDataWrapper.MaybeAdd | padinfo/padinfo.py:809-811 | a name already present keeps its monster; an absent one is added |
| PadInfo.PgDataWrapper.AddGlued | padinfo/padinfo.py:816-818 | the prefix loop adds `p + name` then `p + ' ' + name`, first claim wins |
| PadInfo.PgDataWrapper.AddEntryNames | padinfo/padinfo.py:815-831 | the all_entries part of one monster's step |
| PadInfo.PgDataWrapper.AddTwoWordNames | padinfo/padinfo.py:820-827 | only a two-word nickname adds its second word and the prefixed forms |
| PadInfo.PgDataWrapper.BuildNicknameLists | padinfo/padinfo.py:813-831 | both tables become `FirstClaims` over the list |
| PadInfo.PgDataWrapper.IndexIds | padinfo/padinfo.py:805-807 | the list holds the grouped copies, and `id_to_monster` is its index by NA id |
| PadInfo.PgDataWrapper.ReadOverride | padinfo/padinfo.py:842-856 | one row with its `continue` tests in order; an unknown id is the KeyError |
| PadInfo.PgDataWrapper.PopulateWithOverrides | padinfo/padinfo.py:839-856 | the table becomes the override fold over the rows; the first unknown id stops it |
| PadInfo.PgDataWrapper.Load | padinfo/padinfo.py:688-807 | the state is exactly `Loaded(raw)`, or the error that stops it |
| PadInfo.PgDataWrapper.LinkAndGroup | padinfo/padinfo.py:745-777 | the evo_from loops, then the groups, as `Linked` |
| PadInfo.PgDataWrapper.BuildTables | padinfo/padinfo.py:799-803 | both calls of `buildNicknameLists`, high priority first, over empty tables |
| PadInfo.PgDataWrapper.Finish | padinfo/padinfo.py:781-807 | the stages that cannot fail, as `Finished` |
| PadInfo.PgDataWrapper.SortAndName | padinfo/padinfo.py:781-803 | unzip and sort, then the nickname tables |
| PadInfo.PgDataWrapper.FindMonster | padinfo/padinfo.py:194-259 | the id lookup, exact entry, length gate and each stage in order; a stage with hits answers a top-ranked hit of its set (`PickBest`, ties admitted) |
| Seniority.EnsureMap | seniority/seniority.py:807-810 | the stored value is kept; a missing key gets the default |
| Seniority.EnsureMapStable | seniority/seniority.py:807-810 | a second `ensure_map` of the key, whatever its default, changes nothing |
| Seniority.FillDefaultsSpec | seniority/seniority.py:831-839 | every listed key is present; stored values are kept; missing ones take the default |
| Seniority.DefaultValues | seniority/seniority.py:831-917 | the documented default values of the config and utterances sections |
| Seniority.Ensured | seniority/seniority.py:827-839 | the server and the section exist afterwards, with defaults filled and nothing else touched |
| Seniority.FillDefaultsStable | seniority/seniority.py:831-839 | filling defaults twice equals filling once |
| Seniority.RoleUpdate | seniority/seniority.py:887-905 | zero remove and grant amounts delete the role; an invalid pair is refused; otherwise the record is stored |
| Seniority.RoleUpdateValid | seniority/seniority.py:887-905 | every stored role stays valid |
| Seniority.ChannelUpdate | seniority/seniority.py:992-1001 | a zero cap removes the channel; any other cap stores its record |
| Seniority.BlacklistRemove | seniority/seniority.py:982-986 | the entry removed, if there was one; only that key disappears |
| Seniority.SenioritySettings.constructor | seniority/seniority.py:818-822 | no servers yet |
| Seniority.SenioritySettings.Section | seniority/seniority.py:883-990 | a section accessor: the new settings are `Ensured` of the old |
| Seniority.SenioritySettings.Get | seniority/seniority.py:841-938 | the stored value, or the default filled in on first access |
| Seniority.SenioritySettings.Set | seniority/seniority.py:859-966 | a setter stores its value in its section and changes nothing else |
| Seniority.SenioritySettings.SetRole | seniority/seniority.py:887-905 | the roles section becomes `RoleUpdate` of the old one |
| Seniority.SenioritySettings.SetChannel | seniority/seniority.py:992-1001 | the channels section becomes `ChannelUpdate` of the old one |
| Seniority.SenioritySettings.AddBlacklist | seniority/seniority.py:972-980 | the user is blacklisted with today's date, replacing an earlier entry |
| Seniority.SenioritySettings.RemoveBlacklist | seniority/seniority.py:982-986 | the blacklist becomes `BlacklistRemove` of the old one |
| Seniority.GetAfterSet | seniority/seniority.py:841-966 | a getter returns what the matching setter stored |
| Seniority.PartitionSpec | seniority/seniority.py:422-448 | the grant list is exactly the selected members not blacklisted; the ignored list is exactly the selected blacklisted ones |
| Seniority.RoleRunsOutcome | seniority/seniority.py:397-448 | after the removal run and the grant run, a non-blacklisted member holds the role exactly when its points reach the removal amount (if it held it) or the grant amount (if not); a blacklisted member keeps its standing |
| Seniority.PartitionOrder | seniority/seniority.py:422-448 | both lists keep the order of the server's member list |
| Seniority.CheckUsersForRole | seniority/seniority.py:422-448 | the loop returns exactly the specified partition |
| Seniority.MatchAt | seniority/seniority.py:665-668 | a match lies within the text and is a whole token of at least 21 characters |
| Seniority.Sub | seniority/seniority.py:665-668 | `re.sub` with a count never lengthens the text (SubRemoves states what it removes) |
| Seniority.SubNoOpen | seniority/seniority.py:665-668 | text with no '<' passes unchanged |
| Seniority.ScanSpec | seniority/seniority.py:665-668 | the left-to-right scan spells the text again; each match is the match the pattern makes at that point, and each kept character starts no match |
| Seniority.SubScan | seniority/seniority.py:665-668 | `re.sub(pattern, "", t, count)` equals the scan with its first `count` matches deleted (all of them for 0) |
| Seniority.RemoveTokensKeeps | seniority/seniority.py:665-668 | deleting matches keeps every character outside them, in order |
| Seniority.RemoveTokensDrops | seniority/seniority.py:665-668 | deleting matches removes the first `count` of them (all for 0) and leaves the later ones in order |
| Seniority.SubRemoves | seniority/seniority.py:665-668 | count 0 leaves exactly the characters outside every match; count n removes the first min(n, number of matches) matches and keeps the rest |
| Seniority.StripTokens | seniority/seniority.py:665-668 | the intended cleaning never lengthens the text (StripTokensScan states what it leaves) |
| Seniority.StripTokensAsWritten | seniority/seniority.py:665-668 | the cleaning as written never lengthens the text |
| Seniority.StripTokensScan | seniority/seniority.py:665-668 | the intended cleaning leaves exactly the characters outside every emoji match, then outside every mention match; as written, each pattern loses only its first two matches |
| Seniority.MentionsAsWritten | seniority/seniority.py:668 | as written, a run of n + 2 mentions keeps the last n |
| Seniority.MentionsStripped | seniority/seniority.py:668 | as intended, a run of mentions of any length is removed |
| Seniority.UpperEmojiKept | seniority/seniority.py:665 | as written, an emoji named by a capital letter is not removed |
| Seniority.UpperEmojiStripped | seniority/seniority.py:665 | as intended, that emoji is removed |
| Seniority.SubSinglePass | seniority/seniority.py:668 | `re.sub` scans once: deleting the inner mention of `<@<@id>id>` leaves the mention `<@id>`, so even the intended cleaning does not leave mention-free text |
| Seniority.RoomCodeScanSpec | seniority/seniority.py:660-662 | `re.match('.*\d{4}\s?\d{4}.*')` on the text holds exactly when a left-to-right scan that stops at the first newline finds four digits, an optional whitespace character and four more digits |
| Seniority.CheckAcceptable | seniority/seniority.py:651-676 | as written: commands fail first, then room codes; after the count-2 cleaning, the minimum length, then the minimum word count |
| Seniority.Judge | seniority/seniority.py:651-676 | the decision over a cleaned text: commands, room codes, the minimum length, the minimum word count, each with its reason |
| Seniority.CheckAcceptableIntended | seniority/seniority.py:651-676 | the same decision over the intended cleaning |
| Seniority.CheckAcceptableDiverges | seniority/seniority.py:664-676 | three mentions and five short words pass as written, because one mention survives and counts toward the length and word count, but fail as intended |
| Seniority.AcceptedLength | seniority/seniority.py:651-676 | an accepted message was at least the minimum length before cleaning too |
| Seniority.ProcessMessage | seniority/seniority.py:688-728 | an award is made exactly when none of the guards stops it; a zero message cap is the division by zero; the award is `max_ppd / message_cap`, capped at `max_ppd` |
| Seniority.AwardCapped | seniority/seniority.py:688-728 | an award never takes the channel past `max_ppd`, and with positive caps it always raises the total |
| Seniority.CapIsFinal | seniority/seniority.py:688-728 | a channel already at its cap earns nothing more that day |
| TrUtils.GetOrCreate | trutils/trutils.py:794-798 | the key is created empty when missing and kept when present |
| TrUtils.GetOrCreateStable | trutils/trutils.py:794-798 | a second access finds what the first one created |
| TrUtils.WithTable | trutils/trutils.py:800-826 | the server and its table exist afterwards; every other entry is unchanged |
| TrUtils.Put | trutils/trutils.py:806-831 | the channel maps to the value; everything else is unchanged |
| TrUtils.Clear | trutils/trutils.py:815-841 | the channel's entry is gone; everything else is unchanged |
| TrUtils.LookupAfterPut | trutils/trutils.py:806-835 | a get after a set returns the value set |
| TrUtils.PutFrame | trutils/trutils.py:806-831 | a set leaves every other channel, table and server alone |
| TrUtils.LookupAfterClear | trutils/trutils.py:815-841 | after a clear the channel has no entry |
| TrUtils.ClearFrame | trutils/trutils.py:815-841 | a clear leaves every other entry alone |
| TrUtils.ClearAbsent | trutils/trutils.py:815-841 | clearing an absent channel only creates the empty containers |
| TrUtils.Track | trutils/trutils.py:863-865 | a fresh entry, replacing any earlier one |
| TrUtils.Seen | trutils/trutils.py:867-869 | an untracked user is the KeyError; otherwise only `last_seen` changes |
| TrUtils.Untrack | trutils/trutils.py:871-873 | an untracked user is the KeyError; otherwise only that user is removed |
| TrUtils.UntrackAfterTrack | trutils/trutils.py:863-873 | tracking then untracking forgets the user and leaves the others alone |
| TrUtils.SeenKeepsTrackedOn | trutils/trutils.py:863-869 | an update after tracking keeps the tracking date |
| TrUtils.TrUtilsSettings.constructor | trutils/trutils.py:784-789 | the default settings |
| TrUtils.TrUtilsSettings.GetServer | trutils/trutils.py:794-798 | the servers become `GetOrCreate` of the old ones |
| TrUtils.TrUtilsSettings.TableFor | trutils/trutils.py:800-826 | the settings become `WithTable` of the old ones |
| TrUtils.TrUtilsSettings.SetEntry | trutils/trutils.py:806-831 | the settings become `Put` of the old ones |
| TrUtils.TrUtilsSettings.GetEntry | trutils/trutils.py:811-835 | the stored value or None, with the containers created |
| TrUtils.TrUtilsSettings.ClearEntry | trutils/trutils.py:815-841 | the settings become `Clear` of the old ones |
| TrUtils.TrUtilsSettings.FeedbackChannel | trutils/trutils.py:843-851 | None until a channel is set |
| TrUtils.TrUtilsSettings.SetFeedbackChannel | trutils/trutils.py:846-855 | the id is stored as its decimal string and reads back |
| TrUtils.TrUtilsSettings.AddTrackedUser | trutils/trutils.py:863-865 | the users become `Track` of the old ones |
| TrUtils.TrUtilsSettings.UpdateTrackedUser | trutils/trutils.py:867-869 | the users become `Seen` of the old ones, or the KeyError leaves them alone |
| TrUtils.TrUtilsSettings.RmTrackedUser | trutils/trutils.py:871-873 | the users become `Untrack` of the old ones, or the KeyError leaves them alone |
| TrUtils.TallyTotal | trutils/trutils.py:606-619 | every member increments exactly one counter |
| TrUtils.StatusLinesCount | trutils/trutils.py:606-619 | one status line per ten members, each showing a positive multiple of 10 |
| TrUtils.DoAllMembers | trutils/trutils.py:606-619 | the loop's counters are exactly the tally of the members, and the status lines are the specified ones |
| StreamCopy.AddUser | streamcopy/streamcopy.py:177-180 | the user's entry is replaced; the other users are kept |
| StreamCopy.RmUser | streamcopy/streamcopy.py:182-186 | a present user is removed; an absent user changes nothing |
| StreamCopy.RmAfterAdd | streamcopy/streamcopy.py:177-186 | adding then removing a user equals just removing it |
| StreamCopy.WithServer | streamcopy/streamcopy.py:188-192 | the server's entry is created empty on first access; others are kept |
| StreamCopy.WithServerStable | streamcopy/streamcopy.py:188-192 | a second access returns what the first created |
| StreamCopy.SetStreamerRole | streamcopy/streamcopy.py:194-197 | only this server's entry changes |
| StreamCopy.ClearStreamerRole | streamcopy/streamcopy.py:203-207 | only the role key is dropped; with no role set nothing but the empty entry appears |
| StreamCopy.StreamerRoleAfterSet | streamcopy/streamcopy.py:194-201 | the role reads back; other servers' roles are untouched |
| StreamCopy.StreamerRoleAfterClear | streamcopy/streamcopy.py:199-207 | after a clear there is no role; other servers are untouched |
| StreamCopy.StreamCopySettings.AddUserEntry | streamcopy/streamcopy.py:177-180 | the users become `AddUser` of the old ones |
| StreamCopy.StreamCopySettings.RmUserEntry | streamcopy/streamcopy.py:182-186 | the users become `RmUser` of the old ones |
| StreamCopy.StreamCopySettings.Server | streamcopy/streamcopy.py:188-192 | the servers become `WithServer` of the old ones, and the entry is returned |
| StreamCopy.StreamCopySettings.SetRole | streamcopy/streamcopy.py:194-197 | the servers become `SetStreamerRole` of the old ones |
| StreamCopy.StreamCopySettings.GetRole | streamcopy/streamcopy.py:199-201 | the stored role or None, with the server entry created |
| StreamCopy.StreamCopySettings.ClearRole | streamcopy/streamcopy.py:203-207 | the servers become `ClearStreamerRole` of the old ones |
| StreamCopy.ActionForSpec | streamcopy/streamcopy.py:120-130 | the role is added exactly when the member streams without it, removed exactly when it holds the role without streaming, else kept |
| StreamCopy.EnsureStreamingRoleAsWritten | streamcopy/streamcopy.py:120-130 | as written, any exception reaches `except ex:` and becomes a NameError |
| StreamCopy.UnknownRoleRaises | streamcopy/streamcopy.py:129 | as written, a role id that does not resolve raises NameError |
| StreamCopy.EnsureStreamingRole | streamcopy/streamcopy.py:120-130 | intended: a failure leaves the roles alone; otherwise the member holds the role exactly when it streams, and no other role changes |
| StreamCopy.EnsureStreamingRoleAgrees | streamcopy/streamcopy.py:120-130 | wherever the code as written does not raise, the intended update agrees with it |
| StreamCopy.Member.EnsureUserStreamingRole | streamcopy/streamcopy.py:120-130 | the member's roles become `EnsureStreamingRole` of the old roles |

## Left out

- Reading the JSON exports, the CSV text and the Google-sheet downloads is left out. The model starts from the parsed rows; `download_and_refresh_nicknames` and `_load_overrides` begin from already-split rows.
- The `difflib.get_close_matches` stages of `find_monster` are left out, because they are floating-point similarity scoring. `PgIndex.MonsterIndex.FindMonster` answers `TryClose(q)`, carrying the cleaned query, where they would run.
- The `matches` set shared across the `find_monster` stages is not modelled as shared state: it is always empty when the next stage starts, so each stage collects afresh.
- Order is not modelled for dict and set iteration, nor for `max` among tied keys:
  - dicts iterate in insertion order, as sequences of keys;
  - set iteration (prefixes, killers) is whatever order the set yields;
  - `Ranking.PickBest` returns some maximal element rather than Python's particular one.
- padinfo's monsters are values, not shared objects. A monster reached from two roots is stored as one copy per group that lists it, each with that group's nickname, size and priority. `PadInfo.FinalOf` and `PadInfo.PgDataWrapper.IndexIds` keep the copy that comes last in `hpMonsters + lpMonsters`. That is a low-priority copy whenever some low-priority group lists the monster. Otherwise it is the copy that sorts last: the one in the smallest group, and among equal sizes the one from the later group.
- PadInfo.PgDataWrapper.IndexIds: the nickname and group size of a monster reached from two roots are those of the copy it keeps, as above. In the source they are those of the last root in `full_monster_list` order, because each later group overwrites the one shared object (padinfo.py:769-771, padinfo.py:682). Its priority is low whenever any low-priority group lists it, as in the model (padinfo.py:783-792). When the two differ, the model keeps a different nickname and size. The same holds for the sort of `PadInfo.PgDataWrapper.Unzip`: the source sorts both occurrences by the one final size, while the model sorts each copy by its own group's size.
- PadInfo.Grouped: it counts the members' original nicknames. In the source, `computeNickname` of a later group counts the nickname an earlier group already wrote into a shared member (padinfo.py:674-682), so the most frequent nickname can differ when groups share a monster.
- PadInfo.PgDataWrapper.BuildNicknameLists: each occurrence of a shared monster carries its own group's nickname. In the source every occurrence is the one object and carries the final nickname (padinfo.py:802-803), so the names it adds can differ when groups share a monster.
- Case folding, whitespace and `isdigit` cover ASCII only. Unicode case, the diacritic remover and the romaniser are function parameters.
- `rmdiacritics`, `containsJp`, the command-prefix lookup and the Discord role lookups are parameters, not code.
- The Discord API is left out. Role changes, message sending and the member/guild lookups are modelled as updates of a role set and as outcome values.
- The status lines of `_do_all_members` go into a list. The periodic message edits, the sleeps and the exception log are not modelled.
- The clock is a parameter: `now_date()` and `curtimestr()` enter as strings.
- Timestamps and dates are opaque strings, with no date arithmetic.
- Persistence is left out: `save_settings` and the JSON settings file. The settings are class fields.
- `self.lock`, the bot's own-message check and concurrency in general are left out.
- `process_message` computes its point award with floating-point division. Seniority.ProcessMessage uses exact rationals, modelled as `real`, where the source would round.
- `do_ensure_roles`, `check_stream` and `find_stream` of streamcopy only wire the role update into the event loop and the stream lookup, so they are left out.
- `is_playing` is modelled for the activity shapes the cog reads, not for arbitrary truthiness.
- The padinfo `Monster` constructor's JSON field mapping, `noToBasename` and the debug strings are left out. Monsters are built from the fields the lookup reads.
- The speech and fancysay cogs are outside this model.
- A `RecursionError` from an evolution cycle in `_recursive_add` or `buildMonsterGroup` is modelled as an `Err`/`Fail` outcome rather than an exception.
- PadInfo.PgDataWrapper.GroupRoots: on failure it states only that the loop fails when `SplitGroups` fails, not which error value it returns.
- PgRecords.WeightedStatsBounds: the source divides in floating point before `int()` truncates; the model divides exactly, so where the float sum lands just below an integer the source's weighted stat can be one less than the model's.
- PadInfo.LoadedFails: the model starts from monsters already joined with their info and awakening skills (the `Monster` constructor is not modelled), so the KeyErrors of `skill_map[x.awakening_id]` (padinfo.py:719) and `monster_info_map[monster_id]` (padinfo.py:722) are not among the failures it states.
- StreamCopy.Member.EnsureUserStreamingRole: it models the intended handler, in which a failure leaves the roles alone. As written, the NameError of `except ex:` escapes and ends the member loop of `do_ensure_roles` (streamcopy.py:146-147); that half is `StreamCopy.EnsureStreamingRoleAsWritten` and `StreamCopy.UnknownRoleRaises`.
- PadInfo.PgDataWrapper.LinkEvoFrom: the monster ids of the base list are taken to be distinct. `evo_from` is kept per id, and `PadInfo.PgDataWrapper.BuildGroups`, `PadInfo.PgDataWrapper.LinkAndGroup`, `PadInfo.PgDataWrapper.IndexIds` and `PadInfo.PgDataWrapper.Load` work on the last monster filed under each id. When an id repeats, the source keys `evo_from` by object (only the copy left in `full_monster_map` gains entries, padinfo.py:742-747). Its root test reads each list object's own `evo_from` (padinfo.py:754-756), so an earlier copy of the id becomes an extra root with a group of its own. The model neither makes that group nor keeps the two copies apart.
- PgDatabase.RawDatabase.EnsureAll: it states that each item is loaded, not the exact record each load leaves, which the per-item `Load…` methods state.
- PgDatabase.RawDatabase.Init: of the tables the ensure and finalize passes rewrite (monsters, skills, series, awakenings and the rest) it states the ids, not the records; the records after the `_load` lines are stated by `LoadRecordTables`, each record's links by the per-item `Load…`/`Link…` methods. On failure it does not state which error comes back.
- PgDatabase.RawDatabase.Init: its failure clause has one direction only. It states that every failure has a cause: a table that does not load, a record whose `load` raises, or an evolution cycle under a Base monster. That a record whose `load` raises always makes the constructor fail is not stated: the record's load runs when the pass reaches it or when an earlier item fetches it, and the model does not follow which item that is.
- PgDatabase.RawDatabase.InitFrom: its failure clause has one direction only, as for `Init`. A failure has a cause among the failing table, the raising record and the evolution cycle; that a raising record always makes it fail is not stated.
- PgDatabase.RawDatabase.LoadAndLink: its failure clause has one direction only. A failure has a failing table or a raising record as its cause; that a raising record always makes it fail is not stated.
- PgDatabase.RawDatabase.LinkAll: its failure clause has one direction only. A failure has a raising record as its cause; that a raising record always makes it fail is not stated.
- PgDatabase.RawDatabase.EnsureAll: its failure clause has one direction only. A failure has a raising record as its cause; that a raising record always makes it fail is not stated.
- PgDatabase.RawDatabase.EnsureItem: its failure clause has one direction only. A failure has a raising record as its cause; that a raising load of the item always makes it fail is not stated.
- PgDatabase.RawDatabase.EnsureLoaded: the condition under which it fails is stated both ways for monster keys only. For awakening, dungeon-monster, drop, evolution, material and rotation keys it states only that a failure has a raising record as its cause, not that a raising load of the item makes the call fail.
- PgDatabase.RawDatabase.LoadRecordTables: on failure it does not state which constructor's error comes back; `PgLoad.LoadedOk` states it for the `_load` lines as values.
- Seniority.CheckUsersForRole: the server's blacklist is passed in as a set of user ids. In the source, `blacklist(server.id)` goes through `ensure_map` (seniority.py:968-970), so the call also creates an empty blacklist section in the settings of a server that had none; the model leaves the settings alone.

## Findings

| source | as written | input that shows it | evidently intended | confidence | as-written member | corrected member |
|---|---|---|---|---|---|---|
| padguide2/padguide2.py:869-875 | the fallback rule `has_awakenings and rarity >= 5 and sell_mp > 3000` runs inside `PgMonster.load`, before any awakening has been appended (awakenings attach themselves in their own later `load`, lines 436-441), so `has_awakenings` is always false there; the load as modelled (`PgDatabase.RawDatabase.Init`) keeps this behaviour | a rarity-6 monster selling for 5000 MP with one awakening and no add-info entry | judge inheritance once the awakenings are attached | not executed | PgRecords.InheritanceAsWritten | PgRecords.InheritanceCorrected |
| seniority/seniority.py:665-668 | `re.sub(pattern, '', text, re.IGNORECASE)` passes the flag where `count` goes, so at most 2 tokens are removed and the emoji pattern stays case-sensitive | the text of four consecutive `<@…>` mentions keeps two; `<:P:123456789012345678>` is kept | `flags=re.IGNORECASE`: remove every token, with emoji names matched in any case | not executed | Seniority.MentionsAsWritten | Seniority.MentionsStripped |
| seniority/seniority.py:665 | the same call: an emoji whose name has a capital letter is not matched | `<:P:123456789012345678>` | the emoji is removed | not executed | Seniority.UpperEmojiKept | Seniority.UpperEmojiStripped |
| seniority/seniority.py:664-676 | the mentions that the count-2 cleaning leaves behind count toward the minimum length and word count | three mentions followed by " a b c d e" with mentions ignored, room codes not, and minimums 30 and 5 | the message is rejected for its length, since its own text has 10 characters | not executed | Seniority.CheckAcceptable | Seniority.CheckAcceptableIntended |
| streamcopy/streamcopy.py:129 | `except ex:` names an undefined variable, so any exception in the `try` turns into a NameError that escapes | a streamer-role id that no longer resolves | `except Exception as ex:`: the failure is logged and the member's roles are left alone | not executed | StreamCopy.UnknownRoleRaises | StreamCopy.EnsureStreamingRoleAgrees |
