/**
 * The seniority cog: its per-server settings file, the grant/ignore
 * partition of members for a role, the acceptability chain a message goes
 * through, and the per-day point caps.
 */
module Seniority {
  import opened Wrappers
  import opened Text

  // ------------------------------------------------------ the settings file

  /** A value of the JSON settings file. */
  datatype Value = Str(s: string) | Int(i: int) | Bool(b: bool) | Obj(fields: map<string, Value>)

  /** One section of a server's settings (`config`, `roles`, `channels`, …). */
  type Section = map<string, Value>

  /** `bot_settings['servers']`: server id, then section name, then the section. */
  type ServerMap = map<string, map<string, Section>>

  /**
   * `ensure_map`: the stored value under `key`, after inserting `default`
   * only when the key was missing; nothing already present changes.
   */
  function EnsureMap<V>(item: map<string, V>, key: string, default: V): (r: (map<string, V>, V))
    ensures r.0.Keys == item.Keys + {key}
    ensures key in r.0 && r.1 == r.0[key]
    ensures forall k :: k in item ==> r.0[k] == item[k]
    ensures key !in item ==> r.1 == default
  {
    if key in item then (item, item[key]) else (item[key := default], default)
  }

  /** A second `ensure_map` of the same key, whatever its default, changes nothing. */
  lemma EnsureMapStable<V>(item: map<string, V>, key: string, d1: V, d2: V)
    ensures EnsureMap(EnsureMap(item, key, d1).0, key, d2) == EnsureMap(item, key, d1)
  {
  }

  /** The first default listed for `k`, if any. */
  function DefaultOf(defaults: seq<(string, Value)>, k: string): Option<Value>
  {
    if defaults == [] then None
    else if defaults[0].0 == k then Some(defaults[0].1)
    else DefaultOf(defaults[1..], k)
  }

  /** The run of `ensure_map(section, key, default)` calls for each listed default, in order. */
  function FillDefaults(m: Section, defaults: seq<(string, Value)>): Section
    decreases |defaults|
  {
    if defaults == [] then m else FillDefaults(EnsureMap(m, defaults[0].0, defaults[0].1).0, defaults[1..])
  }

  /**
   * After the defaults are filled in, every listed key is present; a value
   * already stored is kept, and a missing key holds its default.
   */
  lemma {:induction false} FillDefaultsSpec(m: Section, defaults: seq<(string, Value)>, k: string)
    ensures k in FillDefaults(m, defaults) <==> k in m || DefaultOf(defaults, k).Some?
    ensures k in m ==> FillDefaults(m, defaults)[k] == m[k]
    ensures k !in m && DefaultOf(defaults, k).Some? ==> FillDefaults(m, defaults)[k] == DefaultOf(defaults, k).value
    decreases |defaults|
  {
    if defaults != [] {
      var m1 := EnsureMap(m, defaults[0].0, defaults[0].1).0;
      FillDefaultsSpec(m1, defaults[1..], k);
    }
  }

  /** The defaults `config` writes. */
  const ConfigDefaults: seq<(string, Value)> := [
    ("announce_channel", Str("")), ("auto_grant", Bool(false)), ("message_cap", Int(20)),
    ("server_point_cap", Int(5)), ("grant_lookback", Int(90)), ("remove_lookback", Int(90))]

  /** The defaults `utterances` writes. */
  const UtteranceDefaults: seq<(string, Value)> := [
    ("ignore_impolite", Bool(false)), ("ignore_commands", Bool(true)), ("ignore_emoji", Bool(true)),
    ("ignore_mentions", Bool(true)), ("ignore_room_codes", Bool(true)), ("min_length", Int(30)), ("min_words", Int(5))]

  /** The documented defaults, as the two tables list them. */
  lemma DefaultValues()
    ensures DefaultOf(ConfigDefaults, "message_cap") == Some(Int(20))
    ensures DefaultOf(ConfigDefaults, "server_point_cap") == Some(Int(5))
    ensures DefaultOf(ConfigDefaults, "grant_lookback") == Some(Int(90))
    ensures DefaultOf(ConfigDefaults, "remove_lookback") == Some(Int(90))
    ensures DefaultOf(UtteranceDefaults, "min_length") == Some(Int(30))
    ensures DefaultOf(UtteranceDefaults, "min_words") == Some(Int(5))
    ensures DefaultOf(UtteranceDefaults, "ignore_commands") == Some(Bool(true))
  {
    var c := ConfigDefaults;
    assert c[0].0[0] == 'a' && c[1].0[0] == 'a' && c[2].0 == "message_cap";
    assert c[3].0[0] == 's' && c[4].0[0] == 'g' && c[5].0[0] == 'r';
    assert c[3].0 == "server_point_cap" && c[4].0 == "grant_lookback" && c[5].0 == "remove_lookback";
    var u := UtteranceDefaults;
    assert u[0].0[7] == 'i' && u[1].0 == "ignore_commands";
    assert u[2].0[7] == 'e' && u[3].0[7] == 'm' && u[4].0[7] == 'r' && u[5].0 == "min_length";
    assert u[6].0[4] == 'w' && u[5].0[4] == 'l' && u[6].0 == "min_words";
  }

  /** The section as stored, or empty when it is missing. */
  function SectionIn(servers: ServerMap, sid: string, name: string): Section
  {
    if sid in servers && name in servers[sid] then servers[sid][name] else map[]
  }

  /**
   * `server(sid)` and then `ensure_map(server, name, {})` with the section's
   * defaults: the server and the section exist afterwards, every other
   * server and section is as it was, and the section holds its defaults.
   */
  function Ensured(servers: ServerMap, sid: string, name: string, defaults: seq<(string, Value)>): (r: ServerMap)
    ensures r.Keys == servers.Keys + {sid}
    ensures sid in r && name in r[sid]
    ensures r[sid].Keys == (if sid in servers then servers[sid].Keys else {}) + {name}
    ensures forall s :: s in servers && s != sid ==> r[s] == servers[s]
    ensures forall n :: n in r[sid] && n != name ==> sid in servers && r[sid][n] == servers[sid][n]
    ensures r[sid][name] == FillDefaults(SectionIn(servers, sid, name), defaults)
  {
    var srv := EnsureMap(servers, sid, map[]);
    var sec := EnsureMap(srv.1, name, map[]);
    srv.0[sid := sec.0[name := FillDefaults(sec.1, defaults)]]
  }

  /** Filling a section's defaults a second time changes nothing, so the accessors can be called again and again. */
  lemma {:induction false} FillDefaultsStable(m: Section, defaults: seq<(string, Value)>)
    ensures FillDefaults(FillDefaults(m, defaults), defaults) == FillDefaults(m, defaults)
  {
    var f := FillDefaults(m, defaults);
    forall k ensures k in FillDefaults(f, defaults) <==> k in f
    {
      FillDefaultsSpec(f, defaults, k);
      FillDefaultsSpec(m, defaults, k);
    }
    forall k | k in f ensures FillDefaults(f, defaults)[k] == f[k]
    {
      FillDefaultsSpec(f, defaults, k);
    }
  }

  /** The section `name` of server `sid` replaced by `sec`. */
  function Replace(servers: ServerMap, sid: string, name: string, sec: Section): ServerMap
    requires sid in servers
  {
    servers[sid := servers[sid][name := sec]]
  }

  // ------------------------------------------------------------ stored records

  function RoleRecord(roleId: string, remove: int, warn: int, grant: int): Value
  {
    Obj(map["role_id" := Str(roleId), "remove_amount" := Int(remove), "warn_amount" := Int(warn), "grant_amount" := Int(grant)])
  }

  function ChannelRecord(channelId: string, maxPpd: int): Value
  {
    Obj(map["channel_id" := Str(channelId), "max_ppd" := Int(maxPpd)])
  }

  function BlacklistRecord(userId: string, byId: string, date: string, reason: string): Value
  {
    Obj(map["user_id" := Str(userId), "by_id" := Str(byId), "ignore_date" := Str(date), "reason" := Str(reason)])
  }

  /**
   * `set_role` on the roles section: zero remove and grant amounts delete the
   * role; otherwise the checks raise in a fixed order, and only a role that
   * passes all of them is stored, with exactly its four fields.
   */
  function RoleUpdate(roles: Section, roleId: string, remove: int, warn: int, grant: int): (r: (Outcome, Section))
    ensures remove == 0 && grant == 0 ==> r == (Pass, roles - {roleId})
    ensures !(remove == 0 && grant == 0) ==> (r.0.Pass? <==> 0 <= remove < grant && 0 <= warn < grant)
    ensures r.0.Fail? ==> r.1 == roles
    ensures r.0.Fail? && remove >= grant ==> r.0.error == "remove_amount must be less than grant_amount"
    ensures r.0.Fail? && remove < grant && warn >= grant ==> r.0.error == "warn_amount must be less than grant_amount"
    ensures r.0.Fail? && remove < grant && warn < grant ==> r.0.error == "role values must be >= 0"
    ensures r.0.Pass? && !(remove == 0 && grant == 0) ==> r.1 == roles[roleId := RoleRecord(roleId, remove, warn, grant)]
  {
    if remove == 0 && grant == 0 then (Pass, roles - {roleId})
    else if remove >= grant then (Fail("remove_amount must be less than grant_amount"), roles)
    else if warn >= grant then (Fail("warn_amount must be less than grant_amount"), roles)
    else if remove < 0 || warn < 0 || grant < 0 then (Fail("role values must be >= 0"), roles)
    else (Pass, roles[roleId := RoleRecord(roleId, remove, warn, grant)])
  }

  /** A stored role: filed under its own id, with `0 <= remove < grant` and `0 <= warn < grant`. */
  ghost predicate ValidRoles(roles: Section)
  {
    forall id :: id in roles ==>
      exists remove, warn, grant :: roles[id] == RoleRecord(id, remove, warn, grant)
                                   && 0 <= remove < grant && 0 <= warn < grant
  }

  /** `set_role` keeps every stored role valid, whatever it is asked to store. */
  lemma RoleUpdateValid(roles: Section, roleId: string, remove: int, warn: int, grant: int)
    requires ValidRoles(roles)
    ensures ValidRoles(RoleUpdate(roles, roleId, remove, warn, grant).1)
  {
    var r := RoleUpdate(roles, roleId, remove, warn, grant).1;
    forall id | id in r
      ensures exists rm, wn, gr :: r[id] == RoleRecord(id, rm, wn, gr) && 0 <= rm < gr && 0 <= wn < gr
    {
      if id == roleId && r != roles && !(remove == 0 && grant == 0) {
        assert r[id] == RoleRecord(id, remove, warn, grant);
      } else {
        assert id in roles && r[id] == roles[id];
      }
    }
  }

  /**
   * `set_channel` on the channels section: a zero cap removes the channel,
   * any other stores its record, and no other channel changes.
   */
  function ChannelUpdate(channels: Section, channelId: string, maxPpd: int): (r: Section)
    ensures channelId in r <==> maxPpd != 0
    ensures maxPpd != 0 ==> r[channelId] == ChannelRecord(channelId, maxPpd)
    ensures forall c :: c != channelId ==> (c in r <==> c in channels) && (c in r ==> r[c] == channels[c])
  {
    if maxPpd == 0 then channels - {channelId} else channels[channelId := ChannelRecord(channelId, maxPpd)]
  }

  /** `remove_blacklist` on the blacklist section: the entry it removes, if there was one. */
  function BlacklistRemove(blacklist: Section, userId: string): (r: (Section, Option<Value>))
    ensures r.0 == blacklist - {userId}
    ensures r.1.Some? <==> userId in blacklist
    ensures r.1.Some? ==> r.1.value == blacklist[userId]
  {
    (blacklist - {userId}, if userId in blacklist then Some(blacklist[userId]) else None)
  }

  // ------------------------------------------------------------ the settings

  /** `SenioritySettings`: the settings file as the cog reads and writes it. */
  class SenioritySettings {
    var servers: ServerMap

    /** `make_default_settings`: no servers yet. */
    constructor ()
      ensures servers == map[]
    {
      servers := map[];
    }

    /**
     * A section accessor (`roles`, `channels`, `blacklist`, and `config` or
     * `utterances` with their defaults): the section is created if missing
     * and returned.
     */
    method Section(sid: string, name: string, defaults: seq<(string, Value)>) returns (sec: Section)
      modifies this
      ensures servers == Ensured(old(servers), sid, name, defaults)
      ensures sec == FillDefaults(SectionIn(old(servers), sid, name), defaults)
    {
      servers := Ensured(servers, sid, name, defaults);
      sec := servers[sid][name];
    }

    /**
     * A getter of `config` or `utterances` (`message_cap`, `min_length`, …):
     * the stored value, or the default the accessor has just written.
     */
    method Get(sid: string, name: string, defaults: seq<(string, Value)>, key: string) returns (v: Value)
      requires DefaultOf(defaults, key).Some?
      modifies this
      ensures servers == Ensured(old(servers), sid, name, defaults)
      ensures v == if key in SectionIn(old(servers), sid, name) then SectionIn(old(servers), sid, name)[key]
                   else DefaultOf(defaults, key).value
    {
      var sec := Section(sid, name, defaults);
      FillDefaultsSpec(SectionIn(old(servers), sid, name), defaults, key);
      v := sec[key];
    }

    /** A setter of `config` or `utterances` (`set_message_cap`, `set_min_length`, …). */
    method Set(sid: string, name: string, defaults: seq<(string, Value)>, key: string, v: Value)
      modifies this
      ensures var e := Ensured(old(servers), sid, name, defaults);
              servers == Replace(e, sid, name, e[sid][name][key := v])
    {
      var sec := Section(sid, name, defaults);
      servers := Replace(servers, sid, name, sec[key := v]);
    }

    /** `set_role`. */
    method SetRole(sid: string, roleId: string, remove: int, warn: int, grant: int) returns (r: Outcome)
      modifies this
      ensures var e := Ensured(old(servers), sid, "roles", []);
              var u := RoleUpdate(e[sid]["roles"], roleId, remove, warn, grant);
              r == u.0 && (r.Pass? ==> servers == Replace(e, sid, "roles", u.1)) && (r.Fail? ==> servers == e)
    {
      var roles := Section(sid, "roles", []);
      if remove == 0 && grant == 0 {
        roles := roles - {roleId};
      } else if remove >= grant {
        return Fail("remove_amount must be less than grant_amount");
      } else if warn >= grant {
        return Fail("warn_amount must be less than grant_amount");
      } else if remove < 0 || warn < 0 || grant < 0 {
        return Fail("role values must be >= 0");
      } else {
        roles := roles[roleId := RoleRecord(roleId, remove, warn, grant)];
      }
      servers := Replace(servers, sid, "roles", roles);
      return Pass;
    }

    /** `set_channel`. */
    method SetChannel(sid: string, channelId: string, maxPpd: int)
      modifies this
      ensures var e := Ensured(old(servers), sid, "channels", []);
              servers == Replace(e, sid, "channels", ChannelUpdate(e[sid]["channels"], channelId, maxPpd))
    {
      var channels := Section(sid, "channels", []);
      if maxPpd == 0 {
        channels := channels - {channelId};
      } else {
        channels := channels[channelId := ChannelRecord(channelId, maxPpd)];
      }
      servers := Replace(servers, sid, "channels", channels);
    }

    /** `add_blacklist`; `today` stands for `now_date()`. An entry already there is overwritten. */
    method AddBlacklist(sid: string, userId: string, byId: string, reason: string, today: string)
      modifies this
      ensures var e := Ensured(old(servers), sid, "blacklist", []);
              servers == Replace(e, sid, "blacklist", e[sid]["blacklist"][userId := BlacklistRecord(userId, byId, today, reason)])
    {
      var blacklist := Section(sid, "blacklist", []);
      servers := Replace(servers, sid, "blacklist", blacklist[userId := BlacklistRecord(userId, byId, today, reason)]);
    }

    /** `remove_blacklist`. */
    method RemoveBlacklist(sid: string, userId: string) returns (removed: Option<Value>)
      modifies this
      ensures var e := Ensured(old(servers), sid, "blacklist", []);
              var u := BlacklistRemove(e[sid]["blacklist"], userId);
              servers == Replace(e, sid, "blacklist", u.0) && removed == u.1
    {
      var blacklist := Section(sid, "blacklist", []);
      removed := if userId in blacklist then Some(blacklist[userId]) else None;
      servers := Replace(servers, sid, "blacklist", blacklist - {userId});
    }
  }

  /** A value written by a setter is what the matching getter then returns. */
  lemma GetAfterSet(servers: ServerMap, sid: string, name: string, defaults: seq<(string, Value)>, key: string, v: Value)
    ensures var e := Ensured(servers, sid, name, defaults);
            var s := Replace(e, sid, name, e[sid][name][key := v]);
            key in SectionIn(s, sid, name) && SectionIn(s, sid, name)[key] == v
  {
  }

  // ------------------------------------------------- granting and removing roles

  /** A server member: its id and the ids of the roles it holds. */
  datatype Member = Member(id: string, roles: set<string>)

  /** `{user_id: points for (user_id, points) in rows}`: the last row of a user wins. */
  function PointsMap(rows: seq<(string, real)>): map<string, real>
  {
    if rows == [] then map[] else PointsMap(rows[..|rows| - 1])[rows[|rows| - 1].0 := rows[|rows| - 1].1]
  }

  lemma {:induction false} PointsMapLast(rows: seq<(string, real)>, u: string)
    ensures u in PointsMap(rows) <==> exists i :: 0 <= i < |rows| && rows[i].0 == u
    ensures u in PointsMap(rows) ==>
              exists i :: 0 <= i < |rows| && rows[i] == (u, PointsMap(rows)[u]) && forall j :: i < j < |rows| ==> rows[j].0 != u
  {
    if rows != [] {
      var front := rows[..|rows| - 1];
      PointsMapLast(front, u);
      assert forall i :: 0 <= i < |front| ==> front[i] == rows[i];
      if rows[|rows| - 1].0 != u && u in PointsMap(front) {
        var i :| 0 <= i < |front| && front[i] == (u, PointsMap(front)[u]) && forall j :: i < j < |front| ==> front[j].0 != u;
        assert rows[i] == (u, PointsMap(rows)[u]);
      }
    }
  }

  /** `userid_to_points.get(user.id, 0)`. */
  function PointsOf(pts: map<string, real>, u: string): real
  {
    if u in pts then pts[u] else 0.0
  }

  /** `point_check_fn`: at least the amount when granting, below it when removing. */
  predicate PointCheck(amount: int, greater: bool, p: real)
  {
    if greater then p >= amount as real else p < amount as real
  }

  /** A member the loop looks at: one without the role when adding, one with it when removing. */
  predicate Considered(m: Member, role: string, adding: bool)
  {
    if adding then role !in m.roles else role in m.roles
  }

  /** A member that reaches one of the two lists. */
  predicate Selected(m: Member, pts: map<string, real>, check: real -> bool, role: string, adding: bool)
  {
    Considered(m, role, adding) && check(PointsOf(pts, m.id))
  }

  /** The grant and ignored lists after the loop over `members`. */
  function Partition(members: seq<Member>, pts: map<string, real>, blacklisted: set<string>,
                     check: real -> bool, role: string, adding: bool): (seq<(string, real)>, seq<(string, real)>)
  {
    if members == [] then ([], [])
    else
      var gi := Partition(members[..|members| - 1], pts, blacklisted, check, role, adding);
      var m := members[|members| - 1];
      if !Selected(m, pts, check, role, adding) then gi
      else if m.id in blacklisted then (gi.0, gi.1 + [(m.id, PointsOf(pts, m.id))])
      else (gi.0 + [(m.id, PointsOf(pts, m.id))], gi.1)
  }

  /**
   * The grant list holds exactly the selected members that are not
   * blacklisted and the ignored list exactly the selected blacklisted ones,
   * each with its points; so no user is in both, and together they hold one
   * entry per selected member.
   */
  lemma {:induction false} PartitionSpec(members: seq<Member>, pts: map<string, real>, blacklisted: set<string>,
                                         check: real -> bool, role: string, adding: bool)
    ensures var gi := Partition(members, pts, blacklisted, check, role, adding);
      && (forall e :: e in gi.0 <==> exists i :: 0 <= i < |members| && Selected(members[i], pts, check, role, adding)
                                             && members[i].id !in blacklisted && e == (members[i].id, PointsOf(pts, members[i].id)))
      && (forall e :: e in gi.1 <==> exists i :: 0 <= i < |members| && Selected(members[i], pts, check, role, adding)
                                             && members[i].id in blacklisted && e == (members[i].id, PointsOf(pts, members[i].id)))
      && (forall e :: e in gi.0 ==> e.0 !in blacklisted)
      && (forall e :: e in gi.1 ==> e.0 in blacklisted)
      && |gi.0| + |gi.1| == |SelectedIndices(members, pts, check, role, adding)|
  {
    if members != [] {
      var front := members[..|members| - 1];
      PartitionSpec(front, pts, blacklisted, check, role, adding);
      assert forall i :: 0 <= i < |front| ==> front[i] == members[i];
    }
  }

  /** Some entry of `l` is for user `id`. */
  predicate Lists(l: seq<(string, real)>, id: string)
  {
    exists k :: 0 <= k < |l| && l[k].0 == id
  }

  /** Whether a member holds the role once a grant run and a removal run have been carried out. */
  predicate HoldsAfter(m: Member, role: string, grant: seq<(string, real)>, removal: seq<(string, real)>)
  {
    if role in m.roles then !Lists(removal, m.id) else Lists(grant, m.id)
  }

  /**
   * A grant run at `grantAmount` (`p >= amount`) and a removal run at
   * `removeAmount` (`p < amount`) over the same members: a member who is not
   * blacklisted ends up holding the role exactly when its points reach the
   * threshold that applies to it (the grant amount without the role, the
   * removal amount with it); a blacklisted member keeps what it had.
   */
  lemma RoleRunsOutcome(members: seq<Member>, pts: map<string, real>, blacklisted: set<string>, role: string,
                        grantAmount: int, removeAmount: int, i: int)
    requires 0 <= i < |members|
    requires forall a, b :: 0 <= a < |members| && 0 <= b < |members| && members[a].id == members[b].id ==> a == b
    ensures var grant := Partition(members, pts, blacklisted, p => PointCheck(grantAmount, true, p), role, true).0;
      var removal := Partition(members, pts, blacklisted, p => PointCheck(removeAmount, false, p), role, false).0;
      var m := members[i];
      && (m.id !in blacklisted ==>
            (HoldsAfter(m, role, grant, removal)
             <==> PointsOf(pts, m.id) >= (if role in m.roles then removeAmount else grantAmount) as real))
      && (m.id in blacklisted ==> (HoldsAfter(m, role, grant, removal) <==> role in m.roles))
  {
    var gc := p => PointCheck(grantAmount, true, p);
    var rc := p => PointCheck(removeAmount, false, p);
    var grant := Partition(members, pts, blacklisted, gc, role, true).0;
    var removal := Partition(members, pts, blacklisted, rc, role, false).0;
    var m := members[i];
    PartitionSpec(members, pts, blacklisted, gc, role, true);
    PartitionSpec(members, pts, blacklisted, rc, role, false);
    var e := (m.id, PointsOf(pts, m.id));
    if Lists(grant, m.id) {
      var k :| 0 <= k < |grant| && grant[k].0 == m.id;
      assert grant[k] in grant;
      var j :| 0 <= j < |members| && Selected(members[j], pts, gc, role, true)
               && members[j].id !in blacklisted && grant[k] == (members[j].id, PointsOf(pts, members[j].id));
      assert j == i;
    }
    if Lists(removal, m.id) {
      var k :| 0 <= k < |removal| && removal[k].0 == m.id;
      assert removal[k] in removal;
      var j :| 0 <= j < |members| && Selected(members[j], pts, rc, role, false)
               && members[j].id !in blacklisted && removal[k] == (members[j].id, PointsOf(pts, members[j].id));
      assert j == i;
    }
    if m.id !in blacklisted {
      if role in m.roles && Selected(m, pts, rc, role, false) {
        assert e in removal;
        var k :| 0 <= k < |removal| && removal[k] == e;
        assert Lists(removal, m.id);
      }
      if role !in m.roles && Selected(m, pts, gc, role, true) {
        assert e in grant;
        var k :| 0 <= k < |grant| && grant[k] == e;
        assert Lists(grant, m.id);
      }
    }
  }

  /** The positions of the selected members. */
  function SelectedIndices(members: seq<Member>, pts: map<string, real>, check: real -> bool, role: string, adding: bool): seq<nat>
  {
    if members == [] then []
    else SelectedIndices(members[..|members| - 1], pts, check, role, adding)
         + if Selected(members[|members| - 1], pts, check, role, adding) then [|members| - 1] else []
  }

  /** `out` lists, in order, the entries of the members at the increasing positions `idx`. */
  predicate KeepsOrder(out: seq<(string, real)>, members: seq<Member>, pts: map<string, real>, idx: seq<nat>)
  {
    && |idx| == |out|
    && (forall a, b :: 0 <= a < b < |idx| ==> idx[a] < idx[b])
    && (forall k :: 0 <= k < |idx| ==> idx[k] < |members| && out[k] == (members[idx[k]].id, PointsOf(pts, members[idx[k]].id)))
  }

  /** Both lists keep the order of the server's member list. */
  lemma {:induction false} PartitionOrder(members: seq<Member>, pts: map<string, real>, blacklisted: set<string>,
                                          check: real -> bool, role: string, adding: bool)
    returns (grantAt: seq<nat>, ignoredAt: seq<nat>)
    ensures KeepsOrder(Partition(members, pts, blacklisted, check, role, adding).0, members, pts, grantAt)
    ensures KeepsOrder(Partition(members, pts, blacklisted, check, role, adding).1, members, pts, ignoredAt)
  {
    if members == [] {
      return [], [];
    }
    var front := members[..|members| - 1];
    var n := |members| - 1;
    grantAt, ignoredAt := PartitionOrder(front, pts, blacklisted, check, role, adding);
    assert forall i :: 0 <= i < |front| ==> front[i] == members[i];
    var m := members[n];
    if Selected(m, pts, check, role, adding) {
      if m.id in blacklisted {
        ignoredAt := ignoredAt + [n];
      } else {
        grantAt := grantAt + [n];
      }
    }
  }

  /** `check_users_for_role`; `blacklisted` stands for the keys of the server's blacklist. */
  method CheckUsersForRole(rows: seq<(string, real)>, members: seq<Member>, blacklisted: set<string>,
                           check: real -> bool, role: string, adding: bool)
    returns (grant: seq<(string, real)>, ignored: seq<(string, real)>)
    ensures (grant, ignored) == Partition(members, PointsMap(rows), blacklisted, check, role, adding)
  {
    var pts := PointsMap(rows);
    grant, ignored := [], [];
    var i := 0;
    while i < |members|
      invariant 0 <= i <= |members|
      invariant (grant, ignored) == Partition(members[..i], pts, blacklisted, check, role, adding)
    {
      assert members[..i + 1][..i] == members[..i];
      var user := members[i];
      var points := if user.id in pts then pts[user.id] else 0.0;
      i := i + 1;
      if role in user.roles && adding {
        continue;
      }
      if role !in user.roles && !adding {
        continue;
      }
      if !check(points) {
        continue;
      }
      if user.id in blacklisted {
        ignored := ignored + [(user.id, points)];
      } else {
        grant := grant + [(user.id, points)];
      }
    }
    assert members[..i] == members;
  }

  // ------------------------------------------------------ acceptable messages

  /** The two token patterns a message is cleaned of: custom emoji and user mentions. */
  datatype Pattern = Emoji(ignoreCase: bool) | Mention

  /** `[0-9a-z_]`, which `re.IGNORECASE` widens to upper-case letters. */
  predicate NameChar(c: char, ignoreCase: bool)
  {
    IsDigit(c) || IsLowerLetter(c) || c == '_' || (ignoreCase && IsUpper(c))
  }

  /** The length of the run of name characters that `t` starts with. */
  function NameRun(t: string, ignoreCase: bool): (n: nat)
    ensures n <= |t|
    ensures forall i :: 0 <= i < n ==> NameChar(t[i], ignoreCase)
    ensures n < |t| ==> !NameChar(t[n], ignoreCase)
  {
    if t == [] || !NameChar(t[0], ignoreCase) then 0 else 1 + NameRun(t[1..], ignoreCase)
  }

  predicate DigitsAt(t: string, i: nat, n: nat)
  {
    i + n <= |t| && forall j :: i <= j < i + n ==> IsDigit(t[j])
  }

  /**
   * The length of the match of `<:[0-9a-z_]+:\d{18}>` or `<@\d{18}>` at the
   * start of `t`, or 0.  The name run cannot hold a colon, so the greedy `+`
   * has a single way to match.
   */
  function MatchAt(p: Pattern, t: string): (k: nat)
    ensures k <= |t|
    ensures k != 0 ==> k >= 21
  {
    match p
    case Mention =>
      if |t| >= 21 && t[0] == '<' && t[1] == '@' && DigitsAt(t, 2, 18) && t[20] == '>' then 21 else 0
    case Emoji(ic) =>
      if |t| >= 2 && t[0] == '<' && t[1] == ':' then
        var n := NameRun(t[2..], ic);
        if n >= 1 && |t| >= n + 22 && t[n + 2] == ':' && DigitsAt(t, n + 3, 18) && t[n + 21] == '>' then n + 22 else 0
      else 0
  }

  /** `re.sub(pattern, '', t, count)`: matches removed left to right, at most `count` of them; a count of 0 means all. */
  function Sub(p: Pattern, t: string, count: nat): (r: string)
    ensures |r| <= |t|
    decreases |t|
  {
    if t == [] then []
    else
      var k := MatchAt(p, t);
      if k > 0 then (if count == 1 then t[k..] else Sub(p, t[k..], if count == 0 then 0 else count - 1))
      else [t[0]] + Sub(p, t[1..], count)
  }

  /** Text without a '<' holds no token, so it passes the substitution unchanged. */
  lemma {:induction false} SubNoOpen(p: Pattern, t: string, count: nat)
    requires forall i :: 0 <= i < |t| ==> t[i] != '<'
    ensures Sub(p, t, count) == t
    decreases |t|
  {
    if t != [] {
      assert MatchAt(p, t) == 0;
      assert forall i :: 0 <= i < |t[1..]| ==> t[1..][i] == t[i + 1];
      SubNoOpen(p, t[1..], count);
      assert [t[0]] + t[1..] == t;
    }
  }

  /**
   * How the regular-expression engine reads `t` for one pattern: scanning left
   * to right, at each position either a match (which is consumed whole) or a
   * character that starts no match.
   */
  datatype Piece = Keep(c: char) | Token(s: string)

  function Scan(p: Pattern, t: string): seq<Piece>
    decreases |t|
  {
    if t == [] then []
    else
      var k := MatchAt(p, t);
      if k > 0 then [Token(t[..k])] + Scan(p, t[k..]) else [Keep(t[0])] + Scan(p, t[1..])
  }

  function PieceText(x: Piece): string
  {
    match x
    case Keep(c) => [c]
    case Token(s) => s
  }

  function Flatten(ps: seq<Piece>): string
  {
    if ps == [] then [] else PieceText(ps[0]) + Flatten(ps[1..])
  }

  /** The matches of a scan, in order. */
  function Tokens(ps: seq<Piece>): seq<string>
  {
    if ps == [] then [] else (if ps[0].Token? then [ps[0].s] else []) + Tokens(ps[1..])
  }

  /** The characters of a scan that belong to no match, in order. */
  function Keeps(ps: seq<Piece>): string
  {
    if ps == [] then [] else (if ps[0].Keep? then [ps[0].c] else []) + Keeps(ps[1..])
  }

  /** The scan with its first `count` matches deleted, or all of them when `count` is 0. */
  function RemoveTokens(ps: seq<Piece>, count: nat): seq<Piece>
  {
    if ps == [] then []
    else if ps[0].Token? then (if count == 1 then ps[1..] else RemoveTokens(ps[1..], if count == 0 then 0 else count - 1))
    else [ps[0]] + RemoveTokens(ps[1..], count)
  }

  lemma SplitAt(t: string, k: nat)
    requires k <= |t|
    ensures t[..k] + t[k..] == t
  {
  }

  /** The pieces of the scan spell the text again. */
  lemma {:induction false} ScanFlatten(p: Pattern, t: string)
    ensures Flatten(Scan(p, t)) == t
    decreases |t|
  {
    if t != [] {
      var k := MatchAt(p, t);
      if k > 0 {
        ScanFlatten(p, t[k..]);
        SplitAt(t, k);
      } else {
        ScanFlatten(p, t[1..]);
        assert [t[0]] + t[1..] == t;
      }
    }
  }

  /** The `i`-th piece of the scan: a match is what the pattern matches there, and a kept character starts no match. */
  lemma {:induction false} ScanAt(p: Pattern, t: string, i: nat)
    requires i < |Scan(p, t)|
    ensures MatchAt(p, Flatten(Scan(p, t)[i..])) == (if Scan(p, t)[i].Token? then |Scan(p, t)[i].s| else 0)
    ensures Scan(p, t)[i].Token? ==> |Scan(p, t)[i].s| > 0
    decreases |t|
  {
    var ps := Scan(p, t);
    var k := MatchAt(p, t);
    var rest := if k > 0 then t[k..] else t[1..];
    var head := if k > 0 then Token(t[..k]) else Keep(t[0]);
    assert ps == [head] + Scan(p, rest);
    if i == 0 {
      ScanFlatten(p, t);
      assert ps[0..] == ps;
      assert Flatten(ps[0..]) == t;
    } else {
      ScanAt(p, rest, i - 1);
      assert ps[i..] == Scan(p, rest)[i - 1..];
    }
  }

  /**
   * The scan reads the whole text: its pieces spell `t` again; every match is
   * the match the pattern makes at that point of the text, and every kept
   * character starts no match.
   */
  lemma ScanSpec(p: Pattern, t: string)
    ensures Flatten(Scan(p, t)) == t
    ensures forall i :: 0 <= i < |Scan(p, t)| ==>
              MatchAt(p, Flatten(Scan(p, t)[i..])) == (if Scan(p, t)[i].Token? then |Scan(p, t)[i].s| else 0)
              && (Scan(p, t)[i].Token? ==> |Scan(p, t)[i].s| > 0)
  {
    ScanFlatten(p, t);
    forall i | 0 <= i < |Scan(p, t)|
      ensures MatchAt(p, Flatten(Scan(p, t)[i..])) == (if Scan(p, t)[i].Token? then |Scan(p, t)[i].s| else 0)
              && (Scan(p, t)[i].Token? ==> |Scan(p, t)[i].s| > 0)
    {
      ScanAt(p, t, i);
    }
  }

  /** `re.sub` is the scan with the leading `count` matches deleted (all of them for 0). */
  lemma {:induction false} SubScan(p: Pattern, t: string, count: nat)
    ensures Sub(p, t, count) == Flatten(RemoveTokens(Scan(p, t), count))
    decreases |t|
  {
    if t != [] {
      var k := MatchAt(p, t);
      if k > 0 {
        SubScan(p, t[k..], if count == 0 then 0 else count - 1);
        if count == 1 {
          ScanFlatten(p, t[k..]);
        }
      } else {
        SubScan(p, t[1..], count);
      }
    }
  }

  /** Deleting matches keeps every other character, in order. */
  lemma {:induction false} RemoveTokensKeeps(ps: seq<Piece>, count: nat)
    ensures Keeps(RemoveTokens(ps, count)) == Keeps(ps)
  {
    if ps != [] {
      if ps[0].Token? {
        if count != 1 {
          RemoveTokensKeeps(ps[1..], if count == 0 then 0 else count - 1);
        }
      } else {
        RemoveTokensKeeps(ps[1..], count);
        assert RemoveTokens(ps, count)[1..] == RemoveTokens(ps[1..], count);
      }
    }
  }

  /** Deleting matches deletes the first `count` of them (all of them for 0) and leaves the later ones. */
  lemma {:induction false} RemoveTokensDrops(ps: seq<Piece>, count: nat)
    ensures Tokens(RemoveTokens(ps, count)) == if count == 0 || count >= |Tokens(ps)| then [] else Tokens(ps)[count..]
  {
    if ps != [] {
      if ps[0].Token? {
        var rest := Tokens(ps[1..]);
        assert Tokens(ps) == [ps[0].s] + rest;
        if count == 1 {
          DropCons(ps[0].s, rest, 1);
        } else {
          RemoveTokensDrops(ps[1..], if count == 0 then 0 else count - 1);
          if count > 1 && count < |Tokens(ps)| {
            DropCons(ps[0].s, rest, count);
          }
        }
      } else {
        RemoveTokensDrops(ps[1..], count);
        assert RemoveTokens(ps, count)[1..] == RemoveTokens(ps[1..], count);
      }
    }
  }

  lemma DropCons<T>(x: T, s: seq<T>, n: nat)
    requires 0 < n <= |s| + 1
    ensures ([x] + s)[n..] == s[n - 1..]
  {
  }

  /** A scan without matches spells exactly its kept characters. */
  lemma {:induction false} FlattenNoTokens(ps: seq<Piece>)
    requires Tokens(ps) == []
    ensures Flatten(ps) == Keeps(ps)
  {
    if ps != [] {
      FlattenNoTokens(ps[1..]);
    }
  }

  /**
   * `re.sub` with count 0 leaves exactly the characters that belong to no
   * match of the scan, and with a positive count the matches after the first
   * `count` stay in the text.
   */
  lemma SubRemoves(p: Pattern, t: string, count: nat)
    ensures var ps := RemoveTokens(Scan(p, t), count);
      Sub(p, t, count) == Flatten(ps) && Keeps(ps) == Keeps(Scan(p, t))
      && Tokens(ps) == if count == 0 || count >= |Tokens(Scan(p, t))| then [] else Tokens(Scan(p, t))[count..]
    ensures count == 0 ==> Sub(p, t, 0) == Keeps(Scan(p, t))
  {
    SubScan(p, t, count);
    RemoveTokensKeeps(Scan(p, t), count);
    RemoveTokensDrops(Scan(p, t), count);
    if count == 0 {
      FlattenNoTokens(RemoveTokens(Scan(p, t), 0));
    }
  }

  /** The cleaning step as written: `re.IGNORECASE` lands in the `count` slot, which is 2. */
  function StripTokensAsWritten(ignoreEmoji: bool, ignoreMentions: bool, t: string): (r: string)
    ensures |r| <= |t|
  {
    var a := if ignoreEmoji then Sub(Emoji(false), t, 2) else t;
    if ignoreMentions then Sub(Mention, a, 2) else a
  }

  /** The cleaning step as intended: every token removed, the emoji name matched in any case. */
  function StripTokens(ignoreEmoji: bool, ignoreMentions: bool, t: string): (r: string)
    ensures |r| <= |t|
  {
    var a := if ignoreEmoji then Sub(Emoji(true), t, 0) else t;
    if ignoreMentions then Sub(Mention, a, 0) else a
  }

  /**
   * Both cleanings in terms of the scan: the intended one keeps exactly the
   * characters outside every match, pattern by pattern; the one as written
   * deletes the first two matches of each pattern and keeps the rest.
   */
  lemma StripTokensScan(ignoreEmoji: bool, ignoreMentions: bool, t: string)
    ensures var a := if ignoreEmoji then Keeps(Scan(Emoji(true), t)) else t;
      StripTokens(ignoreEmoji, ignoreMentions, t) == if ignoreMentions then Keeps(Scan(Mention, a)) else a
    ensures var a := if ignoreEmoji then Flatten(RemoveTokens(Scan(Emoji(false), t), 2)) else t;
      StripTokensAsWritten(ignoreEmoji, ignoreMentions, t) == if ignoreMentions then Flatten(RemoveTokens(Scan(Mention, a), 2)) else a
  {
    SubRemoves(Emoji(true), t, 0);
    SubRemoves(Emoji(false), t, 2);
    var a := if ignoreEmoji then Sub(Emoji(true), t, 0) else t;
    var b := if ignoreEmoji then Sub(Emoji(false), t, 2) else t;
    SubRemoves(Mention, a, 0);
    SubRemoves(Mention, b, 2);
  }

  /** A mention token. */
  const SampleMention: string := "<@123456789012345678>"

  /** The mention token of the 18-digit user id `id`. */
  function MentionOf(id: string): string
  {
    "<@" + id + ">"
  }

  lemma MentionFront(id: string, rest: string)
    requires |id| == 18 && IsDigits(id)
    ensures MatchAt(Mention, MentionOf(id) + rest) == 21 && (MentionOf(id) + rest)[21..] == rest
  {
    var t := MentionOf(id) + rest;
    assert t[0] == '<' && t[1] == '@' && t[20] == '>';
    assert forall j :: 2 <= j < 20 ==> t[j] == id[j - 2];
  }

  /** Text without a '<' comes through every substitution of mentions unchanged. */
  lemma SubNoOpenIds(id: string, count: nat)
    requires |id| == 18 && IsDigits(id)
    ensures Sub(Mention, id + ">", count) == id + ">"
  {
    var u := id + ">";
    forall i | 0 <= i < |u| ensures u[i] != '<' {
      if i < 18 {
        assert u[i] == id[i];
      }
    }
    SubNoOpen(Mention, u, count);
  }

  function Repeat(s: string, n: nat): string
  {
    if n == 0 then [] else s + Repeat(s, n - 1)
  }

  lemma MentionAtFront(rest: string)
    ensures MatchAt(Mention, SampleMention + rest) == 21 && (SampleMention + rest)[21..] == rest
  {
    var t := SampleMention + rest;
    assert t[0] == '<' && t[1] == '@' && t[20] == '>';
    assert forall j :: 2 <= j < 20 ==> t[j] == SampleMention[j];
  }

  /** As written, a run of n + 2 mentions keeps all but the first two. */
  lemma {:induction false} MentionsAsWritten(n: nat)
    ensures StripTokensAsWritten(false, true, Repeat(SampleMention, n + 2)) == Repeat(SampleMention, n)
  {
    var m := SampleMention;
    var r := Repeat(m, n);
    assert Repeat(m, n + 2) == m + (m + r);
    MentionAtFront(m + r);
    MentionAtFront(r);
    assert Sub(Mention, m + (m + r), 2) == Sub(Mention, m + r, 1);
    assert Sub(Mention, m + r, 1) == r;
  }

  /** As intended, a run of mentions of any length is removed completely. */
  lemma {:induction false} MentionsStripped(n: nat)
    ensures StripTokens(false, true, Repeat(SampleMention, n)) == []
  {
    if n > 0 {
      MentionAtFront(Repeat(SampleMention, n - 1));
      MentionsStripped(n - 1);
    }
  }

  /** A custom emoji token `<:c:d>` whose name is the one character `c`. */
  function EmojiToken(c: char, d: string): string
  {
    "<:" + [c] + ":" + d + ">"
  }

  /** As written, an emoji whose name is a capital letter is not removed. */
  lemma UpperEmojiKept(c: char, d: string)
    requires IsUpper(c) && |d| == 18 && IsDigits(d)
    ensures Sub(Emoji(false), EmojiToken(c, d), 2) == EmojiToken(c, d)
  {
    var t := EmojiToken(c, d);
    assert t[2..][0] == c;
    assert MatchAt(Emoji(false), t) == 0;
    forall i | 0 <= i < |t[1..]| ensures t[1..][i] != '<' {
      if 3 <= i < 21 {
        assert t[1..][i] == d[i - 3];
      }
    }
    SubNoOpen(Emoji(false), t[1..], 2);
    assert [t[0]] + t[1..] == t;
  }

  /** As intended, the same emoji is removed. */
  lemma UpperEmojiStripped(c: char, d: string)
    requires IsUpper(c) && |d| == 18 && IsDigits(d)
    ensures Sub(Emoji(true), EmojiToken(c, d), 0) == []
  {
    var t := EmojiToken(c, d);
    assert t[2..][0] == c && t[2..][1] == ':';
    assert NameRun(t[2..][1..], true) == 0;
    assert NameRun(t[2..], true) == 1;
    forall j | 4 <= j < 22 ensures IsDigit(t[j]) {
      assert t[j] == d[j - 4];
    }
    assert MatchAt(Emoji(true), t) == |t|;
    assert t[|t|..] == [];
  }

  /**
   * `re.sub` makes one pass: deleting a mention can bring together the pieces
   * of another one, which then stays, even with every match removed.
   */
  lemma SubSinglePass(id: string)
    requires |id| == 18 && IsDigits(id)
    ensures Sub(Mention, "<@" + (MentionOf(id) + (id + ">")), 0) == MentionOf(id)
  {
    var m, tail := MentionOf(id), id + ">";
    var u := ['@'] + (m + tail);
    var t := ['<'] + u;
    assert t == "<@" + (m + tail);
    assert t[1..] == u && u[1..] == m + tail;
    assert t[2] == '<' && u[0] == '@';
    assert MatchAt(Mention, t) == 0 && MatchAt(Mention, u) == 0;
    MentionFront(id, tail);
    SubNoOpenIds(id, 0);
    assert Sub(Mention, m + tail, 0) == tail;
    assert Sub(Mention, u, 0) == ['@'] + tail;
    assert Sub(Mention, t, 0) == ['<'] + (['@'] + tail);
    assert ['<'] + (['@'] + tail) == m;
  }

  /** The `utterances` settings `check_acceptable` reads. */
  datatype Utterance = Utterance(ignoreCommands: bool, ignoreEmoji: bool, ignoreMentions: bool,
                                 ignoreRoomCodes: bool, minLength: int, minWords: int)

  predicate DigitsOnLine(t: string, i: nat)
  {
    DigitsAt(t, i, 4) && forall j :: 0 <= j < i ==> t[j] != '\n'
  }

  /**
   * `re.match(r'.*\d{4}\s?\d{4}.*', t)`: four digits, an optional blank, four
   * digits; `.` does not cross a newline, so the first four must lie on the first line.
   */
  predicate HasRoomCode(t: string)
  {
    exists i :: 0 <= i <= |t| && DigitsOnLine(t, i)
                && (DigitsAt(t, i + 4, 4) || (i + 4 < |t| && IsSpace(t[i + 4]) && DigitsAt(t, i + 5, 4)))
  }

  /**
   * Four digits, an optional whitespace character and four digits at the start of `t`:
   * the `\d{4}\s?\d{4}` part of the pattern.
   */
  predicate CodeAtStart(t: string)
  {
    DigitsAt(t, 0, 4) && (DigitsAt(t, 4, 4) || (4 < |t| && IsSpace(t[4]) && DigitsAt(t, 5, 4)))
  }

  /**
   * The search `re.match` does for `.*` followed by the code: try each
   * position of the first line in turn, stopping at the first newline, which
   * `.` does not match.
   */
  function RoomCodeScan(t: string): bool
  {
    if CodeAtStart(t) then true
    else if t == [] || t[0] == '\n' then false
    else RoomCodeScan(t[1..])
  }

  lemma CodeAtShift(t: string, i: nat)
    requires 0 < i <= |t|
    ensures CodeAtStart(t[1..][i - 1..]) == CodeAtStart(t[i..])
  {
    assert t[1..][i - 1..] == t[i..];
  }

  /** The code spelled out at position `i` of `t` is `CodeAtStart` of the rest of `t`. */
  lemma CodeAtSuffix(t: string, i: nat)
    requires i <= |t|
    ensures (DigitsAt(t, i, 4) && (DigitsAt(t, i + 4, 4) || (i + 4 < |t| && IsSpace(t[i + 4]) && DigitsAt(t, i + 5, 4))))
            == CodeAtStart(t[i..])
  {
    var u := t[i..];
    assert forall j :: 0 <= j < |u| ==> u[j] == t[i + j];
    assert DigitsAt(t, i, 4) == DigitsAt(u, 0, 4);
    assert DigitsAt(t, i + 4, 4) == DigitsAt(u, 4, 4);
    assert DigitsAt(t, i + 5, 4) == DigitsAt(u, 5, 4);
  }

  /**
   * Past a first character that is not a newline and starts no code, the
   * pattern matches exactly when it matches the rest of the text.
   */
  lemma RoomCodeStep(t: string)
    requires t != [] && t[0] != '\n' && !CodeAtStart(t)
    ensures HasRoomCode(t) <==> HasRoomCode(t[1..])
  {
    var u := t[1..];
    if HasRoomCode(u) {
      var i :| 0 <= i <= |u| && DigitsOnLine(u, i)
               && (DigitsAt(u, i + 4, 4) || (i + 4 < |u| && IsSpace(u[i + 4]) && DigitsAt(u, i + 5, 4)));
      CodeAtSuffix(u, i);
      CodeAtSuffix(t, i + 1);
      CodeAtShift(t, i + 1);
      assert DigitsOnLine(t, i + 1) by {
        forall j | 0 <= j < i + 1 ensures t[j] != '\n' {
          if j > 0 {
            assert t[j] == u[j - 1];
          }
        }
      }
    }
    if HasRoomCode(t) {
      var i :| 0 <= i <= |t| && DigitsOnLine(t, i)
               && (DigitsAt(t, i + 4, 4) || (i + 4 < |t| && IsSpace(t[i + 4]) && DigitsAt(t, i + 5, 4)));
      CodeAtSuffix(t, i);
      assert t[0..] == t;
      assert i != 0;
      CodeAtSuffix(u, i - 1);
      CodeAtShift(t, i);
      assert DigitsOnLine(u, i - 1) by {
        forall j | 0 <= j < i - 1 ensures u[j] != '\n' {
          assert u[j] == t[j + 1];
        }
      }
    }
  }

  /** A text that starts with a newline, or is empty, and starts no code has no room code. */
  lemma RoomCodeStop(t: string)
    requires (t == [] || t[0] == '\n') && !CodeAtStart(t)
    ensures !HasRoomCode(t)
  {
    CodeAtSuffix(t, 0);
    assert t[0..] == t;
  }

  /** The scanner finds a room code exactly when the pattern matches, in both directions. */
  lemma {:induction false} RoomCodeScanSpec(t: string)
    ensures RoomCodeScan(t) <==> HasRoomCode(t)
    decreases |t|
  {
    if CodeAtStart(t) {
      CodeAtSuffix(t, 0);
      assert t[0..] == t;
      assert DigitsOnLine(t, 0);
    } else if t == [] || t[0] == '\n' {
      RoomCodeStop(t);
    } else {
      RoomCodeScanSpec(t[1..]);
      RoomCodeStep(t);
    }
  }

  datatype Verdict = Verdict(ok: bool, text: string, reason: string)

  /**
   * The tests of `check_acceptable` once the text has been cleaned to `c`:
   * commands and room codes are judged on the original text `t`, the length
   * and word-count minimums on `c`.
   */
  function Judge(u: Utterance, isCommand: bool, t: string, c: string): (r: Verdict)
    ensures r.ok <==> !(u.ignoreCommands && isCommand) && !(u.ignoreRoomCodes && HasRoomCode(t))
                      && |c| >= u.minLength && WordCount(c) >= u.minWords
    ensures u.ignoreCommands && isCommand ==> r == Verdict(false, t, "Ignored command")
    ensures !(u.ignoreCommands && isCommand) && u.ignoreRoomCodes && HasRoomCode(t) ==> r == Verdict(false, t, "Ignored room code")
    ensures !(u.ignoreCommands && isCommand) && !(u.ignoreRoomCodes && HasRoomCode(t)) ==> r.text == c
    ensures r.ok ==> r == Verdict(true, c, "Passed!")
    ensures !r.ok && r.reason == "Min words" ==> |r.text| >= u.minLength
  {
    if u.ignoreCommands && isCommand then Verdict(false, t, "Ignored command")
    else if u.ignoreRoomCodes && HasRoomCode(t) then Verdict(false, t, "Ignored room code")
    else if |c| < u.minLength then Verdict(false, c, "Min length")
    else if WordCount(c) < u.minWords then Verdict(false, c, "Min words")
    else Verdict(true, c, "Passed!")
  }

  /**
   * `check_acceptable` as written, with `isCommand` standing for the prefix
   * lookup: the cleaning removes at most two tokens of each kind and matches
   * emoji names in lower case only.
   */
  function CheckAcceptable(u: Utterance, isCommand: bool, t: string): (r: Verdict)
    ensures var c := StripTokensAsWritten(u.ignoreEmoji, u.ignoreMentions, t);
      r.ok <==> !(u.ignoreCommands && isCommand) && !(u.ignoreRoomCodes && HasRoomCode(t))
                && |c| >= u.minLength && WordCount(c) >= u.minWords
    ensures u.ignoreCommands && isCommand ==> r == Verdict(false, t, "Ignored command")
    ensures !(u.ignoreCommands && isCommand) && u.ignoreRoomCodes && HasRoomCode(t) ==> r == Verdict(false, t, "Ignored room code")
    ensures r.ok ==> r == Verdict(true, StripTokensAsWritten(u.ignoreEmoji, u.ignoreMentions, t), "Passed!")
    ensures !r.ok && r.reason == "Min words" ==> |r.text| >= u.minLength
  {
    Judge(u, isCommand, t, StripTokensAsWritten(u.ignoreEmoji, u.ignoreMentions, t))
  }

  /** `check_acceptable` as intended: every token removed, emoji names in any case. */
  function CheckAcceptableIntended(u: Utterance, isCommand: bool, t: string): (r: Verdict)
    ensures var c := StripTokens(u.ignoreEmoji, u.ignoreMentions, t);
      r.ok <==> !(u.ignoreCommands && isCommand) && !(u.ignoreRoomCodes && HasRoomCode(t))
                && |c| >= u.minLength && WordCount(c) >= u.minWords
    ensures u.ignoreCommands && isCommand ==> r == Verdict(false, t, "Ignored command")
    ensures !(u.ignoreCommands && isCommand) && u.ignoreRoomCodes && HasRoomCode(t) ==> r == Verdict(false, t, "Ignored room code")
    ensures r.ok ==> r == Verdict(true, StripTokens(u.ignoreEmoji, u.ignoreMentions, t), "Passed!")
  {
    Judge(u, isCommand, t, StripTokens(u.ignoreEmoji, u.ignoreMentions, t))
  }

  /** An accepted message was at least as long as the minimum before cleaning too. */
  lemma AcceptedLength(u: Utterance, isCommand: bool, t: string)
    requires CheckAcceptable(u, isCommand, t).ok
    ensures |t| >= |CheckAcceptable(u, isCommand, t).text| >= u.minLength
    ensures WordCount(CheckAcceptable(u, isCommand, t).text) >= u.minWords
  {
  }

  lemma {:induction false} WordCountLead(w: string, rest: string)
    requires w != [] && forall i :: 0 <= i < |w| ==> !IsSpace(w[i])
    ensures WordCountAfter(w + rest, true) == 1 + WordCountAfter(rest, false)
    ensures WordCountAfter(w + rest, false) == WordCountAfter(rest, false)
  {
    assert (w + rest)[1..] == w[1..] + rest;
    if |w| > 1 {
      WordCountLead(w[1..], rest);
    } else {
      assert w[1..] == [];
      assert w[1..] + rest == rest;
    }
  }

  /** As written, a run of three mentions before `w` loses two of them. */
  lemma ThreeMentionsAsWritten(id: string, w: string)
    requires |id| == 18 && IsDigits(id)
    ensures var m := MentionOf(id); Sub(Mention, m + (m + (m + w)), 2) == m + w
  {
    var m := MentionOf(id);
    MentionFront(id, m + (m + w));
    MentionFront(id, m + w);
  }

  /** As intended, a run of three mentions before a text without '<' goes entirely. */
  lemma ThreeMentionsStripped(id: string, w: string)
    requires |id| == 18 && IsDigits(id)
    requires forall i :: 0 <= i < |w| ==> w[i] != '<'
    ensures var m := MentionOf(id); Sub(Mention, m + (m + (m + w)), 0) == w
  {
    var m := MentionOf(id);
    MentionFront(id, m + (m + w));
    MentionFront(id, m + w);
    MentionFront(id, w);
    SubNoOpen(Mention, w, 0);
    assert Sub(Mention, m + w, 0) == w;
    assert Sub(Mention, m + (m + w), 0) == w;
  }

  /** A mention followed by `w` has one word more than `w` read after a space. */
  lemma MentionWords(id: string, w: string)
    requires |id| == 18 && IsDigits(id)
    ensures WordCountAfter(MentionOf(id) + w, true) == 1 + WordCountAfter(w, false)
  {
    var m := MentionOf(id);
    forall i | 0 <= i < |m| ensures !IsSpace(m[i]) {
      if 2 <= i < 20 {
        assert m[i] == id[i - 2];
      }
    }
    WordCountLead(m, w);
  }

  /**
   * With mentions ignored, room codes not, and the default minimums of 30
   * characters and 5 words: three mentions followed by a ten-character text of
   * five words (such as " a b c d e") pass as written, since removing two
   * mentions leaves 31 characters and six words, but not as intended, since
   * removing all three leaves 10 characters.
   */
  lemma CheckAcceptableDiverges(id: string, w: string)
    requires |id| == 18 && IsDigits(id)
    requires |w| == 10 && WordCountAfter(w, false) == 5 && forall i :: 0 <= i < |w| ==> w[i] != '<'
    ensures var u := Utterance(true, false, true, false, 30, 5);
      var m := MentionOf(id);
      var t := m + (m + (m + w));
      CheckAcceptable(u, false, t).ok && !CheckAcceptableIntended(u, false, t).ok
  {
    ThreeMentionsAsWritten(id, w);
    ThreeMentionsStripped(id, w);
    MentionWords(id, w);
  }

  // --------------------------------------------------------------- the point cap

  /** What `process_message` does with a message. */
  datatype Award = NoAward | Awarded(newPoints: real, increment: real) | DivisionByZero

  function Min(a: real, b: real): real { if a <= b then a else b }

  /**
   * The guards and the arithmetic of `process_message`: `maxPpd` is the
   * channel's `max_ppd` when it is configured, `current` and `serverPoints`
   * the day's points in the channel and on the server.
   */
  function ProcessMessage(locked: bool, maxPpd: Option<int>, acceptable: bool, current: real,
                          serverPoints: real, serverCap: int, messageCap: int): (r: Award)
    ensures r != NoAward <==> !locked && maxPpd.Some? && acceptable && current < maxPpd.value as real
                              && serverPoints < serverCap as real
    ensures r.DivisionByZero? <==> r != NoAward && messageCap == 0
    ensures r.Awarded? ==> r.increment == maxPpd.value as real / messageCap as real
                           && r.newPoints == Min(current + r.increment, maxPpd.value as real)
  {
    if locked || maxPpd.None? || !acceptable then NoAward
    else if current >= maxPpd.value as real then NoAward
    else if serverPoints >= serverCap as real then NoAward
    else if messageCap == 0 then DivisionByZero
    else
      var inc := maxPpd.value as real / messageCap as real;
      Awarded(Min(current + inc, maxPpd.value as real), inc)
  }

  /**
   * An award never takes the channel total past `max_ppd`, and with positive
   * caps it always raises the total.
   */
  lemma AwardCapped(locked: bool, maxPpd: Option<int>, acceptable: bool, current: real,
                    serverPoints: real, serverCap: int, messageCap: int)
    requires ProcessMessage(locked, maxPpd, acceptable, current, serverPoints, serverCap, messageCap).Awarded?
    ensures var r := ProcessMessage(locked, maxPpd, acceptable, current, serverPoints, serverCap, messageCap);
      r.newPoints <= maxPpd.value as real
      && (maxPpd.value > 0 && messageCap > 0 ==> current < r.newPoints)
  {
    if maxPpd.value > 0 && messageCap > 0 {
      assert maxPpd.value as real / messageCap as real > 0.0;
    }
  }

  /** A channel already at its cap earns nothing more that day. */
  lemma CapIsFinal(maxPpd: int, current: real, serverPoints: real, serverCap: int, messageCap: int)
    requires current >= maxPpd as real
    ensures ProcessMessage(false, Some(maxPpd), true, current, serverPoints, serverCap, messageCap) == NoAward
  {
  }
}
