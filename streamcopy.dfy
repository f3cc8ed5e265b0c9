/**
 * The streamcopy cog's settings (the tracked streamers and each server's
 * streamer role) and the decision that keeps a member's streamer role in
 * step with whether the member is streaming.
 */
module StreamCopy {
  import opened Wrappers

  /** `{'priority': p}`. */
  datatype UserEntry = UserEntry(priority: int)

  /** A server's dict; the only key the cog writes is `role`. */
  type ServerEntry = map<string, string>

  const RoleKey: string := "role"

  /** `addUser`: the entry is replaced whatever was there. */
  function AddUser(users: map<string, UserEntry>, id: string, priority: int): (r: map<string, UserEntry>)
    ensures r.Keys == users.Keys + {id}
    ensures r[id] == UserEntry(priority)
    ensures forall u :: u in users && u != id ==> r[u] == users[u]
  {
    users[id := UserEntry(priority)]
  }

  /** `rmUser`: removes a present user, and does nothing for an absent one. */
  function RmUser(users: map<string, UserEntry>, id: string): (r: map<string, UserEntry>)
    ensures r == users - {id}
    ensures id !in users ==> r == users
  {
    if id in users then users - {id} else users
  }

  /** Adding and then removing a user leaves the other users as they were. */
  lemma RmAfterAdd(users: map<string, UserEntry>, id: string, priority: int)
    ensures RmUser(AddUser(users, id, priority), id) == RmUser(users, id)
  {
    assert AddUser(users, id, priority) - {id} == users - {id};
  }

  /** `servers(id)`: the server's entry is created empty on first access. */
  function WithServer(servers: map<string, ServerEntry>, sid: string): (r: map<string, ServerEntry>)
    ensures r.Keys == servers.Keys + {sid}
    ensures forall s :: s in servers ==> r[s] == servers[s]
    ensures sid !in servers ==> r[sid] == map[]
  {
    if sid in servers then servers else servers[sid := map[]]
  }

  /** A second access returns what the first one created. */
  lemma WithServerStable(servers: map<string, ServerEntry>, sid: string)
    ensures WithServer(WithServer(servers, sid), sid) == WithServer(servers, sid)
  {
  }

  /** `getStreamerRole`: `None` until a role is set. */
  function StreamerRole(servers: map<string, ServerEntry>, sid: string): Option<string>
  {
    if sid in servers && RoleKey in servers[sid] then Some(servers[sid][RoleKey]) else None
  }

  /** `setStreamerRole`. */
  function SetStreamerRole(servers: map<string, ServerEntry>, sid: string, role: string): (r: map<string, ServerEntry>)
    ensures r.Keys == servers.Keys + {sid}
    ensures forall s :: s in servers && s != sid ==> r[s] == servers[s]
  {
    var s := WithServer(servers, sid);
    s[sid := s[sid][RoleKey := role]]
  }

  /** `clearStreamerRole`: drops only the `role` key, and nothing when it is absent. */
  function ClearStreamerRole(servers: map<string, ServerEntry>, sid: string): (r: map<string, ServerEntry>)
    ensures r.Keys == servers.Keys + {sid}
    ensures r[sid] == WithServer(servers, sid)[sid] - {RoleKey}
    ensures forall s :: s in servers && s != sid ==> r[s] == servers[s]
    ensures StreamerRole(servers, sid).None? ==> r == WithServer(servers, sid)
  {
    var s := WithServer(servers, sid);
    if RoleKey in s[sid] then s[sid := s[sid] - {RoleKey}] else s
  }

  /** After a set the role reads back; other servers' roles are untouched. */
  lemma StreamerRoleAfterSet(servers: map<string, ServerEntry>, sid: string, role: string, other: string)
    ensures StreamerRole(SetStreamerRole(servers, sid, role), sid) == Some(role)
    ensures other != sid ==> StreamerRole(SetStreamerRole(servers, sid, role), other) == StreamerRole(servers, other)
  {
  }

  /** After a clear there is no role; other servers' roles are untouched. */
  lemma StreamerRoleAfterClear(servers: map<string, ServerEntry>, sid: string, other: string)
    ensures StreamerRole(ClearStreamerRole(servers, sid), sid) == None
    ensures other != sid ==> StreamerRole(ClearStreamerRole(servers, sid), other) == StreamerRole(servers, other)
  {
  }

  class StreamCopySettings {
    var users: map<string, UserEntry>
    var servers: map<string, ServerEntry>

    /** `make_default_settings`. */
    constructor ()
      ensures users == map[] && servers == map[]
    {
      users, servers := map[], map[];
    }

    method AddUserEntry(id: string, priority: int)
      modifies this`users
      ensures users == AddUser(old(users), id, priority)
    {
      users := users[id := UserEntry(priority)];
    }

    method RmUserEntry(id: string)
      modifies this`users
      ensures users == RmUser(old(users), id)
    {
      if id in users {
        users := users - {id};
      }
    }

    /** `servers(id)`. */
    method Server(sid: string) returns (r: ServerEntry)
      modifies this`servers
      ensures servers == WithServer(old(servers), sid)
      ensures r == servers[sid]
    {
      if sid !in servers {
        servers := servers[sid := map[]];
      }
      r := servers[sid];
    }

    method SetRole(sid: string, role: string)
      modifies this`servers
      ensures servers == SetStreamerRole(old(servers), sid, role)
    {
      var server := Server(sid);
      servers := servers[sid := server[RoleKey := role]];
    }

    /** `getStreamerRole`; the lookup creates the server's entry. */
    method GetRole(sid: string) returns (r: Option<string>)
      modifies this`servers
      ensures servers == WithServer(old(servers), sid)
      ensures r == StreamerRole(old(servers), sid)
    {
      var server := Server(sid);
      r := if RoleKey in server then Some(server[RoleKey]) else None;
    }

    method ClearRole(sid: string)
      modifies this`servers
      ensures servers == ClearStreamerRole(old(servers), sid)
    {
      var server := Server(sid);
      if RoleKey in server {
        servers := servers[sid := server - {RoleKey}];
      }
    }
  }

  // ------------------------------------------------------- the streamer role

  /** A member's activity: its type (1 is streaming) and its URL. */
  datatype Activity = Activity(kind: int, url: string)

  /** `is_playing`: a streaming activity with a non-empty URL. */
  predicate IsPlaying(activity: Option<Activity>)
  {
    activity.Some? && activity.value.kind == 1 && activity.value.url != ""
  }

  /** What the role update does to a member. */
  datatype RoleAction = AddRole | RemoveRole | KeepRoles

  /** The branch taken once the role is known. */
  function ActionFor(playing: bool, hasRole: bool): (a: RoleAction)
  {
    if playing && !hasRole then AddRole
    else if !playing && hasRole then RemoveRole
    else KeepRoles
  }

  /**
   * The role is added exactly when the member streams without it, removed
   * exactly when the member holds it without streaming, and otherwise left;
   * after a successful update the member holds the role iff it streams.
   */
  lemma ActionForSpec(playing: bool, hasRole: bool)
    ensures ActionFor(playing, hasRole) == AddRole <==> playing && !hasRole
    ensures ActionFor(playing, hasRole) == RemoveRole <==> !playing && hasRole
    ensures ActionFor(playing, hasRole) == KeepRoles <==> playing == hasRole
  {
  }

  function Apply(roles: set<string>, role: string, a: RoleAction): set<string>
  {
    match a
    case AddRole => roles + {role}
    case RemoveRole => roles - {role}
    case KeepRoles => roles
  }

  /**
   * `ensure_user_streaming_role` as written. `roleLookup` is what
   * `get_role_from_id` returns or raises, `callRaises` whether the
   * `add_roles`/`remove_roles` call raises. Any exception in the `try` reaches
   * `except ex:`, where evaluating the undefined name `ex` raises `NameError`.
   */
  function EnsureStreamingRoleAsWritten(roles: set<string>, playing: bool, roleLookup: Result<string>,
                                        callRaises: bool): (r: (set<string>, Outcome))
  {
    if roleLookup.Err? then (roles, Fail("NameError"))
    else
      var a := ActionFor(playing, roleLookup.value in roles);
      if a != KeepRoles && callRaises then (roles, Fail("NameError"))
      else (Apply(roles, roleLookup.value, a), Pass)
  }

  /** As written, a role id that does not resolve makes the update raise `NameError`. */
  lemma UnknownRoleRaises(roles: set<string>, playing: bool, callRaises: bool)
    ensures EnsureStreamingRoleAsWritten(roles, playing, Err("role not found"), callRaises) == (roles, Fail("NameError"))
  {
  }

  /** The update as intended: a failure is swallowed and leaves the member's roles as they were. */
  function EnsureStreamingRole(roles: set<string>, playing: bool, roleLookup: Result<string>,
                               callRaises: bool): (r: set<string>)
    ensures roleLookup.Err? ==> r == roles
    ensures roleLookup.Ok? && !callRaises ==> (roleLookup.value in r <==> playing)
    ensures roleLookup.Ok? ==> r - {roleLookup.value} == roles - {roleLookup.value}
  {
    if roleLookup.Err? then roles
    else
      var a := ActionFor(playing, roleLookup.value in roles);
      if a != KeepRoles && callRaises then roles else Apply(roles, roleLookup.value, a)
  }

  /** Wherever the code as written does not raise, the intended update agrees with it. */
  lemma EnsureStreamingRoleAgrees(roles: set<string>, playing: bool, roleLookup: Result<string>, callRaises: bool)
    ensures EnsureStreamingRoleAsWritten(roles, playing, roleLookup, callRaises).1.Pass? ==>
              EnsureStreamingRole(roles, playing, roleLookup, callRaises) == EnsureStreamingRoleAsWritten(roles, playing, roleLookup, callRaises).0
    ensures EnsureStreamingRoleAsWritten(roles, playing, roleLookup, callRaises).1.Fail? ==>
              EnsureStreamingRole(roles, playing, roleLookup, callRaises) == roles
  {
  }

  /** A guild member as the role update sees it. */
  class Member {
    var roles: set<string>
    var activity: Option<Activity>

    constructor (roles0: set<string>, activity0: Option<Activity>)
      ensures roles == roles0 && activity == activity0
    {
      roles, activity := roles0, activity0;
    }

    /** `ensure_user_streaming_role` applied to this member, with the exception swallowed. */
    method EnsureUserStreamingRole(roleLookup: Result<string>, callRaises: bool)
      modifies this`roles
      ensures roles == EnsureStreamingRole(old(roles), IsPlaying(activity), roleLookup, callRaises)
    {
      var playing := activity.Some? && activity.value.kind == 1 && activity.value.url != "";
      if roleLookup.Err? {
        return;
      }
      var role := roleLookup.value;
      var hasRole := role in roles;
      if playing && !hasRole {
        if !callRaises {
          roles := roles + {role};
        }
      } else if !playing && hasRole {
        if !callRaises {
          roles := roles - {role};
        }
      }
    }
  }
}
