/**
 * The settings store of the trutils cog: per-server channel tables
 * (image copy targets and blacklisted image types), the feedback channels
 * and the tracked users; and the counters of the "apply to every member"
 * loop.
 */
module TrUtils {
  import opened Wrappers
  import opened Text

  /** The two per-server channel tables, each keyed by channel id. */
  datatype TableName = ImageCopy | ImageTypeBlacklist

  /** The key a table lives under in the server's dict. */
  function KeyOf(t: TableName): string
  {
    match t
    case ImageCopy => "imgcopy"
    case ImageTypeBlacklist => "imgtypeblacklist"
  }

  /** The two tables never share a key, so writing one never touches the other. */
  lemma KeyOfInjective(a: TableName, b: TableName)
    ensures KeyOf(a) == KeyOf(b) <==> a == b
  {
    assert KeyOf(ImageCopy)[3] != KeyOf(ImageTypeBlacklist)[3];
  }

  /** Channel id to target channel id, or to image type. */
  type Table = map<string, string>
  /** A server's dict: table key to table. */
  type Server = map<string, Table>
  type Servers = map<string, Server>

  /** `if k not in m: m[k] = {}`: the key is created empty when missing and kept when present. */
  function GetOrCreate<V>(m: map<string, V>, k: string, empty: V): (r: map<string, V>)
    ensures r.Keys == m.Keys + {k}
    ensures forall j :: j in m ==> r[j] == m[j]
    ensures k !in m ==> r[k] == empty
  {
    if k in m then m else m[k := empty]
  }

  /** A second access finds what the first one created. */
  lemma GetOrCreateStable<V>(m: map<string, V>, k: string, e1: V, e2: V)
    ensures GetOrCreate(GetOrCreate(m, k, e1), k, e2) == GetOrCreate(m, k, e1)
  {
  }

  /** `getServer(sid)` followed by the table's own get-or-create. */
  function WithTable(servers: Servers, sid: string, t: TableName): (r: Servers)
    ensures r.Keys == servers.Keys + {sid}
    ensures forall s :: s in servers && s != sid ==> r[s] == servers[s]
    ensures r[sid].Keys == (if sid in servers then servers[sid].Keys else {}) + {KeyOf(t)}
    ensures forall k :: sid in servers && k in servers[sid] ==> r[sid][k] == servers[sid][k]
    ensures r[sid][KeyOf(t)] == TableOf(servers, sid, t)
  {
    var s := GetOrCreate(servers, sid, map[]);
    s[sid := GetOrCreate(s[sid], KeyOf(t), map[])]
  }

  /** The table as it stands, empty when it was never created. */
  function TableOf(servers: Servers, sid: string, t: TableName): Table
  {
    if sid in servers && KeyOf(t) in servers[sid] then servers[sid][KeyOf(t)] else map[]
  }

  /** `imagecopy[src] = dst` (or the blacklist's counterpart). */
  function Put(servers: Servers, sid: string, t: TableName, ch: string, v: string): (r: Servers)
    ensures TableOf(r, sid, t) == TableOf(servers, sid, t)[ch := v]
  {
    var s := WithTable(servers, sid, t);
    s[sid := s[sid][KeyOf(t) := s[sid][KeyOf(t)][ch := v]]]
  }

  /** `table.get(ch)`. */
  function Lookup(servers: Servers, sid: string, t: TableName, ch: string): Option<string>
  {
    var tab := TableOf(servers, sid, t);
    if ch in tab then Some(tab[ch]) else None
  }

  /** `if ch in table: table.pop(ch)`. */
  function Clear(servers: Servers, sid: string, t: TableName, ch: string): (r: Servers)
    ensures TableOf(r, sid, t) == TableOf(servers, sid, t) - {ch}
  {
    var s := WithTable(servers, sid, t);
    if ch in s[sid][KeyOf(t)] then s[sid := s[sid][KeyOf(t) := s[sid][KeyOf(t)] - {ch}]] else s
  }

  /** After a set, a get of the same channel returns the value set. */
  lemma LookupAfterPut(servers: Servers, sid: string, t: TableName, ch: string, v: string)
    ensures Lookup(Put(servers, sid, t, ch, v), sid, t, ch) == Some(v)
  {
  }

  /** A set leaves every other channel of every table of every server as it was. */
  lemma PutFrame(servers: Servers, sid: string, t: TableName, ch: string, v: string,
                 sid2: string, t2: TableName, ch2: string)
    requires (sid2, t2, ch2) != (sid, t, ch)
    ensures Lookup(Put(servers, sid, t, ch, v), sid2, t2, ch2) == Lookup(servers, sid2, t2, ch2)
  {
    KeyOfInjective(t, t2);
  }

  /** After a clear the channel has no entry. */
  lemma LookupAfterClear(servers: Servers, sid: string, t: TableName, ch: string)
    ensures Lookup(Clear(servers, sid, t, ch), sid, t, ch) == None
  {
  }

  /** A clear leaves every other entry as it was. */
  lemma ClearFrame(servers: Servers, sid: string, t: TableName, ch: string,
                   sid2: string, t2: TableName, ch2: string)
    requires (sid2, t2, ch2) != (sid, t, ch)
    ensures Lookup(Clear(servers, sid, t, ch), sid2, t2, ch2) == Lookup(servers, sid2, t2, ch2)
  {
    KeyOfInjective(t, t2);
  }

  /** Clearing a channel that has no entry only creates the (empty) containers. */
  lemma ClearAbsent(servers: Servers, sid: string, t: TableName, ch: string)
    requires Lookup(servers, sid, t, ch).None?
    ensures Clear(servers, sid, t, ch) == WithTable(servers, sid, t)
  {
  }

  /** A tracked user: when they were last seen online and when tracking began. */
  datatype TrackInfo = TrackInfo(lastSeen: string, trackedOn: string)

  /** `addTrackedUser`: a fresh entry, replacing any earlier one. */
  function Track(users: map<string, TrackInfo>, id: string, now: string): (r: map<string, TrackInfo>)
    ensures r.Keys == users.Keys + {id}
    ensures r[id] == TrackInfo("never", now)
    ensures forall u :: u in users && u != id ==> r[u] == users[u]
  {
    users[id := TrackInfo("never", now)]
  }

  /** `updateTrackedUser`: a `KeyError` for an untracked user. */
  function Seen(users: map<string, TrackInfo>, id: string, now: string): (r: Result<map<string, TrackInfo>>)
    ensures r.Ok? <==> id in users
    ensures r.Ok? ==> r.value.Keys == users.Keys
                      && r.value[id] == TrackInfo(now, users[id].trackedOn)
                      && forall u :: u in users && u != id ==> r.value[u] == users[u]
  {
    if id in users then Ok(users[id := users[id].(lastSeen := now)]) else Err("KeyError")
  }

  /** `rmTrackedUser`: `pop` without a default raises for an untracked user. */
  function Untrack(users: map<string, TrackInfo>, id: string): (r: Result<map<string, TrackInfo>>)
    ensures r.Ok? <==> id in users
    ensures r.Ok? ==> r.value == users - {id}
  {
    if id in users then Ok(users - {id}) else Err("KeyError")
  }

  /** Tracking and then untracking a user forgets the user and leaves the others alone. */
  lemma UntrackAfterTrack(users: map<string, TrackInfo>, id: string, now: string)
    ensures Untrack(Track(users, id, now), id) == Ok(users - {id})
  {
    assert Track(users, id, now) - {id} == users - {id};
  }

  /** An update after tracking changes only `last_seen`: the tracking date is kept. */
  lemma SeenKeepsTrackedOn(users: map<string, TrackInfo>, id: string, now: string, later: string)
    ensures Seen(Track(users, id, now), id, later) == Ok(users[id := TrackInfo(later, now)])
  {
    assert Track(users, id, now)[id := TrackInfo(later, now)] == users[id := TrackInfo(later, now)];
  }

  /** The two feedback-channel settings. */
  datatype Feedback = General | Blog

  function FeedbackKey(f: Feedback): string
  {
    match f
    case General => "feedback_channel"
    case Blog => "blog_feedback_channel"
  }

  class TrUtilsSettings {
    var servers: Servers
    var trackedUsers: map<string, TrackInfo>
    /** The bot-wide keys `feedback_channel` and `blog_feedback_channel`. */
    var feedback: map<string, string>

    /** `make_default_settings`. */
    constructor ()
      ensures servers == map[] && trackedUsers == map[] && feedback == map[]
    {
      servers, trackedUsers, feedback := map[], map[], map[];
    }

    /** `getServer`: creates the server's dict on first access. */
    method GetServer(sid: string) returns (r: Server)
      modifies this`servers
      ensures servers == GetOrCreate(old(servers), sid, map[])
      ensures r == servers[sid]
    {
      if sid !in servers {
        servers := servers[sid := map[]];
      }
      r := servers[sid];
    }

    /** `imagecopy` / `imagetypeblacklist`: creates the server and the table on first access. */
    method TableFor(sid: string, t: TableName) returns (r: Table)
      modifies this`servers
      ensures servers == WithTable(old(servers), sid, t)
      ensures r == TableOf(old(servers), sid, t)
    {
      var server := GetServer(sid);
      var key := KeyOf(t);
      if key !in server {
        server := server[key := map[]];
        servers := servers[sid := server];
      }
      r := server[key];
    }

    /** `setImageCopy` / `setImageTypeBlacklist`. */
    method SetEntry(sid: string, t: TableName, ch: string, v: string)
      modifies this`servers
      ensures servers == Put(old(servers), sid, t, ch, v)
    {
      var tab := TableFor(sid, t);
      servers := servers[sid := servers[sid][KeyOf(t) := tab[ch := v]]];
    }

    /** `getImageCopy` / `getImageTypeBlacklist`; the lookup creates the empty containers. */
    method GetEntry(sid: string, t: TableName, ch: string) returns (r: Option<string>)
      modifies this`servers
      ensures servers == WithTable(old(servers), sid, t)
      ensures r == Lookup(old(servers), sid, t, ch)
    {
      var tab := TableFor(sid, t);
      r := if ch in tab then Some(tab[ch]) else None;
    }

    /** `clearImageCopy` / `clearImageTypeBlacklist`. */
    method ClearEntry(sid: string, t: TableName, ch: string)
      modifies this`servers
      ensures servers == Clear(old(servers), sid, t, ch)
    {
      var tab := TableFor(sid, t);
      if ch in tab {
        servers := servers[sid := servers[sid][KeyOf(t) := tab - {ch}]];
      }
    }

    /** `getFeedbackChannel` / `getBlogFeedbackChannel`: `None` until one is set. */
    function FeedbackChannel(f: Feedback): (r: Option<string>)
      reads this
      ensures r.Some? <==> FeedbackKey(f) in feedback
      ensures r.Some? ==> r.value == feedback[FeedbackKey(f)]
    {
      if FeedbackKey(f) in feedback then Some(feedback[FeedbackKey(f)]) else None
    }

    /** `setFeedbackChannel` / `setBlogFeedbackChannel`: the id is stored as its decimal string. */
    method SetFeedbackChannel(f: Feedback, channelId: int)
      modifies this`feedback
      ensures feedback == old(feedback)[FeedbackKey(f) := IntToString(channelId)]
      ensures FeedbackChannel(f) == Some(IntToString(channelId))
      ensures ParseInt(FeedbackChannel(f).value) == Some(channelId)
    {
      feedback := feedback[FeedbackKey(f) := IntToString(channelId)];
      IntRoundTrip(channelId);
    }

    /** `addTrackedUser`; `now` stands for `curtimestr()`. */
    method AddTrackedUser(id: string, now: string)
      modifies this`trackedUsers
      ensures trackedUsers == Track(old(trackedUsers), id, now)
    {
      trackedUsers := trackedUsers[id := TrackInfo("never", now)];
    }

    /** `updateTrackedUser`. */
    method UpdateTrackedUser(id: string, now: string) returns (r: Outcome)
      modifies this`trackedUsers
      ensures r.Pass? <==> Seen(old(trackedUsers), id, now).Ok?
      ensures r.Pass? ==> trackedUsers == Seen(old(trackedUsers), id, now).value
      ensures r.Fail? ==> trackedUsers == old(trackedUsers)
    {
      if id !in trackedUsers {
        return Fail("KeyError");
      }
      trackedUsers := trackedUsers[id := trackedUsers[id].(lastSeen := now)];
      r := Pass;
    }

    /** `rmTrackedUser`. */
    method RmTrackedUser(id: string) returns (r: Outcome)
      modifies this`trackedUsers
      ensures r.Pass? <==> Untrack(old(trackedUsers), id).Ok?
      ensures r.Pass? ==> trackedUsers == Untrack(old(trackedUsers), id).value
      ensures r.Fail? ==> trackedUsers == old(trackedUsers)
    {
      if id !in trackedUsers {
        return Fail("KeyError");
      }
      trackedUsers := trackedUsers - {id};
      r := Pass;
    }
  }

  // ------------------------------------------------------------ the member loop

  /** The counters `(changed, ignored, errors)`. */
  datatype Counts = Counts(changed: nat, ignored: nat, errors: nat)

  function Total(c: Counts): nat { c.changed + c.ignored + c.errors }

  /**
   * The counters after the loop has visited `ms`: an ignored member counts as
   * ignored, otherwise the change either raises (an error) or succeeds.
   */
  function Tally<M>(ms: seq<M>, ignore: M -> bool, raises: M -> bool): Counts
  {
    if ms == [] then Counts(0, 0, 0)
    else
      var c := Tally(ms[..|ms| - 1], ignore, raises);
      var m := ms[|ms| - 1];
      if ignore(m) then c.(ignored := c.ignored + 1)
      else if raises(m) then c.(errors := c.errors + 1)
      else c.(changed := c.changed + 1)
  }

  /** The status lines sent so far: one after every member that brings the total to a multiple of 10. */
  function StatusLines<M>(ms: seq<M>, ignore: M -> bool, raises: M -> bool): seq<Counts>
  {
    if ms == [] then []
    else
      var c := Tally(ms, ignore, raises);
      StatusLines(ms[..|ms| - 1], ignore, raises) + if Total(c) % 10 == 0 then [c] else []
  }

  /** Every member increments exactly one counter. */
  lemma {:induction false} TallyTotal<M>(ms: seq<M>, ignore: M -> bool, raises: M -> bool)
    ensures Total(Tally(ms, ignore, raises)) == |ms|
  {
    if ms != [] {
      TallyTotal(ms[..|ms| - 1], ignore, raises);
    }
  }

  /** One status line per ten members, each showing a total that is a positive multiple of 10. */
  lemma {:induction false} StatusLinesCount<M>(ms: seq<M>, ignore: M -> bool, raises: M -> bool)
    ensures |StatusLines(ms, ignore, raises)| == |ms| / 10
    ensures forall k :: 0 <= k < |StatusLines(ms, ignore, raises)| ==>
              Total(StatusLines(ms, ignore, raises)[k]) == 10 * (k + 1)
  {
    if ms != [] {
      StatusLinesCount(ms[..|ms| - 1], ignore, raises);
      TallyTotal(ms, ignore, raises);
    }
  }

  /**
   * `_do_all_members`; `raises(m)` says whether the change call for `m`
   * raised, and the status lines are returned instead of sent.
   */
  method DoAllMembers<M>(members: seq<M>, ignore: M -> bool, raises: M -> bool)
    returns (changed: nat, ignored: nat, errors: nat, status: seq<Counts>)
    ensures Counts(changed, ignored, errors) == Tally(members, ignore, raises)
    ensures changed + ignored + errors == |members|
    ensures status == StatusLines(members, ignore, raises)
  {
    changed, ignored, errors := 0, 0, 0;
    status := [];
    var i := 0;
    while i < |members|
      invariant 0 <= i <= |members|
      invariant Counts(changed, ignored, errors) == Tally(members[..i], ignore, raises)
      invariant status == StatusLines(members[..i], ignore, raises)
    {
      assert members[..i + 1][..i] == members[..i];
      var m := members[i];
      if ignore(m) {
        ignored := ignored + 1;
      } else if raises(m) {
        errors := errors + 1;
      } else {
        changed := changed + 1;
      }
      i := i + 1;
      if (changed + ignored + errors) % 10 == 0 {
        status := status + [Counts(changed, ignored, errors)];
      }
    }
    assert members[..i] == members;
    TallyTotal(members, ignore, raises);
  }
}
