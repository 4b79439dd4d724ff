/** The server's in-memory store. Each table is a map from an auto-increment id
    to the record, and each counter is the id the next insert receives. A
    JavaScript `Map` iterates in insertion order; since ids are handed out in
    increasing order and an update keeps a key's position, that order is the
    ascending order of ids, which is how "the first entry" is read here. */
module Storage {
  import opened Text
  import opened Schema

  // ---------------------------------------------------------------------------
  // Reading a table in id order

  /** `k` is the smallest id whose record is `wanted`. */
  predicate IsFirstWhere<T>(m: map<int, T>, wanted: T -> bool, k: int) {
    k in m && wanted(m[k]) && forall j :: j in m && j < k ==> !wanted(m[j])
  }

  /** `Array.from(m.values()).find(wanted)`, returning the id found. */
  method FindFirst<T>(m: map<int, T>, next: int, wanted: T -> bool) returns (r: Option<int>)
    requires forall k :: k in m ==> 1 <= k < next
    ensures r.Some? ==> IsFirstWhere(m, wanted, r.value)
    ensures r.None? <==> forall k :: k in m ==> !wanted(m[k])
  {
    var i := 1;
    while i < next
      invariant forall j :: j in m && j < i ==> !wanted(m[j])
      decreases next - i
    {
      if i in m && wanted(m[i]) {
        return Some(i);
      }
      i := i + 1;
    }
    return None;
  }

  /** The records of `m` that are `wanted`, among the ids below `below`. */
  function Selected<T>(m: map<int, T>, wanted: T -> bool, below: int): set<T> {
    set k | k in m && k < below && wanted(m[k]) :: m[k]
  }

  function Elements<T>(s: seq<T>): set<T> {
    set x | x in s
  }

  /** `a` goes before `b` when its rank is smaller, or on equal ranks when it
      was inserted first: the order a stable sort on `rank` leaves. */
  predicate Precedes<T>(a: T, b: T, rank: T -> int, id: T -> int) {
    rank(a) < rank(b) || (rank(a) == rank(b) && id(a) < id(b))
  }

  predicate StrictlyOrdered<T>(s: seq<T>, rank: T -> int, id: T -> int) {
    forall i, j :: 0 <= i < j < |s| ==> Precedes(s[i], s[j], rank, id)
  }

  /** Places `x` after every element whose rank is not larger. */
  function InsertByRank<T>(s: seq<T>, x: T, rank: T -> int): seq<T> {
    if s == [] then [x]
    else if rank(x) < rank(s[0]) then [x] + s
    else [s[0]] + InsertByRank(s[1..], x, rank)
  }

  lemma {:induction false} InsertByRankKeepsOrder<T>(s: seq<T>, x: T, rank: T -> int, id: T -> int)
    requires StrictlyOrdered(s, rank, id)
    requires forall y :: y in s ==> id(y) < id(x)
    ensures StrictlyOrdered(InsertByRank(s, x, rank), rank, id)
    ensures multiset(InsertByRank(s, x, rank)) == multiset(s) + multiset{x}
  {
    var r := InsertByRank(s, x, rank);
    if s == [] {
    } else if rank(x) < rank(s[0]) {
      assert forall j :: 0 < j < |r| ==> r[j] == s[j - 1];
    } else {
      var t := InsertByRank(s[1..], x, rank);
      assert forall y :: y in s[1..] ==> y in s;
      InsertByRankKeepsOrder(s[1..], x, rank, id);
      assert s == [s[0]] + s[1..];
      forall z | z in t
        ensures Precedes(s[0], z, rank, id)
      {
        assert z in multiset(t);
        if z == x {
          assert s[0] in s;
        } else {
          assert z in multiset(s[1..]);
          var k :| 0 <= k < |s[1..]| && s[1..][k] == z;
          assert Precedes(s[0], s[k + 1], rank, id);
        }
      }
      forall j | 0 < j < |r|
        ensures Precedes(r[0], r[j], rank, id)
      {
        assert r[j] in t;
      }
    }
  }

  lemma SelectedStep<T>(m: map<int, T>, wanted: T -> bool, i: int)
    ensures Selected(m, wanted, i + 1)
            == Selected(m, wanted, i) + (if i in m && wanted(m[i]) then {m[i]} else {})
  {
  }

  /** `Array.from(m.values()).filter(wanted).sort(byRank)`: the wanted records,
      each once, in ascending rank and, on equal ranks, in id order. */
  method SortedSelection<T>(m: map<int, T>, next: int, wanted: T -> bool,
                            rank: T -> int, id: T -> int) returns (r: seq<T>)
    requires forall k :: k in m ==> 1 <= k < next && id(m[k]) == k
    ensures StrictlyOrdered(r, rank, id)
    ensures Elements(r) == Selected(m, wanted, next)
  {
    r := [];
    var i := 1;
    while i < next
      invariant 1 <= i <= next || next < 1
      invariant StrictlyOrdered(r, rank, id)
      invariant Elements(r) == Selected(m, wanted, i)
      invariant forall y :: y in r ==> id(y) < i
      decreases next - i
    {
      SelectedStep(m, wanted, i);
      if i in m && wanted(m[i]) {
        assert id(m[i]) == i;
        InsertByRankKeepsOrder(r, m[i], rank, id);
        var r' := InsertByRank(r, m[i], rank);
        assert Elements(r') == Elements(r) + {m[i]} by {
          forall y ensures y in Elements(r') <==> y in Elements(r) + {m[i]} {
            assert y in Elements(r') <==> y in multiset(r');
            assert y in Elements(r) <==> y in multiset(r);
          }
        }
        forall y | y in r' ensures id(y) < i + 1 {
          assert y in multiset(r');
        }
        r := r';
      }
      i := i + 1;
    }
    if next < 1 {
      assert Selected(m, wanted, next) == {};
    }
  }

  lemma HeadIsElement<T>(s: seq<T>)
    ensures s != [] ==> s[0] in Elements(s)
  {
  }

  /** A strict order leaves no choice: two ordered lists of the same records
      are the same list. So the sorted readers' results are fully determined. */
  lemma {:induction false} OrderedListIsUnique<T>(a: seq<T>, b: seq<T>, rank: T -> int, id: T -> int)
    requires StrictlyOrdered(a, rank, id) && StrictlyOrdered(b, rank, id)
    requires Elements(a) == Elements(b)
    ensures a == b
  {
    if a == [] {
      HeadIsElement(b);
    } else {
      assert a[0] in Elements(a);
      assert b != [];
      assert b[0] in Elements(b);
      if a[0] != b[0] {
        assert false;
      }
      forall x | x in a[1..] ensures x != a[0] {
        var i :| 0 <= i < |a[1..]| && a[1..][i] == x;
        assert Precedes(a[0], a[i + 1], rank, id);
      }
      forall x | x in b[1..] ensures x != b[0] {
        var i :| 0 <= i < |b[1..]| && b[1..][i] == x;
        assert Precedes(b[0], b[i + 1], rank, id);
      }
      assert a == [a[0]] + a[1..] && b == [b[0]] + b[1..];
      assert Elements(a[1..]) == Elements(b[1..]) by {
        forall x ensures x in a[1..] <==> x in b[1..] {
          assert x in Elements(a) <==> x in a;
          assert x in Elements(b) <==> x in b;
        }
      }
      OrderedListIsUnique(a[1..], b[1..], rank, id);
    }
  }

  // ---------------------------------------------------------------------------
  // The `limit` of a history read

  /** The end index `slice(0, n)` uses on a list of length `len`. */
  function SliceEnd(len: nat, n: int): (e: nat)
    ensures e <= len
    ensures n >= 0 ==> e == if n < len then n else len
    ensures n < 0 ==> e == if len + n < 0 then 0 else len + n
  {
    if n < 0 then (if len + n < 0 then 0 else len + n) else if n < len then n else len
  }

  /** `limit ? commands.slice(0, limit) : commands`. `None` is an absent or
      unparsable limit; zero is falsy like an absent one. */
  function ApplyLimit<T>(s: seq<T>, limit: Option<int>): (r: seq<T>)
    ensures |r| <= |s| && r == s[..|r|]
    ensures limit.None? || limit.value == 0 ==> r == s
    ensures limit.Some? && limit.value > 0 ==> |r| == if limit.value < |s| then limit.value else |s|
    ensures limit.Some? && limit.value < 0 ==> |r| == if |s| + limit.value < 0 then 0 else |s| + limit.value
  {
    if limit.None? || limit.value == 0 then s else s[..SliceEnd(|s|, limit.value)]
  }

  // ---------------------------------------------------------------------------
  // The orders the readers sort by

  /** Newest first: a larger timestamp ranks lower. */
  function NewestFirst(c: CommandRecord): int { -c.timestamp }

  function CommandId(c: CommandRecord): int { c.id }

  function BySortOrder(q: QuickCommand): int { q.sortOrder }

  function QuickCommandId(q: QuickCommand): int { q.id }

  /** The history records of user `uid`. */
  function HistoryOf(m: map<int, CommandRecord>, uid: int): set<CommandRecord> {
    set k | k in m && m[k].userId == Some(uid) :: m[k]
  }

  /** The quick commands of user `uid`. */
  function QuickCommandsOf(m: map<int, QuickCommand>, uid: int): set<QuickCommand> {
    set k | k in m && m[k].userId == Some(uid) :: m[k]
  }

  /** The ordering of a history list is newest first, insertion order on ties. */
  lemma OrderedHistoryIsNewestFirst(s: seq<CommandRecord>)
    requires StrictlyOrdered(s, NewestFirst, CommandId)
    ensures forall i, j :: 0 <= i < j < |s| ==>
              s[i].timestamp > s[j].timestamp || (s[i].timestamp == s[j].timestamp && s[i].id < s[j].id)
  {
    forall i, j | 0 <= i < j < |s|
      ensures s[i].timestamp > s[j].timestamp || (s[i].timestamp == s[j].timestamp && s[i].id < s[j].id)
    {
      assert Precedes(s[i], s[j], NewestFirst, CommandId);
    }
  }

  // ---------------------------------------------------------------------------
  // The seeded records

  const Admin := InsertUser("admin", "admin", Some("John Doe"), Some("Administrator"))

  const SeedQuickCommands: seq<InsertQuickCommand> := [
    InsertQuickCommand(Some(1), "Check inventory " + "status", Some("inventory"), 1),
    InsertQuickCommand(Some(1), "Create new invoice", Some("receipt"), 2),
    InsertQuickCommand(Some(1), "Show open orders", Some("shopping_cart"), 3),
    InsertQuickCommand(Some(1), "Sales summary " + "for this month", Some("insights"), 4)
  ]

  /** The stored form of the `k`-th seeded quick command: id and sort order `k`. */
  function SeedRecord(k: int): (q: QuickCommand)
    requires 1 <= k <= 4
    ensures q.id == k && q.sortOrder == k && q.userId == Some(1)
  {
    var c := SeedQuickCommands[k - 1];
    QuickCommand(k, c.userId, c.commandText, c.icon, c.sortOrder)
  }

  const SeedSettings := InsertSettings(1, Some("Hey ERP"), Some(7), Some(true), Some(false), Some("en-US"))

  class MemStorage {
    var users: map<int, User>
    var commandHistory: map<int, CommandRecord>
    var voiceSettings: map<int, VoiceSettings>
    var quickCommands: map<int, QuickCommand>
    var erpConnections: map<int, ErpConnection>
    var userId: int
    var commandId: int
    var settingsId: int
    var quickCommandId: int
    var connectionId: int

    /** Every key is below its table's counter and is the id of its record. */
    predicate Valid()
      reads this
    {
      1 <= userId && 1 <= commandId && 1 <= settingsId && 1 <= quickCommandId && 1 <= connectionId
      && (forall k :: k in users ==> 1 <= k < userId && users[k].id == k)
      && (forall k :: k in commandHistory ==> 1 <= k < commandId && commandHistory[k].id == k)
      && (forall k :: k in voiceSettings ==> 1 <= k < settingsId && voiceSettings[k].id == k)
      && (forall k :: k in quickCommands ==> 1 <= k < quickCommandId && quickCommands[k].id == k)
      && (forall k :: k in erpConnections ==> 1 <= k < connectionId && erpConnections[k].id == k)
    }

    /** The seeded store: the demo user, four quick commands ordered 1 to 4 and
        the demo user's voice settings, each made by the ordinary inserts. */
    constructor()
      ensures Valid()
      ensures users == map[1 := User(1, "admin", "admin", Some("John Doe"), Some("Administrator"))]
      ensures forall k :: k in quickCommands <==> 1 <= k <= 4
      ensures forall k :: k in quickCommands ==> 1 <= k <= 4 && quickCommands[k] == SeedRecord(k)
      ensures voiceSettings == map[1 := VoiceSettings(1, 1, Some("Hey ERP"), Some(7), Some(true),
                                                      Some(false), Some("en-US"))]
      ensures commandHistory == map[] && erpConnections == map[]
      ensures userId == 2 && commandId == 1 && settingsId == 2 && quickCommandId == 5 && connectionId == 1
    {
      users := map[];
      commandHistory := map[];
      voiceSettings := map[];
      quickCommands := map[];
      erpConnections := map[];
      userId := 1;
      commandId := 1;
      settingsId := 1;
      quickCommandId := 1;
      connectionId := 1;
      new;
      var _ := CreateUser(Admin);
      var i := 0;
      while i < 4
        invariant 0 <= i <= 4 && Valid()
        invariant quickCommandId == i + 1
        invariant forall k :: k in quickCommands <==> 1 <= k <= i
        invariant forall k :: k in quickCommands ==> 1 <= k <= i && quickCommands[k] == SeedRecord(k)
        invariant users == map[1 := User(1, "admin", "admin", Some("John Doe"), Some("Administrator"))]
        invariant voiceSettings == map[] && commandHistory == map[] && erpConnections == map[]
        invariant userId == 2 && commandId == 1 && settingsId == 1 && connectionId == 1
      {
        var _ := CreateQuickCommand(SeedQuickCommands[i]);
        i := i + 1;
      }
      var _ := CreateVoiceSettings(SeedSettings);
    }

    // -------------------------------------------------------------------------
    // Users

    /** `getUser`. */
    method GetUser(id: int) returns (r: Option<User>)
      ensures r.Some? <==> id in users
      ensures r.Some? ==> r.value == users[id]
    {
      r := if id in users then Some(users[id]) else None;
    }

    /** `getUserByUsername`: the first user with that name. */
    method GetUserByUsername(username: string) returns (r: Option<User>)
      requires Valid()
      ensures r.Some? ==> IsFirstWhere(users, (u: User) => u.username == username, r.value.id)
                          && r.value == users[r.value.id]
      ensures r.None? <==> forall k :: k in users ==> users[k].username != username
    {
      var k := FindFirst(users, userId, (u: User) => u.username == username);
      r := if k.Some? then Some(users[k.value]) else None;
    }

    /** `createUser`: the next id, the record as given, nothing else touched. */
    method CreateUser(u: InsertUser) returns (r: User)
      requires Valid()
      modifies this
      ensures Valid()
      ensures r == User(old(userId), u.username, u.password, u.displayName, u.role)
      ensures old(userId) !in old(users)
      ensures users == old(users)[r.id := r] && userId == old(userId) + 1
      ensures commandHistory == old(commandHistory) && voiceSettings == old(voiceSettings)
      ensures quickCommands == old(quickCommands) && erpConnections == old(erpConnections)
      ensures commandId == old(commandId) && settingsId == old(settingsId)
      ensures quickCommandId == old(quickCommandId) && connectionId == old(connectionId)
    {
      var id := userId;
      userId := userId + 1;
      r := User(id, u.username, u.password, u.displayName, u.role);
      users := users[id := r];
    }

    // -------------------------------------------------------------------------
    // Command history

    /** `getCommandHistory`: the user's records, newest first (insertion order
        among equal timestamps), cut by the limit. */
    method GetCommandHistory(uid: int, limit: Option<int>) returns (r: seq<CommandRecord>)
      requires Valid()
      ensures exists all :: StrictlyOrdered(all, NewestFirst, CommandId)
                            && Elements(all) == HistoryOf(commandHistory, uid)
                            && r == ApplyLimit(all, limit)
    {
      var all := SortedSelection(commandHistory, commandId,
                                 (c: CommandRecord) => c.userId == Some(uid), NewestFirst, CommandId);
      assert Selected(commandHistory, (c: CommandRecord) => c.userId == Some(uid), commandId)
             == HistoryOf(commandHistory, uid);
      r := ApplyLimit(all, limit);
    }

    /** `createCommandHistory`: the next id and the clock's time. */
    method CreateCommandHistory(c: InsertCommand, now: int) returns (r: CommandRecord)
      requires Valid()
      modifies this
      ensures Valid()
      ensures r == CommandRecord(old(commandId), c.userId, c.command, c.response, c.status, now)
      ensures old(commandId) !in old(commandHistory)
      ensures forall k :: k in old(commandHistory) ==> k < r.id
      ensures commandHistory == old(commandHistory)[r.id := r] && commandId == old(commandId) + 1
      ensures users == old(users) && voiceSettings == old(voiceSettings)
      ensures quickCommands == old(quickCommands) && erpConnections == old(erpConnections)
      ensures userId == old(userId) && settingsId == old(settingsId)
      ensures quickCommandId == old(quickCommandId) && connectionId == old(connectionId)
    {
      var id := commandId;
      commandId := commandId + 1;
      r := CommandRecord(id, c.userId, c.command, c.response, c.status, now);
      commandHistory := commandHistory[id := r];
    }

    // -------------------------------------------------------------------------
    // Voice settings

    /** `getVoiceSettings`: the first settings record of the user. */
    method GetVoiceSettings(uid: int) returns (r: Option<VoiceSettings>)
      requires Valid()
      ensures r.Some? ==> IsFirstWhere(voiceSettings, (s: VoiceSettings) => s.userId == uid, r.value.id)
                          && r.value == voiceSettings[r.value.id]
      ensures r.None? <==> forall k :: k in voiceSettings ==> voiceSettings[k].userId != uid
    {
      var k := FindFirst(voiceSettings, settingsId, (s: VoiceSettings) => s.userId == uid);
      r := if k.Some? then Some(voiceSettings[k.value]) else None;
    }

    /** `createVoiceSettings`. */
    method CreateVoiceSettings(s: InsertSettings) returns (r: VoiceSettings)
      requires Valid()
      modifies this
      ensures Valid()
      ensures r == VoiceSettings(old(settingsId), s.userId, s.wakeWord, s.sensitivity,
                                 s.voiceResponse, s.continuousListening, s.voiceLanguage)
      ensures old(settingsId) !in old(voiceSettings)
      ensures voiceSettings == old(voiceSettings)[r.id := r] && settingsId == old(settingsId) + 1
      ensures users == old(users) && commandHistory == old(commandHistory)
      ensures quickCommands == old(quickCommands) && erpConnections == old(erpConnections)
      ensures userId == old(userId) && commandId == old(commandId)
      ensures quickCommandId == old(quickCommandId) && connectionId == old(connectionId)
    {
      var id := settingsId;
      settingsId := settingsId + 1;
      r := VoiceSettings(id, s.userId, s.wakeWord, s.sensitivity, s.voiceResponse,
                         s.continuousListening, s.voiceLanguage);
      voiceSettings := voiceSettings[id := r];
    }

    /** `updateVoiceSettings`: nothing for a user without settings; otherwise
        the patch merged into the user's first record, under that record's id. */
    method UpdateVoiceSettings(uid: int, p: SettingsPatch) returns (r: Option<VoiceSettings>)
      requires Valid()
      modifies this
      ensures Valid()
      ensures r.None? <==> forall k :: k in old(voiceSettings) ==> old(voiceSettings)[k].userId != uid
      ensures r.None? ==> voiceSettings == old(voiceSettings)
      ensures r.Some? ==>
                IsFirstWhere(old(voiceSettings), (s: VoiceSettings) => s.userId == uid, r.value.id)
                && r.value == MergeSettings(old(voiceSettings)[r.value.id], p)
                && voiceSettings == old(voiceSettings)[r.value.id := r.value]
      ensures users == old(users) && commandHistory == old(commandHistory)
      ensures quickCommands == old(quickCommands) && erpConnections == old(erpConnections)
      ensures userId == old(userId) && commandId == old(commandId) && settingsId == old(settingsId)
      ensures quickCommandId == old(quickCommandId) && connectionId == old(connectionId)
    {
      var existing := GetVoiceSettings(uid);
      if existing.None? {
        return None;
      }
      var updated := MergeSettings(existing.value, p);
      voiceSettings := voiceSettings[existing.value.id := updated];
      r := Some(updated);
    }

    // -------------------------------------------------------------------------
    // Quick commands

    /** `getQuickCommands`: the user's quick commands by ascending sort order
        (insertion order among equal ones). */
    method GetQuickCommands(uid: int) returns (r: seq<QuickCommand>)
      requires Valid()
      ensures StrictlyOrdered(r, BySortOrder, QuickCommandId)
      ensures Elements(r) == QuickCommandsOf(quickCommands, uid)
    {
      r := SortedSelection(quickCommands, quickCommandId,
                           (q: QuickCommand) => q.userId == Some(uid), BySortOrder, QuickCommandId);
      assert Selected(quickCommands, (q: QuickCommand) => q.userId == Some(uid), quickCommandId)
             == QuickCommandsOf(quickCommands, uid);
    }

    /** `createQuickCommand`. */
    method CreateQuickCommand(q: InsertQuickCommand) returns (r: QuickCommand)
      requires Valid()
      modifies this
      ensures Valid()
      ensures r == QuickCommand(old(quickCommandId), q.userId, q.commandText, q.icon, q.sortOrder)
      ensures old(quickCommandId) !in old(quickCommands)
      ensures quickCommands == old(quickCommands)[r.id := r]
      ensures quickCommandId == old(quickCommandId) + 1
      ensures users == old(users) && commandHistory == old(commandHistory)
      ensures voiceSettings == old(voiceSettings) && erpConnections == old(erpConnections)
      ensures userId == old(userId) && commandId == old(commandId)
      ensures settingsId == old(settingsId) && connectionId == old(connectionId)
    {
      var id := quickCommandId;
      quickCommandId := quickCommandId + 1;
      r := QuickCommand(id, q.userId, q.commandText, q.icon, q.sortOrder);
      quickCommands := quickCommands[id := r];
    }

    /** `updateQuickCommand`: nothing for an unknown id; otherwise the patch
        merged into that entry alone. */
    method UpdateQuickCommand(id: int, p: QuickCommandPatch) returns (r: Option<QuickCommand>)
      requires Valid()
      modifies this
      ensures Valid()
      ensures r.None? <==> id !in old(quickCommands)
      ensures r.None? ==> quickCommands == old(quickCommands)
      ensures r.Some? ==> r.value == MergeQuickCommand(old(quickCommands)[id], p)
                          && quickCommands == old(quickCommands)[id := r.value]
      ensures users == old(users) && commandHistory == old(commandHistory)
      ensures voiceSettings == old(voiceSettings) && erpConnections == old(erpConnections)
      ensures userId == old(userId) && commandId == old(commandId) && settingsId == old(settingsId)
      ensures quickCommandId == old(quickCommandId) && connectionId == old(connectionId)
    {
      if id !in quickCommands {
        return None;
      }
      var updated := MergeQuickCommand(quickCommands[id], p);
      quickCommands := quickCommands[id := updated];
      r := Some(updated);
    }

    /** `deleteQuickCommand`: reports whether the id was present and removes
        only that entry. */
    method DeleteQuickCommand(id: int) returns (present: bool)
      requires Valid()
      modifies this
      ensures Valid()
      ensures present <==> id in old(quickCommands)
      ensures quickCommands == old(quickCommands) - {id}
      ensures users == old(users) && commandHistory == old(commandHistory)
      ensures voiceSettings == old(voiceSettings) && erpConnections == old(erpConnections)
      ensures userId == old(userId) && commandId == old(commandId) && settingsId == old(settingsId)
      ensures quickCommandId == old(quickCommandId) && connectionId == old(connectionId)
    {
      present := id in quickCommands;
      quickCommands := quickCommands - {id};
    }

    // -------------------------------------------------------------------------
    // ERP connections

    /** `getErpConnection`: the first connection of the user. */
    method GetErpConnection(uid: int) returns (r: Option<ErpConnection>)
      requires Valid()
      ensures r.Some? ==> IsFirstWhere(erpConnections, (c: ErpConnection) => c.userId == uid, r.value.id)
                          && r.value == erpConnections[r.value.id]
      ensures r.None? <==> forall k :: k in erpConnections ==> erpConnections[k].userId != uid
    {
      var k := FindFirst(erpConnections, connectionId, (c: ErpConnection) => c.userId == uid);
      r := if k.Some? then Some(erpConnections[k.value]) else None;
    }

    /** `createErpConnection`: the next id, connected now. */
    method CreateErpConnection(c: InsertConnection, now: int) returns (r: ErpConnection)
      requires Valid()
      modifies this
      ensures Valid()
      ensures r == ErpConnection(old(connectionId), c.userId, c.url, c.apiKey, c.apiSecret,
                                 c.isActive, now)
      ensures old(connectionId) !in old(erpConnections)
      ensures erpConnections == old(erpConnections)[r.id := r]
      ensures connectionId == old(connectionId) + 1
      ensures users == old(users) && commandHistory == old(commandHistory)
      ensures voiceSettings == old(voiceSettings) && quickCommands == old(quickCommands)
      ensures userId == old(userId) && commandId == old(commandId)
      ensures settingsId == old(settingsId) && quickCommandId == old(quickCommandId)
    {
      var id := connectionId;
      connectionId := connectionId + 1;
      r := ErpConnection(id, c.userId, c.url, c.apiKey, c.apiSecret, c.isActive, now);
      erpConnections := erpConnections[id := r];
    }

    /** `updateErpConnection`: nothing for a user without a connection;
        otherwise the patch merged into the user's first connection, stamped
        with the clock's time. */
    method UpdateErpConnection(uid: int, p: ConnectionPatch, now: int) returns (r: Option<ErpConnection>)
      requires Valid()
      modifies this
      ensures Valid()
      ensures r.None? <==> forall k :: k in old(erpConnections) ==> old(erpConnections)[k].userId != uid
      ensures r.None? ==> erpConnections == old(erpConnections)
      ensures r.Some? ==>
                IsFirstWhere(old(erpConnections), (c: ErpConnection) => c.userId == uid, r.value.id)
                && r.value == MergeConnection(old(erpConnections)[r.value.id], p, now)
                && erpConnections == old(erpConnections)[r.value.id := r.value]
      ensures users == old(users) && commandHistory == old(commandHistory)
      ensures voiceSettings == old(voiceSettings) && quickCommands == old(quickCommands)
      ensures userId == old(userId) && commandId == old(commandId) && settingsId == old(settingsId)
      ensures quickCommandId == old(quickCommandId) && connectionId == old(connectionId)
    {
      var existing := GetErpConnection(uid);
      if existing.None? {
        return None;
      }
      var updated := MergeConnection(existing.value, p, now);
      erpConnections := erpConnections[existing.value.id := updated];
      r := Some(updated);
    }
  }
}
