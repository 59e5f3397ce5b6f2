/** Clans: their table, the clan columns of users, and what online sessions cache of them. */
module Clans {
  import opened Wrappers

  const MEMBER: int := 1
  const OFFICER: int := 2
  const OWNER: int := 3

  type UserId = nat

  /** Privilege flags by bit number. */
  const PUBLIC: set<nat> := {0, 1}
  const STAFF: set<nat> := {12, 13, 14}

  datatype Clan = Clan(name: string, tag: string, owner: UserId)

  /** A user's privileges, and the clan columns, both zero outside a clan. */
  datatype User = User(priv: set<nat>, clanId: int, clanPriv: int)

  /** What an online session knows of its clan. */
  datatype Cached = Cached(clanId: Option<int>, clanPriv: Option<int>)

  datatype State = State(clans: map<int, Clan>, users: map<UserId, User>, online: map<UserId, Cached>, nextId: int)

  datatype Code =
    | Created | InvalidTag | InvalidName | AlreadyInClan | NameTaken | TagTaken
    | Disbanded | NoSuchClan
    | Left | LeftAndDisbanded | NotInClan | OwnerMustTransfer
    | Transferred | NotClanOwner | TargetNotFound | TargetAlreadyOwner
    | Raised

  datatype Result = Result(s: State, code: Code)

  const CLANLESS: Cached := Cached(None, None)

  /** What a session caches of a user row. */
  function CacheOf(u: User): Cached {
    if u.clanId == 0 then CLANLESS else Cached(Some(u.clanId), Some(u.clanPriv))
  }

  // ---------------------------------------------------------------- operations

  function Synced(s: State, id: UserId, cached: Cached): State {
    if id in s.online then s.(online := s.online[id := cached]) else s
  }

  function Updated(s: State, id: UserId, u: User): State {
    s.(users := s.users[id := u])
  }

  predicate NameUsed(clans: map<int, Clan>, name: string) {
    exists c <- clans :: clans[c].name == name
  }

  predicate TagUsed(clans: map<int, Clan>, tag: string) {
    exists c <- clans :: clans[c].tag == tag
  }

  /** The unique index on the owner column. */
  predicate OwnsClan(clans: map<int, Clan>, id: UserId) {
    exists c <- clans :: clans[c].owner == id
  }

  function Members(users: map<UserId, User>, clanId: int): set<UserId> {
    set id | id in users && users[id].clanId == clanId
  }

  /** `tag` is already in upper case. */
  function CreateClan(s: State, id: UserId, tag: string, name: string): Result {
    if !(1 <= |tag| <= 6) then Result(s, InvalidTag)
    else if !(2 <= |name| <= 16) then Result(s, InvalidName)
    else if id !in s.users then Result(s, Raised)
    else if s.users[id].clanId != 0 && s.users[id].clanId in s.clans then Result(s, AlreadyInClan)
    else if NameUsed(s.clans, name) then Result(s, NameTaken)
    else if TagUsed(s.clans, tag) then Result(s, TagTaken)
    else if OwnsClan(s.clans, id) then Result(s, Raised)
    else Result(Founded(s, id, Clan(name, tag, id)), Created)
  }

  function Founded(s: State, id: UserId, clan: Clan): State
    requires id in s.users
  {
    var c := s.nextId;
    var s := s.(clans := s.clans[c := clan], nextId := c + 1);
    Synced(Updated(s, id, s.users[id].(clanId := c, clanPriv := OWNER)), id, Cached(Some(c), Some(OWNER)))
  }

  function Expelled(u: User): User {
    u.(clanId := 0, clanPriv := 0)
  }

  function DisbandClan(s: State, c: int): Result {
    if c !in s.clans then Result(s, NoSuchClan)
    else Result(MembersExpelled(s.(clans := s.clans - {c}), Members(s.users, c)), Disbanded)
  }

  function RowsExpelled(s: State, ids: set<UserId>): State {
    s.(users := map id | id in s.users :: if id in ids then Expelled(s.users[id]) else s.users[id])
  }

  function SessionsCleared(s: State, ids: set<UserId>): State {
    s.(online := map id | id in s.online :: if id in ids then CLANLESS else s.online[id])
  }

  function MembersExpelled(s: State, ids: set<UserId>): State {
    SessionsCleared(RowsExpelled(s, ids), ids)
  }

  /** Leaving as the last member would disband the clan. */
  function LeaveClan(s: State, id: UserId): Result {
    if id !in s.users then Result(s, Raised)
    else
      var u := s.users[id];
      if u.clanId == 0 then Result(s, NotInClan)
      else if u.clanPriv == OWNER then Result(s, OwnerMustTransfer)
      else if u.clanId !in s.clans then Result(s, NotInClan)
      else
        var last := Members(s.users, u.clanId) - {id} == {};
        var s := Updated(s, id, Expelled(u));
        var s := if last then s.(clans := s.clans - {u.clanId}) else s;
        Result(Synced(s, id, CLANLESS), if last then LeftAndDisbanded else Left)
  }

  predicate CanView(viewerId: UserId, viewerPriv: set<nat>, targetId: UserId, targetPriv: set<nat>) {
    PUBLIC <= targetPriv || viewerId == targetId || viewerPriv * STAFF != {}
  }

  /** `target` is the user that the given name is found for, if any. */
  function TransferClan(s: State, id: UserId, target: Option<UserId>): Result {
    if id !in s.users then Result(s, Raised)
    else
      var u := s.users[id];
      if u.clanId == 0 || u.clanPriv != OWNER || u.clanId !in s.clans then Result(s, NotClanOwner)
      else if target.None? || target.value !in s.users || s.users[target.value].clanId != u.clanId
              || !CanView(id, u.priv, target.value, s.users[target.value].priv) then Result(s, TargetNotFound)
      else if target.value == id then Result(s, TargetAlreadyOwner)
      else if OwnsClan(s.clans - {u.clanId}, target.value) then Result(s, Raised)
      else Result(HandedOver(s, u.clanId, id, target.value), Transferred)
  }

  function HandedOver(s: State, c: int, id: UserId, target: UserId): State
    requires c in s.clans && id in s.users && target in s.users
  {
    var s := s.(clans := s.clans[c := s.clans[c].(owner := target)]);
    var s := Updated(s, target, s.users[target].(clanPriv := OWNER));
    var s := Updated(s, id, s.users[id].(clanPriv := OFFICER));
    Synced(Synced(s, target, Cached(Some(c), Some(OWNER))), id, Cached(Some(c), Some(OFFICER)))
  }

  // ---------------------------------------------------------------- the service

  class Session {
    const id: UserId
    var clanId: Option<int>
    var clanPriv: Option<int>

    constructor (id: UserId, cached: Cached)
      ensures this.id == id && View() == cached
    {
      this.id, clanId, clanPriv := id, cached.clanId, cached.clanPriv;
    }

    function View(): Cached
      reads this
    {
      Cached(clanId, clanPriv)
    }
  }

  class ClansService {
    var clans: map<int, Clan>
    var users: map<UserId, User>
    const rows: seq<UserId>
    var nextId: int
    var online: map<UserId, Session>

    constructor (clans: map<int, Clan>, users: map<UserId, User>, rows: seq<UserId>, nextId: int)
      requires forall id :: id in rows <==> id in users
      ensures Valid() && View() == State(clans, users, map[], nextId)
    {
      this.clans, this.users, this.rows, this.nextId, online := clans, users, rows, nextId, map[];
    }

    /** `rows` are the users in the order of their table. */
    ghost predicate Valid()
      reads this
    {
      (forall id <- online :: online[id].id == id) && (forall id :: id in rows <==> id in users)
    }

    function Caches(): map<UserId, Cached>
      reads this`online, online.Values
    {
      map id | id in online :: online[id].View()
    }

    function View(): State
      reads this, online.Values
    {
      State(clans, users, Caches(), nextId)
    }

    method SyncOnlineState(id: UserId, cached: Cached)
      requires Valid()
      modifies online.Values
      ensures View() == Synced(old(View()), id, cached)
    {
      if id in online {
        assert forall j <- online :: j != id ==> online[j] != online[id];
        online[id].clanId := cached.clanId;
        online[id].clanPriv := cached.clanPriv;
        assert Caches() == old(Caches())[id := cached];
      }
    }

    method Create(id: UserId, tag: string, name: string) returns (code: Code)
      requires Valid()
      modifies this, online.Values
      ensures Valid() && Result(View(), code) == CreateClan(old(View()), id, tag, name)
    {
      if !(1 <= |tag| <= 6) {
        return InvalidTag;
      }
      if !(2 <= |name| <= 16) {
        return InvalidName;
      }
      if id !in users {
        return Raised;
      }
      if users[id].clanId != 0 && users[id].clanId in clans {
        return AlreadyInClan;
      }
      if NameUsed(clans, name) {
        return NameTaken;
      }
      if TagUsed(clans, tag) {
        return TagTaken;
      }
      if OwnsClan(clans, id) {
        return Raised;
      }
      var c := nextId;
      clans, nextId := clans[c := Clan(name, tag, id)], c + 1;
      users := users[id := users[id].(clanId := c, clanPriv := OWNER)];
      SyncOnlineState(id, Cached(Some(c), Some(OWNER)));
      code := Created;
    }

    method Disband(c: int) returns (code: Code)
      requires Valid()
      modifies this, online.Values
      ensures Valid() && Result(View(), code) == DisbandClan(old(View()), c)
    {
      if c !in clans {
        return NoSuchClan;
      }
      var members := FetchMembers(c);
      clans := clans - {c};
      ExpelAll(members);
      code := Disbanded;
    }

    /** `users.fetch_many` of a clan. */
    method FetchMembers(c: int) returns (ids: seq<UserId>)
      requires Valid()
      ensures (set id | id in ids) == Members(users, c) && forall id :: id in ids <==> id in Members(users, c)
    {
      ids := [];
      for i := 0 to |rows|
        invariant forall id :: id in ids <==> id in rows[..i] && id in users && users[id].clanId == c
      {
        assert rows[i] in rows && rows[..i + 1] == rows[..i] + [rows[i]];
        if users[rows[i]].clanId == c {
          ids := ids + [rows[i]];
        }
      }
      assert rows[..|rows|] == rows;
    }

    /** Members' rows first, then their sessions. */
    method ExpelAll(members: seq<UserId>)
      requires Valid() && forall id <- members :: id in users
      modifies this`users, online.Values
      ensures Valid() && View() == MembersExpelled(old(View()), set id | id in members)
    {
      ExpelRows(members);
      label expelled:
      for i := 0 to |members|
        invariant Valid()
        invariant View() == SessionsCleared(old@expelled(View()), set id | id in members[..i])
      {
        assert members[..i + 1] == members[..i] + [members[i]];
        SyncOnlineState(members[i], CLANLESS);
      }
      assert members[..|members|] == members;
    }

    method ExpelRows(members: seq<UserId>)
      requires Valid() && forall id <- members :: id in users
      modifies this`users
      ensures Valid() && View() == RowsExpelled(old(View()), set id | id in members)
    {
      for i := 0 to |members|
        invariant users.Keys == old(users.Keys)
        invariant forall id <- users :: users[id] == if id in members[..i] then Expelled(old(users)[id]) else old(users)[id]
      {
        assert members[i] in members && members[..i + 1] == members[..i] + [members[i]];
        users := users[members[i] := Expelled(users[members[i]])];
      }
      assert members[..|members|] == members;
    }

    method Leave(id: UserId) returns (code: Code)
      requires Valid()
      modifies this, online.Values
      ensures Valid() && Result(View(), code) == LeaveClan(old(View()), id)
    {
      if id !in users {
        return Raised;
      }
      var u := users[id];
      if u.clanId == 0 {
        return NotInClan;
      }
      if u.clanPriv == OWNER {
        return OwnerMustTransfer;
      }
      if u.clanId !in clans {
        return NotInClan;
      }
      var members := FetchMembers(u.clanId);
      var last := (set member | member in members) - {id} == {};
      users := users[id := Expelled(u)];
      if last {
        clans := clans - {u.clanId};
      }
      SyncOnlineState(id, CLANLESS);
      code := if last then LeftAndDisbanded else Left;
    }

    method Transfer(id: UserId, target: Option<UserId>) returns (code: Code)
      requires Valid()
      modifies this, online.Values
      ensures Valid() && Result(View(), code) == TransferClan(old(View()), id, target)
    {
      if id !in users {
        return Raised;
      }
      var u := users[id];
      if u.clanId == 0 || u.clanPriv != OWNER || u.clanId !in clans {
        return NotClanOwner;
      }
      if target.None? || target.value !in users || users[target.value].clanId != u.clanId
         || !CanView(id, u.priv, target.value, users[target.value].priv) {
        return TargetNotFound;
      }
      var t := target.value;
      if t == id {
        return TargetAlreadyOwner;
      }
      if OwnsClan(clans - {u.clanId}, t) {
        return Raised;
      }
      clans := clans[u.clanId := clans[u.clanId].(owner := t)];
      users := users[t := users[t].(clanPriv := OWNER)];
      users := users[id := users[id].(clanPriv := OFFICER)];
      SyncOnlineState(t, Cached(Some(u.clanId), Some(OWNER)));
      SyncOnlineState(id, Cached(Some(u.clanId), Some(OFFICER)));
      code := Transferred;
    }
  }

  // ---------------------------------------------------------------- what each operation changes

  /** Beside those named, every user and every session is as it was; and nobody comes or goes. */
  ghost predicate OnlyThese(s: State, s': State, ids: set<UserId>) {
    && s'.users.Keys == s.users.Keys && s'.online.Keys == s.online.Keys
    && (forall j <- s.users :: j !in ids ==> s'.users[j] == s.users[j])
    && (forall j <- s.online :: j !in ids ==> s'.online[j] == s.online[j])
    && (forall j <- s.users :: s'.users[j].priv == s.users[j].priv)
  }

  /** A member of clan `c` with that rank, in the table and in their session if they are online. */
  ghost predicate Ranks(s: State, id: UserId, c: int, rank: int) {
    && id in s.users && s.users[id].clanId == c && s.users[id].clanPriv == rank
    && (id in s.online ==> s.online[id].clanId == Some(c) && s.online[id].clanPriv == Some(rank))
  }

  ghost predicate OutOfClans(s: State, id: UserId) {
    && id in s.users && s.users[id].clanId == 0 && s.users[id].clanPriv == 0
    && (id in s.online ==> s.online[id].clanId == None && s.online[id].clanPriv == None)
  }

  /** The founder owns the new clan; every refusal leaves all as it was. */
  lemma CreateEffect(s: State, id: UserId, tag: string, name: string)
    ensures var r := CreateClan(s, id, tag, name);
      var good := 1 <= |tag| <= 6 && 2 <= |name| <= 16;
      var placed := good && id in s.users && !(s.users[id].clanId != 0 && s.users[id].clanId in s.clans);
      var unnamed := placed && forall c <- s.clans :: s.clans[c].name != name;
      var untagged := unnamed && forall c <- s.clans :: s.clans[c].tag != tag;
      && (r.code.InvalidTag? <==> |tag| == 0 || |tag| > 6)
      && (r.code.InvalidName? <==> 1 <= |tag| <= 6 && (|name| < 2 || |name| > 16))
      && (r.code.AlreadyInClan? <==> good && id in s.users && !placed)
      && (r.code.NameTaken? <==> placed && !unnamed)
      && (r.code.TagTaken? <==> unnamed && !untagged)
      && (r.code.Created? <==> untagged && forall c <- s.clans :: s.clans[c].owner != id)
      && (!r.code.Created? ==> r.s == s)
      && (r.code.Created? ==>
            && r.s.clans == s.clans[s.nextId := Clan(name, tag, id)] && r.s.nextId == s.nextId + 1
            && Ranks(r.s, id, s.nextId, 3) && OnlyThese(s, r.s, {id}))
  {
  }

  /** Everyone in the clan is out of it, in the table and online, and nobody else notices. */
  lemma DisbandEffect(s: State, c: int)
    ensures var r := DisbandClan(s, c);
      && (r.code.Disbanded? <==> c in s.clans) && (r.code.NoSuchClan? <==> c !in s.clans)
      && (r.code.NoSuchClan? ==> r.s == s)
      && (r.code.Disbanded? ==>
            && r.s.clans == s.clans - {c} && r.s.nextId == s.nextId
            && (forall id <- s.users :: s.users[id].clanId == c ==> OutOfClans(r.s, id))
            && OnlyThese(s, r.s, set id | id in s.users && s.users[id].clanId == c))
  {
  }

  /** Whoever leaves is out, in the table and online; the clan goes with its last member, and nobody else
      is moved. */
  lemma LeaveEffect(s: State, id: UserId)
    ensures var r := LeaveClan(s, id);
      && (r.code.Raised? <==> id !in s.users)
      && (id in s.users ==>
            var c := s.users[id].clanId;
            var owner := s.users[id].clanPriv == 3;
            && (r.code.OwnerMustTransfer? <==> c != 0 && owner)
            && (r.code.NotInClan? <==> c == 0 || (!owner && c !in s.clans))
            && (r.code.LeftAndDisbanded? <==> c != 0 && !owner && c in s.clans
                                              && forall j <- s.users :: j != id ==> s.users[j].clanId != c)
            && (r.code.Left? <==> c != 0 && !owner && c in s.clans
                                  && exists j <- s.users :: j != id && s.users[j].clanId == c)
            && (r.code.Left? || r.code.LeftAndDisbanded? ==>
                  && OutOfClans(r.s, id) && OnlyThese(s, r.s, {id}) && r.s.nextId == s.nextId
                  && r.s.clans == if r.code.Left? then s.clans else s.clans - {c}))
      && (!r.code.Left? && !r.code.LeftAndDisbanded? ==> r.s == s)
  {
    if id in s.users {
      var c := s.users[id].clanId;
      forall j | j in s.users && j != id && s.users[j].clanId == c
        ensures j in Members(s.users, c) - {id}
      {
      }
    }
  }

  /** Whom the owner may see: users who are unrestricted and verified, the owner, and for staff everyone. */
  predicate Sees(viewer: UserId, viewerPriv: set<nat>, target: UserId, targetPriv: set<nat>) {
    (0 in targetPriv && 1 in targetPriv) || viewer == target || 12 in viewerPriv || 13 in viewerPriv || 14 in viewerPriv
  }

  lemma SeesWhatCanBeViewed(viewer: UserId, viewerPriv: set<nat>, target: UserId, targetPriv: set<nat>)
    ensures CanView(viewer, viewerPriv, target, targetPriv) <==> Sees(viewer, viewerPriv, target, targetPriv)
  {
    assert 12 in viewerPriv ==> 12 in viewerPriv * STAFF;
    assert 13 in viewerPriv ==> 13 in viewerPriv * STAFF;
    assert 14 in viewerPriv ==> 14 in viewerPriv * STAFF;
  }

  lemma OwnsAnother(clans: map<int, Clan>, c: int, id: UserId)
    ensures !OwnsClan(clans - {c}, id) <==> forall d <- clans :: clans[d].owner == id ==> d == c
  {
    if d :| d in clans && clans[d].owner == id && d != c {
      assert d in clans - {c} && (clans - {c})[d].owner == id;
    }
  }

  /** The former owner is an officer and the target the owner, in the clan's row, in theirs and online. */
  lemma TransferEffect(s: State, id: UserId, target: Option<UserId>)
    ensures var r := TransferClan(s, id, target);
      var owns := id in s.users && s.users[id].clanId != 0 && s.users[id].clanPriv == 3 && s.users[id].clanId in s.clans;
      var found := owns && target.Some? && target.value in s.users
                   && s.users[target.value].clanId == s.users[id].clanId
                   && Sees(id, s.users[id].priv, target.value, s.users[target.value].priv);
      && (r.code.NotClanOwner? <==> id in s.users && !owns)
      && (r.code.TargetNotFound? <==> owns && !found)
      && (r.code.TargetAlreadyOwner? <==> found && target.value == id)
      && (r.code.Transferred? <==>
            found && target.value != id
            && forall c <- s.clans :: s.clans[c].owner == target.value ==> c == s.users[id].clanId)
      && (!r.code.Transferred? ==> r.s == s)
      && (r.code.Transferred? ==>
            var c := s.users[id].clanId;
            && r.s.clans == s.clans[c := s.clans[c].(owner := target.value)] && r.s.nextId == s.nextId
            && Ranks(r.s, target.value, c, 3) && Ranks(r.s, id, c, 2) && OnlyThese(s, r.s, {id, target.value}))
  {
    if id in s.users && target.Some? && target.value in s.users {
      SeesWhatCanBeViewed(id, s.users[id].priv, target.value, s.users[target.value].priv);
      OwnsAnother(s.clans, s.users[id].clanId, target.value);
    }
  }

  // ---------------------------------------------------------------- the invariant

  predicate IsOwner(u: User, c: int) {
    u.clanId == c && u.clanPriv == OWNER
  }

  /** The recorded owner is the one member of Owner rank. */
  predicate Owned(s: State, c: int)
    requires c in s.clans
  {
    && s.clans[c].owner in s.users && IsOwner(s.users[s.clans[c].owner], c)
    && forall id <- s.users :: IsOwner(s.users[id], c) ==> id == s.clans[c].owner
  }

  predicate Owners(s: State) {
    s.nextId > 0 && forall c <- s.clans :: 0 < c < s.nextId && Owned(s, c)
  }

  predicate UniqueNames(clans: map<int, Clan>) {
    forall c, d :: c in clans && d in clans && c != d ==> clans[c].name != clans[d].name && clans[c].tag != clans[d].tag
  }

  predicate NoneDangling(s: State) {
    forall id <- s.users :: s.users[id].clanId == 0 || s.users[id].clanId in s.clans
  }

  predicate SessionsAgree(s: State) {
    forall id <- s.online :: id in s.users && s.online[id] == CacheOf(s.users[id])
  }

  predicate Consistent(s: State) {
    Owners(s) && UniqueNames(s.clans) && NoneDangling(s) && SessionsAgree(s)
  }

  /** Under the invariant the owner of a clan is in no other, so the unique index never objects. */
  lemma OwnerElsewhere(s: State, id: UserId, c: int)
    requires Consistent(s) && id in s.users && (s.users[id].clanId == c || s.users[id].clanId == 0)
    ensures !OwnsClan(s.clans - {c}, id)
  {
  }

  lemma CreateKeeps(s: State, id: UserId, tag: string, name: string)
    requires Consistent(s)
    ensures var r := CreateClan(s, id, tag, name);
      && Consistent(r.s) && (r.code.Raised? ==> id !in s.users)
      && (r.code.Created? <==>
            && 1 <= |tag| <= 6 && 2 <= |name| <= 16 && id in s.users && s.users[id].clanId == 0
            && !NameUsed(s.clans, name) && !TagUsed(s.clans, tag))
      && (r.code.Created? ==> s.nextId in r.s.clans && r.s.clans[s.nextId] == Clan(name, tag, id))
  {
    var r := CreateClan(s, id, tag, name);
    if id in s.users && s.users[id].clanId == 0 {
      OwnerElsewhere(s, id, 0);
      assert s.clans - {0} == s.clans;
    }
    if r.code.Created? {
      FoundedKeeps(s, id, Clan(name, tag, id));
    }
  }

  lemma FoundedKeeps(s: State, id: UserId, clan: Clan)
    requires Consistent(s) && id in s.users && s.users[id].clanId == 0 && clan.owner == id
    requires !NameUsed(s.clans, clan.name) && !TagUsed(s.clans, clan.tag)
    ensures Consistent(Founded(s, id, clan))
  {
    var s' := Founded(s, id, clan);
    forall c | c in s'.clans
      ensures Owned(s', c)
    {
      if c != s.nextId {
        assert Owned(s, c);
      }
    }
  }

  lemma DisbandKeeps(s: State, c: int)
    requires Consistent(s)
    ensures var r := DisbandClan(s, c);
      && Consistent(r.s) && (r.code.Disbanded? <==> c in s.clans) && c !in r.s.clans
      && forall id <- r.s.users :: r.s.users[id].clanId != c || c == 0
  {
    var s' := DisbandClan(s, c).s;
    if c in s.clans {
      forall d | d in s'.clans
        ensures Owned(s', d)
      {
        assert Owned(s, d);
        assert s.clans[d].owner !in Members(s.users, c);
      }
    }
  }

  /** Leaving never disbands: the owner, who cannot leave, is always another member. */
  lemma LeaveKeeps(s: State, id: UserId)
    requires Consistent(s)
    ensures var r := LeaveClan(s, id);
      && Consistent(r.s) && !r.code.LeftAndDisbanded? && r.s.clans == s.clans
      && (r.code.Left? <==> id in s.users && s.users[id].clanId != 0 && s.users[id].clanPriv != OWNER)
      && (r.code.Left? ==> OutOfClans(r.s, id) && OnlyThese(s, r.s, {id})) && (!r.code.Left? ==> r.s == s)
  {
    LeaveEffect(s, id);
    var r := LeaveClan(s, id);
    if id in s.users && s.users[id].clanId != 0 && s.users[id].clanPriv != OWNER {
      var c := s.users[id].clanId;
      assert Owned(s, c);
      assert s.clans[c].owner in Members(s.users, c) - {id};
      forall d | d in r.s.clans
        ensures Owned(r.s, d)
      {
        assert Owned(s, d);
      }
    }
  }

  lemma TransferKeeps(s: State, id: UserId, target: Option<UserId>)
    requires Consistent(s)
    ensures var r := TransferClan(s, id, target);
      && Consistent(r.s) && (r.code.Raised? ==> id !in s.users)
      && (r.code.Transferred? <==>
            && id in s.users && s.users[id].clanId != 0 && s.users[id].clanPriv == OWNER
            && target.Some? && target.value in s.users && target.value != id
            && s.users[target.value].clanId == s.users[id].clanId
            && CanView(id, s.users[id].priv, target.value, s.users[target.value].priv))
      && (r.code.Transferred? ==> r.s.clans[s.users[id].clanId].owner == target.value)
  {
    var r := TransferClan(s, id, target);
    if id in s.users && target.Some? && target.value in s.users {
      if s.users[target.value].clanId == s.users[id].clanId {
        OwnerElsewhere(s, target.value, s.users[id].clanId);
      }
    }
    if r.code.Transferred? {
      HandedOverKeeps(s, s.users[id].clanId, id, target.value);
    }
  }

  lemma HandedOverKeeps(s: State, c: int, id: UserId, target: UserId)
    requires Consistent(s) && c in s.clans && id in s.users && target in s.users && target != id
    requires IsOwner(s.users[id], c) && s.users[target].clanId == c
    ensures Consistent(HandedOver(s, c, id, target))
  {
    var s' := HandedOver(s, c, id, target);
    HandedOverOwners(s, c, id, target);
    assert UniqueNames(s'.clans);
    assert NoneDangling(s');
  }

  lemma HandedOverOwners(s: State, c: int, id: UserId, target: UserId)
    requires Owners(s) && c in s.clans && id in s.users && target in s.users && target != id
    requires IsOwner(s.users[id], c) && s.users[target].clanId == c
    ensures Owners(HandedOver(s, c, id, target))
  {
    var s' := HandedOver(s, c, id, target);
    assert Owned(s, c);
    forall d | d in s'.clans
      ensures Owned(s', d)
    {
      assert Owned(s, d);
    }
  }

  // ---------------------------------------------------------------- runs

  /** The service's operations; users being registered, coming online and going; and an administrator
      putting a user into a clan by hand, as nothing else does. */
  datatype Event =
    | Create(id: UserId, tag: string, name: string)
    | Disband(clan: int)
    | Leave(id: UserId)
    | Transfer(id: UserId, target: Option<UserId>)
    | Register(id: UserId, priv: set<nat>)
    | SetPriv(id: UserId, priv: set<nat>)
    | Login(id: UserId)
    | Logout(id: UserId)
    | Enrol(id: UserId, clan: int, rank: int)

  function Step(s: State, e: Event): State {
    match e
    case Create(id, tag, name) => CreateClan(s, id, tag, name).s
    case Disband(c) => DisbandClan(s, c).s
    case Leave(id) => LeaveClan(s, id).s
    case Transfer(id, target) => TransferClan(s, id, target).s
    case Register(id, priv) => if id in s.users then s else Updated(s, id, User(priv, 0, 0))
    case SetPriv(id, priv) => if id in s.users then Updated(s, id, s.users[id].(priv := priv)) else s
    case Login(id) => if id in s.users then s.(online := s.online[id := CacheOf(s.users[id])]) else s
    case Logout(id) => s.(online := s.online - {id})
    case Enrol(id, c, rank) =>
      if id in s.users && s.users[id].clanId == 0 && c in s.clans && rank in {MEMBER, OFFICER}
      then Synced(Updated(s, id, s.users[id].(clanId := c, clanPriv := rank)), id, Cached(Some(c), Some(rank)))
      else s
  }

  /** What is done to users beside the service: a new user is in no clan, a session knows what the row says,
      and an enrolment gives a clanless user the rank. */
  lemma OtherStepEffect(s: State, id: UserId, priv: set<nat>, c: int, rank: int)
    ensures id !in s.users ==> Step(s, Register(id, priv)) == s.(users := s.users[id := User(priv, 0, 0)])
    ensures id in s.users ==>
      && Step(s, Register(id, priv)) == s
      && Step(s, SetPriv(id, priv)) == s.(users := s.users[id := User(priv, s.users[id].clanId, s.users[id].clanPriv)])
      && var s' := Step(s, Login(id));
         && s' == s.(online := s'.online) && s'.online.Keys == s.online.Keys + {id}
         && (s.users[id].clanId == 0 ==> s'.online[id] == Cached(None, None))
         && (s.users[id].clanId != 0 ==> Ranks(s', id, s.users[id].clanId, s.users[id].clanPriv))
         && forall j <- s.online :: j != id ==> s'.online[j] == s.online[j]
    ensures Step(s, Logout(id)) == s.(online := s.online - {id})
    ensures var s' := Step(s, Enrol(id, c, rank));
      if id in s.users && s.users[id].clanId == 0 && c in s.clans && (rank == 1 || rank == 2)
      then Ranks(s', id, c, rank) && OnlyThese(s, s', {id}) && s'.clans == s.clans && s'.nextId == s.nextId
      else s' == s
  {
  }

  lemma SameRanksOwned(s: State, s': State)
    requires Owners(s) && s'.clans == s.clans && s.users.Keys <= s'.users.Keys
    requires forall id, c :: id in s'.users && c in s.clans ==>
               (IsOwner(s'.users[id], c) <==> id in s.users && IsOwner(s.users[id], c))
    ensures forall c <- s'.clans :: Owned(s', c)
  {
    forall c | c in s'.clans
      ensures Owned(s', c)
    {
      assert Owned(s, c);
    }
  }

  lemma StepKeeps(s: State, e: Event)
    requires Consistent(s)
    ensures Consistent(Step(s, e))
  {
    match e
    case Create(id, tag, name) => CreateKeeps(s, id, tag, name);
    case Disband(c) => DisbandKeeps(s, c);
    case Leave(id) => LeaveKeeps(s, id);
    case Transfer(id, target) => TransferKeeps(s, id, target);
    case _ => OtherStepKeeps(s, e);
  }

  /** Steps that leave clans and ranks of owners alone. */
  predicate KeepsClans(e: Event) {
    e.Register? || e.SetPriv? || e.Login? || e.Logout? || e.Enrol?
  }

  lemma OtherStepKeeps(s: State, e: Event)
    requires Consistent(s) && KeepsClans(e)
    ensures Consistent(Step(s, e))
  {
    OtherStepOwners(s, e);
    OtherStepDangling(s, e);
    OtherStepSessions(s, e);
  }

  lemma OtherStepOwners(s: State, e: Event)
    requires Owners(s) && NoneDangling(s) && KeepsClans(e)
    ensures Owners(Step(s, e)) && Step(s, e).clans == s.clans
  {
    var s' := Step(s, e);
    forall id, c | id in s'.users && c in s.clans
      ensures IsOwner(s'.users[id], c) <==> id in s.users && IsOwner(s.users[id], c)
    {
    }
    SameRanksOwned(s, s');
  }

  lemma OtherStepDangling(s: State, e: Event)
    requires NoneDangling(s) && KeepsClans(e)
    ensures NoneDangling(Step(s, e))
  {
  }

  lemma OtherStepSessions(s: State, e: Event)
    requires SessionsAgree(s) && Owners(s) && KeepsClans(e)
    ensures SessionsAgree(Step(s, e))
  {
  }

  function Run(s: State, events: seq<Event>): State {
    if events == [] then s else Step(Run(s, events[..|events| - 1]), events[|events| - 1])
  }

  /** After any run: one owner per clan, no dangling clan ids, unique names and tags, and sessions that
      agree with the tables. */
  lemma {:induction false} RunKeeps(s: State, events: seq<Event>)
    requires Consistent(s)
    ensures Consistent(Run(s, events))
  {
    if events != [] {
      RunKeeps(s, events[..|events| - 1]);
      StepKeeps(Run(s, events[..|events| - 1]), events[|events| - 1]);
    }
  }

  lemma EmptyConsistent()
    ensures Consistent(State(map[], map[], map[], 1))
  {
  }

  /** So whenever anyone leaves, after any run, their clan lives on. */
  lemma LeavingNeverDisbands(events: seq<Event>, id: UserId)
    ensures !LeaveClan(Run(State(map[], map[], map[], 1), events), id).code.LeftAndDisbanded?
  {
    RunKeeps(State(map[], map[], map[], 1), events);
    LeaveKeeps(Run(State(map[], map[], map[], 1), events), id);
  }
}
