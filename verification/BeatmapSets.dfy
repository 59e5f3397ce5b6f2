/** Bringing a cached beatmap set, and the database, up to date with the osu!api. */
module BeatmapSets {
  import opened Wrappers

  type MapId = nat

  /** Server-side ranked statuses. */
  const PENDING: int := 0
  const UPDATE_AVAILABLE: int := 1
  const RANKED: int := 2
  const APPROVED: int := 3
  const QUALIFIED: int := 4
  const LOVED: int := 5

  /** What the osu!api says of a map; `info` stands for its text, times and difficulty. */
  datatype ApiMap = ApiMap(id: MapId, setId: nat, md5: string, approved: int, info: string)

  /** A map, in memory or as a database row. */
  datatype MapV = MapV(
    id: MapId, setId: nat, md5: string, status: int, frozen: bool, plays: nat, passes: nat, info: string)

  datatype Response = Unavailable | Data(maps: seq<ApiMap>) | NoData(statusCode: int)

  /** A stored score, with the map it is on. */
  datatype ScoreRow = ScoreRow(id: nat, mapMd5: string)

  /** The tables; no two maps have the same id. */
  datatype Tables = Tables(maps: map<MapId, MapV>, scores: seq<ScoreRow>, mapsets: map<nat, nat>)

  function FromOsuApi(approved: int): int {
    match approved
    case -2 => PENDING
    case -1 => PENDING
    case 0 => PENDING
    case 1 => RANKED
    case 2 => APPROVED
    case 3 => QUALIFIED
    case 4 => LOVED
    case _ => UPDATE_AVAILABLE
  }

  // ---------------------------------------------------------------- the new maps

  /** Setting a dict's entry: in place when there is one, last otherwise. */
  function Put(d: seq<ApiMap>, r: ApiMap): seq<ApiMap> {
    if d == [] then [r] else if d[0].id == r.id then [r] + d[1..] else [d[0]] + Put(d[1..], r)
  }

  /** The values of the dict by id that is made of the response. */
  function ById(api: seq<ApiMap>): seq<ApiMap> {
    if api == [] then [] else Put(ById(api[..|api| - 1]), api[|api| - 1])
  }

  function Lookup(d: seq<ApiMap>, id: MapId): (r: Option<ApiMap>)
    ensures r.Some? ==> r.value in d && r.value.id == id
    ensures r.None? ==> forall i :: 0 <= i < |d| ==> d[i].id != id
  {
    if d == [] then None else if d[0].id == id then Some(d[0]) else Lookup(d[1..], id)
  }

  predicate HasId(maps: seq<MapV>, id: MapId) {
    exists i :: 0 <= i < |maps| && maps[i].id == id
  }

  function Parsed(b: MapV, r: ApiMap): MapV {
    b.(md5 := r.md5, setId := r.setId, info := r.info, status := if b.frozen then b.status else FromOsuApi(r.approved))
  }

  /** A map that has the same md5 and status is left as it is. */
  function Updated(b: MapV, r: ApiMap): MapV {
    if b.md5 != r.md5 || b.status != FromOsuApi(r.approved) then Parsed(b, r) else b
  }

  function Created(r: ApiMap): MapV {
    MapV(r.id, r.setId, r.md5, FromOsuApi(r.approved), false, 0, 0, r.info)
  }

  function Kept(maps: seq<MapV>, d: seq<ApiMap>): seq<MapV> {
    if maps == [] then []
    else
      var n := |maps| - 1;
      Kept(maps[..n], d) + match Lookup(d, maps[n].id) case Some(r) => [Updated(maps[n], r)] case None => []
  }

  function New(maps: seq<MapV>, d: seq<ApiMap>): seq<MapV> {
    if d == [] then []
    else
      var n := |d| - 1;
      New(maps, d[..n]) + if HasId(maps, d[n].id) then [] else [Created(d[n])]
  }

  function Reconciled(maps: seq<MapV>, d: seq<ApiMap>): seq<MapV> {
    Kept(maps, d) + New(maps, d)
  }

  function Dropped(maps: seq<MapV>, d: seq<ApiMap>): set<string> {
    set i | 0 <= i < |maps| && Lookup(d, maps[i].id).None? :: maps[i].md5
  }

  // ---------------------------------------------------------------- the tables

  function DeleteMaps(rows: map<MapId, MapV>, md5s: set<string>): map<MapId, MapV> {
    map id | id in rows && rows[id].md5 !in md5s :: rows[id]
  }

  function DeleteScores(scores: seq<ScoreRow>, md5s: set<string>): seq<ScoreRow> {
    if scores == [] then []
    else (if scores[0].mapMd5 in md5s then [] else [scores[0]]) + DeleteScores(scores[1..], md5s)
  }

  /** `REPLACE INTO maps`: rows with the same id or md5 go first. */
  function Replace(rows: map<MapId, MapV>, b: MapV): map<MapId, MapV> {
    DeleteMaps(rows, {b.md5})[b.id := b]
  }

  function ReplaceAll(rows: map<MapId, MapV>, maps: seq<MapV>): map<MapId, MapV> {
    if maps == [] then rows else Replace(ReplaceAll(rows, maps[..|maps| - 1]), maps[|maps| - 1])
  }

  function Purged(t: Tables, md5s: set<string>): Tables {
    t.(maps := DeleteMaps(t.maps, md5s), scores := DeleteScores(t.scores, md5s))
  }

  function Md5s(maps: seq<MapV>): set<string> {
    set i | 0 <= i < |maps| :: maps[i].md5
  }

  /** Dropped maps and their scores go, and every map of the set replaces its row. */
  function Rewritten(t: Tables, id: nat, dropped: set<string>, maps: seq<MapV>, now: nat): Tables {
    var t := Purged(t, dropped);
    t.(mapsets := t.mapsets[id := now], maps := ReplaceAll(t.maps, maps))
  }

  /** The tables after an update at time `now` of set `id`, whose maps are `maps`. */
  function Saved(t: Tables, id: nat, maps: seq<MapV>, response: Response, now: nat): Tables {
    match response
    case Unavailable => t
    case Data(api) => Rewritten(t, id, Dropped(maps, ById(api)), Reconciled(maps, ById(api)), now)
    case NoData(statusCode) =>
      if statusCode in {404, 200} then Purged(t, Md5s(maps)).(mapsets := t.mapsets - {id}) else t
  }

  function MapsAfter(maps: seq<MapV>, response: Response): seq<MapV> {
    if response.Data? then Reconciled(maps, ById(response.maps)) else maps
  }

  // ---------------------------------------------------------------- objects

  class Beatmap {
    const id: MapId
    var setId: nat
    var md5: string
    var status: int
    var frozen: bool
    var plays: nat
    var passes: nat
    var info: string

    constructor (v: MapV)
      ensures id == v.id && View() == v
    {
      id, setId, md5, status, frozen, plays, passes, info := v.id, v.setId, v.md5, v.status, v.frozen, v.plays, v.passes, v.info;
    }

    function View(): MapV
      reads this
    {
      MapV(id, setId, md5, status, frozen, plays, passes, info)
    }

    /** `_parse_from_osuapi_resp` */
    method ParseFromApi(r: ApiMap)
      modifies this
      ensures View() == Parsed(old(View()), r)
    {
      md5, setId, info := r.md5, r.setId, r.info;
      if !frozen {
        status := FromOsuApi(r.approved);
      }
    }
  }

  class Database {
    var tables: Tables

    constructor (tables: Tables)
      ensures this.tables == tables
    {
      this.tables := tables;
    }
  }

  class BeatmapSet {
    const id: nat
    var maps: seq<Beatmap>
    var lastApiCheck: nat

    constructor (id: nat, lastApiCheck: nat)
      ensures this.id == id && this.lastApiCheck == lastApiCheck && maps == [] && Valid()
    {
      this.id, this.lastApiCheck, maps := id, lastApiCheck, [];
    }

    /** No two maps have the same id. */
    ghost predicate Valid()
      reads this
    {
      forall i, j :: 0 <= i < j < |maps| ==> maps[i].id != maps[j].id
    }

    function Views(): (v: seq<MapV>)
      reads this`maps, maps
      ensures |v| == |maps| && forall i :: 0 <= i < |maps| ==> v[i] == maps[i].View()
    {
      ViewsOf(maps)
    }

    method UpdateIfAvailable(response: Response, now: nat, db: Database)
      requires Valid()
      modifies this, maps, db
      ensures Valid() && Views() == MapsAfter(old(Views()), response)
      ensures db.tables == Saved(old(db.tables), id, old(Views()), response, now)
      ensures lastApiCheck == if response.Data? then now else old(lastApiCheck)
      ensures forall b <- maps :: b in old(maps) || fresh(b)
    {
      match response {
        case Unavailable =>
        case Data(api) =>
          UpdateFrom(api, now, db);
        case NoData(statusCode) =>
          if statusCode == 404 || statusCode == 200 {
            DeleteSet(db);
          }
      }
    }

    method UpdateFrom(api: seq<ApiMap>, now: nat, db: Database)
      requires Valid()
      modifies this, maps, db
      ensures Valid() && Views() == Reconciled(old(Views()), ById(api)) && lastApiCheck == now
      ensures db.tables ==
        Rewritten(old(db.tables), id, Dropped(old(Views()), ById(api)), Reconciled(old(Views()), ById(api)), now)
      ensures forall b <- maps :: b in old(maps) || fresh(b)
    {
      lastApiCheck := now;
      var dropped := Reconcile(api);
      SaveMaps(db, dropped, now);
    }

    /** The set is gone; what is cached of it stays. */
    method DeleteSet(db: Database)
      modifies db
      ensures db.tables == Purged(old(db.tables), Md5s(Views())).(mapsets := old(db.tables).mapsets - {id})
    {
      var md5s := set i | 0 <= i < |maps| :: maps[i].md5;
      assert md5s == Md5s(Views());
      db.tables := Purged(db.tables, md5s);
      db.tables := db.tables.(mapsets := db.tables.mapsets - {id});
    }

    /** The cached maps become those of the response. */
    method Reconcile(api: seq<ApiMap>) returns (dropped: set<string>)
      requires Valid()
      modifies this`maps, maps
      ensures Valid() && Views() == Reconciled(old(Views()), ById(api)) && dropped == Dropped(old(Views()), ById(api))
      ensures forall b <- maps :: b in old(maps) || fresh(b)
    {
      ghost var before := Views();
      var newMaps := MakeDict(api);
      var updated;
      updated, dropped := UpdateOld(newMaps);
      updated := AddNew(before, updated, newMaps);
      maps := updated;
      ReconciledDistinct(before, api);
      assert forall i :: 0 <= i < |maps| ==> maps[i].id == Views()[i].id;
    }

    /** The maps that have gone are left out, and those that differ are brought up to date in place. */
    method UpdateOld(newMaps: seq<ApiMap>) returns (updated: seq<Beatmap>, dropped: set<string>)
      requires Valid()
      modifies maps
      ensures ViewsOf(updated) == Kept(old(Views()), newMaps) && dropped == Dropped(old(Views()), newMaps)
      ensures forall b <- updated :: b in maps
    {
      ghost var before := Views();
      ghost var from: seq<nat> := [];
      updated, dropped := [], {};
      for i := 0 to |maps|
        invariant forall j :: i <= j < |maps| ==> maps[j].View() == before[j]
        invariant |updated| == |Kept(before[..i], newMaps)|
        invariant forall j :: 0 <= j < |updated| ==> updated[j].View() == Kept(before[..i], newMaps)[j]
        invariant dropped == Dropped(before[..i], newMaps)
        invariant |from| == |updated| && forall j :: 0 <= j < |from| ==> from[j] < i && updated[j] == maps[from[j]]
      {
        var b := maps[i];
        assert before[i] == b.View() && forall j :: 0 <= j < |updated| ==> updated[j] != b;
        DroppedStep(before, newMaps, i);
        KeptStep(before, newMaps, i);
        var r := Lookup(newMaps, b.id);
        if r.None? {
          dropped := dropped + {b.md5};
        } else {
          Refresh(b, r.value);
          updated, from := updated + [b], from + [i];
        }
      }
      assert before[..|maps|] == before;
    }

    method Refresh(b: Beatmap, r: ApiMap)
      modifies b
      ensures b.View() == Updated(old(b.View()), r)
    {
      if b.md5 != r.md5 || b.status != FromOsuApi(r.approved) {
        b.ParseFromApi(r);
      }
    }

    /** The maps that were not there yet. */
    method AddNew(ghost before: seq<MapV>, updated: seq<Beatmap>, newMaps: seq<ApiMap>) returns (r: seq<Beatmap>)
      requires |before| == |maps| && forall i :: 0 <= i < |maps| ==> maps[i].id == before[i].id
      ensures ViewsOf(r) == old(ViewsOf(updated)) + New(before, newMaps)
      ensures forall b <- r :: b in updated || fresh(b)
    {
      r := updated;
      for i := 0 to |newMaps|
        invariant ViewsOf(r) == old(ViewsOf(updated)) + New(before, newMaps[..i])
        invariant forall b <- r :: b in updated || fresh(b)
      {
        assert newMaps[..i + 1][..i] == newMaps[..i];
        assert HasId(before, newMaps[i].id) <==> exists j :: 0 <= j < |maps| && maps[j].id == newMaps[i].id;
        if !exists j :: 0 <= j < |maps| && maps[j].id == newMaps[i].id {
          var b := new Beatmap(Created(newMaps[i]));
          r := r + [b];
        }
      }
      assert newMaps[..|newMaps|] == newMaps;
    }

    method SaveMaps(db: Database, dropped: set<string>, now: nat)
      modifies db
      ensures db.tables == Rewritten(old(db.tables), id, dropped, Views(), now)
    {
      db.tables := Purged(db.tables, dropped);
      db.tables := db.tables.(mapsets := db.tables.mapsets[id := now]);
      ghost var purged := db.tables.maps;
      for i := 0 to |maps|
        invariant db.tables == Purged(old(db.tables), dropped).(mapsets := db.tables.mapsets, maps := ReplaceAll(purged, Views()[..i]))
        invariant db.tables.mapsets == old(db.tables).mapsets[id := now]
      {
        assert Views()[..i + 1][..i] == Views()[..i];
        db.tables := db.tables.(maps := Replace(db.tables.maps, maps[i].View()));
      }
      assert Views()[..|maps|] == Views();
    }
  }

  function ViewsOf(maps: seq<Beatmap>): (v: seq<MapV>)
    reads maps
    ensures |v| == |maps| && forall i :: 0 <= i < |maps| ==> v[i] == maps[i].View()
  {
    seq(|maps|, i requires 0 <= i < |maps| reads maps => maps[i].View())
  }

  /** `{int(api_map["beatmap_id"]): api_map for api_map in api_response}` */
  method MakeDict(api: seq<ApiMap>) returns (d: seq<ApiMap>)
    ensures d == ById(api)
  {
    d := [];
    for i := 0 to |api|
      invariant d == ById(api[..i])
    {
      assert api[..i + 1][..i] == api[..i];
      d := Put(d, api[i]);
    }
    assert api[..|api|] == api;
  }

  // ---------------------------------------------------------------- the response by id

  predicate DistinctIds(maps: seq<MapV>) {
    forall i, j :: 0 <= i < j < |maps| ==> maps[i].id != maps[j].id
  }

  predicate DistinctKeys(d: seq<ApiMap>) {
    forall i, j :: 0 <= i < j < |d| ==> d[i].id != d[j].id
  }

  lemma {:induction false} PutLooksUp(d: seq<ApiMap>, r: ApiMap, id: MapId)
    ensures Lookup(Put(d, r), id) == if id == r.id then Some(r) else Lookup(d, id)
  {
    if d != [] && d[0].id != r.id {
      PutLooksUp(d[1..], r, id);
    }
  }

  lemma {:induction false} PutKeys(d: seq<ApiMap>, r: ApiMap)
    requires DistinctKeys(d)
    ensures DistinctKeys(Put(d, r))
  {
    if d != [] && d[0].id != r.id {
      PutKeys(d[1..], r);
      var rest := Put(d[1..], r);
      PutLooksUp(d[1..], r, d[0].id);
      assert Lookup(d[1..], d[0].id).None? by {
        assert forall i :: 0 <= i < |d[1..]| ==> d[1..][i] == d[i + 1];
      }
    }
  }

  lemma {:induction false} ByIdKeys(api: seq<ApiMap>)
    ensures DistinctKeys(ById(api))
  {
    if api != [] {
      ByIdKeys(api[..|api| - 1]);
      PutKeys(ById(api[..|api| - 1]), api[|api| - 1]);
    }
  }

  /** The last entry with an id counts. */
  function LastWith(api: seq<ApiMap>, id: MapId): Option<ApiMap> {
    if api == [] then None
    else if api[|api| - 1].id == id then Some(api[|api| - 1])
    else LastWith(api[..|api| - 1], id)
  }

  lemma {:induction false} ByIdIsLast(api: seq<ApiMap>, id: MapId)
    ensures Lookup(ById(api), id) == LastWith(api, id)
  {
    if api != [] {
      ByIdIsLast(api[..|api| - 1], id);
      PutLooksUp(ById(api[..|api| - 1]), api[|api| - 1], id);
    }
  }

  lemma {:induction false} KeyLooksUp(d: seq<ApiMap>, i: nat)
    requires DistinctKeys(d) && i < |d|
    ensures Lookup(d, d[i].id) == Some(d[i])
  {
    if i > 0 {
      KeyLooksUp(d[1..], i - 1);
    }
  }

  // ---------------------------------------------------------------- what the maps become

  lemma {:induction false} KeptMembers(maps: seq<MapV>, d: seq<ApiMap>, b: MapV)
    ensures b in Kept(maps, d) <==>
      exists j :: 0 <= j < |maps| && Lookup(d, maps[j].id).Some? && b == Updated(maps[j], Lookup(d, maps[j].id).value)
  {
    if maps != [] {
      var n := |maps| - 1;
      KeptMembers(maps[..n], d, b);
      if b in Kept(maps[..n], d) {
        var j :| 0 <= j < n && Lookup(d, maps[..n][j].id).Some? && b == Updated(maps[..n][j], Lookup(d, maps[..n][j].id).value);
        assert maps[j] == maps[..n][j];
      }
      if j :| 0 <= j < n && Lookup(d, maps[j].id).Some? && b == Updated(maps[j], Lookup(d, maps[j].id).value) {
        assert maps[j] == maps[..n][j];
      }
    }
  }

  lemma {:induction false} NewMembers(maps: seq<MapV>, d: seq<ApiMap>, b: MapV)
    ensures b in New(maps, d) <==> exists j :: 0 <= j < |d| && !HasId(maps, d[j].id) && b == Created(d[j])
  {
    if d != [] {
      var n := |d| - 1;
      NewMembers(maps, d[..n], b);
      if b in New(maps, d[..n]) {
        var j :| 0 <= j < n && !HasId(maps, d[..n][j].id) && b == Created(d[..n][j]);
        assert d[j] == d[..n][j];
      }
      if j :| 0 <= j < n && !HasId(maps, d[j].id) && b == Created(d[j]) {
        assert d[j] == d[..n][j];
      }
    }
  }

  lemma {:induction false} KeptDistinct(maps: seq<MapV>, d: seq<ApiMap>)
    requires DistinctIds(maps)
    ensures DistinctIds(Kept(maps, d))
  {
    if maps != [] {
      var n := |maps| - 1;
      KeptDistinct(maps[..n], d);
      forall i | 0 <= i < |Kept(maps[..n], d)|
        ensures Kept(maps[..n], d)[i].id != maps[n].id
      {
        KeptMembers(maps[..n], d, Kept(maps[..n], d)[i]);
      }
    }
  }

  lemma {:induction false} NewDistinct(maps: seq<MapV>, d: seq<ApiMap>)
    requires DistinctKeys(d)
    ensures DistinctIds(New(maps, d))
  {
    if d != [] {
      var n := |d| - 1;
      NewDistinct(maps, d[..n]);
      forall i | 0 <= i < |New(maps, d[..n])|
        ensures New(maps, d[..n])[i].id != d[n].id
      {
        NewMembers(maps, d[..n], New(maps, d[..n])[i]);
      }
    }
  }

  lemma ReconciledDistinct(maps: seq<MapV>, api: seq<ApiMap>)
    requires DistinctIds(maps)
    ensures DistinctIds(Reconciled(maps, ById(api)))
  {
    var d := ById(api);
    ByIdKeys(api);
    KeptDistinct(maps, d);
    NewDistinct(maps, d);
    forall i, j | 0 <= i < |Kept(maps, d)| && 0 <= j < |New(maps, d)|
      ensures Kept(maps, d)[i].id != New(maps, d)[j].id
    {
      KeptMembers(maps, d, Kept(maps, d)[i]);
      NewMembers(maps, d, New(maps, d)[j]);
    }
  }

  /** The server's status for one of the osu!api: unranked ones are pending, the four others follow ranked,
      and any that is not known asks for an update. */
  function ServerStatus(approved: int): int {
    if -2 <= approved <= 0 then 0 else if 1 <= approved <= 4 then approved + 1 else 1
  }

  /** `b` is what the set's map of that id should now be: the response's md5, and for a new map all else of
      the response too. */
  predicate UpToDate(maps: seq<MapV>, b: MapV, r: ApiMap) {
    && b.id == r.id && b.md5 == r.md5
    && (HasId(maps, b.id) ==> exists j :: 0 <= j < |maps| && Continues(maps[j], b, r))
    && (!HasId(maps, b.id) ==> b == MapV(r.id, r.setId, r.md5, ServerStatus(r.approved), false, 0, 0, r.info))
  }

  /** A map that was there keeps plays, passes and, when frozen, its status; and with the response's md5 and
      status already its own, everything. */
  predicate Continues(old_: MapV, b: MapV, r: ApiMap) {
    && old_.id == b.id && b.frozen == old_.frozen && b.plays == old_.plays && b.passes == old_.passes
    && b.status == (if old_.frozen then old_.status else ServerStatus(r.approved))
    && if old_.md5 == r.md5 && old_.status == ServerStatus(r.approved) then b == old_
       else b.setId == r.setId && b.info == r.info
  }

  /** The set's maps are the response's, once each, and each is up to date. */
  lemma ReconciledIsResponse(maps: seq<MapV>, api: seq<ApiMap>)
    requires DistinctIds(maps)
    ensures var after := Reconciled(maps, ById(api));
      && DistinctIds(after)
      && (forall id :: HasId(after, id) <==> LastWith(api, id).Some?)
      && (forall i :: 0 <= i < |after| ==>
            LastWith(api, after[i].id).Some? && UpToDate(maps, after[i], LastWith(api, after[i].id).value))
  {
    var d := ById(api);
    var after := Reconciled(maps, d);
    ReconciledDistinct(maps, api);
    forall i | 0 <= i < |after|
      ensures LastWith(api, after[i].id).Some? && UpToDate(maps, after[i], LastWith(api, after[i].id).value)
    {
      ReconciledMap(maps, api, after[i]);
    }
    forall id | LastWith(api, id).Some?
      ensures HasId(after, id)
    {
      EveryIdIsThere(maps, api, id);
    }
  }

  lemma UpdatedContinues(b: MapV, r: ApiMap)
    requires b.id == r.id
    ensures Continues(b, Updated(b, r), r) && Updated(b, r).md5 == r.md5
  {
  }

  lemma CreatedIsNew(maps: seq<MapV>, r: ApiMap)
    requires !HasId(maps, r.id)
    ensures UpToDate(maps, Created(r), r)
  {
  }

  lemma ReconciledMap(maps: seq<MapV>, api: seq<ApiMap>, b: MapV)
    requires DistinctIds(maps) && b in Reconciled(maps, ById(api))
    ensures LastWith(api, b.id).Some? && UpToDate(maps, b, LastWith(api, b.id).value)
  {
    var d := ById(api);
    KeptMembers(maps, d, b);
    NewMembers(maps, d, b);
    ByIdIsLast(api, b.id);
    if b in Kept(maps, d) {
      var j :| 0 <= j < |maps| && Lookup(d, maps[j].id).Some? && b == Updated(maps[j], Lookup(d, maps[j].id).value);
      UpdatedContinues(maps[j], Lookup(d, maps[j].id).value);
      assert HasId(maps, b.id) && Continues(maps[j], b, Lookup(d, maps[j].id).value);
    } else {
      var j :| 0 <= j < |d| && !HasId(maps, d[j].id) && b == Created(d[j]);
      ByIdKeys(api);
      KeyLooksUp(d, j);
      CreatedIsNew(maps, d[j]);
    }
  }

  lemma EveryIdIsThere(maps: seq<MapV>, api: seq<ApiMap>, id: MapId)
    requires LastWith(api, id).Some?
    ensures HasId(Reconciled(maps, ById(api)), id)
  {
    var d := ById(api);
    ByIdIsLast(api, id);
    var r := Lookup(d, id).value;
    if HasId(maps, id) {
      var j :| 0 <= j < |maps| && maps[j].id == id;
      KeptMembers(maps, d, Updated(maps[j], r));
      HasIdOfMember(Reconciled(maps, d), Updated(maps[j], r));
    } else {
      var j :| 0 <= j < |d| && d[j] == r;
      NewMembers(maps, d, Created(r));
      HasIdOfMember(Reconciled(maps, d), Created(r));
    }
  }

  lemma HasIdOfMember(maps: seq<MapV>, b: MapV)
    requires b in maps
    ensures HasId(maps, b.id)
  {
    var i :| 0 <= i < |maps| && maps[i] == b;
  }

  lemma KeptStep(maps: seq<MapV>, d: seq<ApiMap>, i: nat)
    requires i < |maps|
    ensures Kept(maps[..i + 1], d) ==
      Kept(maps[..i], d) + match Lookup(d, maps[i].id) case Some(r) => [Updated(maps[i], r)] case None => []
  {
    assert maps[..i + 1][..i] == maps[..i];
  }

  lemma DroppedStep(maps: seq<MapV>, d: seq<ApiMap>, i: nat)
    requires i < |maps|
    ensures Dropped(maps[..i + 1], d) ==
      Dropped(maps[..i], d) + if Lookup(d, maps[i].id).None? then {maps[i].md5} else {}
  {
    var all, fewer := maps[..i + 1], maps[..i];
    forall md5 | md5 in Dropped(all, d)
      ensures md5 in Dropped(fewer, d) + if Lookup(d, maps[i].id).None? then {maps[i].md5} else {}
    {
      var j :| 0 <= j < |all| && Lookup(d, all[j].id).None? && all[j].md5 == md5;
      if j < i {
        assert fewer[j] == all[j];
      }
    }
    forall j | 0 <= j < |fewer| && Lookup(d, fewer[j].id).None?
      ensures fewer[j].md5 in Dropped(all, d)
    {
      assert all[j] == fewer[j];
    }
    assert all[i] == maps[i];
  }

  // ---------------------------------------------------------------- what the tables become

  /** Each map has its row. */
  predicate Stored(rows: map<MapId, MapV>, maps: seq<MapV>) {
    forall i :: 0 <= i < |maps| ==> maps[i].id in rows && rows[maps[i].id] == maps[i]
  }

  predicate DistinctMd5s(maps: seq<MapV>) {
    forall i, j :: 0 <= i < j < |maps| ==> maps[i].md5 != maps[j].md5
  }

  /** Saving leaves every map with its row exactly when no two have the same md5: of those that do, the
      later one's row replaces the earlier's. */
  lemma {:induction false} StoredExactly(rows: map<MapId, MapV>, maps: seq<MapV>)
    requires DistinctIds(maps)
    ensures Stored(ReplaceAll(rows, maps), maps) <==> DistinctMd5s(maps)
  {
    if maps != [] {
      var n := |maps| - 1;
      StoredExactly(rows, maps[..n]);
      ReplaceStored(ReplaceAll(rows, maps[..n]), maps[..n], maps[n]);
      LastIsStored(ReplaceAll(rows, maps), maps);
      LastIsDistinct(maps);
    }
  }

  lemma LastIsStored(rows: map<MapId, MapV>, maps: seq<MapV>)
    requires maps != [] && maps[|maps| - 1].id in rows && rows[maps[|maps| - 1].id] == maps[|maps| - 1]
    ensures Stored(rows, maps) <==> Stored(rows, maps[..|maps| - 1])
  {
    assert forall i :: 0 <= i < |maps| - 1 ==> maps[..|maps| - 1][i] == maps[i];
  }

  lemma LastIsDistinct(maps: seq<MapV>)
    requires maps != []
    ensures var n := |maps| - 1;
      DistinctMd5s(maps) <==> DistinctMd5s(maps[..n]) && forall i :: 0 <= i < n ==> maps[..n][i].md5 != maps[n].md5
  {
    assert forall i :: 0 <= i < |maps| - 1 ==> maps[..|maps| - 1][i] == maps[i];
  }

  lemma ReplaceStored(rows: map<MapId, MapV>, maps: seq<MapV>, b: MapV)
    requires forall i :: 0 <= i < |maps| ==> maps[i].id != b.id
    ensures Stored(Replace(rows, b), maps) <==> Stored(rows, maps) && forall i :: 0 <= i < |maps| ==> maps[i].md5 != b.md5
  {
    var after := Replace(rows, b);
    forall i | 0 <= i < |maps|
      ensures maps[i].id in after && after[maps[i].id] == maps[i] <==>
        maps[i].id in rows && rows[maps[i].id] == maps[i] && maps[i].md5 != b.md5
    {
    }
  }

  /** Rows of other ids stay, but for those whose md5 one of the maps now has. */
  lemma {:induction false} OtherRows(rows: map<MapId, MapV>, maps: seq<MapV>, id: MapId)
    requires !HasId(maps, id)
    ensures var after := ReplaceAll(rows, maps);
      && (id in after <==> id in rows && rows[id].md5 !in Md5s(maps))
      && (id in after ==> after[id] == rows[id])
  {
    if maps != [] {
      var n := |maps| - 1;
      assert !HasId(maps[..n], id) by {
        assert forall i :: 0 <= i < n ==> maps[..n][i] == maps[i];
      }
      OtherRows(rows, maps[..n], id);
      Md5sStep(maps);
      assert maps[n].id != id;
    }
  }

  lemma Md5sStep(maps: seq<MapV>)
    requires maps != []
    ensures Md5s(maps) == Md5s(maps[..|maps| - 1]) + {maps[|maps| - 1].md5}
  {
    var n := |maps| - 1;
    forall i | 0 <= i < |maps|
      ensures maps[i].md5 in Md5s(maps[..n]) + {maps[n].md5}
    {
      if i < n {
        assert maps[..n][i] == maps[i];
      }
    }
    forall i | 0 <= i < |maps[..n]|
      ensures maps[..n][i].md5 in Md5s(maps)
    {
      assert maps[..n][i] == maps[i];
    }
  }

  /** The maps of the set have their rows, and the set has no others. */
  predicate InStep(rows: map<MapId, MapV>, maps: seq<MapV>, setId: nat) {
    && Stored(rows, maps) && DistinctIds(maps)
    && (forall i :: 0 <= i < |maps| ==> maps[i].setId == setId)
    && forall id <- rows :: rows[id].setId == setId ==> HasId(maps, id)
  }

  /** The response gives no md5 to two ids. */
  ghost predicate SeparateMd5s(api: seq<ApiMap>) {
    forall a: MapId, b: MapId :: a != b && LastWith(api, a).Some? && LastWith(api, b).Some? ==>
      LastWith(api, a).value.md5 != LastWith(api, b).value.md5
  }

  lemma Md5sAreResponse(maps: seq<MapV>, api: seq<ApiMap>)
    requires DistinctIds(maps)
    ensures DistinctMd5s(Reconciled(maps, ById(api))) <==> SeparateMd5s(api)
  {
    var after := Reconciled(maps, ById(api));
    ReconciledIsResponse(maps, api);
    if DistinctMd5s(after) {
      forall a: MapId, b: MapId | a != b && LastWith(api, a).Some? && LastWith(api, b).Some?
        ensures LastWith(api, a).value.md5 != LastWith(api, b).value.md5
      {
        assert HasId(after, a) && HasId(after, b);
        var i :| 0 <= i < |after| && after[i].id == a;
        var j :| 0 <= j < |after| && after[j].id == b;
      }
    }
  }

  /** A set whose rows were its maps has rows that are its maps again, if and only if the response gives
      no md5 to two ids. */
  lemma UpdateKeepsStepExactly(t: Tables, id: nat, maps: seq<MapV>, api: seq<ApiMap>, now: nat)
    requires InStep(t.maps, maps, id) && forall i :: 0 <= i < |api| ==> api[i].setId == id
    ensures InStep(Saved(t, id, maps, Data(api), now).maps, MapsAfter(maps, Data(api)), id) <==> SeparateMd5s(api)
  {
    var d := ById(api);
    var after := Reconciled(maps, d);
    var purged := Purged(t, Dropped(maps, d));
    ReconciledIsResponse(maps, api);
    Md5sAreResponse(maps, api);
    StoredExactly(purged.maps, after);
    forall i | 0 <= i < |after|
      ensures after[i].setId == id
    {
      KeepsSet(maps, api, after[i], id);
    }
    var rows := ReplaceAll(purged.maps, after);
    if DistinctMd5s(after) {
      forall k | k in rows && rows[k].setId == id
        ensures HasId(after, k)
      {
        if !HasId(after, k) {
          OtherRows(purged.maps, after, k);
          DroppedRowGone(t, maps, api, id, k);
        }
      }
    }
  }

  lemma {:induction false} LastIsIn(api: seq<ApiMap>, id: MapId)
    requires LastWith(api, id).Some?
    ensures LastWith(api, id).value in api
  {
    if api[|api| - 1].id != id {
      LastIsIn(api[..|api| - 1], id);
    }
  }

  lemma KeepsSet(maps: seq<MapV>, api: seq<ApiMap>, b: MapV, id: nat)
    requires b in Reconciled(maps, ById(api))
    requires (forall i :: 0 <= i < |maps| ==> maps[i].setId == id) && forall i :: 0 <= i < |api| ==> api[i].setId == id
    ensures b.setId == id
  {
    var d := ById(api);
    KeptMembers(maps, d, b);
    NewMembers(maps, d, b);
    ByIdIsLast(api, b.id);
    if b in Kept(maps, d) {
      LastIsIn(api, b.id);
    } else {
      var j :| 0 <= j < |d| && !HasId(maps, d[j].id) && b == Created(d[j]);
      ByIdKeys(api);
      KeyLooksUp(d, j);
      LastIsIn(api, b.id);
    }
  }

  lemma DroppedRowGone(t: Tables, maps: seq<MapV>, api: seq<ApiMap>, id: nat, k: MapId)
    requires InStep(t.maps, maps, id) && k in t.maps && t.maps[k].setId == id && !HasId(Reconciled(maps, ById(api)), k)
    ensures t.maps[k].md5 in Dropped(maps, ById(api))
  {
    var j :| 0 <= j < |maps| && maps[j].id == k;
    if LastWith(api, k).Some? {
      EveryIdIsThere(maps, api, k);
    }
    ByIdIsLast(api, k);
  }

  /** Exactly the scores on dropped maps' md5s are gone. */
  lemma {:induction false} ScoresLeft(scores: seq<ScoreRow>, md5s: set<string>, s: ScoreRow)
    ensures s in DeleteScores(scores, md5s) <==> s in scores && s.mapMd5 !in md5s
    ensures multiset(DeleteScores(scores, md5s))[s] == if s.mapMd5 in md5s then 0 else multiset(scores)[s]
  {
    if scores != [] {
      ScoresLeft(scores[1..], md5s, s);
      assert scores == [scores[0]] + scores[1..];
    }
  }

  // ---------------------------------------------------------------- what each response does to the tables

  /** A map of the set that the response no longer has. */
  ghost predicate GoneFrom(maps: seq<MapV>, api: seq<ApiMap>, md5: string) {
    exists j :: 0 <= j < |maps| && maps[j].md5 == md5 && LastWith(api, maps[j].id).None?
  }

  ghost predicate HasMd5(maps: seq<MapV>, md5: string) {
    exists j :: 0 <= j < |maps| && maps[j].md5 == md5
  }

  lemma DroppedAreGone(maps: seq<MapV>, api: seq<ApiMap>, md5: string)
    ensures md5 in Dropped(maps, ById(api)) <==> GoneFrom(maps, api, md5)
  {
    if md5 in Dropped(maps, ById(api)) {
      var j :| 0 <= j < |maps| && Lookup(ById(api), maps[j].id).None? && maps[j].md5 == md5;
      ByIdIsLast(api, maps[j].id);
    }
    if GoneFrom(maps, api, md5) {
      var j :| 0 <= j < |maps| && maps[j].md5 == md5 && LastWith(api, maps[j].id).None?;
      ByIdIsLast(api, maps[j].id);
    }
  }

  /** Without an answer, or with an error that says nothing of the set, nothing changes; when the set does
      not exist, its maps, their scores and its own row go. */
  lemma SavedWithoutData(t: Tables, id: nat, maps: seq<MapV>, statusCode: int, now: nat, k: MapId, s: ScoreRow)
    ensures Saved(t, id, maps, Unavailable, now) == t
    ensures statusCode != 404 && statusCode != 200 ==> Saved(t, id, maps, NoData(statusCode), now) == t
    ensures statusCode == 404 || statusCode == 200 ==>
      var t' := Saved(t, id, maps, NoData(statusCode), now);
      && t'.mapsets == t.mapsets - {id}
      && (k in t'.maps <==> k in t.maps && !HasMd5(maps, t.maps[k].md5))
      && (k in t'.maps ==> t'.maps[k] == t.maps[k])
      && multiset(t'.scores)[s] == if HasMd5(maps, s.mapMd5) then 0 else multiset(t.scores)[s]
  {
    ScoresLeft(t.scores, Md5s(maps), s);
  }

  /** With data, scores go exactly with the maps that the response has dropped, the check is noted, and the
      row of a map outside the set goes exactly when its md5 is a dropped map's or one of the set's now. */
  lemma SavedWithData(t: Tables, id: nat, maps: seq<MapV>, api: seq<ApiMap>, now: nat, k: MapId, s: ScoreRow)
    requires DistinctIds(maps)
    ensures var t' := Saved(t, id, maps, Data(api), now);
      && t'.mapsets == t.mapsets[id := now]
      && multiset(t'.scores)[s] == (if GoneFrom(maps, api, s.mapMd5) then 0 else multiset(t.scores)[s])
      && (LastWith(api, k).None? ==>
            && (k in t'.maps <==>
                  k in t.maps && !GoneFrom(maps, api, t.maps[k].md5)
                  && !HasMd5(MapsAfter(maps, Data(api)), t.maps[k].md5))
            && (k in t'.maps ==> t'.maps[k] == t.maps[k]))
  {
    ScoresLeft(t.scores, Dropped(maps, ById(api)), s);
    DroppedAreGone(maps, api, s.mapMd5);
    ReconciledIsResponse(maps, api);
    if LastWith(api, k).None? {
      OtherRows(Purged(t, Dropped(maps, ById(api))).maps, Reconciled(maps, ById(api)), k);
      if k in t.maps {
        DroppedAreGone(maps, api, t.maps[k].md5);
      }
    }
  }
}
