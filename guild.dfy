/**
 * The per-guild record and the store of all guild records: find-or-insert,
 * the writes the handlers make, the two lookups of the close command, and
 * the invariant that a court room hosts at most one active lawsuit.
 */
module Guild {
  import opened Types

  /** The record find_or_insert_state creates for a guild it has never seen. */
  function Default(): GuildState {
    GuildState(None, None, [], [], {})
  }

  /**
   * What find_or_insert_state returns for `g`: a guild the store has never
   * seen reads as a record with nothing configured and nothing on file.
   */
  function Lookup(guilds: map<GuildId, GuildState>, g: GuildId): (st: GuildState)
    ensures g !in guilds ==>
      st.courtCategory.None? && st.prisonRole.None? &&
      st.courtRooms == [] && st.lawsuits == [] && st.prisonEntries == {}
  {
    if g in guilds then guilds[g] else Default()
  }

  predicate Active(l: Lawsuit) {
    l.verdict.None?
  }

  predicate ActiveIn(l: Lawsuit, room: ChannelId) {
    l.courtRoom == room && Active(l)
  }

  /**
   * The lawsuit lookup of close: the first lawsuit held in `room` that has no
   * verdict yet.
   */
  function FindActive(lawsuits: seq<Lawsuit>, room: ChannelId): (r: Option<nat>)
    ensures r.Some? ==> r.value < |lawsuits| && ActiveIn(lawsuits[r.value], room)
    ensures r.Some? ==> forall j :: 0 <= j < r.value ==> !ActiveIn(lawsuits[j], room)
    ensures r.None? <==> forall j :: 0 <= j < |lawsuits| ==> !ActiveIn(lawsuits[j], room)
  {
    if |lawsuits| == 0 then None
    else if ActiveIn(lawsuits[0], room) then Some(0)
    else match FindActive(lawsuits[1..], room)
      case None => None
      case Some(k) => Some(k + 1)
  }

  /** The court-room lookup of close: the first room record for `room`. */
  function FindRoom(rooms: seq<CourtRoom>, room: ChannelId): (r: Option<nat>)
    ensures r.Some? ==> r.value < |rooms| && rooms[r.value].channelId == room
    ensures r.Some? ==> forall j :: 0 <= j < r.value ==> rooms[j].channelId != room
    ensures r.None? <==> CourtRoom(room) !in rooms
  {
    if |rooms| == 0 then None
    else if rooms[0].channelId == room then Some(0)
    else match FindRoom(rooms[1..], room)
      case None => None
      case Some(k) => Some(k + 1)
  }

  /** One write applied to one guild's record. */
  function ApplyOp(st: GuildState, op: GuildOp): GuildState {
    match op
    case SetCategory(c) => st.(courtCategory := Some(c))
    case SetPrisonRole(r) => st.(prisonRole := Some(r))
    case Imprison(u) => st.(prisonEntries := st.prisonEntries + {u})
    case Free(u) => st.(prisonEntries := st.prisonEntries - {u})
    case Open(l, room) =>
      st.(courtRooms := st.courtRooms + [CourtRoom(room)],
          lawsuits := st.lawsuits + [l.(courtRoom := room)])
    case Close(room, v) =>
      (match FindActive(st.lawsuits, room)
       case None => st
       case Some(i) => st.(lawsuits := st.lawsuits[i := st.lawsuits[i].(verdict := Some(v))]))
    case Delete => Default()
  }

  /** What a handler does to the store as a whole. */
  datatype StoreWrite =
    | Untouched                       // the store is not accessed, or only read
    | Upsert(guild: GuildId)          // find_or_insert_state only
    | Update(guild: GuildId, op: GuildOp) // find_or_insert_state, then one write

  function Commit(guilds: map<GuildId, GuildState>, w: StoreWrite): map<GuildId, GuildState> {
    match w
    case Untouched => guilds
    case Upsert(g) => guilds[g := Lookup(guilds, g)]
    case Update(g, op) =>
      if op.Delete? then guilds - {g} else guilds[g := ApplyOp(Lookup(guilds, g), op)]
  }

  /**
   * The record the next find-or-insert of the written guild returns is the old
   * one with the write applied; every other guild reads as before. A bare
   * find-or-insert changes nothing that can be read.
   */
  lemma CommitReads(guilds: map<GuildId, GuildState>, w: StoreWrite, h: GuildId)
    ensures w.Untouched? ==> Lookup(Commit(guilds, w), h) == Lookup(guilds, h)
    ensures w.Upsert? ==> Lookup(Commit(guilds, w), h) == Lookup(guilds, h)
    ensures w.Update? && h != w.guild ==> Lookup(Commit(guilds, w), h) == Lookup(guilds, h)
    ensures w.Update? && h == w.guild ==> Lookup(Commit(guilds, w), h) == ApplyOp(Lookup(guilds, h), w.op)
  {
  }

  /** A find-or-insert of `g` followed by a write to `g` is that write alone. */
  lemma CommitAfterUpsert(guilds: map<GuildId, GuildState>, g: GuildId, w: StoreWrite)
    requires (w.Upsert? || w.Update?) && w.guild == g
    ensures Commit(Commit(guilds, Upsert(g)), w) == Commit(guilds, w)
  {
    var once := Commit(guilds, Upsert(g));
    assert Lookup(once, g) == Lookup(guilds, g);
    if w.Update? && w.op.Delete? {
      assert once - {g} == guilds - {g};
    }
  }

  /** Clearing a guild: the next find-or-insert yields a fresh default record. */
  lemma ClearYieldsDefault(guilds: map<GuildId, GuildState>, g: GuildId)
    ensures var st := Lookup(Commit(guilds, Update(g, Delete)), g);
      st == Default() && st.courtCategory.None? && st.prisonRole.None? &&
      st.lawsuits == [] && st.courtRooms == [] && st.prisonEntries == {}
  {
  }

  /** At most one lawsuit without a verdict per court room. */
  predicate SingleActivePerRoom(lawsuits: seq<Lawsuit>) {
    forall i, j :: 0 <= i < j < |lawsuits| && Active(lawsuits[i]) && Active(lawsuits[j]) ==>
      lawsuits[i].courtRoom != lawsuits[j].courtRoom
  }

  /** Every lawsuit's court room has a court-room record. */
  predicate RoomsRecorded(st: GuildState) {
    forall i :: 0 <= i < |st.lawsuits| ==> CourtRoom(st.lawsuits[i].courtRoom) in st.courtRooms
  }

  predicate Consistent(st: GuildState) {
    SingleActivePerRoom(st.lawsuits) && RoomsRecorded(st)
  }

  /** No lawsuit of the guild is held in `room`: a freshly created channel. */
  predicate RoomUnused(st: GuildState, room: ChannelId) {
    forall i :: 0 <= i < |st.lawsuits| ==> st.lawsuits[i].courtRoom != room
  }

  /** Writes the handlers make only under these conditions. */
  predicate Admissible(st: GuildState, op: GuildOp) {
    op.Open? ==> RoomUnused(st, op.room)
  }

  lemma CloseKeepsSingleActive(lawsuits: seq<Lawsuit>, i: nat, v: string)
    requires i < |lawsuits|
    requires SingleActivePerRoom(lawsuits)
    ensures SingleActivePerRoom(lawsuits[i := lawsuits[i].(verdict := Some(v))])
  {
    var after := lawsuits[i := lawsuits[i].(verdict := Some(v))];
    forall a, b | 0 <= a < b < |after| && Active(after[a]) && Active(after[b])
      ensures after[a].courtRoom != after[b].courtRoom
    {
      assert a != i && b != i;
      assert after[a] == lawsuits[a] && after[b] == lawsuits[b];
    }
  }

  /** Every write a handler makes keeps the record consistent. */
  lemma {:induction false} ApplyOpKeepsConsistent(st: GuildState, op: GuildOp)
    requires Consistent(st) && Admissible(st, op)
    ensures Consistent(ApplyOp(st, op))
  {
    match op
    case Open(l, room) =>
      var after := ApplyOp(st, op);
      var n := |st.lawsuits|;
      assert after.lawsuits == st.lawsuits + [l.(courtRoom := room)];
      forall a, b | 0 <= a < b < |after.lawsuits| && Active(after.lawsuits[a]) && Active(after.lawsuits[b])
        ensures after.lawsuits[a].courtRoom != after.lawsuits[b].courtRoom
      {
        if b == n {
          assert after.lawsuits[a] == st.lawsuits[a];
        } else {
          assert after.lawsuits[a] == st.lawsuits[a] && after.lawsuits[b] == st.lawsuits[b];
        }
      }
      forall k | 0 <= k < |after.lawsuits|
        ensures CourtRoom(after.lawsuits[k].courtRoom) in after.courtRooms
      {
        if k < n {
          assert after.lawsuits[k] == st.lawsuits[k];
        } else {
          assert after.courtRooms[|st.courtRooms|] == CourtRoom(room);
        }
      }
    case Close(room, v) =>
      match FindActive(st.lawsuits, room) {
        case None =>
        case Some(i) =>
          CloseKeepsSingleActive(st.lawsuits, i, v);
          var after := ApplyOp(st, op);
          forall k | 0 <= k < |after.lawsuits|
            ensures CourtRoom(after.lawsuits[k].courtRoom) in after.courtRooms
          {
            assert after.lawsuits[k].courtRoom == st.lawsuits[k].courtRoom;
          }
      }
    case _ =>
  }

  /**
   * Once close has stored a verdict in `room`, no active lawsuit is left
   * there: a second close in the same room finds nothing.
   */
  lemma {:induction false} CloseLeavesNoActive(st: GuildState, room: ChannelId, v: string)
    requires SingleActivePerRoom(st.lawsuits)
    ensures FindActive(ApplyOp(st, Close(room, v)).lawsuits, room).None?
  {
    match FindActive(st.lawsuits, room)
    case None =>
    case Some(i) =>
      var after := ApplyOp(st, Close(room, v)).lawsuits;
      forall j | 0 <= j < |after| ensures !ActiveIn(after[j], room) {
        if j != i {
          assert after[j] == st.lawsuits[j];
          if j > i {
            assert Active(st.lawsuits[i]) && st.lawsuits[i].courtRoom == room;
          }
        }
      }
  }

  /**
   * The lawsuit stored by create is the active lawsuit of its new room, and
   * that room has its court-room record: a close there reaches the verdict step.
   */
  lemma {:induction false} OpenedIsActive(st: GuildState, l: Lawsuit, room: ChannelId)
    requires RoomUnused(st, room) && Active(l)
    ensures var after := ApplyOp(st, Open(l, room));
      FindActive(after.lawsuits, room) == Some(|st.lawsuits|) &&
      FindRoom(after.courtRooms, room).Some?
  {
    var after := ApplyOp(st, Open(l, room));
    var n := |st.lawsuits|;
    assert ActiveIn(after.lawsuits[n], room);
    assert after.courtRooms[|st.courtRooms|] == CourtRoom(room);
    assert forall j :: 0 <= j < n ==> after.lawsuits[j] == st.lawsuits[j];
  }

  /**
   * In a consistent record the court-room lookup of close never fails once the
   * lawsuit lookup has succeeded.
   */
  lemma ActiveHasRoom(st: GuildState, room: ChannelId)
    requires RoomsRecorded(st)
    requires FindActive(st.lawsuits, room).Some?
    ensures FindRoom(st.courtRooms, room).Some?
  {
    var i := FindActive(st.lawsuits, room).value;
    assert CourtRoom(st.lawsuits[i].courtRoom) in st.courtRooms;
  }
}
