/**
 * The bot's event and command handlers over the guild store. The store and
 * the log of what the handlers did are the fields of one object; the
 * persistence and platform calls are methods of it whose contracts say what
 * they change and when they may be called. Each handler is proved to do what
 * its decision (module Decisions) says.
 */
module Handler {
  import opened Types
  import opened Guild
  import opened Command
  import opened Trace
  import opened Decisions

  ghost predicate StoreConsistent(guilds: map<GuildId, GuildState>) {
    forall g :: g in guilds ==> Consistent(guilds[g])
  }

  /** The prison entries in the store are exactly those the log leaves on record. */
  ghost predicate AgreesWithTrace(guilds: map<GuildId, GuildState>, trace: seq<Effect>) {
    forall g, u :: u in Lookup(guilds, g).prisonEntries <==> EntryOn(trace, g, u)
  }

  /** The platform returns a new channel when it creates a court room. */
  predicate RoomIsNew(guilds: map<GuildId, GuildState>, cmd: Interaction, platform: Platform) {
    platform.newRoom.Some? && cmd.guild.Some? ==> RoomUnused(Lookup(guilds, cmd.guild.value), platform.newRoom.value)
  }

  class Handler {
    /** One record per guild, as the persistence store keeps them. */
    var guilds: map<GuildId, GuildState>
    /** Every store write and platform call made so far, in order. */
    ghost var trace: seq<Effect>

    ghost predicate Valid()
      reads this
    {
      StoreConsistent(guilds) && AgreesWithTrace(guilds, trace) && Justified(trace)
    }

    constructor ()
      ensures Valid() && guilds == map[] && trace == []
    {
      guilds := map[];
      trace := [];
    }

    // -------------------------------------------------------------------
    // Persistence gateway

    method FindOrInsertState(g: GuildId) returns (st: GuildState)
      requires Valid()
      modifies this
      ensures Valid()
      ensures st == Lookup(old(guilds), g)
      ensures guilds == Commit(old(guilds), Upsert(g)) && trace == old(trace)
    {
      if g in guilds {
        st := guilds[g];
      } else {
        st := Default();
      }
      guilds := guilds[g := st];
      forall h ensures Lookup(guilds, h) == Lookup(old(guilds), h) {
        CommitReads(old(guilds), Upsert(g), h);
      }
    }

    /** find_prison_entry */
    method FindPrisonEntry(g: GuildId, u: UserId) returns (found: bool)
      requires Valid()
      ensures found <==> u in Lookup(guilds, g).prisonEntries
    {
      found := g in guilds && u in guilds[g].prisonEntries;
    }

    /** set_court_category, set_prison_role, add_to_prison, remove_from_prison, delete_guild and the lawsuit writes. */
    method Persist(g: GuildId, op: GuildOp)
      requires Valid() && Admissible(Lookup(guilds, g), op)
      modifies this
      ensures Valid()
      ensures guilds == Commit(old(guilds), Update(g, op)) && trace == old(trace) + [Write(g, op)]
    {
      ApplyOpKeepsConsistent(Lookup(guilds, g), op);
      if op.Delete? {
        guilds := guilds - {g};
      } else {
        guilds := guilds[g := ApplyOp(Lookup(guilds, g), op)];
      }
      JustifiedSnoc(trace, Write(g, op));
      forall h, v ensures v in Lookup(guilds, h).prisonEntries <==> EntryOn(trace + [Write(g, op)], h, v) {
        CommitReads(old(guilds), Update(g, op), h);
        EntryOnSnoc(trace, Write(g, op), h, v);
      }
      trace := trace + [Write(g, op)];
    }

    // -------------------------------------------------------------------
    // Platform gateway: `ok` and `newRoom` are the platform's answers

    /** member.add_role: only for a member whose prison entry is on record. */
    method GrantRole(g: GuildId, u: UserId, r: RoleId, ok: bool) returns (res: Status)
      requires Valid() && u in Lookup(guilds, g).prisonEntries
      modifies this
      ensures Valid()
      ensures guilds == old(guilds) && trace == old(trace) + [AddRole(g, u, r)]
      ensures res == if ok then Done else Failure(AddRoleFailed)
    {
      JustifiedSnoc(trace, AddRole(g, u, r));
      forall h, v ensures EntryOn(trace + [AddRole(g, u, r)], h, v) == EntryOn(trace, h, v) {
        EntryOnSnoc(trace, AddRole(g, u, r), h, v);
      }
      trace := trace + [AddRole(g, u, r)];
      res := if ok then Done else Failure(AddRoleFailed);
    }

    /** member.remove_role: only for a member whose prison entry is gone. */
    method RevokeRole(g: GuildId, u: UserId, r: RoleId, ok: bool) returns (res: Status)
      requires Valid() && u !in Lookup(guilds, g).prisonEntries
      modifies this
      ensures Valid()
      ensures guilds == old(guilds) && trace == old(trace) + [RemoveRole(g, u, r)]
      ensures res == if ok then Done else Failure(RemoveRoleFailed)
    {
      JustifiedSnoc(trace, RemoveRole(g, u, r));
      forall h, v ensures EntryOn(trace + [RemoveRole(g, u, r)], h, v) == EntryOn(trace, h, v) {
        EntryOnSnoc(trace, RemoveRole(g, u, r), h, v);
      }
      trace := trace + [RemoveRole(g, u, r)];
      res := if ok then Done else Failure(RemoveRoleFailed);
    }

    /** Creating a court room admitting `members` under `category`. */
    method RequestRoom(g: GuildId, category: ChannelId, members: set<UserId>, newRoom: Option<ChannelId>)
      returns (room: Option<ChannelId>)
      requires Valid()
      modifies this
      ensures Valid()
      ensures guilds == old(guilds) && trace == old(trace) + [RoomRequested(g, category, members)]
      ensures room == newRoom
    {
      var e := RoomRequested(g, category, members);
      JustifiedSnoc(trace, e);
      forall h, v ensures EntryOn(trace + [e], h, v) == EntryOn(trace, h, v) {
        EntryOnSnoc(trace, e, h, v);
      }
      trace := trace + [e];
      room := newRoom;
    }

    /** ctx.say */
    method Say(g: GuildId, reply: Reply)
      requires Valid()
      modifies this
      ensures Valid()
      ensures guilds == old(guilds) && trace == old(trace) + [Said(g, reply)]
    {
      JustifiedSnoc(trace, Said(g, reply));
      forall h, v ensures EntryOn(trace + [Said(g, reply)], h, v) == EntryOn(trace, h, v) {
        EntryOnSnoc(trace, Said(g, reply), h, v);
      }
      trace := trace + [Said(g, reply)];
    }

    // -------------------------------------------------------------------
    // Membership join

    method MemberJoin(g: GuildId, u: UserId, addRoleOk: bool) returns (res: Status)
      requires Valid()
      modifies this
      ensures Valid()
      ensures var d := JoinDecision(old(guilds), g, u, addRoleOk);
        guilds == Commit(old(guilds), d.write) && trace == old(trace) + d.effects && res == d.result
    {
      var st := FindOrInsertState(g);
      res := Done;
      if st.prisonRole.Some? {
        var inPrison := FindPrisonEntry(g, u);
        if inPrison {
          res := GrantRole(g, u, st.prisonRole.value, addRoleOk);
        }
      }
    }

    // -------------------------------------------------------------------
    // The prison commands

    method PrisonSetRole(guild: Option<GuildId>, perms: Permissions, role: RoleId) returns (res: Status)
      requires Valid()
      modifies this
      ensures Valid()
      ensures var d := SetRoleDecision(guild, perms, role);
        guilds == Commit(old(guilds), d.write) && trace == old(trace) + d.effects && res == d.result
    {
      if !HasManageGuild(perms) {
        return Failure(MissingPermissions);
      }
      if guild.None? {
        return Failure(NoGuild);
      }
      Persist(guild.value, SetPrisonRole(role));
      Say(guild.value, RoleSet);
      res := Done;
    }

    method PrisonArrest(guild: Option<GuildId>, perms: Permissions, u: UserId, memberOk: bool, roleOk: bool)
      returns (res: Status)
      requires Valid()
      modifies this
      ensures Valid()
      ensures var d := ArrestDecision(old(guilds), guild, perms, u, memberOk, roleOk);
        guilds == Commit(old(guilds), d.write) && trace == old(trace) + d.effects && res == d.result
    {
      if !HasManageGuild(perms) {
        return Failure(MissingPermissions);
      }
      if guild.None? {
        return Failure(NoGuild);
      }
      var g := guild.value;
      var st := FindOrInsertState(g);
      if st.prisonRole.None? {
        Say(g, NeedRole);
        return Done;
      }
      var role := st.prisonRole.value;
      Persist(g, Imprison(u));
      CommitAfterUpsert(old(guilds), g, Update(g, Imprison(u)));
      if !memberOk {
        return Failure(MemberFetchFailed);
      }
      res := GrantRole(g, u, role, roleOk);
    }

    method PrisonRelease(guild: Option<GuildId>, perms: Permissions, u: UserId, memberOk: bool, roleOk: bool)
      returns (res: Status)
      requires Valid()
      modifies this
      ensures Valid()
      ensures var d := ReleaseDecision(old(guilds), guild, perms, u, memberOk, roleOk);
        guilds == Commit(old(guilds), d.write) && trace == old(trace) + d.effects && res == d.result
    {
      if !HasManageGuild(perms) {
        return Failure(MissingPermissions);
      }
      if guild.None? {
        return Failure(NoGuild);
      }
      var g := guild.value;
      var st := FindOrInsertState(g);
      if st.prisonRole.None? {
        Say(g, NeedRole);
        return Done;
      }
      var role := st.prisonRole.value;
      Persist(g, Free(u));
      CommitAfterUpsert(old(guilds), g, Update(g, Free(u)));
      if !memberOk {
        return Failure(MemberFetchFailed);
      }
      res := RevokeRole(g, u, role, roleOk);
      if res.Failure? {
        return;
      }
      Say(g, Released);
    }

    // -------------------------------------------------------------------
    // The lawsuit command

    method Initialize(g: GuildId, l: Lawsuit, newRoom: Option<ChannelId>) returns (res: Result<Reply, Failure>)
      requires Valid()
      requires newRoom.Some? ==> RoomUnused(Lookup(guilds, g), newRoom.value)
      modifies this
      ensures Valid()
      ensures var d := InitializeDecision(old(guilds), g, l, newRoom);
        guilds == Commit(old(guilds), d.write) && trace == old(trace) + d.effects && res == d.result
    {
      var st := FindOrInsertState(g);
      if st.courtCategory.None? {
        return Success(NoCourtCategory);
      }
      var room := RequestRoom(g, st.courtCategory.value, Parties(l), newRoom);
      if room.None? {
        return Failure(RoomCreationFailed);
      }
      Persist(g, Open(l, room.value));
      CommitAfterUpsert(old(guilds), g, Update(g, Open(l, room.value)));
      res := Success(LawsuitCreated(l.id, room.value));
    }

    method RuleVerdict(g: GuildId, l: Lawsuit, permissionOverride: bool, actor: UserId, verdict: string, room: CourtRoom)
      returns (res: Result<Reply, Failure>)
      requires Valid() && g in guilds
      modifies this
      ensures Valid()
      ensures var d := RuleVerdictDecision(g, l, permissionOverride, actor, verdict, room.channelId);
        guilds == Commit(old(guilds), d.write) && trace == old(trace) + d.effects && res == d.result
    {
      if !(permissionOverride || actor == l.judge) {
        assert guilds == Commit(guilds, Upsert(g));
        return Success(OnlyJudge);
      }
      Persist(g, Close(room.channelId, verdict));
      res := Success(VerdictRecorded);
    }

    method LawsuitCommand(cmd: Interaction, platform: Platform) returns (res: Result<Reply, Failure>)
      requires Valid() && RoomIsNew(guilds, cmd, platform)
      modifies this
      ensures Valid()
      ensures var d := LawsuitDecision(old(guilds), cmd, platform);
        guilds == Commit(old(guilds), d.write) && trace == old(trace) + d.effects && res == d.result
    {
      var parsed := ParseRequest(cmd);
      if parsed.Failure? {
        return Failure(parsed.error);
      }
      var req := parsed.value;
      var opts := req.sub.options;
      if req.sub.name == "create" {
        if !HasManageGuild(req.permissions) {
          return Success(NoPermissions);
        }
        var built := BuildLawsuit(opts, platform.freshId);
        if built.Failure? {
          return Failure(built.error);
        }
        res := Initialize(req.guild, built.value, platform.newRoom);
      } else if req.sub.name == "set_category" {
        if !HasManageGuild(req.permissions) {
          return Success(NoPermissions);
        }
        var channel := ChannelAt(opts, 0);
        if channel.None? {
          return Failure(BadOption("category"));
        }
        match platform.fetchedChannel {
          case None =>
            return Failure(ChannelFetchFailed);
          case Some(OtherChannel) =>
            return Success(NotACategory);
          case Some(Category) =>
            Persist(req.guild, SetCategory(channel.value));
            res := Success(CategorySet);
        }
      } else if req.sub.name == "close" {
        var permissionOverride := HasManageGuild(req.permissions);
        var verdict := StringAt(opts, 0);
        if verdict.None? {
          return Failure(BadOption("verdict"));
        }
        var st := FindOrInsertState(req.guild);
        var lawsuit := FindActive(st.lawsuits, req.channel);
        if lawsuit.None? {
          return Success(NoActiveProcess);
        }
        var room := FindRoom(st.courtRooms, req.channel);
        if room.None? {
          return Success(NoActiveProcess);
        }
        res := RuleVerdict(req.guild, st.lawsuits[lawsuit.value], permissionOverride, req.actor,
                           verdict.value, st.courtRooms[room.value]);
        CommitAfterUpsert(old(guilds), req.guild,
          RuleVerdictDecision(req.guild, st.lawsuits[lawsuit.value], permissionOverride, req.actor,
                              verdict.value, req.channel).write);
      } else if req.sub.name == "clear" {
        if !HasManageGuild(req.permissions) {
          return Success(NoPermissions);
        }
        Persist(req.guild, Delete);
        res := Success(Cleared);
      } else {
        res := Failure(UnknownSubcommand);
      }
    }

    method HandleInteraction(cmd: Interaction, platform: Platform) returns (reply: Reply)
      requires Valid() && RoomIsNew(guilds, cmd, platform)
      modifies this
      ensures Valid()
      ensures var d := InteractionDecision(old(guilds), cmd, platform);
        guilds == Commit(old(guilds), d.write) && trace == old(trace) + d.effects && reply == d.result
    {
      if cmd.name == "lawsuit" {
        var res := LawsuitCommand(cmd, platform);
        reply := match res case Success(r) => r case Failure(_) => InternalError;
      } else {
        reply := NotImplemented;
      }
    }
  }
}
