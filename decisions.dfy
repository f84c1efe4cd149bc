/**
 * What each handler decides, as a value: the write it makes to the store, the
 * store writes and platform calls it issues in order, and its result. The
 * handler methods are proved to do exactly this; the lemmas below state the
 * rules of the two workflows about these decisions.
 */
module Decisions {
  import opened Types
  import opened Guild
  import opened Command

  datatype Decision<R> = Decision(write: StoreWrite, effects: seq<Effect>, result: R)

  const Done: Status := Success(())

  // ---------------------------------------------------------------------
  // Membership join

  /** A member joined guild `g`: re-apply the prison role if the member is on record. */
  function JoinDecision(guilds: map<GuildId, GuildState>, g: GuildId, u: UserId, addRoleOk: bool): Decision<Status> {
    var st := Lookup(guilds, g);
    if st.prisonRole.Some? && u in st.prisonEntries then
      Decision(Upsert(g), [AddRole(g, u, st.prisonRole.value)], if addRoleOk then Done else Failure(AddRoleFailed))
    else
      Decision(Upsert(g), [], Done)
  }

  // ---------------------------------------------------------------------
  // The prison commands (each behind the framework's MANAGE_GUILD check)

  function SetRoleDecision(guild: Option<GuildId>, perms: Permissions, role: RoleId): Decision<Status> {
    if !HasManageGuild(perms) then Decision(Untouched, [], Failure(MissingPermissions))
    else if guild.None? then Decision(Untouched, [], Failure(NoGuild))
    else
      var g := guild.value;
      Decision(Update(g, SetPrisonRole(role)), [Write(g, SetPrisonRole(role)), Said(g, RoleSet)], Done)
  }

  function ArrestDecision(guilds: map<GuildId, GuildState>, guild: Option<GuildId>, perms: Permissions,
                          u: UserId, memberOk: bool, roleOk: bool): Decision<Status>
  {
    if !HasManageGuild(perms) then Decision(Untouched, [], Failure(MissingPermissions))
    else if guild.None? then Decision(Untouched, [], Failure(NoGuild))
    else
      var g := guild.value;
      var st := Lookup(guilds, g);
      if st.prisonRole.None? then Decision(Upsert(g), [Said(g, NeedRole)], Done)
      else
        var role := st.prisonRole.value;
        Decision(Update(g, Imprison(u)),
                 [Write(g, Imprison(u))] + (if memberOk then [AddRole(g, u, role)] else []),
                 if !memberOk then Failure(MemberFetchFailed)
                 else if !roleOk then Failure(AddRoleFailed)
                 else Done)
  }

  function ReleaseDecision(guilds: map<GuildId, GuildState>, guild: Option<GuildId>, perms: Permissions,
                           u: UserId, memberOk: bool, roleOk: bool): Decision<Status>
  {
    if !HasManageGuild(perms) then Decision(Untouched, [], Failure(MissingPermissions))
    else if guild.None? then Decision(Untouched, [], Failure(NoGuild))
    else
      var g := guild.value;
      var st := Lookup(guilds, g);
      if st.prisonRole.None? then Decision(Upsert(g), [Said(g, NeedRole)], Done)
      else
        var role := st.prisonRole.value;
        Decision(Update(g, Free(u)),
                 [Write(g, Free(u))] +
                 (if memberOk then [RemoveRole(g, u, role)] + (if roleOk then [Said(g, Released)] else []) else []),
                 if !memberOk then Failure(MemberFetchFailed)
                 else if !roleOk then Failure(RemoveRoleFailed)
                 else Done)
  }

  // ---------------------------------------------------------------------
  // The lawsuit command

  /** The members a new court room admits. */
  function Parties(l: Lawsuit): set<UserId> {
    {l.plaintiff, l.accused, l.judge} +
    (if l.plaintiffLawyer.Some? then {l.plaintiffLawyer.value} else {}) +
    (if l.accusedLawyer.Some? then {l.accusedLawyer.value} else {})
  }

  /** LawsuitCtx::initialize: needs the court category, creates the room, then stores. */
  function InitializeDecision(guilds: map<GuildId, GuildState>, g: GuildId, l: Lawsuit,
                              newRoom: Option<ChannelId>): Decision<Result<Reply, Failure>>
  {
    var st := Lookup(guilds, g);
    if st.courtCategory.None? then Decision(Upsert(g), [], Success(NoCourtCategory))
    else
      var request := RoomRequested(g, st.courtCategory.value, Parties(l));
      match newRoom
      case None => Decision(Upsert(g), [request], Failure(RoomCreationFailed))
      case Some(room) =>
        Decision(Update(g, Open(l, room)), [request, Write(g, Open(l, room))],
                 Success(LawsuitCreated(l.id, room)))
  }

  /** LawsuitCtx::rule_verdict: only the judge, or a manager, may close. */
  function RuleVerdictDecision(g: GuildId, l: Lawsuit, permissionOverride: bool, actor: UserId,
                               verdict: string, room: ChannelId): Decision<Result<Reply, Failure>>
  {
    if !(permissionOverride || actor == l.judge) then Decision(Upsert(g), [], Success(OnlyJudge))
    else Decision(Update(g, Close(room, verdict)), [Write(g, Close(room, verdict))], Success(VerdictRecorded))
  }

  function CreateDecision(guilds: map<GuildId, GuildState>, req: Request, platform: Platform): Decision<Result<Reply, Failure>> {
    if !HasManageGuild(req.permissions) then Decision(Untouched, [], Success(NoPermissions))
    else match BuildLawsuit(req.sub.options, platform.freshId)
      case Failure(f) => Decision(Untouched, [], Failure(f))
      case Success(l) => InitializeDecision(guilds, req.guild, l, platform.newRoom)
  }

  function SetCategoryDecision(req: Request, platform: Platform): Decision<Result<Reply, Failure>> {
    if !HasManageGuild(req.permissions) then Decision(Untouched, [], Success(NoPermissions))
    else match ChannelAt(req.sub.options, 0)
      case None => Decision(Untouched, [], Failure(BadOption("category")))
      case Some(c) =>
        match platform.fetchedChannel
        case None => Decision(Untouched, [], Failure(ChannelFetchFailed))
        case Some(OtherChannel) => Decision(Untouched, [], Success(NotACategory))
        case Some(Category) =>
          Decision(Update(req.guild, SetCategory(c)), [Write(req.guild, SetCategory(c))], Success(CategorySet))
  }

  function CloseDecision(guilds: map<GuildId, GuildState>, req: Request): Decision<Result<Reply, Failure>> {
    var permissionOverride := HasManageGuild(req.permissions);
    match StringAt(req.sub.options, 0)
    case None => Decision(Untouched, [], Failure(BadOption("verdict")))
    case Some(verdict) =>
      var st := Lookup(guilds, req.guild);
      match FindActive(st.lawsuits, req.channel)
      case None => Decision(Upsert(req.guild), [], Success(NoActiveProcess))
      case Some(i) =>
        if FindRoom(st.courtRooms, req.channel).None? then Decision(Upsert(req.guild), [], Success(NoActiveProcess))
        else RuleVerdictDecision(req.guild, st.lawsuits[i], permissionOverride, req.actor, verdict, req.channel)
  }

  function ClearDecision(req: Request): Decision<Result<Reply, Failure>> {
    if !HasManageGuild(req.permissions) then Decision(Untouched, [], Success(NoPermissions))
    else Decision(Update(req.guild, Delete), [Write(req.guild, Delete)], Success(Cleared))
  }

  /** lawsuit_command_handler */
  function LawsuitDecision(guilds: map<GuildId, GuildState>, cmd: Interaction, platform: Platform): Decision<Result<Reply, Failure>> {
    match ParseRequest(cmd)
    case Failure(f) => Decision(Untouched, [], Failure(f))
    case Success(req) =>
      if req.sub.name == "create" then CreateDecision(guilds, req, platform)
      else if req.sub.name == "set_category" then SetCategoryDecision(req, platform)
      else if req.sub.name == "close" then CloseDecision(guilds, req)
      else if req.sub.name == "clear" then ClearDecision(req)
      else Decision(Untouched, [], Failure(UnknownSubcommand))
  }

  /** handle_interaction: only "lawsuit" is dispatched; an error becomes the internal-error reply. */
  function InteractionDecision(guilds: map<GuildId, GuildState>, cmd: Interaction, platform: Platform): Decision<Reply> {
    if cmd.name == "lawsuit" then
      var d := LawsuitDecision(guilds, cmd, platform);
      Decision(d.write, d.effects, match d.result case Success(r) => r case Failure(_) => InternalError)
    else Decision(Untouched, [], NotImplemented)
  }
}
