/**
 * The rules of the two workflows, stated about the handlers' decisions:
 * which guard blocks which write, in which order the durable fact and the
 * platform call come, which lawsuit close selects, and what clear leaves.
 */
module Rules {
  import opened Types
  import opened Guild
  import opened Command
  import opened Decisions

  // ---------------------------------------------------------------------
  // Membership join

  /**
   * A join issues one add-role call for the joining member, with the
   * configured prison role, exactly when a role is configured and the member
   * has a prison entry; otherwise it issues nothing. No record reads
   * differently afterwards.
   */
  lemma JoinReappliesRoleExactly(guilds: map<GuildId, GuildState>, g: GuildId, u: UserId, ok: bool, h: GuildId)
    ensures var d := JoinDecision(guilds, g, u, ok); var st := Lookup(guilds, g);
      (d.effects != [] <==> st.prisonRole.Some? && u in st.prisonEntries) &&
      (forall e :: e in d.effects ==> e == AddRole(g, u, st.prisonRole.value)) &&
      |d.effects| <= 1 &&
      (d.result.Failure? <==> d.effects != [] && !ok) &&
      Lookup(Commit(guilds, d.write), h) == Lookup(guilds, h)
  {
    CommitReads(guilds, Upsert(g), h);
  }

  // ---------------------------------------------------------------------
  // Prison commands

  /**
   * Without a configured prison role, arrest and release reply with the
   * set-a-role-first guidance and change no record and call no role API.
   */
  lemma NoRoleChangesNothing(guilds: map<GuildId, GuildState>, g: GuildId, perms: Permissions, u: UserId,
                             memberOk: bool, roleOk: bool, h: GuildId)
    requires HasManageGuild(perms) && Lookup(guilds, g).prisonRole.None?
    ensures var a := ArrestDecision(guilds, Some(g), perms, u, memberOk, roleOk);
      a.effects == [Said(g, NeedRole)] && a.result.Success? &&
      Lookup(Commit(guilds, a.write), h) == Lookup(guilds, h)
    ensures var r := ReleaseDecision(guilds, Some(g), perms, u, memberOk, roleOk);
      r.effects == [Said(g, NeedRole)] && r.result.Success? &&
      Lookup(Commit(guilds, r.write), h) == Lookup(guilds, h)
  {
    CommitReads(guilds, Upsert(g), h);
  }

  /** The prison commands do nothing at all for a member without MANAGE_GUILD. */
  lemma PrisonNeedsManageGuild(guilds: map<GuildId, GuildState>, guild: Option<GuildId>, perms: Permissions,
                               u: UserId, role: RoleId, memberOk: bool, roleOk: bool)
    requires !HasManageGuild(perms)
    ensures SetRoleDecision(guild, perms, role) == Decision(Untouched, [], Failure(MissingPermissions))
    ensures ArrestDecision(guilds, guild, perms, u, memberOk, roleOk) == Decision(Untouched, [], Failure(MissingPermissions))
    ensures ReleaseDecision(guilds, guild, perms, u, memberOk, roleOk) == Decision(Untouched, [], Failure(MissingPermissions))
  {
  }

  /**
   * With a role configured, arrest first records the entry and only then asks
   * for the role; the entry stays recorded when fetching the member or adding
   * the role fails, and the command succeeds only if both succeed.
   */
  lemma ArrestRecordsBeforeRole(guilds: map<GuildId, GuildState>, g: GuildId, perms: Permissions, u: UserId,
                                memberOk: bool, roleOk: bool)
    requires HasManageGuild(perms) && Lookup(guilds, g).prisonRole.Some?
    ensures var d := ArrestDecision(guilds, Some(g), perms, u, memberOk, roleOk);
      d.effects[0] == Write(g, Imprison(u)) &&
      (forall i :: 0 <= i < |d.effects| && d.effects[i].AddRole? ==> 0 < i) &&
      (AddRole(g, u, Lookup(guilds, g).prisonRole.value) in d.effects <==> memberOk) &&
      u in Lookup(Commit(guilds, d.write), g).prisonEntries &&
      (d.result.Success? <==> memberOk && roleOk)
  {
    CommitReads(guilds, Update(g, Imprison(u)), g);
  }

  /**
   * With a role configured, release first removes the entry and only then
   * revokes the role; the entry stays removed when a platform step fails, and
   * the success reply is the last effect, sent only when both steps succeeded.
   */
  lemma ReleaseRemovesBeforeRevoke(guilds: map<GuildId, GuildState>, g: GuildId, perms: Permissions, u: UserId,
                                   memberOk: bool, roleOk: bool)
    requires HasManageGuild(perms) && Lookup(guilds, g).prisonRole.Some?
    ensures var d := ReleaseDecision(guilds, Some(g), perms, u, memberOk, roleOk);
      d.effects[0] == Write(g, Free(u)) &&
      (forall i :: 0 <= i < |d.effects| && d.effects[i].RemoveRole? ==> 0 < i) &&
      u !in Lookup(Commit(guilds, d.write), g).prisonEntries &&
      (Said(g, Released) in d.effects <==> memberOk && roleOk) &&
      (memberOk && roleOk ==> d.effects[|d.effects| - 1] == Said(g, Released)) &&
      (d.result.Success? <==> memberOk && roleOk)
  {
    CommitReads(guilds, Update(g, Free(u)), g);
    var d := ReleaseDecision(guilds, Some(g), perms, u, memberOk, roleOk);
    if !(memberOk && roleOk) {
      assert forall e :: e in d.effects ==> !e.Said?;
    }
  }

  // ---------------------------------------------------------------------
  // The lawsuit command

  predicate ManagerOnly(name: string) {
    name == "create" || name == "set_category" || name == "clear"
  }

  /**
   * create, set_category and clear invoked without MANAGE_GUILD answer
   * NoPermissions and leave the store and the platform alone.
   */
  lemma ManagerOnlySubcommands(guilds: map<GuildId, GuildState>, cmd: Interaction, platform: Platform)
    requires cmd.name == "lawsuit" && ParseRequest(cmd).Success?
    requires ManagerOnly(ParseRequest(cmd).value.sub.name) && !HasManageGuild(ParseRequest(cmd).value.permissions)
    ensures InteractionDecision(guilds, cmd, platform) == Decision(Untouched, [], NoPermissions)
  {
  }

  /**
   * The create path: the record is built from the options, the court room is
   * requested for exactly the parties before anything is stored, and the
   * stored lawsuit is then the active lawsuit of its new room.
   */
  lemma CreateOpensActiveLawsuit(guilds: map<GuildId, GuildState>, req: Request, platform: Platform, room: ChannelId)
    requires HasManageGuild(req.permissions) && BuildLawsuit(req.sub.options, platform.freshId).Success?
    requires Lookup(guilds, req.guild).courtCategory.Some?
    requires platform.newRoom == Some(room) && RoomUnused(Lookup(guilds, req.guild), room)
    ensures var l := BuildLawsuit(req.sub.options, platform.freshId).value;
      var d := CreateDecision(guilds, req, platform);
      var before := Lookup(guilds, req.guild);
      var after := Lookup(Commit(guilds, d.write), req.guild);
      d.effects == [RoomRequested(req.guild, before.courtCategory.value, Parties(l)), Write(req.guild, Open(l, room))] &&
      d.result == Success(LawsuitCreated(platform.freshId, room)) &&
      FindActive(after.lawsuits, room) == Some(|before.lawsuits|) &&
      after.lawsuits[|before.lawsuits|] == l.(courtRoom := room) &&
      FindRoom(after.courtRooms, room).Some?
  {
    var l := BuildLawsuit(req.sub.options, platform.freshId).value;
    CommitReads(guilds, Update(req.guild, Open(l, room)), req.guild);
    OpenedIsActive(Lookup(guilds, req.guild), l, room);
  }

  /**
   * create stores nothing when no court category is configured (and then
   * requests no room), or when the room could not be created.
   */
  lemma CreateFailsWithoutStoring(guilds: map<GuildId, GuildState>, req: Request, platform: Platform, h: GuildId)
    requires HasManageGuild(req.permissions) && BuildLawsuit(req.sub.options, platform.freshId).Success?
    requires Lookup(guilds, req.guild).courtCategory.None? || platform.newRoom.None?
    ensures var d := CreateDecision(guilds, req, platform);
      Lookup(Commit(guilds, d.write), h) == Lookup(guilds, h) &&
      (Lookup(guilds, req.guild).courtCategory.None? ==> d.effects == [] && d.result == Success(NoCourtCategory)) &&
      (Lookup(guilds, req.guild).courtCategory.Some? ==> d.result == Failure(RoomCreationFailed))
  {
    CommitReads(guilds, Upsert(req.guild), h);
  }

  /**
   * set_category stores the category only when the channel is a category;
   * for any other channel it answers NotACategory and stores nothing.
   */
  lemma CategoryOnlyFromCategories(guilds: map<GuildId, GuildState>, req: Request, platform: Platform, c: ChannelId)
    requires HasManageGuild(req.permissions) && ChannelAt(req.sub.options, 0) == Some(c)
    requires platform.fetchedChannel.Some?
    ensures var d := SetCategoryDecision(req, platform);
      var after := Lookup(Commit(guilds, d.write), req.guild);
      (platform.fetchedChannel == Some(Category) ==> after.courtCategory == Some(c) && d.result == Success(CategorySet)) &&
      (platform.fetchedChannel == Some(OtherChannel) ==>
         d.write.Untouched? && d.effects == [] && d.result == Success(NotACategory))
  {
    CommitReads(guilds, Update(req.guild, SetCategory(c)), req.guild);
  }

  /**
   * The close lookup: with no active lawsuit in the channel, or no court room
   * record for it, close answers NoActiveProcess and changes nothing. Otherwise
   * the verdict is stored on the first active lawsuit of the channel and on no
   * other lawsuit, provided the actor is its judge or holds MANAGE_GUILD.
   */
  lemma CloseSelectsFirstActive(guilds: map<GuildId, GuildState>, req: Request, verdict: string, h: GuildId)
    requires StringAt(req.sub.options, 0) == Some(verdict)
    ensures var d := CloseDecision(guilds, req);
      var st := Lookup(guilds, req.guild);
      var found := FindActive(st.lawsuits, req.channel);
      var after := Lookup(Commit(guilds, d.write), req.guild);
      (found.None? || FindRoom(st.courtRooms, req.channel).None? ==>
         d.result == Success(NoActiveProcess) && d.effects == [] && Lookup(Commit(guilds, d.write), h) == Lookup(guilds, h)) &&
      (found.Some? && FindRoom(st.courtRooms, req.channel).Some? ==>
         var i := found.value;
         (HasManageGuild(req.permissions) || req.actor == st.lawsuits[i].judge ==>
            d.result == Success(VerdictRecorded) &&
            d.effects == [Write(req.guild, Close(req.channel, verdict))] &&
            after == st.(lawsuits := st.lawsuits[i := st.lawsuits[i].(verdict := Some(verdict))]) &&
            (h != req.guild ==> Lookup(Commit(guilds, d.write), h) == Lookup(guilds, h))) &&
         (!HasManageGuild(req.permissions) && req.actor != st.lawsuits[i].judge ==>
            d.result == Success(OnlyJudge) && d.effects == [] && after == st))
  {
    var d := CloseDecision(guilds, req);
    CommitReads(guilds, d.write, h);
    CommitReads(guilds, d.write, req.guild);
  }

  /**
   * A close that stored a verdict leaves no active lawsuit in the channel of
   * a consistent record: the same close again answers NoActiveProcess.
   */
  lemma SecondCloseFindsNothing(guilds: map<GuildId, GuildState>, req: Request)
    requires Consistent(Lookup(guilds, req.guild))
    requires CloseDecision(guilds, req).result == Success(VerdictRecorded)
    ensures CloseDecision(Commit(guilds, CloseDecision(guilds, req).write), req).result == Success(NoActiveProcess)
  {
    var verdict := StringAt(req.sub.options, 0).value;
    var st := Lookup(guilds, req.guild);
    CommitReads(guilds, Update(req.guild, Close(req.channel, verdict)), req.guild);
    CloseLeavesNoActive(st, req.channel, verdict);
  }

  /**
   * In a consistent record the room lookup of close never fails after the
   * lawsuit lookup succeeded, so close by the judge always stores the verdict.
   */
  lemma JudgeCanAlwaysClose(guilds: map<GuildId, GuildState>, req: Request, verdict: string)
    requires Consistent(Lookup(guilds, req.guild))
    requires StringAt(req.sub.options, 0) == Some(verdict)
    requires FindActive(Lookup(guilds, req.guild).lawsuits, req.channel).Some?
    requires req.actor == Lookup(guilds, req.guild).lawsuits[FindActive(Lookup(guilds, req.guild).lawsuits, req.channel).value].judge
    ensures CloseDecision(guilds, req).result == Success(VerdictRecorded)
  {
    ActiveHasRoom(Lookup(guilds, req.guild), req.channel);
  }

  /**
   * clear deletes the guild's whole record: the next find-or-insert yields
   * the default record, so no join re-applies a role and no close finds a
   * lawsuit; other guilds are untouched.
   */
  lemma ClearIsTotal(guilds: map<GuildId, GuildState>, req: Request, u: UserId, ok: bool, room: ChannelId, h: GuildId)
    requires HasManageGuild(req.permissions)
    ensures var after := Commit(guilds, ClearDecision(req).write);
      Lookup(after, req.guild) == Default() &&
      JoinDecision(after, req.guild, u, ok).effects == [] &&
      FindActive(Lookup(after, req.guild).lawsuits, room).None? &&
      (h != req.guild ==> Lookup(after, h) == Lookup(guilds, h))
  {
    ClearYieldsDefault(guilds, req.guild);
  }
}
