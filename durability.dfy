/**
 * Confinement over time. Each handler changes the store by one StoreWrite;
 * a run of handlers, of any guilds, changes it by the sequence of their
 * writes. A prison entry then decides every later join: it survives every
 * write except a release or a clear of that guild, and a released member
 * stays released until arrested again.
 */
module Durability {
  import opened Types
  import opened Guild
  import opened Command
  import opened Decisions

  /** The store after a run of handlers that wrote `ws`, in order. */
  function CommitAll(guilds: map<GuildId, GuildState>, ws: seq<StoreWrite>): map<GuildId, GuildState>
    decreases |ws|
  {
    if ws == [] then guilds else CommitAll(Commit(guilds, ws[0]), ws[1..])
  }

  /** A write that ends the confinement of `u` in `g`: a release, or a clear. */
  predicate Ends(w: StoreWrite, g: GuildId, u: UserId) {
    w.Update? && w.guild == g && (w.op == Free(u) || w.op.Delete?)
  }

  /** A write that confines `u` in `g`. */
  predicate Starts(w: StoreWrite, g: GuildId, u: UserId) {
    w == Update(g, Imprison(u))
  }

  lemma {:induction false} EntryOutlivesWrites(guilds: map<GuildId, GuildState>, ws: seq<StoreWrite>, g: GuildId, u: UserId)
    requires Lookup(guilds, g).prisonRole.Some? && u in Lookup(guilds, g).prisonEntries
    requires forall k :: 0 <= k < |ws| ==> !Ends(ws[k], g, u)
    ensures var st := Lookup(CommitAll(guilds, ws), g); st.prisonRole.Some? && u in st.prisonEntries
    decreases |ws|
  {
    if ws != [] {
      CommitReads(guilds, ws[0], g);
      assert !Ends(ws[0], g, u);
      EntryOutlivesWrites(Commit(guilds, ws[0]), ws[1..], g, u);
    }
  }

  lemma {:induction false} AbsenceOutlivesWrites(guilds: map<GuildId, GuildState>, ws: seq<StoreWrite>, g: GuildId, u: UserId)
    requires u !in Lookup(guilds, g).prisonEntries
    requires forall k :: 0 <= k < |ws| ==> !Starts(ws[k], g, u)
    ensures u !in Lookup(CommitAll(guilds, ws), g).prisonEntries
    decreases |ws|
  {
    if ws != [] {
      CommitReads(guilds, ws[0], g);
      assert !Starts(ws[0], g, u);
      AbsenceOutlivesWrites(Commit(guilds, ws[0]), ws[1..], g, u);
    }
  }

  /**
   * An arrest with a prison role configured records the entry whatever the
   * platform answers; after any later handlers that neither release nor
   * clear, a join of that member re-applies the prison role then configured.
   */
  lemma ArrestThenRejoin(guilds: map<GuildId, GuildState>, g: GuildId, perms: Permissions, u: UserId,
                         memberOk: bool, roleOk: bool, later: seq<StoreWrite>, joinOk: bool)
    requires HasManageGuild(perms) && Lookup(guilds, g).prisonRole.Some?
    requires forall k :: 0 <= k < |later| ==> !Ends(later[k], g, u)
    ensures var after := CommitAll(Commit(guilds, ArrestDecision(guilds, Some(g), perms, u, memberOk, roleOk).write), later);
      var st := Lookup(after, g);
      st.prisonRole.Some? && JoinDecision(after, g, u, joinOk).effects == [AddRole(g, u, st.prisonRole.value)]
  {
    var arrested := Commit(guilds, ArrestDecision(guilds, Some(g), perms, u, memberOk, roleOk).write);
    CommitReads(guilds, Update(g, Imprison(u)), g);
    EntryOutlivesWrites(arrested, later, g, u);
  }

  /**
   * A release with a prison role configured removes the entry whatever the
   * platform answers; after any later handlers that do not arrest the member
   * again, a join of that member issues no platform call.
   */
  lemma ReleaseThenRejoin(guilds: map<GuildId, GuildState>, g: GuildId, perms: Permissions, u: UserId,
                          memberOk: bool, roleOk: bool, later: seq<StoreWrite>, joinOk: bool)
    requires HasManageGuild(perms) && Lookup(guilds, g).prisonRole.Some?
    requires forall k :: 0 <= k < |later| ==> !Starts(later[k], g, u)
    ensures var after := CommitAll(Commit(guilds, ReleaseDecision(guilds, Some(g), perms, u, memberOk, roleOk).write), later);
      JoinDecision(after, g, u, joinOk).effects == []
  {
    var released := Commit(guilds, ReleaseDecision(guilds, Some(g), perms, u, memberOk, roleOk).write);
    CommitReads(guilds, Update(g, Free(u)), g);
    AbsenceOutlivesWrites(released, later, g, u);
  }
}
