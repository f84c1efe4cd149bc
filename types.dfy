/**
 * The values the court bot works with: platform identifiers, the per-guild
 * state record with its lawsuits and court rooms, the store operations, the
 * effects the handlers produce and the replies they send.
 */
module Types {

  datatype Option<+T> = None | Some(value: T)

  datatype Result<+R, +E> = Success(value: R) | Failure(error: E)

  /** Discord snowflakes (64-bit ids); the model does not need their width. */
  type GuildId = nat
  type UserId = nat
  type ChannelId = nat
  type RoleId = nat
  /** The lawsuit's Uuid, drawn by the caller. */
  type LawsuitId = nat

  /** The placeholder court room of a lawsuit whose room does not exist yet. */
  const NoRoom: ChannelId := 0

  datatype Lawsuit = Lawsuit(
    id: LawsuitId,
    plaintiff: UserId,
    accused: UserId,
    judge: UserId,
    plaintiffLawyer: Option<UserId>,
    accusedLawyer: Option<UserId>,
    reason: string,
    verdict: Option<string>,
    courtRoom: ChannelId)

  datatype CourtRoom = CourtRoom(channelId: ChannelId)

  /** The persisted record of one guild. */
  datatype GuildState = GuildState(
    courtCategory: Option<ChannelId>,
    prisonRole: Option<RoleId>,
    courtRooms: seq<CourtRoom>,
    lawsuits: seq<Lawsuit>,
    prisonEntries: set<UserId>)

  /** The writes the handlers make to one guild's record. */
  datatype GuildOp =
    | SetCategory(category: ChannelId)      // set_court_category
    | SetPrisonRole(role: RoleId)           // set_prison_role
    | Imprison(user: UserId)                // add_to_prison
    | Free(user: UserId)                    // remove_from_prison
    | Open(lawsuit: Lawsuit, room: ChannelId) // lawsuit and its new room stored
    | Close(room: ChannelId, verdict: string) // verdict stored on the active lawsuit
    | Delete                                // delete_guild

  /** Replies shown to the invoking member (the localized texts are not modelled). */
  datatype Reply =
    | NoPermissions         // Response::NoPermissions
    | NotImplemented        // any command other than "lawsuit" on the interaction path
    | InternalError         // an error came back from the command handler
    | NotACategory          // set_category on a channel that is not a category
    | CategorySet           // set_category stored the category
    | NoActiveProcess       // close: no active lawsuit or no court room in this channel
    | VerdictRecorded       // close succeeded
    | Cleared               // clear deleted the guild record
    | NoCourtCategory       // create before a court category is configured
    | LawsuitCreated(id: LawsuitId, room: ChannelId)
    | OnlyJudge             // close by someone who is neither the judge nor a manager
    | RoleSet               // prison set_role stored the role
    | NeedRole              // arrest/release before a prison role is configured
    | Released              // release completed both steps

  /** Errors that end a handler early (each `?` and `wrap_err` in the source). */
  datatype Failure =
    | NoSubcommand
    | NoGuild
    | NoMember
    | NoPermissionsData
    | BadOption(name: string)
    | UnknownSubcommand
    | ChannelFetchFailed
    | RoomCreationFailed
    | MemberFetchFailed
    | AddRoleFailed
    | RemoveRoleFailed
    | MissingPermissions    // refused by the framework's required_permissions check

  type Status = Result<(), Failure>

  /** What the handlers do to the outside world, in order: store writes and platform calls. */
  datatype Effect =
    | Write(guild: GuildId, op: GuildOp)
    | RoomRequested(guild: GuildId, category: ChannelId, members: set<UserId>)
    | AddRole(guild: GuildId, user: UserId, role: RoleId)
    | RemoveRole(guild: GuildId, user: UserId, role: RoleId)
    | Said(guild: GuildId, reply: Reply)

  /** Discord permission bits as delivered with an interaction. */
  type Permissions = bv64

  datatype OptionValue =
    | UserValue(user: UserId)
    | StringValue(text: string)
    | ChannelValue(channel: ChannelId)
    | RoleValue(role: RoleId)

  datatype CommandOption = CommandOption(name: string, value: OptionValue)

  datatype Subcommand = Subcommand(name: string, options: seq<CommandOption>)

  datatype Member = Member(user: UserId, permissions: Option<Permissions>)

  /** An application-command interaction as the platform delivers it. */
  datatype Interaction = Interaction(
    name: string,
    guild: Option<GuildId>,
    channel: ChannelId,
    member: Option<Member>,
    subcommands: seq<Subcommand>)

  datatype ChannelKind = Category | OtherChannel

  /** Answers of the platform and of the environment to one command. */
  datatype Platform = Platform(
    freshId: LawsuitId,               // Uuid::new()
    newRoom: Option<ChannelId>,       // room creation: its id, or None when it failed
    fetchedChannel: Option<ChannelKind>) // to_channel: its kind, or None when the fetch failed
}
