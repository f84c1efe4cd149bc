# Court bot: guild state, confinement and lawsuit handlers

This project models the decision layer of a Discord "court" bot (`src/handler.rs`). The bot keeps one record per guild. The record holds:

- the court category;
- the prison role;
- the court rooms;
- the lawsuits;
- the set of imprisoned members (prison entries).

The bot handles two workflows:

- **Confinement.** `/prison set_role`, `/prison arrest` and `/prison release` keep the prison entries and grant or revoke the prison role. When a member joins, the bot grants the prison role again if that member still has an entry, so confinement survives leaving and rejoining.
- **Lawsuits.** `/lawsuit create`, `set_category`, `close` and `clear` create a lawsuit record and its room, store the court category, store a verdict on the active lawsuit of the current channel, or delete the guild's whole record.

## Structure

- `types.dfy` (module `Types`): ids, `Lawsuit`, `CourtRoom`, `GuildState`, the store writes (`GuildOp`), the replies, the failures and the effects. An effect is a store write or a platform call.
- `guild.dfy` (module `Guild`): find-or-insert (`Lookup`), one write applied to a record (`ApplyOp`) or to the whole store (`Commit`). It also holds the two lookups of `close` and the invariant that a court room hosts at most one lawsuit without a verdict.
- `command.dfy` (module `Command`): the checks before a subcommand runs, the MANAGE_GUILD test and the option accessors. It also builds the new lawsuit record, both as written and corrected (see Findings).
- `decisions.dfy` (module `Decisions`): each handler's behaviour as a value. A decision says what the handler writes to the store, which effects it issues in which order, and what it returns.
- `handler.dfy` (module `Handler`): the class `Handler`. It owns the store (`guilds`) and the ghost log of effects (`trace`). The store and platform calls are methods of the class:
  - `GrantRole` may only be called while the member's prison entry is recorded.
  - `RevokeRole` may only be called once the entry is gone.
  - The class invariant says the log's prison writes agree with the store, and that every role call in the log follows the durable record.

  Each handler method is proved to do exactly what its decision says.
- `trace.dfy` (module `Trace`): reads the log back. It tells whether an entry is on record after a prefix of the log, and holds the "role calls follow the record" rule.
- `rules.dfy` (module `Rules`) and `durability.dfy` (module `Durability`): the workflow rules as lemmas about the decisions. Durability covers any later run of handlers: an arrest is reapplied on every rejoin until a release or a clear, and a release holds until the next arrest.

Platform answers are parameters: whether the member fetch, add-role or remove-role call succeeds, the id of a newly created room, the kind of a fetched channel, and the fresh lawsuit id (`Platform`, and the `memberOk`/`roleOk`/`addRoleOk` flags). The model does not act on the platform; it records each call it would make in `trace`.

Behaviour worth knowing, taken from the code:

- `/lawsuit close` needs no permission itself. MANAGE_GUILD only acts as the judge override.
- `close` does a find-or-insert first, so it creates a default record for an unknown guild.
- A successful arrest sends no reply. A successful release replies only after both the entry removal and the role removal succeeded.
- `handle_interaction` dispatches only `lawsuit`. Any other command name there gets the "not implemented" reply, because the prison commands arrive through the command framework instead.
- Release removes the prison entry before it revokes the role (src/handler.rs:567-577).

`LawsuitCtx::initialize` and `rule_verdict` are defined in `src/lawsuit.rs`, which is not part of this model. `Handler.Handler.Initialize` and `Handler.Handler.RuleVerdict` are modelled as follows:

- `Initialize`: a court category is required, otherwise the reply is `NoCourtCategory`. The room is requested for exactly the parties. The lawsuit and its room are stored only after the room exists.
- `RuleVerdict`: only the judge, or a member with MANAGE_GUILD, may store the verdict. Anyone else gets `OnlyJudge`.

## Model

Each handler method below is proved to do exactly what its function in `decisions.dfy` (`JoinDecision`, `SetRoleDecision`, `ArrestDecision`, `ReleaseDecision`, `InitializeDecision`, `RuleVerdictDecision`, `LawsuitDecision` with `CreateDecision`, `SetCategoryDecision`, `CloseDecision` and `ClearDecision`, and `InteractionDecision`) says, so each method row covers its decision function too.

| member | source | states |
|---|---|---|
| `Guild.Lookup` | src/handler.rs:247 | a guild the store has never seen reads as a record with no category, no prison role, no court rooms, no lawsuits and no prison entries |
| `Guild.FindActive` | src/handler.rs:400-403 | the close lookup returns the FIRST lawsuit in the channel without a verdict, and None exactly when no lawsuit in the channel is without a verdict |
| `Guild.FindRoom` | src/handler.rs:414-417 | the court-room lookup returns the first record for the channel, and None exactly when there is no record for it |
| `Guild.CommitReads` | src/handler.rs:247 | after a handler's store write, the written guild reads as the old record with the write applied; a bare find-or-insert changes nothing readable; other guilds read as before |
| `Guild.ClearYieldsDefault` | src/handler.rs:454 | after delete_guild the next find-or-insert yields the default record: no category, role, rooms, lawsuits or prison entries |
| `Guild.ApplyOpKeepsConsistent` | src/handler.rs:400-417 | every write the handlers make keeps at most one active lawsuit per room and a court-room record for every lawsuit's room (a new room must be unused) |
| `Guild.CloseLeavesNoActive` | src/handler.rs:400-403 | once a verdict is stored in a room, no lawsuit without a verdict remains in that room |
| `Guild.OpenedIsActive` | src/handler.rs:338-360 | a lawsuit stored with a new room is the active lawsuit the close lookup finds there, and the room has its record |
| `Guild.ActiveHasRoom` | src/handler.rs:414-425 | in a consistent record the room lookup cannot fail after the lawsuit lookup succeeded |
| `Command.HasManageGuild` | src/handler.rs:325 | the permission test holds exactly when bit 5 (MANAGE_GUILD) of the member's permissions is set |
| `Command.ParseRequest` | src/handler.rs:311-321 | the handler proceeds exactly when a subcommand, a guild, a member and the member's permissions are present, and then acts on the first subcommand |
| `Command.BuildLawsuitPositional` | src/handler.rs:329-348 | the record as written: the given id, no verdict, the placeholder room 0; plaintiff, accused, judge and reason from positions 0 to 3, the plaintiff's lawyer from position 4 and the accused's lawyer from position 5; it fails exactly when one of those positions is missing or of the wrong kind (an absent lawyer is not a failure) |
| `Command.ReadingsAgreeInDeclaredOrder` | src/handler.rs:329-336 | when the options arrive in their declared order with no gap, the positional reading and the reading by name accept the same options and build the same record |
| `Command.BuildLawsuit` | src/handler.rs:329-348 | the new record has the given id, no verdict and the placeholder room 0; plaintiff, accused, judge and reason come from their options; each lawyer is present exactly when its option was supplied; it fails exactly when a required option is missing or of the wrong kind |
| `Command.PositionalReadingSwapsLawyer` | src/handler.rs:333-336 | with only the accused's lawyer supplied, the positional reading records them as the plaintiff's lawyer, while reading by name records them as the accused's lawyer |
| `Handler.Handler.FindOrInsertState` | src/handler.rs:247 | returns the guild's record or the default one, inserting it, with nothing readable changed |
| `Handler.Handler.FindPrisonEntry` | src/handler.rs:252-256 | reports whether the member has a prison entry in the guild |
| `Handler.Handler.Persist` | src/handler.rs:525-527 | each store write (set category, set role, add/remove prison entry, delete guild, lawsuit writes) changes the store by exactly that write and is logged |
| `Handler.Handler.GrantRole` | src/handler.rs:260-263 | the add-role call is logged; it may only be made while the member's prison entry is recorded |
| `Handler.Handler.RevokeRole` | src/handler.rs:571-577 | the remove-role call is logged; it may only be made once the member's prison entry is removed |
| `Handler.Handler.RequestRoom` | src/handler.rs:357-360 | the room-creation call is logged with its category and members, and returns the platform's answer |
| `Handler.Handler.Say` | src/handler.rs:579 | a reply to the invoker is logged and nothing else changes |
| `Handler.Handler.MemberJoin` | src/handler.rs:240-268 | a join does find-or-insert, then calls add-role for the member exactly when a prison role is configured and the member has an entry, and fails only when that call fails |
| `Handler.Handler.PrisonSetRole` | src/handler.rs:470-496 | set_role, for a member with MANAGE_GUILD in a guild, stores the role and replies |
| `Handler.Handler.PrisonArrest` | src/handler.rs:498-537 | arrest does find-or-insert; with no role configured it only replies with guidance; otherwise it stores the entry, then (if the member is found) calls add-role; it replies nothing on success |
| `Handler.Handler.PrisonRelease` | src/handler.rs:539-582 | release does find-or-insert; with no role configured it only replies with guidance; otherwise it removes the entry, then (if the member is found) calls remove-role, then replies once both succeeded |
| `Handler.Handler.Initialize` | src/handler.rs:350-362 | with no court category it replies so and stores nothing; otherwise it requests the room for exactly the parties, and stores the lawsuit in that room only if the room was created |
| `Handler.Handler.RuleVerdict` | src/handler.rs:427-447 | the verdict is stored only when the actor is the judge or holds MANAGE_GUILD; otherwise the answer is OnlyJudge with nothing stored |
| `Handler.Handler.LawsuitCommand` | src/handler.rs:306-459 | the lawsuit command does what its decision says: parse checks, the MANAGE_GUILD gates, create (with the record read by option name, see Findings), set_category, close, clear, and an error for an unknown subcommand; the invariants hold after it |
| `Handler.Handler.HandleInteraction` | src/handler.rs:214-238 | only "lawsuit" is dispatched; an error of the command becomes the internal-error reply; any other name gets "not implemented" and changes nothing |
| `Durability.EntryOutlivesWrites` | src/handler.rs:251-263 | a recorded entry with a configured role survives every later store write except a release of that member or a clear of that guild |
| `Durability.AbsenceOutlivesWrites` | src/handler.rs:251-257 | a member without an entry stays without one through every later write except an arrest of that member |
| `Durability.ArrestThenRejoin` | src/handler.rs:525-535 | after an arrest with a role configured, whatever the platform answered, and any later handlers that neither release nor clear, a join re-applies the configured prison role |
| `Durability.ReleaseThenRejoin` | src/handler.rs:567-579 | after a release with a role configured, whatever the platform answered, and any later handlers that do not arrest again, a join issues no call |
| `Rules.JoinReappliesRoleExactly` | src/handler.rs:247-264 | a join issues at most one call, add-role for that member with the configured role, exactly when a role is configured and the member has an entry; it changes no record |
| `Rules.NoRoleChangesNothing` | src/handler.rs:514-523 | arrest and release without a configured role reply with the set-a-role guidance, call no role API and leave every record as it reads |
| `Rules.PrisonNeedsManageGuild` | src/handler.rs:499 | set_role, arrest and release are refused without MANAGE_GUILD, with no store access and no call |
| `Rules.ArrestRecordsBeforeRole` | src/handler.rs:525-535 | arrest's first effect is the entry write, every add-role comes after it, add-role is called iff the member was fetched, the entry stays whatever fails, and success means both steps succeeded |
| `Rules.ReleaseRemovesBeforeRevoke` | src/handler.rs:567-579 | release's first effect is the entry removal, every remove-role comes after it, the entry stays removed whatever fails, and the success reply is the last effect, sent iff both steps succeeded |
| `Rules.ManagerOnlySubcommands` | src/handler.rs:323-456 | create, set_category and clear without MANAGE_GUILD answer NoPermissions with no store access and no call |
| `Rules.CreateOpensActiveLawsuit` | src/handler.rs:338-362 | create requests the room for the parties before storing, and the stored lawsuit (the built record in the new room) is what the close lookup then finds |
| `Rules.CreateFailsWithoutStoring` | src/handler.rs:357-360 | without a court category, or when room creation fails, create changes no record |
| `Rules.CategoryOnlyFromCategories` | src/handler.rs:364-386 | set_category stores the channel only when it is a category; otherwise it answers NotACategory and touches nothing |
| `Rules.CloseSelectsFirstActive` | src/handler.rs:388-447 | with no active lawsuit or no room record, close answers NoActiveProcess and changes nothing; otherwise, when the actor is the judge or a manager, it writes the verdict once, onto the first active lawsuit of the channel alone, leaving the guild's other fields and every other guild as they read, and answers OnlyJudge with nothing changed when not |
| `Rules.SecondCloseFindsNothing` | src/handler.rs:395-412 | repeating a successful close in the same channel answers NoActiveProcess |
| `Rules.JudgeCanAlwaysClose` | src/handler.rs:414-447 | in a consistent record, the judge of the channel's active lawsuit always gets the verdict stored |
| `Rules.ClearIsTotal` | src/handler.rs:449-456 | after clear the guild reads as the default record, a join issues nothing, close finds nothing, and other guilds are untouched |

## Findings

| source | as written | input that shows it | evidently intended | confidence | as-written member | corrected member |
|---|---|---|---|---|---|---|
| src/handler.rs:333-336 | the two optional lawyers are read from positions 4 and 5 of the options | `/lawsuit create` with plaintiff, accused, judge, reason and only `accused_lawyer = X`: the platform omits the missing `plaintiff_lawyer`, so X sits at position 4 | X is recorded as the accused's lawyer, and the plaintiff has none | medium: not executed; the option accessors are defined outside handler.rs | `Command.BuildLawsuitPositional` | `Command.BuildLawsuit` |

`Command.PositionalReadingSwapsLawyer` exhibits the input. `Command.ReadingsAgreeInDeclaredOrder` shows that the two readings agree whenever no optional option before another one is left out. The handler's create path (`Handler.Handler.LawsuitCommand`) uses the corrected `Command.BuildLawsuit`, which reads every option by its declared name.

## Left out

- `slash_commands`, `ready`, the command-framework attributes and `send_response` are left out: they hold registration, UI metadata, reply formatting and HTTP. Replies are `Reply` tags instead of the localized texts.
- Persistence failures are left out. Every store call is assumed to succeed, so there is no persistence-unavailable error path.
- Failures when sending a reply (`ctx.say`, `send_response`) are left out.
- Concurrency is left out. The source reads and then acts with no per-guild lock, and the handlers are modelled one at a time.
- `Uuid::new()` is randomness. It becomes the `freshId` parameter.
- `src/lawsuit.rs` is not part of this model. `Initialize` and `RuleVerdict` are modelled as described above (category required, then the room is requested, then the lawsuit is stored; the judge-or-manager gate, then the verdict is stored). Anything else those functions do is left out, such as changing the room's permissions after a verdict.
- The option accessors (`UserOption`, `StringOption`, `ChannelOption`) are defined outside handler.rs. They are modelled as: the option at the index must have the expected kind; an optional option that is absent is None; an optional option of another kind is an error.
- The framework's MANAGE_GUILD check on the prison commands becomes a `MissingPermissions` failure with no reply. The framework's own error reply is not modelled.
- `src/mongo.rs` is not part of this model. Prison entries are kept inside the guild record, so clear deletes them too. They form a set per guild: adding an entry for a member who already has one changes nothing, and removing a member's entry removes every entry of that member. `Durability.ReleaseThenRejoin` rests on this.
- Handler.Handler.LawsuitCommand: create builds the lawsuit record with the corrected `Command.BuildLawsuit` (options read by name), not with the positional reading of src/handler.rs:329-336. When only the accused's lawyer is supplied, the model stores that lawyer as the accused's lawyer, while the code as written stores them as the plaintiff's (see Findings). When the options arrive in their declared order with no gap, the two accept the same options and build the same record (`Command.ReadingsAgreeInDeclaredOrder`).
- Handler.Handler.HandleInteraction: dispatches to `LawsuitCommand`, so its create path uses the same by-name record and differs from the code as written on the same input.
- Handler.Handler.LawsuitCommand: requires that a newly created court room's id is not used by any lawsuit of the guild. Discord channel ids are unique, so this always holds.
- Handler.Handler.HandleInteraction: carries the same requirement on a newly created room's id, for the same reason.
- Snowflake ids are unbounded `nat`s, not 64-bit values. No arithmetic is done on them.
