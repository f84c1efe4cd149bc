/**
 * Reading a lawsuit command: the checks before the subcommand runs, the
 * MANAGE_GUILD permission test, the option accessors and the construction
 * of a new lawsuit record from the create options.
 */
module Command {
  import opened Types

  /** Bit 5 of Discord's permission set. */
  const ManageGuildBit: Permissions := 0x20

  /** `permissions.contains(Permissions::MANAGE_GUILD)`. */
  function HasManageGuild(p: Permissions): (b: bool)
    ensures b <==> (p >> 5) & 1 == 1
  {
    p & ManageGuildBit == ManageGuildBit
  }

  /** What the handler has in hand once the interaction passed its first checks. */
  datatype Request = Request(
    guild: GuildId,
    actor: UserId,
    permissions: Permissions,
    channel: ChannelId,
    sub: Subcommand)

  /**
   * The checks that precede the subcommand, in their order: a subcommand, a
   * guild, an invoking member, and that member's permissions must be present.
   */
  function ParseRequest(cmd: Interaction): (r: Result<Request, Failure>)
    ensures r.Success? <==>
      |cmd.subcommands| > 0 && cmd.guild.Some? && cmd.member.Some? && cmd.member.value.permissions.Some?
    ensures r.Success? ==>
      r.value.sub == cmd.subcommands[0] && r.value.channel == cmd.channel &&
      Some(r.value.guild) == cmd.guild && r.value.actor == cmd.member.value.user &&
      Some(r.value.permissions) == cmd.member.value.permissions
    ensures r.Failure? && |cmd.subcommands| == 0 ==> r.error == NoSubcommand
  {
    if |cmd.subcommands| == 0 then Failure(NoSubcommand)
    else if cmd.guild.None? then Failure(NoGuild)
    else if cmd.member.None? then Failure(NoMember)
    else if cmd.member.value.permissions.None? then Failure(NoPermissionsData)
    else Success(Request(cmd.guild.value, cmd.member.value.user, cmd.member.value.permissions.value,
                         cmd.channel, cmd.subcommands[0]))
  }

  // Positional accessors: the option at index i, of the expected kind.

  function UserAt(opts: seq<CommandOption>, i: nat): Option<UserId> {
    if i < |opts| && opts[i].value.UserValue? then Some(opts[i].value.user) else None
  }

  function StringAt(opts: seq<CommandOption>, i: nat): Option<string> {
    if i < |opts| && opts[i].value.StringValue? then Some(opts[i].value.text) else None
  }

  function ChannelAt(opts: seq<CommandOption>, i: nat): Option<ChannelId> {
    if i < |opts| && opts[i].value.ChannelValue? then Some(opts[i].value.channel) else None
  }

  /** An optional user option at index i: absent is None, another kind is an error. */
  function OptionalUserAt(opts: seq<CommandOption>, i: nat): Option<Option<UserId>> {
    if i >= |opts| then Some(None)
    else if opts[i].value.UserValue? then Some(Some(opts[i].value.user))
    else None
  }

  /**
   * The create record as handler.rs builds it: every option is taken by its
   * position, the lawyers from positions 4 and 5. The failure names are the
   * source's error contexts.
   */
  function BuildLawsuitPositional(opts: seq<CommandOption>, id: LawsuitId): (r: Result<Lawsuit, Failure>)
    ensures r.Success? ==> r.value.verdict.None? && r.value.courtRoom == NoRoom && r.value.id == id
    ensures r.Success? ==>
      Some(r.value.plaintiff) == UserAt(opts, 0) && Some(r.value.accused) == UserAt(opts, 1) &&
      Some(r.value.judge) == UserAt(opts, 2) && Some(r.value.reason) == StringAt(opts, 3) &&
      Some(r.value.plaintiffLawyer) == OptionalUserAt(opts, 4) &&
      Some(r.value.accusedLawyer) == OptionalUserAt(opts, 5)
    ensures r.Failure? <==>
      UserAt(opts, 0).None? || UserAt(opts, 1).None? || UserAt(opts, 2).None? ||
      StringAt(opts, 3).None? || OptionalUserAt(opts, 4).None? || OptionalUserAt(opts, 5).None?
  {
    if UserAt(opts, 0).None? then Failure(BadOption("plaintiff"))
    else if UserAt(opts, 1).None? then Failure(BadOption("accused"))
    else if UserAt(opts, 2).None? then Failure(BadOption("judge"))
    else if StringAt(opts, 3).None? then Failure(BadOption("reason"))
    else if OptionalUserAt(opts, 4).None? then Failure(BadOption("plaintiff_layer"))
    else if OptionalUserAt(opts, 5).None? then Failure(BadOption("accused_layer"))
    else Success(Lawsuit(id, UserAt(opts, 0).value, UserAt(opts, 1).value, UserAt(opts, 2).value,
                         OptionalUserAt(opts, 4).value, OptionalUserAt(opts, 5).value,
                         StringAt(opts, 3).value, None, NoRoom))
  }

  // Accessors by option name, as the command declares its options.

  /** The index of the first option called `name`. */
  function FindNamed(opts: seq<CommandOption>, name: string): (r: Option<nat>)
    ensures r.Some? ==> r.value < |opts| && opts[r.value].name == name
    ensures r.Some? ==> forall j :: 0 <= j < r.value ==> opts[j].name != name
    ensures r.None? <==> forall j :: 0 <= j < |opts| ==> opts[j].name != name
  {
    if |opts| == 0 then None
    else if opts[0].name == name then Some(0)
    else match FindNamed(opts[1..], name)
      case None => None
      case Some(k) => Some(k + 1)
  }

  /** The first option called `name` is the one FindNamed reports. */
  lemma FindNamedIs(opts: seq<CommandOption>, name: string, k: nat)
    requires k < |opts| && opts[k].name == name
    requires forall j :: 0 <= j < k ==> opts[j].name != name
    ensures FindNamed(opts, name) == Some(k)
  {
  }

  /** True when the option called `name` was supplied. */
  predicate Supplied(opts: seq<CommandOption>, name: string) {
    FindNamed(opts, name).Some?
  }

  /** The value of the option called `name`, which must be supplied. */
  function ValueOf(opts: seq<CommandOption>, name: string): OptionValue
    requires Supplied(opts, name)
  {
    opts[FindNamed(opts, name).value].value
  }

  function RequiredUser(opts: seq<CommandOption>, name: string): Option<UserId> {
    if Supplied(opts, name) && ValueOf(opts, name).UserValue? then Some(ValueOf(opts, name).user) else None
  }

  function RequiredString(opts: seq<CommandOption>, name: string): Option<string> {
    if Supplied(opts, name) && ValueOf(opts, name).StringValue? then Some(ValueOf(opts, name).text) else None
  }

  /** Absent is None; present must be a user. */
  function OptionalUser(opts: seq<CommandOption>, name: string): Option<Option<UserId>> {
    if !Supplied(opts, name) then Some(None)
    else if ValueOf(opts, name).UserValue? then Some(Some(ValueOf(opts, name).user))
    else None
  }

  /**
   * The new lawsuit record of create: no verdict, the placeholder court room,
   * and every party read from the option of its own name. A lawyer is present
   * exactly when the option for that lawyer was supplied.
   */
  function BuildLawsuit(opts: seq<CommandOption>, id: LawsuitId): (r: Result<Lawsuit, Failure>)
    ensures r.Success? ==> r.value.id == id && r.value.verdict.None? && r.value.courtRoom == NoRoom
    ensures r.Success? ==>
      Supplied(opts, "plaintiff") && ValueOf(opts, "plaintiff") == UserValue(r.value.plaintiff) &&
      Supplied(opts, "accused") && ValueOf(opts, "accused") == UserValue(r.value.accused) &&
      Supplied(opts, "judge") && ValueOf(opts, "judge") == UserValue(r.value.judge) &&
      Supplied(opts, "reason") && ValueOf(opts, "reason") == StringValue(r.value.reason)
    ensures r.Success? ==>
      (r.value.plaintiffLawyer.Some? <==> Supplied(opts, "plaintiff_lawyer")) &&
      (r.value.plaintiffLawyer.Some? ==> ValueOf(opts, "plaintiff_lawyer") == UserValue(r.value.plaintiffLawyer.value)) &&
      (r.value.accusedLawyer.Some? <==> Supplied(opts, "accused_lawyer")) &&
      (r.value.accusedLawyer.Some? ==> ValueOf(opts, "accused_lawyer") == UserValue(r.value.accusedLawyer.value))
    ensures r.Failure? <==>
      RequiredUser(opts, "plaintiff").None? || RequiredUser(opts, "accused").None? ||
      RequiredUser(opts, "judge").None? || RequiredString(opts, "reason").None? ||
      OptionalUser(opts, "plaintiff_lawyer").None? || OptionalUser(opts, "accused_lawyer").None?
  {
    var plaintiff := RequiredUser(opts, "plaintiff");
    var accused := RequiredUser(opts, "accused");
    var judge := RequiredUser(opts, "judge");
    var reason := RequiredString(opts, "reason");
    var plaintiffLawyer := OptionalUser(opts, "plaintiff_lawyer");
    var accusedLawyer := OptionalUser(opts, "accused_lawyer");
    if plaintiff.None? then Failure(BadOption("plaintiff"))
    else if accused.None? then Failure(BadOption("accused"))
    else if judge.None? then Failure(BadOption("judge"))
    else if reason.None? then Failure(BadOption("reason"))
    else if plaintiffLawyer.None? then Failure(BadOption("plaintiff_lawyer"))
    else if accusedLawyer.None? then Failure(BadOption("accused_lawyer"))
    else Success(Lawsuit(id, plaintiff.value, accused.value, judge.value,
                         plaintiffLawyer.value, accusedLawyer.value, reason.value, None, NoRoom))
  }

  /** The create options when only the accused's lawyer `x` is named. */
  function OnlyAccusedLawyer(p: UserId, a: UserId, j: UserId, reason: string, x: UserId): seq<CommandOption> {
    [CommandOption("plaintiff", UserValue(p)), CommandOption("accused", UserValue(a)),
     CommandOption("judge", UserValue(j)), CommandOption("reason", StringValue(reason)),
     CommandOption("accused_lawyer", UserValue(x))]
  }

  lemma OnlyAccusedLawyerNames(p: UserId, a: UserId, j: UserId, reason: string, x: UserId)
    ensures var opts := OnlyAccusedLawyer(p, a, j, reason, x);
      FindNamed(opts, "plaintiff") == Some(0) && FindNamed(opts, "accused") == Some(1) &&
      FindNamed(opts, "judge") == Some(2) && FindNamed(opts, "reason") == Some(3) &&
      FindNamed(opts, "accused_lawyer") == Some(4)
  {
    var opts := OnlyAccusedLawyer(p, a, j, reason, x);
    FindNamedIs(opts, "plaintiff", 0);
    FindNamedIs(opts, "accused", 1);
    FindNamedIs(opts, "judge", 2);
    FindNamedIs(opts, "reason", 3);
    FindNamedIs(opts, "accused_lawyer", 4);
  }

  lemma NoPlaintiffLawyer(p: UserId, a: UserId, j: UserId, reason: string, x: UserId)
    ensures FindNamed(OnlyAccusedLawyer(p, a, j, reason, x), "plaintiff_lawyer").None?
  {
    var opts := OnlyAccusedLawyer(p, a, j, reason, x);
    forall k | 0 <= k < |opts| ensures opts[k].name != "plaintiff_lawyer" {
      assert |opts[k].name| != |"plaintiff_lawyer"|;
    }
  }

  lemma ByNameKeepsAccusedLawyer(p: UserId, a: UserId, j: UserId, reason: string, x: UserId, id: LawsuitId)
    ensures var byName := BuildLawsuit(OnlyAccusedLawyer(p, a, j, reason, x), id);
      byName.Success? && byName.value.plaintiffLawyer.None? && byName.value.accusedLawyer == Some(x)
  {
    var opts := OnlyAccusedLawyer(p, a, j, reason, x);
    OnlyAccusedLawyerNames(p, a, j, reason, x);
    NoPlaintiffLawyer(p, a, j, reason, x);
    assert RequiredUser(opts, "plaintiff") == Some(p);
    assert RequiredUser(opts, "accused") == Some(a);
    assert RequiredUser(opts, "judge") == Some(j);
    assert RequiredString(opts, "reason") == Some(reason);
    assert OptionalUser(opts, "plaintiff_lawyer") == Some(None);
    assert OptionalUser(opts, "accused_lawyer") == Some(Some(x));
  }

  lemma PositionalTakesAccusedLawyer(p: UserId, a: UserId, j: UserId, reason: string, x: UserId, id: LawsuitId)
    ensures var asWritten := BuildLawsuitPositional(OnlyAccusedLawyer(p, a, j, reason, x), id);
      asWritten.Success? && asWritten.value.plaintiffLawyer == Some(x) && asWritten.value.accusedLawyer.None?
  {
    var opts := OnlyAccusedLawyer(p, a, j, reason, x);
    assert |opts| == 5 && opts[4].value == UserValue(x);
    assert UserAt(opts, 0) == Some(p) && UserAt(opts, 1) == Some(a) && UserAt(opts, 2) == Some(j);
    assert StringAt(opts, 3) == Some(reason);
    assert OptionalUserAt(opts, 4) == Some(Some(x)) && OptionalUserAt(opts, 5) == Some(None);
  }

  /**
   * The platform leaves out optional options that were not given. With only the
   * accused's lawyer supplied, that option sits at position 4, and the
   * positional reading records it as the plaintiff's lawyer; reading by name
   * records it as the accused's lawyer.
   */
  lemma PositionalReadingSwapsLawyer(p: UserId, a: UserId, j: UserId, reason: string, x: UserId, id: LawsuitId)
    ensures var opts := OnlyAccusedLawyer(p, a, j, reason, x);
      var asWritten := BuildLawsuitPositional(opts, id);
      var byName := BuildLawsuit(opts, id);
      asWritten.Success? && asWritten.value.plaintiffLawyer == Some(x) && asWritten.value.accusedLawyer.None? &&
      byName.Success? && byName.value.plaintiffLawyer.None? && byName.value.accusedLawyer == Some(x)
  {
    PositionalTakesAccusedLawyer(p, a, j, reason, x, id);
    ByNameKeepsAccusedLawyer(p, a, j, reason, x, id);
  }

  /** The option names of create, in the order the command declares them. */
  const DeclaredNames: seq<string> := ["plaintiff", "accused", "judge", "reason", "plaintiff_lawyer", "accused_lawyer"]

  /**
   * The options arrive in their declared order with no gap: the four required
   * ones, then possibly the plaintiff's lawyer, then possibly the accused's.
   */
  predicate InDeclaredOrder(opts: seq<CommandOption>) {
    4 <= |opts| <= 6 && forall k :: 0 <= k < |opts| ==> opts[k].name == DeclaredNames[k]
  }

  /** The declared names differ pairwise (they even differ in length). */
  lemma DeclaredNamesDistinct(j: nat, k: nat)
    requires j < k < |DeclaredNames|
    ensures DeclaredNames[j] != DeclaredNames[k]
  {
    assert |DeclaredNames[j]| != |DeclaredNames[k]|;
  }

  lemma {:induction false} NamedAt(opts: seq<CommandOption>, k: nat)
    requires InDeclaredOrder(opts) && k < |opts|
    ensures FindNamed(opts, DeclaredNames[k]) == Some(k)
  {
    forall j | 0 <= j < k ensures opts[j].name != DeclaredNames[k] {
      DeclaredNamesDistinct(j, k);
    }
    FindNamedIs(opts, DeclaredNames[k], k);
  }

  lemma {:induction false} NamedAbsent(opts: seq<CommandOption>, k: nat)
    requires InDeclaredOrder(opts) && |opts| <= k < |DeclaredNames|
    ensures FindNamed(opts, DeclaredNames[k]).None?
  {
    forall j | 0 <= j < |opts| ensures opts[j].name != DeclaredNames[k] {
      DeclaredNamesDistinct(j, k);
    }
  }

  /**
   * When the options arrive in their declared order with no gap, the
   * positional reading and the reading by name accept the same options and
   * build the same record: the two differ only when an optional option
   * before another one was left out.
   */
  lemma {:induction false} ReadingsAgreeInDeclaredOrder(opts: seq<CommandOption>, id: LawsuitId)
    requires InDeclaredOrder(opts)
    ensures BuildLawsuitPositional(opts, id).Success? <==> BuildLawsuit(opts, id).Success?
    ensures BuildLawsuitPositional(opts, id).Success? ==>
      BuildLawsuitPositional(opts, id).value == BuildLawsuit(opts, id).value
  {
    NamedAt(opts, 0);
    NamedAt(opts, 1);
    NamedAt(opts, 2);
    NamedAt(opts, 3);
    if |opts| > 4 { NamedAt(opts, 4); } else { NamedAbsent(opts, 4); }
    if |opts| > 5 { NamedAt(opts, 5); } else { NamedAbsent(opts, 5); }
    assert RequiredUser(opts, "plaintiff") == UserAt(opts, 0);
    assert RequiredUser(opts, "accused") == UserAt(opts, 1);
    assert RequiredUser(opts, "judge") == UserAt(opts, 2);
    assert RequiredString(opts, "reason") == StringAt(opts, 3);
    assert OptionalUser(opts, "plaintiff_lawyer") == OptionalUserAt(opts, 4);
    assert OptionalUser(opts, "accused_lawyer") == OptionalUserAt(opts, 5);
  }
}
