/**
 * The log of store writes and platform calls, read back: whether a prison
 * entry is on record after a prefix of the log, and the rule that a role is
 * granted only to a user whose entry is on record and revoked only from one
 * whose entry is gone.
 */
module Trace {
  import opened Types

  /** Whether the last prison write for (g, u) in `t` left an entry on record. */
  function EntryOn(t: seq<Effect>, g: GuildId, u: UserId): bool
    decreases |t|
  {
    if t == [] then false
    else
      var e := t[|t| - 1];
      if e.Write? && e.guild == g && (e.op == Imprison(u)) then true
      else if e.Write? && e.guild == g && (e.op == Free(u) || e.op.Delete?) then false
      else EntryOn(t[..|t| - 1], g, u)
  }

  /** The effect of one more log entry on EntryOn. */
  lemma EntryOnSnoc(t: seq<Effect>, e: Effect, g: GuildId, u: UserId)
    ensures EntryOn(t + [e], g, u) ==
      if e.Write? && e.guild == g && e.op == Imprison(u) then true
      else if e.Write? && e.guild == g && (e.op == Free(u) || e.op.Delete?) then false
      else EntryOn(t, g, u)
  {
    assert (t + [e])[..|t|] == t;
  }

  /** A grant needs the entry on record, a revocation needs it gone. */
  predicate Grounded(t: seq<Effect>, i: nat)
    requires i < |t|
  {
    (t[i].AddRole? ==> EntryOn(t[..i], t[i].guild, t[i].user)) &&
    (t[i].RemoveRole? ==> !EntryOn(t[..i], t[i].guild, t[i].user))
  }

  /** Every role call in the log follows the durable record. */
  predicate Justified(t: seq<Effect>) {
    forall i :: 0 <= i < |t| ==> Grounded(t, i)
  }

  lemma {:induction false} JustifiedSnoc(t: seq<Effect>, e: Effect)
    requires Justified(t)
    requires e.AddRole? ==> EntryOn(t, e.guild, e.user)
    requires e.RemoveRole? ==> !EntryOn(t, e.guild, e.user)
    ensures Justified(t + [e])
  {
    var t' := t + [e];
    forall i | 0 <= i < |t'| ensures Grounded(t', i) {
      if i < |t| {
        assert t'[..i] == t[..i];
        assert Grounded(t, i);
      } else {
        assert t'[..i] == t;
      }
    }
  }
}
