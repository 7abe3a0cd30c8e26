/** `getTierForUser`: the caller's tier from the `profiles` table, falling
    back to 'free' whenever the lookup fails or the row has no tier. */
module Tiers {
  import opened Common

  /** Result of `.from('profiles').select('tier').eq('id', userId).single()`:
      an error (also when no row or several rows match), or the row's `tier`. */
  datatype Lookup = LookupError | Row(tier: Option<string>)

  /** The declared tier names; the stored value is cast to them without a check. */
  predicate DeclaredTier(t: string) {
    t == "free" || t == "standard" || t == "pro"
  }

  function GetTierForUser(l: Lookup): (t: string)
    ensures t != ""
    ensures l.LookupError? ==> t == "free"
    ensures l.Row? && !Truthy(l.tier) ==> t == "free"
    ensures l.Row? && Truthy(l.tier) ==> t == l.tier.value
    ensures t == "free" || l.Row?
  {
    if l.LookupError? || !Truthy(l.tier) then "free" else l.tier.value
  }

  /** The cast is unchecked: a stored name outside the declared ones comes back as is. */
  lemma UncheckedCast(name: string)
    requires name != "" && !DeclaredTier(name)
    ensures !DeclaredTier(GetTierForUser(Row(Some(name))))
  {
  }

  /** Whenever the store does hold one of the declared names, or fails, the result is declared. */
  lemma DeclaredWhenStoredDeclared(l: Lookup)
    requires l.Row? && l.tier.Some? ==> l.tier.value == "" || DeclaredTier(l.tier.value)
    ensures DeclaredTier(GetTierForUser(l))
  {
  }
}
