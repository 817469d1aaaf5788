/** Privilege resolution over the profile documents: VIP status, the VIP
    grant and the "last used" bookkeeping. */
module Privilege {
  import opened Records
  import opened Config

  /** A user is VIP while a stored expiry lies strictly in the future. */
  predicate IsVip(profiles: map<int, Profile>, userId: int, now: int) {
    userId in profiles && profiles[userId].vipExpires.Some? && now < profiles[userId].vipExpires.value
  }

  /** Neither on the admin allow-list nor VIP: subject to quota and verification. */
  predicate IsOrdinary(cfg: Config, profiles: map<int, Profile>, userId: int, now: int) {
    !IsAdmin(cfg, userId) && !IsVip(profiles, userId, now)
  }

  /** The stored VIP expiry of a user, if any. */
  function VipExpiry(profiles: map<int, Profile>, userId: int): Option<int> {
    if userId in profiles then profiles[userId].vipExpires else None
  }

  /** Upsert of `vip_expires = now + days` into the target's profile,
      keeping its other fields. */
  function GrantVip(profiles: map<int, Profile>, target: int, days: int, now: int): (r: map<int, Profile>)
    ensures r.Keys == profiles.Keys + {target}
    ensures VipExpiry(r, target) == Some(now + days * SECONDS_PER_DAY)
    ensures target in profiles ==> r[target].lastUsed == profiles[target].lastUsed
    ensures target !in profiles ==> r[target].lastUsed.None?
    ensures forall u :: u in profiles && u != target ==> r[u] == profiles[u]
  {
    var expiry := Some(now + days * SECONDS_PER_DAY);
    if target in profiles then profiles[target := profiles[target].(vipExpires := expiry)]
    else profiles[target := Profile(expiry, None)]
  }

  /** Upsert of `last_used = now` into a user's profile, keeping its VIP expiry. */
  function TouchLastUsed(profiles: map<int, Profile>, userId: int, now: int): (r: map<int, Profile>)
    ensures r.Keys == profiles.Keys + {userId}
    ensures r[userId].lastUsed == Some(now)
    ensures forall u :: VipExpiry(r, u) == VipExpiry(profiles, u)
    ensures forall u :: u in profiles && u != userId ==> r[u] == profiles[u]
  {
    if userId in profiles then profiles[userId := profiles[userId].(lastUsed := Some(now))]
    else profiles[userId := Profile(None, Some(now))]
  }

  /** After a grant of `days` days at `now`, the target is VIP exactly at
      the times before `now + days` days; nobody else's status changes. */
  lemma GrantVipThenIsVip(profiles: map<int, Profile>, target: int, days: int, now: int, t: int)
    ensures IsVip(GrantVip(profiles, target, days, now), target, t) <==> t < now + days * SECONDS_PER_DAY
    ensures forall u :: u != target ==> (IsVip(GrantVip(profiles, target, days, now), u, t) <==> IsVip(profiles, u, t))
  {
  }

  /** VIP status only depends on the stored expiry, so touching
      `last_used` never changes anyone's status. */
  lemma TouchKeepsVip(profiles: map<int, Profile>, userId: int, now: int, u: int, t: int)
    ensures IsVip(TouchLastUsed(profiles, userId, now), u, t) <==> IsVip(profiles, u, t)
  {
    var r := TouchLastUsed(profiles, userId, now);
    assert VipExpiry(r, u) == VipExpiry(profiles, u);
  }
}
