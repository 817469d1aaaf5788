/** How the bot reads the like API's answer. The call itself is not
    modelled: its outcome is an input. */
module LikeApi {
  import opened Records

  /** Status 1 is success, showing each reported field as given and
      "Unknown" or "0" only for a missing key; status 2 means the
      account's likes are used up; any other status is an API error; an
      exception is an API error carrying the account id and the
      exception's message. */
  function Classify(uid: string, outcome: ApiOutcome, now: int): (r: LikeResult)
    ensures r.Liked? <==> outcome.Response? && outcome.status == Some(1)
    ensures r == MaxLikesReached <==> outcome.Response? && outcome.status == Some(2)
    ensures r == ApiRejected <==> outcome.Response? && outcome.status != Some(1) && outcome.status != Some(2)
    ensures r.ApiFailed? <==> outcome.Raised?
    ensures r.Liked? ==> r == Liked(outcome.nickname.GetOr("Unknown"), uid, outcome.likesBefore.GetOr("0"),
                                     outcome.likesAdded.GetOr("0"), outcome.likesAfter.GetOr("0"), now)
    ensures r.ApiFailed? ==> r == ApiFailed(uid, outcome.error)
  {
    match outcome
    case Raised(e) => ApiFailed(uid, e)
    case Response(status, nickname, before, after, added) =>
      if status == Some(1) then Liked(nickname.GetOr("Unknown"), uid, before.GetOr("0"), added.GetOr("0"), after.GetOr("0"), now)
      else if status == Some(2) then MaxLikesReached
      else ApiRejected
  }

  /** Only a success leads to the `last_used` upsert. */
  predicate RecordsUse(r: LikeResult) {
    r.Liked?
  }

  /** The four outcomes are told apart by the status alone: two outcomes
      with the same status (and no exception) give the same kind of
      result, and only status 1 records a use. */
  lemma ClassifyByStatus(uid: string, a: ApiOutcome, b: ApiOutcome, t1: int, t2: int)
    requires a.Response? && b.Response? && a.status == b.status
    ensures Classify(uid, a, t1).Liked? == Classify(uid, b, t2).Liked?
    ensures a.status != Some(1) ==> Classify(uid, a, t1) == Classify(uid, b, t2)
    ensures RecordsUse(Classify(uid, a, t1)) <==> a.status == Some(1)
  {
  }
}
