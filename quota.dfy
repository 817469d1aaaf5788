/** The per-user request quota: a remaining-requests counter with a lazy
    reset once the window has passed since the last counted request. */
module Quota {
  import opened Records
  import opened Config

  /** What `check_user_requests` reports: admins are unlimited. */
  datatype Remaining = Unlimited | Count(n: int)

  /** Exhausted exactly when the reported count is at most zero. */
  predicate Exhausted(r: Remaining) {
    r.Count? && r.n <= 0
  }

  /** The remaining requests of `userId` at time `now`, read from the
      quota documents without changing them. */
  function CheckUserRequests(admins: seq<int>, quotas: map<int, QuotaRecord>, userId: int, now: int): (r: Remaining)
    ensures r.Unlimited? <==> userId in admins
    ensures r.Count? ==>
              r.n == DAILY_REQUEST_LIMIT
              || (userId in quotas && quotas[userId].remaining == Some(r.n))
  {
    if userId in admins then Unlimited
    else if userId !in quotas then Count(DAILY_REQUEST_LIMIT)
    else
      var record := quotas[userId];
      if record.lastRequestTime.None? then Count(DAILY_REQUEST_LIMIT)
      else if now - record.lastRequestTime.value > REQUEST_RESET then Count(DAILY_REQUEST_LIMIT)
      else Count(record.remaining.GetOr(DAILY_REQUEST_LIMIT))
  }

  /** `update_user_requests`: admins pass without a trace; anyone else
      passes only with a positive remaining count, and then the document
      is upserted with the request time and the count less one. */
  function Consume(admins: seq<int>, quotas: map<int, QuotaRecord>, userId: int, now: int): (r: (bool, map<int, QuotaRecord>))
    ensures r.0 <==> !Exhausted(CheckUserRequests(admins, quotas, userId, now))
    ensures !r.0 || userId in admins ==> r.1 == quotas
    ensures r.1.Keys == quotas.Keys || r.1.Keys == quotas.Keys + {userId}
    ensures forall u :: u in quotas && u != userId ==> u in r.1 && r.1[u] == quotas[u]
  {
    if userId in admins then (true, quotas)
    else
      var current := CheckUserRequests(admins, quotas, userId, now).n;
      if current <= 0 then (false, quotas)
      else (true, quotas[userId := QuotaRecord(Some(now), Some(current - 1))])
  }

  /** Every stored counter lies between zero and the daily limit. */
  ghost predicate QuotasBounded(quotas: map<int, QuotaRecord>) {
    forall u :: u in quotas && quotas[u].remaining.Some? ==>
      0 <= quotas[u].remaining.value <= DAILY_REQUEST_LIMIT
  }

  /** A successful consumption by an ordinary user stores the time and a
      counter one below what was reported, never below zero. */
  lemma ConsumeRecords(admins: seq<int>, quotas: map<int, QuotaRecord>, userId: int, now: int)
    requires userId !in admins
    requires Consume(admins, quotas, userId, now).0
    ensures var (_, after) := Consume(admins, quotas, userId, now);
            var before := CheckUserRequests(admins, quotas, userId, now).n;
            userId in after && after[userId].lastRequestTime == Some(now)
            && after[userId].remaining == Some(before - 1)
            && before - 1 >= 0
  {
  }

  /** The counter never goes negative: consumption keeps every stored
      counter within [0, DAILY_REQUEST_LIMIT]. */
  lemma ConsumeKeepsBounded(admins: seq<int>, quotas: map<int, QuotaRecord>, userId: int, now: int)
    requires QuotasBounded(quotas)
    ensures QuotasBounded(Consume(admins, quotas, userId, now).1)
  {
    var after := Consume(admins, quotas, userId, now).1;
    forall u | u in after && after[u].remaining.Some?
      ensures 0 <= after[u].remaining.value <= DAILY_REQUEST_LIMIT
    {
      if u != userId || after == quotas {
      } else {
        var current := CheckUserRequests(admins, quotas, userId, now);
        assert after[u].remaining == Some(current.n - 1);
      }
    }
  }

  /** An ordinary user with no document, or none with a request time,
      has the full daily limit. */
  lemma FreshUserHasFullLimit(admins: seq<int>, quotas: map<int, QuotaRecord>, userId: int, now: int)
    requires userId !in admins
    requires userId !in quotas || quotas[userId].lastRequestTime.None?
    ensures CheckUserRequests(admins, quotas, userId, now) == Count(DAILY_REQUEST_LIMIT)
  {
  }

  /** Once more than the reset window has passed since the last counted
      request, the full limit is reported again, whatever was stored, and
      a consumption succeeds. */
  lemma ResetAfterWindow(admins: seq<int>, quotas: map<int, QuotaRecord>, userId: int, last: int, now: int)
    requires userId !in admins
    requires userId in quotas && quotas[userId].lastRequestTime == Some(last)
    requires now > last + REQUEST_RESET
    ensures CheckUserRequests(admins, quotas, userId, now) == Count(DAILY_REQUEST_LIMIT)
    ensures var (ok, after) := Consume(admins, quotas, userId, now);
            ok && after == quotas[userId := QuotaRecord(Some(now), Some(DAILY_REQUEST_LIMIT - 1))]
  {
  }

  /** Inside the window, the stored counter is reported, or the limit when
      no counter was stored. */
  lemma WithinWindowReadsStored(admins: seq<int>, quotas: map<int, QuotaRecord>, userId: int, last: int, now: int)
    requires userId !in admins
    requires userId in quotas && quotas[userId].lastRequestTime == Some(last)
    requires now <= last + REQUEST_RESET
    ensures CheckUserRequests(admins, quotas, userId, now)
            == Count(quotas[userId].remaining.GetOr(DAILY_REQUEST_LIMIT))
  {
  }

  /** Admins are reported unlimited and consume without any change. */
  lemma AdminUnlimited(admins: seq<int>, quotas: map<int, QuotaRecord>, userId: int, now: int)
    requires userId in admins
    ensures CheckUserRequests(admins, quotas, userId, now) == Unlimited
    ensures Consume(admins, quotas, userId, now) == (true, quotas)
  {
  }

  /** With a daily limit of one, a second consumption by the same ordinary
      user inside the reset window fails and changes nothing, even when the
      clock has gone backwards in between. */
  lemma SecondConsumeInWindowFails(admins: seq<int>, quotas: map<int, QuotaRecord>, userId: int, t1: int, t2: int)
    requires userId !in admins
    requires QuotasBounded(quotas)
    requires Consume(admins, quotas, userId, t1).0
    requires t2 <= t1 + REQUEST_RESET
    ensures var after := Consume(admins, quotas, userId, t1).1;
            Consume(admins, after, userId, t2) == (false, after)
  {
    var after := Consume(admins, quotas, userId, t1).1;
    var before := CheckUserRequests(admins, quotas, userId, t1);
    assert before.n <= DAILY_REQUEST_LIMIT;
    assert after[userId] == QuotaRecord(Some(t1), Some(before.n - 1));
    assert CheckUserRequests(admins, after, userId, t2) == Count(0);
  }
}
