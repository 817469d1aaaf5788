/** One sweep of the job processor: every verified, unprocessed job is
    handled once, in store order, and marked processed whatever happens. */
module Processor {
  import opened Records
  import opened Config
  import opened Quota
  import opened Privilege
  import opened LikeApi

  /** A job after the sweep has seen it. */
  function Settled(job: Job): Job {
    if Pending(job) then job.(processed := true) else job
  }

  /** The body of the sweep's loop for the job at position `i`: an
      ordinary owner must pass the quota, or gets the limit message and
      the API is not called; otherwise the API answer is reported and a
      success upserts the owner's `last_used`. Either way the job ends up
      processed and one message goes to the job's chat. */
  function Step(cfg: Config, db: Db, i: nat, outcome: ApiOutcome, now: int): (r: Db)
    requires i < |db.jobs|
    ensures r.jobs == db.jobs[i := Settled(db.jobs[i])]
    ensures !Pending(db.jobs[i]) ==> r == db
    ensures Pending(db.jobs[i]) ==>
              && |r.outbox| == |db.outbox| + 1 && r.outbox[..|db.outbox|] == db.outbox
              && r.outbox[|db.outbox|].chatId == db.jobs[i].chatId
              && r.outbox[|db.outbox|].replyTo == db.jobs[i].messageId
    ensures forall u :: VipExpiry(r.profiles, u) == VipExpiry(db.profiles, u)
  {
    var job := db.jobs[i];
    if !Pending(job) then db
    else
      var (ok, quotas) :=
        if IsOrdinary(cfg, db.profiles, job.userId, now) then Consume(cfg.adminIds, db.quotas, job.userId, now)
        else (true, db.quotas);
      var jobs := db.jobs[i := job.(processed := true)];
      if !ok then
        Db(jobs, db.profiles, quotas, db.outbox + [Delivery(job.chatId, job.messageId, LimitExceeded)])
      else
        var result := Classify(job.uid, outcome, now);
        var profiles := if RecordsUse(result) then TouchLastUsed(db.profiles, job.userId, now) else db.profiles;
        Db(jobs, profiles, quotas, db.outbox + [Delivery(job.chatId, job.messageId, Outcome(result))])
  }

  /** The store after the loop has handled positions `0 .. n-1`; the API
      answer for position `k` is `outcomes[k]`. */
  function SweepUpTo(cfg: Config, db: Db, outcomes: seq<ApiOutcome>, now: int, n: nat): (r: Db)
    requires |outcomes| == |db.jobs| && n <= |db.jobs|
    ensures |r.jobs| == |db.jobs|
    decreases n
  {
    if n == 0 then db
    else Step(cfg, SweepUpTo(cfg, db, outcomes, now, n - 1), n - 1, outcomes[n - 1], now)
  }

  lemma {:induction false} SweepUpToJobs(cfg: Config, db: Db, outcomes: seq<ApiOutcome>, now: int, n: nat)
    requires |outcomes| == |db.jobs| && n <= |db.jobs|
    ensures forall j :: 0 <= j < |db.jobs| ==>
              SweepUpTo(cfg, db, outcomes, now, n).jobs[j] == if j < n then Settled(db.jobs[j]) else db.jobs[j]
  {
    if n > 0 {
      SweepUpToJobs(cfg, db, outcomes, now, n - 1);
    }
  }

  /** One full sweep over the jobs as they stand when it starts. Exactly
      the pending jobs become processed; every other field of every job,
      and every job that was not pending, is left as it was. */
  function Sweep(cfg: Config, db: Db, outcomes: seq<ApiOutcome>, now: int): (r: Db)
    requires |outcomes| == |db.jobs|
    ensures |r.jobs| == |db.jobs|
    ensures forall j :: 0 <= j < |db.jobs| ==> r.jobs[j] == Settled(db.jobs[j])
  {
    SweepUpToJobs(cfg, db, outcomes, now, |db.jobs|);
    SweepUpTo(cfg, db, outcomes, now, |db.jobs|)
  }

  /** After a sweep no job is pending, and no processed job is unverified
      unless it already was. */
  lemma SweepLeavesNothingPending(cfg: Config, db: Db, outcomes: seq<ApiOutcome>, now: int)
    requires |outcomes| == |db.jobs|
    ensures forall j :: 0 <= j < |db.jobs| ==> !Pending(Sweep(cfg, db, outcomes, now).jobs[j])
    ensures JobsConsistent(db.jobs) ==> JobsConsistent(Sweep(cfg, db, outcomes, now).jobs)
  {
  }

  lemma {:induction false} SweepUpToIdle(cfg: Config, db: Db, outcomes: seq<ApiOutcome>, now: int, n: nat)
    requires |outcomes| == |db.jobs| && n <= |db.jobs|
    requires forall j :: 0 <= j < |db.jobs| ==> !Pending(db.jobs[j])
    ensures SweepUpTo(cfg, db, outcomes, now, n) == db
  {
    if n > 0 {
      SweepUpToIdle(cfg, db, outcomes, now, n - 1);
    }
  }

  /** A job is processed at most once: a later sweep, at any time and with
      any API answers, selects nothing and changes nothing. */
  lemma SweepAgainChangesNothing(cfg: Config, db: Db, outcomes: seq<ApiOutcome>, now: int,
                                 later: seq<ApiOutcome>, t: int)
    requires |outcomes| == |db.jobs| && |later| == |db.jobs|
    ensures var r := Sweep(cfg, db, outcomes, now);
            Sweep(cfg, r, later, t) == r
  {
    var r := Sweep(cfg, db, outcomes, now);
    SweepLeavesNothingPending(cfg, db, outcomes, now);
    SweepUpToIdle(cfg, r, later, t, |r.jobs|);
  }

  /** Where each message went: its chat and the message it answers. */
  function Addresses(outbox: seq<Delivery>): (r: seq<(int, int)>)
    ensures |r| == |outbox|
  {
    if outbox == [] then []
    else Addresses(outbox[..|outbox| - 1]) + [(outbox[|outbox| - 1].chatId, outbox[|outbox| - 1].replyTo)]
  }

  /** The addresses of the pending jobs, in store order. */
  function PendingAddresses(jobs: seq<Job>): seq<(int, int)> {
    if jobs == [] then []
    else
      var last := jobs[|jobs| - 1];
      PendingAddresses(jobs[..|jobs| - 1]) + (if Pending(last) then [(last.chatId, last.messageId)] else [])
  }

  lemma {:induction false} SweepUpToDelivers(cfg: Config, db: Db, outcomes: seq<ApiOutcome>, now: int, n: nat)
    requires |outcomes| == |db.jobs| && n <= |db.jobs|
    ensures Addresses(SweepUpTo(cfg, db, outcomes, now, n).outbox) == Addresses(db.outbox) + PendingAddresses(db.jobs[..n])
  {
    if n > 0 {
      var before := SweepUpTo(cfg, db, outcomes, now, n - 1);
      SweepUpToDelivers(cfg, db, outcomes, now, n - 1);
      SweepUpToJobs(cfg, db, outcomes, now, n - 1);
      assert before.jobs[n - 1] == db.jobs[n - 1];
      assert db.jobs[..n][..n - 1] == db.jobs[..n - 1];
      var after := SweepUpTo(cfg, db, outcomes, now, n);
      if Pending(db.jobs[n - 1]) {
        assert after.outbox[..|after.outbox| - 1] == before.outbox;
      }
    }
  }

  /** Each pending job gets exactly one message, to its own chat and in
      reply to its own message, in store order; no other message is sent. */
  lemma SweepDeliversOncePerJob(cfg: Config, db: Db, outcomes: seq<ApiOutcome>, now: int)
    requires |outcomes| == |db.jobs|
    ensures Addresses(Sweep(cfg, db, outcomes, now).outbox) == Addresses(db.outbox) + PendingAddresses(db.jobs)
  {
    SweepUpToDelivers(cfg, db, outcomes, now, |db.jobs|);
    assert db.jobs[..|db.jobs|] == db.jobs;
  }

  /** A profile document, or none. */
  function ProfileOf(profiles: map<int, Profile>, u: int): Option<Profile> {
    if u in profiles then Some(profiles[u]) else None
  }

  /** Some job among the first `n` was pending, owned by `u`, and got API status 1. */
  ghost predicate SucceededFor(jobs: seq<Job>, outcomes: seq<ApiOutcome>, u: int, n: nat)
    requires n <= |jobs| && |outcomes| == |jobs|
  {
    exists j :: 0 <= j < n && Pending(jobs[j]) && jobs[j].userId == u
                && outcomes[j].Response? && outcomes[j].status == Some(1)
  }

  lemma SucceededForGrows(jobs: seq<Job>, outcomes: seq<ApiOutcome>, u: int, m: nat, n: nat)
    requires m <= n <= |jobs| && |outcomes| == |jobs|
    ensures SucceededFor(jobs, outcomes, u, m) ==> SucceededFor(jobs, outcomes, u, n)
  {
    if SucceededFor(jobs, outcomes, u, m) {
      var j :| 0 <= j < m && Pending(jobs[j]) && jobs[j].userId == u
               && outcomes[j].Response? && outcomes[j].status == Some(1);
      assert 0 <= j < n;
    }
  }

  /** One step changes a profile only for the owner of a pending job that got status 1. */
  lemma StepProfileChange(cfg: Config, db: Db, i: nat, outcome: ApiOutcome, now: int, u: int)
    requires i < |db.jobs|
    ensures ProfileOf(Step(cfg, db, i, outcome, now).profiles, u) != ProfileOf(db.profiles, u) ==>
              Pending(db.jobs[i]) && db.jobs[i].userId == u && outcome.Response? && outcome.status == Some(1)
  {
  }

  lemma {:induction false} SweepUpToProfiles(cfg: Config, db: Db, outcomes: seq<ApiOutcome>, now: int, n: nat, u: int)
    requires |outcomes| == |db.jobs| && n <= |db.jobs|
    ensures VipExpiry(SweepUpTo(cfg, db, outcomes, now, n).profiles, u) == VipExpiry(db.profiles, u)
    ensures !SucceededFor(db.jobs, outcomes, u, n) ==>
              ProfileOf(SweepUpTo(cfg, db, outcomes, now, n).profiles, u) == ProfileOf(db.profiles, u)
  {
    if n > 0 {
      SweepUpToProfiles(cfg, db, outcomes, now, n - 1, u);
      SweepUpToJobs(cfg, db, outcomes, now, n - 1);
      SucceededForGrows(db.jobs, outcomes, u, n - 1, n);
      var before := SweepUpTo(cfg, db, outcomes, now, n - 1);
      var job := db.jobs[n - 1];
      assert before.jobs[n - 1] == job;
      StepProfileChange(cfg, before, n - 1, outcomes[n - 1], now, u);
      if Pending(job) && job.userId == u && outcomes[n - 1].Response? && outcomes[n - 1].status == Some(1) {
        assert SucceededFor(db.jobs, outcomes, u, n);
      }
    }
  }

  /** A sweep never changes a VIP expiry, and it changes a user's profile
      only when one of that user's pending jobs got API status 1: status 1
      is the only answer that writes `last_used`. */
  lemma SweepProfiles(cfg: Config, db: Db, outcomes: seq<ApiOutcome>, now: int, u: int)
    requires |outcomes| == |db.jobs|
    ensures VipExpiry(Sweep(cfg, db, outcomes, now).profiles, u) == VipExpiry(db.profiles, u)
    ensures !SucceededFor(db.jobs, outcomes, u, |db.jobs|) ==>
              ProfileOf(Sweep(cfg, db, outcomes, now).profiles, u) == ProfileOf(db.profiles, u)
  {
    SweepUpToProfiles(cfg, db, outcomes, now, |db.jobs|, u);
  }

  /** A failed quota check skips the API: the step is the same whatever the
      API would have answered, sends the limit message and marks the job
      processed without touching profiles or quotas. */
  lemma StepQuotaFailureSkipsApi(cfg: Config, db: Db, i: nat, a: ApiOutcome, b: ApiOutcome, now: int)
    requires i < |db.jobs| && Pending(db.jobs[i])
    requires IsOrdinary(cfg, db.profiles, db.jobs[i].userId, now)
    requires !Consume(cfg.adminIds, db.quotas, db.jobs[i].userId, now).0
    ensures Step(cfg, db, i, a, now) == Step(cfg, db, i, b, now)
    ensures var r := Step(cfg, db, i, a, now);
            r.profiles == db.profiles && r.quotas == db.quotas
            && r.outbox[|db.outbox|].reply == LimitExceeded
  {
  }

  /** A job whose owner is privileged, or passes the quota, is reported
      with the API's answer; an ordinary owner's quota is consumed, a
      privileged owner's is not, and `last_used` is written exactly on
      status 1. */
  lemma StepServed(cfg: Config, db: Db, i: nat, outcome: ApiOutcome, now: int)
    requires i < |db.jobs| && Pending(db.jobs[i])
    requires var job := db.jobs[i];
             !IsOrdinary(cfg, db.profiles, job.userId, now) || Consume(cfg.adminIds, db.quotas, job.userId, now).0
    ensures var job := db.jobs[i];
            var r := Step(cfg, db, i, outcome, now);
            && r.outbox[|db.outbox|].reply == Outcome(Classify(job.uid, outcome, now))
            && (IsOrdinary(cfg, db.profiles, job.userId, now) ==> r.quotas == Consume(cfg.adminIds, db.quotas, job.userId, now).1)
            && (!IsOrdinary(cfg, db.profiles, job.userId, now) ==> r.quotas == db.quotas)
            && (outcome.Response? && outcome.status == Some(1) ==> r.profiles[job.userId].lastUsed == Some(now))
            && (!(outcome.Response? && outcome.status == Some(1)) ==> r.profiles == db.profiles)
  {
  }

  lemma {:induction false} SweepUpToBounded(cfg: Config, db: Db, outcomes: seq<ApiOutcome>, now: int, n: nat)
    requires |outcomes| == |db.jobs| && n <= |db.jobs|
    requires QuotasBounded(db.quotas)
    ensures QuotasBounded(SweepUpTo(cfg, db, outcomes, now, n).quotas)
  {
    if n > 0 {
      SweepUpToBounded(cfg, db, outcomes, now, n - 1);
      var before := SweepUpTo(cfg, db, outcomes, now, n - 1);
      ConsumeKeepsBounded(cfg.adminIds, before.quotas, before.jobs[n - 1].userId, now);
    }
  }

  /** The counters stay within [0, DAILY_REQUEST_LIMIT] across a sweep. */
  lemma SweepKeepsQuotasBounded(cfg: Config, db: Db, outcomes: seq<ApiOutcome>, now: int)
    requires |outcomes| == |db.jobs|
    requires QuotasBounded(db.quotas)
    ensures QuotasBounded(Sweep(cfg, db, outcomes, now).quotas)
  {
    SweepUpToBounded(cfg, db, outcomes, now, |db.jobs|);
  }
}
