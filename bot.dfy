/** The running bot: its three collections and its outgoing messages are
    fields that the handlers update in place, each handler proved to make
    exactly the transition its specification function describes. */
module Bot {
  import opened Records
  import opened Config
  import opened Quota
  import opened Privilege
  import opened Verification
  import opened LikeApi
  import opened Commands
  import opened Processor

  class Bot {
    const cfg: Config
    /** The `verifications` collection, in insertion order. */
    var jobs: seq<Job>
    /** The `users` collection: profiles by user id. */
    var profiles: map<int, Profile>
    /** The `requests` collection: quota documents by user id. */
    var quotas: map<int, QuotaRecord>
    /** Every message sent so far, oldest first. */
    var outbox: seq<Delivery>

    function Snapshot(): Db
      reads this
    {
      Db(jobs, profiles, quotas, outbox)
    }

    /** What every handler keeps: stored counters lie within 0 and the
        daily limit, and no job is processed before it is verified. */
    ghost predicate Valid()
      reads this
    {
      QuotasBounded(quotas) && JobsConsistent(jobs)
    }

    /** Start-up: the allow-list is parsed from the raw `ADMIN_IDS` value
        and every collection starts empty. */
    constructor (adminIdsRaw: string, verifyBaseUrl: string)
      ensures cfg == Config(ParseAdminIds(adminIdsRaw), verifyBaseUrl)
      ensures Snapshot() == Db([], map[], map[], [])
      ensures Valid()
    {
      cfg := Config(ParseAdminIds(adminIdsRaw), verifyBaseUrl);
      jobs, profiles, quotas, outbox := [], map[], map[], [];
    }

    method Send(chatId: int, replyTo: int, reply: Reply)
      modifies this`outbox
      ensures outbox == old(outbox) + [Delivery(chatId, replyTo, reply)]
    {
      outbox := outbox + [Delivery(chatId, replyTo, reply)];
    }

    /** `GET /verify/<code>`. */
    method Verify(code: string, now: int) returns (ok: bool)
      requires Valid()
      modifies this`jobs
      ensures (ok, jobs) == Confirm(old(jobs), code, now)
      ensures Valid()
    {
      ConfirmKeepsJobs(jobs, code, now);
      var found := FindCode(jobs, code);
      if found.Some? && !jobs[found.value].verified {
        var i := found.value;
        jobs := jobs[i := jobs[i].(verified := true, verifiedAt := Some(now))];
        ok := true;
      } else {
        ok := false;
      }
    }

    /** `update_user_requests`. */
    method UpdateUserRequests(userId: int, now: int) returns (ok: bool)
      requires Valid()
      modifies this`quotas
      ensures (ok, quotas) == Consume(cfg.adminIds, old(quotas), userId, now)
      ensures Valid()
    {
      ConsumeKeepsBounded(cfg.adminIds, quotas, userId, now);
      if userId in cfg.adminIds {
        return true;
      }
      var current := CheckUserRequests(cfg.adminIds, quotas, userId, now);
      if current.n <= 0 {
        return false;
      }
      quotas := quotas[userId := QuotaRecord(Some(now), Some(current.n - 1))];
      ok := true;
    }

    /** `/check`. */
    method CheckCommand(req: Request, now: int)
      requires Valid()
      modifies this`outbox
      ensures Valid()
      ensures outbox == old(outbox) + [Delivery(req.chatId, req.messageId, CheckStatus(cfg, old(Snapshot()), req, now))]
    {
      var status := CheckStatus(cfg, Snapshot(), req, now);
      Send(req.chatId, req.messageId, status);
    }

    /** `/addvip`. */
    method AddVipCommand(req: Request, args: Option<VipArgs>, now: int)
      requires Valid()
      modifies this`profiles, this`outbox
      ensures Snapshot() == AddVip(cfg, old(Snapshot()), req, args, now)
      ensures Valid()
    {
      if req.userId !in cfg.adminIds {
        Send(req.chatId, req.messageId, NotAuthorized);
        return;
      }
      if args.None? {
        Send(req.chatId, req.messageId, AddVipUsage);
        return;
      }
      if GrantRaises(args.value, now) {
        return;
      }
      var VipArgs(target, days) := args.value;
      var until := now + days * SECONDS_PER_DAY;
      profiles := GrantVip(profiles, target, days, now);
      Send(req.chatId, req.messageId, VipGranted(target, days, until));
    }

    /** `/like`. */
    method LikeCommand(req: Request, text: Option<string>, now: int,
                       code: string, shortener: ShortenerOutcome, api: ApiOutcome)
      requires IsCode(code)
      requires Valid()
      modifies this`jobs, this`profiles, this`outbox
      ensures Snapshot() == Like(cfg, old(Snapshot()), req, text, now, code, shortener, api)
      ensures Valid()
    {
      LikeKeepsJobsConsistent(cfg, Snapshot(), req, text, now, code, shortener, api);
      if text.None? || text.value == [] {
        return;
      }
      var isVip := IsVip(profiles, req.userId, now);
      var isAdmin := req.userId in cfg.adminIds;
      if !isVip && !isAdmin {
        var remaining := CheckUserRequests(cfg.adminIds, quotas, req.userId, now);
        if remaining.n <= 0 {
          Send(req.chatId, req.messageId, LimitExceeded);
          return;
        }
      }
      var args := ParseLikeArgs(text.value);
      if args.None? {
        Send(req.chatId, req.messageId, WrongFormat);
        return;
      }
      var (region, uid) := args.value;
      if isAdmin || isVip {
        var result := Classify(uid, api, now);
        if result.Liked? {
          profiles := TouchLastUsed(profiles, req.userId, now);
        }
        Send(req.chatId, req.messageId, Outcome(result));
        return;
      }
      if shortener.ShortenRaised? {
        return;
      }
      var link := if shortener.Shortened? then shortener.url else VerifyLink(cfg, code);
      if !InDatetimeRange(now + VERIFY_TTL) {
        return;
      }
      jobs := jobs + [NewJob(req, uid, region, code, now)];
      Send(req.chatId, req.messageId, VerificationPrompt(uid, region, link));
    }

    /** The body of `process_verified_likes`' loop for the job at position `i`. */
    method HandleJob(i: nat, outcome: ApiOutcome, now: int)
      requires i < |jobs|
      requires Valid()
      modifies this`jobs, this`profiles, this`quotas, this`outbox
      ensures Snapshot() == Step(cfg, old(Snapshot()), i, outcome, now)
      ensures Valid()
    {
      var job := jobs[i];
      if !(job.verified && !job.processed) {
        return;
      }
      var isVip := IsVip(profiles, job.userId, now);
      var isAdmin := job.userId in cfg.adminIds;
      if !isVip && !isAdmin {
        var updated := UpdateUserRequests(job.userId, now);
        if !updated {
          Send(job.chatId, job.messageId, LimitExceeded);
          jobs := jobs[i := job.(processed := true)];
          return;
        }
      }
      var result := Classify(job.uid, outcome, now);
      if result.Liked? {
        profiles := TouchLastUsed(profiles, job.userId, now);
      }
      Send(job.chatId, job.messageId, Outcome(result));
      jobs := jobs[i := job.(processed := true)];
    }

    /** One pass of `process_verified_likes`' polling loop over the jobs
      that stand when it starts; `outcomes[i]` is the like API's answer
      for the job at position `i`. */
    method ProcessVerifiedLikes(outcomes: seq<ApiOutcome>, now: int)
      requires |outcomes| == |jobs|
      requires Valid()
      modifies this`jobs, this`profiles, this`quotas, this`outbox
      ensures Snapshot() == Sweep(cfg, old(Snapshot()), outcomes, now)
      ensures Valid()
    {
      ghost var start := Snapshot();
      for i := 0 to |outcomes|
        invariant Snapshot() == SweepUpTo(cfg, start, outcomes, now, i)
        invariant Valid()
      {
        HandleJob(i, outcomes[i], now);
      }
    }
  }
}
