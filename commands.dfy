/** The three chat commands, `/like`, `/addvip` and `/check`, as
    transitions of the store. Message wording is abstracted to `Reply`. */
module Commands {
  import opened Text
  import opened Records
  import opened Config
  import opened Quota
  import opened Privilege
  import opened LikeApi

  /** A code as `random.choices(ascii_letters + digits, k=12)` draws it. */
  predicate IsCode(code: string) {
    |code| == CODE_LENGTH && forall i :: 0 <= i < |code| ==> IsAlnum(code[i])
  }

  /** The unshortened verification link, the fallback when no short link comes back. */
  function VerifyLink(cfg: Config, code: string): string {
    cfg.verifyBaseUrl + "/verify/" + code
  }

  /** The arguments of `/like <region> <uid>`: the second and third
      whitespace-separated words, the region lower-cased; further words
      are ignored, and fewer than three words is a format error. */
  function ParseLikeArgs(text: string): (r: Option<(string, string)>)
    ensures r.Some? ==> r.value.0 != [] && r.value.1 != [] && NoSpace(r.value.1)
    ensures r.Some? ==> forall i :: 0 <= i < |r.value.0| ==> !('A' <= r.value.0[i] <= 'Z')
  {
    var args := Words(text);
    if |args| < 3 then None
    else
      LowerIsLowerCase(args[1]);
      Some((Lower(args[1]), args[2]))
  }

  /** A command written out with single spaces parses back to its region
      (lower-cased) and account id, whatever words follow. */
  lemma ParseLikeArgsOf(command: string, region: string, uid: string, extra: seq<string>)
    requires forall k :: 0 <= k < |[command, region, uid] + extra| ==>
               ([command, region, uid] + extra)[k] != [] && NoSpace(([command, region, uid] + extra)[k])
    ensures ParseLikeArgs(Unwords([command, region, uid] + extra)) == Some((Lower(region), uid))
  {
    WordsUnwords([command, region, uid] + extra);
  }

  /** The job `/like` stores for an ordinary user: unverified, unprocessed,
      advertised to expire ten minutes after `now`. */
  function NewJob(req: Request, uid: string, region: string, code: string, now: int): Job {
    Job(req.userId, uid, region, code, false, None, false, now + VERIFY_TTL, req.chatId, req.messageId)
  }

  /** The store after the API answered a privileged `/like`: success is
      recorded as the caller's `last_used`, nothing else is. */
  function AfterDirectLike(db: Db, req: Request, uid: string, api: ApiOutcome, now: int): Db {
    var result := Classify(uid, api, now);
    var db' := if RecordsUse(result) then db.(profiles := TouchLastUsed(db.profiles, req.userId, now)) else db;
    Respond(db', req, Outcome(result))
  }

  /** Whether an ordinary user's `/like` raises before the job is stored:
      the shortener call raises, or the job's expiry falls outside
      `datetime`'s range. Nothing catches either, so the handler ends
      with no job and no reply. */
  predicate JobCreationRaises(shortener: ShortenerOutcome, now: int) {
    shortener.ShortenRaised? || !InDatetimeRange(now + VERIFY_TTL)
  }

  /** The link shown to the user: the shortened one, or the plain one
      when the shortener's answer has no `shortenedUrl`. */
  function LinkFor(cfg: Config, code: string, shortener: ShortenerOutcome): string {
    if shortener.Shortened? then shortener.url else VerifyLink(cfg, code)
  }

  /** `/like`. An empty or missing text is ignored. An ordinary user with
      no requests left is turned away before the arguments are read. Bad
      arguments get a usage reply. Admins and VIPs are served at once.
      Anyone else gets a new unverified job and a verification link,
      unless creating the job raises; the quota is not touched here.
      `code`, `shortener` and `api` stand for the random code, the
      shortener's answer and the like API's answer. */
  function Like(cfg: Config, db: Db, req: Request, text: Option<string>, now: int,
                code: string, shortener: ShortenerOutcome, api: ApiOutcome): (r: Db)
    requires IsCode(code)
    ensures r.quotas == db.quotas
    ensures r.jobs == db.jobs || (|r.jobs| == |db.jobs| + 1 && r.jobs[..|db.jobs|] == db.jobs)
    ensures |r.jobs| > |db.jobs| ==> !r.jobs[|db.jobs|].verified && !r.jobs[|db.jobs|].processed
    ensures forall u :: VipExpiry(r.profiles, u) == VipExpiry(db.profiles, u)
    ensures r.outbox == db.outbox
            || (|r.outbox| == |db.outbox| + 1 && r.outbox[..|db.outbox|] == db.outbox
                && r.outbox[|db.outbox|].chatId == req.chatId && r.outbox[|db.outbox|].replyTo == req.messageId)
    ensures |r.jobs| > |db.jobs| ==> |r.outbox| == |db.outbox| + 1 && r.outbox[|db.outbox|].reply.VerificationPrompt?
  {
    if text.None? || text.value == [] then db
    else
      var admin := IsAdmin(cfg, req.userId);
      var vip := IsVip(db.profiles, req.userId, now);
      if !vip && !admin && Exhausted(CheckUserRequests(cfg.adminIds, db.quotas, req.userId, now)) then
        Respond(db, req, LimitExceeded)
      else match ParseLikeArgs(text.value)
        case None => Respond(db, req, WrongFormat)
        case Some((region, uid)) =>
          if admin || vip then AfterDirectLike(db, req, uid, api, now)
          else if JobCreationRaises(shortener, now) then db
          else
            Respond(db.(jobs := db.jobs + [NewJob(req, uid, region, code, now)]), req,
                    VerificationPrompt(uid, region, LinkFor(cfg, code, shortener)))
  }

  /** An ordinary user with nothing left is refused before parsing, so the
      reply is the limit message whatever the arguments, and nothing but
      the outbox changes. */
  lemma LikeExhaustedRefusedFirst(cfg: Config, db: Db, req: Request, text: string, now: int,
                                   code: string, shortener: ShortenerOutcome, api: ApiOutcome)
    requires IsCode(code) && text != []
    requires IsOrdinary(cfg, db.profiles, req.userId, now)
    requires Exhausted(CheckUserRequests(cfg.adminIds, db.quotas, req.userId, now))
    ensures Like(cfg, db, req, Some(text), now, code, shortener, api) == Respond(db, req, LimitExceeded)
  {
  }

  /** A well-formed request by an ordinary user with requests left creates
      exactly one pending job for the lower-cased region and the given
      account id, with the drawn code and a ten-minute expiry, and replies
      with the short link, or the plain link when the shortener's answer
      has none, provided the job can be created. */
  lemma LikeOrdinaryCreatesJob(cfg: Config, db: Db, req: Request, text: string, now: int,
                               code: string, shortener: ShortenerOutcome, api: ApiOutcome)
    requires IsCode(code) && text != []
    requires IsOrdinary(cfg, db.profiles, req.userId, now)
    requires !Exhausted(CheckUserRequests(cfg.adminIds, db.quotas, req.userId, now))
    requires ParseLikeArgs(text).Some?
    requires !JobCreationRaises(shortener, now)
    ensures var r := Like(cfg, db, req, Some(text), now, code, shortener, api);
            var (region, uid) := ParseLikeArgs(text).value;
            && r.jobs == db.jobs + [Job(req.userId, uid, region, code, false, None, false,
                                        now + VERIFY_TTL, req.chatId, req.messageId)]
            && r.profiles == db.profiles && r.quotas == db.quotas
            && r.outbox == db.outbox + [Delivery(req.chatId, req.messageId,
                                                 VerificationPrompt(uid, region, LinkFor(cfg, code, shortener)))]
  {
  }

  /** When the shortener raises, or the expiry cannot be represented, an
      ordinary user's well-formed request leaves no trace: no job, no
      reply, nothing else. */
  lemma LikeOrdinaryAbortsOnRaise(cfg: Config, db: Db, req: Request, text: string, now: int,
                                  code: string, shortener: ShortenerOutcome, api: ApiOutcome)
    requires IsCode(code) && text != []
    requires IsOrdinary(cfg, db.profiles, req.userId, now)
    requires !Exhausted(CheckUserRequests(cfg.adminIds, db.quotas, req.userId, now))
    requires ParseLikeArgs(text).Some?
    requires JobCreationRaises(shortener, now)
    ensures Like(cfg, db, req, Some(text), now, code, shortener, api) == db
  {
  }

  /** Admins and VIPs never get a job: the API answer is reported at once
      and only a success touches their profile. */
  lemma LikePrivilegedServedAtOnce(cfg: Config, db: Db, req: Request, text: string, now: int,
                                   code: string, shortener: ShortenerOutcome, api: ApiOutcome)
    requires IsCode(code) && text != []
    requires !IsOrdinary(cfg, db.profiles, req.userId, now)
    requires ParseLikeArgs(text).Some?
    ensures var r := Like(cfg, db, req, Some(text), now, code, shortener, api);
            var uid := ParseLikeArgs(text).value.1;
            var result := Classify(uid, api, now);
            && r.jobs == db.jobs && r.quotas == db.quotas
            && r.outbox == db.outbox + [Delivery(req.chatId, req.messageId, Outcome(result))]
            && (api.Response? && api.status == Some(1) ==> r.profiles == TouchLastUsed(db.profiles, req.userId, now))
            && (!(api.Response? && api.status == Some(1)) ==> r.profiles == db.profiles)
  {
  }

  /** Malformed arguments from anyone not refused for quota get the usage
      reply and change nothing else. */
  lemma LikeMalformedUsage(cfg: Config, db: Db, req: Request, text: string, now: int,
                           code: string, shortener: ShortenerOutcome, api: ApiOutcome)
    requires IsCode(code) && text != []
    requires !IsOrdinary(cfg, db.profiles, req.userId, now)
             || !Exhausted(CheckUserRequests(cfg.adminIds, db.quotas, req.userId, now))
    requires |Words(text)| < 3
    ensures Like(cfg, db, req, Some(text), now, code, shortener, api) == Respond(db, req, WrongFormat)
  {
  }

  /** `/like` never makes a job processed, so it keeps every processed job verified. */
  lemma LikeKeepsJobsConsistent(cfg: Config, db: Db, req: Request, text: Option<string>, now: int,
                                code: string, shortener: ShortenerOutcome, api: ApiOutcome)
    requires IsCode(code)
    requires JobsConsistent(db.jobs)
    ensures JobsConsistent(Like(cfg, db, req, text, now, code, shortener, api).jobs)
  {
    var r := Like(cfg, db, req, text, now, code, shortener, api);
    forall i | 0 <= i < |r.jobs| && r.jobs[i].processed ensures r.jobs[i].verified {
      if i < |db.jobs| {
        assert r.jobs[i] == db.jobs[i];
      }
    }
  }

  /** `/like` as bot.py:36 leaves it: that line rebinds `requests` to the
      quota collection, so every `requests.get(...)` call raises (a
      collection is not callable), with `error` as the message. Admins
      and VIPs then always see the API error, and an ordinary user's
      request never becomes a job. */
  function LikeAsWritten(cfg: Config, db: Db, req: Request, text: Option<string>, now: int,
                         code: string, error: string): (r: Db)
    requires IsCode(code)
    ensures r.jobs == db.jobs
  {
    Like(cfg, db, req, text, now, code, ShortenRaised, Raised(error))
  }

  /** The discrepancy: a well-formed request by an ordinary user with
      requests left is silently dropped as written, while with a working
      shortener call it becomes a job. */
  lemma LikeAsWrittenDropsOrdinary(cfg: Config, db: Db, req: Request, text: string, now: int,
                                   code: string, error: string)
    requires IsCode(code) && text != []
    requires IsOrdinary(cfg, db.profiles, req.userId, now)
    requires !Exhausted(CheckUserRequests(cfg.adminIds, db.quotas, req.userId, now))
    requires ParseLikeArgs(text).Some?
    requires InDatetimeRange(now + VERIFY_TTL)
    ensures LikeAsWritten(cfg, db, req, Some(text), now, code, error) == db
    ensures |Like(cfg, db, req, Some(text), now, code, NoShortUrl, Raised(error)).jobs| == |db.jobs| + 1
  {
  }

  /** The already-parsed arguments of `/addvip <user_id> <days>`. */
  datatype VipArgs = VipArgs(target: int, days: int)

  /** Whether the grant at bot.py:222-223 raises `OverflowError`: a
      `timedelta` holds at most 999999999 days, the new expiry must be a
      `datetime`, and the target id must fit BSON's 64-bit integers.
      Nothing catches it, so the handler ends with no upsert and no reply. */
  predicate GrantRaises(args: VipArgs, now: int) {
    || !(-TIMEDELTA_MAX_DAYS <= args.days <= TIMEDELTA_MAX_DAYS)
    || !InDatetimeRange(now + args.days * SECONDS_PER_DAY)
    || !IsInt64(args.target)
  }

  /** An admin's `/addvip` with arguments that can be granted. */
  predicate GrantsVip(cfg: Config, req: Request, args: Option<VipArgs>, now: int) {
    IsAdmin(cfg, req.userId) && args.Some? && !GrantRaises(args.value, now)
  }

  /** `/addvip`: a caller off the allow-list is refused, missing or
      non-numeric arguments get a usage reply, a grant that overflows ends
      the handler without effect, and otherwise the target's VIP expiry
      becomes `now + days` and the grant is confirmed. `args` is `None`
      where the source's argument conversion fails. */
  function AddVip(cfg: Config, db: Db, req: Request, args: Option<VipArgs>, now: int): (r: Db)
    ensures r.jobs == db.jobs && r.quotas == db.quotas
    ensures GrantsVip(cfg, req, args, now) ==>
              r.profiles == GrantVip(db.profiles, args.value.target, args.value.days, now)
    ensures !GrantsVip(cfg, req, args, now) ==> r.profiles == db.profiles
    ensures IsAdmin(cfg, req.userId) && args.Some? && GrantRaises(args.value, now) ==> r.outbox == db.outbox
    ensures !(IsAdmin(cfg, req.userId) && args.Some? && GrantRaises(args.value, now)) ==>
              && |r.outbox| == |db.outbox| + 1 && r.outbox[..|db.outbox|] == db.outbox
              && r.outbox[|db.outbox|].chatId == req.chatId && r.outbox[|db.outbox|].replyTo == req.messageId
  {
    if !IsAdmin(cfg, req.userId) then Respond(db, req, NotAuthorized)
    else match args
      case None => Respond(db, req, AddVipUsage)
      case Some(a) =>
        if GrantRaises(a, now) then db
        else
          var until := now + a.days * SECONDS_PER_DAY;
          Respond(db.(profiles := GrantVip(db.profiles, a.target, a.days, now)), req, VipGranted(a.target, a.days, until))
  }

  /** Only an admin's `/addvip` changes profiles. */
  lemma AddVipNeedsAdmin(cfg: Config, db: Db, req: Request, args: Option<VipArgs>, now: int)
    requires !IsAdmin(cfg, req.userId)
    ensures AddVip(cfg, db, req, args, now) == Respond(db, req, NotAuthorized)
  {
  }

  /** An admin's `/addvip` whose arguments did not convert gets the usage
      reply and changes nothing else. */
  lemma AddVipMalformedUsage(cfg: Config, db: Db, req: Request, now: int)
    requires IsAdmin(cfg, req.userId)
    ensures AddVip(cfg, db, req, None, now) == Respond(db, req, AddVipUsage)
  {
  }

  /** A grant that overflows leaves the store, outbox included, as it was. */
  lemma AddVipOverflowNoEffect(cfg: Config, db: Db, req: Request, target: int, days: int, now: int)
    requires IsAdmin(cfg, req.userId)
    requires GrantRaises(VipArgs(target, days), now)
    ensures AddVip(cfg, db, req, Some(VipArgs(target, days)), now) == db
  {
  }

  /** A grant of `days` days makes the target VIP until exactly `now + days`
      days and no longer, leaves everyone else's status alone, and is
      confirmed with that expiry. */
  lemma AddVipThenVip(cfg: Config, db: Db, req: Request, target: int, days: int, now: int, t: int)
    requires IsAdmin(cfg, req.userId)
    requires !GrantRaises(VipArgs(target, days), now)
    ensures var r := AddVip(cfg, db, req, Some(VipArgs(target, days)), now);
            && (IsVip(r.profiles, target, t) <==> t < now + days * SECONDS_PER_DAY)
            && (forall u :: u != target ==> (IsVip(r.profiles, u, t) <==> IsVip(db.profiles, u, t)))
            && r.outbox == db.outbox + [Delivery(req.chatId, req.messageId,
                                                 VipGranted(target, days, now + days * SECONDS_PER_DAY))]
  {
    GrantVipThenIsVip(db.profiles, target, days, now, t);
  }

  /** `/check`: admins first, then VIPs, then the remaining count against the limit. */
  function CheckStatus(cfg: Config, db: Db, req: Request, now: int): (r: Reply)
    ensures r == AdminStatus <==> IsAdmin(cfg, req.userId)
    ensures r == VipStatus <==> !IsAdmin(cfg, req.userId) && IsVip(db.profiles, req.userId, now)
    ensures r.RequestStatus? <==> IsOrdinary(cfg, db.profiles, req.userId, now)
    ensures r.RequestStatus? ==>
              r.limit == DAILY_REQUEST_LIMIT
              && CheckUserRequests(cfg.adminIds, db.quotas, req.userId, now) == Count(r.remaining)
  {
    var remaining := CheckUserRequests(cfg.adminIds, db.quotas, req.userId, now);
    if IsAdmin(cfg, req.userId) then AdminStatus
    else if IsVip(db.profiles, req.userId, now) then VipStatus
    else RequestStatus(remaining.n, DAILY_REQUEST_LIMIT)
  }

  /** With bounded counters, the status shown to an ordinary user lies
      between zero and the limit. */
  lemma CheckStatusBounded(cfg: Config, db: Db, req: Request, now: int)
    requires QuotasBounded(db.quotas)
    requires IsOrdinary(cfg, db.profiles, req.userId, now)
    ensures 0 <= CheckStatus(cfg, db, req, now).remaining <= DAILY_REQUEST_LIMIT
  {
  }
}
