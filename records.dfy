/** The documents the bot keeps in its three collections, the messages it
    sends, and the store as one value. Timestamps are integer seconds. */
module Records {

  datatype Option<+T> = None | Some(value: T) {
    function GetOr(default: T): T {
      match this
      case Some(v) => v
      case None => default
    }
  }

  /** A document of the `requests` collection, keyed by user id. Either
      field may be missing from a stored document. */
  datatype QuotaRecord = QuotaRecord(lastRequestTime: Option<int>, remaining: Option<int>)

  /** A document of the `users` (profiles) collection, keyed by user id. */
  datatype Profile = Profile(vipExpires: Option<int>, lastUsed: Option<int>)

  /** A document of the `verifications` collection: one pending like
      request of an ordinary user, found by its one-time code. A missing
      `processed` field is `false` here: the processor's query treats the
      two alike. */
  datatype Job = Job(
    userId: int,
    uid: string,
    region: string,
    code: string,
    verified: bool,
    verifiedAt: Option<int>,
    processed: bool,
    expiresAt: int,
    chatId: int,
    messageId: int)

  /** What one call of the like API produced: a decoded JSON object, or an
      exception with its message (a failed request, a body that is not
      JSON, or a JSON value that is not an object). `status` is the
      integer the `status` value compares equal to (so `1`, `1.0` and
      `true` all give 1) and is absent when the key is missing or its
      value equals no integer; both make the status neither 1 nor 2. Each
      displayed field is absent when its key is missing and otherwise
      holds the text `str()` gives for its value, whatever its JSON type
      (`12` and `"12"` both give "12", `null` gives "None"). */
  datatype ApiOutcome =
    | Response(status: Option<int>, nickname: Option<string>,
               likesBefore: Option<string>, likesAfter: Option<string>, likesAdded: Option<string>)
    | Raised(error: string)

  /** What the link shortener's call produced: an object with a
      `shortenedUrl` value (as the text it is shown as), an object
      without that key, or an exception (a failed request, a body that is
      not JSON, or a JSON value that is not an object). */
  datatype ShortenerOutcome =
    | Shortened(url: string)
    | NoShortUrl
    | ShortenRaised

  /** The result the bot reports for one like request; the likes counts
      are kept as the text they are shown as. */
  datatype LikeResult =
    | Liked(nickname: string, uid: string, likesBefore: string, likesAdded: string, likesAfter: string, at: int)
    | MaxLikesReached
    | ApiRejected
    | ApiFailed(uid: string, error: string)

  /** The content of one outgoing message, without its exact wording. */
  datatype Reply =
    | LimitExceeded
    | WrongFormat
    | Outcome(result: LikeResult)
    | VerificationPrompt(uid: string, region: string, link: string)
    | NotAuthorized
    | AddVipUsage
    | VipGranted(target: int, days: int, until: int)
    | AdminStatus
    | VipStatus
    | RequestStatus(remaining: int, limit: int)

  /** A message sent into a chat, in reply to a message there. */
  datatype Delivery = Delivery(chatId: int, replyTo: int, reply: Reply)

  /** Who sent an incoming command, and where. */
  datatype Request = Request(userId: int, chatId: int, messageId: int)

  /** The whole store: the three collections and the messages sent so far. */
  datatype Db = Db(
    jobs: seq<Job>,
    profiles: map<int, Profile>,
    quotas: map<int, QuotaRecord>,
    outbox: seq<Delivery>)

  function Respond(db: Db, req: Request, reply: Reply): Db {
    db.(outbox := db.outbox + [Delivery(req.chatId, req.messageId, reply)])
  }

  /** A job the processor still has to handle. */
  predicate Pending(job: Job) {
    job.verified && !job.processed
  }

  /** No job is processed before it was verified. */
  ghost predicate JobsConsistent(jobs: seq<Job>) {
    forall i :: 0 <= i < |jobs| ==> jobs[i].processed ==> jobs[i].verified
  }
}
