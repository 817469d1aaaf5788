/** The verification endpoint: a click on `/verify/<code>` flips the
    matching job's `verified` flag, once. */
module Verification {
  import opened Records

  /** `find_one({"code": code})`: the position of the first job with the code. */
  function FindCode(jobs: seq<Job>, code: string): (r: Option<nat>)
    ensures r.Some? ==> r.value < |jobs| && jobs[r.value].code == code
                        && forall k :: 0 <= k < r.value ==> jobs[k].code != code
    ensures r.None? ==> forall k :: 0 <= k < |jobs| ==> jobs[k].code != code
  {
    if jobs == [] then None
    else if jobs[0].code == code then Some(0)
    else match FindCode(jobs[1..], code)
      case None => None
      case Some(i) => Some(i + 1)
  }

  /** The job list with every code kept, so that lookups by code agree. */
  ghost predicate SameCodes(a: seq<Job>, b: seq<Job>) {
    |a| == |b| && forall k :: 0 <= k < |a| ==> a[k].code == b[k].code
  }

  lemma FindCodeSameCodes(a: seq<Job>, b: seq<Job>, code: string)
    requires SameCodes(a, b)
    ensures FindCode(a, code) == FindCode(b, code)
  {
  }

  /** `verify(code)`: succeeds exactly when the first job with the code
      exists and is not yet verified, and then marks it verified at `now`;
      on failure nothing changes. Expiry is not consulted. */
  function Confirm(jobs: seq<Job>, code: string, now: int): (r: (bool, seq<Job>))
    ensures r.0 <==> FindCode(jobs, code).Some? && !jobs[FindCode(jobs, code).value].verified
    ensures !r.0 ==> r.1 == jobs
    ensures r.0 ==> var i := FindCode(jobs, code).value;
                    r.1 == jobs[i := jobs[i].(verified := true, verifiedAt := Some(now))]
  {
    match FindCode(jobs, code)
    case Some(i) =>
      if !jobs[i].verified then (true, jobs[i := jobs[i].(verified := true, verifiedAt := Some(now))])
      else (false, jobs)
    case None => (false, jobs)
  }

  /** A code is confirmed at most once: a second click with the same code,
      at any time, fails and leaves the jobs as the first click left them. */
  lemma ConfirmAtMostOnce(jobs: seq<Job>, code: string, t1: int, t2: int)
    ensures var after := Confirm(jobs, code, t1).1;
            Confirm(after, code, t2) == (false, after)
  {
    var (ok, after) := Confirm(jobs, code, t1);
    FindCodeSameCodes(jobs, after, code);
  }

  /** An unknown code fails and changes nothing. */
  lemma ConfirmUnknownCode(jobs: seq<Job>, code: string, now: int)
    requires forall k :: 0 <= k < |jobs| ==> jobs[k].code != code
    ensures Confirm(jobs, code, now) == (false, jobs)
  {
  }

  /** Confirmation touches only the verification fields of one job: every
      code, owner, target, delivery address and `processed` flag stays, and
      verified jobs stay verified. Hence no job becomes processed without
      having been verified. */
  lemma ConfirmKeepsJobs(jobs: seq<Job>, code: string, now: int)
    ensures var after := Confirm(jobs, code, now).1;
            |after| == |jobs|
            && forall k :: 0 <= k < |jobs| ==>
                 after[k] == jobs[k].(verified := after[k].verified, verifiedAt := after[k].verifiedAt)
                 && (jobs[k].verified ==> after[k] == jobs[k])
    ensures JobsConsistent(jobs) ==> JobsConsistent(Confirm(jobs, code, now).1)
  {
  }
}
