/** The bot's constants and the configuration it reads once at start-up. */
module Config {
  import opened Text

  /** Requests an ordinary user may make per reset window. */
  const DAILY_REQUEST_LIMIT: int := 1
  const REQUEST_RESET_HOURS: int := 20
  const SECONDS_PER_HOUR: int := 3600
  const SECONDS_PER_DAY: int := 86400
  /** The quota window, in seconds of the model's integer clock. */
  const REQUEST_RESET: int := REQUEST_RESET_HOURS * SECONDS_PER_HOUR
  /** How long a verification link is advertised as valid, in seconds. */
  const VERIFY_TTL: int := 10 * 60
  /** Length of a verification code. */
  const CODE_LENGTH: int := 12

  /** The range of Python's `datetime` on the model's clock, which counts
      seconds since 1970-01-01 00:00:00 UTC: the first second of year 1
      and the last second of year 9999. Arithmetic that leaves it raises
      `OverflowError`. */
  const DATETIME_MIN: int := -62135596800
  const DATETIME_MAX: int := 253402300799
  /** The largest number of days a `timedelta` can hold, either sign. */
  const TIMEDELTA_MAX_DAYS: int := 999999999
  /** The integers BSON can store; MongoDB's driver refuses larger ones. */
  const INT64_MIN: int := -0x8000_0000_0000_0000
  const INT64_MAX: int := 0x7fff_ffff_ffff_ffff

  predicate InDatetimeRange(t: int) {
    DATETIME_MIN <= t <= DATETIME_MAX
  }

  predicate IsInt64(n: int) {
    INT64_MIN <= n <= INT64_MAX
  }

  /** Start-up configuration: the admin allow-list and the externally
      reachable base URL of the verification endpoint. */
  datatype Config = Config(adminIds: seq<int>, verifyBaseUrl: string)

  predicate IsAdmin(cfg: Config, userId: int) {
    userId in cfg.adminIds
  }

  /** The all-digit tokens, in order, converted to integers; others dropped. */
  function DigitTokens(tokens: seq<string>): (ids: seq<nat>)
    ensures |ids| <= |tokens|
  {
    if tokens == [] then []
    else (if IsDigits(tokens[0]) then [DecimalValue(tokens[0])] else []) + DigitTokens(tokens[1..])
  }

  /** Some token is all digits and reads as `n`. */
  predicate NamesId(tokens: seq<string>, n: nat) {
    exists k :: 0 <= k < |tokens| && IsDigits(tokens[k]) && DecimalValue(tokens[k]) == n
  }

  /** `ADMIN_IDS`: the comma-separated tokens of the environment value
      that are all digits, in order, as integers. An id is on the list
      exactly when one of the tokens is its numeral. */
  function ParseAdminIds(raw: string): (ids: seq<nat>)
    ensures forall n: nat :: n in ids <==> NamesId(Split(raw, ','), n)
  {
    DigitTokensMembership(Split(raw, ','));
    DigitTokens(Split(raw, ','))
  }

  lemma DigitTokensMembership(tokens: seq<string>)
    ensures forall n: nat :: n in DigitTokens(tokens) <==> NamesId(tokens, n)
  {
    forall n: nat
      ensures n in DigitTokens(tokens) <==> NamesId(tokens, n)
    {
      DigitTokensMembers(tokens, n);
    }
  }

  /** An id is admitted exactly when some token is its numeral. */
  lemma {:induction false} DigitTokensMembers(tokens: seq<string>, n: nat)
    ensures n in DigitTokens(tokens) <==>
            exists k :: 0 <= k < |tokens| && IsDigits(tokens[k]) && DecimalValue(tokens[k]) == n
  {
    if tokens != [] {
      DigitTokensMembers(tokens[1..], n);
      if n in DigitTokens(tokens[1..]) {
        var k :| 1 <= k + 1 < |tokens| && IsDigits(tokens[1..][k]) && DecimalValue(tokens[1..][k]) == n;
        assert tokens[k + 1] == tokens[1..][k];
      }
      if exists k :: 0 <= k < |tokens| && IsDigits(tokens[k]) && DecimalValue(tokens[k]) == n {
        var k :| 0 <= k < |tokens| && IsDigits(tokens[k]) && DecimalValue(tokens[k]) == n;
        if k > 0 {
          assert tokens[1..][k - 1] == tokens[k];
        }
      }
    }
  }

  function Numerals(ids: seq<nat>): (ts: seq<string>)
    ensures |ts| == |ids|
    ensures forall k :: 0 <= k < |ts| ==> ts[k] == Decimal(ids[k])
  {
    if ids == [] then [] else [Decimal(ids[0])] + Numerals(ids[1..])
  }

  /** The allow-list written out as the environment variable holds it. */
  function FormatAdminIds(ids: seq<nat>): string {
    if ids == [] then "" else Join(Numerals(ids), ',')
  }

  lemma {:induction false} DigitTokensNumerals(ids: seq<nat>)
    ensures DigitTokens(Numerals(ids)) == ids
  {
    if ids != [] {
      var ts := Numerals(ids);
      assert ts == [Decimal(ids[0])] + Numerals(ids[1..]);
      assert ts[1..] == Numerals(ids[1..]);
      DecimalRoundTrip(ids[0]);
      DigitTokensNumerals(ids[1..]);
      calc {
        DigitTokens(ts);
        [DecimalValue(ts[0])] + DigitTokens(ts[1..]);
        [ids[0]] + ids[1..];
        ids;
      }
    }
  }

  /** Every list of non-negative ids survives being written comma-separated
      and parsed back, in order. */
  lemma ParseFormatAdminIds(ids: seq<nat>)
    ensures ParseAdminIds(FormatAdminIds(ids)) == ids
  {
    if ids != [] {
      var ts := Numerals(ids);
      forall k | 0 <= k < |ts| ensures ',' !in ts[k] {
        assert IsDigits(ts[k]);
      }
      SplitJoin(ts, ',');
      DigitTokensNumerals(ids);
    }
  }

  /** A token that is not all digits is dropped wherever it stands. */
  lemma {:induction false} DigitTokensSkips(before: seq<string>, junk: string, after: seq<string>)
    requires !IsDigits(junk)
    ensures DigitTokens(before + [junk] + after) == DigitTokens(before) + DigitTokens(after)
  {
    var all := before + [junk] + after;
    if before == [] {
      assert all == [junk] + after;
      assert all[1..] == after;
      assert DigitTokens(all) == DigitTokens(all[1..]);
    } else {
      assert all[0] == before[0];
      assert all[1..] == before[1..] + [junk] + after;
      DigitTokensSkips(before[1..], junk, after);
      var head := if IsDigits(before[0]) then [DecimalValue(before[0])] else [];
      calc {
        DigitTokens(all);
        head + DigitTokens(all[1..]);
        head + (DigitTokens(before[1..]) + DigitTokens(after));
        (head + DigitTokens(before[1..])) + DigitTokens(after);
        DigitTokens(before) + DigitTokens(after);
      }
    }
  }
}
