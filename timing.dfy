/**
 * The time budget: `get_time_status` (agentuse.py:259-274) and the limit
 * check of the loop (agentuse.py:366-371). Time comes in as elapsed minutes;
 * the limit is `time_limit_minutes`, where both `None` and `0` mean "no limit".
 */
module Timing {
  import opened Wrappers

  /** `if not self.time_limit_minutes` is false: a limit is configured. */
  predicate HasLimit(limit: Option<int>) {
    limit.Some? && limit.value != 0
  }

  /** `(time.time() - self.start_time) / 60` */
  function ElapsedMinutes(start: real, now: real): real {
    (now - start) / 60.0
  }

  /** The four tiers of the status message, plus "no message". */
  datatype Status =
    | NoStatus
    | Expired
    | Urgent(remaining: real)
    | Warning(remaining: real)
    | Informational(remaining: real, total: int)

  /** The tier for `elapsed` minutes into a session with the given limit. */
  function TimeStatus(limit: Option<int>, elapsed: real): Status {
    if !HasLimit(limit) then NoStatus
    else
      var remaining := limit.value as real - elapsed;
      if remaining <= 0.0 then Expired
      else if remaining <= 5.0 then Urgent(remaining)
      else if remaining <= 15.0 then Warning(remaining)
      else Informational(remaining, limit.value)
  }

  /** How pressing a tier is. */
  function Severity(s: Status): nat {
    match s
    case NoStatus => 0
    case Informational(_, _) => 1
    case Warning(_) => 2
    case Urgent(_) => 3
    case Expired => 4
  }

  /** Each tier covers exactly its band of remaining minutes, remaining being the limit less the elapsed time. */
  lemma TimeStatusTiers(limit: Option<int>, elapsed: real)
    ensures TimeStatus(limit, elapsed) == NoStatus <==> !HasLimit(limit)
    ensures HasLimit(limit) ==> var remaining := limit.value as real - elapsed;
      && (TimeStatus(limit, elapsed) == Expired <==> remaining <= 0.0)
      && (TimeStatus(limit, elapsed).Urgent? <==> 0.0 < remaining <= 5.0)
      && (TimeStatus(limit, elapsed).Warning? <==> 5.0 < remaining <= 15.0)
      && (TimeStatus(limit, elapsed).Informational? <==> 15.0 < remaining)
  {
  }

  /** As the session goes on the status only gets more pressing. */
  lemma TimeStatusEscalates(limit: Option<int>, earlier: real, later: real)
    requires earlier <= later
    ensures Severity(TimeStatus(limit, earlier)) <= Severity(TimeStatus(limit, later))
  {
  }

  /** The loop's exit test `elapsed_minutes >= self.time_limit_minutes`, under a configured limit. */
  predicate LimitReached(limit: Option<int>, elapsed: real) {
    HasLimit(limit) && elapsed >= limit.value as real
  }

  /** The loop stops on time exactly when the status would read "expired". */
  lemma LimitReachedIffExpired(limit: Option<int>, elapsed: real)
    ensures LimitReached(limit, elapsed) <==> TimeStatus(limit, elapsed) == Expired
  {
  }

  /** With ten minutes allowed: one minute left is urgent, and the tier turns to expired only when nothing is left. */
  lemma TenMinuteExample()
    ensures TimeStatus(Some(10), 9.0) == Urgent(1.0)
    ensures TimeStatus(Some(10), 9.9).Urgent?
    ensures TimeStatus(Some(10), 10.0) == Expired
    ensures TimeStatus(Some(0), 100.0) == NoStatus
  {
  }

  /** `str(n)` for an int. */
  function DecimalText(n: int): (r: string)
    ensures r != []
    ensures n < 0 <==> r[0] == '-'
    decreases if n < 0 then 1 - n else n
  {
    if n < 0 then "-" + DecimalText(-n)
    else if n < 10 then [(48 + n) as char]
    else DecimalText(n / 10) + [(48 + n % 10) as char]
  }

  predicate IsDigit(c: char) {
    '0' <= c <= '9'
  }

  /** `int(s)` for a string of decimal digits. */
  function DecimalValue(s: string): int
    requires forall k :: 0 <= k < |s| ==> IsDigit(s[k])
  {
    if s == [] then 0 else DecimalValue(s[..|s| - 1]) * 10 + (s[|s| - 1] as int - 48)
  }

  /** `str` of a non-negative number is all digits, and reading those digits gives the number back. */
  lemma {:induction false} DecimalRoundTrip(n: nat)
    ensures forall k :: 0 <= k < |DecimalText(n)| ==> IsDigit(DecimalText(n)[k])
    ensures DecimalValue(DecimalText(n)) == n
    decreases n
  {
    if n >= 10 {
      DecimalRoundTrip(n / 10);
      var t := DecimalText(n / 10);
      var r := t + [(48 + n % 10) as char];
      assert DecimalText(n) == r;
      assert r[..|r| - 1] == t;
    }
  }

  /**
   * The message of a tier. `shown` is the remaining time as `:.1f` renders it;
   * float formatting is not part of this model.
   */
  function StatusText(s: Status, shown: string): (r: string)
    ensures r == [] <==> s == NoStatus
  {
    match s
    case NoStatus => ""
    case Expired => "\U{26A0}\U{FE0F} TIME EXPIRED! Wrap up immediately and exit."
    case Urgent(_) =>
      "\U{1F6A8} URGENT: Only " + shown + " minutes left! Prioritize essential tasks and wrap up quickly."
    case Warning(_) =>
      "\U{23F0} " + shown + " minutes remaining. Focus on core requirements, avoid extras."
    case Informational(_, total) =>
      "\U{23F1}\U{FE0F} " + shown + " minutes remaining out of " + DecimalText(total) + " total."
  }
}
