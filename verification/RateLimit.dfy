/** The sliding-window login limiter (src/eclaim/auth/ratelimit.py) and the sequence in
    which the login route calls it (src/eclaim/auth/routes.py).

    The specification is the full, never pruned log of attempts. The class holds what the
    program holds: one deque of failure times per IP and per e-mail, pruned, deleted when
    empty and cleared on a success. */
module RateLimit {
  import opened Prelude

  datatype Attempt = Failure(at: real, ip: string, email: string) | Success(email: string)

  datatype Verdict = Allowed | RateLimited(retryAfter: int)

  // -- the full log ------------------------------------------------------------

  /** Times of the failures from one address. A success does not clear them. */
  function IpTimes(log: seq<Attempt>, ip: string): seq<real> {
    if log == [] then []
    else
      var init, last := log[..|log| - 1], log[|log| - 1];
      if last.Failure? && last.ip == ip then IpTimes(init, ip) + [last.at] else IpTimes(init, ip)
  }

  /** Times of the failures for one e-mail since its last success. */
  function EmailTimes(log: seq<Attempt>, email: string): seq<real> {
    if log == [] then []
    else
      var init, last := log[..|log| - 1], log[|log| - 1];
      if last.email != email then EmailTimes(init, email)
      else if last.Success? then []
      else EmailTimes(init, email) + [last.at]
  }

  /** How many of the times lie in the half-open window (lo, hi]. */
  function Between(ts: seq<real>, lo: real, hi: real): nat {
    if ts == [] then 0
    else Between(ts[..|ts| - 1], lo, hi) + (if lo < ts[|ts| - 1] <= hi then 1 else 0)
  }

  /** How many of the times are later than the cutoff. */
  function After(ts: seq<real>, cutoff: real): nat {
    if ts == [] then 0
    else After(ts[..|ts| - 1], cutoff) + (if cutoff < ts[|ts| - 1] then 1 else 0)
  }

  /** The earliest time later than the cutoff. */
  function OldestAfter(ts: seq<real>, cutoff: real): real
    requires After(ts, cutoff) > 0
  {
    if After(ts[..|ts| - 1], cutoff) > 0 then OldestAfter(ts[..|ts| - 1], cutoff) else ts[|ts| - 1]
  }

  predicate Sorted(ts: seq<real>) {
    forall i, j :: 0 <= i < j < |ts| ==> ts[i] <= ts[j]
  }

  /** The limit that is really enforced: an empty bucket never raises, so a configured
      limit below one acts as one. */
  function Limit(maxAttempts: int): (r: nat)
    ensures r >= 1
  {
    if maxAttempts < 1 then 1 else maxAttempts
  }

  /** Python's int(): towards zero. */
  function Truncate(x: real): int {
    if x >= 0.0 then x.Floor else -((-x).Floor)
  }

  function RetryAfter(window: int, now: real, oldest: real): int {
    var wait := Truncate(window as real - (now - oldest)) + 1;
    if wait < 1 then 1 else wait
  }

  /** The window that ends now holds the limit of these failures. */
  predicate Full(maxAttempts: int, window: int, now: real, ts: seq<real>) {
    After(ts, now - window as real) >= Limit(maxAttempts)
  }

  function BucketVerdict(maxAttempts: int, window: int, now: real, ts: seq<real>): Verdict {
    if Full(maxAttempts, window, now, ts) then
      RateLimited(RetryAfter(window, now, OldestAfter(ts, now - window as real)))
    else Allowed
  }

  // -- the pruned deque ----------------------------------------------------------

  lemma {:induction false} AfterNone(ts: seq<real>, cutoff: real)
    requires forall i :: 0 <= i < |ts| ==> ts[i] <= cutoff
    ensures After(ts, cutoff) == 0
  {
    if ts != [] { AfterNone(ts[..|ts| - 1], cutoff); }
  }

  lemma {:induction false} AfterOneMore(ts: seq<real>, x: real, cutoff: real)
    requires x > cutoff
    ensures After(ts + [x], cutoff) == After(ts, cutoff) + 1
    ensures OldestAfter(ts + [x], cutoff) == if After(ts, cutoff) > 0 then OldestAfter(ts, cutoff) else x
  {
    assert (ts + [x])[..|ts|] == ts;
  }

  lemma {:induction false} AfterSplit(old_: seq<real>, live: seq<real>, cutoff: real)
    requires forall i :: 0 <= i < |old_| ==> old_[i] <= cutoff
    requires forall i :: 0 <= i < |live| ==> live[i] > cutoff
    ensures After(old_ + live, cutoff) == |live|
    ensures live != [] ==> OldestAfter(old_ + live, cutoff) == live[0]
    decreases |live|
  {
    if live == [] {
      assert old_ + live == old_;
      AfterNone(old_, cutoff);
    } else {
      var init, last := live[..|live| - 1], live[|live| - 1];
      AfterSplit(old_, init, cutoff);
      var sofar := old_ + init;
      AfterOneMore(sofar, last, cutoff);
      assert old_ + live == sofar + [last];
      assert init != [] ==> live[0] == init[0];
    }
  }

  /** A deque stands for a full list of times: it is the tail of the list, and what it
      has lost is no later than the cutoff. */
  predicate Represents(dq: seq<real>, full: seq<real>, cutoff: real) {
    && |dq| <= |full|
    && dq == full[|full| - |dq|..]
    && forall i :: 0 <= i < |full| - |dq| ==> full[i] <= cutoff
  }

  method Prune(dq: seq<real>, cutoff: real, ghost full: seq<real>) returns (live: seq<real>)
    requires Sorted(full) && Represents(dq, full, cutoff)
    ensures Represents(live, full, cutoff)
    ensures forall i :: 0 <= i < |live| ==> live[i] > cutoff
  {
    live := dq;
    while live != [] && live[0] <= cutoff
      invariant Represents(live, full, cutoff)
    {
      live := live[1..];
    }
    if live != [] {
      var k := |full| - |live|;
      forall i | 0 <= i < |live| ensures live[i] > cutoff {
        assert live[i] == full[k + i] && full[k] == live[0];
      }
    }
  }

  /** What the loop of `check` reads off the pruned deque is the verdict on the full list. */
  lemma LiveVerdict(maxAttempts: int, window: nat, now: real, full: seq<real>, live: seq<real>)
    requires Represents(live, full, now - window as real)
    requires forall i :: 0 <= i < |live| ==> live[i] > now - window as real
    ensures live == [] ==> BucketVerdict(maxAttempts, window, now, full) == Allowed
    ensures live != [] && |live| < maxAttempts ==> BucketVerdict(maxAttempts, window, now, full) == Allowed
    ensures live != [] && |live| >= maxAttempts ==>
      BucketVerdict(maxAttempts, window, now, full) == RateLimited(RetryAfter(window, now, live[0]))
  {
    var gone := full[..|full| - |live|];
    assert full == gone + live;
    AfterSplit(gone, live, now - window as real);
  }

  function Bucket(buckets: map<string, seq<real>>, key: string): seq<real> {
    if key in buckets then buckets[key] else []
  }

  /** One key's deque agrees with its full list of times, none of them in the future. */
  predicate KeyOk(dq: seq<real>, full: seq<real>, window: nat, clock: real) {
    && Sorted(full)
    && (forall i :: 0 <= i < |full| ==> full[i] <= clock)
    && Represents(dq, full, clock - window as real)
  }

  lemma LaterClock(dq: seq<real>, full: seq<real>, window: nat, clock: real, later: real)
    requires KeyOk(dq, full, window, clock) && clock <= later
    ensures KeyOk(dq, full, window, later)
  {
  }

  lemma AppendNow(dq: seq<real>, full: seq<real>, window: nat, now: real)
    requires KeyOk(dq, full, window, now)
    ensures KeyOk(dq + [now], full + [now], window, now)
  {
  }

  /** The address first, then the e-mail. */
  function CheckVerdict(maxAttempts: int, window: int, now: real, log: seq<Attempt>, ip: string,
                        email: string): Verdict {
    var byIp := BucketVerdict(maxAttempts, window, now, IpTimes(log, ip));
    if byIp.RateLimited? then byIp else BucketVerdict(maxAttempts, window, now, EmailTimes(log, email))
  }

  lemma {:induction false} RefusedIffFull(maxAttempts: int, window: int, now: real, log: seq<Attempt>, ip: string,
                                          email: string)
    ensures CheckVerdict(maxAttempts, window, now, log, ip, email).RateLimited? <==>
      Full(maxAttempts, window, now, IpTimes(log, ip)) || Full(maxAttempts, window, now, EmailTimes(log, email))
  {
  }

  predicate IpOk(ips: map<string, seq<real>>, log: seq<Attempt>, k: string, window: nat, clock: real) {
    KeyOk(Bucket(ips, k), IpTimes(log, k), window, clock)
  }

  predicate EmailOk(emails: map<string, seq<real>>, log: seq<Attempt>, k: string, window: nat, clock: real) {
    KeyOk(Bucket(emails, k), EmailTimes(log, k), window, clock)
  }

  /** Every bucket agrees with its list of times. */
  ghost predicate IpsOk(ips: map<string, seq<real>>, log: seq<Attempt>, window: nat, clock: real) {
    forall k :: IpOk(ips, log, k, window, clock)
  }

  ghost predicate EmailsOk(emails: map<string, seq<real>>, log: seq<Attempt>, window: nat, clock: real) {
    forall k :: EmailOk(emails, log, k, window, clock)
  }

  lemma IpChecked(ips: map<string, seq<real>>, after: map<string, seq<real>>, log: seq<Attempt>, window: nat,
                  clock: real, key: string)
    requires IpsOk(ips, log, window, clock) && IpOk(after, log, key, window, clock)
    requires forall k :: k != key ==> Bucket(after, k) == Bucket(ips, k)
    ensures IpsOk(after, log, window, clock)
  {
    forall k ensures IpOk(after, log, k, window, clock) {
      if k != key {
        assert IpOk(ips, log, k, window, clock);
        assert Bucket(after, k) == Bucket(ips, k);
      }
    }
  }

  lemma EmailChecked(emails: map<string, seq<real>>, after: map<string, seq<real>>, log: seq<Attempt>, window: nat,
                     clock: real, key: string)
    requires EmailsOk(emails, log, window, clock) && EmailOk(after, log, key, window, clock)
    requires forall k :: k != key ==> Bucket(after, k) == Bucket(emails, k)
    ensures EmailsOk(after, log, window, clock)
  {
    forall k ensures EmailOk(after, log, k, window, clock) {
      if k != key {
        assert EmailOk(emails, log, k, window, clock);
        assert Bucket(after, k) == Bucket(emails, k);
      }
    }
  }

  lemma IpFailed(ips: map<string, seq<real>>, log: seq<Attempt>, window: nat, now: real, ip: string, email: string)
    requires IpsOk(ips, log, window, now)
    ensures IpsOk(ips[ip := Bucket(ips, ip) + [now]], log + [Failure(now, ip, email)], window, now)
  {
    var after, next := ips[ip := Bucket(ips, ip) + [now]], log + [Failure(now, ip, email)];
    assert next[..|log|] == log;
    forall k ensures IpOk(after, next, k, window, now) {
      assert IpOk(ips, log, k, window, now);
      if k == ip { AppendNow(Bucket(ips, ip), IpTimes(log, ip), window, now); }
    }
  }

  lemma EmailFailed(emails: map<string, seq<real>>, log: seq<Attempt>, window: nat, now: real, ip: string,
                    email: string)
    requires EmailsOk(emails, log, window, now)
    ensures EmailsOk(emails[email := Bucket(emails, email) + [now]], log + [Failure(now, ip, email)], window, now)
  {
    var after, next := emails[email := Bucket(emails, email) + [now]], log + [Failure(now, ip, email)];
    assert next[..|log|] == log;
    forall k ensures EmailOk(after, next, k, window, now) {
      assert EmailOk(emails, log, k, window, now);
      if k == email { AppendNow(Bucket(emails, email), EmailTimes(log, email), window, now); }
    }
  }

  lemma Succeeded(ips: map<string, seq<real>>, emails: map<string, seq<real>>, log: seq<Attempt>, window: nat,
                  clock: real, email: string)
    requires IpsOk(ips, log, window, clock) && EmailsOk(emails, log, window, clock)
    ensures IpsOk(ips, log + [Success(email)], window, clock)
    ensures EmailsOk(emails - {email}, log + [Success(email)], window, clock)
  {
    var next := log + [Success(email)];
    assert next[..|log|] == log;
    forall k ensures IpOk(ips, next, k, window, clock) {
      assert IpOk(ips, log, k, window, clock);
    }
    forall k ensures EmailOk(emails - {email}, next, k, window, clock) {
      assert EmailOk(emails, log, k, window, clock);
    }
  }

  lemma ClockAdvanced(ips: map<string, seq<real>>, emails: map<string, seq<real>>, log: seq<Attempt>, window: nat,
                      clock: real, now: real)
    requires IpsOk(ips, log, window, clock) && EmailsOk(emails, log, window, clock) && clock <= now
    ensures IpsOk(ips, log, window, now) && EmailsOk(emails, log, window, now)
  {
    forall k ensures IpOk(ips, log, k, window, now) {
      assert IpOk(ips, log, k, window, clock);
      LaterClock(Bucket(ips, k), IpTimes(log, k), window, clock, now);
    }
    forall k ensures EmailOk(emails, log, k, window, now) {
      assert EmailOk(emails, log, k, window, clock);
      LaterClock(Bucket(emails, k), EmailTimes(log, k), window, clock, now);
    }
  }

  class LoginRateLimiter {
    const maxAttempts: int
    const window: nat
    var ips: map<string, seq<real>>
    var emails: map<string, seq<real>>
    ghost var log: seq<Attempt>
    ghost var clock: real

    constructor (maxAttempts: int, window: nat)
      ensures Valid() && log == [] && this.maxAttempts == maxAttempts && this.window == window
      ensures Throttled()
    {
      this.maxAttempts := maxAttempts;
      this.window := window;
      ips := map[];
      emails := map[];
      log := [];
      clock := 0.0;
    }

    /** The pruned, deleted and cleared deques refine the full log. */
    ghost predicate Valid()
      reads this
    {
      IpsOk(ips, log, window, clock) && EmailsOk(emails, log, window, clock)
    }

    /** One bucket's turn in the loop of `check`. */
    method CheckBucket(buckets: map<string, seq<real>>, key: string, now: real, ghost full: seq<real>)
      returns (after: map<string, seq<real>>, verdict: Verdict)
      requires KeyOk(Bucket(buckets, key), full, window, now)
      ensures KeyOk(Bucket(after, key), full, window, now)
      ensures forall k :: k != key ==> Bucket(after, k) == Bucket(buckets, k)
      ensures verdict == BucketVerdict(maxAttempts, window, now, full)
    {
      var dq := Bucket(buckets, key);
      if dq == [] {
        LiveVerdict(maxAttempts, window, now, full, []);
        return buckets, Allowed;
      }
      var live := Prune(dq, now - window as real, full);
      LiveVerdict(maxAttempts, window, now, full, live);
      if live == [] {
        return buckets - {key}, Allowed;
      }
      after := buckets[key := live];
      if |live| >= maxAttempts {
        verdict := RateLimited(RetryAfter(window, now, live[0]));
      } else {
        verdict := Allowed;
      }
    }

    /** Refuses an attempt exactly when the full log holds, inside the window, the limit
        of failures from this address, or for this e-mail since its last success. */
    method Check(ip: string, email: string, now: real) returns (verdict: Verdict)
      requires Valid() && clock <= now
      modifies this
      ensures Valid() && clock == now && log == old(log)
      ensures verdict == CheckVerdict(maxAttempts, window, now, log, ip, email)
      ensures verdict.RateLimited? <==>
        Full(maxAttempts, window, now, IpTimes(log, ip)) || Full(maxAttempts, window, now, EmailTimes(log, email))
    {
      RefusedIffFull(maxAttempts, window, now, log, ip, email);
      AdvanceClock(now);
      assert IpOk(ips, log, ip, window, now) && EmailOk(emails, log, email, window, now);
      var after;
      after, verdict := CheckBucket(ips, ip, now, IpTimes(log, ip));
      IpChecked(ips, after, log, window, now, ip);
      ips := after;
      if verdict.Allowed? {
        after, verdict := CheckBucket(emails, email, now, EmailTimes(log, email));
        EmailChecked(emails, after, log, window, now, email);
        emails := after;
      }
    }

    ghost method AdvanceClock(now: real)
      requires Valid() && clock <= now
      modifies this`clock
      ensures Valid() && clock == now
    {
      ClockAdvanced(ips, emails, log, window, clock, now);
      clock := now;
    }

    method RecordFailure(ip: string, email: string, now: real)
      requires Valid() && clock <= now
      modifies this
      ensures Valid() && clock == now && log == old(log) + [Failure(now, ip, email)]
    {
      AdvanceClock(now);
      IpFailed(ips, log, window, now, ip, email);
      EmailFailed(emails, log, window, now, ip, email);
      ips := ips[ip := Bucket(ips, ip) + [now]];
      emails := emails[email := Bucket(emails, email) + [now]];
      log := log + [Failure(now, ip, email)];
    }

    method RecordSuccess(ip: string, email: string)
      requires Valid()
      modifies this
      ensures Valid() && clock == old(clock) && log == old(log) + [Success(email)]
    {
      Succeeded(ips, emails, log, window, clock, email);
      emails := emails - {email};
      log := log + [Success(email)];
    }

    /** Every failure in the log was preceded by a check that let it through. */
    ghost predicate Throttled()
      reads this
    {
      ThrottledLog(log, window, Limit(maxAttempts))
    }

    /** The login route: check, authenticate, record. */
    method Login(ip: string, email: string, checkedAt: real, recordedAt: real, credentialsOk: bool)
      returns (verdict: Verdict)
      requires Valid() && Throttled() && clock <= checkedAt <= recordedAt
      modifies this
      ensures Valid() && Throttled()
      ensures verdict.RateLimited? ==> log == old(log)
      ensures verdict.Allowed? ==>
        log == old(log) + [if credentialsOk then Success(email) else Failure(recordedAt, ip, email)]
      ensures verdict.RateLimited? <==>
        || old(Full(maxAttempts, window, checkedAt, IpTimes(log, ip)))
        || old(Full(maxAttempts, window, checkedAt, EmailTimes(log, email)))
    {
      verdict := Check(ip, email, checkedAt);
      if verdict.RateLimited? {
        return;
      }
      ThrottledNext(log, window, Limit(maxAttempts), ip, email, checkedAt, recordedAt);
      if !credentialsOk {
        RecordFailure(ip, email, recordedAt);
      } else {
        RecordSuccess(ip, email);
      }
    }
  }

  // -- what serial logins guarantee ------------------------------------------------

  predicate ThrottledLog(log: seq<Attempt>, window: nat, limit: nat) {
    log != [] ==>
      var init, last := log[..|log| - 1], log[|log| - 1];
      && ThrottledLog(init, window, limit)
      && (last.Failure? ==>
           && After(IpTimes(init, last.ip), last.at - window as real) < limit
           && After(EmailTimes(init, last.email), last.at - window as real) < limit)
  }

  lemma {:induction false} AfterShrinks(ts: seq<real>, early: real, late: real)
    requires early <= late
    ensures After(ts, late) <= After(ts, early)
  {
    if ts != [] {
      AfterShrinks(ts[..|ts| - 1], early, late);
    }
  }

  lemma ThrottledNext(log: seq<Attempt>, window: nat, limit: nat, ip: string, email: string, checkedAt: real,
                      recordedAt: real)
    requires ThrottledLog(log, window, limit) && checkedAt <= recordedAt
    requires After(IpTimes(log, ip), checkedAt - window as real) < limit
    requires After(EmailTimes(log, email), checkedAt - window as real) < limit
    ensures ThrottledLog(log + [Success(email)], window, limit)
    ensures ThrottledLog(log + [Failure(recordedAt, ip, email)], window, limit)
  {
    AfterShrinks(IpTimes(log, ip), checkedAt - window as real, recordedAt - window as real);
    AfterShrinks(EmailTimes(log, email), checkedAt - window as real, recordedAt - window as real);
    assert (log + [Success(email)])[..|log|] == log;
    assert (log + [Failure(recordedAt, ip, email)])[..|log|] == log;
  }

  lemma {:induction false} BetweenWithinAfter(ts: seq<real>, lo: real, hi: real, cutoff: real)
    requires cutoff <= lo
    ensures Between(ts, lo, hi) <= After(ts, cutoff)
  {
    if ts != [] {
      BetweenWithinAfter(ts[..|ts| - 1], lo, hi, cutoff);
    }
  }

  /** No window of the configured length, wherever it ends, holds more failures from one
      address than the limit. */
  lemma {:induction false} NoWindowExceedsLimit(log: seq<Attempt>, window: nat, limit: nat, ip: string, end: real)
    requires ThrottledLog(log, window, limit)
    ensures Between(IpTimes(log, ip), end - window as real, end) <= limit
  {
    if log != [] {
      var init, last := log[..|log| - 1], log[|log| - 1];
      NoWindowExceedsLimit(init, window, limit, ip, end);
      if last.Failure? && last.ip == ip {
        var ts := IpTimes(log, ip);
        assert ts[..|ts| - 1] == IpTimes(init, ip);
        if end - window as real < last.at <= end {
          BetweenWithinAfter(IpTimes(init, ip), end - window as real, end, last.at - window as real);
        }
      }
    }
  }

  /** The same for one e-mail since its last success. */
  lemma {:induction false} NoEmailWindowExceedsLimit(log: seq<Attempt>, window: nat, limit: nat, email: string,
                                                     end: real)
    requires ThrottledLog(log, window, limit)
    ensures Between(EmailTimes(log, email), end - window as real, end) <= limit
  {
    if log != [] {
      var init, last := log[..|log| - 1], log[|log| - 1];
      NoEmailWindowExceedsLimit(init, window, limit, email, end);
      if last.Failure? && last.email == email {
        var ts := EmailTimes(log, email);
        assert ts[..|ts| - 1] == EmailTimes(init, email);
        if end - window as real < last.at <= end {
          BetweenWithinAfter(EmailTimes(init, email), end - window as real, end, last.at - window as real);
        }
      }
    }
  }

  lemma {:induction false} AfterTotal(ts: seq<real>, cutoff: real, now: real)
    requires forall i :: 0 <= i < |ts| ==> ts[i] <= now
    ensures Between(ts, cutoff, now) == After(ts, cutoff)
  {
    if ts != [] {
      AfterTotal(ts[..|ts| - 1], cutoff, now);
    }
  }

  lemma {:induction false} OldestIsCounted(ts: seq<real>, cutoff: real, later: real)
    requires After(ts, cutoff) > 0 && cutoff <= later && OldestAfter(ts, cutoff) <= later
    ensures OldestAfter(ts, cutoff) > cutoff
    ensures After(ts, later) < After(ts, cutoff)
  {
    var init := ts[..|ts| - 1];
    if After(init, cutoff) > 0 {
      OldestIsCounted(init, cutoff, later);
    } else {
      AfterShrinks(init, cutoff, later);
    }
  }

  lemma {:induction false} OldestInWindow(ts: seq<real>, cutoff: real)
    requires After(ts, cutoff) > 0
    ensures OldestAfter(ts, cutoff) > cutoff
  {
    if After(ts[..|ts| - 1], cutoff) > 0 {
      OldestInWindow(ts[..|ts| - 1], cutoff);
    }
  }

  /** The promised wait is enough: once `retryAfter` seconds have passed without a new
      failure, the oldest counted attempt has aged out, and a bucket that serial logins
      filled is open again. */
  lemma WaitingReopens(maxAttempts: int, window: nat, now: real, ts: seq<real>)
    requires BucketVerdict(maxAttempts, window, now, ts).RateLimited?
    ensures
      var verdict := BucketVerdict(maxAttempts, window, now, ts);
      var later := now + verdict.retryAfter as real;
      && verdict.retryAfter >= 1
      && OldestAfter(ts, now - window as real) <= later - window as real
      && After(ts, later - window as real) < After(ts, now - window as real)
      && (After(ts, now - window as real) <= Limit(maxAttempts) ==>
           BucketVerdict(maxAttempts, window, later, ts).Allowed?)
  {
    var cutoff := now - window as real;
    OldestInWindow(ts, cutoff);
    var later := now + BucketVerdict(maxAttempts, window, now, ts).retryAfter as real;
    OldestIsCounted(ts, cutoff, later - window as real);
  }

  /** In a throttled log a bucket never holds more than the limit, so the wait always
      reopens it. */
  lemma {:induction false} ThrottledBucketsReopen(log: seq<Attempt>, maxAttempts: int, window: nat, now: real,
                                                  ip: string)
    requires ThrottledLog(log, window, Limit(maxAttempts))
    requires forall i :: 0 <= i < |IpTimes(log, ip)| ==> IpTimes(log, ip)[i] <= now
    requires BucketVerdict(maxAttempts, window, now, IpTimes(log, ip)).RateLimited?
    ensures
      var wait := BucketVerdict(maxAttempts, window, now, IpTimes(log, ip)).retryAfter;
      BucketVerdict(maxAttempts, window, now + wait as real, IpTimes(log, ip)).Allowed?
  {
    NoWindowExceedsLimit(log, window, Limit(maxAttempts), ip, now);
    AfterTotal(IpTimes(log, ip), now - window as real, now);
    WaitingReopens(maxAttempts, window, now, IpTimes(log, ip));
  }

  /** And so for the bucket of an e-mail. */
  lemma {:induction false} ThrottledEmailsReopen(log: seq<Attempt>, maxAttempts: int, window: nat, now: real,
                                                 email: string)
    requires ThrottledLog(log, window, Limit(maxAttempts))
    requires forall i :: 0 <= i < |EmailTimes(log, email)| ==> EmailTimes(log, email)[i] <= now
    requires BucketVerdict(maxAttempts, window, now, EmailTimes(log, email)).RateLimited?
    ensures
      var wait := BucketVerdict(maxAttempts, window, now, EmailTimes(log, email)).retryAfter;
      BucketVerdict(maxAttempts, window, now + wait as real, EmailTimes(log, email)).Allowed?
  {
    NoEmailWindowExceedsLimit(log, window, Limit(maxAttempts), email, now);
    AfterTotal(EmailTimes(log, email), now - window as real, now);
    WaitingReopens(maxAttempts, window, now, EmailTimes(log, email));
  }
}
