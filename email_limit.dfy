/**
 * The email rate limit of a member profile, on values: when was the last
 * message sent, how many were sent, and how many the profile may ever send.
 * `wait` is the configured minimum pause between two messages, in minutes.
 */
module EmailLimit {
  import opened Base

  /** The three profile columns that rate-limit outbound email. */
  datatype EmailLog = EmailLog(lastSent: Option<Time>, sent: int, allowed: int)

  /**
   * Time since the last message. A profile that never sent one is treated as
   * having waited one minute more than the wait period.
   */
  function Elapsed(log: EmailLog, now: Time, wait: int): (d: int)
    ensures log.lastSent.None? ==> d > wait * MicrosPerMinute
    ensures log.lastSent.Some? ==> d == now - log.lastSent.value
  {
    match log.lastSent
    case Some(t) => now - t
    case None => (wait + 1) * MicrosPerMinute
  }

  /** Whether the profile may send a message at `now`. */
  function CanSend(log: EmailLog, now: Time, wait: int): (ok: bool)
    // the count alone can block, whatever the time
    ensures log.sent >= log.allowed ==> !ok
    // a message within the wait period is blocked, even under the cap
    ensures log.lastSent.Some? && now - log.lastSent.value <= wait * MicrosPerMinute ==> !ok
    // both conditions together, with "never sent" counting as long enough ago
    ensures ok <==> (log.lastSent.None? || now - log.lastSent.value > wait * MicrosPerMinute)
                    && log.sent < log.allowed
  {
    Elapsed(log, now, wait) > wait * MicrosPerMinute && log.sent < log.allowed
  }

  /** The log after a message was sent at `now`: the time is stamped and the count goes up. */
  function Recorded(log: EmailLog, now: Time): (r: EmailLog)
    ensures r.lastSent == Some(now)
    // the count goes up by exactly one and the cap is untouched
    ensures r.sent == log.sent + 1 && r.allowed == log.allowed
  {
    log.(lastSent := Some(now), sent := log.sent + 1)
  }

  /** The log after recording a message at each of `times`, in order. */
  function Run(log: EmailLog, times: seq<Time>): (r: EmailLog)
    decreases |times|
  {
    if times == [] then log else Run(Recorded(log, times[0]), times[1..])
  }

  /** Each message of `times` was sent only after `CanSend` held at its own instant. */
  predicate Guarded(log: EmailLog, times: seq<Time>, wait: int)
    decreases |times|
  {
    times == [] || (CanSend(log, times[0], wait) && Guarded(Recorded(log, times[0]), times[1..], wait))
  }

  /** Right after a send, at the same instant, no further send is allowed. */
  lemma SameInstantBlocked(log: EmailLog, now: Time, wait: int)
    requires wait >= 0
    ensures !CanSend(Recorded(log, now), now, wait)
  {
  }

  /**
   * Recording messages only ever adds to the count and never touches the cap;
   * the last stamp is the time of the last message.
   */
  lemma {:induction false} RunCounts(log: EmailLog, times: seq<Time>)
    ensures Run(log, times).sent == log.sent + |times|
    ensures Run(log, times).allowed == log.allowed
    ensures Run(log, times).lastSent == if times == [] then log.lastSent else Some(times[|times| - 1])
    decreases |times|
  {
    if times != [] {
      RunCounts(Recorded(log, times[0]), times[1..]);
    }
  }

  /** The cap is a lifetime limit: once reached, no later check ever passes. */
  lemma {:induction false} CapIsPermanent(log: EmailLog, times: seq<Time>, now: Time, wait: int)
    requires log.sent >= log.allowed
    ensures !CanSend(Run(log, times), now, wait)
  {
    RunCounts(log, times);
  }

  /** Messages sent only when allowed never take the count past the cap. */
  lemma {:induction false} GuardedWithinCap(log: EmailLog, times: seq<Time>, wait: int)
    requires Guarded(log, times, wait)
    ensures times != [] ==> log.sent + |times| <= log.allowed
    decreases |times|
  {
    if times != [] {
      GuardedWithinCap(Recorded(log, times[0]), times[1..], wait);
    }
  }

  /** Messages sent only when allowed are more than the wait period apart. */
  lemma {:induction false} GuardedSpacing(log: EmailLog, times: seq<Time>, wait: int)
    requires Guarded(log, times, wait)
    ensures forall i :: 0 <= i < |times| - 1 ==> times[i + 1] - times[i] > wait * MicrosPerMinute
    decreases |times|
  {
    if times != [] {
      var rest := times[1..];
      GuardedSpacing(Recorded(log, times[0]), rest, wait);
      forall i | 0 <= i < |times| - 1
        ensures times[i + 1] - times[i] > wait * MicrosPerMinute
      {
        if i > 0 {
          assert times[i + 1] == rest[i] && times[i] == rest[i - 1];
        }
      }
    }
  }
}
