/**
 The login of the command line client polls a token endpoint (sections 3.4 and 3.5 of RFC 8628)
 until the user approves, the code expires or the login is cancelled.  Times are in nanoseconds;
 durations are 64-bit and wrap around.
 */
module DevicePoll {
  const SECOND: int := 1_000_000_000
  const TWO63: int := 0x8000_0000_0000_0000
  const DEFAULT_INTERVAL: int := 5 * SECOND
  const SLOW_DOWN: int := 5 * SECOND

  function Wrap(x: int): (r: int)
    ensures -TWO63 <= r < TWO63
    ensures -TWO63 <= x < TWO63 ==> r == x
    ensures x >= 0 ==> r <= x
  {
    (x + TWO63) % (2 * TWO63) - TWO63
  }

  datatype Authorization = Authorization(expiresIn: int, interval: int)

  datatype Reply =
    Token(token: string) | Pending | SlowDown | Expired | OtherError(code: string) | Broken(error: string)

  /** What happens around one request: time that passes before the expiry check, while the request
      is under way, and beyond the time asked of the sleep that follows. */
  datatype Round = Round(reply: Reply, waited: nat, took: nat, overslept: nat)

  datatype Result =
    Granted(token: string) | CodeExpired | Cancelled | EndpointError(code: string) | HardError(error: string)

  datatype Request = Request(at: int, reply: Reply)

  datatype Trace = Trace(result: Result, requests: seq<Request>, slept: seq<int>)

  function Base(da: Authorization): int { if da.interval > 0 then Wrap(da.interval * SECOND) else DEFAULT_INTERVAL }

  function Lifetime(da: Authorization): int { Wrap(da.expiresIn * SECOND) }

  /** A sleep of a negative duration returns at once. */
  function Slept(d: int): nat { if d > 0 then d else 0 }

  function NextInterval(interval: int, reply: Reply): int {
    if reply.SlowDown? then Wrap(interval + SLOW_DOWN) else interval
  }

  function Later(now: int, interval: int, round: Round): int {
    now + round.waited + round.took + Slept(NextInterval(interval, round.reply)) + round.overslept
  }

  /** The rounds to come, the login being cancelled where they end. */
  function Poll(expires: bool, deadline: int, now: int, interval: int, rounds: seq<Round>): Trace
    decreases |rounds|
  {
    if rounds == [] then Trace(Cancelled, [], [])
    else
      var round, at := rounds[0], now + rounds[0].waited;
      if expires && at > deadline then Trace(CodeExpired, [], [])
      else
        var request := Request(at, round.reply);
        match round.reply
        case Token(token) => Trace(Granted(token), [request], [])
        case Expired => Trace(CodeExpired, [request], [])
        case OtherError(code) => Trace(EndpointError(code), [request], [])
        case Broken(error) => Trace(HardError(error), [request], [])
        case _ =>
          var next := NextInterval(interval, round.reply);
          var rest := Poll(expires, deadline, Later(now, interval, round), next, rounds[1..]);
          Trace(rest.result, [request] + rest.requests, [next] + rest.slept)
    }

  function PollFrom(da: Authorization, start: int, rounds: seq<Round>): Trace {
    Poll(da.expiresIn > 0, start + Lifetime(da), start, Base(da), rounds)
  }

  // ---------- The interval ----------

  function SlowDowns(requests: seq<Request>): nat {
    if requests == [] then 0 else (if requests[0].reply.SlowDown? then 1 else 0) + SlowDowns(requests[1..])
  }

  function Sum(s: seq<int>): int { if s == [] then 0 else s[0] + Sum(s[1..]) }

  /** The k-th sleep of a trace that starts at this interval is as long as the slow_downs seen by then ask for. */
  predicate IntervalsFollow(interval: int, t: Trace) {
    forall k | 0 <= k < |t.slept| && k < |t.requests| ::
      t.slept[k] == interval + SLOW_DOWN * SlowDowns(t.requests[..k + 1])
  }

  lemma {:induction false} SleepsAndRequests(expires: bool, deadline: int, now: int, interval: int, rounds: seq<Round>)
    ensures var t := Poll(expires, deadline, now, interval, rounds);
      && |t.slept| <= |t.requests| <= |t.slept| + 1 && |t.requests| <= |rounds|
      && (t.result == Cancelled ==> |t.requests| == |rounds|)
    decreases |rounds|
  {
    if rounds != [] {
      var next := NextInterval(interval, rounds[0].reply);
      SleepsAndRequests(expires, deadline, Later(now, interval, rounds[0]), next, rounds[1..]);
    }
  }

  lemma FirstRequestInTime(deadline: int, now: int, interval: int, rounds: seq<Round>)
    ensures var t := Poll(true, deadline, now, interval, rounds);
            t.requests != [] ==> now <= t.requests[0].at <= deadline
  {}

  /** The trace is one request and one sleep longer than the rest of it. */
  predicate Longer(t: Trace, request: Request, next: int, rest: Trace) {
    t.requests == [request] + rest.requests && t.slept == [next] + rest.slept
  }

  lemma LongerSum(t: Trace, request: Request, next: int, rest: Trace)
    requires Longer(t, request, next, rest) && rest.requests != [] && |rest.requests| - 1 <= |rest.slept|
    ensures Sum(t.slept[..|t.requests| - 1]) == next + Sum(rest.slept[..|rest.requests| - 1])
  {
    var s := t.slept[..|t.requests| - 1];
    assert s[0] == next && s[1..] == rest.slept[..|rest.requests| - 1];
  }

  lemma LongerIntervals(interval: int, t: Trace, request: Request, next: int, rest: Trace)
    requires Longer(t, request, next, rest) && IntervalsFollow(next, rest)
    requires next == interval + if request.reply.SlowDown? then SLOW_DOWN else 0
    ensures IntervalsFollow(interval, t)
  {
    forall k | 0 <= k < |t.slept| && k < |t.requests|
      ensures t.slept[k] == interval + SLOW_DOWN * SlowDowns(t.requests[..k + 1])
    {
      assert t.requests[..k + 1][0] == request && t.requests[..k + 1][1..] == rest.requests[..k];
      if k > 0 { assert t.slept[k] == rest.slept[k - 1]; }
    }
  }

  /** Neither this interval nor any that can still be slept wraps around: one slow_down fits into 64 bits,
      and a second does too or comes too late for another request. */
  predicate NoWrap(interval: int, left: int) {
    interval + SLOW_DOWN < TWO63 && (interval + 2 * SLOW_DOWN < TWO63 || left < interval + SLOW_DOWN)
  }

  /** All sleeps but one after the last request fit into what is left of the lifetime, and each
      is the interval plus five seconds for every slow_down so far. */
  lemma {:induction false} SleepsFit(deadline: int, now: int, interval: int, rounds: seq<Round>)
    requires 0 <= interval && NoWrap(interval, deadline - now) && deadline - now < TWO63
    ensures var t := Poll(true, deadline, now, interval, rounds);
      t.requests != [] ==>
        && |t.requests| - 1 <= |t.slept| && Sum(t.slept[..|t.requests| - 1]) <= deadline - now
        && IntervalsFollow(interval, t)
    decreases |rounds|
  {
    var t := Poll(true, deadline, now, interval, rounds);
    SleepsAndRequests(true, deadline, now, interval, rounds);
    if t.requests != [] && t.slept == [] { assert t.slept[..|t.requests| - 1] == []; }
    if t.requests != [] && t.slept != [] {
      var next, later := NextInterval(interval, rounds[0].reply), Later(now, interval, rounds[0]);
      var rest := Poll(true, deadline, later, next, rounds[1..]);
      FirstRequestInTime(deadline, later, next, rounds[1..]);
      SleepsAndRequests(true, deadline, later, next, rounds[1..]);
      if rest.requests == [] {
        assert t.slept[..0] == [];
        assert IntervalsFollow(next, rest);
      } else {
        SleepsFit(deadline, later, next, rounds[1..]);
        LongerSum(t, t.requests[0], next, rest);
      }
      LongerIntervals(interval, t, t.requests[0], next, rest);
    }
  }

  /** Five seconds for every slow_down, counted again at every sleep it lengthens. */
  function Lengthened(requests: seq<Request>, sleeps: nat): int
    requires sleeps <= |requests|
  {
    if sleeps == 0 then 0 else Lengthened(requests, sleeps - 1) + SlowDowns(requests[..sleeps])
  }

  lemma {:induction false} SumSnoc(s: seq<int>, x: int)
    ensures Sum(s + [x]) == Sum(s) + x
  {
    if s == [] {
      assert (s + [x])[1..] == [];
    } else {
      assert (s + [x])[1..] == s[1..] + [x];
      SumSnoc(s[1..], x);
    }
  }

  lemma {:induction false} SumOfSleeps(interval: int, t: Trace, k: nat)
    requires IntervalsFollow(interval, t) && k <= |t.slept| && k <= |t.requests|
    ensures Sum(t.slept[..k]) == k * interval + SLOW_DOWN * Lengthened(t.requests, k)
  {
    if k > 0 {
      SumOfSleeps(interval, t, k - 1);
      assert t.slept[..k] == t.slept[..k - 1] + [t.slept[k - 1]];
      SumSnoc(t.slept[..k - 1], t.slept[k - 1]);
      assert k * interval == (k - 1) * interval + interval;
    }
  }

  // ---------- The bound ----------

  /** The base interval as the endpoint means it, before it is put into 64 bits. */
  function Asked(da: Authorization): int { if da.interval > 0 then da.interval * SECOND else DEFAULT_INTERVAL }

  /** With n requests, n - 1 base intervals and five seconds for each slow_down at each sleep it lengthens
      fit into the lifetime of the code; and each sleep is exactly the base interval plus five seconds
      for every slow_down seen. */
  predicate Bounded(da: Authorization, start: int, rounds: seq<Round>) {
    var t := PollFrom(da, start, rounds);
    && |t.slept| <= |t.requests| <= |t.slept| + 1
    && (t.requests != [] ==>
          && (|t.requests| - 1) * Asked(da) + SLOW_DOWN * Lengthened(t.requests, |t.requests| - 1)
             <= da.expiresIn * SECOND
          && IntervalsFollow(Asked(da), t))
  }

  /** What can be told of an authorization before the first request: its lifetime wraps to a time that
      has passed already, or no interval that is slept wraps. */
  predicate Sound(da: Authorization) { Lifetime(da) < 0 || NoWrap(Asked(da), Lifetime(da)) }

  lemma NoTimeNoRequest(deadline: int, now: int, interval: int, rounds: seq<Round>)
    requires deadline < now
    ensures Poll(true, deadline, now, interval, rounds).requests == []
    ensures Poll(true, deadline, now, interval, rounds).slept == []
    ensures rounds != [] ==> Poll(true, deadline, now, interval, rounds).result == CodeExpired
  {}

  lemma SoundIsBounded(da: Authorization, start: int, rounds: seq<Round>)
    requires da.expiresIn > 0 && Sound(da)
    ensures Bounded(da, start, rounds)
  {
    var t := PollFrom(da, start, rounds);
    if Lifetime(da) < 0 {
      NoTimeNoRequest(start + Lifetime(da), start, Base(da), rounds);
    } else {
      SleepsAndRequests(true, start + Lifetime(da), start, Base(da), rounds);
      SleepsFit(start + Lifetime(da), start, Base(da), rounds);
      if t.requests != [] { SumOfSleeps(Base(da), t, |t.requests| - 1); }
    }
  }

  /** A round that takes no time but the sleep that follows it. */
  function Prompt(reply: Reply): Round { Round(reply, 0, 0, 0) }

  lemma OneSlowDown(deadline: int, now: int, interval: int)
    requires now <= deadline
    ensures Poll(true, deadline, now, interval, [Prompt(SlowDown)])
         == Trace(Cancelled, [Request(now, SlowDown)], [Wrap(interval + SLOW_DOWN)])
  {
    assert [Prompt(SlowDown)][1..] == [];
  }

  lemma TwoSlowDowns(deadline: int, now: int, interval: int, next: int)
    requires next == Wrap(interval + SLOW_DOWN) && next >= 0 && now + next <= deadline
    ensures Poll(true, deadline, now, interval, [Prompt(SlowDown), Prompt(SlowDown)])
         == Trace(Cancelled, [Request(now, SlowDown), Request(now + next, SlowDown)], [next, Wrap(next + SLOW_DOWN)])
  {
    assert [Prompt(SlowDown), Prompt(SlowDown)][1..] == [Prompt(SlowDown)];
    OneSlowDown(deadline, now + next, next);
  }

  lemma CountedSlowDowns(a: Request, b: Request)
    requires a.reply == SlowDown && b.reply == SlowDown
    ensures SlowDowns([a]) == 1 && SlowDowns([a, b]) == 2
  {
    assert [a][1..] == [] && [a, b][1..] == [b] && [b][1..] == [];
  }

  lemma FirstSleepTells(da: Authorization, start: int)
    requires da.expiresIn > 0 && Lifetime(da) >= 0 && Bounded(da, start, [Prompt(SlowDown)])
    ensures Asked(da) + SLOW_DOWN < TWO63 && Base(da) == Asked(da)
  {
    var t := PollFrom(da, start, [Prompt(SlowDown)]);
    OneSlowDown(start + Lifetime(da), start, Base(da));
    CountedSlowDowns(t.requests[0], t.requests[0]);
    assert t.requests[..1] == t.requests;
    assert t.slept[0] == Asked(da) + SLOW_DOWN * 1;
  }

  lemma SecondSleepTells(da: Authorization, start: int)
    requires da.expiresIn > 0 && Asked(da) + SLOW_DOWN < TWO63 && Base(da) == Asked(da)
    requires Asked(da) + SLOW_DOWN <= Lifetime(da) && Bounded(da, start, [Prompt(SlowDown), Prompt(SlowDown)])
    ensures Asked(da) + 2 * SLOW_DOWN < TWO63
  {
    var t := PollFrom(da, start, [Prompt(SlowDown), Prompt(SlowDown)]);
    TwoSlowDowns(start + Lifetime(da), start, Base(da), Wrap(Base(da) + SLOW_DOWN));
    CountedSlowDowns(t.requests[0], t.requests[1]);
    assert t.requests[..2] == t.requests;
    assert t.slept[1] == Asked(da) + SLOW_DOWN * 2;
  }

  /** One or two slow_downs are all it takes to make an interval wrap that can wrap. */
  lemma UnsoundIsUnbounded(da: Authorization, start: int)
    requires da.expiresIn > 0 && !Sound(da)
    ensures !Bounded(da, start, [Prompt(SlowDown)]) || !Bounded(da, start, [Prompt(SlowDown), Prompt(SlowDown)])
  {
    if Bounded(da, start, [Prompt(SlowDown)]) && Bounded(da, start, [Prompt(SlowDown), Prompt(SlowDown)]) {
      FirstSleepTells(da, start);
      if Asked(da) + SLOW_DOWN <= Lifetime(da) { SecondSleepTells(da, start); }
    }
  }

  /** The poll bound, exactly: it holds of an authorization whatever the replies and their timing if and
      only if no interval that can be slept wraps around. */
  lemma PollBound(da: Authorization)
    requires da.expiresIn > 0
    ensures (forall start, rounds :: Bounded(da, start, rounds)) <==> Sound(da)
  {
    if Sound(da) {
      forall start, rounds ensures Bounded(da, start, rounds) { SoundIsBounded(da, start, rounds); }
    } else {
      UnsoundIsUnbounded(da, 0);
    }
  }

  /** In seconds, for what an endpoint can send without overflowing the conversions themselves. */
  lemma SoundInSeconds(da: Authorization)
    requires 0 < da.expiresIn * SECOND < TWO63 && 0 < da.interval * SECOND < TWO63
    ensures Sound(da) <==>
      && (da.interval + 5) * SECOND < TWO63
      && ((da.interval + 10) * SECOND < TWO63 || da.expiresIn < da.interval + 5)
  {}

  // ---------- The result ----------

  /** The reply that lets the client ask again. */
  predicate AsksAgain(reply: Reply) { reply == Pending || reply == SlowDown }

  /** The interval after k rounds: the base, and five seconds for each slow_down, in 64 bits. */
  function IntervalAfter(base: int, rounds: seq<Round>, k: nat): int
    requires k <= |rounds|
  {
    if k == 0 then base
    else
      var before := IntervalAfter(base, rounds, k - 1);
      if rounds[k - 1].reply == SlowDown then Wrap(before + 5 * SECOND) else before
  }

  /** The clock when k rounds are behind: each took its time, and then the sleep asked for, if it is positive. */
  function ClockAfter(start: int, base: int, rounds: seq<Round>, k: nat): int
    requires k <= |rounds|
  {
    if k == 0 then start
    else
      var round, interval := rounds[k - 1], IntervalAfter(base, rounds, k);
      ClockAfter(start, base, rounds, k - 1)
      + round.waited + round.took + (if interval > 0 then interval else 0) + round.overslept
  }

  /** When the request of round k would start. */
  function StartOf(start: int, base: int, rounds: seq<Round>, k: nat): int
    requires k < |rounds|
  {
    ClockAfter(start, base, rounds, k) + rounds[k].waited
  }

  lemma {:induction false} IntervalFromSecond(base: int, rounds: seq<Round>, k: nat)
    requires k < |rounds|
    ensures IntervalAfter(base, rounds, k + 1) == IntervalAfter(IntervalAfter(base, rounds, 1), rounds[1..], k)
  {
    if k > 0 { IntervalFromSecond(base, rounds, k - 1); }
  }

  lemma {:induction false} ClockFromSecond(start: int, base: int, rounds: seq<Round>, k: nat)
    requires k < |rounds|
    ensures ClockAfter(start, base, rounds, k + 1)
         == ClockAfter(ClockAfter(start, base, rounds, 1), IntervalAfter(base, rounds, 1), rounds[1..], k)
  {
    if k > 0 {
      ClockFromSecond(start, base, rounds, k - 1);
      IntervalFromSecond(base, rounds, k);
    }
  }

  /** Request k is that of round k, at its time and within the lifetime if there is one; and unless it is the
      last, its reply asked the client to ask again. */
  predicate AskedAt(expires: bool, deadline: int, start: int, base: int, rounds: seq<Round>, requests: seq<Request>,
      k: nat)
    requires k < |requests| <= |rounds|
  {
    && requests[k] == Request(StartOf(start, base, rounds, k), rounds[k].reply)
    && (expires ==> requests[k].at <= deadline)
    && (k < |requests| - 1 ==> AsksAgain(rounds[k].reply))
  }

  predicate Asks(expires: bool, deadline: int, start: int, base: int, rounds: seq<Round>, requests: seq<Request>) {
    && |requests| <= |rounds|
    && forall k | 0 <= k < |requests| :: AskedAt(expires, deadline, start, base, rounds, requests, k)
  }

  /** All requests made were answered by pending or slow_down. */
  ghost predicate StillAsking(rounds: seq<Round>, n: nat)
    requires n <= |rounds|
  {
    forall k | 0 <= k < n :: AsksAgain(rounds[k].reply)
  }

  /** The last of n requests was answered so. */
  predicate LastReply(rounds: seq<Round>, n: nat, reply: Reply)
    requires n <= |rounds|
  {
    n > 0 && rounds[n - 1].reply == reply
  }

  /** What the login comes to: the last reply decides, and if that asked again, the clock and the cancellation. */
  ghost predicate Concludes(expires: bool, deadline: int, start: int, base: int, rounds: seq<Round>, r: Result, n: nat)
    requires n <= |rounds|
  {
    && (forall token :: r == Granted(token) <==> LastReply(rounds, n, Token(token)))
    && (forall code :: r == EndpointError(code) <==> LastReply(rounds, n, OtherError(code)))
    && (forall error :: r == HardError(error) <==> LastReply(rounds, n, Broken(error)))
    && (r == CodeExpired
        <==> LastReply(rounds, n, Expired)
             || (StillAsking(rounds, n) && n < |rounds| && expires && StartOf(start, base, rounds, n) > deadline))
    && (r == Cancelled <==> StillAsking(rounds, n) && n == |rounds|)
  }

  lemma FirstRoundAsks(expires: bool, deadline: int, start: int, base: int, rounds: seq<Round>)
    requires rounds != [] && (start + rounds[0].waited <= deadline || !expires ==> !AsksAgain(rounds[0].reply))
    ensures Asks(expires, deadline, start, base, rounds, Poll(expires, deadline, start, base, rounds).requests)
  {
    assert StartOf(start, base, rounds, 0) == start + rounds[0].waited;
  }

  lemma FirstRoundConcludes(expires: bool, deadline: int, start: int, base: int, rounds: seq<Round>)
    requires rounds != [] && (start + rounds[0].waited <= deadline || !expires ==> !AsksAgain(rounds[0].reply))
    ensures var t := Poll(expires, deadline, start, base, rounds);
            |t.requests| <= 1 && Concludes(expires, deadline, start, base, rounds, t.result, |t.requests|)
  {
    assert StartOf(start, base, rounds, 0) == start + rounds[0].waited;
  }

  lemma LaterStart(start: int, base: int, rounds: seq<Round>, k: nat)
    requires k + 1 < |rounds|
    ensures StartOf(start, base, rounds, k + 1)
         == StartOf(ClockAfter(start, base, rounds, 1), IntervalAfter(base, rounds, 1), rounds[1..], k)
  {
    ClockFromSecond(start, base, rounds, k);
  }

  /** A first round that asks again, and the poll that goes on from it. */
  lemma PollGoesOn(expires: bool, deadline: int, start: int, base: int, rounds: seq<Round>)
    returns (later: int, next: int, rest: Trace)
    requires rounds != [] && (expires ==> start + rounds[0].waited <= deadline) && AsksAgain(rounds[0].reply)
    ensures later == ClockAfter(start, base, rounds, 1) && next == IntervalAfter(base, rounds, 1)
    ensures rest == Poll(expires, deadline, later, next, rounds[1..])
    ensures var t := Poll(expires, deadline, start, base, rounds);
            && t.requests == [Request(start + rounds[0].waited, rounds[0].reply)] + rest.requests
            && t.result == rest.result
  {
    next, later := IntervalAfter(base, rounds, 1), ClockAfter(start, base, rounds, 1);
    assert IntervalAfter(base, rounds, 0) == base && ClockAfter(start, base, rounds, 0) == start;
    rest := Poll(expires, deadline, later, next, rounds[1..]);
  }

  lemma AskedOnceMore(expires: bool, deadline: int, start: int, base: int, later: int, next: int, rounds: seq<Round>,
      rest: seq<Request>, k: nat)
    requires k < |rest| < |rounds|
    requires later == ClockAfter(start, base, rounds, 1) && next == IntervalAfter(base, rounds, 1)
    requires AskedAt(expires, deadline, later, next, rounds[1..], rest, k)
    ensures AskedAt(expires, deadline, start, base, rounds,
                    [Request(start + rounds[0].waited, rounds[0].reply)] + rest, k + 1)
  {
    LaterStart(start, base, rounds, k);
  }

  lemma AsksOnceMore(expires: bool, deadline: int, start: int, base: int, later: int, next: int, rounds: seq<Round>,
      rest: seq<Request>)
    requires rounds != [] && AsksAgain(rounds[0].reply) && (expires ==> start + rounds[0].waited <= deadline)
    requires later == ClockAfter(start, base, rounds, 1) && next == IntervalAfter(base, rounds, 1)
    requires Asks(expires, deadline, later, next, rounds[1..], rest)
    ensures Asks(expires, deadline, start, base, rounds, [Request(start + rounds[0].waited, rounds[0].reply)] + rest)
  {
    var all := [Request(start + rounds[0].waited, rounds[0].reply)] + rest;
    forall k | 0 <= k < |all| ensures AskedAt(expires, deadline, start, base, rounds, all, k) {
      if k > 0 { AskedOnceMore(expires, deadline, start, base, later, next, rounds, rest, k - 1); }
    }
  }

  lemma ConcludesOnceMore(expires: bool, deadline: int, start: int, base: int, later: int, next: int,
      rounds: seq<Round>, r: Result, n: nat)
    requires rounds != [] && AsksAgain(rounds[0].reply) && n < |rounds|
    requires later == ClockAfter(start, base, rounds, 1) && next == IntervalAfter(base, rounds, 1)
    requires Concludes(expires, deadline, later, next, rounds[1..], r, n)
    ensures Concludes(expires, deadline, start, base, rounds, r, n + 1)
  {
    if n + 1 < |rounds| { LaterStart(start, base, rounds, n); }
    StillAskingFromSecond(rounds, n);
    if n > 0 { assert rounds[1..][n - 1] == rounds[n]; }
  }

  lemma StillAskingFromSecond(rounds: seq<Round>, n: nat)
    requires n < |rounds| && AsksAgain(rounds[0].reply)
    ensures StillAsking(rounds, n + 1) <==> StillAsking(rounds[1..], n)
  {
    forall k | 0 <= k < n ensures rounds[1..][k] == rounds[k + 1] {}
    if StillAsking(rounds[1..], n) {
      forall k | 0 <= k < n + 1 ensures AsksAgain(rounds[k].reply) {
        if k > 0 { assert AsksAgain(rounds[1..][k - 1].reply); }
      }
    }
  }

  lemma {:induction false} PollAsks(expires: bool, deadline: int, start: int, base: int, rounds: seq<Round>)
    ensures Asks(expires, deadline, start, base, rounds, Poll(expires, deadline, start, base, rounds).requests)
    decreases |rounds|
  {
    if rounds != [] {
      if (expires ==> start + rounds[0].waited <= deadline) && AsksAgain(rounds[0].reply) {
        var later, next, rest := PollGoesOn(expires, deadline, start, base, rounds);
        PollAsks(expires, deadline, later, next, rounds[1..]);
        AsksOnceMore(expires, deadline, start, base, later, next, rounds, rest.requests);
      } else {
        FirstRoundAsks(expires, deadline, start, base, rounds);
      }
    }
  }

  lemma {:induction false} PollConcludes(expires: bool, deadline: int, start: int, base: int, rounds: seq<Round>)
    ensures var t := Poll(expires, deadline, start, base, rounds);
            |t.requests| <= |rounds| && Concludes(expires, deadline, start, base, rounds, t.result, |t.requests|)
    decreases |rounds|
  {
    if rounds != [] {
      if (expires ==> start + rounds[0].waited <= deadline) && AsksAgain(rounds[0].reply) {
        var later, next, rest := PollGoesOn(expires, deadline, start, base, rounds);
        PollConcludes(expires, deadline, later, next, rounds[1..]);
        ConcludesOnceMore(expires, deadline, start, base, later, next, rounds, rest.result, |rest.requests|);
      } else {
        FirstRoundConcludes(expires, deadline, start, base, rounds);
      }
    }
  }

  /** The base interval in 64 bits of nanoseconds, five seconds if the endpoint names none. */
  function BaseInterval(da: Authorization): int {
    if da.interval > 0 then Wrap(da.interval * 1_000_000_000) else 5_000_000_000
  }

  /** The login, by replies and clock alone: the token is granted exactly if the last request made was answered
      with it, an error reported exactly if it was answered so, the code expired exactly if it was answered so or
      the next request would start after the lifetime, and cancelled exactly if all rounds were used. */
  lemma LoginResult(da: Authorization, start: int, rounds: seq<Round>)
    ensures var t, deadline := PollFrom(da, start, rounds), start + Wrap(da.expiresIn * 1_000_000_000);
      && Asks(da.expiresIn > 0, deadline, start, BaseInterval(da), rounds, t.requests)
      && Concludes(da.expiresIn > 0, deadline, start, BaseInterval(da), rounds, t.result, |t.requests|)
  {
    var deadline := start + Wrap(da.expiresIn * 1_000_000_000);
    assert PollFrom(da, start, rounds) == Poll(da.expiresIn > 0, deadline, start, BaseInterval(da), rounds);
    PollAsks(da.expiresIn > 0, deadline, start, BaseInterval(da), rounds);
    PollConcludes(da.expiresIn > 0, deadline, start, BaseInterval(da), rounds);
  }

  // ---------- Termination ----------

  lemma {:induction false} LengthenedIsNatural(requests: seq<Request>, sleeps: nat)
    requires sleeps <= |requests|
    ensures Lengthened(requests, sleeps) >= 0
  {
    if sleeps > 0 { LengthenedIsNatural(requests, sleeps - 1); }
  }

  /** Polling ends by itself within so many rounds. */
  ghost predicate EndsWithin(da: Authorization, limit: nat) {
    forall start, rounds | |rounds| > limit :: PollFrom(da, start, rounds).result != Cancelled
  }

  /** The intervals that are really slept: positive, and never wrapping. */
  predicate Patient(da: Authorization) { Lifetime(da) < 0 || (Base(da) > 0 && NoWrap(Base(da), Lifetime(da))) }

  lemma PatientEnds(da: Authorization, start: int, rounds: seq<Round>)
    requires da.expiresIn > 0 && Patient(da)
    requires Lifetime(da) >= 0 ==> (|rounds| - 1) * Base(da) > Lifetime(da)
    requires rounds != []
    ensures PollFrom(da, start, rounds).result != Cancelled
  {
    var t, deadline := PollFrom(da, start, rounds), start + Lifetime(da);
    SleepsAndRequests(true, deadline, start, Base(da), rounds);
    if Lifetime(da) < 0 {
      NoTimeNoRequest(deadline, start, Base(da), rounds);
    } else if t.requests != [] {
      SleepsFit(deadline, start, Base(da), rounds);
      SumOfSleeps(Base(da), t, |t.requests| - 1);
      LengthenedIsNatural(t.requests, |t.requests| - 1);
    }
  }

  lemma {:induction false} AtOnce(deadline: int, now: int, interval: int, rounds: seq<Round>)
    requires now <= deadline && interval <= 0 && forall k | 0 <= k < |rounds| :: rounds[k] == Prompt(Pending)
    ensures Poll(true, deadline, now, interval, rounds).result == Cancelled
    decreases |rounds|
  {
    if rounds != [] { AtOnce(deadline, now, interval, rounds[1..]); }
  }

  function Pendings(n: nat): (r: seq<Round>)
    ensures |r| == n && forall k | 0 <= k < n :: r[k] == Prompt(Pending)
  {
    seq(n, _ => Prompt(Pending))
  }

  /** After as many slow_downs as it takes to make the interval wrap, the client no longer waits at all. */
  lemma ImpatientGoesOn(da: Authorization, n: nat)
    requires da.expiresIn > 0 && !Patient(da)
    ensures exists rounds :: |rounds| > n && PollFrom(da, 0, rounds).result == Cancelled
  {
    var b, deadline, tail := Base(da), Lifetime(da), Pendings(n + 1);
    var first := Wrap(b + SLOW_DOWN);
    if b <= 0 {
      AtOnce(deadline, 0, b, tail);
    } else if b + SLOW_DOWN >= TWO63 {
      AtOnce(deadline, 0, first, tail);
      var rounds := [Prompt(SlowDown)] + tail;
      assert rounds[1..] == tail;
      assert PollFrom(da, 0, rounds).result == Cancelled;
    } else {
      AtOnce(deadline, first, Wrap(first + SLOW_DOWN), tail);
      var shorter := [Prompt(SlowDown)] + tail;
      var rounds := [Prompt(SlowDown)] + shorter;
      assert shorter[1..] == tail && rounds[1..] == shorter;
      assert Poll(true, deadline, first, first, shorter).result == Cancelled;
      assert PollFrom(da, 0, rounds).result == Cancelled;
    }
  }

  lemma MoreThanFits(life: nat, base: nat, n: nat)
    requires base > 0 && n > life / base
    ensures n * base > life
  {
    assert n * base >= (life / base + 1) * base;
  }

  function Fitting(life: int, base: int): nat { if life < 0 || base <= 0 then 0 else life / base + 1 }

  /** As many intervals as fit into the lifetime, and one more round. */
  function Limit(da: Authorization): nat { Fitting(Lifetime(da), Base(da)) }

  lemma PatientEndsWithin(da: Authorization)
    requires da.expiresIn > 0 && Patient(da)
    ensures EndsWithin(da, Limit(da))
  {
    forall start, rounds | |rounds| > Limit(da) ensures PollFrom(da, start, rounds).result != Cancelled {
      if Lifetime(da) >= 0 { MoreThanFits(Lifetime(da), Base(da), |rounds| - 1); }
      PatientEnds(da, start, rounds);
    }
  }

  /** Polling of a code with a lifetime ends by itself, within a number of rounds known beforehand,
      exactly if the interval is positive in 64 bits and cannot wrap. */
  lemma PollEnds(da: Authorization)
    requires da.expiresIn > 0
    ensures (exists limit :: EndsWithin(da, limit)) <==> Patient(da)
    ensures Patient(da) ==> EndsWithin(da, Limit(da))
  {
    if Patient(da) {
      PatientEndsWithin(da);
    } else if limit :| EndsWithin(da, limit) {
      ImpatientGoesOn(da, limit);
    }
  }

  /** A code without a lifetime is polled for as long as the endpoint keeps answering pending. */
  lemma {:induction false} NoLifetimeNoEnd(deadline: int, now: int, interval: int, rounds: seq<Round>)
    requires forall k | 0 <= k < |rounds| :: rounds[k].reply == Pending
    ensures Poll(false, deadline, now, interval, rounds).result == Cancelled
    ensures |Poll(false, deadline, now, interval, rounds).requests| == |rounds|
    decreases |rounds|
  {
    if rounds != [] {
      var round := rounds[0];
      NoLifetimeNoEnd(deadline, Later(now, interval, round), interval, rounds[1..]);
    }
  }

  // ---------- The loop ----------

  class Flow {
    var clock: int

    constructor (clock: int)
      ensures this.clock == clock
    {
      this.clock := clock;
    }

    method Pass(d: nat)
      modifies this
      ensures clock == old(clock) + d
    {
      clock := clock + d;
    }

    method Login(da: Authorization, rounds: seq<Round>) returns (r: Result, requests: nat)
      modifies this
      ensures var t := PollFrom(da, old(clock), rounds); r == t.result && requests == |t.requests|
    {
      var interval := DEFAULT_INTERVAL;
      if da.interval > 0 { interval := Wrap(da.interval * SECOND); }
      var deadline := clock + Wrap(da.expiresIn * SECOND);
      requests := 0;
      for i := 0 to |rounds|
        invariant
          var all := PollFrom(da, old(clock), rounds);
          var rest := Poll(da.expiresIn > 0, deadline, clock, interval, rounds[i..]);
          all.result == rest.result && |all.requests| == requests + |rest.requests|
      {
        var round := rounds[i];
        assert rounds[i..][0] == round && rounds[i..][1..] == rounds[i + 1..];
        Pass(round.waited);
        if da.expiresIn > 0 && clock > deadline { return CodeExpired, requests; }
        requests := requests + 1;
        Pass(round.took);
        match round.reply {
          case Token(token) => return Granted(token), requests;
          case Broken(error) => return HardError(error), requests;
          case Pending =>
          case SlowDown => interval := Wrap(interval + SLOW_DOWN);
          case Expired => return CodeExpired, requests;
          case OtherError(code) => return EndpointError(code), requests;
        }
        Pass(Slept(interval) + round.overslept);
      }
      return Cancelled, requests;
    }
  }
}
