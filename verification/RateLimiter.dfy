// The per-IP rate limiter: fixed counting windows of sixty seconds, pruned in the background.
// Time is in nanoseconds, and never goes backwards along a run.

module RateLimiting {

  import opened Wrappers

  const SECOND: nat := 1_000_000_000
  const WINDOW: nat := 60 * SECOND

  datatype Bucket = Bucket(count: nat, start: nat)

  type Buckets = map<string, Bucket>

  // Whole seconds between two instants; zero if they are out of order.
  function SecondsSince(start: nat, now: nat): nat {
    if now < start then 0 else (now - start) / SECOND
  }

  function Rolled(b: Option<Bucket>, now: nat): Bucket {
    match b
    case None => Bucket(0, now)
    case Some(b) => if SecondsSince(b.start, now) >= 60 then Bucket(0, now) else b
  }

  function Admit(b: Bucket, max: nat): (bool, Bucket) {
    if b.count >= max then (false, b) else (true, b.(count := b.count + 1))
  }

  function Lookup(bs: Buckets, ip: string): Option<Bucket> {
    if ip in bs then Some(bs[ip]) else None
  }

  function AfterCheck(bs: Buckets, ip: string, now: nat, max: nat): (bool, Buckets) {
    if ip == "" then (true, bs)
    else
      var (ok, b) := Admit(Rolled(Lookup(bs, ip), now), max);
      (ok, bs[ip := b])
  }

  function AfterPrune(bs: Buckets, now: nat): Buckets {
    map ip | ip in bs && SecondsSince(bs[ip].start, now) < 120 :: bs[ip]
  }

  class RateLimiter {
    var buckets: Buckets
    const maxRequests: nat

    constructor (maxRequests: nat)
      ensures buckets == map[] && this.maxRequests == maxRequests
    {
      buckets := map[];
      this.maxRequests := maxRequests;
    }

    method Check(ip: string, now: nat) returns (ok: bool)
      modifies this
      ensures (ok, buckets) == AfterCheck(old(buckets), ip, now, maxRequests)
      ensures ip == "" ==> ok && buckets == old(buckets)
      // A window is open for sixty whole seconds; outside of one, the request opens another.
      ensures ip != "" ==>
                var open := ip in old(buckets) && now < old(buckets)[ip].start + 60 * 1_000_000_000;
                var used := if open then old(buckets)[ip].count else 0;
                (ok <==> used < maxRequests) &&
                buckets == old(buckets)[ip := Bucket(if ok then used + 1 else used,
                                                     if open then old(buckets)[ip].start else now)]
    {
      if ip == "" {
        return true;
      }
      if ip !in buckets {
        buckets := buckets[ip := Bucket(0, now)];
      }
      var count, start := buckets[ip].count, buckets[ip].start;
      if SecondsSince(start, now) >= 60 {
        count, start := 0, now;
      }
      if count >= maxRequests {
        ok := false;
      } else {
        count := count + 1;
        ok := true;
      }
      buckets := buckets[ip := Bucket(count, start)];
      assert buckets == old(buckets)[ip := Bucket(count, start)];
    }

    method Prune(now: nat)
      modifies this
      ensures buckets == AfterPrune(old(buckets), now)
      ensures forall ip :: ip in buckets <==> ip in old(buckets) && now < old(buckets)[ip].start + 120 * 1_000_000_000
      ensures forall ip | ip in buckets :: buckets[ip] == old(buckets)[ip]
    {
      buckets := map ip | ip in buckets && SecondsSince(buckets[ip].start, now) < 120 :: buckets[ip];
    }
  }

  // Runs

  datatype Event = Check(ip: string, at: nat) | Prune(at: nat)

  datatype Answer = Answer(at: nat, ok: bool)

  // Times are non-decreasing, starting no earlier than from.
  predicate OrderedFrom(evs: seq<Event>, from: nat) {
    evs == [] || (from <= evs[0].at && OrderedFrom(evs[1..], evs[0].at))
  }

  predicate TimesOrderedFrom(times: seq<nat>, from: nat) {
    times == [] || (from <= times[0] && TimesOrderedFrom(times[1..], times[0]))
  }

  // The answers one IP gets along a run of the whole limiter.
  function AnswersTo(max: nat, bs: Buckets, evs: seq<Event>, ip: string): seq<Answer>
    decreases |evs|
  {
    if evs == [] then []
    else match evs[0]
      case Prune(at) => AnswersTo(max, AfterPrune(bs, at), evs[1..], ip)
      case Check(other, at) =>
        var (ok, bs') := AfterCheck(bs, other, at, max);
        (if other == ip then [Answer(at, ok)] else []) + AnswersTo(max, bs', evs[1..], ip)
  }

  function TimesOf(evs: seq<Event>, ip: string): seq<nat> {
    if evs == [] then []
    else if evs[0].Check? && evs[0].ip == ip then [evs[0].at] + TimesOf(evs[1..], ip)
    else TimesOf(evs[1..], ip)
  }

  // A lone counter: one IP, never pruned.
  function Lone(max: nat, b: Option<Bucket>, times: seq<nat>): seq<Answer>
    decreases |times|
  {
    if times == [] then []
    else
      var (ok, b') := Admit(Rolled(b, times[0]), max);
      [Answer(times[0], ok)] + Lone(max, Some(b'), times[1..])
  }

  function Unlimited(times: seq<nat>): seq<Answer> {
    seq(|times|, i requires 0 <= i < |times| => Answer(times[i], true))
  }

  // Isolation: neither pruning nor other IPs change an answer

  // A pruned bucket and the one a lone counter still holds: equal, or the lone one is old enough to be reset.
  predicate Alike(pruned: Option<Bucket>, kept: Option<Bucket>, now: nat) {
    pruned == kept || (pruned.None? && kept.Some? && SecondsSince(kept.value.start, now) >= 60)
  }

  lemma AlikeLasts(pruned: Option<Bucket>, kept: Option<Bucket>, now: nat, later: nat)
    requires Alike(pruned, kept, now) && now <= later
    ensures Alike(pruned, kept, later)
    ensures Rolled(pruned, later) == Rolled(kept, later)
  {
    if pruned != kept {
      var s := kept.value.start;
      assert (later - s) / SECOND >= (now - s) / SECOND;
    }
  }

  lemma {:induction false} LimiterIsLoneCounters(max: nat, bs: Buckets, evs: seq<Event>, ip: string,
                                                 kept: Option<Bucket>, from: nat)
    requires ip != "" && OrderedFrom(evs, from) && Alike(Lookup(bs, ip), kept, from)
    ensures AnswersTo(max, bs, evs, ip) == Lone(max, kept, TimesOf(evs, ip))
    decreases |evs|
  {
    if evs != [] {
      var at := evs[0].at;
      AlikeLasts(Lookup(bs, ip), kept, from, at);
      match evs[0]
      case Prune(_) => LimiterIsLoneCounters(max, AfterPrune(bs, at), evs[1..], ip, kept, at);
      case Check(other, _) =>
        var (ok, bs') := AfterCheck(bs, other, at, max);
        if other == ip {
          var (ok', b') := Admit(Rolled(kept, at), max);
          LimiterIsLoneCounters(max, bs', evs[1..], ip, Some(b'), at);
        } else {
          LimiterIsLoneCounters(max, bs', evs[1..], ip, kept, at);
        }
    }
  }

  lemma {:induction false} EmptyIpIsNeverLimited(max: nat, bs: Buckets, evs: seq<Event>)
    ensures AnswersTo(max, bs, evs, "") == Unlimited(TimesOf(evs, ""))
    decreases |evs|
  {
    if evs != [] {
      match evs[0]
      case Prune(at) => EmptyIpIsNeverLimited(max, AfterPrune(bs, at), evs[1..]);
      case Check(other, at) => EmptyIpIsNeverLimited(max, AfterCheck(bs, other, at, max).1, evs[1..]);
    }
  }

  // Two runs that check an IP at the same times give it the same answers, whatever else they check or prune.
  lemma AnswersDependOnOwnTimesOnly(max: nat, evs: seq<Event>, evs': seq<Event>, ip: string)
    requires OrderedFrom(evs, 0) && OrderedFrom(evs', 0) && TimesOf(evs, ip) == TimesOf(evs', ip)
    ensures AnswersTo(max, map[], evs, ip) == AnswersTo(max, map[], evs', ip)
  {
    if ip == "" {
      EmptyIpIsNeverLimited(max, map[], evs);
      EmptyIpIsNeverLimited(max, map[], evs');
    } else {
      LimiterIsLoneCounters(max, map[], evs, ip, None, 0);
      LimiterIsLoneCounters(max, map[], evs', ip, None, 0);
    }
  }

  function WithoutPrunes(evs: seq<Event>): seq<Event> {
    if evs == [] then []
    else if evs[0].Prune? then WithoutPrunes(evs[1..])
    else [evs[0]] + WithoutPrunes(evs[1..])
  }

  lemma {:induction false} WithoutPrunesKeepsChecks(evs: seq<Event>, ip: string, from: nat, earlier: nat)
    requires OrderedFrom(evs, from) && earlier <= from
    ensures OrderedFrom(WithoutPrunes(evs), earlier) && TimesOf(WithoutPrunes(evs), ip) == TimesOf(evs, ip)
    decreases |evs|
  {
    if evs != [] {
      if evs[0].Prune? {
        WithoutPrunesKeepsChecks(evs[1..], ip, evs[0].at, earlier);
      } else {
        WithoutPrunesKeepsChecks(evs[1..], ip, evs[0].at, evs[0].at);
        assert WithoutPrunes(evs)[1..] == WithoutPrunes(evs[1..]);
      }
    }
  }

  lemma PruningIsInvisible(max: nat, evs: seq<Event>, ip: string)
    requires OrderedFrom(evs, 0)
    ensures AnswersTo(max, map[], evs, ip) == AnswersTo(max, map[], WithoutPrunes(evs), ip)
  {
    WithoutPrunesKeepsChecks(evs, ip, 0, 0);
    AnswersDependOnOwnTimesOnly(max, evs, WithoutPrunes(evs), ip);
  }

  // How many requests get through

  function AcceptedIn(answers: seq<Answer>, from: nat, to: nat): nat {
    if answers == [] then 0
    else (if answers[0].ok && from <= answers[0].at < to then 1 else 0) + AcceptedIn(answers[1..], from, to)
  }

  // What a counter can still accept at or after from and less than a window later, given that its next check
  // comes no earlier than last.
  function Allowance(max: nat, b: Option<Bucket>, last: nat, from: nat): nat {
    if max == 0 || from + WINDOW <= last then 0
    else match b
      case None => if from <= last then max else 2 * max - 1
      case Some(b) =>
        if from <= b.start then (if b.count <= max then max - b.count else 0)
        else if from <= last then max + (if b.count <= max then max - b.count else 0)
        else 2 * max - 1
  }

  predicate Plausible(max: nat, b: Option<Bucket>, last: nat) {
    b.Some? ==> b.value.start <= last && b.value.count <= max && (0 < max ==> 0 < b.value.count)
  }

  lemma {:induction false} AllowanceHolds(max: nat, b: Option<Bucket>, times: seq<nat>, last: nat, from: nat)
    requires Plausible(max, b, last) && TimesOrderedFrom(times, last)
    ensures AcceptedIn(Lone(max, b, times), from, from + WINDOW) <= Allowance(max, b, last, from)
    decreases |times|
  {
    if times != [] {
      var now := times[0];
      var (ok, b') := Admit(Rolled(b, now), max);
      AllowanceHolds(max, Some(b'), times[1..], now, from);
      assert b.Some? && SecondsSince(b.value.start, now) < 60 ==> now < b.value.start + WINDOW;
      assert b.Some? && SecondsSince(b.value.start, now) >= 60 ==> b.value.start + WINDOW <= now;
    }
  }

  // How many of an IP's requests a run accepts in the minute beginning at from.
  function AcceptedInMinute(max: nat, evs: seq<Event>, ip: string, from: nat): nat {
    AcceptedIn(AnswersTo(max, map[], evs, ip), from, from + WINDOW)
  }

  function MostPerMinute(max: nat): nat {
    if max == 0 then 0 else 2 * max - 1
  }

  lemma {:induction false} TimesOfAreOrdered(evs: seq<Event>, ip: string, from: nat, earlier: nat)
    requires OrderedFrom(evs, from) && earlier <= from
    ensures TimesOrderedFrom(TimesOf(evs, ip), earlier)
    decreases |evs|
  {
    if evs != [] {
      if evs[0].Check? && evs[0].ip == ip {
        TimesOfAreOrdered(evs[1..], ip, evs[0].at, evs[0].at);
        assert TimesOf(evs, ip)[1..] == TimesOf(evs[1..], ip);
      } else {
        TimesOfAreOrdered(evs[1..], ip, evs[0].at, earlier);
      }
    }
  }

  // In any sixty seconds, at most twice the limit less one of an IP's requests are accepted.
  lemma AcceptedPerMinute(max: nat, evs: seq<Event>, ip: string, from: nat)
    requires OrderedFrom(evs, 0) && ip != ""
    ensures AcceptedInMinute(max, evs, ip, from) <= MostPerMinute(max)
  {
    LimiterIsLoneCounters(max, map[], evs, ip, None, 0);
    TimesOfAreOrdered(evs, ip, 0, 0);
    AllowanceHolds(max, None, TimesOf(evs, ip), 0, from);
  }

  // The windows of a run

  function BucketsNext(max: nat, bs: Buckets, ev: Event): Buckets {
    match ev
    case Prune(at) => AfterPrune(bs, at)
    case Check(ip, at) => AfterCheck(bs, ip, at, max).1
  }

  function BucketsAfter(max: nat, bs: Buckets, evs: seq<Event>): Buckets
    decreases |evs|
  {
    if evs == [] then bs else BucketsAfter(max, BucketsNext(max, bs, evs[0]), evs[1..])
  }

  // The i-th event is a check that opens a counting window for its IP.
  predicate OpensWindow(max: nat, bs: Buckets, evs: seq<Event>, i: nat, ip: string) {
    i < |evs| && evs[i].Check? && evs[i].ip == ip &&
    var b := Lookup(BucketsAfter(max, bs, evs[..i]), ip);
    b.None? || SecondsSince(b.value.start, evs[i].at) >= 60
  }

  predicate InWindow(bs: Buckets, ip: string, at: nat) {
    ip in bs && SecondsSince(bs[ip].start, at) < 60
  }

  lemma SecondsGrow(start: nat, now: nat, later: nat)
    requires now <= later
    ensures SecondsSince(start, now) <= SecondsSince(start, later)
  {
  }

  // No event up to an instant ends a window that has not run out by then.
  lemma {:induction false} WindowStaysOpen(max: nat, bs: Buckets, evs: seq<Event>, ip: string, at: nat)
    requires ip != "" && InWindow(bs, ip, at) && forall j | 0 <= j < |evs| :: evs[j].at <= at
    ensures InWindow(BucketsAfter(max, bs, evs), ip, at)
    decreases |evs|
  {
    if evs != [] {
      SecondsGrow(bs[ip].start, evs[0].at, at);
      WindowStaysOpen(max, BucketsNext(max, bs, evs[0]), evs[1..], ip, at);
    }
  }

  lemma {:induction false} EarlierEventsAreEarlier(evs: seq<Event>, from: nat, i: nat)
    requires OrderedFrom(evs, from) && i < |evs|
    ensures from <= evs[i].at && forall j | 0 <= j < i :: evs[j].at <= evs[i].at
    decreases i
  {
    if i > 0 {
      EarlierEventsAreEarlier(evs[1..], evs[0].at, i - 1);
      assert forall j | 1 <= j < i :: evs[j] == evs[1..][j - 1];
    }
  }

  lemma AnsweredOneEarlier(max: nat, bs: Buckets, evs: seq<Event>, ip: string, from: nat, to: nat)
    requires evs != []
    ensures var next := BucketsNext(max, bs, evs[0]);
            AcceptedIn(AnswersTo(max, bs, evs, ip), from, to) <=
            AcceptedIn(AnswersTo(max, next, evs[1..], ip), from, to) +
            if evs[0].Check? && evs[0].ip == ip && from <= evs[0].at < to then 1 else 0
  {
    var answers := AnswersTo(max, BucketsNext(max, bs, evs[0]), evs[1..], ip);
    if evs[0].Check? && evs[0].ip == ip {
      var ok := AfterCheck(bs, ip, evs[0].at, max).0;
      assert AnswersTo(max, bs, evs, ip) == [Answer(evs[0].at, ok)] + answers;
      assert ([Answer(evs[0].at, ok)] + answers)[1..] == answers;
    } else {
      assert [] + answers == answers;
    }
  }

  lemma {:induction false} WindowOfRunHolds(max: nat, bs: Buckets, evs: seq<Event>, ip: string, from: nat, i: nat)
    requires OrderedFrom(evs, from) && ip != "" && OpensWindow(max, bs, evs, i, ip)
    ensures AcceptedIn(AnswersTo(max, bs, evs, ip), evs[i].at, evs[i].at + WINDOW) <= max
    decreases |evs|
  {
    var at := evs[i].at;
    if i == 0 {
      assert evs[..0] == [];
      LimiterIsLoneCounters(max, bs, evs, ip, Lookup(bs, ip), from);
      assert Lone(max, Lookup(bs, ip), TimesOf(evs, ip)) == Lone(max, None, TimesOf(evs, ip));
      TimesOfAreOrdered(evs, ip, at, at);
      AllowanceHolds(max, None, TimesOf(evs, ip), at, at);
    } else {
      var head, rest := evs[0], evs[1..];
      var next := BucketsNext(max, bs, head);
      AnsweredOneEarlier(max, bs, evs, ip, at, at + WINDOW);
      assert evs[..i][1..] == rest[..i - 1];
      EarlierEventsAreEarlier(evs, from, i);
      WindowOfRunHolds(max, next, rest, ip, head.at, i - 1);
      if head.Check? && head.ip == ip && head.at == at {
        WindowStaysOpen(max, next, rest[..i - 1], ip, at);
      }
    }
  }

  // Along any run, at most the limit of an IP's requests is accepted in the minute from the opening of a window.
  lemma AcceptedPerWindow(max: nat, evs: seq<Event>, ip: string, i: nat)
    requires OrderedFrom(evs, 0) && ip != "" && OpensWindow(max, map[], evs, i, ip)
    ensures AcceptedInMinute(max, evs, ip, evs[i].at) <= max
  {
    WindowOfRunHolds(max, map[], evs, ip, 0, i);
  }

  // The bound is reached

  function Repeat(t: nat, n: nat): seq<nat> {
    if n == 0 then [] else [t] + Repeat(t, n - 1)
  }

  lemma {:induction false} BurstFillsBucket(max: nat, b: Bucket, t: nat, n: nat, rest: seq<nat>, from: nat)
    requires b.count + n <= max && b.start <= t < b.start + WINDOW && from <= t < from + WINDOW
    ensures AcceptedIn(Lone(max, Some(b), Repeat(t, n) + rest), from, from + WINDOW)
            == n + AcceptedIn(Lone(max, Some(b.(count := b.count + n)), rest), from, from + WINDOW)
    decreases n
  {
    if n == 0 {
      assert Repeat(t, n) + rest == rest;
    } else {
      assert (Repeat(t, n) + rest)[1..] == Repeat(t, n - 1) + rest;
      assert SecondsSince(b.start, t) < 60;
      BurstFillsBucket(max, b.(count := b.count + 1), t, n - 1, rest, from);
    }
  }

  lemma {:induction false} RepeatIsOrdered(t: nat, n: nat, rest: seq<nat>, from: nat)
    requires from <= t && TimesOrderedFrom(rest, t)
    ensures TimesOrderedFrom(Repeat(t, n) + rest, from)
    decreases n
  {
    if n == 0 {
      assert Repeat(t, n) + rest == rest;
    } else {
      assert (Repeat(t, n) + rest)[1..] == Repeat(t, n - 1) + rest;
      RepeatIsOrdered(t, n - 1, rest, t);
    }
  }

  function Checks(ip: string, times: seq<nat>): seq<Event> {
    seq(|times|, i requires 0 <= i < |times| => Check(ip, times[i]))
  }

  lemma {:induction false} ChecksHaveTheirTimes(ip: string, times: seq<nat>, from: nat)
    requires TimesOrderedFrom(times, from)
    ensures OrderedFrom(Checks(ip, times), from) && TimesOf(Checks(ip, times), ip) == times
    decreases |times|
  {
    if times != [] {
      assert Checks(ip, times)[1..] == Checks(ip, times[1..]);
      ChecksHaveTheirTimes(ip, times[1..], times[0]);
    }
  }

  // One request opens a window, the rest of it is used up at its very end, and the next window at once.
  lemma LoneBoundIsReached(max: nat) returns (times: seq<nat>)
    requires 0 < max
    ensures TimesOrderedFrom(times, 0)
    ensures AcceptedIn(Lone(max, None, times), 1, 1 + WINDOW) == MostPerMinute(max)
  {
    var second := [WINDOW] + Repeat(WINDOW, max - 1);
    var first := Repeat(WINDOW - 1, max - 1) + second;
    times := [0] + first;
    RepeatIsOrdered(WINDOW, max - 1, [], WINDOW);
    assert second[1..] == Repeat(WINDOW, max - 1) + [] == Repeat(WINDOW, max - 1);
    RepeatIsOrdered(WINDOW - 1, max - 1, second, 0);
    assert times[1..] == first;
    BurstFillsBucket(max, Bucket(1, 0), WINDOW - 1, max - 1, second, 1);
    assert SecondsSince(0, WINDOW) >= 60;
    BurstFillsBucket(max, Bucket(1, WINDOW), WINDOW, max - 1, [], 1);
  }

  lemma BoundIsReached(max: nat, ip: string) returns (evs: seq<Event>)
    requires 0 < max && ip != ""
    ensures OrderedFrom(evs, 0)
    ensures AcceptedInMinute(max, evs, ip, 1) == MostPerMinute(max)
  {
    var times := LoneBoundIsReached(max);
    evs := Checks(ip, times);
    ChecksHaveTheirTimes(ip, times, 0);
    LimiterIsLoneCounters(max, map[], evs, ip, None, 0);
  }

  ghost predicate LimitsEveryMinute(max: nat) {
    forall evs, ip, from: nat ::
      OrderedFrom(evs, 0) && ip != "" ==> AcceptedInMinute(max, evs, ip, from) <= max
  }

  // The limit holds of every sliding minute only when it is at most one.
  lemma SlidingWindowIff(max: nat)
    ensures LimitsEveryMinute(max) <==> max <= 1
  {
    if max <= 1 {
      forall evs, ip, from: nat | OrderedFrom(evs, 0) && ip != ""
        ensures AcceptedInMinute(max, evs, ip, from) <= max
      {
        AcceptedPerMinute(max, evs, ip, from);
      }
    } else {
      var evs := BoundIsReached(max, "client");
      assert AcceptedInMinute(max, evs, "client", 1) > max;
    }
  }
}
