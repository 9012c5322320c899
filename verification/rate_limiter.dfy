/**
 The hub's rate limiter: a sliding window of request times per agent and per
 client address, pruned at every request and compared with a limit.
 */
module SlidingWindow {
  /** The times after the cutoff. */
  function Prune(times: seq<real>, cutoff: real): (kept: seq<real>)
    ensures |kept| <= |times|
  {
    if |times| == 0 then []
    else
      var front, last := times[..|times| - 1], times[|times| - 1];
      if last > cutoff then Prune(front, cutoff) + [last] else Prune(front, cutoff)
  }

  /** No time is later than `now`, for a sorted list. */
  ghost predicate UpTo(times: seq<real>, now: real) {
    |times| > 0 ==> times[|times| - 1] <= now
  }

  ghost predicate Sorted(times: seq<real>) {
    |times| > 0 ==> var n := |times| - 1; Sorted(times[..n]) && UpTo(times[..n], times[n])
  }

  /** Any `limit + 1` consecutive times are spread over at least a window. */
  ghost predicate Spaced(times: seq<real>, limit: nat, window: real) {
    |times| > 0 ==>
      var n := |times| - 1;
      Spaced(times[..n], limit, window) && (n >= limit ==> times[n] - times[n - limit] >= window)
  }

  lemma {:induction false} SortedAt(times: seq<real>, i: nat, j: nat)
    requires Sorted(times) && i <= j < |times|
    ensures times[i] <= times[j]
  {
    var n := |times| - 1;
    if j < n {
      SortedAt(times[..n], i, j);
    } else if i < n {
      SortedAt(times[..n], i, n - 1);
    }
  }

  lemma LaterIfLarger(times: seq<real>, i: nat, j: nat)
    requires Sorted(times) && i < |times| && j < |times| && times[i] < times[j]
    ensures i < j
  {
    if j <= i {
      SortedAt(times, j, i);
    }
  }

  /** The two lists agree on every time after `from`, and so after any later cutoff. */
  ghost predicate Agree(window: seq<real>, history: seq<real>, from: real) {
    Prune(window, from) == Prune(history, from)
  }

  lemma {:induction false} PruneTwice(times: seq<real>, early: real, late: real)
    requires early <= late
    ensures Prune(Prune(times, early), late) == Prune(times, late)
  {
    if |times| > 0 {
      var front, last := times[..|times| - 1], times[|times| - 1];
      PruneTwice(front, early, late);
      if last > early {
        assert (Prune(front, early) + [last])[..|Prune(front, early)|] == Prune(front, early);
      }
    }
  }

  lemma PruneAppend(times: seq<real>, t: real, cutoff: real)
    ensures Prune(times + [t], cutoff) == if t > cutoff then Prune(times, cutoff) + [t] else Prune(times, cutoff)
  {
    assert (times + [t])[..|times|] == times;
  }

  /** Pruning a window list at a later cutoff keeps the agreement, and so does adding to both lists. */
  lemma AgreeAfterCheck(window: seq<real>, history: seq<real>, from: real, cutoff: real, now: real)
    requires Agree(window, history, from) && from <= cutoff
    ensures Prune(window, cutoff) == Prune(history, cutoff)
    ensures Agree(Prune(window, cutoff), history, cutoff)
    ensures Agree(Prune(window, cutoff) + [now], history + [now], cutoff)
  {
    PruneTwice(window, from, cutoff);
    PruneTwice(history, from, cutoff);
    PruneTwice(window, cutoff, cutoff);
    PruneAppend(Prune(window, cutoff), now, cutoff);
    PruneAppend(history, now, cutoff);
  }

  /** In a sorted history, everything from a recent time on is recent. */
  lemma {:induction false} RecentFrom(times: seq<real>, i: nat, cutoff: real)
    requires Sorted(times) && i < |times| && times[i] > cutoff
    ensures |Prune(times, cutoff)| >= |times| - i
  {
    var front := times[..|times| - 1];
    SortedAt(times, i, |times| - 1);
    if i < |front| {
      RecentFrom(front, i, cutoff);
    }
  }

  /** Admitting a request when fewer than `limit` are recent keeps the history spaced. */
  lemma AdmitKeepsSpacing(times: seq<real>, now: real, limit: nat, window: real)
    requires Sorted(times) && UpTo(times, now) && Spaced(times, limit, window)
    requires |Prune(times, now - window)| < limit
    ensures Sorted(times + [now]) && Spaced(times + [now], limit, window)
  {
    assert (times + [now])[..|times|] == times;
    if |times| >= limit && times[|times| - limit] > now - window {
      RecentFrom(times, |times| - limit, now - window);
    }
  }

  /** How many times fall in the half-open span from `lo` to `hi`. */
  ghost function CountIn(times: seq<real>, lo: real, hi: real): nat {
    if |times| == 0 then 0
    else CountIn(times[..|times| - 1], lo, hi) + if lo <= times[|times| - 1] < hi then 1 else 0
  }

  lemma {:induction false} NoneCounted(times: seq<real>, lo: real, hi: real)
    requires Sorted(times) && |times| > 0 && times[|times| - 1] < lo
    ensures CountIn(times, lo, hi) == 0
  {
    if |times| > 1 {
      NoneCounted(times[..|times| - 1], lo, hi);
    }
  }

  /** When the last time is in the span, the counted times are the last ones. */
  lemma {:induction false} CountedAtEnd(times: seq<real>, lo: real, hi: real)
    requires Sorted(times) && |times| > 0 && lo <= times[|times| - 1] < hi
    ensures 0 < CountIn(times, lo, hi) <= |times| && times[|times| - CountIn(times, lo, hi)] >= lo
  {
    var front := times[..|times| - 1];
    if |front| > 0 {
      if front[|front| - 1] >= lo {
        CountedAtEnd(front, lo, hi);
      } else {
        NoneCounted(front, lo, hi);
      }
    }
  }

  /** A spaced history has at most `limit` times in any half-open span one window long. */
  lemma {:induction false} SpanHoldsLimit(times: seq<real>, limit: nat, window: real, lo: real)
    requires Sorted(times) && Spaced(times, limit, window)
    ensures CountIn(times, lo, lo + window) <= limit
  {
    if |times| > 0 {
      var n, hi, c := |times| - 1, lo + window, CountIn(times, lo, lo + window);
      SpanHoldsLimit(times[..n], limit, window, lo);
      if lo <= times[n] < hi {
        CountedAtEnd(times, lo, hi);
        if n >= limit {
          LaterIfLarger(times, n - limit, n + 1 - c);
        }
      }
    }
  }
}

/** The middleware itself. */
module RateLimiter {
  import opened SlidingWindow

  datatype Limits = Limits(agent: int, ip: int, window: real)

  /** An HTTP request, with "" for a missing agent id or client address. */
  datatype Request = Request(agent: string, ip: string, time: real)

  datatype Kind = Agent | Ip

  /** Failed: a full window with nothing in it, which only a limit below one allows. */
  datatype Response = Forwarded | Limited(kind: Kind, retryAfter: int) | Failed(kind: Kind)

  datatype Entry = Entry(request: Request, response: Response)

  // ---------------------------------------------------------------- histories

  /** The request passed its agent's own limit, whatever its address's limit said. */
  predicate Charged(e: Entry, agent: string) {
    e.request.agent == agent && agent != "" && (e.response.Forwarded? || e.response.kind == Ip)
  }

  predicate Passed(e: Entry, ip: string) {
    e.request.ip == ip && ip != "" && e.response.Forwarded?
  }

  /** The times at which requests were charged to an agent. */
  function AgentTimes(log: seq<Entry>, agent: string): seq<real> {
    if |log| == 0 then []
    else
      var rest, e := AgentTimes(log[..|log| - 1], agent), log[|log| - 1];
      if Charged(e, agent) then rest + [e.request.time] else rest
  }

  /** The times at which requests from an address were forwarded. */
  function IpTimes(log: seq<Entry>, ip: string): seq<real> {
    if |log| == 0 then []
    else
      var rest, e := IpTimes(log[..|log| - 1], ip), log[|log| - 1];
      if Passed(e, ip) then rest + [e.request.time] else rest
  }

  /** The times at which an agent's requests were forwarded. */
  function ForwardedTimes(log: seq<Entry>, agent: string): seq<real> {
    if |log| == 0 then []
    else
      var rest, e := ForwardedTimes(log[..|log| - 1], agent), log[|log| - 1];
      if Charged(e, agent) && e.response.Forwarded? then rest + [e.request.time] else rest
  }

  lemma TimesOfAppend(log: seq<Entry>, e: Entry, key: string)
    ensures AgentTimes(log + [e], key) == AgentTimes(log, key) + if Charged(e, key) then [e.request.time] else []
    ensures IpTimes(log + [e], key) == IpTimes(log, key) + if Passed(e, key) then [e.request.time] else []
  {
    assert (log + [e])[..|log|] == log;
  }

  // ---------------------------------------------------------------- what a request should get

  /** One check: `recent` are the times within the window. */
  function Decide(recent: seq<real>, limit: int, now: real, window: real, kind: Kind): Response {
    if |recent| < limit then Forwarded
    else if recent == [] then Failed(kind)
    else Limited(kind, (recent[0] + window - now).Floor)
  }

  /** The agent's own check. */
  function AgentVerdict(limits: Limits, log: seq<Entry>, r: Request): Response {
    if r.agent == "" then Forwarded
    else Decide(Prune(AgentTimes(log, r.agent), r.time - limits.window), limits.agent, r.time, limits.window, Agent)
  }

  /** The check of the address. */
  function IpVerdict(limits: Limits, log: seq<Entry>, r: Request): Response {
    Decide(Prune(IpTimes(log, r.ip), r.time - limits.window), limits.ip, r.time, limits.window, Ip)
  }

  /** The answer, from the whole history of the hub. */
  function Verdict(limits: Limits, log: seq<Entry>, r: Request): Response {
    var first := AgentVerdict(limits, log, r);
    if !first.Forwarded? || r.ip == "" then first else IpVerdict(limits, log, r)
  }

  /** A request the limit of this kind counts under a key: charged to the agent, or forwarded for the address. */
  predicate Counted(e: Entry, kind: Kind, key: string) {
    match kind
    case Agent => Charged(e, key)
    case Ip => Passed(e, key)
  }

  /** How many requests are counted under a key after the cutoff. */
  ghost function Count(log: seq<Entry>, kind: Kind, key: string, cutoff: real): nat {
    if |log| == 0 then 0
    else
      var e := log[|log| - 1];
      Count(log[..|log| - 1], kind, key, cutoff) + if Counted(e, kind, key) && e.request.time > cutoff then 1 else 0
  }

  function KeyOf(r: Request, kind: Kind): string {
    match kind
    case Agent => r.agent
    case Ip => r.ip
  }

  /** Within the last window there were fewer than the limit, or the request has no such key. */
  ghost predicate HasRoom(limits: Limits, log: seq<Entry>, r: Request, kind: Kind) {
    var limit := match kind case Agent => limits.agent case Ip => limits.ip;
    KeyOf(r, kind) != "" ==> Count(log, kind, KeyOf(r, kind), r.time - limits.window) < limit
  }

  /** The first request counted under a key after the cutoff. */
  ghost predicate IsOldest(log: seq<Entry>, kind: Kind, key: string, cutoff: real, first: nat) {
    && first < |log| && Counted(log[first], kind, key) && log[first].request.time > cutoff
    && forall j :: 0 <= j < first ==> !Counted(log[j], kind, key) || log[j].request.time <= cutoff
  }

  /** The whole seconds until the oldest counted request leaves the window. */
  ghost predicate IsWait(limits: Limits, log: seq<Entry>, r: Request, kind: Kind, first: nat, wait: int) {
    && IsOldest(log, kind, KeyOf(r, kind), r.time - limits.window, first)
    && wait as real <= log[first].request.time + limits.window - r.time < (wait + 1) as real
  }

  /**
   What a request deserves, counted out over the whole history: it is forwarded
   if and only if both limits have room for it. A refusal names the kind without
   room, the agent's before the address's, and the wait until one request less is
   counted; if none is counted, as under a limit below one, the check fails.
   */
  ghost predicate Deserves(limits: Limits, log: seq<Entry>, r: Request, response: Response) {
    && (response.Forwarded? <==> HasRoom(limits, log, r, Agent) && HasRoom(limits, log, r, Ip))
    && (!response.Forwarded? ==>
          && response.kind == (if HasRoom(limits, log, r, Agent) then Ip else Agent)
          && (response.Failed? <==> Count(log, response.kind, KeyOf(r, response.kind), r.time - limits.window) == 0))
    && (response.Limited? ==> exists first :: IsWait(limits, log, r, response.kind, first, response.retryAfter))
  }

  ghost function TimesOf(log: seq<Entry>, kind: Kind, key: string): seq<real> {
    match kind
    case Agent => AgentTimes(log, key)
    case Ip => IpTimes(log, key)
  }

  lemma {:induction false} CountIsZero(log: seq<Entry>, kind: Kind, key: string, cutoff: real)
    requires Count(log, kind, key, cutoff) == 0
    ensures forall j :: 0 <= j < |log| ==> !Counted(log[j], kind, key) || log[j].request.time <= cutoff
  {
    if |log| > 0 {
      CountIsZero(log[..|log| - 1], kind, key, cutoff);
    }
  }

  lemma PrunedNext(log: seq<Entry>, kind: Kind, key: string, cutoff: real)
    requires |log| > 0
    ensures var e := log[|log| - 1];
      Prune(TimesOf(log, kind, key), cutoff) == Prune(TimesOf(log[..|log| - 1], kind, key), cutoff)
        + if Counted(e, kind, key) && e.request.time > cutoff then [e.request.time] else []
  {
    PruneAppend(TimesOf(log[..|log| - 1], kind, key), log[|log| - 1].request.time, cutoff);
  }

  lemma OldestNext(log: seq<Entry>, kind: Kind, key: string, cutoff: real, first: nat)
    requires |log| > 0
    requires IsOldest(log[..|log| - 1], kind, key, cutoff, first)
      || (first == |log| - 1 && Count(log[..|log| - 1], kind, key, cutoff) == 0
          && Counted(log[first], kind, key) && log[first].request.time > cutoff)
    ensures IsOldest(log, kind, key, cutoff, first)
  {
    if first == |log| - 1 {
      CountIsZero(log[..first], kind, key, cutoff);
    }
  }

  /** The pruned list has a time for each counted request, and begins with the oldest. */
  lemma {:induction false} CountIsPruned(log: seq<Entry>, kind: Kind, key: string, cutoff: real) returns (first: nat)
    ensures |Prune(TimesOf(log, kind, key), cutoff)| == Count(log, kind, key, cutoff)
    ensures Count(log, kind, key, cutoff) > 0 ==>
      IsOldest(log, kind, key, cutoff, first) && log[first].request.time == Prune(TimesOf(log, kind, key), cutoff)[0]
  {
    first := 0;
    if |log| > 0 {
      var front := log[..|log| - 1];
      first := CountIsPruned(front, kind, key, cutoff);
      first := if Count(front, kind, key, cutoff) == 0 then |front| else first;
      PrunedNext(log, kind, key, cutoff);
      if Count(log, kind, key, cutoff) > 0 {
        OldestNext(log, kind, key, cutoff, first);
      }
    }
  }

  lemma WaitIs(t: real, window: real, now: real)
    ensures var wait := t + window - now; wait.Floor as real <= wait < (wait.Floor + 1) as real
  {
  }

  /** One check, counted out. */
  lemma DecideIsDeserved(limits: Limits, log: seq<Entry>, r: Request, kind: Kind, limit: int)
    requires limit == (match kind case Agent => limits.agent case Ip => limits.ip) && KeyOf(r, kind) != ""
    ensures var cutoff := r.time - limits.window;
      var v := Decide(Prune(TimesOf(log, kind, KeyOf(r, kind)), cutoff), limit, r.time, limits.window, kind);
      && (v.Forwarded? <==> HasRoom(limits, log, r, kind))
      && (v.Failed? ==> v.kind == kind && Count(log, kind, KeyOf(r, kind), cutoff) == 0)
      && (v.Limited? ==> v.kind == kind && exists first :: IsWait(limits, log, r, kind, first, v.retryAfter))
  {
    var cutoff := r.time - limits.window;
    var first := CountIsPruned(log, kind, KeyOf(r, kind), cutoff);
    var v := Decide(Prune(TimesOf(log, kind, KeyOf(r, kind)), cutoff), limit, r.time, limits.window, kind);
    if v.Limited? {
      WaitIs(log[first].request.time, limits.window, r.time);
      assert IsWait(limits, log, r, kind, first, v.retryAfter);
    }
  }

  lemma {:induction false} OldestIsCounted(log: seq<Entry>, kind: Kind, key: string, cutoff: real, first: nat)
    requires IsOldest(log, kind, key, cutoff, first)
    ensures Count(log, kind, key, cutoff) > 0
  {
    if first < |log| - 1 {
      OldestIsCounted(log[..|log| - 1], kind, key, cutoff, first);
    }
  }

  /** Every request gets what it deserves. */
  lemma VerdictIsDeserved(limits: Limits, log: seq<Entry>, r: Request)
    ensures Deserves(limits, log, r, Verdict(limits, log, r))
  {
    if r.agent != "" {
      DecideIsDeserved(limits, log, r, Agent, limits.agent);
    }
    if r.ip != "" {
      DecideIsDeserved(limits, log, r, Ip, limits.ip);
    }
    var v := Verdict(limits, log, r);
    if v.Limited? {
      var first :| IsWait(limits, log, r, v.kind, first, v.retryAfter);
      OldestIsCounted(log, v.kind, KeyOf(r, v.kind), r.time - limits.window, first);
    }
  }

  /** A request deserves one answer only. */
  lemma DeservesOnce(limits: Limits, log: seq<Entry>, r: Request, v: Response, w: Response)
    requires Deserves(limits, log, r, v) && Deserves(limits, log, r, w)
    ensures v == w
  {
    if v.Limited? {
      var i :| IsWait(limits, log, r, v.kind, i, v.retryAfter);
      var j :| IsWait(limits, log, r, w.kind, j, w.retryAfter);
      assert i == j;
    }
  }

  /** A history in which the clock never goes back and every request got what it should. */
  ghost predicate IsRun(limits: Limits, log: seq<Entry>) {
    |log| > 0 ==>
      var front, last := log[..|log| - 1], log[|log| - 1];
      && IsRun(limits, front) && last.response == Verdict(limits, front, last.request)
      && (|front| > 0 ==> front[|front| - 1].request.time <= last.request.time)
  }

  /** The time of the last request. */
  ghost predicate NoLater(log: seq<Entry>, t: real) {
    |log| > 0 ==> log[|log| - 1].request.time <= t
  }

  /** In every run every request got what it deserves. */
  lemma {:induction false} RunIsDeserved(limits: Limits, log: seq<Entry>, k: nat)
    requires IsRun(limits, log) && k < |log|
    ensures Deserves(limits, log[..k], log[k].request, log[k].response)
  {
    var n := |log| - 1;
    if k < n {
      RunIsDeserved(limits, log[..n], k);
      assert log[..n][..k] == log[..k];
    } else {
      VerdictIsDeserved(limits, log[..n], log[n].request);
    }
  }

  // ---------------------------------------------------------------- the limits hold in every run

  /** A charged request found room, and so did a forwarded one. */
  lemma FoundRoom(limits: Limits, log: seq<Entry>, e: Entry, key: string)
    requires e.response == Verdict(limits, log, e.request)
    ensures Charged(e, key) ==> |Prune(AgentTimes(log, key), e.request.time - limits.window)| < limits.agent
    ensures Passed(e, key) ==> |Prune(IpTimes(log, key), e.request.time - limits.window)| < limits.ip
  {
  }

  lemma {:induction false} AgentSpaced(limits: Limits, log: seq<Entry>, agent: string, now: real)
    requires IsRun(limits, log) && NoLater(log, now) && limits.agent >= 1
    ensures var h := AgentTimes(log, agent);
      Sorted(h) && UpTo(h, now) && Spaced(h, limits.agent, limits.window)
  {
    if |log| > 0 {
      var front, last := log[..|log| - 1], log[|log| - 1];
      AgentSpaced(limits, front, agent, last.request.time);
      FoundRoom(limits, front, last, agent);
      if Charged(last, agent) {
        AdmitKeepsSpacing(AgentTimes(front, agent), last.request.time, limits.agent, limits.window);
      }
    }
  }

  lemma {:induction false} IpSpaced(limits: Limits, log: seq<Entry>, ip: string, now: real)
    requires IsRun(limits, log) && NoLater(log, now) && limits.ip >= 1
    ensures var h := IpTimes(log, ip);
      Sorted(h) && UpTo(h, now) && Spaced(h, limits.ip, limits.window)
  {
    if |log| > 0 {
      var front, last := log[..|log| - 1], log[|log| - 1];
      IpSpaced(limits, front, ip, last.request.time);
      FoundRoom(limits, front, last, ip);
      if Passed(last, ip) {
        AdmitKeepsSpacing(IpTimes(front, ip), last.request.time, limits.ip, limits.window);
      }
    }
  }

  lemma {:induction false} ForwardedWereCharged(log: seq<Entry>, agent: string, lo: real, hi: real)
    ensures CountIn(ForwardedTimes(log, agent), lo, hi) <= CountIn(AgentTimes(log, agent), lo, hi)
  {
    if |log| > 0 {
      var front, last := log[..|log| - 1], log[|log| - 1];
      ForwardedWereCharged(front, agent, lo, hi);
      var f, c := ForwardedTimes(front, agent), AgentTimes(front, agent);
      assert (f + [last.request.time])[..|f|] == f;
      assert (c + [last.request.time])[..|c|] == c;
    }
  }

  lemma ChargesHold(limits: Limits, log: seq<Entry>, agent: string, lo: real)
    requires IsRun(limits, log) && limits.agent >= 1
    ensures CountIn(AgentTimes(log, agent), lo, lo + limits.window) <= limits.agent
  {
    if |log| > 0 {
      AgentSpaced(limits, log, agent, log[|log| - 1].request.time);
      SpanHoldsLimit(AgentTimes(log, agent), limits.agent, limits.window, lo);
    }
  }

  /** At most the agent limit is forwarded in any half-open span one window long. */
  lemma AgentLimitHolds(limits: Limits, log: seq<Entry>, agent: string, lo: real)
    requires IsRun(limits, log) && limits.agent >= 1
    ensures CountIn(ForwardedTimes(log, agent), lo, lo + limits.window) <= limits.agent
  {
    ChargesHold(limits, log, agent, lo);
    ForwardedWereCharged(log, agent, lo, lo + limits.window);
  }

  /** The same for a client address. */
  lemma IpLimitHolds(limits: Limits, log: seq<Entry>, ip: string, lo: real)
    requires IsRun(limits, log) && limits.ip >= 1
    ensures CountIn(IpTimes(log, ip), lo, lo + limits.window) <= limits.ip
  {
    if |log| > 0 {
      IpSpaced(limits, log, ip, log[|log| - 1].request.time);
      SpanHoldsLimit(IpTimes(log, ip), limits.ip, limits.window, lo);
    }
  }

  lemma {:induction false} TimesUpTo(limits: Limits, log: seq<Entry>, key: string, now: real)
    requires IsRun(limits, log) && NoLater(log, now)
    ensures UpTo(AgentTimes(log, key), now) && UpTo(IpTimes(log, key), now)
    ensures Sorted(AgentTimes(log, key)) && Sorted(IpTimes(log, key))
  {
    if |log| > 0 {
      var front, t := log[..|log| - 1], log[|log| - 1].request.time;
      var agents, ips := AgentTimes(front, key), IpTimes(front, key);
      assert (agents + [t])[..|agents|] == agents && (ips + [t])[..|ips|] == ips;
      TimesUpTo(limits, log[..|log| - 1], key, log[|log| - 1].request.time);
    }
  }

  lemma DecideIsSane(times: seq<real>, limit: int, now: real, window: real, kind: Kind)
    requires limit >= 1 && Sorted(times) && UpTo(times, now)
    ensures Sane(Decide(Prune(times, now - window), limit, now, window, kind), window)
  {
    var recent := Prune(times, now - window);
    if recent != [] {
      PrunedFrom(times, now - window, 0);
      var i :| 0 <= i < |times| && times[i] == recent[0] > now - window;
      SortedAt(times, i, |times| - 1);
    }
  }

  predicate Sane(v: Response, window: real) {
    v.Forwarded? || (v.Limited? && 0.0 <= v.retryAfter as real <= window)
  }

  lemma SaneFromTimes(limits: Limits, log: seq<Entry>, r: Request)
    requires limits.agent >= 1 && limits.ip >= 1
    requires Sorted(AgentTimes(log, r.agent)) && UpTo(AgentTimes(log, r.agent), r.time)
    requires Sorted(IpTimes(log, r.ip)) && UpTo(IpTimes(log, r.ip), r.time)
    ensures Sane(Verdict(limits, log, r), limits.window)
  {
    DecideIsSane(AgentTimes(log, r.agent), limits.agent, r.time, limits.window, Agent);
    DecideIsSane(IpTimes(log, r.ip), limits.ip, r.time, limits.window, Ip);
  }

  /** With limits of at least one no request fails, and a refused one is told to wait at most a window. */
  lemma VerdictIsSane(limits: Limits, log: seq<Entry>, r: Request)
    requires limits.agent >= 1 && limits.ip >= 1 && IsRun(limits, log) && NoLater(log, r.time)
    ensures Sane(Verdict(limits, log, r), limits.window)
  {
    TimesUpTo(limits, log, r.agent, r.time);
    TimesUpTo(limits, log, r.ip, r.time);
    SaneFromTimes(limits, log, r);
  }

  lemma {:induction false} PrunedFrom(times: seq<real>, cutoff: real, k: nat)
    requires k < |Prune(times, cutoff)|
    ensures exists i :: 0 <= i < |times| && times[i] == Prune(times, cutoff)[k] > cutoff
  {
    var front, last := times[..|times| - 1], times[|times| - 1];
    if k < |Prune(front, cutoff)| {
      PrunedFrom(front, cutoff, k);
      var i :| 0 <= i < |front| && front[i] == Prune(front, cutoff)[k] > cutoff;
      assert times[i] == front[i];
    }
  }

  // ---------------------------------------------------------------- the middleware

  function WindowOf(windows: map<string, seq<real>>, key: string): seq<real> {
    if key in windows then windows[key] else []
  }

  ghost predicate AgentsTracked(windows: map<string, seq<real>>, log: seq<Entry>, from: real) {
    forall a :: Agree(WindowOf(windows, a), AgentTimes(log, a), from)
  }

  ghost predicate IpsTracked(windows: map<string, seq<real>>, log: seq<Entry>, from: real) {
    forall ip :: Agree(WindowOf(windows, ip), IpTimes(log, ip), from)
  }

  /** One key's window after a check at the given time. */
  function Checked(windows: map<string, seq<real>>, key: string, cutoff: real, now: real, charged: bool)
    : map<string, seq<real>>
  {
    var kept := Prune(WindowOf(windows, key), cutoff);
    windows[key := if charged then kept + [now] else kept]
  }

  lemma AgentsStayTracked(
    windows: map<string, seq<real>>, windows': map<string, seq<real>>, log: seq<Entry>, from: real, cutoff: real, e: Entry)
    requires AgentsTracked(windows, log, from) && from <= cutoff
    requires var r := e.request;
      windows' == if r.agent == "" then windows
                  else Checked(windows, r.agent, cutoff, r.time, Charged(e, r.agent))
    ensures AgentsTracked(windows', log + [e], cutoff)
  {
    forall a ensures Agree(WindowOf(windows', a), AgentTimes(log + [e], a), cutoff) {
      TimesOfAppend(log, e, a);
      AgreeAfterCheck(WindowOf(windows, a), AgentTimes(log, a), from, cutoff, e.request.time);
    }
  }

  lemma IpsStayTracked(
    windows: map<string, seq<real>>, windows': map<string, seq<real>>, log: seq<Entry>, from: real, cutoff: real, e: Entry,
    checked: bool)
    requires IpsTracked(windows, log, from) && from <= cutoff
    requires var r := e.request;
      if checked then r.ip != "" && windows' == Checked(windows, r.ip, cutoff, r.time, Passed(e, r.ip))
      else !Passed(e, r.ip) && windows' == windows
    ensures IpsTracked(windows', log + [e], cutoff)
  {
    forall ip ensures Agree(WindowOf(windows', ip), IpTimes(log + [e], ip), cutoff) {
      TimesOfAppend(log, e, ip);
      AgreeAfterCheck(WindowOf(windows, ip), IpTimes(log, ip), from, cutoff, e.request.time);
    }
  }

  lemma RunExtends(limits: Limits, log: seq<Entry>, clock: real, e: Entry)
    requires IsRun(limits, log) && NoLater(log, clock) && clock <= e.request.time
    requires e.response == Verdict(limits, log, e.request)
    ensures IsRun(limits, log + [e]) && NoLater(log + [e], e.request.time)
  {
    assert (log + [e])[..|log|] == log;
  }

  class Limiter {
    const limits: Limits

    var agentWindows: map<string, seq<real>>
    var ipWindows: map<string, seq<real>>

    ghost var log: seq<Entry>   // every request handled so far, with its answer
    ghost var clock: real
    ghost var pruned: real      // the cutoff of the last check

    constructor (limits: Limits, start: real)
      ensures this.limits == limits && Valid() && log == [] && clock == start
    {
      this.limits := limits;
      agentWindows, ipWindows, log, clock, pruned := map[], map[], [], start, start - limits.window;
    }

    /** The history is a run, and every pruned list agrees with its full history from here on. */
    ghost predicate Valid()
      reads this
    {
      && IsRun(limits, log) && NoLater(log, clock) && pruned == clock - limits.window
      && AgentsTracked(agentWindows, log, pruned)
      && IpsTracked(ipWindows, log, pruned)
    }

    /** Prune one key's window, decide, and charge the request if it passes. */
    method Check(windows: map<string, seq<real>>, key: string, limit: int, now: real, kind: Kind)
      returns (windows': map<string, seq<real>>, response: Response)
      ensures response == Decide(Prune(WindowOf(windows, key), now - limits.window), limit, now, limits.window, kind)
      ensures windows' == Checked(windows, key, now - limits.window, now, response.Forwarded?)
    {
      var kept := Prune(WindowOf(windows, key), now - limits.window);
      windows' := windows[key := kept];
      if |kept| >= limit {
        if |kept| == 0 {
          return windows', Failed(kind);
        }
        return windows', Limited(kind, (kept[0] + limits.window - now).Floor);
      }
      windows' := windows'[key := kept + [now]];
      return windows', Forwarded;
    }

    method CheckAgent(r: Request) returns (response: Response)
      requires Agree(WindowOf(agentWindows, r.agent), AgentTimes(log, r.agent), pruned)
      requires pruned <= r.time - limits.window
      modifies this`agentWindows
      ensures response == AgentVerdict(limits, log, r)
      ensures agentWindows == if r.agent == "" then old(agentWindows)
        else Checked(old(agentWindows), r.agent, r.time - limits.window, r.time, response.Forwarded?)
    {
      AgreeAfterCheck(WindowOf(agentWindows, r.agent), AgentTimes(log, r.agent), pruned, r.time - limits.window, r.time);
      response := Forwarded;
      if r.agent != "" {
        agentWindows, response := Check(agentWindows, r.agent, limits.agent, r.time, Agent);
      }
    }

    method CheckIp(r: Request) returns (response: Response)
      requires Agree(WindowOf(ipWindows, r.ip), IpTimes(log, r.ip), pruned)
      requires pruned <= r.time - limits.window
      modifies this`ipWindows
      ensures response == IpVerdict(limits, log, r)
      ensures ipWindows == Checked(old(ipWindows), r.ip, r.time - limits.window, r.time, response.Forwarded?)
    {
      AgreeAfterCheck(WindowOf(ipWindows, r.ip), IpTimes(log, r.ip), pruned, r.time - limits.window, r.time);
      ipWindows, response := Check(ipWindows, r.ip, limits.ip, r.time, Ip);
    }

    /** Both checks of a request, and what they leave of the windows. */
    method Answer(r: Request) returns (response: Response, ghost checked: bool)
      requires Agree(WindowOf(agentWindows, r.agent), AgentTimes(log, r.agent), pruned)
      requires Agree(WindowOf(ipWindows, r.ip), IpTimes(log, r.ip), pruned)
      requires pruned <= r.time - limits.window
      modifies this`agentWindows, this`ipWindows
      ensures response == Verdict(limits, log, r)
      ensures agentWindows == if r.agent == "" then old(agentWindows)
        else Checked(old(agentWindows), r.agent, r.time - limits.window, r.time, Charged(Entry(r, response), r.agent))
      ensures if checked
        then r.ip != ""
          && ipWindows == Checked(old(ipWindows), r.ip, r.time - limits.window, r.time, Passed(Entry(r, response), r.ip))
        else !Passed(Entry(r, response), r.ip) && ipWindows == old(ipWindows)
    {
      response := CheckAgent(r);
      checked := response.Forwarded? && r.ip != "";
      if response.Forwarded? && r.ip != "" {
        response := CheckIp(r);
      }
    }

    /** One request gets what its whole history says it deserves. */
    method Handle(r: Request) returns (response: Response)
      requires Valid() && r.time >= clock
      modifies this
      ensures Valid() && clock == r.time
      ensures Deserves(limits, old(log), r, response) && log == old(log) + [Entry(r, response)]
    {
      ghost var checked;
      response, checked := Answer(r);
      ghost var e, cutoff := Entry(r, response), r.time - limits.window;
      AgentsStayTracked(old(agentWindows), agentWindows, log, pruned, cutoff, e);
      IpsStayTracked(old(ipWindows), ipWindows, log, pruned, cutoff, e, checked);
      RunExtends(limits, log, clock, e);
      VerdictIsDeserved(limits, log, r);
      log, clock, pruned := log + [e], r.time, cutoff;
    }

    /** Requests in the order of their times. */
    method HandleAll(requests: seq<Request>)
      requires Valid()
      requires requests != [] ==> requests[0].time >= clock
      requires forall i :: 0 < i < |requests| ==> requests[i - 1].time <= requests[i].time
      modifies this
      ensures Valid() && |log| == |old(log)| + |requests| && old(log) <= log
      ensures forall i :: 0 <= i < |requests| ==>
        var k := |old(log)| + i;
        log[k].request == requests[i] && Deserves(limits, log[..k], requests[i], log[k].response)
    {
      for i := 0 to |requests|
        invariant Valid() && |log| == |old(log)| + i && old(log) <= log
        invariant forall j :: 0 <= j < i ==> log[|old(log)| + j].request == requests[j]
        invariant clock == if i == 0 then old(clock) else requests[i - 1].time
      {
        var response := Handle(requests[i]);
      }
      forall i | 0 <= i < |requests|
        ensures var k := |old(log)| + i; Deserves(limits, log[..k], requests[i], log[k].response)
      {
        RunIsDeserved(limits, log, |old(log)| + i);
      }
    }
  }
}
