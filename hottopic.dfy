/**
 * The weekly hot-topic scheduler: a cache of the communities already done in the current
 * week, two bounded retry loops around the repository and the apply service, and the pass
 * over the configured communities that decides, for each one, to stop, skip, look up,
 * apply, or abort.
 *
 * The outside world (the repository, the apply service, the cancellation check and the
 * sleep between retries) is a `Collaborators` object that logs every call with the answer
 * it got; the answers come from a `Script` indexed by the call's position in the log.
 * Each method is proved equal to a function of the old log (Retry, FindRun, ApplyRun,
 * IsDoneRun, Visit, PassFrom), and the lemmas at the end state what those functions promise.
 */
module HotTopic {
  import Wrappers

  /** The communities whose done-state is never looked up in the repository. */
  const NoInvokeCommunity: seq<string> := [
    "vllm", "unifiedbus", "openeuler", "mindcluster", "mindie", "mindsdk", "mindstudio", "pta",
    "openubmc", "mindspeed", "pytorch", "triton", "sglang", "verl", "tilelang", "sgl",
    "mindspore", "openfuyao", "ascendnpuir", "cannopen"
  ]

  /** How many times the retry loops try again after a failed first attempt. */
  const MaxRetries: nat := 2

  /** An error as the handler tells them apart: none, "invocation time restricted", or any other. */
  datatype Status = Ok | RateLimited | Other

  /** What the repository's FindCreatedAt returns: a timestamp and an error. */
  datatype Stamp = Stamp(createdAt: int, err: Status)

  /** One call made to the outside world, with the answer it got. */
  datatype Call =
    | Polled(stop: bool)                        // needStop()
    | Slept                                     // the ten-second wait before a retry
    | Found(community: string, stamp: Stamp)    // FindCreatedAt(community)
    | Applied(community: string, err: Status)   // ApplyToHotTopic(community)

  /** The answers of the outside world to the call at each position of the log. */
  datatype Script = Script(stop: nat -> bool, find: nat -> Stamp, apply: nat -> Status)

  /** The operation a retry loop repeats. */
  datatype Op = Find(community: string) | Apply(community: string)

  /** The call made by an attempt of `op` at position `i` of the log. */
  function Attempt(s: Script, op: Op, i: nat): (call: Call)
  {
    match op
    case Find(c) => Found(c, s.find(i))
    case Apply(c) => Applied(c, s.apply(i))
  }

  predicate IsAttempt(op: Op, call: Call)
  {
    match op
    case Find(c) => call.Found? && call.community == c
    case Apply(c) => call.Applied? && call.community == c
  }

  /** An attempt that returned an error. */
  predicate Failed(call: Call)
  {
    (call.Found? && call.stamp.err != Ok) || (call.Applied? && call.err != Ok)
  }

  /** A retry loop's log, and the position in it of the attempt whose answer the loop returns. */
  datatype Run = Run(last: nat, calls: seq<Call>)

  /**
   * The rest of a retry loop whose latest attempt is the last call of `calls`, with `left`
   * retries to go: stop on success or when no retry is left; otherwise poll for
   * cancellation, and on "stop" return the failed attempt; otherwise sleep and try again.
   */
  function Retry(s: Script, op: Op, left: nat, calls: seq<Call>): (r: Run)
    requires calls != [] && IsAttempt(op, calls[|calls| - 1])
    ensures calls <= r.calls && |calls| - 1 <= r.last < |r.calls|
    ensures IsAttempt(op, r.calls[r.last])
    decreases left
  {
    if !Failed(calls[|calls| - 1]) || left == 0 then Run(|calls| - 1, calls)
    else if s.stop(|calls|) then Run(|calls| - 1, calls + [Polled(true)])
    else
      var waited := calls + [Polled(false), Slept];
      Retry(s, op, left - 1, waited + [Attempt(s, op, |waited|)])
  }

  /** One more round of a retry loop: after a failed attempt and a poll answered "go on", sleep and try again. */
  lemma RetryAgain(s: Script, op: Op, left: nat, calls: seq<Call>, waited: seq<Call>, next: seq<Call>)
    requires calls != [] && IsAttempt(op, calls[|calls| - 1]) && Failed(calls[|calls| - 1])
    requires left > 0 && !s.stop(|calls|)
    requires waited == calls + [Polled(false), Slept] && next == waited + [Attempt(s, op, |waited|)]
    ensures Retry(s, op, left, calls) == Retry(s, op, left - 1, next)
  {
  }

  /** findUpdatingTime's loop ends at once after a successful lookup, or when no retry is left. */
  lemma FindEnds(s: Script, community: string, left: nat, calls: seq<Call>, last: Stamp)
    requires calls != [] && calls[|calls| - 1] == Found(community, last)
    requires last.err == Ok || left == 0
    ensures Retry(s, Find(community), left, calls) == Run(|calls| - 1, calls)
  {
  }

  /** doApply's loop ends at once after a successful apply, or when no retry is left. */
  lemma ApplyEnds(s: Script, community: string, left: nat, calls: seq<Call>, last: Status)
    requires calls != [] && calls[|calls| - 1] == Applied(community, last)
    requires last == Ok || left == 0
    ensures Retry(s, Apply(community), left, calls) == Run(|calls| - 1, calls)
  {
  }

  /** A retry loop told to stop after a failed attempt returns that attempt. */
  lemma RetryStopped(s: Script, op: Op, left: nat, calls: seq<Call>, polled: seq<Call>)
    requires calls != [] && IsAttempt(op, calls[|calls| - 1]) && Failed(calls[|calls| - 1])
    requires left > 0 && s.stop(|calls|) && polled == calls + [Polled(true)]
    ensures Retry(s, op, left, calls) == Run(|calls| - 1, polled)
  {
  }

  /** findUpdatingTime after the calls `calls`: one FindCreatedAt, then the retry loop. */
  function FindRun(s: Script, community: string, calls: seq<Call>): (r: Run)
    ensures calls <= r.calls && |calls| <= r.last < |r.calls|
    ensures r.calls[r.last].Found? && r.calls[r.last].community == community
  {
    Retry(s, Find(community), MaxRetries, calls + [Attempt(s, Find(community), |calls|)])
  }

  /** doApply after the calls `calls`: one ApplyToHotTopic, returned at once when rate limited, else the retry loop. */
  function ApplyRun(s: Script, community: string, calls: seq<Call>): (r: Run)
    ensures calls <= r.calls && |calls| <= r.last < |r.calls|
    ensures r.calls[r.last].Applied? && r.calls[r.last].community == community
  {
    var first := calls + [Attempt(s, Apply(community), |calls|)];
    if s.apply(|calls|) == RateLimited then Run(|calls|, first)
    else Retry(s, Apply(community), MaxRetries, first)
  }

  /** handler.isDone's answer and log: done when the repository's timestamp is this week's date. */
  datatype Check = Check(done: bool, err: Status, calls: seq<Call>)

  function IsDoneRun(s: Script, community: string, date: int, calls: seq<Call>): (c: Check)
    ensures calls <= c.calls
    ensures community in NoInvokeCommunity ==> c == Check(false, Ok, calls)
    ensures c.done ==> c.err == Ok
  {
    if community in NoInvokeCommunity then Check(false, Ok, calls)
    else
      var r := FindRun(s, community, calls);
      var st := r.calls[r.last].stamp;
      if st.err != Ok then Check(false, st.err, r.calls) else Check(st.createdAt == date, Ok, r.calls)
  }

  /** The state of a pass: the done set, the log, and whether the pass has returned early. */
  datatype Pass = Pass(done: set<string>, calls: seq<Call>, halted: bool)

  /** One iteration of handle's loop, for `community`. */
  function Visit(s: Script, date: int, community: string, done: set<string>, calls: seq<Call>): (v: Pass)
    ensures calls <= v.calls && |v.calls| > |calls| && v.calls[|calls|] == Polled(s.stop(|calls|))
    ensures done <= v.done <= done + {community}
  {
    var stop := s.stop(|calls|);
    var polled := calls + [Polled(stop)];
    if stop then Pass(done, polled, true)
    else if community in done then Pass(done, polled, false)
    else
      var check := IsDoneRun(s, community, date, polled);
      if check.done then Pass(done + {community}, check.calls, false)
      else if check.err != Ok then Pass(done, check.calls, false)
      else
        var r := ApplyRun(s, community, check.calls);
        var err := r.calls[r.last].err;
        if err == Ok then Pass(done + {community}, r.calls, false)
        else Pass(done, r.calls, err == RateLimited)
  }

  /** handle's loop over `communities` from the state `p`; a halted pass does nothing more. */
  function PassFrom(s: Script, date: int, communities: seq<string>, p: Pass): (r: Pass)
    ensures p.calls <= r.calls && p.done <= r.done
    ensures p.halted ==> r == p
    decreases |communities|
  {
    if communities == [] || p.halted then p
    else PassFrom(s, date, communities[1..], Visit(s, date, communities[0], p.done, p.calls))
  }

  /** The done set after doneCache.refresh(date) on a cache holding `stored` and `done`. */
  function Refreshed(stored: int, done: set<string>, date: int): (kept: set<string>)
  {
    if stored != date then {} else done
  }

  /** doneCache: the week it is about and the communities done in that week. */
  class DoneCache {
    var date: int
    var communities: set<string>

    constructor ()
      ensures date == 0 && communities == {}
    {
      date := 0;
      communities := {};
    }

    /** doneCache.isDone: whether `community` is recorded as done for the cache's week. */
    predicate IsDone(community: string)
      reads this
    {
      community in communities
    }

    method Add(community: string)
      modifies this
      ensures IsDone(community)
      ensures forall c :: c != community ==> IsDone(c) == old(IsDone(c))
      ensures date == old(date) && communities == old(communities) + {community}
    {
      communities := communities + {community};
    }

    method Refresh(date: int)
      modifies this
      ensures this.date == date
      ensures old(this.date) != date ==> forall c :: !IsDone(c)
      ensures communities == Refreshed(old(this.date), old(communities), date)
    {
      if this.date != date {
        this.date := date;
        communities := {};
      }
    }
  }

  /** The repository, the apply service, the cancellation check and the clock, with a log of every call. */
  class Collaborators {
    const script: Script
    var calls: seq<Call>

    constructor (script: Script)
      ensures this.script == script && calls == []
    {
      this.script := script;
      calls := [];
    }

    method NeedStop() returns (stop: bool)
      modifies this
      ensures stop == script.stop(|old(calls)|)
      ensures calls == old(calls) + [Polled(stop)]
    {
      stop := script.stop(|calls|);
      calls := calls + [Polled(stop)];
    }

    method Sleep()
      modifies this
      ensures calls == old(calls) + [Slept]
    {
      calls := calls + [Slept];
    }

    method FindCreatedAt(community: string) returns (createdAt: int, err: Status)
      modifies this
      ensures Stamp(createdAt, err) == script.find(|old(calls)|)
      ensures calls == old(calls) + [Found(community, Stamp(createdAt, err))]
    {
      var st := script.find(|calls|);
      createdAt, err := st.createdAt, st.err;
      calls := calls + [Found(community, st)];
    }

    method ApplyToHotTopic(community: string) returns (err: Status)
      modifies this
      ensures err == script.apply(|old(calls)|)
      ensures calls == old(calls) + [Applied(community, err)]
    {
      err := script.apply(|calls|);
      calls := calls + [Applied(community, err)];
    }
  }

  /** handler: the configured communities, the done cache and the collaborators. */
  class Handler {
    const env: Collaborators
    const cache: DoneCache
    const communities: seq<string>

    constructor (env: Collaborators, communities: seq<string>)
      ensures this.env == env && this.communities == communities
      ensures fresh(cache) && cache.date == 0 && cache.communities == {}
    {
      this.env := env;
      this.communities := communities;
      cache := new DoneCache();
    }

    /**
     * findUpdatingTime: up to three FindCreatedAt calls; returns the first success, or the
     * last failed attempt's answer when the retries run out or needStop says to stop.
     */
    method FindUpdatingTime(community: string) returns (createdAt: int, err: Status)
      modifies env
      ensures var r := FindRun(env.script, community, old(env.calls));
              env.calls == r.calls && Stamp(createdAt, err) == r.calls[r.last].stamp
    {
      ghost var target := FindRun(env.script, community, env.calls);
      createdAt, err := env.FindCreatedAt(community);
      if err == Ok {
        FindEnds(env.script, community, MaxRetries, env.calls, Stamp(createdAt, err));
        return;
      }
      for i := 0 to MaxRetries
        invariant env.calls != [] && env.calls[|env.calls| - 1] == Found(community, Stamp(createdAt, err))
        invariant err != Ok
        invariant Retry(env.script, Find(community), MaxRetries - i, env.calls) == target
      {
        var next := FindAgain(community, MaxRetries - i, Stamp(createdAt, err));
        if next.None? {
          return;
        }
        createdAt, err := next.value.createdAt, next.value.err;
        if err == Ok {
          return;
        }
      }
      FindEnds(env.script, community, 0, env.calls, Stamp(createdAt, err));
    }

    /**
     * One more round of the retry loop after a failed attempt, with `left` retries to go:
     * poll needStop and, told to go on, sleep and try again.
     */
    method FindAgain(community: string, ghost left: nat, ghost last: Stamp) returns (next: Wrappers.Option<Stamp>)
      requires left > 0 && env.calls != [] && env.calls[|env.calls| - 1] == Found(community, last) && last.err != Ok
      modifies env
      ensures next.None? ==> Retry(env.script, Find(community), left, old(env.calls)) == Run(|old(env.calls)| - 1, env.calls)
      ensures next.None? ==> env.calls == old(env.calls) + [Polled(true)]
      ensures next.Some? ==> env.calls == old(env.calls) + [Polled(false), Slept, Found(community, next.value)]
      ensures next.Some? ==> env.calls != [] && env.calls[|env.calls| - 1] == Found(community, next.value)
      ensures next.Some? && next.value.err == Ok ==> Retry(env.script, Find(community), left, old(env.calls)) == Run(|env.calls| - 1, env.calls)
      ensures next.Some? && next.value.err != Ok ==> Retry(env.script, Find(community), left, old(env.calls)) == Retry(env.script, Find(community), left - 1, env.calls)
    {
      ghost var tried := env.calls;
      var stop := env.NeedStop();
      if stop {
        RetryStopped(env.script, Find(community), left, tried, env.calls);
        return Wrappers.None;
      }
      env.Sleep();
      ghost var waited := env.calls;
      var createdAt, err := env.FindCreatedAt(community);
      RetryAgain(env.script, Find(community), left, tried, waited, env.calls);
      if err == Ok {
        FindEnds(env.script, community, left - 1, env.calls, Stamp(createdAt, err));
      }
      next := Wrappers.Some(Stamp(createdAt, err));
    }

    /**
     * doApply: one ApplyToHotTopic, returned at once on success or rate limiting; otherwise
     * up to two retries, returning the last call's error.
     */
    method DoApply(community: string) returns (err: Status)
      modifies env
      ensures var r := ApplyRun(env.script, community, old(env.calls));
              env.calls == r.calls && err == r.calls[r.last].err
    {
      ghost var target := ApplyRun(env.script, community, env.calls);
      err := env.ApplyToHotTopic(community);
      if err == Ok {
        return;
      }
      if err == RateLimited {
        return;
      }
      for i := 0 to MaxRetries
        invariant env.calls != [] && env.calls[|env.calls| - 1] == Applied(community, err)
        invariant err != Ok
        invariant Retry(env.script, Apply(community), MaxRetries - i, env.calls) == target
      {
        var next := ApplyAgain(community, MaxRetries - i, err);
        if next.None? {
          return;
        }
        err := next.value;
        if err == Ok {
          return;
        }
      }
      ApplyEnds(env.script, community, 0, env.calls, err);
    }

    /**
     * One more round of the retry loop after a failed attempt, with `left` retries to go:
     * poll needStop and, told to go on, sleep and try again.
     */
    method ApplyAgain(community: string, ghost left: nat, ghost last: Status) returns (next: Wrappers.Option<Status>)
      requires left > 0 && env.calls != [] && env.calls[|env.calls| - 1] == Applied(community, last) && last != Ok
      modifies env
      ensures next.None? ==> Retry(env.script, Apply(community), left, old(env.calls)) == Run(|old(env.calls)| - 1, env.calls)
      ensures next.None? ==> env.calls == old(env.calls) + [Polled(true)]
      ensures next.Some? ==> env.calls == old(env.calls) + [Polled(false), Slept, Applied(community, next.value)]
      ensures next.Some? ==> env.calls != [] && env.calls[|env.calls| - 1] == Applied(community, next.value)
      ensures next.Some? && next.value == Ok ==> Retry(env.script, Apply(community), left, old(env.calls)) == Run(|env.calls| - 1, env.calls)
      ensures next.Some? && next.value != Ok ==> Retry(env.script, Apply(community), left, old(env.calls)) == Retry(env.script, Apply(community), left - 1, env.calls)
    {
      ghost var tried := env.calls;
      var stop := env.NeedStop();
      if stop {
        RetryStopped(env.script, Apply(community), left, tried, env.calls);
        return Wrappers.None;
      }
      env.Sleep();
      ghost var waited := env.calls;
      var err := env.ApplyToHotTopic(community);
      RetryAgain(env.script, Apply(community), left, tried, waited, env.calls);
      if err == Ok {
        ApplyEnds(env.script, community, left - 1, env.calls, err);
      }
      next := Wrappers.Some(err);
    }

    /**
     * handler.isDone: communities of NoInvokeCommunity are "not done, no error" without a
     * repository call; otherwise done when the timestamp found is `date`, and an error when
     * the lookup failed.
     */
    method IsDone(community: string, date: int) returns (done: bool, err: Status)
      modifies env
      ensures IsDoneRun(env.script, community, date, old(env.calls)) == Check(done, err, env.calls)
      ensures community in NoInvokeCommunity ==> !done && err == Ok && env.calls == old(env.calls)
    {
      if community in NoInvokeCommunity {
        return false, Ok;
      }
      var createdAt;
      createdAt, err := FindUpdatingTime(community);
      if err != Ok {
        return false, err;
      }
      return createdAt == date, Ok;
    }

    /**
     * handle: refresh the cache for `date` (the last Friday), then visit the communities in
     * order, as Visit says, until the list ends, needStop says to stop or an apply is rate limited.
     */
    method Handle(date: int)
      modifies cache, env
      ensures cache.date == date
      ensures var p := PassFrom(env.script, date, communities,
                                Pass(Refreshed(old(cache.date), old(cache.communities), date), old(env.calls), false));
              cache.communities == p.done && env.calls == p.calls
    {
      cache.Refresh(date);
      ghost var final := PassFrom(env.script, date, communities, Pass(cache.communities, env.calls, false));
      for i := 0 to |communities|
        invariant cache.date == date
        invariant PassFrom(env.script, date, communities[i..], Pass(cache.communities, env.calls, false)) == final
      {
        ghost var v := Visit(env.script, date, communities[i], cache.communities, env.calls);
        assert communities[i..][1..] == communities[i + 1..];
        assert PassFrom(env.script, date, communities[i + 1..], v) == final;
        var community := communities[i];
        var stop := env.NeedStop();
        if stop {
          return;
        }
        if cache.IsDone(community) {
          continue;
        }
        var done, err := IsDone(community, date);
        if done {
          cache.Add(community);
          continue;
        } else if err != Ok {
          continue;
        }
        err := DoApply(community);
        if err == Ok {
          cache.Add(community);
          continue;
        }
        if err == RateLimited {
          return;
        }
      }
    }
  }

  // ---------------------------------------------------------------------------------------
  // The retry loops

  /** Polls and sleeps: the calls that are neither a lookup nor an apply. */
  predicate Quiet(call: Call)
  {
    call.Polled? || call.Slept?
  }

  /** The number of attempts of `op` in `calls`. */
  function Attempts(op: Op, calls: seq<Call>): (count: nat)
  {
    if calls == [] then 0 else (if IsAttempt(op, calls[0]) then 1 else 0) + Attempts(op, calls[1..])
  }

  /**
   * `seg` is a first attempt of `op` and then `m` retry rounds, each made after a failed
   * attempt, a poll answered "go on" and a sleep.
   */
  predicate Rounds(op: Op, seg: seq<Call>, m: nat)
    decreases m
  {
    if m == 0 then |seg| == 1 && IsAttempt(op, seg[0])
    else
      && |seg| > 3 && IsAttempt(op, seg[0]) && Failed(seg[0])
      && seg[1] == Polled(false) && seg[2] == Slept
      && Rounds(op, seg[3..], m - 1)
  }

  /** The attempts, polls and sleeps of the run `r` after `before`, up to the attempt it returns. */
  function Tried(before: seq<Call>, r: Run): (seg: seq<Call>)
    requires |before| <= r.last < |r.calls|
  {
    r.calls[|before|..r.last + 1]
  }

  /**
   * `r` is a bounded retry of `op`, with at most `retries` retries, made after the calls
   * `before`: attempts separated by "go on" polls and sleeps, ending at the attempt `r.last`,
   * followed by a poll answered "stop" exactly when that attempt failed with retries to spare.
   */
  ghost predicate Retried(op: Op, retries: nat, before: seq<Call>, r: Run)
  {
    && before <= r.calls && |before| <= r.last < |r.calls| <= r.last + 2
    && (r.last + 1 < |r.calls| ==> r.calls[r.last + 1] == Polled(true))
    && exists m: nat :: m <= retries && Rounds(op, Tried(before, r), m)
                    && (Failed(r.calls[r.last]) && m < retries <==> r.last + 1 < |r.calls|)
  }

  /** The shape of a run of rounds: its length, its number of attempts, and every call before the last. */
  lemma {:induction false} RoundsShape(op: Op, seg: seq<Call>, m: nat)
    requires Rounds(op, seg, m)
    ensures |seg| == 3 * m + 1 && Attempts(op, seg) == m + 1
    ensures IsAttempt(op, seg[|seg| - 1])
    ensures forall i :: 0 <= i < |seg| - 1 ==> Quiet(seg[i]) || (IsAttempt(op, seg[i]) && Failed(seg[i]))
    decreases m
  {
    if m == 0 {
      assert seg[1..] == [];
    } else {
      var rest := seg[3..];
      RoundsShape(op, rest, m - 1);
      assert seg[1..][1..][1..] == rest;
      assert Attempts(op, seg[1..][1..]) == Attempts(op, rest);
      assert Attempts(op, seg[1..]) == Attempts(op, rest);
      assert forall i :: 3 <= i < |seg| ==> seg[i] == rest[i - 3];
    }
  }

  /** The retry loop, started by an attempt after `before` with `left` retries, is a bounded retry. */
  lemma {:induction false} RetryRounds(s: Script, op: Op, left: nat, before: seq<Call>)
    ensures Retried(op, left, before, Retry(s, op, left, before + [Attempt(s, op, |before|)]))
    decreases left
  {
    var a := Attempt(s, op, |before|);
    var calls := before + [a];
    var r := Retry(s, op, left, calls);
    if !Failed(a) || left == 0 {
      RetriedFirst(op, left, before, a, []);
      assert calls == before + [a] + [];
    } else if s.stop(|calls|) {
      RetryStopped(s, op, left, calls, calls + [Polled(true)]);
      RetriedFirst(op, left, before, a, [Polled(true)]);
    } else {
      var waited := before + [a, Polled(false), Slept];
      var next := waited + [Attempt(s, op, |waited|)];
      RetryAgain(s, op, left, calls, waited, next);
      RetryRounds(s, op, left - 1, waited);
      RetriedAgain(op, left, before, a, r);
    }
  }

  /** A single attempt is a bounded retry when it succeeded or no retry is left, or when a poll answered "stop" follows it. */
  lemma RetriedFirst(op: Op, left: nat, before: seq<Call>, a: Call, tail: seq<Call>)
    requires IsAttempt(op, a)
    requires tail == [] || tail == [Polled(true)]
    requires tail == [] <==> !Failed(a) || left == 0
    ensures Retried(op, left, before, Run(|before|, before + [a] + tail))
  {
    var r := Run(|before|, before + [a] + tail);
    assert Tried(before, r) == [a];
    assert Rounds(op, [a], 0);
  }

  /** A failed attempt, a poll answered "go on" and a sleep, in front of a bounded retry, make one with one retry more. */
  lemma RetriedAgain(op: Op, left: nat, before: seq<Call>, a: Call, r: Run)
    requires IsAttempt(op, a) && Failed(a) && left > 0
    requires Retried(op, left - 1, before + [a, Polled(false), Slept], r)
    ensures Retried(op, left, before, r)
  {
    var waited := before + [a, Polled(false), Slept];
    var m: nat :| m <= left - 1 && Rounds(op, Tried(waited, r), m)
                && (Failed(r.calls[r.last]) && m < left - 1 <==> r.last + 1 < |r.calls|);
    var seg := Tried(before, r);
    assert r.calls[..|waited|] == waited;
    assert r.calls[|before|] == a && r.calls[|before| + 1] == Polled(false) && r.calls[|before| + 2] == Slept;
    assert seg[3..] == Tried(waited, r);
    assert Rounds(op, seg, m + 1);
  }

  /**
   * What a bounded retry promises: at most `retries + 1` attempts; the calls after `before`
   * are attempts of `op`, polls and sleeps; the attempt whose answer is returned is the only
   * one that may have succeeded, so it is the first success; and the retries end early only
   * on a poll answered "stop", after a failed attempt.
   */
  lemma RetriedFacts(op: Op, retries: nat, before: seq<Call>, r: Run)
    requires Retried(op, retries, before, r)
    ensures Attempts(op, Tried(before, r)) <= retries + 1
    ensures IsAttempt(op, r.calls[r.last])
    ensures forall x :: x in r.calls[|before|..] ==> Quiet(x) || IsAttempt(op, x)
    ensures forall x :: x in r.calls[|before|..] && IsAttempt(op, x) && !Failed(x) ==> x == r.calls[r.last]
    ensures forall j :: |before| <= j < |r.calls| && IsAttempt(op, r.calls[j]) && !Failed(r.calls[j]) ==> j == r.last
    ensures r.last + 1 < |r.calls| ==> r.calls[r.last + 1..] == [Polled(true)] && Failed(r.calls[r.last])
  {
    var m: nat :| m <= retries && Rounds(op, Tried(before, r), m)
                && (Failed(r.calls[r.last]) && m < retries <==> r.last + 1 < |r.calls|);
    var seg := Tried(before, r);
    RoundsShape(op, seg, m);
    assert seg[|seg| - 1] == r.calls[r.last];
    var after := r.calls[|before|..];
    forall x | x in after
      ensures Quiet(x) || IsAttempt(op, x)
      ensures IsAttempt(op, x) && !Failed(x) ==> x == r.calls[r.last]
    {
      var k :| 0 <= k < |after| && x == after[k];
      if k < |seg| - 1 {
        assert x == seg[k];
      } else if k >= |seg| {
        assert x == r.calls[r.last + 1];
      }
    }
    OnlyLastSucceeds(op, before, r, seg);
  }

  /** In a retry whose calls before the returned attempt are quiet or failed attempts, and whose calls after it are quiet, no other attempt succeeded. */
  lemma OnlyLastSucceeds(op: Op, before: seq<Call>, r: Run, seg: seq<Call>)
    requires |before| <= r.last < |r.calls| && seg == Tried(before, r)
    requires forall i :: 0 <= i < |seg| - 1 ==> Quiet(seg[i]) || (IsAttempt(op, seg[i]) && Failed(seg[i]))
    requires forall j :: r.last < j < |r.calls| ==> Quiet(r.calls[j])
    ensures forall j :: |before| <= j < |r.calls| && IsAttempt(op, r.calls[j]) && !Failed(r.calls[j]) ==> j == r.last
  {
    forall j | |before| <= j < r.last
      ensures !IsAttempt(op, r.calls[j]) || Failed(r.calls[j])
    {
      assert r.calls[j] == seg[j - |before|];
    }
  }

  /**
   * findUpdatingTime is a bounded retry with two retries: at most three FindCreatedAt calls,
   * the first success returned, and an early return only on "stop", with the failed answer.
   */
  lemma FindUpdatingTimeRetries(s: Script, community: string, calls: seq<Call>)
    ensures Retried(Find(community), MaxRetries, calls, FindRun(s, community, calls))
  {
    RetryRounds(s, Find(community), MaxRetries, calls);
  }

  /**
   * doApply is a bounded retry with two retries, and with none when the first call is rate
   * limited: then it returns after exactly that call, as it does when the first call succeeds.
   */
  lemma DoApplyRetries(s: Script, community: string, calls: seq<Call>)
    ensures var retries := if s.apply(|calls|) == RateLimited then 0 else MaxRetries;
            Retried(Apply(community), retries, calls, ApplyRun(s, community, calls))
    ensures s.apply(|calls|) in {Ok, RateLimited} ==>
              ApplyRun(s, community, calls) == Run(|calls|, calls + [Applied(community, s.apply(|calls|))])
  {
    var first := calls + [Attempt(s, Apply(community), |calls|)];
    if s.apply(|calls|) == RateLimited {
      var r := ApplyRun(s, community, calls);
      assert Tried(calls, r) == [first[|calls|]];
      assert Rounds(Apply(community), Tried(calls, r), 0);
    } else {
      RetryRounds(s, Apply(community), MaxRetries, calls);
    }
  }

  // ---------------------------------------------------------------------------------------
  // handler.isDone and one iteration of handle

  /**
   * handler.isDone: a community of NoInvokeCommunity is "not done, no error" with no call;
   * any other is looked up, and is done exactly when a lookup returned this week's date,
   * and has an error exactly when no lookup succeeded.
   */
  lemma IsDoneMeaning(s: Script, community: string, date: int, calls: seq<Call>)
    ensures var c := IsDoneRun(s, community, date, calls);
            && (community in NoInvokeCommunity ==> c == Check(false, Ok, calls))
            && (forall x :: x in c.calls[|calls|..] ==>
                  Quiet(x) || (x.Found? && x.community == community && community !in NoInvokeCommunity))
            && (c.done <==> Found(community, Stamp(date, Ok)) in c.calls[|calls|..])
            && (c.err == Ok <==> community in NoInvokeCommunity || exists t :: Found(community, Stamp(t, Ok)) in c.calls[|calls|..])
            && (c.done ==> c.err == Ok)
  {
    if community !in NoInvokeCommunity {
      var r := FindRun(s, community, calls);
      FindUpdatingTimeRetries(s, community, calls);
      RetriedFacts(Find(community), MaxRetries, calls, r);
      var after := r.calls[|calls|..];
      assert after[r.last - |calls|] == r.calls[r.last];
    }
  }

  /** The calls made after `a` up to `c` are those made up to `b` and then those made after `b`. */
  lemma CallsSince(a: seq<Call>, b: seq<Call>, c: seq<Call>)
    requires a <= b <= c
    ensures c[|a|..] == b[|a|..] + c[|b|..]
  {
    assert c[|a|..] == c[|a|..|b|] + c[|b|..];
    assert c[|a|..|b|] == b[|a|..];
  }

  /** doApply's calls are applies of that community, polls and sleeps; it succeeds exactly when one apply did. */
  lemma DoApplyMeaning(s: Script, community: string, calls: seq<Call>)
    ensures var r := ApplyRun(s, community, calls);
            && (forall x :: x in r.calls[|calls|..] ==> Quiet(x) || (x.Applied? && x.community == community))
            && (r.calls[r.last].err == Ok <==> Applied(community, Ok) in r.calls[|calls|..])
  {
    var r := ApplyRun(s, community, calls);
    DoApplyRetries(s, community, calls);
    RetriedFacts(Apply(community), if s.apply(|calls|) == RateLimited then 0 else MaxRetries, calls, r);
    var after := r.calls[|calls|..];
    assert after[r.last - |calls|] == r.calls[r.last];
  }

  /**
   * One iteration of handle: it polls first and, told to stop, returns before touching the
   * community; a cached community causes no other call; otherwise every call is about that
   * community, and a lookup only for one outside NoInvokeCommunity.
   */
  lemma VisitCalls(s: Script, date: int, community: string, done: set<string>, calls: seq<Call>)
    ensures var v := Visit(s, date, community, done, calls);
            && |v.calls| > |calls| && v.calls[|calls|] == Polled(s.stop(|calls|))
            && (s.stop(|calls|) ==> v == Pass(done, calls + [Polled(true)], true))
            && (community in done ==> v.calls == calls + [Polled(s.stop(|calls|))] && v.done == done)
            && forall x :: x in v.calls[|calls|..] ==>
                 Quiet(x) || (x.community == community && community !in done && (x.Found? ==> community !in NoInvokeCommunity))
  {
    var stop := s.stop(|calls|);
    var polled := calls + [Polled(stop)];
    if !stop && community !in done {
      var check := IsDoneRun(s, community, date, polled);
      IsDoneMeaning(s, community, date, polled);
      CallsSince(calls, polled, check.calls);
      assert polled[|calls|..] == [Polled(false)];
      if !check.done && check.err == Ok {
        var r := ApplyRun(s, community, check.calls);
        DoApplyMeaning(s, community, check.calls);
        CallsSince(calls, check.calls, r.calls);
      }
    }
  }

  /**
   * One iteration of handle adds at most its community to the done set, and adds it exactly
   * when a lookup in it found this week's date or an apply in it succeeded.
   */
  lemma VisitDone(s: Script, date: int, community: string, done: set<string>, calls: seq<Call>)
    ensures var v := Visit(s, date, community, done, calls);
            && done <= v.done <= done + {community}
            && (community in v.done <==>
                  community in done || Found(community, Stamp(date, Ok)) in v.calls[|calls|..]
                  || Applied(community, Ok) in v.calls[|calls|..])
  {
    var v := Visit(s, date, community, done, calls);
    var stop := s.stop(|calls|);
    if stop || community in done {
      assert v.calls[|calls|..] == [Polled(stop)];
    } else {
      VisitDoneLooked(s, date, community, done, calls);
    }
  }

  /**
   * One iteration of handle whose lookup ended in an error: the community is not marked,
   * the pass goes on, the iteration ends with the lookup, and no apply is made.
   */
  lemma VisitLookupError(s: Script, date: int, community: string, done: set<string>, calls: seq<Call>)
    requires !s.stop(|calls|) && community !in done
    requires IsDoneRun(s, community, date, calls + [Polled(false)]).err != Ok
    ensures var v := Visit(s, date, community, done, calls);
            && v.done == done && !v.halted
            && v.calls == IsDoneRun(s, community, date, calls + [Polled(false)]).calls
            && forall x :: x in v.calls[|calls|..] ==> !x.Applied?
  {
    var polled := calls + [Polled(false)];
    var check := IsDoneRun(s, community, date, polled);
    IsDoneMeaning(s, community, date, polled);
    CallsSince(calls, polled, check.calls);
    assert polled[|calls|..] == [Polled(false)];
  }

  /** VisitDone for a community that is looked up (or not, for one of NoInvokeCommunity) and maybe applied. */
  lemma VisitDoneLooked(s: Script, date: int, community: string, done: set<string>, calls: seq<Call>)
    requires !s.stop(|calls|) && community !in done
    ensures var v := Visit(s, date, community, done, calls);
            && done <= v.done <= done + {community}
            && (community in v.done <==>
                  Found(community, Stamp(date, Ok)) in v.calls[|calls|..] || Applied(community, Ok) in v.calls[|calls|..])
  {
    var v := Visit(s, date, community, done, calls);
    var polled := calls + [Polled(false)];
    var check := IsDoneRun(s, community, date, polled);
    IsDoneMeaning(s, community, date, polled);
    var looked := check.calls[|polled|..];
    CallsSince(calls, polled, check.calls);
    assert polled[|calls|..] == [Polled(false)];
    if check.done || check.err != Ok {
      assert v.calls[|calls|..] == [Polled(false)] + looked + [];
      LookupThenApply(Found(community, Stamp(date, Ok)), Applied(community, Ok), looked, []);
    } else {
      VisitDoneApplied(s, date, community, done, calls, check);
    }
  }

  /** VisitDone for a community whose lookup did not find it done: the apply decides. */
  lemma VisitDoneApplied(s: Script, date: int, community: string, done: set<string>, calls: seq<Call>, check: Check)
    requires !s.stop(|calls|) && community !in done
    requires check == IsDoneRun(s, community, date, calls + [Polled(false)])
    requires !check.done && check.err == Ok
    ensures var v := Visit(s, date, community, done, calls);
            && done <= v.done <= done + {community}
            && (community in v.done <==>
                  Found(community, Stamp(date, Ok)) in v.calls[|calls|..] || Applied(community, Ok) in v.calls[|calls|..])
  {
    var v := Visit(s, date, community, done, calls);
    var polled := calls + [Polled(false)];
    IsDoneMeaning(s, community, date, polled);
    var looked := check.calls[|polled|..];
    CallsSince(calls, polled, check.calls);
    assert polled[|calls|..] == [Polled(false)];
    var r := ApplyRun(s, community, check.calls);
    DoApplyMeaning(s, community, check.calls);
    var tried := r.calls[|check.calls|..];
    CallsSince(calls, check.calls, r.calls);
    assert v.calls[|calls|..] == [Polled(false)] + looked + tried;
    LookupThenApply(Found(community, Stamp(date, Ok)), Applied(community, Ok), looked, tried);
  }

  /** In a poll, lookups and then applies, a lookup can only be among the lookups and an apply among the applies. */
  lemma LookupThenApply(found: Call, applied: Call, looked: seq<Call>, tried: seq<Call>)
    requires found.Found? && applied.Applied?
    requires forall x :: x in looked ==> Quiet(x) || x.Found?
    requires forall x :: x in tried ==> Quiet(x) || x.Applied?
    ensures found in [Polled(false)] + looked + tried <==> found in looked
    ensures applied in [Polled(false)] + looked + tried <==> applied in tried
  {
  }

  /**
   * handle returns from an iteration only when needStop said to stop before the community
   * was touched, or after an apply answered with the rate-limit error; and then it has added nothing.
   */
  lemma VisitHalts(s: Script, date: int, community: string, done: set<string>, calls: seq<Call>)
    ensures var v := Visit(s, date, community, done, calls);
            && (v.halted ==> v.done == done)
            && (v.halted && !s.stop(|calls|) ==> Applied(community, RateLimited) in v.calls[|calls|..])
            && (s.stop(|calls|) ==> v.halted)
            && (!s.stop(|calls|) && community !in done ==>
                  var check := IsDoneRun(s, community, date, calls + [Polled(false)]);
                  !check.done && check.err == Ok ==>
                    var r := ApplyRun(s, community, check.calls);
                    (v.halted <==> r.calls[r.last].err == RateLimited))
  {
    var v := Visit(s, date, community, done, calls);
    var polled := calls + [Polled(false)];
    if v.halted && !s.stop(|calls|) {
      var check := IsDoneRun(s, community, date, polled);
      var r := ApplyRun(s, community, check.calls);
      CallsSince(calls, check.calls, r.calls);
      assert r.calls[|check.calls|..][r.last - |check.calls|] == Applied(community, RateLimited);
    }
  }

  // ---------------------------------------------------------------------------------------
  // The pass of handle over the communities

  /** handle visits the communities in list order: a pass over `a + b` is a pass over `a`, then one over `b`. */
  lemma {:induction false} PassSplit(s: Script, date: int, a: seq<string>, b: seq<string>, p: Pass)
    ensures PassFrom(s, date, a + b, p) == PassFrom(s, date, b, PassFrom(s, date, a, p))
    decreases |a|
  {
    if a == [] {
      assert a + b == b;
    } else if !p.halted {
      assert (a + b)[1..] == a[1..] + b;
      PassSplit(s, date, a[1..], b, Visit(s, date, a[0], p.done, p.calls));
    }
  }

  /** Once an iteration has returned (rate limit or stop), the communities after it get no call and are not added. */
  lemma PassHaltedIgnoresRest(s: Script, date: int, a: seq<string>, b: seq<string>, p: Pass)
    requires PassFrom(s, date, a, p).halted
    ensures PassFrom(s, date, a + b, p) == PassFrom(s, date, a, p)
  {
    PassSplit(s, date, a, b, p);
  }

  /** Putting the calls of two consecutive stretches together. */
  lemma CallsStep(c0: string, done0: set<string>, new1: seq<Call>, comms: seq<string>, done1: set<string>, new2: seq<Call>)
    requires forall x :: x in new1 ==> Quiet(x) || (x.community == c0 && c0 !in done0 && (x.Found? ==> c0 !in NoInvokeCommunity))
    requires forall x :: x in new2 ==> Quiet(x) || (x.community in comms && x.community !in done1 && (x.Found? ==> x.community !in NoInvokeCommunity))
    requires done0 <= done1
    ensures forall x :: x in new1 + new2 ==>
              Quiet(x) || (x.community in [c0] + comms && x.community !in done0 && (x.Found? ==> x.community !in NoInvokeCommunity))
  {
  }

  /**
   * The calls of a pass: besides polls and sleeps, only lookups and applies of communities of
   * the list that were not done when the pass began, and no lookup of NoInvokeCommunity.
   */
  lemma {:induction false} PassCalls(s: Script, date: int, comms: seq<string>, p: Pass)
    ensures var r := PassFrom(s, date, comms, p);
            forall x :: x in r.calls[|p.calls|..] ==>
              Quiet(x) || (x.community in comms && x.community !in p.done && (x.Found? ==> x.community !in NoInvokeCommunity))
    decreases |comms|
  {
    var r := PassFrom(s, date, comms, p);
    if comms == [] || p.halted {
      assert r.calls[|p.calls|..] == [];
    } else {
      var v := Visit(s, date, comms[0], p.done, p.calls);
      VisitCalls(s, date, comms[0], p.done, p.calls);
      VisitDone(s, date, comms[0], p.done, p.calls);
      PassCalls(s, date, comms[1..], v);
      CallsSince(p.calls, v.calls, r.calls);
      CallsStep(comms[0], p.done, v.calls[|p.calls|..], comms[1..], v.done, r.calls[|v.calls|..]);
      assert [comms[0]] + comms[1..] == comms;
    }
  }

  /** Putting the done sets of two consecutive stretches together. */
  lemma DoneStep(date: int, c0: string, done0: set<string>, done1: set<string>, done2: set<string>, new1: seq<Call>, new2: seq<Call>)
    requires done0 <= done1 <= done0 + {c0}
    requires c0 in done1 <==> c0 in done0 || Found(c0, Stamp(date, Ok)) in new1 || Applied(c0, Ok) in new1
    requires forall x :: x in new1 ==> Quiet(x) || x.community == c0
    requires done1 <= done2
    requires forall c :: c in done2 <==> c in done1 || Found(c, Stamp(date, Ok)) in new2 || Applied(c, Ok) in new2
    ensures forall c :: c in done2 <==> c in done0 || Found(c, Stamp(date, Ok)) in new1 + new2 || Applied(c, Ok) in new1 + new2
  {
  }

  /**
   * The done set after a pass: the one before, plus exactly the communities for which a lookup
   * in this pass found this week's date or an apply in this pass succeeded.
   */
  lemma {:induction false} PassDone(s: Script, date: int, comms: seq<string>, p: Pass)
    ensures var r := PassFrom(s, date, comms, p);
            && p.done <= r.done
            && forall c :: c in r.done <==>
                 c in p.done || Found(c, Stamp(date, Ok)) in r.calls[|p.calls|..] || Applied(c, Ok) in r.calls[|p.calls|..]
    decreases |comms|
  {
    var r := PassFrom(s, date, comms, p);
    if comms == [] || p.halted {
      assert r.calls[|p.calls|..] == [];
    } else {
      var v := Visit(s, date, comms[0], p.done, p.calls);
      VisitCalls(s, date, comms[0], p.done, p.calls);
      VisitDone(s, date, comms[0], p.done, p.calls);
      PassDone(s, date, comms[1..], v);
      CallsSince(p.calls, v.calls, r.calls);
      DoneStep(date, comms[0], p.done, v.done, r.done, v.calls[|p.calls|..], r.calls[|v.calls|..]);
    }
  }

  /** A pass adds only communities of its list. */
  lemma PassAddsListed(s: Script, date: int, comms: seq<string>, p: Pass)
    ensures var r := PassFrom(s, date, comms, p);
            forall c :: c in r.done ==> c in p.done || c in comms
  {
    PassDone(s, date, comms, p);
    PassCalls(s, date, comms, p);
  }
}
