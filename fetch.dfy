/** The download retry loop (`download_file`): every round tries a fixed
    sequence of strategies, each of which may leave the target file behind;
    an attempt wins only when the strategy ran to its size check and the file
    is then non-empty. The network and the helper programs are an oracle
    answering each try. */
module Fetch {
  import opened Wrappers
  import opened Text
  import opened Files

  /** The download strategies, in the order a round tries them. */
  datatype Strategy = Requests | Curl | Wget | PowerShell | Urllib | HttpDowngrade

  /** One try: the address fetched, the round (counted from 1) and the strategy. */
  datatype Try = Try(url: string, round: nat, strategy: Strategy)

  /** What a try did. `completed`: it reached its size check without raising
      (for the external programs: exit code 0). `wrote`: the size of the file
      it left, or `None` when it left the file as it was. */
  datatype Attempt = Attempt(completed: bool, wrote: Option<nat>)

  /** The network, the helper programs and the remote servers, as one oracle. */
  type Transport = Try -> Attempt

  /** What the loop observably does: a try, or the pause between rounds. */
  datatype Event = Tried(t: Try) | Waited

  /** Whether a download returned `True`, the directory after it, and its events. */
  datatype Fetched = Fetched(ok: bool, dir: Dir, trace: seq<Event>)

  /** The state after one strategy and whether it returned `True`. */
  datatype Outcome = Outcome(won: bool, dir: Dir)

  /** The number of rounds `download_file` is called with everywhere in the script. */
  const DOWNLOAD_RETRIES: nat := 3

  /** The strategies of one round: PowerShell only on win32, the HTTP
      downgrade only for an `https://` address. */
  function Plan(url: string, platform: string): seq<Strategy> {
    [Requests, Curl, Wget]
      + (if platform == "win32" then [PowerShell] else [])
      + [Urllib]
      + (if StartsWith(url, "https://") then [HttpDowngrade] else [])
  }

  /** The address a strategy fetches: the downgrade replaces every `https://`
      with `http://`. */
  function Target(url: string, s: Strategy): string {
    if s == HttpDowngrade then ReplaceAll(url, "https://", "http://") else url
  }

  /** A try that by itself guarantees success: it completes and leaves a
      non-empty file. */
  predicate Serves(a: Attempt) {
    a.completed && a.wrote.Some? && a.wrote.value > 0
  }

  /** One strategy's effect on file `f`. A try that completes wins when the
      file is then non-empty; a completed `requests` try that leaves it empty
      removes it. Nothing but `f` changes. */
  function Step(t: Try, a: Attempt, f: string, d: Dir): Outcome {
    var d1 := if a.wrote.Some? then d[f := a.wrote.value] else d;
    if a.completed && f in d1 && d1[f] > 0 then Outcome(true, d1)
    else if t.strategy == Requests && a.completed && f in d1 then Outcome(false, d1 - {f})
    else Outcome(false, d1)
  }

  /** A strategy wins only when it completed and left `f` non-empty, always
      wins when it serves the file, and changes nothing but `f`; a strategy
      other than `requests` that wrote nothing changes nothing at all. An
      empty file is removed at once only after `requests`; after the other
      strategies it stays until the end of the round. */
  lemma StepFacts(t: Try, a: Attempt, f: string, d: Dir)
    ensures var r := Step(t, a, f, d);
      && (r.won <==> a.completed && f in r.dir && r.dir[f] > 0)
      && (Serves(a) ==> r.won)
      && r.dir - {f} == d - {f}
      && (a.wrote.None? && t.strategy != Requests ==> r.dir == d)
      && (t.strategy == Requests && a.completed && a.wrote == Some(0) ==> !r.won && f !in r.dir)
      && (t.strategy != Requests && a.wrote == Some(0) ==> !r.won && r.dir == d[f := 0])
  {
  }

  /** Prepends events to the trace of a result. */
  function Then(events: seq<Event>, r: Fetched): Fetched {
    Fetched(r.ok, r.dir, events + r.trace)
  }

  lemma ThenThen(a: seq<Event>, b: seq<Event>, r: Fetched)
    ensures Then(a, Then(b, r)) == Then(a + b, r)
  {
    assert a + (b + r.trace) == (a + b) + r.trace;
  }

  /** The strategies `plan` of round `round`, run until one wins. */
  function RunPlan(url: string, round: nat, plan: seq<Strategy>, tr: Transport, f: string, d: Dir): Fetched
  {
    if plan == [] then Fetched(false, d, [])
    else
      var t := Try(Target(url, plan[0]), round, plan[0]);
      var o := Step(t, tr(t), f, d);
      if o.won then Fetched(true, o.dir, [Tried(t)])
      else Then([Tried(t)], RunPlan(url, round, plan[1..], tr, f, o.dir))
  }

  /** Rounds `round` to `retries`: a lost round removes the file and, unless
      it was the last, waits before the next one. */
  function RunRounds(url: string, plan: seq<Strategy>, round: nat, retries: nat, tr: Transport, f: string, d: Dir): Fetched
    decreases retries + 1 - round
  {
    if round == 0 || round > retries then Fetched(false, d, [])
    else
      var p := RunPlan(url, round, plan, tr, f, d);
      if p.ok then p
      else
        var wait := if round < retries then [Waited] else [];
        Then(p.trace + wait, RunRounds(url, plan, round + 1, retries, tr, f, p.dir - {f}))
  }

  /** `download_file(url, f, retries=retries)`. */
  function DownloadSpec(url: string, platform: string, retries: nat, tr: Transport, f: string, d: Dir): Fetched {
    RunRounds(url, Plan(url, platform), 1, retries, tr, f, d)
  }

  /** Every try of one full round, in order. */
  function RoundSchedule(url: string, round: nat, plan: seq<Strategy>): seq<Event> {
    if plan == [] then []
    else [Tried(Try(Target(url, plan[0]), round, plan[0]))] + RoundSchedule(url, round, plan[1..])
  }

  /** Every try of rounds `round` to `retries`, with a wait between rounds. */
  function Schedule(url: string, plan: seq<Strategy>, round: nat, retries: nat): seq<Event>
    decreases retries + 1 - round
  {
    if round == 0 || round > retries then []
    else
      RoundSchedule(url, round, plan)
        + (if round < retries then [Waited] else [])
        + Schedule(url, plan, round + 1, retries)
  }

  /** A lost round hands over to the next one after removing the file. */
  lemma RoundLost(url: string, plan: seq<Strategy>, round: nat, retries: nat, tr: Transport, f: string, d: Dir)
    requires 1 <= round <= retries
    requires !RunPlan(url, round, plan, tr, f, d).ok
    ensures var p := RunPlan(url, round, plan, tr, f, d);
      RunRounds(url, plan, round, retries, tr, f, d)
      == Then(p.trace + (if round < retries then [Waited] else []),
              RunRounds(url, plan, round + 1, retries, tr, f, p.dir - {f}))
  {
  }

  /** The loop's view of a lost round: the events so far, the round's tries
      and the pause, then the next rounds on the directory without `f`. */
  lemma LostRound(url: string, plan: seq<Strategy>, round: nat, retries: nat, tr: Transport, f: string, d: Dir,
                  trace: seq<Event>)
    requires 1 <= round <= retries
    requires !RunPlan(url, round, plan, tr, f, d).ok
    ensures var p := RunPlan(url, round, plan, tr, f, d);
      Then(trace, RunRounds(url, plan, round, retries, tr, f, d))
      == Then(trace + p.trace + (if round < retries then [Waited] else []),
              RunRounds(url, plan, round + 1, retries, tr, f, p.dir - {f}))
  {
    var p := RunPlan(url, round, plan, tr, f, d);
    var wait: seq<Event> := if round < retries then [Waited] else [];
    RoundLost(url, plan, round, retries, tr, f, d);
    ThenThen(trace, p.trace + wait, RunRounds(url, plan, round + 1, retries, tr, f, p.dir - {f}));
    assert trace + (p.trace + wait) == trace + p.trace + wait;
  }

  /** One strategy block of a round, as a step of `RunPlan`: when `trace`
      and `dir` are where the round stands before strategy `s` and then
      `next`, strategy `s` either wins or leaves the round standing before
      `next`. */
  lemma Advance(url: string, round: nat, plan: seq<Strategy>, tr: Transport, f: string, d: Dir,
                trace: seq<Event>, s: Strategy, next: seq<Strategy>, dir: Dir)
    requires RunPlan(url, round, plan, tr, f, d) == Then(trace, RunPlan(url, round, [s] + next, tr, f, dir))
    ensures var t := Try(Target(url, s), round, s);
      var o := Step(t, tr(t), f, dir);
      RunPlan(url, round, plan, tr, f, d)
      == if o.won then Fetched(true, o.dir, trace + [Tried(t)])
         else Then(trace + [Tried(t)], RunPlan(url, round, next, tr, f, o.dir))
  {
    var t := Try(Target(url, s), round, s);
    var o := Step(t, tr(t), f, dir);
    assert ([s] + next)[0] == s && ([s] + next)[1..] == next;
    if !o.won {
      ThenThen(trace, [Tried(t)], RunPlan(url, round, next, tr, f, o.dir));
    }
  }

  /** Running two lists of strategies one after the other is running the
      first and, unless it won, the second from where the first left off. */
  lemma {:induction false} RunPlanAppend(url: string, round: nat, a: seq<Strategy>, b: seq<Strategy>, tr: Transport, f: string, d: Dir)
    ensures var p := RunPlan(url, round, a, tr, f, d);
      RunPlan(url, round, a + b, tr, f, d)
      == if p.ok then p else Then(p.trace, RunPlan(url, round, b, tr, f, p.dir))
  {
    if a == [] {
      assert a + b == b;
      assert [] + RunPlan(url, round, b, tr, f, d).trace == RunPlan(url, round, b, tr, f, d).trace;
    } else {
      var t := Try(Target(url, a[0]), round, a[0]);
      var o := Step(t, tr(t), f, d);
      assert (a + b)[0] == a[0] && (a + b)[1..] == a[1..] + b;
      if !o.won {
        RunPlanAppend(url, round, a[1..], b, tr, f, o.dir);
        var p1 := RunPlan(url, round, a[1..], tr, f, o.dir);
        if !p1.ok {
          ThenThen([Tried(t)], p1.trace, RunPlan(url, round, b, tr, f, p1.dir));
        }
      }
    }
  }

  /** One round of `download_file`: the six strategy blocks in source order,
      the three that run everywhere and then the others. */
  method DownloadRound(url: string, round: nat, platform: string, tr: Transport, f: string, d: Dir)
    returns (r: Fetched)
    ensures r == RunPlan(url, round, Plan(url, platform), tr, f, d)
  {
    var p := PortableTries(url, round, tr, f, d);
    ghost var later := (if platform == "win32" then [PowerShell] else [])
      + [Urllib] + (if StartsWith(url, "https://") then [HttpDowngrade] else []);
    assert Plan(url, platform) == [Requests, Curl, Wget] + later;
    RunPlanAppend(url, round, [Requests, Curl, Wget], later, tr, f, d);
    if p.ok {
      return p;
    }
    var q := LaterTries(url, round, platform, tr, f, p.dir);
    r := Then(p.trace, q);
  }

  /** The `requests`, `curl` and `wget` blocks. */
  method PortableTries(url: string, round: nat, tr: Transport, f: string, d: Dir) returns (r: Fetched)
    ensures r == RunPlan(url, round, [Requests, Curl, Wget], tr, f, d)
  {
    var dir := d;
    var trace: seq<Event> := [];

    // requests
    var t := Try(url, round, Requests);
    var o := Step(t, tr(t), f, dir);
    Advance(url, round, [Requests, Curl, Wget], tr, f, d, trace, Requests, [Curl, Wget], dir);
    if o.won {
      return Fetched(true, o.dir, [Tried(t)]);
    }
    trace, dir := trace + [Tried(t)], o.dir;

    // curl
    t := Try(url, round, Curl);
    o := Step(t, tr(t), f, dir);
    Advance(url, round, [Requests, Curl, Wget], tr, f, d, trace, Curl, [Wget], dir);
    if o.won {
      return Fetched(true, o.dir, trace + [Tried(t)]);
    }
    trace, dir := trace + [Tried(t)], o.dir;

    // wget
    t := Try(url, round, Wget);
    o := Step(t, tr(t), f, dir);
    assert [Wget] == [Wget] + [];
    Advance(url, round, [Requests, Curl, Wget], tr, f, d, trace, Wget, [], dir);
    if o.won {
      return Fetched(true, o.dir, trace + [Tried(t)]);
    }
    trace, dir := trace + [Tried(t)], o.dir;
    assert trace + [] == trace;
    r := Fetched(false, dir, trace);
  }

  /** The PowerShell block (Windows only), then the `urllib` block and the
      HTTPS to HTTP downgrade. */
  method LaterTries(url: string, round: nat, platform: string, tr: Transport, f: string, d: Dir) returns (r: Fetched)
    ensures r == RunPlan(url, round, (if platform == "win32" then [PowerShell] else [])
      + [Urllib] + (if StartsWith(url, "https://") then [HttpDowngrade] else []), tr, f, d)
  {
    ghost var late := [Urllib] + (if StartsWith(url, "https://") then [HttpDowngrade] else []);
    ghost var windows := if platform == "win32" then [PowerShell] else [];
    assert windows + [Urllib] + (if StartsWith(url, "https://") then [HttpDowngrade] else []) == windows + late;
    RunPlanAppend(url, round, windows, late, tr, f, d);
    var dir := d;
    var trace: seq<Event> := [];

    // PowerShell, on Windows only
    if platform == "win32" {
      var t := Try(url, round, PowerShell);
      var o := Step(t, tr(t), f, dir);
      assert windows[1..] == [];
      if o.won {
        return Fetched(true, o.dir, [Tried(t)]);
      }
      trace, dir := [Tried(t)], o.dir;
    }
    var q := FinalTries(url, round, tr, f, dir);
    r := Then(trace, q);
  }

  /** The `urllib` block and the HTTPS to HTTP downgrade (for an `https://`
      address only). */
  method FinalTries(url: string, round: nat, tr: Transport, f: string, d: Dir) returns (r: Fetched)
    ensures r == RunPlan(url, round, [Urllib] + (if StartsWith(url, "https://") then [HttpDowngrade] else []), tr, f, d)
  {
    ghost var downgrade := if StartsWith(url, "https://") then [HttpDowngrade] else [];
    ghost var plan := [Urllib] + downgrade;
    var dir := d;
    var trace: seq<Event> := [];

    // urllib
    var t := Try(url, round, Urllib);
    var o := Step(t, tr(t), f, dir);
    Advance(url, round, plan, tr, f, d, trace, Urllib, downgrade, dir);
    if o.won {
      return Fetched(true, o.dir, trace + [Tried(t)]);
    }
    trace, dir := trace + [Tried(t)], o.dir;

    // the HTTPS to HTTP downgrade
    if StartsWith(url, "https://") {
      var httpUrl := ReplaceAll(url, "https://", "http://");
      t := Try(httpUrl, round, HttpDowngrade);
      o := Step(t, tr(t), f, dir);
      assert downgrade == [HttpDowngrade] + [];
      Advance(url, round, plan, tr, f, d, trace, HttpDowngrade, [], dir);
      if o.won {
        return Fetched(true, o.dir, trace + [Tried(t)]);
      }
      trace, dir := trace + [Tried(t)], o.dir;
    }
    assert trace + [] == trace;
    r := Fetched(false, dir, trace);
  }

  /** `download_file(url, f, retries=retries)`: up to `retries` rounds. */
  method DownloadFile(url: string, f: string, platform: string, retries: nat, tr: Transport, d: Dir)
    returns (r: Fetched)
    ensures r == DownloadSpec(url, platform, retries, tr, f, d)
  {
    ghost var plan := Plan(url, platform);
    var dir := d;
    var trace: seq<Event> := [];
    assert Then(trace, RunRounds(url, plan, 1, retries, tr, f, dir)) == DownloadSpec(url, platform, retries, tr, f, d);
    for attempt := 1 to retries + 1
      invariant Then(trace, RunRounds(url, plan, attempt, retries, tr, f, dir)) == DownloadSpec(url, platform, retries, tr, f, d)
    {
      var p := DownloadRound(url, attempt, platform, tr, f, dir);
      if p.ok {
        return Fetched(true, p.dir, trace + p.trace);
      }
      ghost var before, start := trace, dir;
      LostRound(url, plan, attempt, retries, tr, f, start, before);
      trace, dir := trace + p.trace, p.dir;
      if f in dir {
        dir := dir - {f};
      }
      assert dir == p.dir - {f};
      if attempt < retries {
        trace := trace + [Waited];
      }
      assert trace == before + p.trace + (if attempt < retries then [Waited] else []);
    }
    r := Fetched(false, dir, trace);
  }

  // ----- properties of a round -----

  /** The strategies of a round, by platform and address. */
  lemma PlanStrategies(url: string, platform: string)
    ensures var p := Plan(url, platform);
      && p[..3] == [Requests, Curl, Wget]
      && Urllib in p
      && (PowerShell in p <==> platform == "win32")
      && (HttpDowngrade in p <==> StartsWith(url, "https://"))
      && (HttpDowngrade in p ==> p[|p| - 1] == HttpDowngrade)
  {
  }

  /** The downgrade fetches an `http://` address. */
  lemma DowngradeIsPlainHttp(url: string)
    requires StartsWith(url, "https://")
    ensures StartsWith(Target(url, HttpDowngrade), "http://")
  {
    ReplaceAllPrefix(url, "https://", "http://");
  }

  /** A round stops at the first win and otherwise runs its whole plan; its
      events are a prefix of the full round and only `f` changes. A win
      comes right after a try that completed and leaves `f` non-empty. */
  lemma {:induction false} RunPlanFacts(url: string, round: nat, plan: seq<Strategy>, tr: Transport, f: string, d: Dir)
    ensures var r := RunPlan(url, round, plan, tr, f, d);
      && r.trace <= RoundSchedule(url, round, plan)
      && (!r.ok ==> r.trace == RoundSchedule(url, round, plan))
      && (r.ok ==> r.trace != [] && r.trace[|r.trace| - 1].Tried?
                   && tr(r.trace[|r.trace| - 1].t).completed && f in r.dir && r.dir[f] > 0)
      && r.dir - {f} == d - {f}
  {
    if plan != [] {
      var t := Try(Target(url, plan[0]), round, plan[0]);
      var o := Step(t, tr(t), f, d);
      StepFacts(t, tr(t), f, d);
      if !o.won {
        RunPlanFacts(url, round, plan[1..], tr, f, o.dir);
        var rest := RunPlan(url, round, plan[1..], tr, f, o.dir);
        var tail := RoundSchedule(url, round, plan[1..]);
        assert RoundSchedule(url, round, plan) == [Tried(t)] + tail;
        assert ([Tried(t)] + tail)[..1 + |rest.trace|] == [Tried(t)] + tail[..|rest.trace|];
        assert d - {f} == o.dir - {f};
      }
    }
  }

  /** A try that by itself guarantees success makes its round win, if the
      round gets that far and otherwise because an earlier try won. */
  lemma {:induction false} RunPlanServed(url: string, round: nat, plan: seq<Strategy>, tr: Transport, f: string, d: Dir, i: nat)
    requires i < |plan| && Serves(tr(Try(Target(url, plan[i]), round, plan[i])))
    ensures RunPlan(url, round, plan, tr, f, d).ok
  {
    var t := Try(Target(url, plan[0]), round, plan[0]);
    var o := Step(t, tr(t), f, d);
    StepFacts(t, tr(t), f, d);
    if i > 0 && !o.won {
      assert plan[1..][i - 1] == plan[i];
      RunPlanServed(url, round, plan[1..], tr, f, o.dir, i - 1);
    }
  }

  // ----- properties of the whole download -----

  /** The events of rounds `round` to `retries` follow the schedule, in
      full when no round wins. */
  lemma {:induction false} RoundsTrace(url: string, plan: seq<Strategy>, round: nat, retries: nat, tr: Transport, f: string, d: Dir)
    ensures var r := RunRounds(url, plan, round, retries, tr, f, d);
      && r.trace <= Schedule(url, plan, round, retries)
      && (!r.ok ==> r.trace == Schedule(url, plan, round, retries))
    decreases retries + 1 - round
  {
    if 1 <= round <= retries {
      var p := RunPlan(url, round, plan, tr, f, d);
      RunPlanFacts(url, round, plan, tr, f, d);
      var head := RoundSchedule(url, round, plan);
      var wait: seq<Event> := if round < retries then [Waited] else [];
      var tail := Schedule(url, plan, round + 1, retries);
      assert Schedule(url, plan, round, retries) == head + wait + tail;
      if p.ok {
        assert (head + wait + tail)[..|p.trace|] == head[..|p.trace|];
      } else {
        var d1 := p.dir - {f};
        RoundsTrace(url, plan, round + 1, retries, tr, f, d1);
        var rest := RunRounds(url, plan, round + 1, retries, tr, f, d1);
        assert (head + wait + tail)[..|head + wait| + |rest.trace|] == (head + wait) + tail[..|rest.trace|];
      }
    }
  }

  /** A win comes right after a completed try and leaves `f` non-empty; a
      loss after at least one round leaves no `f`; no rounds change
      nothing; and only `f` ever changes. */
  lemma {:induction false} RoundsResult(url: string, plan: seq<Strategy>, round: nat, retries: nat, tr: Transport, f: string, d: Dir)
    ensures var r := RunRounds(url, plan, round, retries, tr, f, d);
      && (r.ok ==> r.trace != [] && r.trace[|r.trace| - 1].Tried?
                   && tr(r.trace[|r.trace| - 1].t).completed && f in r.dir && r.dir[f] > 0)
      && (!r.ok && 1 <= round <= retries ==> f !in r.dir)
      && (round == 0 || round > retries ==> !r.ok && r.dir == d)
    decreases retries + 1 - round
  {
    if 1 <= round <= retries {
      var p := RunPlan(url, round, plan, tr, f, d);
      RunPlanFacts(url, round, plan, tr, f, d);
      if !p.ok {
        var d1 := p.dir - {f};
        RoundsResult(url, plan, round + 1, retries, tr, f, d1);
        var rest := RunRounds(url, plan, round + 1, retries, tr, f, d1);
        var wait: seq<Event> := if round < retries then [Waited] else [];
        assert RunRounds(url, plan, round, retries, tr, f, d) == Then(p.trace + wait, rest);
        if rest.ok {
          var all := p.trace + wait + rest.trace;
          assert all[|all| - 1] == rest.trace[|rest.trace| - 1];
        }
      }
    }
  }

  lemma {:induction false} RoundsFrame(url: string, plan: seq<Strategy>, round: nat, retries: nat, tr: Transport, f: string, d: Dir)
    ensures RunRounds(url, plan, round, retries, tr, f, d).dir - {f} == d - {f}
    decreases retries + 1 - round
  {
    if 1 <= round <= retries {
      var p := RunPlan(url, round, plan, tr, f, d);
      RunPlanFacts(url, round, plan, tr, f, d);
      if !p.ok {
        var d1 := p.dir - {f};
        RoundsFrame(url, plan, round + 1, retries, tr, f, d1);
        assert RunRounds(url, plan, round, retries, tr, f, d).dir == RunRounds(url, plan, round + 1, retries, tr, f, d1).dir;
        assert d1 - {f} == d - {f};
      }
    }
  }

  /** The rounds stop at the first win; a download that never wins runs every
      round in full, pausing only between rounds, and leaves no file `f`
      behind. Nothing but `f` changes. */
  lemma RunRoundsFacts(url: string, plan: seq<Strategy>, round: nat, retries: nat, tr: Transport, f: string, d: Dir)
    ensures var r := RunRounds(url, plan, round, retries, tr, f, d);
      && r.trace <= Schedule(url, plan, round, retries)
      && (!r.ok ==> r.trace == Schedule(url, plan, round, retries))
      && (r.ok ==> r.trace != [] && r.trace[|r.trace| - 1].Tried?
                   && tr(r.trace[|r.trace| - 1].t).completed && f in r.dir && r.dir[f] > 0)
      && (!r.ok && 1 <= round <= retries ==> f !in r.dir)
      && (round == 0 || round > retries ==> !r.ok && r.dir == d)
      && r.dir - {f} == d - {f}
  {
    RoundsTrace(url, plan, round, retries, tr, f, d);
    RoundsResult(url, plan, round, retries, tr, f, d);
    RoundsFrame(url, plan, round, retries, tr, f, d);
  }

  /** A try that by itself guarantees success, in any round that is run,
      makes the download succeed. */
  lemma {:induction false} RunRoundsServed(url: string, plan: seq<Strategy>, round: nat, retries: nat, tr: Transport, f: string, d: Dir, k: nat, i: nat)
    requires 1 <= round <= k <= retries
    requires i < |plan|
    requires Serves(tr(Try(Target(url, plan[i]), k, plan[i])))
    ensures RunRounds(url, plan, round, retries, tr, f, d).ok
    decreases retries + 1 - round
  {
    var p := RunPlan(url, round, plan, tr, f, d);
    if k == round {
      RunPlanServed(url, round, plan, tr, f, d, i);
    } else if !p.ok {
      RunRoundsServed(url, plan, round + 1, retries, tr, f, p.dir - {f}, k, i);
    }
  }

  /** The number of pauses in a trace. */
  function Waits(events: seq<Event>): nat {
    if events == [] then 0
    else (if events[0] == Waited then 1 else 0) + Waits(events[1..])
  }

  lemma {:induction false} WaitsAppend(a: seq<Event>, b: seq<Event>)
    ensures Waits(a + b) == Waits(a) + Waits(b)
  {
    if a != [] {
      assert (a + b)[1..] == a[1..] + b;
      WaitsAppend(a[1..], b);
    } else {
      assert a + b == b;
    }
  }

  lemma {:induction false} RoundScheduleShape(url: string, round: nat, plan: seq<Strategy>)
    ensures var s := RoundSchedule(url, round, plan);
      && |s| == |plan| && Waits(s) == 0
      && forall j :: 0 <= j < |s| ==> s[j] == Tried(Try(Target(url, plan[j]), round, plan[j]))
  {
    if plan != [] {
      RoundScheduleShape(url, round, plan[1..]);
    }
  }

  /** Every try in `s` is in a round from `lo` to `hi`, uses a strategy of
      `plan` and fetches that strategy's address for `url`. */
  predicate TriesIn(s: seq<Event>, url: string, plan: seq<Strategy>, lo: nat, hi: nat) {
    forall j :: 0 <= j < |s| && s[j].Tried? ==>
      lo <= s[j].t.round <= hi && s[j].t.strategy in plan && s[j].t.url == Target(url, s[j].t.strategy)
  }

  lemma TriesInJoin(a: seq<Event>, b: seq<Event>, url: string, plan: seq<Strategy>, lo: nat, hi: nat)
    requires TriesIn(a, url, plan, lo, hi) && TriesIn(b, url, plan, lo, hi)
    ensures TriesIn(a + b, url, plan, lo, hi)
  {
    forall j | 0 <= j < |a + b| && (a + b)[j].Tried?
      ensures lo <= (a + b)[j].t.round <= hi && (a + b)[j].t.strategy in plan
              && (a + b)[j].t.url == Target(url, (a + b)[j].t.strategy)
    {
      if j < |a| {
        assert (a + b)[j] == a[j];
      } else {
        assert (a + b)[j] == b[j - |a|];
      }
    }
  }

  lemma {:induction false} ScheduleLength(url: string, plan: seq<Strategy>, round: nat, retries: nat)
    requires 1 <= round <= retries
    ensures |Schedule(url, plan, round, retries)| == (retries + 1 - round) * |plan| + (retries - round)
    decreases retries - round
  {
    RoundScheduleShape(url, round, plan);
    if round < retries {
      ScheduleLength(url, plan, round + 1, retries);
      assert (retries + 1 - round) * |plan| == |plan| + (retries - round) * |plan|;
    }
  }

  lemma {:induction false} ScheduleWaits(url: string, plan: seq<Strategy>, round: nat, retries: nat)
    requires 1 <= round <= retries
    ensures Waits(Schedule(url, plan, round, retries)) == retries - round
    decreases retries - round
  {
    var head := RoundSchedule(url, round, plan);
    RoundScheduleShape(url, round, plan);
    var s := Schedule(url, plan, round, retries);
    if round == retries {
      assert s == head + [] + [];
      assert s == head;
    } else {
      var tail := Schedule(url, plan, round + 1, retries);
      ScheduleWaits(url, plan, round + 1, retries);
      var rest := [Waited] + tail;
      assert s == head + rest;
      WaitsAppend([Waited], tail);
      WaitsAppend(head, rest);
      assert Waits([Waited]) == 1;
    }
  }

  lemma {:induction false} ScheduleLast(url: string, plan: seq<Strategy>, round: nat, retries: nat)
    requires 1 <= round <= retries && plan != []
    ensures var s := Schedule(url, plan, round, retries);
      s != [] && s[|s| - 1].Tried?
    decreases retries - round
  {
    var head := RoundSchedule(url, round, plan);
    RoundScheduleShape(url, round, plan);
    var wait: seq<Event> := if round < retries then [Waited] else [];
    var tail := Schedule(url, plan, round + 1, retries);
    var s := Schedule(url, plan, round, retries);
    assert s == head + wait + tail;
    if round == retries {
      assert |wait| == 0 && |tail| == 0;
      assert s[|s| - 1] == head[|plan| - 1];
    } else {
      ScheduleLast(url, plan, round + 1, retries);
      assert s[|s| - 1] == tail[|tail| - 1];
    }
  }

  lemma {:induction false} ScheduleTries(url: string, plan: seq<Strategy>, round: nat, retries: nat)
    requires 1 <= round <= retries
    ensures TriesIn(Schedule(url, plan, round, retries), url, plan, round, retries)
    decreases retries - round
  {
    var head := RoundSchedule(url, round, plan);
    RoundScheduleShape(url, round, plan);
    assert TriesIn(head, url, plan, round, retries) by {
      forall j | 0 <= j < |head| && head[j].Tried?
        ensures head[j].t.strategy in plan
      {
        assert head[j].t.strategy == plan[j];
      }
    }
    var s := Schedule(url, plan, round, retries);
    if round == retries {
      assert Schedule(url, plan, round + 1, retries) == [];
      assert s == head + [] + [];
      assert s == head;
    } else {
      var tail := Schedule(url, plan, round + 1, retries);
      ScheduleTries(url, plan, round + 1, retries);
      var rest := [Waited] + tail;
      assert s == head + rest;
      assert TriesIn([Waited], url, plan, round, retries);
      assert TriesIn(tail, url, plan, round, retries);
      TriesInJoin([Waited], tail, url, plan, round, retries);
      TriesInJoin(head, rest, url, plan, round, retries);
    }
  }

  /** The full schedule of rounds `round` to `retries`: every try belongs to
      one of those rounds and fetches its strategy's address, there is one
      pause fewer than rounds, and the schedule ends with a try (there is
      always at least the three portable strategies). */
  lemma ScheduleShape(url: string, plan: seq<Strategy>, round: nat, retries: nat)
    requires 1 <= round <= retries && plan != []
    ensures var s := Schedule(url, plan, round, retries);
      && |s| == (retries + 1 - round) * |plan| + (retries - round)
      && Waits(s) == retries - round
      && s != [] && s[|s| - 1].Tried?
      && TriesIn(s, url, plan, round, retries)
  {
    ScheduleLength(url, plan, round, retries);
    ScheduleWaits(url, plan, round, retries);
    ScheduleLast(url, plan, round, retries);
    ScheduleTries(url, plan, round, retries);
  }

  /** `download_file` as a whole. It returns `True` only right after a try
      that completed, and then `f` is non-empty. `False` comes only after
      every round was run in full, and then, with at least one round, no file
      `f` is left. Nothing but `f` changes. */
  lemma DownloadOutcome(url: string, platform: string, retries: nat, tr: Transport, f: string, d: Dir)
    ensures var r := DownloadSpec(url, platform, retries, tr, f, d);
      && r.trace <= Schedule(url, Plan(url, platform), 1, retries)
      && (!r.ok ==> r.trace == Schedule(url, Plan(url, platform), 1, retries))
      && (r.ok ==> r.trace != [] && r.trace[|r.trace| - 1].Tried?
                   && tr(r.trace[|r.trace| - 1].t).completed && f in r.dir && r.dir[f] > 0)
      && (!r.ok && retries >= 1 ==> f !in r.dir)
      && (retries == 0 ==> !r.ok && r.dir == d && r.trace == [])
      && r.dir - {f} == d - {f}
  {
    RunRoundsFacts(url, Plan(url, platform), 1, retries, tr, f, d);
  }

  /** A try that by itself guarantees success, in any round, makes
      `download_file` return `True`. */
  lemma DownloadServed(url: string, platform: string, retries: nat, tr: Transport, f: string, d: Dir, k: nat, i: nat)
    requires 1 <= k <= retries && i < |Plan(url, platform)|
    requires Serves(tr(Try(Target(url, Plan(url, platform)[i]), k, Plan(url, platform)[i])))
    ensures DownloadSpec(url, platform, retries, tr, f, d).ok
  {
    RunRoundsServed(url, Plan(url, platform), 1, retries, tr, f, d, k, i);
  }

  // ----- trying candidate addresses in turn -----

  /** `for url in urls: if download_file(url, f): ...success; break`: the
      candidates in order, each with the full retry loop, until one succeeds. */
  function FetchFirst(urls: seq<string>, platform: string, tr: Transport, f: string, d: Dir): Fetched {
    if urls == [] then Fetched(false, d, [])
    else
      var r := DownloadSpec(urls[0], platform, DOWNLOAD_RETRIES, tr, f, d);
      if r.ok then r
      else Then(r.trace, FetchFirst(urls[1..], platform, tr, f, r.dir))
  }

  /** Every try of every candidate, when none succeeds. */
  function AllSchedules(urls: seq<string>, platform: string): seq<Event> {
    if urls == [] then []
    else Schedule(urls[0], Plan(urls[0], platform), 1, DOWNLOAD_RETRIES) + AllSchedules(urls[1..], platform)
  }

  /** The candidate loop of `ensure_speedtest_binary` and of
      `download_cloudflare_ips`. */
  method DownloadFromAny(urls: seq<string>, f: string, platform: string, tr: Transport, d: Dir)
    returns (r: Fetched)
    ensures r == FetchFirst(urls, platform, tr, f, d)
  {
    var dir := d;
    var trace: seq<Event> := [];
    for k := 0 to |urls|
      invariant Then(trace, FetchFirst(urls[k..], platform, tr, f, dir)) == FetchFirst(urls, platform, tr, f, d)
    {
      var one := DownloadFile(urls[k], f, platform, DOWNLOAD_RETRIES, tr, dir);
      assert urls[k..][1..] == urls[k + 1..];
      if one.ok {
        return Fetched(true, one.dir, trace + one.trace);
      }
      ThenThen(trace, one.trace, FetchFirst(urls[k + 1..], platform, tr, f, one.dir));
      trace, dir := trace + one.trace, one.dir;
    }
    r := Fetched(false, dir, trace);
  }

  /** Success leaves `f` non-empty; failure means every candidate ran its
      full schedule and, with at least one candidate, no file `f` is left.
      Only `f` changes. */
  lemma {:induction false} FetchFirstFacts(urls: seq<string>, platform: string, tr: Transport, f: string, d: Dir)
    ensures var r := FetchFirst(urls, platform, tr, f, d);
      && (r.ok ==> f in r.dir && r.dir[f] > 0)
      && (!r.ok ==> r.trace == AllSchedules(urls, platform))
      && (!r.ok && urls != [] ==> f !in r.dir)
      && (urls == [] ==> !r.ok && r.dir == d)
      && r.dir - {f} == d - {f}
  {
    if urls != [] {
      var one := DownloadSpec(urls[0], platform, DOWNLOAD_RETRIES, tr, f, d);
      DownloadOutcome(urls[0], platform, DOWNLOAD_RETRIES, tr, f, d);
      if !one.ok {
        FetchFirstFacts(urls[1..], platform, tr, f, one.dir);
        var rest := FetchFirst(urls[1..], platform, tr, f, one.dir);
        if urls[1..] == [] {
          assert rest.dir == one.dir;
        }
        assert one.dir - {f} == d - {f};
      }
    }
  }

  /** A candidate with a try that by itself guarantees success makes the
      candidate loop succeed. */
  lemma {:induction false} FetchFirstServed(urls: seq<string>, platform: string, tr: Transport, f: string, d: Dir, j: nat, k: nat, i: nat)
    requires j < |urls| && 1 <= k <= DOWNLOAD_RETRIES && i < |Plan(urls[j], platform)|
    requires Serves(tr(Try(Target(urls[j], Plan(urls[j], platform)[i]), k, Plan(urls[j], platform)[i])))
    ensures FetchFirst(urls, platform, tr, f, d).ok
  {
    var one := DownloadSpec(urls[0], platform, DOWNLOAD_RETRIES, tr, f, d);
    if j == 0 {
      DownloadServed(urls[0], platform, DOWNLOAD_RETRIES, tr, f, d, k, i);
    } else if !one.ok {
      assert urls[1..][j - 1] == urls[j];
      FetchFirstServed(urls[1..], platform, tr, f, one.dir, j - 1, k, i);
    }
  }
}
