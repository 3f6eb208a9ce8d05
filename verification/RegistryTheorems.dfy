// What holds of the coalescing registry in every reachable state and over every run.

module RegistryTheorems {

  import opened Wrappers
  import opened ModelCatalog
  import opened CoalescingRegistry

  // Runs keep the invariant

  lemma {:induction false} RunKeepsInv(s: State, run: seq<Action>)
    requires Inv(s) && Legal(s, run)
    ensures Inv(Exec(s, run))
    decreases |run|
  {
    if run != [] {
      StepKeepsInv(s, run[0]);
      RunKeepsInv(Apply(s, run[0]), run[1..]);
    }
  }

  lemma ReachableInv(s: State)
    requires Reachable(s)
    ensures Inv(s)
  {
    var ttl :| Reaches(Init(ttl), s);
    var run :| Legal(Init(ttl), run) && Exec(Init(ttl), run) == s;
    RunKeepsInv(Init(ttl), run);
  }

  // Single flight

  lemma SingleFlight(s: State, t: nat, u: nat)
    requires Reachable(s) && t < |s.tasks| && u < |s.tasks|
    requires s.tasks[t].Leading() && s.tasks[u].Leading() && s.tasks[t].id == s.tasks[u].id
    ensures t == u
    ensures s.tasks[t].id in s.pending && s.pending[s.tasks[t].id] == s.tasks[t].ch
  {
    ReachableInv(s);
    assert TaskOk(s, t) && TaskOk(s, u);
  }

  lemma AtMostOneMessage(s: State, c: nat)
    requires Reachable(s) && c < |s.channels|
    ensures |s.channels[c].messages| <= 1
  {
    ReachableInv(s);
    assert ChannelOk(s, c);
  }

  // A waiter that subscribed before the leader sent (at position 0) ends with what the leader sent, and with a
  // broadcast failure when the leader was cancelled; one that subscribed after the send always fails.
  lemma WaiterGetsLeaderResult(s: State, w: nat, ch: nat, pos: nat)
    requires Reachable(s) && w < |s.tasks|
    requires s.tasks[w].Returned? && s.tasks[w].via == Waited(ch, pos)
    ensures ch < |s.channels| && s.channels[ch].leader < |s.tasks|
    ensures s.tasks[s.channels[ch].leader].LedChannel(ch)
    ensures s.tasks[s.channels[ch].leader].id == s.tasks[w].id
    ensures var leader := s.tasks[s.channels[ch].leader];
            s.tasks[w].result == if pos == 0 && leader.Sent() != [] then leader.Sent()[0] else Failed(BroadcastFailed)
    ensures var leader := s.tasks[s.channels[ch].leader];
            pos == 0 && leader.Returned? ==> s.tasks[w].result == leader.result
  {
    ReachableInv(s);
    assert TaskOk(s, w) && ChannelOk(s, ch);
  }

  // Only validated answers of the fetcher are ever cached or returned

  lemma CachedEntriesAreSound(s: State, id: string)
    requires Reachable(s) && id in s.cache
    ensures s.cache[id].info.Validate().None? && (id, s.cache[id].info) in s.answers
  {
    ReachableInv(s);
    assert EntryOk(s, id);
  }

  lemma ResultsAreSound(s: State, t: nat)
    requires Reachable(s) && t < |s.tasks| && s.tasks[t].Returned? && s.tasks[t].result.Found?
    ensures s.tasks[t].result.info.Validate().None? && (s.tasks[t].id, s.tasks[t].result.info) in s.answers
  {
    ReachableInv(s);
    assert TaskOk(s, t);
  }

  // A cache hit is served less than the time to live after its key was last written.
  lemma HitsAreFresh(s: State, t: nat)
    requires Reachable(s) && Enabled(s, ReadCache(t))
    ensures var task := Apply(s, ReadCache(t)).tasks[t];
            task.Returned? ==>
              task.result.Found? && task.result.info.Validate().None? &&
              task.id in s.storedAt && s.storedAt[task.id] <= s.now < s.storedAt[task.id] + s.ttl
  {
    ReachableInv(s);
    assert s.tasks[t].id in s.cache ==> EntryOk(s, s.tasks[t].id);
  }

  // Missed guards: when a fetch guard fails to take the pending lock

  ghost predicate InFlight(s: State, id: string) {
    exists t :: 0 <= t < |s.tasks| && s.tasks[t].Leading() && s.tasks[t].id == id
  }

  // A pending entry outlives its leader exactly when that leader's guard missed the lock.
  lemma OrphanIffGuardMissed(s: State, id: string)
    requires Reachable(s)
    ensures id in s.missed <==> id in s.pending && !InFlight(s, id)
  {
    ReachableInv(s);
    if id in s.pending {
      assert PendingOk(s, id) && ChannelOk(s, s.pending[id]);
      if InFlight(s, id) {
        var t :| 0 <= t < |s.tasks| && s.tasks[t].Leading() && s.tasks[t].id == id;
        assert TaskOk(s, t);
      }
    }
  }

  // s' still holds the orphaned entry of id: same channel, nothing more sent on it, not closed.
  ghost predicate OrphanKept(s: State, s': State, id: string) {
    id in s.pending && s.pending[id] < |s.channels| &&
    id in s'.missed && id in s'.pending && s'.pending[id] == s.pending[id] && s.pending[id] < |s'.channels| &&
    s'.channels[s.pending[id]].messages == s.channels[s.pending[id]].messages && Open(s', s.pending[id])
  }

  lemma LeaderStepKeepsOrphan(s: State, a: Action, id: string)
    requires Inv(s) && Enabled(s, a) && id in s.missed && (a.Send? || a.DropGuard? || a.CloseSender?)
    ensures OrphanKept(s, Apply(s, a), id)
  {
    assert PendingOk(s, id) && ChannelOk(s, s.pending[id]);
    assert TaskOk(s, a.t) && ChannelOk(s, s.tasks[a.t].ch);
  }

  lemma StepKeepsOrphan(s: State, a: Action, id: string)
    requires Inv(s) && Enabled(s, a) && id in s.missed
    ensures OrphanKept(s, Apply(s, a), id)
  {
    if a.Send? || a.DropGuard? || a.CloseSender? {
      LeaderStepKeepsOrphan(s, a, id);
    } else {
      assert PendingOk(s, id);
    }
  }

  // An orphaned entry is there for good.
  lemma {:induction false} OrphanIsForever(s: State, run: seq<Action>, id: string)
    requires Inv(s) && Legal(s, run) && id in s.missed
    ensures OrphanKept(s, Exec(s, run), id)
    decreases |run|
  {
    if run != [] {
      StepKeepsInv(s, run[0]);
      StepKeepsOrphan(s, run[0], id);
      OrphanIsForever(Apply(s, run[0]), run[1..], id);
    } else {
      assert PendingOk(s, id);
    }
  }

  // A task waiting on an orphaned channel, with nothing left to read there.
  predicate Starved(s: State, w: nat) {
    w < |s.tasks| && s.tasks[w].Waiting? &&
    s.tasks[w].id in s.missed && s.tasks[w].id in s.pending && s.pending[s.tasks[w].id] == s.tasks[w].ch &&
    s.tasks[w].ch < |s.channels| && s.tasks[w].pos == |s.channels[s.tasks[w].ch].messages|
  }

  lemma StepKeepsStarved(s: State, a: Action, w: nat)
    requires Inv(s) && Enabled(s, a) && Starved(s, w) && a != Cancel(w)
    ensures Starved(Apply(s, a), w) && Apply(s, a).tasks[w] == s.tasks[w]
  {
    StepKeepsOrphan(s, a, s.tasks[w].id);
  }

  // Whatever happens next, a starved waiter is never answered: it waits, or is cancelled.
  lemma {:induction false} StarvedWaitersNeverReturn(s: State, run: seq<Action>, w: nat)
    requires Inv(s) && Legal(s, run) && Starved(s, w)
    ensures var s' := Exec(s, run);
            w < |s'.tasks| && (s'.tasks[w] == s.tasks[w] || s'.tasks[w].Cancelled?) && !Enabled(s', Receive(w))
    decreases |run|
  {
    if run == [] {
      assert PendingOk(s, s.tasks[w].id);
    } else if run[0] == Cancel(w) {
      CancelledStays(Apply(s, run[0]), run[1..], w);
    } else {
      StepKeepsInv(s, run[0]);
      StepKeepsStarved(s, run[0], w);
      StarvedWaitersNeverReturn(Apply(s, run[0]), run[1..], w);
    }
  }

  lemma {:induction false} CancelledStays(s: State, run: seq<Action>, w: nat)
    requires Legal(s, run) && w < |s.tasks| && s.tasks[w].Cancelled?
    ensures w < |Exec(s, run).tasks| && Exec(s, run).tasks[w] == s.tasks[w]
    decreases |run|
  {
    if run != [] { CancelledStays(Apply(s, run[0]), run[1..], w); }
  }

  // Every later caller that misses the cache is starved as well.
  lemma OrphanStarvesLaterCallers(s: State, t: nat)
    requires Reachable(s) && Enabled(s, JoinOrLead(t)) && s.tasks[t].id in s.missed
    ensures Starved(Apply(s, JoinOrLead(t)), t)
  {
    ReachableInv(s);
    assert PendingOk(s, s.tasks[t].id);
  }

  // Progress

  function StepsLeft(task: Task): nat {
    match task
    case Fetching(_, _) => 5
    case Storing(_, _, _) => 4
    case Sending(_, _, _) => 3
    case Guarding(_, _, _) => 2
    case Closing(_, _, _) => 1
    case _ => 0
  }

  // The steps a task takes itself, being dropped among them.
  predicate StepOf(a: Action, t: nat) {
    match a
    case ReadCache(u) => u == t
    case JoinOrLead(u) => u == t
    case FetchDone(u, _) => u == t
    case Store(u) => u == t
    case Send(u) => u == t
    case DropGuard(u, _) => u == t
    case CloseSender(u) => u == t
    case Receive(u) => u == t
    case Cancel(u) => u == t
    case ListDone(u, _) => u == t
    case WriteListing(u) => u == t
    case _ => false
  }

  function LeaderMove(s: State, t: nat): Action
    requires t < |s.tasks| && s.tasks[t].HoldsSender()
  {
    match s.tasks[t]
    case Fetching(_, _) => FetchDone(t, NoModel)
    case Storing(_, _, _) => if s.writer.Some? then BackgroundFinish(None) else Store(t)
    case Sending(_, _, _) => Send(t)
    case Guarding(_, _, _) => DropGuard(t, true)
    case Closing(_, _, _) => CloseSender(t)
  }

  function StepsLeftFor(s: State, w: nat): nat {
    if w < |s.tasks| && s.tasks[w].Waiting? && s.tasks[w].ch < |s.channels|
       && s.channels[s.tasks[w].ch].leader < |s.tasks|
    then StepsLeft(s.tasks[s.channels[s.tasks[w].ch].leader]) + if s.writer.Some? then 1 else 0
    else 0
  }

  // As long as a waiter cannot be answered and is not starved, its leader has a step to take; or, if it is about to
  // store while the background task holds the cache lock, the background task has one, which releases it.
  lemma LeaderMoves(s: State, w: nat) returns (a: Action)
    requires Inv(s) && w < |s.tasks| && s.tasks[w].Waiting? && !Starved(s, w) && !Enabled(s, Receive(w))
    ensures Enabled(s, a) && StepsLeftFor(Apply(s, a), w) < StepsLeftFor(s, w)
    ensures Apply(s, a).tasks[w] == s.tasks[w] && !Starved(Apply(s, a), w)
    ensures a == BackgroundFinish(None) || StepOf(a, s.channels[s.tasks[w].ch].leader)
  {
    var ch := s.tasks[w].ch;
    assert TaskOk(s, w) && ChannelOk(s, ch);
    assert s.tasks[w].id in s.pending && s.pending[s.tasks[w].id] == ch ==> PendingOk(s, s.tasks[w].id);
    assert TaskOk(s, s.channels[ch].leader);
    a := LeaderMove(s, s.channels[ch].leader);
  }

  // The run ends with w still waiting, and able to receive.
  ghost predicate AnswerReadyAfter(s: State, run: seq<Action>, w: nat) {
    w < |s.tasks| && Legal(s, run) &&
    var s' := Exec(s, run);
    w < |s'.tasks| && s'.tasks[w] == s.tasks[w] && Enabled(s', Receive(w))
  }

  lemma AnswerReadyOneEarlier(s: State, a: Action, rest: seq<Action>, w: nat)
    requires Enabled(s, a) && w < |s.tasks| && w < |Apply(s, a).tasks| && Apply(s, a).tasks[w] == s.tasks[w]
    requires AnswerReadyAfter(Apply(s, a), rest, w)
    ensures AnswerReadyAfter(s, [a] + rest, w)
  {
    assert ([a] + rest)[1..] == rest;
  }

  // A waiter that is not starved can be answered within six steps of its leader.
  lemma {:induction false} WaiterCanFinish(s: State, w: nat) returns (run: seq<Action>)
    requires Inv(s) && w < |s.tasks| && s.tasks[w].Waiting? && !Starved(s, w)
    ensures |run| <= StepsLeftFor(s, w) <= 6 && AnswerReadyAfter(s, run, w)
    decreases StepsLeftFor(s, w)
  {
    if Enabled(s, Receive(w)) {
      run := [];
    } else {
      var a := LeaderMoves(s, w);
      StepKeepsInv(s, a);
      var rest := WaiterCanFinish(Apply(s, a), w);
      AnswerReadyOneEarlier(s, a, rest, w);
      run := [a] + rest;
    }
  }

  // Progress over every run

  function StepsTaken(run: seq<Action>, t: nat): nat {
    if run == [] then 0 else (if StepOf(run[0], t) then 1 else 0) + StepsTaken(run[1..], t)
  }

  // Leading, or done.
  predicate LedOrDone(task: Task) {
    task.HoldsSender() || task.Returned? || task.Cancelled?
  }

  lemma OthersLeaveTask(s: State, a: Action, t: nat)
    requires Enabled(s, a) && t < |s.tasks| && !StepOf(a, t)
    ensures t < |Apply(s, a).tasks| && Apply(s, a).tasks[t] == s.tasks[t]
  {
  }

  lemma OwnStepCounts(s: State, a: Action, t: nat)
    requires Enabled(s, a) && t < |s.tasks| && LedOrDone(s.tasks[t]) && StepOf(a, t)
    ensures t < |Apply(s, a).tasks| && LedOrDone(Apply(s, a).tasks[t])
    ensures StepsLeft(Apply(s, a).tasks[t]) < StepsLeft(s.tasks[t])
  {
  }

  // Whatever else happens, a leader takes at most the steps it has left, of which there are at most five; having
  // taken them it is done.
  lemma {:induction false} LeaderRunsOut(s: State, run: seq<Action>, t: nat)
    requires Legal(s, run) && t < |s.tasks| && LedOrDone(s.tasks[t])
    ensures t < |Exec(s, run).tasks| && LedOrDone(Exec(s, run).tasks[t])
    ensures StepsLeft(Exec(s, run).tasks[t]) + StepsTaken(run, t) <= StepsLeft(s.tasks[t]) <= 5
    ensures StepsTaken(run, t) == StepsLeft(s.tasks[t]) ==> !Exec(s, run).tasks[t].HoldsSender()
    decreases |run|
  {
    if run != [] {
      if StepOf(run[0], t) {
        OwnStepCounts(s, run[0], t);
      } else {
        OthersLeaveTask(s, run[0], t);
      }
      LeaderRunsOut(Apply(s, run[0]), run[1..], t);
    }
  }

  lemma {:induction false} ChannelsKeepLeaders(s: State, run: seq<Action>, c: nat)
    requires Legal(s, run) && c < |s.channels|
    ensures c < |Exec(s, run).channels| && Exec(s, run).channels[c].leader == s.channels[c].leader
    decreases |run|
  {
    if run != [] { ChannelsKeepLeaders(Apply(s, run[0]), run[1..], c); }
  }

  // When its leader is done, a waiter can receive unless it is starved; and one that subscribed before the send is
  // starved only if the leader was dropped before sending and its guard missed the lock.
  lemma DoneLeaderAnswers(s: State, w: nat)
    requires Inv(s) && w < |s.tasks| && s.tasks[w].Waiting? && s.tasks[w].ch < |s.channels|
    requires s.channels[s.tasks[w].ch].leader < |s.tasks| && !s.tasks[s.channels[s.tasks[w].ch].leader].HoldsSender()
    ensures Enabled(s, Receive(w)) <==> !Starved(s, w)
    ensures s.tasks[w].pos == 0 ==>
              (Starved(s, w) <==>
               s.tasks[s.channels[s.tasks[w].ch].leader].Cancelled? && s.tasks[w].id in s.missed &&
               s.pending[s.tasks[w].id] == s.tasks[w].ch)
  {
    var ch := s.tasks[w].ch;
    assert TaskOk(s, w) && ChannelOk(s, ch) && TaskOk(s, s.channels[ch].leader);
    assert s.tasks[w].id in s.pending ==> PendingOk(s, s.tasks[w].id);
  }

  // Over every run that ends with a waiter still waiting and its leader done, in any interleaving: the waiter can
  // receive exactly if it is not starved. One that subscribed before the send is not starved, unless its leader was
  // dropped before sending and its guard missed the lock.
  lemma WaiterIsAnsweredIff(s: State, run: seq<Action>, w: nat)
    requires Inv(s) && Legal(s, run) && w < |s.tasks| && s.tasks[w].Waiting?
    requires w < |Exec(s, run).tasks| && Exec(s, run).tasks[w] == s.tasks[w] && s.tasks[w].ch < |s.channels|
    requires var leader := s.channels[s.tasks[w].ch].leader;
             leader < |Exec(s, run).tasks| && !Exec(s, run).tasks[leader].HoldsSender()
    ensures var s', leader := Exec(s, run), s.channels[s.tasks[w].ch].leader;
            (Enabled(s', Receive(w)) <==> !Starved(s', w)) &&
            (s.tasks[w].pos == 0 && Starved(s', w) ==> s'.tasks[leader].Cancelled? && s.tasks[w].id in s'.missed)
  {
    ChannelsKeepLeaders(s, run, s.tasks[w].ch);
    RunKeepsInv(s, run);
    DoneLeaderAnswers(Exec(s, run), w);
  }

  ghost predicate CanBeAnswered(s: State, w: nat) {
    exists run :: Legal(s, run) && Enabled(Exec(s, run), Receive(w))
  }

  // A waiting call can still be answered if and only if it is not starved by a missed guard.
  lemma AnswerableIffNotStarved(s: State, w: nat)
    requires Reachable(s) && w < |s.tasks| && s.tasks[w].Waiting?
    ensures CanBeAnswered(s, w) <==> !Starved(s, w)
  {
    ReachableInv(s);
    if Starved(s, w) {
      forall run | Legal(s, run) ensures !Enabled(Exec(s, run), Receive(w)) {
        StarvedWaitersNeverReturn(s, run, w);
      }
    } else {
      var run := WaiterCanFinish(s, w);
    }
  }

  // Such a state exists: two gets of one model, where the first one's guard meets the second at the pending lock.

  lemma {:induction false} ExecOneMore(s: State, run: seq<Action>, a: Action)
    requires Legal(s, run) && Enabled(Exec(s, run), a)
    ensures Legal(s, run + [a]) && Exec(s, run + [a]) == Apply(Exec(s, run), a)
    decreases |run|
  {
    if run != [] {
      ExecOneMore(Apply(s, run[0]), run[1..], a);
      assert (run + [a])[1..] == run[1..] + [a];
    }
  }

  lemma ReachesOneMore(s: State, s': State, a: Action)
    requires Reaches(s, s') && Enabled(s', a)
    ensures Reaches(s, Apply(s', a))
  {
    var run :| Legal(s, run) && Exec(s, run) == s';
    ExecOneMore(s, run, a);
  }

  lemma LeaderIsReachable(ttl: int) returns (s: State)
    ensures Reaches(Init(ttl), s)
    ensures s == Init(ttl).(pending := map["m" := 0], channels := [Channel("m", 0, [], true)],
                            tasks := [Fetching("m", 0)])
  {
    var s0 := Init(ttl);
    assert Legal(s0, []) && Exec(s0, []) == s0;
    var s1 := s0.(tasks := [Lookup("m")]);
    ReachesOneMore(s0, s0, Get("m"));
    var s2 := s0.(tasks := [Joining("m")]);
    ReachesOneMore(s0, s1, ReadCache(0));
    s := s0.(tasks := [Fetching("m", 0)], pending := map["m" := 0], channels := [Channel("m", 0, [], true)]);
    ReachesOneMore(s0, s2, JoinOrLead(0));
  }

  // The first task is about to send while the second, having missed the cache, is about to take the pending lock.
  lemma ContentionIsReachable(ttl: int) returns (s: State)
    ensures Reaches(Init(ttl), s)
    ensures s == Init(ttl).(pending := map["m" := 0], channels := [Channel("m", 0, [], true)],
                            tasks := [Sending("m", 0, NotFound), Joining("m")])
  {
    var s0 := LeaderIsReachable(ttl);
    var s1 := s0.(tasks := [Sending("m", 0, NotFound)]);
    ReachesOneMore(Init(ttl), s0, FetchDone(0, NoModel));
    var s2 := s0.(tasks := [Sending("m", 0, NotFound), Lookup("m")]);
    ReachesOneMore(Init(ttl), s1, Get("m"));
    s := s0.(tasks := [Sending("m", 0, NotFound), Joining("m")]);
    ReachesOneMore(Init(ttl), s2, ReadCache(1));
  }

  // The first task's guard misses the lock, which the second holds.
  lemma MissedGuardIsReachable(ttl: int) returns (s: State)
    ensures Reaches(Init(ttl), s)
    ensures s == Init(ttl).(pending := map["m" := 0], channels := [Channel("m", 0, [NotFound], true)],
                            tasks := [Closing("m", 0, Some(NotFound)), Joining("m")], missed := {"m"})
  {
    var s0 := ContentionIsReachable(ttl);
    var none: seq<FetchResult> := [];
    assert none + [NotFound] == [NotFound];
    var s1 := s0.(tasks := [Guarding("m", 0, Some(NotFound)), Joining("m")],
                  channels := [Channel("m", 0, [NotFound], true)]);
    assert Apply(s0, Send(0)).channels == s1.channels;
    ReachesOneMore(Init(ttl), s0, Send(0));
    s := s1.(tasks := [Closing("m", 0, Some(NotFound)), Joining("m")], missed := {"m"});
    assert s1.tasks[1].Joining?;
    ReachesOneMore(Init(ttl), s1, DropGuard(0, false));
  }

  // The second then joins the entry left behind, and the first returns.
  lemma StarvationIsReachable(ttl: int) returns (s: State)
    ensures Reachable(s) && Starved(s, 1) && s.tasks[0] == Returned("m", NotFound, Led(0))
  {
    var s0 := MissedGuardIsReachable(ttl);
    var s1 := s0.(tasks := [Closing("m", 0, Some(NotFound)), Waiting("m", 0, 1)]);
    ReachesOneMore(Init(ttl), s0, JoinOrLead(1));
    s := s0.(tasks := [Returned("m", NotFound, Led(0)), Waiting("m", 0, 1)],
             channels := [Channel("m", 0, [NotFound], false)]);
    assert Apply(s1, CloseSender(0)).channels == s.channels;
    ReachesOneMore(Init(ttl), s1, CloseSender(0));
  }
}
