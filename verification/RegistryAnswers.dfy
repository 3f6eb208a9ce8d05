// What calls of the coalescing registry are answered, over every run: by the fetcher's answers and the last writes.

module RegistryAnswers {

  import opened Wrappers
  import opened ModelCatalog
  import opened CoalescingRegistry
  import opened RegistryTheorems

  // Leaders and the fetcher

  // What a call must return when the fetcher has answered it.
  predicate Answers(answer: Answer, result: FetchResult) {
    match answer
    case Model(info) =>
      if IsValid(info) then result == Found(info)
      else result.Failed? && result.error.Invalid? && IsFirstViolation(info, result.error.reason)
    case NoModel => result == NotFound
    case Error(message) => result == Failed(FetcherFailed(message))
  }

  // What a run says about one task: the fetcher's last answer to it, and whether it has stored a model since.
  datatype Progress = Progress(answer: Option<Answer>, stored: bool)

  function Next(p: Progress, a: Action, t: nat): Progress {
    match a
    case FetchDone(u, answer) => if u == t then Progress(Some(answer), false) else p
    case Store(u) => if u == t then p.(stored := true) else p
    case _ => p
  }

  function ProgressOf(p: Progress, run: seq<Action>, t: nat): Progress
    decreases |run|
  {
    if run == [] then p else ProgressOf(Next(p, run[0], t), run[1..], t)
  }

  predicate Answered(p: Progress, result: FetchResult) {
    p.answer.Some? && Answers(p.answer.value, result) && (result.Found? ==> p.stored)
  }

  predicate InAccord(task: Task, p: Progress) {
    match task
    case Storing(_, _, info) => p.answer == Some(Model(info)) && IsValid(info)
    case Sending(_, _, result) => Answered(p, result)
    case Guarding(_, _, Some(result)) => Answered(p, result)
    case Closing(_, _, Some(result)) => Answered(p, result)
    case Returned(_, result, Led(_)) => Answered(p, result)
    case _ => true
  }

  lemma StepKeepsAccord(s: State, a: Action, t: nat, p: Progress)
    requires Enabled(s, a) && (t < |s.tasks| ==> InAccord(s.tasks[t], p))
    ensures t < |Apply(s, a).tasks| ==> InAccord(Apply(s, a).tasks[t], Next(p, a, t))
  {
    if t < |s.tasks| {
      if !StepOf(a, t) {
        OthersLeaveTask(s, a, t);
      } else if a.FetchDone? && a.answer.Model? {
        ValidationIsExact(a.answer.info);
      }
    }
  }

  lemma {:induction false} RunKeepsAccord(s: State, run: seq<Action>, t: nat, p: Progress)
    requires Legal(s, run) && (t < |s.tasks| ==> InAccord(s.tasks[t], p))
    ensures t < |Exec(s, run).tasks| ==> InAccord(Exec(s, run).tasks[t], ProgressOf(p, run, t))
    decreases |run|
  {
    if run != [] {
      StepKeepsAccord(s, run[0], t, p);
      RunKeepsAccord(Apply(s, run[0]), run[1..], t, Next(p, run[0], t));
    }
  }

  lemma {:induction false} ProgressIsInRun(p: Progress, run: seq<Action>, t: nat)
    ensures var q := ProgressOf(p, run, t);
            (q.answer == p.answer || (q.answer.Some? && FetchDone(t, q.answer.value) in run)) &&
            (q.stored ==> p.stored || Store(t) in run)
    decreases |run|
  {
    if run != [] {
      ProgressIsInRun(Next(p, run[0], t), run[1..], t);
      assert run[0] in run && forall a | a in run[1..] :: a in run;
    }
  }

  const NO_PROGRESS := Progress(None, false)

  // Over any run: a leader that has returned was answered by the fetcher, and returned what that answer calls for. If
  // it returned a model, it has stored it.
  lemma LeaderIsAnswered(ttl: int, run: seq<Action>, t: nat)
    requires Legal(Init(ttl), run) && t < |Exec(Init(ttl), run).tasks|
    requires var task := Exec(Init(ttl), run).tasks[t]; task.Returned? && task.via.Led?
    ensures var task := Exec(Init(ttl), run).tasks[t];
            (exists answer :: FetchDone(t, answer) in run && Answers(answer, task.result)) &&
            (task.result.Found? ==> Store(t) in run)
  {
    RunKeepsAccord(Init(ttl), run, t, NO_PROGRESS);
    ProgressIsInRun(NO_PROGRESS, run, t);
  }

  // And so was every waiter, by the answer to its leader, unless its broadcast failed.
  lemma WaiterIsAnswered(ttl: int, run: seq<Action>, w: nat, ch: nat, pos: nat)
    requires Legal(Init(ttl), run) && w < |Exec(Init(ttl), run).tasks|
    requires var task := Exec(Init(ttl), run).tasks[w];
             task.Returned? && task.via == Waited(ch, pos) && task.result != Failed(BroadcastFailed)
    ensures var s := Exec(Init(ttl), run);
            ch < |s.channels| && pos == 0 &&
            exists answer :: FetchDone(s.channels[ch].leader, answer) in run && Answers(answer, s.tasks[w].result)
  {
    var s := Exec(Init(ttl), run);
    assert Reaches(Init(ttl), s);
    WaiterGetsLeaderResult(s, w, ch, pos);
    var t := s.channels[ch].leader;
    RunKeepsAccord(Init(ttl), run, t, NO_PROGRESS);
    ProgressIsInRun(NO_PROGRESS, run, t);
  }

  // The empty ID

  predicate EmptyRefused(task: Task) {
    match task
    case Returned(id, result, NoLookup) => id == "" && result == Failed(EmptyModelId)
    case Listing(_) => true
    case Writing(_, _) => true
    case Refreshed(_) => true
    case _ => task.id != ""
  }

  lemma StepRefusesEmpty(s: State, a: Action)
    requires Enabled(s, a) && forall t | 0 <= t < |s.tasks| :: EmptyRefused(s.tasks[t])
    ensures forall t | 0 <= t < |Apply(s, a).tasks| :: EmptyRefused(Apply(s, a).tasks[t])
  {
    forall t | 0 <= t < |Apply(s, a).tasks| ensures EmptyRefused(Apply(s, a).tasks[t]) {
      if t < |s.tasks| && !StepOf(a, t) { OthersLeaveTask(s, a, t); }
    }
  }

  // A call is refused for an empty ID at once, and no other call is.
  lemma {:induction false} RunRefusesEmpty(s: State, run: seq<Action>)
    requires Legal(s, run) && forall t | 0 <= t < |s.tasks| :: EmptyRefused(s.tasks[t])
    ensures forall t | 0 <= t < |Exec(s, run).tasks| :: EmptyRefused(Exec(s, run).tasks[t])
    decreases |run|
  {
    if run != [] {
      StepRefusesEmpty(s, run[0]);
      RunRefusesEmpty(Apply(s, run[0]), run[1..]);
    }
  }

  // The cache and what was last written to it

  // What a step does to one key: nothing, drop it, or write an entry.
  datatype Effect = Nothing | Drop | Write(entry: Cached)

  function Listed(models: map<string, ModelInfo>, id: string, expiresAt: int): Effect {
    if id in models && IsValid(models[id]) then Write(Cached(models[id], expiresAt)) else Nothing
  }

  function EffectOn(s: State, a: Action, id: string): Effect
    requires Enabled(s, a)
  {
    match a
    case Store(t) => if s.tasks[t].id == id then Write(Cached(s.tasks[t].info, s.now + s.ttl)) else Nothing
    case WriteListing(t) => Listed(s.tasks[t].models, id, s.tasks[t].at + s.ttl)
    case BackgroundFinish(Some(models)) => Listed(models, id, s.writer.value + s.ttl)
    case Invalidate(ids) => if ids == [] || id in ids then Drop else Nothing
    case _ => Nothing
  }

  // The entry last written for a key and not dropped since, whether or not it has expired.
  function Latest(s: State, run: seq<Action>, id: string, latest: Option<Cached>): Option<Cached>
    requires Legal(s, run)
    decreases |run|
  {
    if run == [] then latest
    else
      Latest(Apply(s, run[0]), run[1..], id,
             match EffectOn(s, run[0], id)
             case Nothing => latest
             case Drop => None
             case Write(entry) => Some(entry))
  }

  // What a lookup finds: an entry that has not expired.
  function Live(entry: Option<Cached>, now: int): Option<Cached> {
    if entry.Some? && now < entry.value.expiresAt then entry else None
  }

  function Entry(s: State, id: string): Option<Cached> {
    if id in s.cache then Some(s.cache[id]) else None
  }

  lemma StepKeepsClock(s: State, a: Action)
    requires Enabled(s, a) && (s.writer.Some? ==> s.writer.value <= s.now)
    ensures var s' := Apply(s, a); s.now <= s'.now && (s'.writer.Some? ==> s'.writer.value <= s'.now)
  {
  }

  lemma StepTracksLatest(s: State, a: Action, id: string, latest: Option<Cached>)
    requires Enabled(s, a) && (s.writer.Some? ==> s.writer.value <= s.now)
    requires Live(Entry(s, id), s.now) == Live(latest, s.now)
    ensures var s' := Apply(s, a);
            Live(Entry(s', id), s'.now) ==
            Live(match EffectOn(s, a, id) case Nothing => latest case Drop => None case Write(e) => Some(e), s'.now)
  {
    StepKeepsClock(s, a);
    match a
    case WriteListing(t) =>
      if id in s.tasks[t].models { ValidationIsExact(s.tasks[t].models[id]); }
    case BackgroundFinish(Some(models)) =>
      if id in models { ValidationIsExact(models[id]); }
    case _ =>
  }

  // Over any run, what the cache has for a key is what was last written for it, as long as that has not expired or
  // been invalidated: refreshes skip invalid models, and cleanup is never seen.
  lemma {:induction false} CacheIsLatest(s: State, run: seq<Action>, id: string, latest: Option<Cached>)
    requires Legal(s, run) && (s.writer.Some? ==> s.writer.value <= s.now)
    requires Live(Entry(s, id), s.now) == Live(latest, s.now)
    ensures var s' := Exec(s, run); Live(Entry(s', id), s'.now) == Live(Latest(s, run, id, latest), s'.now)
    decreases |run|
  {
    if run != [] {
      var effect := EffectOn(s, run[0], id);
      StepKeepsClock(s, run[0]);
      StepTracksLatest(s, run[0], id, latest);
      CacheIsLatest(Apply(s, run[0]), run[1..], id,
                    match effect case Nothing => latest case Drop => None case Write(entry) => Some(entry));
    }
  }

  // Nothing in the run writes or drops the key.
  predicate Untouched(s: State, run: seq<Action>, id: string)
    requires Legal(s, run)
    decreases |run|
  {
    run == [] || (EffectOn(s, run[0], id).Nothing? && Untouched(Apply(s, run[0]), run[1..], id))
  }

  lemma {:induction false} UntouchedKeepsLatest(s: State, run: seq<Action>, id: string, latest: Option<Cached>)
    requires Legal(s, run) && Untouched(s, run, id)
    ensures Latest(s, run, id, latest) == latest
    decreases |run|
  {
    if run != [] { UntouchedKeepsLatest(Apply(s, run[0]), run[1..], id, latest); }
  }

  // A model stored by its leader is in the cache, under the leader's key, until it is overwritten, invalidated or
  // expired.
  lemma StoredModelStays(s: State, t: nat, run: seq<Action>)
    requires Inv(s) && Enabled(s, Store(t)) && Legal(Apply(s, Store(t)), run)
    requires Untouched(Apply(s, Store(t)), run, s.tasks[t].id)
    requires Exec(Apply(s, Store(t)), run).now < s.now + s.ttl
    ensures var s' := Exec(Apply(s, Store(t)), run);
            s.tasks[t].id in s'.cache && s'.cache[s.tasks[t].id] == Cached(s.tasks[t].info, s.now + s.ttl)
  {
    var s1, id, entry := Apply(s, Store(t)), s.tasks[t].id, Some(Cached(s.tasks[t].info, s.now + s.ttl));
    CacheIsLatest(s1, run, id, entry);
    UntouchedKeepsLatest(s1, run, id, entry);
  }

  // The model a leader is about to store is the fetcher's answer to it.
  lemma StoredModelIsAnswer(ttl: int, run: seq<Action>, t: nat)
    requires Legal(Init(ttl), run) && Enabled(Exec(Init(ttl), run), Store(t))
    ensures var info := Exec(Init(ttl), run).tasks[t].info; IsValid(info) && FetchDone(t, Model(info)) in run
  {
    RunKeepsAccord(Init(ttl), run, t, NO_PROGRESS);
    ProgressIsInRun(NO_PROGRESS, run, t);
  }

  // Over any run, a lookup returns the model last written for its key if that is still live, and goes on to fetch
  // otherwise.
  lemma LookupReturnsLatest(ttl: int, run: seq<Action>, t: nat)
    requires Legal(Init(ttl), run) && Enabled(Exec(Init(ttl), run), ReadCache(t))
    ensures var s := Exec(Init(ttl), run);
            var before, after := s.tasks[t], Apply(s, ReadCache(t)).tasks[t];
            var live := Live(Latest(Init(ttl), run, before.id, None), s.now);
            if live.Some? then after.Returned? && after.id == before.id && after.result == Found(live.value.info)
            else after == Joining(before.id)
  {
    CacheIsLatest(Init(ttl), run, Exec(Init(ttl), run).tasks[t].id, None);
  }

  // Calls return

  // A call of get that is on its way to a result: neither dropped, nor starved by a missed guard.
  predicate Underway(s: State, t: nat) {
    t < |s.tasks| &&
    match s.tasks[t]
    case Lookup(id) => id !in s.missed
    case Joining(id) => id !in s.missed
    case Waiting(_, _, _) => !Starved(s, t)
    case Guarding(_, _, outcome) => outcome.Some?
    case Closing(_, _, outcome) => outcome.Some?
    case task => task.HoldsSender()
  }

  function Distance(s: State, t: nat): nat
    requires t < |s.tasks|
  {
    match s.tasks[t]
    case Lookup(_) => 9 + if s.writer.Some? then 1 else 0
    case Joining(_) => 8
    case task => StepsLeft(task) + if s.writer.Some? then 1 else 0
  }

  function CallMove(s: State, t: nat): Action
    requires Underway(s, t) && !s.tasks[t].Waiting?
  {
    if s.tasks[t].Lookup? then (if s.writer.Some? then BackgroundFinish(None) else ReadCache(t))
    else if s.tasks[t].Joining? then JoinOrLead(t)
    else LeaderMove(s, t)
  }

  ghost predicate CanReturn(s: State, t: nat) {
    exists run :: Legal(s, run) && t < |Exec(s, run).tasks| && Exec(s, run).tasks[t].Returned?
  }

  lemma CallMoves(s: State, t: nat)
    requires Inv(s) && Underway(s, t) && !s.tasks[t].Waiting?
    ensures Enabled(s, CallMove(s, t))
    ensures var s' := Apply(s, CallMove(s, t));
            t < |s'.tasks| && (s'.tasks[t].Returned? || (Underway(s', t) && Distance(s', t) < Distance(s, t)))
  {
    assert TaskOk(s, t);
  }

  lemma ReturnsLater(s: State, a: Action, t: nat)
    requires Enabled(s, a) && CanReturn(Apply(s, a), t)
    ensures CanReturn(s, t)
  {
    var s' := Apply(s, a);
    var run :| Legal(s', run) && t < |Exec(s', run).tasks| && Exec(s', run).tasks[t].Returned?;
    assert ([a] + run)[1..] == run;
    assert Legal(s, [a] + run);
  }

  // Every call underway can still return.
  lemma {:induction false} CallCanReturn(s: State, t: nat)
    requires Inv(s) && Underway(s, t)
    ensures CanReturn(s, t)
    decreases Distance(s, t)
  {
    if s.tasks[t].Waiting? {
      var run := WaiterCanFinish(s, t);
      ExecOneMore(s, run, Receive(t));
      assert Exec(s, run + [Receive(t)]).tasks[t].Returned?;
    } else {
      var a := CallMove(s, t);
      CallMoves(s, t);
      StepKeepsInv(s, a);
      if Apply(s, a).tasks[t].Returned? {
        assert Legal(Apply(s, a), []) && Exec(Apply(s, a), []) == Apply(s, a);
      } else {
        CallCanReturn(Apply(s, a), t);
      }
      ReturnsLater(s, a, t);
    }
  }

  // So every call of get, made in whatever state a run has reached, can still return, unless a guard has missed the
  // lock for its model. A call without a model ID has returned already.
  lemma EveryCallCanReturn(s: State, id: string)
    requires Reachable(s) && id !in s.missed
    ensures CanReturn(Apply(s, Get(id)), |s.tasks|)
    ensures id == "" ==> Apply(s, Get(id)).tasks == s.tasks + [Returned("", Failed(EmptyModelId), NoLookup)]
  {
    var s' := Apply(s, Get(id));
    ReachableInv(s);
    StepKeepsInv(s, Get(id));
    if id == "" {
      assert Legal(s', []) && Exec(s', []) == s';
    } else {
      CallCanReturn(s', |s.tasks|);
    }
  }
}
