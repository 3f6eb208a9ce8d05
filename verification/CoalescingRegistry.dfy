// The coalescing model registry as a transition system.
//
// Each call of get, and each full refresh, is a task with a program counter. A step is what one task does
// while it holds a lock, or between two awaits. The cache lock is explicit because the background task keeps
// it across an await; the pending lock is only ever held inside one step.

module CoalescingRegistry {

  import opened Wrappers
  import opened ModelCatalog

  datatype FetchError =
    | EmptyModelId
    | Invalid(reason: ModelInfoError)
    | FetcherFailed(message: string)
    | BroadcastFailed

  datatype FetchResult = Found(info: ModelInfo) | NotFound | Failed(error: FetchError)

  // What the fetcher answers for one model ID.
  datatype Answer = Model(info: ModelInfo) | NoModel | Error(message: string)

  // A one-shot broadcast channel: one sender handle is held by its leader, a second one sits in the pending map.
  datatype Channel = Channel(id: string, leader: nat, messages: seq<FetchResult>, senderHeld: bool)

  // How a call of get came by its result.
  datatype Via =
    | NoLookup
    | Hit(storedAt: int, servedAt: int)
    | Led(ch: nat)
    | Waited(ch: nat, pos: nat)

  datatype Task =
    | Lookup(id: string)
    | Joining(id: string)
    | Waiting(id: string, ch: nat, pos: nat)
    | Fetching(id: string, ch: nat)
    | Storing(id: string, ch: nat, info: ModelInfo)
    | Sending(id: string, ch: nat, result: FetchResult)
    | Guarding(id: string, ch: nat, outcome: Option<FetchResult>)
    | Closing(id: string, ch: nat, outcome: Option<FetchResult>)
    | Returned(id: string, result: FetchResult, via: Via)
    | Cancelled(id: string, via: Via)
    | Listing(at: int)
    | Writing(at: int, models: map<string, ModelInfo>)
    | Refreshed(ok: bool)
  {
    // Between inserting the pending entry and the end of the fetch guard.
    predicate Leading() {
      Fetching? || Storing? || Sending? || Guarding?
    }

    // Holding the leader's own handle of a channel.
    predicate HoldsSender() {
      Leading() || Closing?
    }

    predicate LedChannel(c: nat) {
      (HoldsSender() && ch == c) || ((Returned? || Cancelled?) && via == Led(c))
    }

    // What the leader has put on its channel so far.
    function Sent(): seq<FetchResult> {
      match this
      case Guarding(_, _, Some(r)) => [r]
      case Closing(_, _, Some(r)) => [r]
      case Returned(_, r, _) => [r]
      case _ => []
    }

    // The awaits at which the task may be dropped.
    predicate AtAwait() {
      Lookup? || Joining? || Waiting? || Fetching? || Storing? || Listing? || Writing?
    }
  }

  // The last three fields are history: every answer the fetcher gave and under which key, when each key was
  // last written, and for which model IDs a fetch guard failed to take the pending lock.
  datatype State = State(
    ttl: int,
    now: int,
    cache: Cache,
    pending: map<string, nat>,
    channels: seq<Channel>,
    tasks: seq<Task>,
    writer: Option<int>,
    answers: set<(string, ModelInfo)>,
    storedAt: map<string, int>,
    missed: set<string>)

  function Init(ttl: int): State {
    State(ttl, 0, map[], map[], [], [], None, {}, map[], {})
  }

  datatype Action =
    | Tick(elapsed: nat)
    | Get(id: string)
    | ReadCache(t: nat)
    | JoinOrLead(t: nat)
    | FetchDone(t: nat, answer: Answer)
    | Store(t: nat)
    | Send(t: nat)
    | DropGuard(t: nat, locked: bool)
    | CloseSender(t: nat)
    | Receive(t: nat)
    | Cancel(t: nat)
    | RefreshAll
    | ListDone(t: nat, listing: Option<map<string, ModelInfo>>)
    | WriteListing(t: nat)
    | BackgroundLock
    | BackgroundFinish(listing: Option<map<string, ModelInfo>>)
    | BackgroundAbort
    | Invalidate(ids: seq<string>)
    | CleanupExpired

  // A channel is open while some sender handle is alive: the leader's, or the one in the pending map.
  predicate Open(s: State, c: nat)
    requires c < |s.channels|
  {
    s.channels[c].senderHeld || (s.channels[c].id in s.pending && s.pending[s.channels[c].id] == c)
  }

  // Another task is about to take the pending lock, to join or lead or to drop its own guard. Nothing else takes it,
  // and nothing keeps it beyond its own step, so only against such a task can a guard's attempt at the lock fail.
  predicate Contended(s: State, t: nat) {
    exists u | 0 <= u < |s.tasks| :: u != t && (s.tasks[u].Joining? || s.tasks[u].Guarding?)
  }

  predicate Enabled(s: State, a: Action) {
    match a
    case Tick(_) => true
    case Get(_) => true
    case ReadCache(t) => t < |s.tasks| && s.tasks[t].Lookup? && s.writer.None?
    case JoinOrLead(t) => t < |s.tasks| && s.tasks[t].Joining?
    case FetchDone(t, _) => t < |s.tasks| && s.tasks[t].Fetching?
    case Store(t) => t < |s.tasks| && s.tasks[t].Storing? && s.writer.None?
    case Send(t) => t < |s.tasks| && s.tasks[t].Sending? && s.tasks[t].ch < |s.channels|
    case DropGuard(t, locked) => t < |s.tasks| && s.tasks[t].Guarding? && (locked || Contended(s, t))
    case CloseSender(t) => t < |s.tasks| && s.tasks[t].Closing? && s.tasks[t].ch < |s.channels|
    case Receive(t) =>
      t < |s.tasks| && s.tasks[t].Waiting? && s.tasks[t].ch < |s.channels| &&
      (s.tasks[t].pos < |s.channels[s.tasks[t].ch].messages| || !Open(s, s.tasks[t].ch))
    case Cancel(t) => t < |s.tasks| && s.tasks[t].AtAwait()
    case RefreshAll => true
    case ListDone(t, _) => t < |s.tasks| && s.tasks[t].Listing?
    case WriteListing(t) => t < |s.tasks| && s.tasks[t].Writing? && s.writer.None?
    case BackgroundLock => s.writer.None?
    case BackgroundFinish(_) => s.writer.Some?
    case BackgroundAbort => s.writer.Some?
    case Invalidate(_) => s.writer.None?
    case CleanupExpired => s.writer.None?
  }

  function Keyed(models: map<string, ModelInfo>): set<(string, ModelInfo)> {
    set k | k in models :: (k, models[k])
  }

  function Stamp(storedAt: map<string, int>, models: map<string, ModelInfo>, now: int): map<string, int> {
    storedAt + map k | k in models && models[k].Validate().None? :: now
  }

  // The receiver's end of a broadcast channel of capacity one: a receiver that is more than one message behind
  // has lagged, and one that has seen everything finds the channel closed.
  function ReceiveFrom(c: Channel, pos: nat): FetchResult {
    if pos + 1 == |c.messages| then c.messages[pos] else Failed(BroadcastFailed)
  }

  function GuardOf(task: Task): Task
    requires task.AtAwait()
  {
    match task
    case Fetching(id, ch) => Guarding(id, ch, None)
    case Storing(id, ch, _) => Guarding(id, ch, None)
    case Lookup(id) => Cancelled(id, NoLookup)
    case Joining(id) => Cancelled(id, NoLookup)
    case Waiting(id, ch, pos) => Cancelled(id, Waited(ch, pos))
    case _ => Refreshed(false)
  }

  function Apply(s: State, a: Action): State
    requires Enabled(s, a)
  {
    match a
    case Tick(elapsed) => s.(now := s.now + elapsed)
    case Get(id) =>
      var start := if id == "" then Returned(id, Failed(EmptyModelId), NoLookup) else Lookup(id);
      s.(tasks := s.tasks + [start])
    case ReadCache(t) =>
      var id := s.tasks[t].id;
      if id in s.cache && s.now < s.cache[id].expiresAt then
        var stored := if id in s.storedAt then s.storedAt[id] else s.now;
        s.(tasks := s.tasks[t := Returned(id, Found(s.cache[id].info), Hit(stored, s.now))])
      else
        s.(tasks := s.tasks[t := Joining(id)])
    case JoinOrLead(t) =>
      var id := s.tasks[t].id;
      if id in s.pending then
        var ch := s.pending[id];
        var pos := if ch < |s.channels| then |s.channels[ch].messages| else 0;
        s.(tasks := s.tasks[t := Waiting(id, ch, pos)])
      else
        var ch := |s.channels|;
        s.(pending := s.pending[id := ch],
           channels := s.channels + [Channel(id, t, [], true)],
           tasks := s.tasks[t := Fetching(id, ch)])
    case FetchDone(t, answer) =>
      var Fetching(id, ch) := s.tasks[t];
      (match answer
       case Model(info) =>
         s.(answers := s.answers + {(id, info)},
            tasks := s.tasks[t := match info.Validate()
                                  case Some(e) => Sending(id, ch, Failed(Invalid(e)))
                                  case None => Storing(id, ch, info)])
       case NoModel => s.(tasks := s.tasks[t := Sending(id, ch, NotFound)])
       case Error(message) => s.(tasks := s.tasks[t := Sending(id, ch, Failed(FetcherFailed(message)))]))
    case Store(t) =>
      var Storing(id, ch, info) := s.tasks[t];
      s.(cache := s.cache[id := Cached(info, s.now + s.ttl)],
         storedAt := s.storedAt[id := s.now],
         tasks := s.tasks[t := Sending(id, ch, Found(info))])
    case Send(t) =>
      var Sending(id, ch, result) := s.tasks[t];
      var c := s.channels[ch];
      s.(channels := s.channels[ch := c.(messages := c.messages + [result])],
         tasks := s.tasks[t := Guarding(id, ch, Some(result))])
    case DropGuard(t, locked) =>
      var Guarding(id, ch, outcome) := s.tasks[t];
      var s' := s.(tasks := s.tasks[t := Closing(id, ch, outcome)]);
      if locked then s'.(pending := s.pending - {id}) else s'.(missed := s.missed + {id})
    case CloseSender(t) =>
      var Closing(id, ch, outcome) := s.tasks[t];
      s.(channels := s.channels[ch := s.channels[ch].(senderHeld := false)],
         tasks := s.tasks[t := match outcome
                               case Some(r) => Returned(id, r, Led(ch))
                               case None => Cancelled(id, Led(ch))])
    case Receive(t) =>
      var Waiting(id, ch, pos) := s.tasks[t];
      s.(tasks := s.tasks[t := Returned(id, ReceiveFrom(s.channels[ch], pos), Waited(ch, pos))])
    case Cancel(t) => s.(tasks := s.tasks[t := GuardOf(s.tasks[t])])
    case RefreshAll => s.(tasks := s.tasks + [Listing(s.now)])
    case ListDone(t, listing) =>
      (match listing
       case Some(models) =>
         s.(answers := s.answers + Keyed(models), tasks := s.tasks[t := Writing(s.tasks[t].at, models)])
       case None => s.(tasks := s.tasks[t := Refreshed(false)]))
    case WriteListing(t) =>
      var Writing(at, models) := s.tasks[t];
      s.(cache := WithListing(s.cache, models, at + s.ttl),
         storedAt := Stamp(s.storedAt, models, s.now),
         tasks := s.tasks[t := Refreshed(true)])
    case BackgroundLock => s.(writer := Some(s.now))
    case BackgroundFinish(listing) =>
      var at := s.writer.value;
      var models := if listing.Some? then listing.value else map[];
      s.(writer := None,
         answers := s.answers + Keyed(models),
         storedAt := Stamp(s.storedAt, models, s.now),
         cache := LiveEntries(WithListing(s.cache, models, at + s.ttl), at))
    case BackgroundAbort => s.(writer := None)
    case Invalidate(ids) => s.(cache := WithoutModels(s.cache, ids))
    case CleanupExpired => s.(cache := LiveEntries(s.cache, s.now))
  }

  // Runs

  predicate Legal(s: State, run: seq<Action>)
    decreases |run|
  {
    run == [] || (Enabled(s, run[0]) && Legal(Apply(s, run[0]), run[1..]))
  }

  function Exec(s: State, run: seq<Action>): State
    requires Legal(s, run)
    decreases |run|
  {
    if run == [] then s else Exec(Apply(s, run[0]), run[1..])
  }

  ghost predicate Reaches(s: State, s': State) {
    exists run :: Legal(s, run) && Exec(s, run) == s'
  }

  ghost predicate Reachable(s: State) {
    exists ttl :: Reaches(Init(ttl), s)
  }

  // The invariant

  predicate Sound(s: State, id: string, result: FetchResult) {
    result.Found? ==> result.info.Validate().None? && (id, result.info) in s.answers
  }

  predicate ChannelOf(s: State, id: string, ch: nat) {
    ch < |s.channels| && s.channels[ch].id == id
  }

  ghost predicate TaskOk(s: State, t: nat)
    requires t < |s.tasks|
  {
    var task := s.tasks[t];
    match task
    case Waiting(id, ch, pos) => ChannelOf(s, id, ch) && pos <= |s.channels[ch].messages|
    case Fetching(id, ch) => LeaderOk(s, t, id, ch)
    case Storing(id, ch, info) => LeaderOk(s, t, id, ch) && Sound(s, id, Found(info))
    case Sending(id, ch, result) => LeaderOk(s, t, id, ch) && Sound(s, id, result)
    case Guarding(id, ch, _) => LeaderOk(s, t, id, ch)
    case Closing(id, ch, _) =>
      ChannelOf(s, id, ch) && s.channels[ch].leader == t &&
      (id in s.pending && s.pending[id] == ch ==> id in s.missed)
    case Returned(id, result, via) =>
      Sound(s, id, result) &&
      (match via
       case NoLookup => id == "" && result == Failed(EmptyModelId)
       case Hit(storedAt, servedAt) => result.Found? && storedAt <= servedAt < storedAt + s.ttl
       case Led(ch) => ChannelOf(s, id, ch) && s.channels[ch].leader == t
       case Waited(ch, pos) =>
         ChannelOf(s, id, ch) && result == ReceiveFrom(s.channels[ch], pos) &&
         (pos < |s.channels[ch].messages| || !Open(s, ch)))
    case Cancelled(id, Led(ch)) => ChannelOf(s, id, ch) && s.channels[ch].leader == t
    case Listing(at) => at <= s.now
    case Writing(at, models) => at <= s.now && Keyed(models) <= s.answers
    case _ => true
  }

  predicate LeaderOk(s: State, t: nat, id: string, ch: nat) {
    ChannelOf(s, id, ch) && s.channels[ch].leader == t && id in s.pending && s.pending[id] == ch &&
    id !in s.missed
  }

  ghost predicate ChannelOk(s: State, c: nat)
    requires c < |s.channels|
  {
    var channel := s.channels[c];
    channel.leader < |s.tasks| &&
    var leader := s.tasks[channel.leader];
    leader.LedChannel(c) && leader.id == channel.id &&
    channel.messages == leader.Sent() && channel.senderHeld == leader.HoldsSender() &&
    (forall r :: r in channel.messages ==> Sound(s, channel.id, r))
  }

  ghost predicate PendingOk(s: State, id: string)
    requires id in s.pending
  {
    ChannelOf(s, id, s.pending[id]) &&
    s.channels[s.pending[id]].leader < |s.tasks| &&
    (id in s.missed <==> !s.tasks[s.channels[s.pending[id]].leader].Leading())
  }

  ghost predicate EntryOk(s: State, id: string)
    requires id in s.cache
  {
    Sound(s, id, Found(s.cache[id].info)) &&
    id in s.storedAt && s.storedAt[id] <= s.now && s.cache[id].expiresAt <= s.storedAt[id] + s.ttl
  }

  ghost predicate Inv(s: State) {
    (forall t {:trigger TaskOk(s, t)} | 0 <= t < |s.tasks| :: TaskOk(s, t)) &&
    (forall c {:trigger ChannelOk(s, c)} | 0 <= c < |s.channels| :: ChannelOk(s, c)) &&
    (forall id {:trigger PendingOk(s, id)} | id in s.pending :: PendingOk(s, id)) &&
    (forall id | id in s.missed :: id in s.pending) &&
    (forall id {:trigger EntryOk(s, id)} | id in s.cache :: EntryOk(s, id)) &&
    (s.writer.Some? ==> s.writer.value <= s.now)
  }

  // What a step of task t leaves alone: every other task, the channels and pending entries others lead, and
  // what has been learnt. For a step of no task at all, t is out of range.

  ghost predicate ChannelFrame(s: State, s': State, t: nat, c: nat)
    requires c < |s.channels| <= |s'.channels|
  {
    var before, after := s.channels[c], s'.channels[c];
    after.id == before.id && after.leader == before.leader &&
    (before.leader != t ==> after == before) &&
    (after.messages == before.messages || (before.messages == [] && before.senderHeld)) &&
    (after.senderHeld ==> before.senderHeld)
  }

  // The pending entry of id belongs to a channel led by t.
  predicate PendingBy(s: State, id: string, t: nat) {
    id in s.pending && s.pending[id] < |s.channels| && s.channels[s.pending[id]].leader == t
  }

  ghost predicate PendingFrame(s: State, s': State, t: nat, id: string) {
    (id in s.pending && !PendingBy(s, id, t) ==> id in s'.pending) &&
    (id in s.pending && id in s'.pending ==> s'.pending[id] == s.pending[id]) &&
    (id in s'.pending && id !in s.pending ==> s'.pending[id] == |s.channels|) &&
    (id in s'.missed && id !in s.missed ==> PendingBy(s, id, t))
  }

  ghost predicate Frame(s: State, s': State, t: nat) {
    s'.ttl == s.ttl && s.now <= s'.now && s.answers <= s'.answers && s.missed <= s'.missed &&
    |s.tasks| <= |s'.tasks| && (forall u | 0 <= u < |s.tasks| && u != t :: s'.tasks[u] == s.tasks[u]) &&
    |s.channels| <= |s'.channels| &&
    (forall c {:trigger ChannelFrame(s, s', t, c)} | 0 <= c < |s.channels| :: ChannelFrame(s, s', t, c)) &&
    (forall id {:trigger PendingFrame(s, s', t, id)} | id in s.pending || id in s'.pending || id in s'.missed ::
       PendingFrame(s, s', t, id))
  }

  lemma OtherTaskKept(s: State, s': State, t: nat, u: nat)
    requires Inv(s) && Frame(s, s', t) && u < |s.tasks| && u != t
    ensures TaskOk(s', u)
  {
    assert TaskOk(s, u);
    var task := s.tasks[u];
    if task.HoldsSender() || task.Waiting? {
      assert ChannelFrame(s, s', t, task.ch);
      assert task.id in s.pending || task.id in s'.pending || task.id in s'.missed ==> PendingFrame(s, s', t, task.id);
    } else if task.Returned? && task.via.Waited? {
      assert ChannelFrame(s, s', t, task.via.ch);
      assert task.id in s'.pending ==> PendingFrame(s, s', t, task.id);
    } else if (task.Returned? || task.Cancelled?) && task.via.Led? {
      assert ChannelFrame(s, s', t, task.via.ch);
    }
  }

  lemma OtherChannelKept(s: State, s': State, t: nat, c: nat)
    requires Inv(s) && Frame(s, s', t) && c < |s.channels| && s.channels[c].leader != t
    ensures ChannelOk(s', c)
  {
    assert ChannelOk(s, c) && ChannelFrame(s, s', t, c);
  }

  lemma OtherPendingKept(s: State, s': State, t: nat, id: string)
    requires Inv(s) && Frame(s, s', t) && id in s.pending && !PendingBy(s, id, t)
    ensures id in s'.pending && PendingOk(s', id)
  {
    assert PendingOk(s, id) && PendingFrame(s, s', t, id) && ChannelFrame(s, s', t, s.pending[id]);
  }

  // What is left to show of a framed step: the part of the invariant about task t itself.
  ghost predicate OwnPart(s: State, s': State, t: nat)
    requires Inv(s) && Frame(s, s', t)
  {
    (forall u {:trigger TaskOk(s', u)} | 0 <= u < |s'.tasks| && (u == t || |s.tasks| <= u) :: TaskOk(s', u)) &&
    (forall c {:trigger ChannelOk(s', c)} | 0 <= c < |s'.channels| && s'.channels[c].leader == t :: ChannelOk(s', c)) &&
    (forall c {:trigger ChannelOk(s', c)} | |s.channels| <= c < |s'.channels| :: ChannelOk(s', c)) &&
    (forall id {:trigger PendingOk(s', id)} | id in s'.pending && (id !in s.pending || PendingBy(s, id, t)) ::
       PendingOk(s', id)) &&
    (forall id | id in s'.missed :: id in s'.pending) &&
    (forall id {:trigger EntryOk(s', id)} | id in s'.cache :: EntryOk(s', id)) &&
    (s'.writer.Some? ==> s'.writer.value <= s'.now)
  }

  lemma FramedStepKeepsInv(s: State, s': State, t: nat)
    requires Inv(s) && Frame(s, s', t) && OwnPart(s, s', t)
    ensures Inv(s')
  {
    forall u | 0 <= u < |s'.tasks| ensures TaskOk(s', u) {
      if u < |s.tasks| && u != t { OtherTaskKept(s, s', t, u); }
    }
    forall c | 0 <= c < |s'.channels| ensures ChannelOk(s', c) {
      if c < |s.channels| {
        assert ChannelFrame(s, s', t, c);
        if s.channels[c].leader != t { OtherChannelKept(s, s', t, c); }
      }
    }
    forall id | id in s'.pending ensures PendingOk(s', id) {
      if id in s.pending && !PendingBy(s, id, t) { OtherPendingKept(s, s', t, id); }
    }
  }

  // A task that leads some channel leads no other.
  lemma LeadsOne(s: State, c: nat)
    requires Inv(s) && c < |s.channels|
    ensures ChannelOk(s, c) && s.tasks[s.channels[c].leader].LedChannel(c)
    ensures forall d | 0 <= d < |s.channels| && s.channels[d].leader == s.channels[c].leader :: d == c
  {
    forall d | 0 <= d < |s.channels| && s.channels[d].leader == s.channels[c].leader ensures d == c {
      assert ChannelOk(s, c) && ChannelOk(s, d);
    }
  }

  // Steps of no task: the clock, the background refresh, invalidation and cleanup; or of a newly started task.
  lemma AmbientStepKeepsInv(s: State, s': State)
    requires Inv(s) && s.tasks <= s'.tasks
    requires s' == s.(now := s'.now, cache := s'.cache, tasks := s'.tasks, writer := s'.writer,
                      answers := s'.answers, storedAt := s'.storedAt)
    requires s.now <= s'.now && s.answers <= s'.answers && (s'.writer.Some? ==> s'.writer.value <= s'.now)
    requires forall u {:trigger TaskOk(s', u)} | |s.tasks| <= u < |s'.tasks| :: TaskOk(s', u)
    requires forall id {:trigger EntryOk(s', id)} | id in s'.cache :: EntryOk(s', id)
    ensures Inv(s')
  {
    var t := |s'.tasks|;
    forall c | 0 <= c < |s.channels| ensures s.channels[c].leader != t { assert ChannelOk(s, c); }
    forall id | id in s.pending ensures !PendingBy(s, id, t) && PendingFrame(s, s', t, id) { assert PendingOk(s, id); }
    FramedStepKeepsInv(s, s', t);
  }

  lemma CacheStepKeepsInv(s: State, a: Action)
    requires Inv(s) && Enabled(s, a)
    requires a.Tick? || a.BackgroundLock? || a.BackgroundFinish? || a.BackgroundAbort? ||
             a.Invalidate? || a.CleanupExpired?
    ensures Inv(Apply(s, a))
  {
    var s' := Apply(s, a);
    forall id | id in s'.cache ensures EntryOk(s', id) { assert id in s.cache ==> EntryOk(s, id); }
    AmbientStepKeepsInv(s, s');
  }

  lemma SpawnKeepsInv(s: State, a: Action)
    requires Inv(s) && (a.Get? || a.RefreshAll?)
    ensures Inv(Apply(s, a))
  {
    var s' := Apply(s, a);
    forall id | id in s'.cache ensures EntryOk(s', id) { assert EntryOk(s, id); }
    AmbientStepKeepsInv(s, s');
  }

  // Steps of one task that do not touch its channel or the pending map.
  lemma LocalStepKeepsInv(s: State, s': State, t: nat)
    requires Inv(s) && t < |s.tasks| == |s'.tasks| && s'.tasks == s.tasks[t := s'.tasks[t]]
    requires s' == s.(tasks := s'.tasks, answers := s'.answers, cache := s'.cache, storedAt := s'.storedAt)
    requires s.answers <= s'.answers && TaskOk(s', t)
    requires if s.tasks[t].HoldsSender()
             then s.tasks[t].Leading() && s.tasks[t].Sent() == []
                  && s'.tasks[t].Leading() && s'.tasks[t].Sent() == []
                  && s'.tasks[t].ch == s.tasks[t].ch && s'.tasks[t].id == s.tasks[t].id
             else !s.tasks[t].Returned? && !s.tasks[t].Cancelled?
    requires forall id {:trigger EntryOk(s', id)} | id in s'.cache :: EntryOk(s', id)
    ensures Inv(s')
  {
    forall id | id in s.pending ensures PendingFrame(s, s', t, id) { assert PendingOk(s, id); }
    forall c | 0 <= c < |s.channels| && s.channels[c].leader == t ensures ChannelOk(s', c) {
      assert ChannelOk(s, c);
    }
    forall id | PendingBy(s, id, t) ensures PendingOk(s', id) {
      assert PendingOk(s, id) && ChannelOk(s, s.pending[id]);
    }
    FramedStepKeepsInv(s, s', t);
  }

  lemma ReadCacheKeepsInv(s: State, t: nat)
    requires Inv(s) && Enabled(s, ReadCache(t))
    ensures Inv(Apply(s, ReadCache(t)))
  {
    var s' := Apply(s, ReadCache(t));
    assert s.tasks[t].id in s.cache ==> EntryOk(s, s.tasks[t].id);
    forall id | id in s'.cache ensures EntryOk(s', id) { assert EntryOk(s, id); }
    LocalStepKeepsInv(s, s', t);
  }

  lemma ReceiveKeepsInv(s: State, t: nat)
    requires Inv(s) && Enabled(s, Receive(t))
    ensures Inv(Apply(s, Receive(t)))
  {
    var s' := Apply(s, Receive(t));
    var Waiting(id, ch, pos) := s.tasks[t];
    assert TaskOk(s, t) && ChannelOk(s, ch);
    assert pos < |s.channels[ch].messages| ==> Sound(s, id, s.channels[ch].messages[pos]);
    forall k | k in s'.cache ensures EntryOk(s', k) { assert EntryOk(s, k); }
    LocalStepKeepsInv(s, s', t);
  }

  lemma CancelKeepsInv(s: State, t: nat)
    requires Inv(s) && Enabled(s, Cancel(t))
    ensures Inv(Apply(s, Cancel(t)))
  {
    var s' := Apply(s, Cancel(t));
    assert TaskOk(s, t);
    forall id | id in s'.cache ensures EntryOk(s', id) { assert EntryOk(s, id); }
    LocalStepKeepsInv(s, s', t);
  }

  lemma FetchStepKeepsInv(s: State, a: Action)
    requires Inv(s) && Enabled(s, a) && (a.FetchDone? || a.Store?)
    ensures Inv(Apply(s, a))
  {
    var s', t := Apply(s, a), a.t;
    assert TaskOk(s, t);
    forall id | id in s'.cache ensures EntryOk(s', id) { assert id in s.cache ==> EntryOk(s, id); }
    LocalStepKeepsInv(s, s', t);
  }

  lemma ListingStepKeepsInv(s: State, a: Action)
    requires Inv(s) && Enabled(s, a) && (a.ListDone? || a.WriteListing?)
    ensures Inv(Apply(s, a))
  {
    var s', t := Apply(s, a), a.t;
    assert TaskOk(s, t);
    forall id | id in s'.cache ensures EntryOk(s', id) { assert id in s.cache ==> EntryOk(s, id); }
    LocalStepKeepsInv(s, s', t);
  }

  // A new leader starts on a fresh channel.
  lemma LeadKeepsInv(s: State, t: nat)
    requires Inv(s) && Enabled(s, JoinOrLead(t)) && s.tasks[t].id !in s.pending
    ensures Inv(Apply(s, JoinOrLead(t)))
  {
    var s', id := Apply(s, JoinOrLead(t)), s.tasks[t].id;
    forall c | 0 <= c < |s.channels| ensures s.channels[c].leader != t { assert ChannelOk(s, c); }
    forall k | k in s.pending ensures ChannelOf(s, k, s.pending[k]) && !PendingBy(s, k, t) { assert PendingOk(s, k); }
    assert Frame(s, s', t);
    forall k | k in s'.cache ensures EntryOk(s', k) { assert EntryOk(s, k); }
    assert TaskOk(s', t) && ChannelOk(s', |s.channels|) && PendingOk(s', id);
    FramedStepKeepsInv(s, s', t);
  }

  lemma JoinKeepsInv(s: State, t: nat)
    requires Inv(s) && Enabled(s, JoinOrLead(t)) && s.tasks[t].id in s.pending
    ensures Inv(Apply(s, JoinOrLead(t)))
  {
    var s' := Apply(s, JoinOrLead(t));
    assert PendingOk(s, s.tasks[t].id);
    forall k | k in s'.cache ensures EntryOk(s', k) { assert EntryOk(s, k); }
    LocalStepKeepsInv(s, s', t);
  }

  // Steps of a leader on its own channel or its own pending entry.
  lemma LeaderStepKeepsInv(s: State, s': State, t: nat)
    requires Inv(s) && t < |s.tasks| && s.tasks[t].HoldsSender() && Frame(s, s', t) && TaskOk(s', t)
    requires s' == s.(pending := s'.pending, channels := s'.channels, tasks := s'.tasks, missed := s'.missed)
    requires |s'.channels| == |s.channels| && |s'.tasks| == |s.tasks| && s'.pending.Keys <= s.pending.Keys
    requires s.tasks[t].ch < |s.channels| && ChannelOk(s', s.tasks[t].ch)
    requires PendingBy(s, s.tasks[t].id, t) && s.tasks[t].id in s'.pending ==> PendingOk(s', s.tasks[t].id)
    requires forall id | id in s'.missed :: id in s'.pending
    ensures Inv(s')
  {
    forall id | PendingBy(s, id, t) ensures id == s.tasks[t].id {
      assert PendingOk(s, id) && ChannelOk(s, s.pending[id]);
    }
    forall c | 0 <= c < |s'.channels| && s'.channels[c].leader == t ensures ChannelOk(s', c) {
      assert ChannelOk(s, c) && ChannelFrame(s, s', t, c);
    }
    forall k | k in s'.cache ensures EntryOk(s', k) { assert EntryOk(s, k); }
    FramedStepKeepsInv(s, s', t);
  }

  lemma SendKeepsInv(s: State, t: nat)
    requires Inv(s) && Enabled(s, Send(t))
    ensures Inv(Apply(s, Send(t)))
  {
    var s', ch := Apply(s, Send(t)), s.tasks[t].ch;
    assert TaskOk(s, t);
    LeadsOne(s, ch);
    forall k | k in s.pending ensures PendingFrame(s, s', t, k) { assert PendingOk(s, k); }
    assert ChannelOk(s', ch);
    LeaderStepKeepsInv(s, s', t);
  }

  lemma DropGuardKeepsInv(s: State, t: nat, locked: bool)
    requires Inv(s) && Enabled(s, DropGuard(t, locked))
    ensures Inv(Apply(s, DropGuard(t, locked)))
  {
    var s', ch := Apply(s, DropGuard(t, locked)), s.tasks[t].ch;
    assert TaskOk(s, t);
    LeadsOne(s, ch);
    forall k | k in s.pending ensures PendingFrame(s, s', t, k) { assert PendingOk(s, k); }
    assert ChannelOk(s', ch);
    LeaderStepKeepsInv(s, s', t);
  }

  lemma CloseSenderKeepsInv(s: State, t: nat)
    requires Inv(s) && Enabled(s, CloseSender(t))
    ensures Inv(Apply(s, CloseSender(t)))
  {
    var s', ch := Apply(s, CloseSender(t)), s.tasks[t].ch;
    assert TaskOk(s, t);
    LeadsOne(s, ch);
    forall k | k in s.pending ensures PendingFrame(s, s', t, k) { assert PendingOk(s, k); }
    assert forall r :: r in s.channels[ch].messages ==> Sound(s, s.tasks[t].id, r);
    assert ChannelOk(s', ch);
    LeaderStepKeepsInv(s, s', t);
  }

  lemma StepKeepsInv(s: State, a: Action)
    requires Inv(s) && Enabled(s, a)
    ensures Inv(Apply(s, a))
  {
    match a
    case ReadCache(t) => ReadCacheKeepsInv(s, t);
    case Receive(t) => ReceiveKeepsInv(s, t);
    case Cancel(t) => CancelKeepsInv(s, t);
    case FetchDone(_, _) => FetchStepKeepsInv(s, a);
    case Store(_) => FetchStepKeepsInv(s, a);
    case ListDone(_, _) => ListingStepKeepsInv(s, a);
    case WriteListing(_) => ListingStepKeepsInv(s, a);
    case JoinOrLead(t) => if s.tasks[t].id in s.pending { JoinKeepsInv(s, t); } else { LeadKeepsInv(s, t); }
    case Send(t) => SendKeepsInv(s, t);
    case DropGuard(t, locked) => DropGuardKeepsInv(s, t, locked);
    case CloseSender(t) => CloseSenderKeepsInv(s, t);
    case Get(_) => SpawnKeepsInv(s, a);
    case RefreshAll => SpawnKeepsInv(s, a);
    case _ => CacheStepKeepsInv(s, a);
  }
}
