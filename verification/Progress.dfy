/** How the run of a survey goes on and ends: every step brings it closer to its end, so that every run is finite, and when
    all expected uploads arrive every maximal run is complete (services/service.go). */
module Progress {
  import opened Sets
  import opened Barriers

  // ---------- every step counts ----------

  /** How many steps creation still takes. */
  function CreationLeft(n: nat, cr: Creation): nat {
    if !cr.started then 3 * n + 2 else 3 * |cr.queries| + 2 * |cr.confirmations| + |cr.channel| + (if cr.returned then 0 else 1)
  }

  function PhaseLeft(n: nat, phase: Phase): nat {
    match phase
    case Idle => 2 * n + 3
    case Loading(_) => 2 * n + 3
    case Shuffling => 2 * n + 2
    case Tagged => 2 * n + 1
    case Announced => 0
  }

  function CollectingLeft(n: nat, collecting: Collecting): nat {
    match collecting
    case NotStarted => 2
    case Pulled(_) => 1
    case Launched => 0
  }

  /** How many steps a server's record still allows; announcing counts for the messages it sends. */
  function ServerLeft(n: nat, uploads: nat, v: Server): nat
    requires v.stored <= uploads
  {
    2 * (uploads - v.stored) + v.dpChannel + PhaseLeft(n, v.phase) + 2 * |v.ddtFlight| + |v.ddtChannel| + CollectingLeft(n, v.collecting)
  }

  /** The records fit the numbers of uploads. */
  predicate Sized(uploads: seq<seq<nat>>, servers: seq<Server>) {
    |uploads| == |servers| && forall i :: 0 <= i < |servers| ==> servers[i].stored <= |uploads[i]|
  }

  function ServersLeft(n: nat, uploads: seq<seq<nat>>, servers: seq<Server>): nat
    requires Sized(uploads, servers)
  {
    if servers == [] then 0
    else
      var last := |servers| - 1;
      ServersLeft(n, uploads[..last], servers[..last]) + ServerLeft(n, |uploads[last]|, servers[last])
  }

  /** A bound on the steps that can still be taken. */
  function StepsLeft(c: Config, s: State): nat
    requires Sized(c.uploads, s.servers)
  {
    CreationLeft(c.n, s.creation) + (if s.asked then |s.queries| else c.n + 1) + ServersLeft(c.n, c.uploads, s.servers)
  }

  lemma InvSized(c: Config, s: State)
    requires Good(c) && Inv(c, s)
    ensures Sized(c.uploads, s.servers)
  {
    forall i | 0 <= i < c.n ensures s.servers[i].stored <= |c.uploads[i]| {
      assert LoadInv(|c.expected[i]|, |c.uploads[i]|, s.servers[i]);
    }
  }

  lemma CreationDecreases(c: Config, cr: Creation, step: CreationStep)
    requires Good(c) && CreationInv(c, cr) && CreationEnabled(c, cr, step)
    ensures CreationLeft(c.n, CreationApply(c, cr, step)) < CreationLeft(c.n, cr)
  {
  }

  lemma ServerDecreases(n: nat, uploads: nat, v: Server, act: ServerStep)
    requires n > 0 && v.stored <= uploads && ServerEnabled(uploads, v, act)
    ensures ServerApply(n, uploads, v, act).stored <= uploads
    ensures ServerLeft(n, uploads, ServerApply(n, uploads, v, act)) < ServerLeft(n, uploads, v)
  {
  }

  /** Replacing one record changes the total by the change of that record. */
  lemma {:induction false} ReplacedLeft(n: nat, uploads: seq<seq<nat>>, servers: seq<Server>, i: nat, v: Server)
    requires Sized(uploads, servers) && i < |servers| && v.stored <= |uploads[i]|
    ensures Sized(uploads, servers[i := v])
    ensures ServersLeft(n, uploads, servers[i := v]) + ServerLeft(n, |uploads[i]|, servers[i])
            == ServersLeft(n, uploads, servers) + ServerLeft(n, |uploads[i]|, v)
    decreases |servers|
  {
    var last := |servers| - 1;
    if i == last {
      assert servers[i := v][..last] == servers[..last];
    } else {
      assert servers[i := v][..last] == servers[..last][i := v];
      ReplacedLeft(n, uploads[..last], servers[..last], i, v);
    }
  }

  /** One more message to each other server is two more steps for each. */
  lemma {:induction false} SentLeft(n: nat, uploads: seq<seq<nat>>, servers: seq<Server>, sent: seq<Server>, i: nat)
    requires Sized(uploads, servers) && |sent| == |servers|
    requires forall j :: 0 <= j < |servers| ==> sent[j] == servers[j] || sent[j] == servers[j].(ddtFlight := servers[j].ddtFlight + {i})
    ensures Sized(uploads, sent)
    ensures ServersLeft(n, uploads, sent) <= ServersLeft(n, uploads, servers) + 2 * |servers|
    decreases |servers|
  {
    if servers != [] {
      var last := |servers| - 1;
      SentLeft(n, uploads[..last], servers[..last], sent[..last], i);
      MessageLeft(n, |uploads[last]|, servers[last], i);
    }
  }

  lemma MessageLeft(n: nat, uploads: nat, v: Server, i: nat)
    requires v.stored <= uploads
    ensures ServerLeft(n, uploads, v.(ddtFlight := v.ddtFlight + {i})) <= ServerLeft(n, uploads, v) + 2
  {
    assert |v.ddtFlight + {i}| <= |v.ddtFlight| + 1;
  }

  lemma AnnouncedLeft(n: nat, uploads: seq<seq<nat>>, servers: seq<Server>, i: nat)
    requires Sized(uploads, servers) && |servers| == n && i < n && servers[i].phase == Tagged
    ensures var sent := SendOthers(servers[i := servers[i].(phase := Announced)], i);
            Sized(uploads, sent) && ServersLeft(n, uploads, sent) < ServersLeft(n, uploads, servers)
  {
    var v := servers[i].(phase := Announced);
    ReplacedLeft(n, uploads, servers, i, v);
    SentLeft(n, uploads, servers[i := v], SendOthers(servers[i := v], i), i);
  }

  lemma AskDecreases(c: Config, s: State, i: nat)
    requires Good(c) && Sized(c.uploads, s.servers) && i < c.n && s.servers[i].phase == Idle
    ensures Sized(c.uploads, Ask(c, s.servers, i))
    ensures ServersLeft(c.n, c.uploads, Ask(c, s.servers, i)) == ServersLeft(c.n, c.uploads, s.servers)
  {
    ReplacedLeft(c.n, c.uploads, s.servers, i, s.servers[i].(phase := Loading(|c.expected[i]|)));
  }

  /** Every step brings the run closer to its end. */
  lemma StepDecreases(c: Config, s: State, step: Step)
    requires Good(c) && Inv(c, s) && Enabled(c, s, step)
    ensures Sized(c.uploads, s.servers) && Sized(c.uploads, Apply(c, s, step).servers)
    ensures StepsLeft(c, Apply(c, s, step)) < StepsLeft(c, s)
  {
    InvSized(c, s);
    match step
    case Creating(act) => CreationDecreases(c, s.creation, act);
    case AskResults =>
      AskQueries(c, s, step);
      AskDecreases(c, s, c.root);
    case HandleResultsQuery(i) =>
      AskQueries(c, s, step);
      AskDecreases(c, s, i);
    case Announce(i) => AnnouncedLeft(c.n, c.uploads, s.servers, i);
    case Local(i, act) =>
      ServerDecreases(c.n, |c.uploads[i]|, s.servers[i], act);
      ReplacedLeft(c.n, c.uploads, s.servers, i, ServerApply(c.n, |c.uploads[i]|, s.servers[i], act));
  }

  /** The uploads of all servers. */
  function UploadCount(uploads: seq<seq<nat>>): nat {
    if uploads == [] then 0 else UploadCount(uploads[..|uploads| - 1]) + |uploads[|uploads| - 1]|
  }

  /** The number of steps no run exceeds. */
  function MostSteps(c: Config): nat {
    4 * c.n + 3 + 2 * UploadCount(c.uploads) + c.n * (2 * c.n + 5)
  }

  lemma {:induction false} BlankLeft(n: nat, uploads: seq<seq<nat>>, servers: seq<Server>)
    requires |uploads| == |servers| && forall i :: 0 <= i < |servers| ==> servers[i] == BLANK
    ensures ServersLeft(n, uploads, servers) == 2 * UploadCount(uploads) + |servers| * (2 * n + 5)
    decreases |servers|
  {
    if servers != [] {
      var last := |servers| - 1;
      BlankLeft(n, uploads[..last], servers[..last]);
      assert |servers| * (2 * n + 5) == last * (2 * n + 5) + (2 * n + 5);
    }
  }

  lemma InitLeft(c: Config)
    requires Good(c)
    ensures Sized(c.uploads, Init(c).servers) && StepsLeft(c, Init(c)) == MostSteps(c)
  {
    BlankLeft(c.n, c.uploads, Init(c).servers);
  }

  lemma TakesDecreases(c: Config, s: State, step: Step, s': State)
    requires Good(c) && Inv(c, s) && Takes(c, s, step, s')
    ensures Sized(c.uploads, s.servers) && Sized(c.uploads, s'.servers)
    ensures StepsLeft(c, s') < StepsLeft(c, s)
  {
    StepDecreases(c, s, step);
  }

  ghost predicate LeftBy(c: Config, s: State, bound: int) {
    Sized(c.uploads, s.servers) && StepsLeft(c, s) <= bound
  }

  lemma TakesLeft(c: Config, s: State, step: Step, s': State, bound: int)
    requires Good(c) && Inv(c, s) && Takes(c, s, step, s') && LeftBy(c, s, bound)
    ensures LeftBy(c, s', bound - 1)
  {
    TakesDecreases(c, s, step, s');
  }

  lemma {:induction false} RunLeft(c: Config, steps: seq<Step>, states: seq<State>, i: nat, most: nat)
    requires Good(c) && Run(c, steps, states) && i < |states| && LeftBy(c, Init(c), most)
    ensures LeftBy(c, states[i], most - i)
    decreases i
  {
    if i > 0 {
      RunLeft(c, steps, states, i - 1, most);
      RunInv(c, steps, states, i - 1);
      assert Takes(c, states[i - 1], steps[i - 1], states[i]);
      TakesLeft(c, states[i - 1], steps[i - 1], states[i], most - (i - 1));
    }
  }

  /** Every run ends: whatever the scheduler does, it takes no more than this many steps. */
  lemma RunsEnd(c: Config, steps: seq<Step>, states: seq<State>)
    requires Good(c) && Run(c, steps, states)
    ensures |steps| <= MostSteps(c)
  {
    InitLeft(c);
    RunLeft(c, steps, states, |steps|, MostSteps(c));
  }

  // ---------- what can be done next ----------

  predicate Complete(c: Config, s: State)
    requires |s.servers| == c.n
  {
    forall i :: 0 <= i < c.n ==> s.servers[i].collecting == Launched
  }

  ghost predicate CanMove(c: Config, s: State)
    requires Good(c) && |s.servers| == c.n
  {
    exists step :: Enabled(c, s, step)
  }

  lemma CreationMoves(c: Config, cr: Creation) returns (step: CreationStep)
    requires Good(c) && CreationInv(c, cr) && !cr.returned
    ensures CreationEnabled(c, cr, step)
  {
    if !cr.started {
      step := Create;
    } else if cr.counter == 0 {
      step := Return;
    } else if cr.channel != {} {
      HasMember(cr.channel);
      var j :| j in cr.channel;
      step := TakeConfirmation(j);
    } else if cr.confirmations != {} {
      HasMember(cr.confirmations);
      var j :| j in cr.confirmations;
      step := HandleConfirmation(j);
    } else {
      SomeLeft(Others(c.n, c.creator), cr.queries, cr.confirmations, cr.channel, cr.taken);
      HasMember(cr.queries);
      var j :| j in cr.queries;
      step := HandleCreation(j);
    }
  }

  /** Every server will receive at least as many uploads as it expects data providers. */
  predicate Enough(c: Config)
    requires Good(c)
  {
    forall i :: 0 <= i < c.n ==> |c.expected[i]| <= |c.uploads[i]|
  }

  /** A server that was asked and has not tagged yet can go on, or an upload can be stored. */
  lemma LoadMoves(expected: nat, uploads: nat, v: Server) returns (act: ServerStep)
    requires LoadInv(expected, uploads, v) && expected <= uploads && (v.phase.Loading? || v.phase == Shuffling)
    ensures ServerEnabled(uploads, v, act) && !act.Pull?
  {
    if v.phase == Shuffling {
      act := FinishTagging;
    } else if v.phase.counter == 0 {
      act := StartShuffling;
    } else if v.dpChannel > 0 {
      act := TakeUpload;
    } else {
      act := Upload;
    }
  }

  /** A node whose turn has come can be moved on. */
  lemma CollectMoves(n: nat, i: nat, uploads: nat, v: Server, announced: set<nat>) returns (act: ServerStep)
    requires DDTInv(n, i, v, announced) && i < n && announced == Below(n) && v.collecting != Launched
    ensures ServerEnabled(uploads, v, act) && !act.Upload?
  {
    if v.collecting == NotStarted {
      act := Pull;
    } else if v.collecting.counter == 0 {
      act := Launch;
    } else if v.ddtChannel != {} {
      HasMember(v.ddtChannel);
      var j :| j in v.ddtChannel;
      act := TakeAnnouncement(j);
    } else {
      assert announced - {i} == Others(n, i);
      SomeLeft(announced - {i}, {}, v.ddtFlight, v.ddtChannel, v.ddtTaken);
      HasMember(v.ddtFlight);
      var j :| j in v.ddtFlight;
      act := HandleDDTfinished(j);
    }
  }

  lemma NodeMoves(c: Config, s: State, i: nat)
    requires Good(c) && Inv(c, s) && i < c.n && s.servers[i].collecting != Launched
    requires AnnouncedSet(s.servers) == Below(c.n)
    requires i == c.root || s.servers[c.parent[i]].collecting == Launched
    ensures CanMove(c, s)
  {
    assert DDTInv(c.n, i, s.servers[i], AnnouncedSet(s.servers));
    var act := CollectMoves(c.n, i, |c.uploads[i]|, s.servers[i], AnnouncedSet(s.servers));
    assert Enabled(c, s, Local(i, act));
  }

  /** Climb to the highest node that has not launched. */
  lemma {:induction false} TreeMoves(c: Config, s: State, i: nat)
    requires Good(c) && Inv(c, s) && i < c.n && s.servers[i].collecting != Launched
    requires AnnouncedSet(s.servers) == Below(c.n)
    ensures CanMove(c, s)
    decreases c.rank[i]
  {
    if i == c.root || s.servers[c.parent[i]].collecting == Launched {
      NodeMoves(c, s, i);
    } else {
      TreeMoves(c, s, c.parent[i]);
    }
  }

  lemma ServerMoves(c: Config, s: State, i: nat)
    requires Good(c) && Inv(c, s) && Enough(c) && s.asked && i < c.n && s.servers[i].phase != Announced
    ensures CanMove(c, s)
  {
    if s.servers[i].phase == Idle {
      assert Enabled(c, s, HandleResultsQuery(i));
    } else if s.servers[i].phase == Tagged {
      assert Enabled(c, s, Announce(i));
    } else {
      assert LoadInv(|c.expected[i]|, |c.uploads[i]|, s.servers[i]);
      var act := LoadMoves(|c.expected[i]|, |c.uploads[i]|, s.servers[i]);
      assert Enabled(c, s, Local(i, act));
    }
  }

  lemma BeginningMoves(c: Config, s: State)
    requires Good(c) && |s.servers| == c.n && CreationInv(c, s.creation) && (!s.creation.returned || !s.asked)
    ensures CanMove(c, s)
  {
    if !s.creation.returned {
      var act := CreationMoves(c, s.creation);
      assert Enabled(c, s, Creating(act));
    } else {
      assert Enabled(c, s, AskResults);
    }
  }

  lemma EndMoves(c: Config, s: State, j: nat)
    requires Good(c) && Inv(c, s) && j < c.n && s.servers[j].collecting != Launched
    requires forall i :: 0 <= i < c.n ==> s.servers[i].phase == Announced
    ensures CanMove(c, s)
  {
    assert AnnouncedSet(s.servers) == Below(c.n);
    TreeMoves(c, s, j);
  }

  lemma AlwaysMoves(c: Config, s: State)
    requires Good(c) && Inv(c, s) && Enough(c) && !Complete(c, s)
    ensures CanMove(c, s)
  {
    if !s.creation.returned || !s.asked {
      BeginningMoves(c, s);
    } else if j :| 0 <= j < c.n && s.servers[j].phase != Announced {
      ServerMoves(c, s, j);
    } else {
      var j :| 0 <= j < c.n && s.servers[j].collecting != Launched;
      EndMoves(c, s, j);
    }
  }

  /** No deadlock: when enough uploads arrive, a run can always go on until every server has launched its part of the
      collective aggregation, whatever happened so far, however many servers there are and however often a full channel
      made a handler wait. */
  lemma NeverStuck(c: Config, s: State)
    requires Good(c) && Enough(c) && Reachable(c, s) && !Complete(c, s)
    ensures CanMove(c, s)
  {
    ReachableInv(c, s);
    AlwaysMoves(c, s);
  }

  // ---------- runs that go on ----------

  lemma InitReachable(c: Config)
    requires Good(c)
    ensures Reachable(c, Init(c))
  {
    var steps: seq<Step> := [];
    assert Run(c, steps, [Init(c)]);
  }

  lemma OneMoreStep(c: Config, steps: seq<Step>, states: seq<State>, step: Step, s': State)
    requires Good(c) && Run(c, steps, states) && Takes(c, states[|steps|], step, s')
    ensures Run(c, steps + [step], states + [s'])
  {
    var steps', states' := steps + [step], states + [s'];
    forall i | 0 <= i < |steps'| ensures Takes(c, states'[i], steps'[i], states'[i + 1]) {
      if i < |steps| {
        assert Takes(c, states[i], steps[i], states[i + 1]);
      }
    }
  }

  lemma ReachedBy(c: Config, steps: seq<Step>, states: seq<State>, s: State)
    requires Good(c) && Run(c, steps, states) && states[|steps|] == s && |s.servers| == c.n
    ensures Reachable(c, s)
  {
  }

  lemma ReachableTakes(c: Config, s: State, step: Step, s': State)
    requires Good(c) && Reachable(c, s) && Takes(c, s, step, s') && |s'.servers| == c.n
    ensures Reachable(c, s')
  {
    var steps, states :| Run(c, steps, states) && states[|steps|] == s;
    OneMoreStep(c, steps, states, step, s');
    assert (states + [s'])[|steps + [step]|] == s';
    ReachedBy(c, steps + [step], states + [s'], s');
  }

  lemma ReachableStep(c: Config, s: State, step: Step)
    requires Good(c) && Reachable(c, s) && Enabled(c, s, step)
    ensures Reachable(c, Apply(c, s, step))
  {
    ReachableInv(c, s);
    StepInv(c, s, step);
    ReachableTakes(c, s, step, Apply(c, s, step));
  }

  /** Any run can be extended until it cannot move. */
  lemma {:induction false} RunOn(c: Config, s: State) returns (last: State)
    requires Good(c) && Reachable(c, s) && Sized(c.uploads, s.servers)
    ensures Reachable(c, last) && !CanMove(c, last)
    decreases StepsLeft(c, s)
  {
    if CanMove(c, s) {
      var step :| Enabled(c, s, step);
      ReachableInv(c, s);
      StepDecreases(c, s, step);
      ReachableStep(c, s, step);
      last := RunOn(c, Apply(c, s, step));
    } else {
      last := s;
    }
  }

  /** A server that has launched its part has stored as many uploads as it expects. */
  lemma CompleteEnough(c: Config, s: State)
    requires Good(c) && Reachable(c, s) && Complete(c, s)
    ensures Enough(c)
  {
    ReachableInv(c, s);
    LaunchedMeansAll(c, s, c.root);
    forall i | 0 <= i < c.n ensures |c.expected[i]| <= |c.uploads[i]| {
      assert LoadInv(|c.expected[i]|, |c.uploads[i]|, s.servers[i]);
    }
  }

  /** Every maximal run is complete exactly when every server receives at least as many uploads as it expects data
      providers. */
  lemma MaximalRunsCompleteIff(c: Config)
    requires Good(c)
    ensures (forall s :: Reachable(c, s) && !CanMove(c, s) ==> Complete(c, s)) <==> Enough(c)
  {
    if Enough(c) {
      forall s | Reachable(c, s) && !CanMove(c, s) ensures Complete(c, s) {
        if !Complete(c, s) {
          NeverStuck(c, s);
        }
      }
    } else {
      InitReachable(c);
      InitInv(c);
      InvSized(c, Init(c));
      var last := RunOn(c, Init(c));
      if Complete(c, last) {
        CompleteEnough(c, last);
      }
    }
  }

  // ---------- when the upload barrier opens too early ----------

  /** Creation can always be finished before anything else happens. */
  lemma {:induction false} FinishCreation(c: Config, s: State) returns (s': State)
    requires Good(c) && Reachable(c, s) && !s.asked && s.servers == Init(c).servers
    ensures Reachable(c, s') && s'.creation.returned && !s'.asked && s'.servers == Init(c).servers
    decreases CreationLeft(c.n, s.creation)
  {
    ReachableInv(c, s);
    if s.creation.returned {
      s' := s;
    } else {
      var act := CreationMoves(c, s.creation);
      CreationDecreases(c, s.creation, act);
      assert Enabled(c, s, Creating(act));
      ReachableStep(c, s, Creating(act));
      s' := FinishCreation(c, Apply(c, s, Creating(act)));
    }
  }

  /** The results query can reach a server before any upload. */
  lemma AskServer(c: Config, s: State, at: nat) returns (s': State)
    requires Good(c) && Reachable(c, s) && s.creation.returned && !s.asked && s.servers == Init(c).servers && at < c.n
    ensures Reachable(c, s') && s'.creation.returned && s'.servers[at] == BLANK.(phase := Loading(|c.expected[at]|))
  {
    ReachableStep(c, s, AskResults);
    s' := Apply(c, s, AskResults);
    if at != c.root {
      assert Enabled(c, s', HandleResultsQuery(at));
      ReachableStep(c, s', HandleResultsQuery(at));
      s' := Apply(c, s', HandleResultsQuery(at));
    }
  }

  /** Uploads can then be stored and counted one by one. */
  lemma {:induction false} LoadAll(c: Config, s: State, at: nat, k: nat) returns (s': State)
    requires Good(c) && Reachable(c, s) && s.creation.returned && at < c.n
    requires |c.expected[at]| <= |c.uploads[at]| && k <= |c.expected[at]|
    requires s.servers[at] == BLANK.(stored := |c.expected[at]| - k, phase := Loading(k))
    ensures Reachable(c, s') && s'.servers[at].stored == |c.expected[at]| && s'.servers[at].phase == Loading(0)
    decreases k
  {
    if k == 0 {
      s' := s;
    } else {
      assert Enabled(c, s, Local(at, Upload));
      ReachableStep(c, s, Local(at, Upload));
      var s1 := Apply(c, s, Local(at, Upload));
      assert Enabled(c, s1, Local(at, TakeUpload));
      ReachableStep(c, s1, Local(at, TakeUpload));
      s' := LoadAll(c, Apply(c, s1, Local(at, TakeUpload)), at, k - 1);
    }
  }

  /** A run in which a server may shuffle with exactly the first expected uploads stored. */
  lemma EarliestOpening(c: Config, at: nat) returns (s: State)
    requires Good(c) && at < c.n && |c.expected[at]| <= |c.uploads[at]|
    ensures Reachable(c, s) && Enabled(c, s, Local(at, StartShuffling)) && s.servers[at].stored == |c.expected[at]|
  {
    InitReachable(c);
    s := FinishCreation(c, Init(c));
    s := AskServer(c, s, at);
    s := LoadAll(c, s, at, |c.expected[at]|);
  }

  /** Every run keeps the barrier of a server closed until the rows of all data providers it expects are stored, exactly
      when the first uploads to arrive there, as many as it expects data providers, cover them: the tokens are counted
      whoever sent them. (With fewer uploads the barrier never opens.) */
  lemma UploadBarrierIff(c: Config, at: nat)
    requires Good(c) && at < c.n
    ensures (forall s :: Reachable(c, s) && Enabled(c, s, Local(at, StartShuffling)) ==> c.expected[at] <= StoredFrom(c, s, at))
            <==> (|c.expected[at]| <= |c.uploads[at]| ==> Covers(c.uploads[at][..|c.expected[at]|], c.expected[at]))
  {
    forall s | Reachable(c, s) && Enabled(c, s, Local(at, StartShuffling))
      ensures |c.expected[at]| <= |c.uploads[at]|
      ensures Covers(c.uploads[at][..|c.expected[at]|], c.expected[at]) ==> c.expected[at] <= StoredFrom(c, s, at)
    {
      UploadBarrier(c, s, at);
    }
    if |c.expected[at]| <= |c.uploads[at]| {
      var s := EarliestOpening(c, at);
      if c.expected[at] <= StoredFrom(c, s, at) {
        StoredCovers(c, s, at);
      }
    }
  }

  lemma StoredCovers(c: Config, s: State, at: nat)
    requires at < |c.uploads| && at < |c.expected| && at < |s.servers|
    requires s.servers[at].stored == |c.expected[at]| <= |c.uploads[at]| && c.expected[at] <= StoredFrom(c, s, at)
    ensures Covers(c.uploads[at][..|c.expected[at]|], c.expected[at])
  {
    var arrived := c.uploads[at];
    forall dp | dp in c.expected[at] ensures dp in arrived[..|c.expected[at]|] {
      assert dp in StoredFrom(c, s, at);
      var i :| 0 <= i < |arrived| && i < s.servers[at].stored && arrived[i] == dp;
      assert arrived[..|c.expected[at]|][i] == dp;
    }
  }

  predicate NoRepeat(arrived: seq<nat>) {
    forall i, j :: 0 <= i < j < |arrived| ==> arrived[i] != arrived[j]
  }

  function SetOf(arrived: seq<nat>): set<nat> {
    set i | 0 <= i < |arrived| :: arrived[i]
  }

  lemma {:induction false} SetSize(arrived: seq<nat>)
    ensures |SetOf(arrived)| <= |arrived|
    ensures |SetOf(arrived)| == |arrived| <==> NoRepeat(arrived)
  {
    if arrived != [] {
      var n := |arrived| - 1;
      var last := arrived[n];
      SetSize(arrived[..n]);
      assert SetOf(arrived) == SetOf(arrived[..n]) + {last};
      if last in SetOf(arrived[..n]) {
        var i :| 0 <= i < n && arrived[..n][i] == last;
        assert arrived[i] == arrived[n];
        assert SetOf(arrived) == SetOf(arrived[..n]);
      } else {
        RepeatLast(arrived);
      }
    }
  }

  lemma RepeatLast(arrived: seq<nat>)
    requires arrived != [] && arrived[|arrived| - 1] !in SetOf(arrived[..|arrived| - 1])
    ensures NoRepeat(arrived) <==> NoRepeat(arrived[..|arrived| - 1])
  {
    var n := |arrived| - 1;
    if NoRepeat(arrived[..n]) {
      forall i, j | 0 <= i < j < |arrived| ensures arrived[i] != arrived[j] {
        assert arrived[i] == arrived[..n][i];
        if j < n {
          assert arrived[j] == arrived[..n][j];
        } else {
          assert arrived[..n][i] in SetOf(arrived[..n]);
        }
      }
    } else {
      var i, j :| 0 <= i < j < n && arrived[..n][i] == arrived[..n][j];
      assert arrived[i] == arrived[j];
    }
  }

  /** As many uploads as there are expected data providers cover them exactly when none is repeated and none unexpected. */
  lemma CoversIff(arrived: seq<nat>, expected: set<nat>)
    requires |arrived| == |expected|
    ensures Covers(arrived, expected) <==> NoRepeat(arrived) && forall i :: 0 <= i < |arrived| ==> arrived[i] in expected
  {
    SetSize(arrived);
    if Covers(arrived, expected) {
      forall dp | dp in expected ensures dp in SetOf(arrived) {
      }
      AllTaken(expected, SetOf(arrived));
      forall i | 0 <= i < |arrived| ensures arrived[i] in expected {
        assert arrived[i] in SetOf(arrived);
      }
    }
    if NoRepeat(arrived) && forall i :: 0 <= i < |arrived| ==> arrived[i] in expected {
      AllTaken(SetOf(arrived), expected);
      forall dp | dp in expected ensures dp in arrived {
        assert dp in SetOf(arrived);
      }
    }
  }
}
