/** The run of one survey as a transition system: the three counting barriers built on channels, under any interleaving
    of the servers' atomic handlers (services/service.go). The tokens of creation and tagging are told apart by who sent
    them, for the proofs only: a server that takes one learns nothing but that there is one less to wait for. The tokens of
    uploads are anonymous. */
module Barriers {
  import opened Sets
  import opened Options

  const CAPACITY := 100

  /** The roster, the server the survey is created at, the root that is asked for the results, the data providers each
      server is told to expect and those whose messages will arrive there, one after the other, whoever sends and however
      often; and the aggregation tree by parents, with ranks growing downwards. */
  datatype Config = Config(n: nat, creator: nat, root: nat, expected: seq<set<nat>>, uploads: seq<seq<nat>>, parent: seq<nat>, rank: seq<nat>)

  predicate Good(c: Config) {
    && c.creator < c.n && c.root < c.n && |c.expected| == |c.uploads| == |c.parent| == |c.rank| == c.n
    && forall i :: 0 <= i < c.n && i != c.root ==> c.parent[i] < c.n && c.rank[c.parent[i]] < c.rank[i]
  }

  /** Creation: who holds the survey, broadcasts and confirmations in flight, SurveyChannel, the tokens taken out of it,
      how many are still waited for, and whether the creation has returned to the client. */
  datatype Creation = Creation(started: bool, holds: set<nat>, queries: set<nat>, confirmations: set<nat>,
                               channel: set<nat>, taken: set<nat>, counter: nat, returned: bool)

  datatype Phase = Idle | Loading(counter: nat) | Shuffling | Tagged | Announced

  datatype Collecting = NotStarted | Pulled(counter: nat) | Launched

  /** One server: how many uploads are stored, the tokens in DpChannel, the phase of StartService, DDTfinished messages on
      their way, DDTChannel and what was taken from it, and its part in the collective aggregation. */
  datatype Server = Server(stored: nat, dpChannel: nat, phase: Phase,
                           ddtFlight: set<nat>, ddtChannel: set<nat>, ddtTaken: set<nat>, collecting: Collecting)

  /** asked: the results query was sent; queries: its copies still on their way to the other servers. */
  datatype State = State(creation: Creation, asked: bool, queries: set<nat>, servers: seq<Server>)

  function Below(n: nat): (s: set<nat>)
    ensures forall i: nat :: i in s <==> i < n
    ensures |s| == n
  {
    if n == 0 then {} else
      assert Below(n - 1) * {n - 1} == {};
      Below(n - 1) + {n - 1}
  }

  function Others(n: nat, i: nat): (s: set<nat>)
    requires i < n
    ensures forall j: nat :: j in s <==> j < n && j != i
    ensures |s| == n - 1
  {
    Below(n) - {i}
  }

  const BLANK := Server(0, 0, Idle, {}, {}, {}, NotStarted)

  function Init(c: Config): (s: State)
    ensures |s.servers| == c.n && forall i :: 0 <= i < c.n ==> s.servers[i] == BLANK
  {
    State(Creation(false, {}, {}, {}, {}, {}, 0, false), false, {}, seq(c.n, _ => BLANK))
  }

  // ---------- steps ----------

  datatype CreationStep =
    | Create
    | HandleCreation(at: nat)
    | HandleConfirmation(src: nat)
    | TakeConfirmation(src: nat)
    | Return

  datatype ServerStep =
    | Upload
    | TakeUpload
    | StartShuffling
    | FinishTagging
    | Pull
    | HandleDDTfinished(src: nat)
    | TakeAnnouncement(src: nat)
    | Launch

  datatype Step =
    | Creating(step: CreationStep)
    | AskResults
    | HandleResultsQuery(at: nat)
    | Local(at: nat, act: ServerStep)
    | Announce(at: nat)

  /** A handler that has to send on a full channel blocks. */
  predicate CreationEnabled(c: Config, cr: Creation, step: CreationStep) {
    match step
    case Create => !cr.started
    case HandleCreation(j) => j in cr.queries
    case HandleConfirmation(j) => j in cr.confirmations && |cr.channel| < CAPACITY
    case TakeConfirmation(j) => cr.started && j in cr.channel && cr.counter > 0
    case Return => cr.started && cr.counter == 0 && !cr.returned
  }

  function CreationApply(c: Config, cr: Creation, step: CreationStep): Creation
    requires Good(c) && CreationEnabled(c, cr, step)
  {
    match step
    case Create => Creation(true, {c.creator}, Others(c.n, c.creator), {}, {}, {}, c.n - 1, false)
    case HandleCreation(j) => cr.(queries := cr.queries - {j}, holds := cr.holds + {j}, confirmations := cr.confirmations + {j})
    case HandleConfirmation(j) => cr.(confirmations := cr.confirmations - {j}, channel := cr.channel + {j})
    case TakeConfirmation(j) => cr.(channel := cr.channel - {j}, taken := cr.taken + {j}, counter := cr.counter - 1)
    case Return => cr.(returned := true)
  }

  /** What a server can do on its own record, when so many uploads arrive in all. */
  predicate ServerEnabled(uploads: nat, v: Server, step: ServerStep) {
    match step
    case Upload => v.stored < uploads && v.dpChannel < CAPACITY
    case TakeUpload => v.phase.Loading? && v.phase.counter > 0 && v.dpChannel > 0
    case StartShuffling => v.phase == Loading(0)
    case FinishTagging => v.phase == Shuffling
    case Pull => v.collecting == NotStarted
    case HandleDDTfinished(j) => j in v.ddtFlight && |v.ddtChannel| < CAPACITY
    case TakeAnnouncement(j) => v.collecting.Pulled? && v.collecting.counter > 0 && j in v.ddtChannel
    case Launch => v.collecting == Pulled(0)
  }

  function ServerApply(n: nat, uploads: nat, v: Server, step: ServerStep): Server
    requires n > 0 && ServerEnabled(uploads, v, step)
  {
    match step
    case Upload => v.(stored := v.stored + 1, dpChannel := v.dpChannel + 1)
    case TakeUpload => v.(dpChannel := v.dpChannel - 1, phase := Loading(v.phase.counter - 1))
    case StartShuffling => v.(phase := Shuffling)
    case FinishTagging => v.(phase := Tagged)
    case Pull => v.(collecting := Pulled(n - 1))
    case HandleDDTfinished(j) => v.(ddtFlight := v.ddtFlight - {j}, ddtChannel := v.ddtChannel + {j})
    case TakeAnnouncement(j) => v.(ddtChannel := v.ddtChannel - {j}, ddtTaken := v.ddtTaken + {j}, collecting := Pulled(v.collecting.counter - 1))
    case Launch => v.(collecting := Launched)
  }

  /** Uploads come after the survey identifier was returned. The root pulls after its own announcement; any other node when
      the first message of the aggregation protocol reaches it, which its parent sends once it has launched. */
  predicate Enabled(c: Config, s: State, step: Step)
    requires Good(c) && |s.servers| == c.n
  {
    match step
    case Creating(act) => CreationEnabled(c, s.creation, act)
    case AskResults => s.creation.returned && !s.asked
    case HandleResultsQuery(i) => i in s.queries && i < c.n
    case Announce(i) => i < c.n && s.servers[i].phase == Tagged
    case Local(i, act) =>
      && i < c.n && ServerEnabled(|c.uploads[i]|, s.servers[i], act)
      && (act.Upload? ==> s.creation.returned)
      && (act.Pull? ==> if i == c.root then s.servers[i].phase == Announced else s.servers[c.parent[i]].collecting == Launched)
  }

  /** A message to every other server. */
  function SendOthers(servers: seq<Server>, i: nat): (r: seq<Server>)
    ensures |r| == |servers|
    ensures forall j :: 0 <= j < |servers| ==>
      r[j] == if j == i then servers[j] else servers[j].(ddtFlight := servers[j].ddtFlight + {i})
  {
    seq(|servers|, j requires 0 <= j < |servers| => if j == i then servers[j] else servers[j].(ddtFlight := servers[j].ddtFlight + {i}))
  }

  function Ask(c: Config, servers: seq<Server>, i: nat): seq<Server>
    requires Good(c) && |servers| == c.n && i < c.n
  {
    servers[i := servers[i].(phase := Loading(|c.expected[i]|))]
  }

  function Apply(c: Config, s: State, step: Step): State
    requires Good(c) && |s.servers| == c.n && Enabled(c, s, step)
  {
    match step
    case Creating(act) => s.(creation := CreationApply(c, s.creation, act))
    case AskResults => s.(asked := true, queries := Others(c.n, c.root), servers := Ask(c, s.servers, c.root))
    case HandleResultsQuery(i) => s.(queries := s.queries - {i}, servers := Ask(c, s.servers, i))
    case Announce(i) => s.(servers := SendOthers(s.servers[i := s.servers[i].(phase := Announced)], i))
    case Local(i, act) => s.(servers := s.servers[i := ServerApply(c.n, |c.uploads[i]|, s.servers[i], act)])
  }

  // ---------- tokens on their way ----------

  /** Every member of the whole is at exactly one of four stations. */
  ghost predicate Spread(whole: set<nat>, a: set<nat>, b: set<nat>, d: set<nat>, e: set<nat>) {
    && (forall j :: j in whole <==> j in a || j in b || j in d || j in e)
    && (forall j :: j in a ==> j !in b && j !in d && j !in e)
    && (forall j :: j in b ==> j !in d && j !in e)
    && (forall j :: j in d ==> j !in e)
  }

  lemma MoveOn(whole: set<nat>, a: set<nat>, b: set<nat>, d: set<nat>, e: set<nat>, j: nat)
    requires Spread(whole, a, b, d, e)
    ensures j in a ==> Spread(whole, a - {j}, b + {j}, d, e)
    ensures j in b ==> Spread(whole, a, b - {j}, d + {j}, e)
    ensures j in d ==> Spread(whole, a, b, d - {j}, e + {j}) && |e + {j}| == |e| + 1
  {
  }

  lemma Enter(whole: set<nat>, a: set<nat>, b: set<nat>, d: set<nat>, e: set<nat>, j: nat)
    requires Spread(whole, a, b, d, e) && j !in whole
    ensures Spread(whole + {j}, a, b + {j}, d, e) && Spread(whole + {j}, a, b, d + {j}, e)
  {
  }

  lemma AllTaken(part: set<nat>, whole: set<nat>)
    requires (forall j :: j in part ==> j in whole) && |whole| <= |part|
    ensures part == whole
  {
    assert part <= whole;
    assert whole == part + (whole - part);
    assert |part + (whole - part)| == |part| + |whole - part|;
  }

  /** When as many tokens were taken as there are senders, nothing is left elsewhere. */
  lemma AllArrived(whole: set<nat>, a: set<nat>, b: set<nat>, d: set<nat>, e: set<nat>)
    requires Spread(whole, a, b, d, e) && |e| == |whole|
    ensures e == whole && a == {} && b == {} && d == {}
  {
    AllTaken(e, whole);
    NoMembers(a);
    NoMembers(b);
    NoMembers(d);
  }

  lemma NotAll(part: set<nat>, whole: set<nat>)
    requires (forall j :: j in part ==> j in whole) && |part| < |whole|
    ensures exists j :: j in whole && j !in part
  {
    assert part <= whole;
    assert whole == part + (whole - part);
    assert |part + (whole - part)| == |part| + |whole - part|;
    assert |whole - part| > 0;
    HasMember(whole - part);
    var j :| j in whole - part;
    assert j in whole && j !in part;
  }

  /** As long as a token is missing, there is one somewhere before. */
  lemma SomeLeft(whole: set<nat>, a: set<nat>, b: set<nat>, d: set<nat>, e: set<nat>)
    requires Spread(whole, a, b, d, e) && |e| < |whole|
    ensures a != {} || b != {} || d != {}
  {
    NotAll(e, whole);
    var j :| j in whole && j !in e;
    assert j in a || j in b || j in d;
  }

  // ---------- the invariant ----------

  /** Creation barrier. */
  ghost predicate CreationInv(c: Config, cr: Creation)
    requires Good(c)
  {
    if !cr.started then cr == Creation(false, {}, {}, {}, {}, {}, 0, false)
    else
      && Spread(Others(c.n, c.creator), cr.queries, cr.confirmations, cr.channel, cr.taken)
      && (forall j: nat :: j in cr.holds <==> j < c.n && j !in cr.queries)
      && |cr.taken| + cr.counter == c.n - 1
      && (cr.returned ==> cr.counter == 0)
  }

  /** Every stored upload is counted once: it is in the channel or was taken out of it. */
  ghost predicate LoadInv(expected: nat, uploads: nat, v: Server) {
    && v.stored <= uploads
    && match v.phase
       case Idle => v.stored == v.dpChannel
       case Loading(k) => k <= expected && v.stored + k == v.dpChannel + expected
       case _ => v.stored == v.dpChannel + expected
  }

  /** Server i has been told of exactly the other servers that announced the end of their tagging. */
  ghost predicate DDTInv(n: nat, i: nat, v: Server, announced: set<nat>) {
    && Spread(announced - {i}, {}, v.ddtFlight, v.ddtChannel, v.ddtTaken)
    && match v.collecting
       case NotStarted => v.ddtTaken == {}
       case Pulled(k) => |v.ddtTaken| + k + 1 == n && i in announced
       case Launched => |v.ddtTaken| + 1 == n && i in announced
  }

  function AnnouncedSet(servers: seq<Server>): (a: set<nat>)
    ensures forall i :: i in a <==> 0 <= i < |servers| && servers[i].phase == Announced
  {
    if servers == [] then {}
    else
      AnnouncedSet(servers[..|servers| - 1]) + (if servers[|servers| - 1].phase == Announced then {|servers| - 1} else {})
  }

  /** A server is idle until the results query reaches it. */
  ghost predicate QueryInv(n: nat, s: State) {
    && (s.asked ==> s.creation.returned)
    && (forall i :: i in s.queries ==> i < n && s.asked)
    && (forall i :: 0 <= i < |s.servers| ==> (s.servers[i].phase == Idle <==> !s.asked || i in s.queries))
  }

  ghost predicate AllLoad(c: Config, servers: seq<Server>)
    requires Good(c) && |servers| == c.n
  {
    forall i :: 0 <= i < c.n ==> LoadInv(|c.expected[i]|, |c.uploads[i]|, servers[i])
  }

  ghost predicate AllDDT(servers: seq<Server>, announced: set<nat>) {
    forall i :: 0 <= i < |servers| ==> DDTInv(|servers|, i, servers[i], announced)
  }

  ghost predicate Inv(c: Config, s: State)
    requires Good(c)
  {
    && |s.servers| == c.n && CreationInv(c, s.creation) && QueryInv(c.n, s)
    && AllLoad(c, s.servers) && AllDDT(s.servers, AnnouncedSet(s.servers))
  }

  lemma InitInv(c: Config)
    requires Good(c)
    ensures Inv(c, Init(c))
  {
    assert AnnouncedSet(Init(c).servers) == {};
  }

  lemma CreationKept(c: Config, cr: Creation, step: CreationStep)
    requires Good(c) && CreationInv(c, cr) && CreationEnabled(c, cr, step)
    ensures CreationInv(c, CreationApply(c, cr, step))
  {
    if cr.started && !step.Create? && !step.Return? {
      var j := if step.HandleCreation? then step.at else step.src;
      MoveOn(Others(c.n, c.creator), cr.queries, cr.confirmations, cr.channel, cr.taken, j);
    }
  }

  lemma LoadKept(n: nat, expected: nat, uploads: nat, v: Server, step: ServerStep)
    requires n > 0 && LoadInv(expected, uploads, v) && ServerEnabled(uploads, v, step)
    ensures LoadInv(expected, uploads, ServerApply(n, uploads, v, step))
  {
  }

  lemma DDTKept(n: nat, i: nat, uploads: nat, v: Server, announced: set<nat>, step: ServerStep)
    requires n > 0 && DDTInv(n, i, v, announced) && ServerEnabled(uploads, v, step) && (step.Pull? ==> i in announced)
    ensures DDTInv(n, i, ServerApply(n, uploads, v, step), announced)
  {
    match step
    case HandleDDTfinished(j) => MoveOn(announced - {i}, {}, v.ddtFlight, v.ddtChannel, v.ddtTaken, j);
    case TakeAnnouncement(j) => MoveOn(announced - {i}, {}, v.ddtFlight, v.ddtChannel, v.ddtTaken, j);
    case _ =>
  }

  /** The set of announced servers depends on the phases alone. */
  lemma SameAnnounced(a: seq<Server>, b: seq<Server>)
    requires |a| == |b| && forall i :: 0 <= i < |a| ==> (a[i].phase == Announced <==> b[i].phase == Announced)
    ensures AnnouncedSet(a) == AnnouncedSet(b)
  {
  }

  lemma ReplaceDDT(servers: seq<Server>, announced: set<nat>, i: nat, v: Server)
    requires i < |servers| && AllDDT(servers, announced) && DDTInv(|servers|, i, v, announced)
    ensures AllDDT(servers[i := v], announced)
  {
  }

  /** One server's record replaced, announcing nothing. */
  lemma ReplaceServer(c: Config, servers: seq<Server>, i: nat, v: Server)
    requires Good(c) && |servers| == c.n && i < c.n && AllLoad(c, servers) && AllDDT(servers, AnnouncedSet(servers))
    requires v.phase == Announced <==> servers[i].phase == Announced
    requires LoadInv(|c.expected[i]|, |c.uploads[i]|, v) && DDTInv(c.n, i, v, AnnouncedSet(servers))
    ensures AllLoad(c, servers[i := v]) && AllDDT(servers[i := v], AnnouncedSet(servers[i := v]))
  {
    SameAnnounced(servers, servers[i := v]);
    ReplaceDDT(servers, AnnouncedSet(servers), i, v);
  }

  lemma QueryKept(n: nat, s: State, i: nat, v: Server)
    requires QueryInv(n, s) && i < |s.servers| && (v.phase == Idle <==> s.servers[i].phase == Idle)
    ensures QueryInv(n, s.(servers := s.servers[i := v]))
  {
  }

  lemma LocalStep(c: Config, s: State, i: nat, act: ServerStep)
    requires Good(c) && Inv(c, s) && Enabled(c, s, Local(i, act))
    ensures Inv(c, Apply(c, s, Local(i, act)))
  {
    var v, announced := s.servers[i], AnnouncedSet(s.servers);
    assert LoadInv(|c.expected[i]|, |c.uploads[i]|, v) && DDTInv(c.n, i, v, announced);
    if act.Pull? && i != c.root {
      LaunchedMeansAll(c, s, c.parent[i]);
    }
    LoadKept(c.n, |c.expected[i]|, |c.uploads[i]|, v, act);
    DDTKept(c.n, i, |c.uploads[i]|, v, announced, act);
    ReplaceServer(c, s.servers, i, ServerApply(c.n, |c.uploads[i]|, v, act));
    QueryKept(c.n, s, i, ServerApply(c.n, |c.uploads[i]|, v, act));
  }

  /** A server that is asked starts to wait for all it expects. */
  lemma AskStep(c: Config, servers: seq<Server>, i: nat)
    requires Good(c) && |servers| == c.n && i < c.n && AllLoad(c, servers) && AllDDT(servers, AnnouncedSet(servers))
    requires servers[i].phase == Idle
    ensures AllLoad(c, Ask(c, servers, i)) && AllDDT(Ask(c, servers, i), AnnouncedSet(Ask(c, servers, i)))
  {
    assert LoadInv(|c.expected[i]|, |c.uploads[i]|, servers[i]) && DDTInv(c.n, i, servers[i], AnnouncedSet(servers));
    ReplaceServer(c, servers, i, servers[i].(phase := Loading(|c.expected[i]|)));
  }

  lemma AnnouncedOneMore(servers: seq<Server>, i: nat)
    requires i < |servers|
    ensures AnnouncedSet(SendOthers(servers[i := servers[i].(phase := Announced)], i)) == AnnouncedSet(servers) + {i}
  {
  }

  /** One server hears of one more announcement, which may be its own. */
  lemma Hears(n: nat, j: nat, v: Server, announced: set<nat>, i: nat)
    requires DDTInv(n, j, v, announced) && i !in announced
    ensures i != j ==> DDTInv(n, j, v.(ddtFlight := v.ddtFlight + {i}), announced + {i})
    ensures i == j ==> DDTInv(n, j, v.(phase := Announced), announced + {i})
  {
    if i != j {
      Enter(announced - {j}, {}, v.ddtFlight, v.ddtChannel, v.ddtTaken, i);
      assert announced + {i} - {j} == announced - {j} + {i};
    } else {
      assert announced + {i} - {j} == announced - {j};
    }
  }

  lemma AnnouncedServer(c: Config, servers: seq<Server>, i: nat, j: nat)
    requires Good(c) && |servers| == c.n && i < c.n && j < c.n
    requires LoadInv(|c.expected[j]|, |c.uploads[j]|, servers[j]) && DDTInv(c.n, j, servers[j], AnnouncedSet(servers)) && servers[i].phase == Tagged
    ensures var v := SendOthers(servers[i := servers[i].(phase := Announced)], i)[j];
            LoadInv(|c.expected[j]|, |c.uploads[j]|, v) && DDTInv(c.n, j, v, AnnouncedSet(servers) + {i})
  {
    Hears(c.n, j, servers[j], AnnouncedSet(servers), i);
  }

  lemma AnnounceAll(c: Config, servers: seq<Server>, i: nat)
    requires Good(c) && |servers| == c.n && i < c.n && servers[i].phase == Tagged
    requires AllLoad(c, servers) && AllDDT(servers, AnnouncedSet(servers))
    ensures var servers' := SendOthers(servers[i := servers[i].(phase := Announced)], i);
            AllLoad(c, servers') && AllDDT(servers', AnnouncedSet(servers) + {i})
  {
    var servers' := SendOthers(servers[i := servers[i].(phase := Announced)], i);
    forall j | 0 <= j < c.n ensures LoadInv(|c.expected[j]|, |c.uploads[j]|, servers'[j]) && DDTInv(c.n, j, servers'[j], AnnouncedSet(servers) + {i}) {
      assert LoadInv(|c.expected[j]|, |c.uploads[j]|, servers[j]) && DDTInv(c.n, j, servers[j], AnnouncedSet(servers));
      AnnouncedServer(c, servers, i, j);
    }
  }

  lemma AnnounceQueries(n: nat, s: State, i: nat)
    requires QueryInv(n, s) && i < |s.servers| && s.servers[i].phase == Tagged
    ensures QueryInv(n, s.(servers := SendOthers(s.servers[i := s.servers[i].(phase := Announced)], i)))
  {
  }

  lemma AnnounceStep(c: Config, s: State, i: nat)
    requires Good(c) && Inv(c, s) && Enabled(c, s, Announce(i))
    ensures Inv(c, Apply(c, s, Announce(i)))
  {
    AnnouncedOneMore(s.servers, i);
    AnnounceAll(c, s.servers, i);
    AnnounceQueries(c.n, s, i);
  }

  /** A server that has launched its part has been told by all others. */
  lemma LaunchedMeansAll(c: Config, s: State, i: nat)
    requires Good(c) && Inv(c, s) && i < c.n && s.servers[i].collecting == Launched
    ensures forall j :: 0 <= j < c.n ==> s.servers[j].phase == Announced
  {
    var v, announced := s.servers[i], AnnouncedSet(s.servers);
    assert DDTInv(c.n, i, v, announced);
    AllTaken(v.ddtTaken, Others(c.n, i));
    forall j | 0 <= j < c.n ensures s.servers[j].phase == Announced {
      assert j != i ==> j in v.ddtTaken;
      assert j in announced;
    }
  }

  lemma AskQueries(c: Config, s: State, step: Step)
    requires Good(c) && |s.servers| == c.n && QueryInv(c.n, s) && Enabled(c, s, step) && (step.AskResults? || step.HandleResultsQuery?)
    ensures QueryInv(c.n, Apply(c, s, step)) && s.servers[if step.AskResults? then c.root else step.at].phase == Idle
  {
  }

  lemma QuerySteps(c: Config, s: State, step: Step)
    requires Good(c) && Inv(c, s) && Enabled(c, s, step) && (step.AskResults? || step.HandleResultsQuery?)
    ensures Inv(c, Apply(c, s, step))
  {
    AskQueries(c, s, step);
    AskStep(c, s.servers, if step.AskResults? then c.root else step.at);
  }

  /** Every step keeps the invariant. */
  lemma StepInv(c: Config, s: State, step: Step)
    requires Good(c) && Inv(c, s) && Enabled(c, s, step)
    ensures Inv(c, Apply(c, s, step))
  {
    match step
    case Creating(act) => CreationKept(c, s.creation, act);
    case AskResults => QuerySteps(c, s, step);
    case HandleResultsQuery(_) => QuerySteps(c, s, step);
    case Announce(i) => AnnounceStep(c, s, i);
    case Local(i, act) => LocalStep(c, s, i, act);
  }

  // ---------- runs ----------

  predicate Takes(c: Config, s: State, step: Step, s': State)
    requires Good(c)
  {
    |s.servers| == c.n && Enabled(c, s, step) && s' == Apply(c, s, step)
  }

  /** A run: from the initial state, each step enabled where it is taken. */
  predicate Run(c: Config, steps: seq<Step>, states: seq<State>)
    requires Good(c)
  {
    && |states| == |steps| + 1 && states[0] == Init(c)
    && forall i :: 0 <= i < |steps| ==> Takes(c, states[i], steps[i], states[i + 1])
  }

  lemma TakesInv(c: Config, s: State, step: Step, s': State)
    requires Good(c) && Inv(c, s) && Takes(c, s, step, s')
    ensures Inv(c, s')
  {
    StepInv(c, s, step);
  }

  lemma {:induction false} RunInv(c: Config, steps: seq<Step>, states: seq<State>, i: nat)
    requires Good(c) && Run(c, steps, states) && i < |states|
    ensures Inv(c, states[i])
    decreases i
  {
    if i == 0 {
      InitInv(c);
    } else {
      RunInv(c, steps, states, i - 1);
      assert Takes(c, states[i - 1], steps[i - 1], states[i]);
      TakesInv(c, states[i - 1], steps[i - 1], states[i]);
    }
  }

  /** A state some run leads to. */
  ghost predicate Reachable(c: Config, s: State)
    requires Good(c)
  {
    |s.servers| == c.n && exists steps, states :: Run(c, steps, states) && states[|steps|] == s
  }

  lemma ReachableInv(c: Config, s: State)
    requires Good(c) && Reachable(c, s)
    ensures Inv(c, s)
  {
    var steps, states :| Run(c, steps, states) && states[|steps|] == s;
    RunInv(c, steps, states, |steps|);
  }

  // ---------- the channels ----------

  ghost predicate ChannelsBounded(s: State) {
    && |s.creation.channel| <= CAPACITY
    && forall i :: 0 <= i < |s.servers| ==> s.servers[i].dpChannel <= CAPACITY && |s.servers[i].ddtChannel| <= CAPACITY
  }

  lemma StepBounded(c: Config, s: State, step: Step)
    requires Good(c) && |s.servers| == c.n && Enabled(c, s, step) && ChannelsBounded(s)
    ensures ChannelsBounded(Apply(c, s, step))
  {
    match step
    case Creating(act) => CreationBounded(c, s.creation, act);
    case Local(i, act) => ServerBounded(c.n, |c.uploads[i]|, s.servers[i], act);
    case _ =>
  }

  lemma CreationBounded(c: Config, cr: Creation, act: CreationStep)
    requires Good(c) && CreationEnabled(c, cr, act) && |cr.channel| <= CAPACITY
    ensures |CreationApply(c, cr, act).channel| <= CAPACITY
  {
    match act
    case HandleConfirmation(j) => assert |cr.channel + {j}| <= |cr.channel| + 1;
    case TakeConfirmation(j) => assert |cr.channel - {j}| <= |cr.channel|;
    case _ =>
  }

  lemma ServerBounded(n: nat, uploads: nat, v: Server, act: ServerStep)
    requires n > 0 && ServerEnabled(uploads, v, act) && v.dpChannel <= CAPACITY && |v.ddtChannel| <= CAPACITY
    ensures ServerApply(n, uploads, v, act).dpChannel <= CAPACITY && |ServerApply(n, uploads, v, act).ddtChannel| <= CAPACITY
  {
    match act
    case HandleDDTfinished(j) => assert |v.ddtChannel + {j}| <= |v.ddtChannel| + 1;
    case TakeAnnouncement(j) => assert |v.ddtChannel - {j}| <= |v.ddtChannel|;
    case _ =>
  }

  lemma {:induction false} RunBounded(c: Config, steps: seq<Step>, states: seq<State>, i: nat)
    requires Good(c) && Run(c, steps, states) && i < |states|
    ensures ChannelsBounded(states[i])
    decreases i
  {
    if i > 0 {
      RunBounded(c, steps, states, i - 1);
      assert Takes(c, states[i - 1], steps[i - 1], states[i]);
      StepBounded(c, states[i - 1], steps[i - 1]);
    }
  }

  /** No channel ever holds more than its 100 tokens: a handler whose send would not fit is not taken. */
  lemma ChannelCapacity(c: Config, s: State)
    requires Good(c) && Reachable(c, s)
    ensures |s.creation.channel| <= 100
    ensures forall i :: 0 <= i < c.n ==> s.servers[i].dpChannel <= 100 && |s.servers[i].ddtChannel| <= 100
  {
    var steps, states :| Run(c, steps, states) && states[|steps|] == s;
    RunBounded(c, steps, states, |steps|);
  }

  // ---------- the barriers ----------

  /** Creation barrier: once the creation has returned to the client, every server holds the survey. */
  lemma CreationBarrier(c: Config, s: State)
    requires Good(c) && Reachable(c, s) && s.creation.returned
    ensures s.creation.holds == Below(c.n)
  {
    ReachableInv(c, s);
    ReturnedHeld(c, s.creation);
  }

  lemma ReturnedHeld(c: Config, cr: Creation)
    requires Good(c) && CreationInv(c, cr) && cr.returned
    ensures cr.holds == Below(c.n)
  {
    AllArrived(Others(c.n, c.creator), cr.queries, cr.confirmations, cr.channel, cr.taken);
  }

  /** The data providers whose rows are stored. */
  function StoredFrom(c: Config, s: State, at: nat): set<nat>
    requires at < |c.uploads| && at < |s.servers|
  {
    var arrived := c.uploads[at];
    set i | 0 <= i < |arrived| && i < s.servers[at].stored :: arrived[i]
  }

  predicate Covers(arrived: seq<nat>, expected: set<nat>) {
    forall dp :: dp in expected ==> dp in arrived
  }

  /** Upload barrier: a server shuffles only once as many uploads are stored as it expects data providers; if the first so
      many cover them, then all their rows are stored. */
  lemma UploadBarrier(c: Config, s: State, at: nat)
    requires Good(c) && Reachable(c, s) && Enabled(c, s, Local(at, StartShuffling))
    ensures |c.expected[at]| <= s.servers[at].stored <= |c.uploads[at]|
    ensures Covers(c.uploads[at][..|c.expected[at]|], c.expected[at]) ==> c.expected[at] <= StoredFrom(c, s, at)
  {
    ReachableInv(c, s);
    assert LoadInv(|c.expected[at]|, |c.uploads[at]|, s.servers[at]);
    var arrived := c.uploads[at];
    forall dp | dp in arrived[..|c.expected[at]|] ensures dp in StoredFrom(c, s, at) {
      var i :| 0 <= i < |c.expected[at]| && arrived[..|c.expected[at]|][i] == dp;
      assert arrived[i] == dp;
    }
  }

  /** Tagging barrier: when a server pulls its local aggregate for the collective aggregation, as the root or as any other
      node, it has finished its own tagging; and if it is not the root, every server has. */
  lemma TaggingBarrier(c: Config, s: State, at: nat)
    requires Good(c) && Reachable(c, s) && Enabled(c, s, Local(at, Pull))
    ensures s.servers[at].phase == Announced
    ensures at != c.root ==> forall j :: 0 <= j < c.n ==> s.servers[j].phase == Announced
  {
    ReachableInv(c, s);
    if at != c.root {
      LaunchedMeansAll(c, s, c.parent[at]);
    }
  }

  /** And a server launches its part only once every server has finished its tagging. */
  lemma LaunchBarrier(c: Config, s: State, at: nat)
    requires Good(c) && Reachable(c, s) && at < c.n && s.servers[at].collecting == Launched
    ensures forall j :: 0 <= j < c.n ==> s.servers[j].phase == Announced
  {
    ReachableInv(c, s);
    LaunchedMeansAll(c, s, at);
  }

  /** The server a message is handled at. */
  function HandledAt(c: Config, step: Step): Option<nat> {
    match step
    case Creating(HandleConfirmation(_)) => Some(c.creator)
    case HandleResultsQuery(i) => Some(i)
    case Local(i, Upload) => Some(i)
    case Local(i, HandleDDTfinished(_)) => Some(i)
    case _ => None
  }

  /** No handler finds its server without the survey: no message is answered by an error and lost. */
  lemma HandlersFindSurvey(c: Config, s: State, step: Step)
    requires Good(c) && Reachable(c, s) && Enabled(c, s, step) && HandledAt(c, step).Some?
    ensures HandledAt(c, step).value in s.creation.holds
  {
    ReachableInv(c, s);
    if !step.Creating? {
      ReturnedWhenUsed(c, s, step);
      ReturnedHeld(c, s.creation);
    }
  }

  lemma ReturnedWhenUsed(c: Config, s: State, step: Step)
    requires Good(c) && Inv(c, s) && Enabled(c, s, step) && HandledAt(c, step).Some? && !step.Creating?
    ensures s.creation.returned
  {
    if step.Local? && step.act.HandleDDTfinished? {
      assert DDTInv(c.n, step.at, s.servers[step.at], AnnouncedSet(s.servers));
      assert step.act.src in AnnouncedSet(s.servers);
    }
  }
}
