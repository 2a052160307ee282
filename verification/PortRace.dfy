/**
 The containers beside the tables, when slow paths interleave: ports are reserved only by the insert, so
 two creators may run containers on the same port, and the one that does not start keeps its name.
 */
module PortRace {
  import opened Wrappers
  import opened Tables
  import opened Containers
  import opened Allocator
  import opened Paths

  /** `waiting` holds the creators whose container has started and has not answered yet. */
  datatype World = World(s: State, containers: map<Key, Container>, waiting: set<ConvId>)

  /** One allocator step that touches no container, or one call to a container-manager together with the
      allocator step it decides; or a container that exits by itself, or is removed from outside. */
  datatype Move =
    | Do(step: Step)
    | Run(c: ConvId, outcome: RunOutcome)
    | Answer(c: ConvId)
    | NoAnswer(c: ConvId, stopped: bool, removed: bool)
    | LoseInsert(c: ConvId, again: bool, stopped: bool, removed: bool)
    | SweepDiscard(stopped: bool, removed: bool)
    | Exit(key: Key)
    | Vanish(key: Key)

  function Name(prefix: string, c: ConvId): string {
    prefix + "-" + c
  }

  lemma NamesDiffer(prefix: string, c: ConvId, d: ConvId)
    requires c != d
    ensures Name(prefix, c) != Name(prefix, d)
  {
    assert Name(prefix, c)[|prefix| + 1..] == c && Name(prefix, d)[|prefix| + 1..] == d;
  }

  function Discard(containers: map<Key, Container>, key: Key, stopped: bool, removed: bool): map<Key, Container> {
    var quiet :=
      if stopped && key in containers then containers[key := containers[key].(started := false)] else containers;
    if removed then quiet - {key} else quiet
  }

  predicate TouchesNoContainer(prefix: string, s: State, step: Step) {
    && !step.AgentStarts? && !step.InsertFails? && !step.InsertGivesUp?
    && (step.GiveUp? ==> step.c in s.creators && !s.creators[step.c].HasPort?)
    && (step.Insert? ==> step.container == Name(prefix, step.c))
  }

  /** Where the creator's container is, or would be. */
  function Place(prefix: string, s: State, c: ConvId): Key
    requires c in s.creators && Target(s.creators[c]).Some?
  {
    (s.creators[c].vm, Name(prefix, c))
  }

  predicate Running(w: World, c: ConvId) {
    c in w.s.creators && w.s.creators[c].HasPort? && c !in w.waiting
  }

  predicate Awaited(w: World, c: ConvId) {
    c in w.s.creators && w.s.creators[c].HasPort? && c in w.waiting
  }

  ghost predicate Possible(cfg: Config, prefix: string, w: World, move: Move) {
    match move
    case Do(step) => Enabled(cfg, w.s, step) && TouchesNoContainer(prefix, w.s, step)
    case Run(c, outcome) =>
      && Running(w, c)
      && (outcome != NotCreated ==> Place(prefix, w.s, c) !in w.containers)
      && (outcome == Started ==> !Bound(w.containers, w.s.creators[c].vm, w.s.creators[c].port))
    case Answer(c) => Awaited(w, c)
    case NoAnswer(c, _, _) => Awaited(w, c)
    case LoseInsert(c, again, _, _) => Enabled(cfg, w.s, if again then InsertFails(c) else InsertGivesUp(c))
    case SweepDiscard(_, _) => w.s.cleaner.Sweeping? && w.s.cleaner.todo != []
    case Exit(_) => true
    case Vanish(_) => true
  }

  /** The allocator step of a move, if any. */
  function StepOf(move: Move): Option<Step> {
    match move
    case Do(step) => Some(step)
    case Run(c, outcome) => if outcome == Started then None else Some(GiveUp(c))
    case Answer(c) => Some(AgentStarts(c))
    case NoAnswer(c, _, _) => Some(GiveUp(c))
    case LoseInsert(c, again, _, _) => Some(if again then InsertFails(c) else InsertGivesUp(c))
    case _ => None
  }

  ghost function ContainersAfter(prefix: string, w: World, move: Move): map<Key, Container> {
    match move
    case Run(c, outcome) =>
      if Running(w, c) && outcome != NotCreated
      then w.containers[Place(prefix, w.s, c) := Container(w.s.creators[c].port, outcome == Started)]
      else w.containers
    case NoAnswer(c, stopped, removed) =>
      if Awaited(w, c) then Discard(w.containers, Place(prefix, w.s, c), stopped, removed) else w.containers
    case LoseInsert(c, _, stopped, removed) =>
      if c in w.s.creators && w.s.creators[c].AgentUp?
      then Discard(w.containers, Place(prefix, w.s, c), stopped, removed) else w.containers
    case SweepDiscard(stopped, removed) =>
      if w.s.cleaner.Sweeping? && w.s.cleaner.todo != []
      then Discard(w.containers, (w.s.cleaner.todo[0].ep.vm, w.s.cleaner.todo[0].ep.container), stopped, removed)
      else w.containers
    case Exit(key) => Discard(w.containers, key, true, false)
    case Vanish(key) => w.containers - {key}
    case _ => w.containers
  }

  function WaitingAfter(w: World, move: Move): set<ConvId> {
    match move
    case Run(c, outcome) => if outcome == Started then w.waiting + {c} else w.waiting
    case Answer(c) => w.waiting - {c}
    case NoAnswer(c, _, _) => w.waiting - {c}
    case _ => w.waiting
  }

  ghost function Next(cfg: Config, prefix: string, w: World, move: Move): World
    requires Possible(cfg, prefix, w, move)
  {
    World(if StepOf(move).Some? then Apply(cfg, w.s, StepOf(move).value) else w.s,
          ContainersAfter(prefix, w, move), WaitingAfter(w, move))
  }

  ghost predicate IsCourse(cfg: Config, prefix: string, w: World, moves: seq<Move>)
    decreases |moves|, 0
  {
    moves == [] ||
    (IsCourse(cfg, prefix, w, moves[..|moves| - 1]) &&
     Possible(cfg, prefix, End(cfg, prefix, w, moves[..|moves| - 1]), moves[|moves| - 1]))
  }

  ghost function End(cfg: Config, prefix: string, w: World, moves: seq<Move>): World
    requires IsCourse(cfg, prefix, w, moves)
    decreases |moves|, 1
  {
    if moves == [] then w else Next(cfg, prefix, End(cfg, prefix, w, moves[..|moves| - 1]), moves[|moves| - 1])
  }

  /** Beside the containers this is a run of the allocator, so all that holds on its runs holds here. */
  lemma {:induction false} CourseIsRun(cfg: Config, prefix: string, w: World, moves: seq<Move>) returns (steps: seq<Step>)
    requires IsCourse(cfg, prefix, w, moves)
    ensures Leads(cfg, w.s, steps, End(cfg, prefix, w, moves).s)
  {
    if moves == [] {
      return [];
    }
    var front, last := moves[..|moves| - 1], moves[|moves| - 1];
    var m := End(cfg, prefix, w, front);
    steps := CourseIsRun(cfg, prefix, w, front);
    if StepOf(last).Some? {
      var s;
      steps, s := Take(cfg, w.s, steps, m.s, StepOf(last).value);
    }
  }

  // ----- Ports -----

  /** No two started containers on a VM publish the same port. */
  ghost predicate PortsApart(containers: map<Key, Container>) {
    forall j, k | j in containers && k in containers && j != k && containers[j].started && containers[k].started &&
                  j.0 == k.0 :: containers[j].port != containers[k].port
  }

  lemma MoveKeepsPortsApart(cfg: Config, prefix: string, w: World, move: Move)
    requires Possible(cfg, prefix, w, move) && PortsApart(w.containers)
    ensures PortsApart(ContainersAfter(prefix, w, move))
  {
  }

  lemma {:induction false} CourseKeepsPortsApart(cfg: Config, prefix: string, w: World, moves: seq<Move>)
    requires IsCourse(cfg, prefix, w, moves) && PortsApart(w.containers)
    ensures PortsApart(End(cfg, prefix, w, moves).containers)
  {
    if moves != [] {
      CourseKeepsPortsApart(cfg, prefix, w, moves[..|moves| - 1]);
      MoveKeepsPortsApart(cfg, prefix, End(cfg, prefix, w, moves[..|moves| - 1]), moves[|moves| - 1]);
    }
  }

  // ----- A container that is nobody's -----

  ghost predicate WaitingOk(w: World) {
    forall c | c in w.waiting :: Awaited(w, c)
  }

  /** Neither a row, nor the sweep in progress, nor a slow path answers for c's container on v. */
  ghost predicate Disowned(prefix: string, w: World, v: VmId, c: ConvId) {
    && (forall e | e in w.s.t.eps && w.s.t.eps[e].vm == v ::
          w.s.t.eps[e].conv != c && w.s.t.eps[e].container != Name(prefix, c))
    && (forall i | 0 <= i < |Todo(w.s.cleaner)| && Todo(w.s.cleaner)[i].ep.vm == v ::
          Todo(w.s.cleaner)[i].ep.container != Name(prefix, c))
    && (c in w.s.creators && Target(w.s.creators[c]) == Some(v) ==> !w.s.creators[c].AgentUp? && c !in w.waiting)
  }

  ghost predicate Stray(prefix: string, w: World, v: VmId, c: ConvId) {
    (v, Name(prefix, c)) in w.containers && Disowned(prefix, w, v, c)
  }

  /** One move: the container is nobody's exactly when it did not start or was not removed. */
  lemma FailureStraysExactly(cfg: Config, prefix: string, w: World, move: Move, v: VmId)
    requires Possible(cfg, prefix, w, move) && WaitingOk(w) && (move.Run? || move.NoAnswer? || move.LoseInsert?)
    requires move.Run? ==> move.outcome != Started
    requires w.s.creators[move.c].vm == v && (move.Run? <==> (v, Name(prefix, move.c)) !in w.containers)
    requires forall e | e in w.s.t.eps && w.s.t.eps[e].vm == v ::
               w.s.t.eps[e].conv != move.c && w.s.t.eps[e].container != Name(prefix, move.c)
    requires forall i | 0 <= i < |Todo(w.s.cleaner)| && Todo(w.s.cleaner)[i].ep.vm == v ::
               Todo(w.s.cleaner)[i].ep.container != Name(prefix, move.c)
    ensures Stray(prefix, Next(cfg, prefix, w, move), v, move.c) <==>
            if move.Run? then move.outcome == NotStarted else !move.removed
  {
    var n := Next(cfg, prefix, w, move);
    assert n.s.t == w.s.t && n.s.cleaner == w.s.cleaner;
  }

  lemma MoveKeepsWaiting(cfg: Config, prefix: string, w: World, move: Move)
    requires Possible(cfg, prefix, w, move) && WaitingOk(w)
    ensures WaitingOk(Next(cfg, prefix, w, move))
  {
  }

  /** The name stays held. */
  lemma MoveKeepsContainer(cfg: Config, prefix: string, w: World, move: Move, v: VmId, c: ConvId)
    requires Possible(cfg, prefix, w, move) && Stray(prefix, w, v, c) && move != Vanish((v, Name(prefix, c)))
    ensures (v, Name(prefix, c)) in ContainersAfter(prefix, w, move)
  {
    if (move.NoAnswer? || move.LoseInsert?) && move.c != c {
      NamesDiffer(prefix, move.c, c);
    } else if move.SweepDiscard? {
      assert Todo(w.s.cleaner)[0] == w.s.cleaner.todo[0];
    }
  }

  /** No row of c appears on v. */
  lemma MoveKeepsRows(cfg: Config, prefix: string, w: World, move: Move, v: VmId, c: ConvId, e: EpId)
    requires Possible(cfg, prefix, w, move) && Stray(prefix, w, v, c)
    requires e in Next(cfg, prefix, w, move).s.t.eps && Next(cfg, prefix, w, move).s.t.eps[e].vm == v
    ensures var row := Next(cfg, prefix, w, move).s.t.eps[e]; row.conv != c && row.container != Name(prefix, c)
  {
    if StepOf(move).Some? {
      EpsChange(cfg, w.s, StepOf(move).value);
    }
    if move.Do? && move.step.Insert? && move.step.c != c {
      NamesDiffer(prefix, move.step.c, c);
    }
  }

  /** A sweep's list is taken from the rows, and shrinks from the front. */
  lemma TodoFrom(cfg: Config, s: State, step: Step, i: nat)
    requires Enabled(cfg, s, step) && i < |Todo(Apply(cfg, s, step).cleaner)|
    ensures var item := Todo(Apply(cfg, s, step).cleaner)[i];
            (item.id in s.t.eps && s.t.eps[item.id] == item.ep) || exists j :: 0 <= j < |Todo(s.cleaner)| && Todo(s.cleaner)[j] == item
  {
    var todo := Todo(Apply(cfg, s, step).cleaner);
    if step.Decrement? {
      assert todo[i] == Todo(s.cleaner)[i + 1];
    } else if !step.ListIdle? {
      assert todo == Todo(s.cleaner);
    }
  }

  lemma MoveKeepsTodo(cfg: Config, prefix: string, w: World, move: Move, v: VmId, c: ConvId)
    requires Possible(cfg, prefix, w, move) && Stray(prefix, w, v, c)
    ensures var todo := Todo(Next(cfg, prefix, w, move).s.cleaner);
            forall i | 0 <= i < |todo| && todo[i].ep.vm == v :: todo[i].ep.container != Name(prefix, c)
  {
    var todo := Todo(Next(cfg, prefix, w, move).s.cleaner);
    forall i | 0 <= i < |todo| && todo[i].ep.vm == v ensures todo[i].ep.container != Name(prefix, c) {
      if StepOf(move).Some? {
        TodoFrom(cfg, w.s, StepOf(move).value, i);
      }
    }
  }

  lemma AgentUpBefore(cfg: Config, s: State, step: Step, c: ConvId)
    requires Enabled(cfg, s, step) && !(step.AgentStarts? && step.c == c)
    requires c in Apply(cfg, s, step).creators && Apply(cfg, s, step).creators[c].AgentUp?
    ensures c in s.creators && s.creators[c] == Apply(cfg, s, step).creators[c]
  {
  }

  lemma MoveKeepsDisowned(cfg: Config, prefix: string, w: World, move: Move, v: VmId, c: ConvId)
    requires Possible(cfg, prefix, w, move) && Stray(prefix, w, v, c) && WaitingOk(w)
    ensures var n := Next(cfg, prefix, w, move);
            c in n.s.creators && Target(n.s.creators[c]) == Some(v) ==> !n.s.creators[c].AgentUp? && c !in n.waiting
  {
    var n := Next(cfg, prefix, w, move);
    MoveKeepsWaiting(cfg, prefix, w, move);
    if c in n.s.creators && Target(n.s.creators[c]) == Some(v) {
      if n.s.creators[c].AgentUp? && StepOf(move).Some? && !(move.Answer? && move.c == c) {
        AgentUpBefore(cfg, w.s, StepOf(move).value, c);
      }
      if c in n.waiting && c in w.waiting {
        WaitsWhere(cfg, prefix, w, move, c);
      }
    }
  }

  lemma WaitsWhere(cfg: Config, prefix: string, w: World, move: Move, c: ConvId)
    requires Possible(cfg, prefix, w, move) && WaitingOk(w) && c in w.waiting && c in Next(cfg, prefix, w, move).waiting
    ensures c in Next(cfg, prefix, w, move).s.creators && Next(cfg, prefix, w, move).s.creators[c] == w.s.creators[c]
  {
  }

  /** Over every course of events in which nobody outside removes it, a stray container keeps its conversation
      off that VM: every attempt to run its container there is refused, and it never gets a row there. */
  lemma {:induction false} StrayBlocks(cfg: Config, prefix: string, w: World, moves: seq<Move>, v: VmId, c: ConvId)
    requires IsCourse(cfg, prefix, w, moves) && Stray(prefix, w, v, c) && WaitingOk(w)
    requires Vanish((v, Name(prefix, c))) !in moves
    ensures var u := End(cfg, prefix, w, moves);
            && Stray(prefix, u, v, c) && WaitingOk(u)
            && (forall e | e in u.s.t.eps && u.s.t.eps[e].vm == v :: u.s.t.eps[e].conv != c)
            && (forall outcome | Possible(cfg, prefix, u, Run(c, outcome)) && u.s.creators[c].vm == v :: outcome == NotCreated)
  {
    if moves != [] {
      var front, last := moves[..|moves| - 1], moves[|moves| - 1];
      StrayBlocks(cfg, prefix, w, front, v, c);
      var m := End(cfg, prefix, w, front);
      var n := Next(cfg, prefix, m, last);
      MoveKeepsWaiting(cfg, prefix, m, last);
      MoveKeepsContainer(cfg, prefix, m, last, v, c);
      MoveKeepsTodo(cfg, prefix, m, last, v, c);
      MoveKeepsDisowned(cfg, prefix, m, last, v, c);
      forall e | e in n.s.t.eps && n.s.t.eps[e].vm == v
        ensures n.s.t.eps[e].conv != c && n.s.t.eps[e].container != Name(prefix, c)
      {
        MoveKeepsRows(cfg, prefix, m, last, v, c, e);
      }
    }
  }

  /** In every course of events in which nobody outside removes it, c's name is held on v, and every attempt to
      run its container there is refused. */
  ghost predicate Blocked(cfg: Config, prefix: string, w: World, v: VmId, c: ConvId) {
    forall moves | IsCourse(cfg, prefix, w, moves) && Vanish((v, Name(prefix, c))) !in moves ::
      var u := End(cfg, prefix, w, moves);
      && (v, Name(prefix, c)) in u.containers
      && forall outcome | Possible(cfg, prefix, u, Run(c, outcome)) && u.s.creators[c].vm == v :: outcome == NotCreated
  }

  lemma StrayIsBlocked(cfg: Config, prefix: string, w: World, v: VmId, c: ConvId)
    requires Stray(prefix, w, v, c) && WaitingOk(w)
    ensures Blocked(cfg, prefix, w, v, c)
  {
    forall moves | IsCourse(cfg, prefix, w, moves) && Vanish((v, Name(prefix, c))) !in moves
      ensures var u := End(cfg, prefix, w, moves);
              && (v, Name(prefix, c)) in u.containers
              && forall outcome | Possible(cfg, prefix, u, Run(c, outcome)) && u.s.creators[c].vm == v :: outcome == NotCreated
    {
      StrayBlocks(cfg, prefix, w, moves, v, c);
    }
  }

  /** A slow path that fails on v, with no row there for its conversation, keeps the conversation off v for good
      exactly when its container did not start or was not removed. */
  lemma FailureBlocksExactly(cfg: Config, prefix: string, w: World, move: Move, v: VmId)
    requires Possible(cfg, prefix, w, move) && WaitingOk(w) && (move.Run? || move.NoAnswer? || move.LoseInsert?)
    requires move.Run? ==> move.outcome != Started
    requires w.s.creators[move.c].vm == v && (move.Run? <==> (v, Name(prefix, move.c)) !in w.containers)
    requires forall e | e in w.s.t.eps && w.s.t.eps[e].vm == v ::
               w.s.t.eps[e].conv != move.c && w.s.t.eps[e].container != Name(prefix, move.c)
    requires forall i | 0 <= i < |Todo(w.s.cleaner)| && Todo(w.s.cleaner)[i].ep.vm == v ::
               Todo(w.s.cleaner)[i].ep.container != Name(prefix, move.c)
    ensures Blocked(cfg, prefix, Next(cfg, prefix, w, move), v, move.c) <==>
            if move.Run? then move.outcome == NotStarted else !move.removed
  {
    var n := Next(cfg, prefix, w, move);
    FailureStraysExactly(cfg, prefix, w, move, v);
    MoveKeepsWaiting(cfg, prefix, w, move);
    if Stray(prefix, n, v, move.c) {
      StrayIsBlocked(cfg, prefix, n, v, move.c);
    } else {
      assert IsCourse(cfg, prefix, n, []) && End(cfg, prefix, n, []) == n;
    }
  }

  // ----- The race -----

  ghost predicate Gets(cfg: Config, prefix: string, w0: World, moves: seq<Move>, w: World) {
    IsCourse(cfg, prefix, w0, moves) && End(cfg, prefix, w0, moves) == w
  }

  lemma Go(cfg: Config, prefix: string, w0: World, before: seq<Move>, w: World, move: Move)
    returns (moves: seq<Move>, n: World)
    requires Gets(cfg, prefix, w0, before, w) && Possible(cfg, prefix, w, move)
    ensures Gets(cfg, prefix, w0, moves, n) && n == Next(cfg, prefix, w, move)
  {
    moves, n := before + [move], Next(cfg, prefix, w, move);
    assert moves[..|before|] == before;
  }

  /** From the start of a slow path to its port, on VM 0. */
  lemma ToPort(prefix: string, w0: World, before: seq<Move>, w: World, c: ConvId) returns (moves: seq<Move>, n: World)
    requires Gets(ROOMY, prefix, w0, before, w) && c !in w.s.creators && Fullest(w.s.t, 0, ROOMY.max) && w.s.t.eps == map[]
    ensures Gets(ROOMY, prefix, w0, moves, n)
    ensures n == w.(s := Goto(w.s, c, HasPort(0, 0, 1)))
  {
    moves, n := ToReady(prefix, w0, before, w, c);
    assert !Taken(w.s.t, 0, 1);
    moves, n := Go(ROOMY, prefix, w0, moves, n, Do(ChoosePort(c)));
    assert n.s.creators == w.s.creators[c := HasPort(0, 0, 1)];
  }

  lemma ToReady(prefix: string, w0: World, before: seq<Move>, w: World, c: ConvId) returns (moves: seq<Move>, n: World)
    requires Gets(ROOMY, prefix, w0, before, w) && c !in w.s.creators && Fullest(w.s.t, 0, ROOMY.max)
    ensures Gets(ROOMY, prefix, w0, moves, n)
    ensures n == w.(s := Goto(w.s, c, Ready(0, 0)))
  {
    moves, n := ToPing(prefix, w0, before, w, c);
    moves, n := Go(ROOMY, prefix, w0, moves, n, Do(PingOk(c)));
    assert n.s.creators == w.s.creators[c := Ready(0, 0)];
  }

  lemma ToPing(prefix: string, w0: World, before: seq<Move>, w: World, c: ConvId) returns (moves: seq<Move>, n: World)
    requires Gets(ROOMY, prefix, w0, before, w) && c !in w.s.creators && Fullest(w.s.t, 0, ROOMY.max)
    ensures Gets(ROOMY, prefix, w0, moves, n)
    ensures n == w.(s := Goto(w.s, c, Pinging(0, 0)))
  {
    moves, n := Go(ROOMY, prefix, w0, before, w, Do(Begin(c)));
    moves, n := Go(ROOMY, prefix, w0, moves, n, Do(Pick(c, 0)));
    assert n.s.creators == w.s.creators[c := Pinging(0, 0)];
  }

  /** a's container runs on its port, and a records it. */
  lemma FirstWins(prefix: string, w0: World, before: seq<Move>, w: World, a: ConvId) returns (moves: seq<Move>, n: World)
    requires Gets(ROOMY, prefix, w0, before, w) && w.containers == map[] && w.waiting == {}
    requires a in w.s.creators && w.s.creators[a] == HasPort(0, 0, 1) && 0 in w.s.t.vms && a in w.s.t.convs
    requires w.s.t.eps == map[] && w.s.usedEps == {}
    ensures Gets(ROOMY, prefix, w0, moves, n)
    ensures n.containers == map[(0, Name(prefix, a)) := Container(1, true)] && n.waiting == {}
    ensures n.s == Goto(w.s, a, Inserted(0)).(t := InsertEndpoint(w.s.t, 0, a, 0, Name(prefix, a), 1, 0), usedEps := {0})
  {
    moves, n := Go(ROOMY, prefix, w0, before, w, Run(a, Started));
    assert n.containers == map[(0, Name(prefix, a)) := Container(1, true)];
    moves, n := Go(ROOMY, prefix, w0, moves, n, Answer(a));
    moves, n := Go(ROOMY, prefix, w0, moves, n, Do(Insert(a, 0, Name(prefix, a), 0)));
    assert n.s.creators == w.s.creators[a := Inserted(0)];
  }

  /** b's container is created and cannot start: b fails at once, with its name held. */
  lemma SecondLoses(prefix: string, w0: World, before: seq<Move>, w: World, a: ConvId, b: ConvId)
    returns (moves: seq<Move>, n: World)
    requires a != b && Gets(ROOMY, prefix, w0, before, w) && w.waiting == {} && w.s.cleaner == Resting
    requires w.containers == map[(0, Name(prefix, a)) := Container(1, true)]
    requires b in w.s.creators && w.s.creators[b] == HasPort(0, 0, 1)
    requires w.s.t.eps == map[0 := Endpoint(a, 0, Name(prefix, a), 1, EpRunning, 0)]
    ensures Gets(ROOMY, prefix, w0, moves, n) && n.s == Leave(w.s, b) && n.waiting == {}
    ensures n.containers == w.containers[(0, Name(prefix, b)) := Container(1, false)] && Stray(prefix, n, 0, b)
    ensures forall outcome :: Possible(ROOMY, prefix, w, Run(b, outcome)) ==> outcome != Started
  {
    NamesDiffer(prefix, a, b);
    assert w.containers[(0, Name(prefix, a))].started && (0, Name(prefix, a)) in w.containers;
    assert Bound(w.containers, 0, 1);
    moves, n := Go(ROOMY, prefix, w0, before, w, Run(b, NotStarted));
  }

  /** The retry loop is written for a lost race on the port, but a race is lost before the insert: both
      creators choose port 1, the second one's container cannot start, and although the VM has room and
      port 2 is free, its name is held there in every continuation, and port 1 by the first one alone. */
  lemma RaceIsNotRetried(prefix: string, a: ConvId, b: ConvId) returns (moves: seq<Move>, w: World)
    requires a != b
    ensures Gets(ROOMY, prefix, World(OneVm(0, {a, b}), map[], {}), moves, w)
    ensures w.s.creators == map[a := Inserted(0)] && w.waiting == {}
    ensures Available(w.s.t, 0, ROOMY.max - 1) && SmallestFree(w.s.t, 0, ROOMY.start, ROOMY.end) == 2
    ensures w.containers == map[(0, Name(prefix, a)) := Container(1, true), (0, Name(prefix, b)) := Container(1, false)]
    ensures Blocked(ROOMY, prefix, w, 0, b)
    ensures forall more | IsCourse(ROOMY, prefix, w, more) :: PortsApart(End(ROOMY, prefix, w, more).containers)
  {
    var w0 := World(OneVm(0, {a, b}), map[], {});
    moves, w := BothOnPort(prefix, a, b);
    moves, w := FirstWins(prefix, w0, moves, w, a);
    moves, w := SecondLoses(prefix, w0, moves, w, a, b);
    assert w.s.creators == map[a := Inserted(0)];
    assert Taken(w.s.t, 0, 1) by {
      assert w.s.t.eps[0].port == 1;
    }
    assert !Taken(w.s.t, 0, 2);
    StrayIsBlocked(ROOMY, prefix, w, 0, b);
    forall more | IsCourse(ROOMY, prefix, w, more) ensures PortsApart(End(ROOMY, prefix, w, more).containers) {
      CourseKeepsPortsApart(ROOMY, prefix, w, more);
    }
  }

  lemma BothOnPort(prefix: string, a: ConvId, b: ConvId) returns (moves: seq<Move>, w: World)
    requires a != b
    ensures var w0 := World(OneVm(0, {a, b}), map[], {});
            Gets(ROOMY, prefix, w0, moves, w) &&
            w == w0.(s := w0.s.(creators := map[a := HasPort(0, 0, 1), b := HasPort(0, 0, 1)]))
  {
    var w0 := World(OneVm(0, {a, b}), map[], {});
    moves, w := ToPort(prefix, w0, [], w0, a);
    moves, w := ToPort(prefix, w0, moves, w, b);
    assert w.s.creators == map[a := HasPort(0, 0, 1), b := HasPort(0, 0, 1)];
  }
}
