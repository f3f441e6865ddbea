/**
 One turn token per agent. Every accepted task gets a thread that takes its agent's token, thinks,
 settles its status and gives the token back; cancellations, restarts, deletions and a shutdown come
 at any time. The credential lookup of the proxy relies on at most one task per agent thinking.
 */
module AgentTurns {
  import opened Collections
  import opened Wrappers
  import TaskHistory

  type Task = TaskHistory.Task

  // ---- The lookup ----

  predicate Executing(t: Task, agentID: string, channelID: string, nodeID: string) {
    && t.agentID == agentID && (channelID == "" || t.channelID == channelID) && t.nodeID == nodeID
    && (t.status == "running" || t.status == "thinking")
  }

  function Matches(tasks: map<string, Task>, agentID: string, channelID: string, nodeID: string): set<string> {
    set id | id in tasks && Executing(tasks[id], agentID, channelID, nodeID)
  }

  /** The lookup's answer: the one match's run id, or its task id if it has none, and its token; otherwise nothing. */
  ghost predicate IsCredential(tasks: map<string, Task>, agentID: string, channelID: string, nodeID: string, runID: string, token: string) {
    var matches := Matches(tasks, agentID, channelID, nodeID);
    && (forall id | matches == {id} ::
          && runID == (if tasks[id].runID != "" then tasks[id].runID else id)
          && token == tasks[id].agentToken)
    && (|matches| != 1 ==> runID == "" && token == "")
  }

  /** Goes through the tasks in any order; a second match makes the answer empty. */
  method ExecutingCredential(tasks: map<string, Task>, agentID: string, channelID: string, nodeID: string)
    returns (runID: string, token: string)
    requires "" !in tasks
    ensures IsCredential(tasks, agentID, channelID, nodeID, runID, token)
  {
    runID, token := "", "";
    ghost var found: Option<string> := None;
    var rest := tasks.Keys;
    while rest != {}
      invariant rest <= tasks.Keys
      invariant forall id | id in tasks && id !in rest && Executing(tasks[id], agentID, channelID, nodeID) :: found == Some(id)
      invariant found.None? ==> runID == "" && token == ""
      invariant found.Some? ==> found.value in Matches(tasks, agentID, channelID, nodeID) && found.value !in rest
      invariant found.Some? ==> runID == if tasks[found.value].runID != "" then tasks[found.value].runID else found.value
      invariant found.Some? ==> token == tasks[found.value].agentToken
      decreases |rest|
    {
      var id :| id in rest;
      rest := rest - {id};
      var t := tasks[id];
      if !(t.agentID != agentID || (channelID != "" && t.channelID != channelID) || t.nodeID != nodeID
           || (t.status != "running" && t.status != "thinking")) {
        if runID != "" {
          TwoMatches(Matches(tasks, agentID, channelID, nodeID), id, found.value);
          return "", "";
        }
        found := Some(id);
        runID := t.runID;
        if runID == "" {
          runID := id;
        }
        token := t.agentToken;
      }
    }
    MatchesAre(tasks, agentID, channelID, nodeID, found);
  }

  lemma TwoMatches(matches: set<string>, a: string, b: string)
    requires a in matches && b in matches && a != b
    ensures |matches| >= 2 && forall id :: matches != {id}
  {
    SubsetIsSmaller({a, b}, matches);
    forall id
      ensures matches != {id}
    {
      assert a !in {id} || b !in {id};
    }
  }

  lemma MatchesAre(tasks: map<string, Task>, agentID: string, channelID: string, nodeID: string, found: Option<string>)
    requires forall id | id in tasks && Executing(tasks[id], agentID, channelID, nodeID) :: found == Some(id)
    requires found.Some? ==> found.value in Matches(tasks, agentID, channelID, nodeID)
    ensures Matches(tasks, agentID, channelID, nodeID) == if found.Some? then {found.value} else {}
  {
  }

  // ---- The machine ----

  datatype Pc = Waiting | Holding | Thinking | Settled | Gone

  datatype Thread = Thread(id: string, agentID: string, cancelled: bool, pc: Pc)

  /** An agent's channel is made with its token in it; turns says whether it is there now. */
  datatype State = State(tasks: map<string, Task>, turns: map<string, bool>, threads: seq<Thread>, shuttingDown: bool)

  datatype Action =
    | Add(id: string, task: Task)
    | Acquire(t: nat)
    | GiveUp(t: nat)
    | Think(t: nat)
    | Finish(t: nat, status: string)
    | Suppress(t: nat)
    | Release(t: nat)
    | CancelContext(t: nat)
    | MarkCancelled(id: string)
    | Delete(id: string)
    | Shutdown

  predicate HasToken(s: State, agentID: string) {
    agentID !in s.turns || s.turns[agentID]
  }

  predicate Holds(thread: Thread, agentID: string) {
    thread.agentID == agentID && (thread.pc.Holding? || thread.pc.Thinking? || thread.pc.Settled?)
  }

  function SetStatus(tasks: map<string, Task>, id: string, status: string): map<string, Task> {
    if id in tasks then tasks[id := tasks[id].(status := status)] else tasks
  }

  function Move(s: State, t: nat, pc: Pc): State
    requires t < |s.threads|
  {
    s.(threads := s.threads[t := s.threads[t].(pc := pc)])
  }

  function Do(s: State, a: Action): State {
    match a
    case Add(id, task) =>
      if id in s.tasks && s.tasks[id].attemptID == task.attemptID then s
      else s.(tasks := s.tasks[id := task.(status := "queued")], threads := s.threads + [Thread(id, task.agentID, false, Waiting)])
    case Acquire(t) =>
      if t < |s.threads| && s.threads[t].pc.Waiting? && HasToken(s, s.threads[t].agentID) then
        Move(s, t, Holding).(turns := s.turns[s.threads[t].agentID := false])
      else s
    case GiveUp(t) =>
      if t < |s.threads| && s.threads[t].pc.Waiting? && s.threads[t].cancelled then
        Move(s, t, Gone).(tasks := if s.shuttingDown then s.tasks else SetStatus(s.tasks, s.threads[t].id, "cancelled"))
      else s
    case Think(t) =>
      if t < |s.threads| && s.threads[t].pc.Holding? then
        Move(s, t, Thinking).(tasks := SetStatus(s.tasks, s.threads[t].id, "thinking"))
      else s
    case Finish(t, status) =>
      if t < |s.threads| && (s.threads[t].pc.Holding? || s.threads[t].pc.Thinking?)
         && (status == "completed" || status == "failed" || status == "cancelled") then
        Move(s, t, Settled).(tasks := SetStatus(s.tasks, s.threads[t].id, status))
      else s
    case Suppress(t) =>
      if t < |s.threads| && (s.threads[t].pc.Holding? || s.threads[t].pc.Thinking?) && s.shuttingDown then Move(s, t, Settled) else s
    case Release(t) =>
      if t < |s.threads| && s.threads[t].pc.Settled? then Move(s, t, Gone).(turns := s.turns[s.threads[t].agentID := true]) else s
    case CancelContext(t) => if t < |s.threads| then s.(threads := s.threads[t := s.threads[t].(cancelled := true)]) else s
    case MarkCancelled(id) => s.(tasks := SetStatus(s.tasks, id, "cancelled"))
    case Delete(id) => s.(tasks := s.tasks - {id})
    case Shutdown => s.(shuttingDown := true)
  }

  /** Task ids are not empty, and a task id that comes again, as a new attempt, is for the same agent. */
  predicate Admissible(s: State, a: Action) {
    a.Add? ==> a.id != "" && forall thread <- s.threads :: thread.id == a.id ==> thread.agentID == a.task.agentID
  }

  predicate AdmissibleRun(s: State, actions: seq<Action>)
    decreases |actions|
  {
    actions == [] || (Admissible(s, actions[0]) && AdmissibleRun(Do(s, actions[0]), actions[1..]))
  }

  function Run(s: State, actions: seq<Action>): State
    decreases |actions|
  {
    if actions == [] then s else Run(Do(s, actions[0]), actions[1..])
  }

  const INITIAL := State(map[], map[], [], false)

  // ---- The invariant ----

  function Holders(threads: seq<Thread>, agentID: string): nat {
    if threads == [] then 0
    else (if Holds(threads[|threads| - 1], agentID) then 1 else 0) + Holders(threads[..|threads| - 1], agentID)
  }

  function One(b: bool): nat {
    if b then 1 else 0
  }

  lemma {:induction false} HoldersPut(threads: seq<Thread>, t: nat, thread: Thread, agentID: string)
    requires t < |threads|
    ensures Holders(threads[t := thread], agentID) + One(Holds(threads[t], agentID)) == Holders(threads, agentID) + One(Holds(thread, agentID))
  {
    var n := |threads| - 1;
    if t == n {
      assert threads[t := thread][..n] == threads[..n];
    } else {
      assert threads[t := thread][..n] == threads[..n][t := thread];
      HoldersPut(threads[..n], t, thread, agentID);
    }
  }

  lemma {:induction false} HoldersCount(threads: seq<Thread>, agentID: string, t: nat, u: nat)
    requires t <= u < |threads| && Holds(threads[t], agentID) && Holds(threads[u], agentID)
    ensures Holders(threads, agentID) >= if t == u then 1 else 2
  {
    var n := |threads| - 1;
    if u < n {
      HoldersCount(threads[..n], agentID, t, u);
    } else if t < n {
      HoldersCount(threads[..n], agentID, t, t);
    }
  }

  ghost predicate OneToken(s: State) {
    forall agentID :: Holders(s.threads, agentID) + One(HasToken(s, agentID)) == 1
  }

  predicate ThinkerOf(threads: seq<Thread>, id: string, t: nat) {
    t < |threads| && threads[t].id == id && threads[t].pc.Thinking?
  }

  predicate TasksOk(s: State) {
    && "" !in s.tasks
    && (forall id | id in s.tasks :: s.tasks[id].status != "running")
    && (forall id, t | id in s.tasks && 0 <= t < |s.threads| && s.threads[t].id == id :: s.threads[t].agentID == s.tasks[id].agentID)
  }

  /** Outside shutdown, a thinking task has a thread that thinks for it. */
  ghost predicate ThinkersOk(s: State) {
    !s.shuttingDown ==> forall id | id in s.tasks && s.tasks[id].status == "thinking" :: exists t: nat :: ThinkerOf(s.threads, id, t)
  }

  ghost predicate Safe(s: State) {
    OneToken(s) && TasksOk(s) && ThinkersOk(s)
  }

  /** The token is in the channel exactly when no thread has it. */
  lemma TokenIsElsewhere(s: State, t: nat)
    requires OneToken(s) && t < |s.threads| && Holds(s.threads[t], s.threads[t].agentID)
    ensures !HasToken(s, s.threads[t].agentID)
  {
    HoldersCount(s.threads, s.threads[t].agentID, t, t);
    assert Holders(s.threads, s.threads[t].agentID) + One(HasToken(s, s.threads[t].agentID)) == 1;
  }

  lemma TwoHoldersAreOne(s: State, t: nat, u: nat)
    requires OneToken(s) && t < |s.threads| && u < |s.threads| && s.threads[t].agentID == s.threads[u].agentID
    requires Holds(s.threads[t], s.threads[t].agentID) && Holds(s.threads[u], s.threads[t].agentID)
    ensures t == u
  {
    var agentID := s.threads[t].agentID;
    HoldersCount(s.threads, agentID, if t < u then t else u, if t < u then u else t);
    assert Holders(s.threads, agentID) + One(HasToken(s, agentID)) <= 1;
  }

  lemma ThreadStepKeepsOneToken(s: State, t: nat, thread: Thread, turns: map<string, bool>)
    requires OneToken(s) && t < |s.threads| && thread.agentID == s.threads[t].agentID
    requires var agentID := thread.agentID;
             var e := s.(turns := turns);
             && (Holds(s.threads[t], agentID) == Holds(thread, agentID) ==> turns == s.turns)
             && (!Holds(s.threads[t], agentID) && Holds(thread, agentID) ==> HasToken(s, agentID) && turns == s.turns[agentID := false])
             && (Holds(s.threads[t], agentID) && !Holds(thread, agentID) ==> turns == s.turns[agentID := true])
    ensures OneToken(s.(threads := s.threads[t := thread], turns := turns))
  {
    var e := s.(threads := s.threads[t := thread], turns := turns);
    forall agentID
      ensures Holders(e.threads, agentID) + One(HasToken(e, agentID)) == 1
    {
      assert Holders(s.threads, agentID) + One(HasToken(s, agentID)) == 1;
      HoldersPut(s.threads, t, thread, agentID);
      if Holds(s.threads[t], agentID) {
        TokenIsElsewhere(s, t);
      }
    }
  }

  lemma ArrivalKeepsOneToken(s: State, thread: Thread)
    requires OneToken(s) && thread.pc.Waiting?
    ensures OneToken(s.(threads := s.threads + [thread]))
  {
    assert (s.threads + [thread])[..|s.threads|] == s.threads;
    forall agentID
      ensures Holders(s.threads + [thread], agentID) + One(HasToken(s, agentID)) == 1
    {
      assert Holders(s.threads, agentID) + One(HasToken(s, agentID)) == 1;
    }
  }

  lemma TokenIgnoresTasks(s: State, e: State)
    requires OneToken(s) && e.threads == s.threads && e.turns == s.turns
    ensures OneToken(e)
  {
    forall agentID
      ensures Holders(e.threads, agentID) + One(HasToken(e, agentID)) == 1
    {
      assert Holders(s.threads, agentID) + One(HasToken(s, agentID)) == 1;
    }
  }

  lemma DoKeepsOneToken(s: State, a: Action)
    requires OneToken(s)
    ensures OneToken(Do(s, a))
  {
    var e := Do(s, a);
    if e.threads == s.threads && e.turns == s.turns {
      TokenIgnoresTasks(s, e);
    } else if a.Add? {
      var thread := Thread(a.id, a.task.agentID, false, Waiting);
      ArrivalKeepsOneToken(s, thread);
      TokenIgnoresTasks(s.(threads := s.threads + [thread]), e);
    } else {
      ThreadStepKeepsOneToken(s, a.t, e.threads[a.t], e.turns);
      TokenIgnoresTasks(s.(threads := s.threads[a.t := e.threads[a.t]], turns := e.turns), e);
    }
  }

  /** Everything but an arrival only removes tasks or changes their status, and keeps the threads' ids and agents. */
  lemma StepKeepsTasks(s: State, e: State)
    requires TasksOk(s) && |e.threads| == |s.threads|
    requires forall id | id in e.tasks :: id in s.tasks && e.tasks[id].status != "running" && e.tasks[id].agentID == s.tasks[id].agentID
    requires forall t | 0 <= t < |s.threads| :: e.threads[t].id == s.threads[t].id && e.threads[t].agentID == s.threads[t].agentID
    ensures TasksOk(e)
  {
  }

  lemma DoKeepsTasks(s: State, a: Action)
    requires TasksOk(s) && Admissible(s, a)
    ensures TasksOk(Do(s, a))
  {
    if a.Add? {
      ArrivalKeepsTasks(s, a.id, a.task);
    } else {
      StepKeepsIdentities(s, a);
      StepKeepsThreads(s, a);
      StepKeepsTasks(s, Do(s, a));
    }
  }

  /** A step leaves a task as it is, but for its status; only Think sets it to thinking. */
  lemma StepKeepsDetails(s: State, a: Action, id: string)
    requires !a.Add? && id in Do(s, a).tasks
    ensures id in s.tasks && Do(s, a).tasks[id] == s.tasks[id].(status := Do(s, a).tasks[id].status)
    ensures Do(s, a).tasks[id].status == s.tasks[id].status || Do(s, a).tasks[id].status != "running"
    ensures Do(s, a).tasks[id].status == "thinking" ==>
              s.tasks[id].status == "thinking"
              || (a.Think? && a.t < |s.threads| && s.threads[a.t].pc.Holding? && s.threads[a.t].id == id)
  {
  }

  lemma StepKeepsIdentities(s: State, a: Action)
    requires TasksOk(s) && !a.Add?
    ensures forall id | id in Do(s, a).tasks ::
              id in s.tasks && Do(s, a).tasks[id].status != "running" && Do(s, a).tasks[id].agentID == s.tasks[id].agentID
  {
    forall id | id in Do(s, a).tasks
      ensures id in s.tasks && Do(s, a).tasks[id].status != "running" && Do(s, a).tasks[id].agentID == s.tasks[id].agentID
    {
      StepKeepsDetails(s, a, id);
    }
  }

  lemma StepKeepsThreads(s: State, a: Action)
    requires !a.Add?
    ensures |Do(s, a).threads| == |s.threads|
    ensures forall t | 0 <= t < |s.threads| ::
              Do(s, a).threads[t].id == s.threads[t].id && Do(s, a).threads[t].agentID == s.threads[t].agentID
  {
  }

  lemma ArrivalKeepsTasks(s: State, id: string, task: Task)
    requires TasksOk(s) && Admissible(s, Add(id, task))
    ensures TasksOk(Do(s, Add(id, task)))
  {
    assert forall t | 0 <= t < |s.threads| :: s.threads[t] in s.threads;
  }

  lemma DoKeepsThinkers(s: State, a: Action)
    requires ThinkersOk(s)
    ensures ThinkersOk(Do(s, a))
  {
    var e := Do(s, a);
    if !e.shuttingDown {
      forall id | id in e.tasks && e.tasks[id].status == "thinking"
        ensures exists t: nat :: ThinkerOf(e.threads, id, t)
      {
        if a.Think? && a.t < |s.threads| && s.threads[a.t].pc.Holding? && s.threads[a.t].id == id {
          assert ThinkerOf(e.threads, id, a.t);
        } else {
          ThinkerStays(s, a, id);
        }
      }
    }
  }

  lemma ThinkerStays(s: State, a: Action, id: string)
    requires ThinkersOk(s) && !Do(s, a).shuttingDown && id in Do(s, a).tasks && Do(s, a).tasks[id].status == "thinking"
    requires !(a.Think? && a.t < |s.threads| && s.threads[a.t].pc.Holding? && s.threads[a.t].id == id)
    ensures exists t: nat :: ThinkerOf(Do(s, a).threads, id, t)
  {
    if a.Add? {
      var t: nat :| ThinkerOf(s.threads, id, t);
      assert ThinkerOf(Do(s, a).threads, id, t);
    } else {
      StepKeepsDetails(s, a, id);
      var t: nat :| ThinkerOf(s.threads, id, t);
      assert ThinkerOf(Do(s, a).threads, id, t);
    }
  }

  lemma {:induction false} RunKeepsSafe(s: State, actions: seq<Action>)
    requires Safe(s) && AdmissibleRun(s, actions)
    ensures Safe(Run(s, actions))
    decreases |actions|
  {
    if actions != [] {
      DoKeepsOneToken(s, actions[0]);
      DoKeepsTasks(s, actions[0]);
      DoKeepsThinkers(s, actions[0]);
      RunKeepsSafe(Do(s, actions[0]), actions[1..]);
    }
  }

  // ---- The theorems ----

  /** In every run each agent has one token, in its channel or with one thread; so giving it back never blocks. */
  lemma OneTokenPerAgent(actions: seq<Action>, agentID: string, t: nat)
    requires AdmissibleRun(INITIAL, actions)
    ensures var s := Run(INITIAL, actions);
            && Holders(s.threads, agentID) + One(HasToken(s, agentID)) == 1
            && (t < |s.threads| && s.threads[t].pc.Settled? ==> !HasToken(s, s.threads[t].agentID))
  {
    RunKeepsSafe(INITIAL, actions);
    var s := Run(INITIAL, actions);
    if t < |s.threads| && s.threads[t].pc.Settled? {
      HoldersCount(s.threads, s.threads[t].agentID, t, t);
      assert Holders(s.threads, s.threads[t].agentID) + One(HasToken(s, s.threads[t].agentID)) == 1;
    }
  }

  lemma OneThinkerPerAgent(actions: seq<Action>, a: string, b: string)
    requires AdmissibleRun(INITIAL, actions)
    ensures var s := Run(INITIAL, actions);
            !s.shuttingDown && a in s.tasks && b in s.tasks && s.tasks[a].status == s.tasks[b].status == "thinking" ==>
              s.tasks[a].agentID == s.tasks[b].agentID ==> a == b
  {
    RunKeepsSafe(INITIAL, actions);
    var s := Run(INITIAL, actions);
    if !s.shuttingDown && a in s.tasks && b in s.tasks && s.tasks[a].status == s.tasks[b].status == "thinking" {
      var t: nat :| ThinkerOf(s.threads, a, t);
      var u: nat :| ThinkerOf(s.threads, b, u);
      if s.tasks[a].agentID == s.tasks[b].agentID {
        TwoHoldersAreOne(s, t, u);
      }
    }
  }

  /** Outside shutdown the lookup is never ambiguous, and a thinking task in the scope is the one it finds. */
  lemma LookupIsUnambiguous(actions: seq<Action>, agentID: string, channelID: string, nodeID: string)
    requires AdmissibleRun(INITIAL, actions)
    ensures var s := Run(INITIAL, actions);
            var matches := Matches(s.tasks, agentID, channelID, nodeID);
            && "" !in s.tasks
            && (!s.shuttingDown ==> |matches| <= 1)
            && (!s.shuttingDown ==> forall id | id in s.tasks && s.tasks[id].status == "thinking"
                                                && Executing(s.tasks[id], agentID, channelID, nodeID) :: matches == {id})
  {
    RunKeepsSafe(INITIAL, actions);
    var s := Run(INITIAL, actions);
    var matches := Matches(s.tasks, agentID, channelID, nodeID);
    if !s.shuttingDown {
      forall a, b | a in matches && b in matches
        ensures a == b
      {
        OneThinkerPerAgent(actions, a, b);
      }
      AtMostOne(matches);
    }
  }

  /**
   So outside shutdown a thinking task gets its own run id and token from a lookup with its agent and
   node, and its channel or none.
   */
  lemma ThinkerGetsItsCredential(actions: seq<Action>, id: string, channelID: string, runID: string, token: string)
    requires AdmissibleRun(INITIAL, actions)
    requires var s := Run(INITIAL, actions);
             && !s.shuttingDown && id in s.tasks && s.tasks[id].status == "thinking"
             && (channelID == "" || channelID == s.tasks[id].channelID)
             && IsCredential(s.tasks, s.tasks[id].agentID, channelID, s.tasks[id].nodeID, runID, token)
    ensures var t := Run(INITIAL, actions).tasks[id];
            token == t.agentToken && runID == if t.runID != "" then t.runID else id
  {
    var s := Run(INITIAL, actions);
    LookupIsUnambiguous(actions, s.tasks[id].agentID, channelID, s.tasks[id].nodeID);
    assert Matches(s.tasks, s.tasks[id].agentID, channelID, s.tasks[id].nodeID) == {id};
  }

  /**
   The turn of a task: a new attempt is registered as queued, takes the token if it is there, thinks,
   settles its status and gives the token back; the same attempt again is refused.
   */
  lemma TaskTakesItsTurn(s: State, id: string, task: Task, status: string)
    requires HasToken(s, task.agentID) && (status == "completed" || status == "failed" || status == "cancelled")
    ensures var t := |s.threads|;
            var added := Do(s, Add(id, task));
            var thinking := Do(Do(added, Acquire(t)), Think(t));
            var settled := Do(thinking, Finish(t, status));
            if id in s.tasks && s.tasks[id].attemptID == task.attemptID then added == s
            else
              && added.tasks == s.tasks[id := task.(status := "queued")]
              && thinking.tasks == s.tasks[id := task.(status := "thinking")] && !HasToken(thinking, task.agentID)
              && settled.tasks == s.tasks[id := task.(status := status)] && !HasToken(settled, task.agentID)
              && Do(settled, Release(t)).tasks == settled.tasks && HasToken(Do(settled, Release(t)), task.agentID)
  {
  }

  /** Without the token nobody starts to think; a cancelled thread may stop waiting, and its task is cancelled, outside shutdown. */
  lemma WaiterNeedsToken(s: State, t: nat)
    requires t < |s.threads| && s.threads[t].pc.Waiting? && !HasToken(s, s.threads[t].agentID)
    ensures Do(s, Acquire(t)) == s && Do(s, Think(t)) == s
    ensures var id, e := s.threads[t].id, Do(Do(s, CancelContext(t)), GiveUp(t));
            && e.threads[t].pc.Gone? && e.turns == s.turns
            && e.tasks == if id in s.tasks && !s.shuttingDown then s.tasks[id := s.tasks[id].(status := "cancelled")] else s.tasks
  {
  }

  /** A task that is cancelled or deleted from outside keeps its thread, which goes on. */
  lemma OutsideActs(s: State, id: string)
    ensures Do(s, Delete(id)) == s.(tasks := s.tasks - {id})
    ensures Do(s, MarkCancelled(id)) ==
            if id in s.tasks then s.(tasks := s.tasks[id := s.tasks[id].(status := "cancelled")]) else s
    ensures Do(s, Shutdown) == s.(shuttingDown := true)
  {
  }

  lemma AtMostOne(matches: set<string>)
    requires forall a, b | a in matches && b in matches :: a == b
    ensures |matches| <= 1 && forall id | id in matches :: matches == {id}
  {
    if matches != {} {
      var a := Pick(matches);
      assert matches == {a};
    }
  }

  // ---- When a shutdown can make it ambiguous ----

  predicate InScope(t: Task, agentID: string, channelID: string, nodeID: string) {
    t.agentID == agentID && (channelID == "" || t.channelID == channelID) && t.nodeID == nodeID
  }

  /** The thread has yet to reach the step that sets the status to thinking. */
  predicate BeforeThinking(thread: Thread, id: string) {
    thread.id == id && (thread.pc.Waiting? || thread.pc.Holding?)
  }

  /** A registered task that is thinking or has a thread that can still get there. */
  ghost predicate CanThink(s: State, id: string) {
    id in s.tasks && (s.tasks[id].status == "thinking" || exists t | 0 <= t < |s.threads| :: BeforeThinking(s.threads[t], id))
  }

  ghost predicate Candidate(s: State, id: string, agentID: string, channelID: string, nodeID: string) {
    CanThink(s, id) && InScope(s.tasks[id], agentID, channelID, nodeID)
  }

  ghost predicate TwoCandidates(s: State, agentID: string, channelID: string, nodeID: string) {
    exists a, b | a != b :: Candidate(s, a, agentID, channelID, nodeID) && Candidate(s, b, agentID, channelID, nodeID)
  }

  predicate NoArrivals(actions: seq<Action>) {
    forall a <- actions :: !a.Add?
  }

  /** Without arrivals a task that can think could do so before. */
  lemma CouldThinkBefore(s: State, a: Action, id: string)
    requires !a.Add? && CanThink(Do(s, a), id)
    ensures CanThink(s, id)
    ensures Do(s, a).tasks[id] == s.tasks[id].(status := Do(s, a).tasks[id].status)
  {
    var e := Do(s, a);
    StepKeepsThreads(s, a);
    StepKeepsDetails(s, a, id);
    if a.Think? && a.t < |s.threads| && s.threads[a.t].pc.Holding? && s.threads[a.t].id == id {
      assert BeforeThinking(s.threads[a.t], id);
    } else if e.tasks[id].status != "thinking" {
      var t :| 0 <= t < |e.threads| && BeforeThinking(e.threads[t], id);
      assert BeforeThinking(s.threads[t], id);
    }
  }

  lemma {:induction false} CandidateBefore(s: State, actions: seq<Action>, id: string, agentID: string, channelID: string, nodeID: string)
    requires NoArrivals(actions) && Candidate(Run(s, actions), id, agentID, channelID, nodeID)
    ensures Candidate(s, id, agentID, channelID, nodeID)
    decreases |actions|
  {
    if actions != [] {
      assert actions[0] in actions;
      CandidateBefore(Do(s, actions[0]), actions[1..], id, agentID, channelID, nodeID);
      CouldThinkBefore(s, actions[0], id);
    }
  }

  lemma RunOne(s: State, a: Action)
    ensures Run(s, [a]) == Do(s, a)
  {
    assert Run(Do(s, a), [a][1..]) == Do(s, a);
  }

  lemma {:induction false} RunsJoin(s: State, first: seq<Action>, rest: seq<Action>)
    ensures Run(s, first + rest) == Run(Run(s, first), rest)
    decreases |first|
  {
    if first == [] {
      assert first + rest == rest;
    } else {
      assert (first + rest)[0] == first[0] && (first + rest)[1..] == first[1..] + rest;
      RunsJoin(Do(s, first[0]), first[1..], rest);
    }
  }

  /** What the constructions below keep: the tokens, the tasks, and that a shutdown is under way. */
  ghost predicate Closing(s: State) {
    OneToken(s) && TasksOk(s) && s.shuttingDown
  }

  lemma DoKeepsClosing(s: State, a: Action)
    requires Closing(s) && !a.Add?
    ensures Closing(Do(s, a))
  {
    DoKeepsOneToken(s, a);
    DoKeepsTasks(s, a);
  }

  predicate SameWaiting(s: State, e: State) {
    |e.threads| == |s.threads| && forall t | 0 <= t < |s.threads| && s.threads[t].pc.Waiting? :: e.threads[t] == s.threads[t]
  }

  lemma {:induction false} SomeHolder(threads: seq<Thread>, agentID: string) returns (t: nat)
    requires Holders(threads, agentID) > 0
    ensures t < |threads| && Holds(threads[t], agentID)
  {
    t := |threads| - 1;
    if !Holds(threads[t], agentID) {
      t := SomeHolder(threads[..t], agentID);
    }
  }

  /** During a shutdown the end of whoever has the token is suppressed, and the token comes back. */
  lemma FreeToken(s: State, agentID: string) returns (actions: seq<Action>, e: State)
    requires Closing(s)
    ensures NoArrivals(actions) && e == Run(s, actions) && Closing(e)
    ensures e.tasks == s.tasks && HasToken(e, agentID) && SameWaiting(s, e)
  {
    if HasToken(s, agentID) {
      actions, e := [], s;
    } else {
      assert Holders(s.threads, agentID) + One(HasToken(s, agentID)) == 1;
      var h := SomeHolder(s.threads, agentID);
      var settled := s;
      actions := [];
      if !s.threads[h].pc.Settled? {
        actions := [Suppress(h)];
        settled := Do(s, Suppress(h));
        DoKeepsClosing(s, Suppress(h));
        RunOne(s, Suppress(h));
      }
      e := Do(settled, Release(h));
      DoKeepsClosing(settled, Release(h));
      RunsJoin(s, actions, [Release(h)]);
      RunOne(settled, Release(h));
      actions := actions + [Release(h)];
    }
  }

  /** A thread that waits gets the freed token and thinks. */
  lemma WaitingThinks(s: State, t: nat) returns (actions: seq<Action>, e: State)
    requires Closing(s) && t < |s.threads| && s.threads[t].pc.Waiting?
    ensures NoArrivals(actions) && e == Run(s, actions) && Closing(e)
    ensures e.tasks == SetStatus(s.tasks, s.threads[t].id, "thinking")
    ensures |e.threads| == |s.threads|
    ensures forall u | 0 <= u < |s.threads| && s.threads[u].pc.Waiting? && u != t :: e.threads[u] == s.threads[u]
  {
    var first, freed := FreeToken(s, s.threads[t].agentID);
    var taken := Do(freed, Acquire(t));
    DoKeepsClosing(freed, Acquire(t));
    e := Do(taken, Think(t));
    DoKeepsClosing(taken, Think(t));
    RunOne(freed, Acquire(t));
    RunsJoin(s, first, [Acquire(t)]);
    RunOne(taken, Think(t));
    RunsJoin(s, first + [Acquire(t)], [Think(t)]);
    actions := first + [Acquire(t)] + [Think(t)];
  }

  /** During a shutdown a task that can think is made to, and no other task that thinks or waits is touched. */
  lemma MakeThink(s: State, id: string) returns (actions: seq<Action>, e: State)
    requires Closing(s) && CanThink(s, id)
    ensures NoArrivals(actions) && e == Run(s, actions) && Closing(e)
    ensures e.tasks == SetStatus(s.tasks, id, "thinking") && |e.threads| == |s.threads|
    ensures forall u | 0 <= u < |s.threads| && s.threads[u].pc.Waiting? && s.threads[u].id != id :: e.threads[u] == s.threads[u]
  {
    if s.tasks[id].status == "thinking" {
      actions, e := [], s;
      assert s.tasks == SetStatus(s.tasks, id, "thinking");
    } else {
      var t :| 0 <= t < |s.threads| && BeforeThinking(s.threads[t], id);
      if s.threads[t].pc.Waiting? {
        actions, e := WaitingThinks(s, t);
      } else {
        actions, e := [Think(t)], Do(s, Think(t));
        DoKeepsClosing(s, Think(t));
        RunOne(s, Think(t));
      }
    }
  }

  /** The task thinks already or can wait for its turn. */
  ghost predicate CanBeSecond(s: State, id: string)
    requires id in s.tasks
  {
    s.tasks[id].status == "thinking" || exists u | 0 <= u < |s.threads| :: s.threads[u].id == id && s.threads[u].pc.Waiting?
  }

  /** First the one that has the token, if one of the two has: freeing it would end that thread. */
  lemma MakeBothThink(s: State, a: string, b: string) returns (actions: seq<Action>, e: State)
    requires Closing(s) && a != b && CanThink(s, a) && CanThink(s, b)
    requires CanBeSecond(s, b)
    ensures NoArrivals(actions) && e == Run(s, actions)
    ensures e.tasks == SetStatus(SetStatus(s.tasks, a, "thinking"), b, "thinking")
  {
    var first, middle := MakeThink(s, a);
    assert CanThink(middle, b) by {
      if s.tasks[b].status != "thinking" {
        var u :| 0 <= u < |s.threads| && s.threads[u].id == b && s.threads[u].pc.Waiting?;
        assert BeforeThinking(middle.threads[u], b);
      }
    }
    var rest, last := MakeThink(middle, b);
    RunsJoin(s, first, rest);
    actions, e := first + rest, last;
  }

  /** Two threads of one agent do not both have the token, so the two tasks can think one after the other. */
  lemma OneCanBeSecond(s: State, a: string, b: string)
    requires Closing(s) && a != b && CanThink(s, a) && CanThink(s, b) && s.tasks[a].agentID == s.tasks[b].agentID
    ensures CanBeSecond(s, a) || CanBeSecond(s, b)
  {
    if s.tasks[a].status != "thinking" && s.tasks[b].status != "thinking" {
      var t :| 0 <= t < |s.threads| && BeforeThinking(s.threads[t], a);
      var u :| 0 <= u < |s.threads| && BeforeThinking(s.threads[u], b);
      if s.threads[t].pc.Holding? && s.threads[u].pc.Holding? {
        TwoHoldersAreOne(s, t, u);
      }
    }
  }

  lemma EitherOrder(s: State, a: string, b: string) returns (actions: seq<Action>, e: State)
    requires Closing(s) && a != b && CanThink(s, a) && CanThink(s, b) && s.tasks[a].agentID == s.tasks[b].agentID
    ensures NoArrivals(actions) && e == Run(s, actions)
    ensures e.tasks == SetStatus(SetStatus(s.tasks, a, "thinking"), b, "thinking")
  {
    OneCanBeSecond(s, a, b);
    if CanBeSecond(s, b) {
      actions, e := MakeBothThink(s, a, b);
    } else {
      actions, e := MakeBothThink(s, b, a);
    }
  }

  lemma ShutdownPairs(s: State, a: string, b: string, agentID: string, channelID: string, nodeID: string) returns (more: seq<Action>)
    requires Safe(s) && a != b && Candidate(s, a, agentID, channelID, nodeID) && Candidate(s, b, agentID, channelID, nodeID)
    ensures NoArrivals(more) && |Matches(Run(s, more).tasks, agentID, channelID, nodeID)| >= 2
  {
    var closing := Do(s, Shutdown);
    ShutdownCloses(s, a, b);
    var rest, e := EitherOrder(closing, a, b);
    RunOne(s, Shutdown);
    RunsJoin(s, [Shutdown], rest);
    more := [Shutdown] + rest;
    TwoMatches(Matches(e.tasks, agentID, channelID, nodeID), a, b);
  }

  lemma ShutdownCloses(s: State, a: string, b: string)
    requires Safe(s) && CanThink(s, a) && CanThink(s, b)
    ensures Closing(Do(s, Shutdown)) && CanThink(Do(s, Shutdown), a) && CanThink(Do(s, Shutdown), b)
  {
    TokenIgnoresTasks(s, Do(s, Shutdown));
  }

  /**
   Exactly when a shutdown can make the lookup ambiguous: from a reachable state, without further
   arrivals, some continuation gives it two matches if and only if two tasks in its scope are each
   thinking or have a thread that can still get there.
   */
  lemma AmbiguousIff(actions: seq<Action>, agentID: string, channelID: string, nodeID: string)
    requires AdmissibleRun(INITIAL, actions)
    ensures var s := Run(INITIAL, actions);
            TwoCandidates(s, agentID, channelID, nodeID) <==>
            exists more: seq<Action> | NoArrivals(more) :: |Matches(Run(s, more).tasks, agentID, channelID, nodeID)| >= 2
  {
    RunKeepsSafe(INITIAL, actions);
    var s := Run(INITIAL, actions);
    if TwoCandidates(s, agentID, channelID, nodeID) {
      var a, b :| a != b && Candidate(s, a, agentID, channelID, nodeID) && Candidate(s, b, agentID, channelID, nodeID);
      var more := ShutdownPairs(s, a, b, agentID, channelID, nodeID);
    }
    forall more: seq<Action> | NoArrivals(more) && |Matches(Run(s, more).tasks, agentID, channelID, nodeID)| >= 2
      ensures TwoCandidates(s, agentID, channelID, nodeID)
    {
      MatchesWereCandidates(s, more, agentID, channelID, nodeID);
    }
  }

  lemma MatchesWereCandidates(s: State, more: seq<Action>, agentID: string, channelID: string, nodeID: string)
    requires TasksOk(s) && NoArrivals(more) && |Matches(Run(s, more).tasks, agentID, channelID, nodeID)| >= 2
    ensures TwoCandidates(s, agentID, channelID, nodeID)
  {
    var e := Run(s, more);
    var matches := Matches(e.tasks, agentID, channelID, nodeID);
    RunKeepsTasks(s, more);
    var a := Pick(matches);
    assert matches != {a};
    var b := PickMissing(matches, {a});
    CandidateBefore(s, more, a, agentID, channelID, nodeID);
    CandidateBefore(s, more, b, agentID, channelID, nodeID);
  }

  lemma {:induction false} RunKeepsTasks(s: State, actions: seq<Action>)
    requires TasksOk(s) && NoArrivals(actions)
    ensures TasksOk(Run(s, actions))
    decreases |actions|
  {
    if actions != [] {
      assert actions[0] in actions;
      DoKeepsTasks(s, actions[0]);
      RunKeepsTasks(Do(s, actions[0]), actions[1..]);
    }
  }

  // ---- The shortest such continuation ----

  lemma RunFirst(s: State, a: Action, rest: seq<Action>)
    ensures Run(s, [a] + rest) == Run(Do(s, a), rest)
  {
    RunOne(s, a);
    RunsJoin(s, [a], rest);
  }

  /** A thread's end is suppressed and its token goes to another thread, which starts to think. */
  function HandOver(t: nat, u: nat): seq<Action> {
    [Shutdown] + ([Suppress(t)] + ([Release(t)] + ([Acquire(u)] + ([Think(u)] + []))))
  }

  lemma TokenIsFreed(s: State, t: nat, rest: seq<Action>)
    requires t < |s.threads| && s.threads[t].pc.Thinking?
    ensures var freed := Move(s, t, Gone).(turns := s.turns[s.threads[t].agentID := true], shuttingDown := true);
            Run(s, [Shutdown] + ([Suppress(t)] + ([Release(t)] + rest))) == Run(freed, rest)
  {
    var s1 := Do(s, Shutdown);
    var s2 := Do(s1, Suppress(t));
    var s3 := Do(s2, Release(t));
    RunFirst(s, Shutdown, [Suppress(t)] + ([Release(t)] + rest));
    RunFirst(s1, Suppress(t), [Release(t)] + rest);
    RunFirst(s2, Release(t), rest);
    assert s3.threads == s.threads[t := s.threads[t].(pc := Gone)];
  }

  lemma TokenIsTaken(s: State, u: nat)
    requires u < |s.threads| && s.threads[u].pc.Waiting? && HasToken(s, s.threads[u].agentID)
    ensures Run(s, [Acquire(u)] + ([Think(u)] + [])).tasks == SetStatus(s.tasks, s.threads[u].id, "thinking")
  {
    var s1 := Do(s, Acquire(u));
    RunFirst(s, Acquire(u), [Think(u)] + []);
    RunFirst(s1, Think(u), []);
  }

  /** A task thinks and another of its agent waits: a suppressed end leaves the status and gives the token back. */
  lemma ShutdownMakesItAmbiguous(s: State, t: nat, u: nat)
    requires TasksOk(s) && t < |s.threads| && u < |s.threads| && s.threads[t].pc.Thinking? && s.threads[u].pc.Waiting?
    requires var a, b := s.threads[t].id, s.threads[u].id;
             && a != b && a in s.tasks && b in s.tasks && s.tasks[a].status == "thinking"
             && s.tasks[a].agentID == s.tasks[b].agentID && s.tasks[a].nodeID == s.tasks[b].nodeID
    ensures |Matches(Run(s, HandOver(t, u)).tasks, s.threads[t].agentID, "", s.tasks[s.threads[t].id].nodeID)| >= 2
  {
    TokenIsFreed(s, t, [Acquire(u)] + ([Think(u)] + []));
    TokenIsTaken(Move(s, t, Gone).(turns := s.turns[s.threads[t].agentID := true], shuttingDown := true), u);
    var a, b := s.threads[t].id, s.threads[u].id;
    TwoMatches(Matches(Run(s, HandOver(t, u)).tasks, s.threads[t].agentID, "", s.tasks[a].nodeID), a, b);
  }
}
