/**
 * The chat steward: messages of many users are handled concurrently, await by await; it
 * proposes, the user applies, and risky actions wait in an approval inbox.
 */
module Steward {
  import opened Options

  type User = nat
  type Account = nat

  datatype Action =
    | Inspect | CreateAgent(handle: string) | EditAgent(id: string) | DeleteAgent(id: string)
    | EditWorkflow(id: string) | Sensitive(what: string) | Refuse

  datatype Tier = Safe | Dangerous | CrossHub | Forbidden

  /** The classifier and the stand-in for the model that turns an instruction into actions. */
  datatype Brain = Brain(classify: Action -> Tier, propose: (User, string) -> seq<Action>)

  datatype Status = Pending | Approved | Rejected
  datatype Item = Item(user: User, action: Action, status: Status)

  /** What a message asks for; an apply carries the number it names, if it is one. */
  datatype Verb = Bind(claimed: Option<User>) | Unbind | Plan(instruction: string) | Apply(n: Option<int>)

  /** Where the handling of a message is; the user is the one its account was bound to when looked up. */
  datatype Pc =
    | Start | Looked(user: User) | Planning(user: User, actions: seq<Action>)
    | Unbinding(user: User) | Clearing(user: User) | Over
  datatype Task = Task(account: Account, verb: Verb, pc: Pc)

  /** How an action came to be executed. */
  datatype Via = Inline | ByItem(item: nat)
  datatype Done = Done(user: User, action: Action, via: Via)

  /** What happened to proposals, in order; an apply names the message it belongs to. */
  datatype Log =
    | Planned(user: User, actions: seq<Action>) | Cleared(user: User)
    | Applied(task: nat, user: User, action: Action)

  datatype World = World(
    bound: map<Account, User>,
    proposals: map<User, seq<Action>>,
    inbox: seq<Item>,
    executed: seq<Done>,
    tasks: seq<Task>,
    log: seq<Log>)

  datatype Event = Receive(account: Account, verb: Verb) | StepTask(task: nat) | Resolve(item: nat, approve: bool)

  const Empty := World(map[], map[], [], [], [], [])

  // --- the port -----------------------------------------------------------------------------

  /** `apply`: classified anew; safe runs, forbidden is refused, anything else is parked. */
  function ApplyAction(b: Brain, w: World, t: nat, u: User, a: Action): World {
    var w' := w.(log := w.log + [Applied(t, u, a)]);
    match b.classify(a)
    case Forbidden => w'
    case Safe => w'.(executed := w.executed + [Done(u, a, Inline)])
    case _ => w'.(inbox := w.inbox + [Item(u, a, Pending)])
  }

  /** `resolveInbox`: only a pending item is decided, and an approved one executed. */
  function ResolveItem(w: World, k: nat, approve: bool): World {
    if k >= |w.inbox| || !w.inbox[k].status.Pending? then w
    else
      var item := w.inbox[k];
      var w' := w.(inbox := w.inbox[k := item.(status := if approve then Approved else Rejected)]);
      if approve then w'.(executed := w.executed + [Done(item.user, item.action, ByItem(k))]) else w'
  }

  // --- the router -----------------------------------------------------------------------

  function SetPc(w: World, t: nat, pc: Pc): World
    requires t < |w.tasks|
  {
    w.(tasks := w.tasks[t := w.tasks[t].(pc := pc)])
  }

  /** The number picks one of the user's latest proposed actions. */
  function Chosen(w: World, u: User, n: Option<int>): Option<Action> {
    if u in w.proposals && n.Some? && 1 <= n.value <= |w.proposals[u]| then Some(w.proposals[u][n.value - 1]) else None
  }

  /** From the answer of the binding lookup to the next await. */
  function Route(b: Brain, w: World, t: nat, u: User): World
    requires t < |w.tasks|
  {
    match w.tasks[t].verb
    case Apply(n) =>
      (match Chosen(w, u, n)
       case None => SetPc(w, t, Over)
       case Some(a) => SetPc(ApplyAction(b, w, t, u, a), t, Over))
    case Plan(instruction) =>
      if instruction == "" then SetPc(w, t, Over) else SetPc(w, t, Planning(u, b.propose(u, instruction)))
    case Unbind => SetPc(w, t, Unbinding(u))
    case Bind(_) => SetPc(w, t, Over)
  }

  function TaskStep(b: Brain, w: World, t: nat): World {
    if t >= |w.tasks| then w
    else
      var task := w.tasks[t];
      match task.pc
      case Start =>
        if task.verb.Bind? then
          if task.verb.claimed.Some? then
            SetPc(w, t, Over).(bound := w.bound[task.account := task.verb.claimed.value])
          else SetPc(w, t, Over)
        else if task.account !in w.bound then SetPc(w, t, Over)
        else SetPc(w, t, Looked(w.bound[task.account]))
      case Looked(u) => Route(b, w, t, u)
      case Planning(u, actions) =>
        SetPc(w, t, Over).(proposals := w.proposals[u := actions], log := w.log + [Planned(u, actions)])
      case Unbinding(u) => SetPc(w, t, Clearing(u)).(bound := w.bound - {task.account})
      case Clearing(u) => SetPc(w, t, Over).(proposals := w.proposals - {u}, log := w.log + [Cleared(u)])
      case Over => w
  }

  function Step(b: Brain, w: World, e: Event): World {
    match e
    case Receive(account, verb) => w.(tasks := w.tasks + [Task(account, verb, Start)])
    case StepTask(t) => TaskStep(b, w, t)
    case Resolve(k, approve) => ResolveItem(w, k, approve)
  }

  function Run(b: Brain, es: seq<Event>): World {
    if es == [] then Empty else Step(b, Run(b, es[..|es| - 1]), es[|es| - 1])
  }

  // --- conservation -------------------------------------------------------------------------

  datatype Ask = Ask(user: User, action: Action)

  /** The applies of one sort, in order. */
  ghost function Applies(log: seq<Log>, sort: Action -> bool): seq<Ask> {
    if log == [] then []
    else
      var last := log[|log| - 1];
      Applies(log[..|log| - 1], sort) +
      (if last.Applied? && sort(last.action) then [Ask(last.user, last.action)] else [])
  }

  ghost function InlineDone(executed: seq<Done>): seq<Ask> {
    if executed == [] then []
    else
      var last := executed[|executed| - 1];
      InlineDone(executed[..|executed| - 1]) + (if last.via.Inline? then [Ask(last.user, last.action)] else [])
  }

  ghost function ItemAsks(inbox: seq<Item>): seq<Ask> {
    seq(|inbox|, k requires 0 <= k < |inbox| => Ask(inbox[k].user, inbox[k].action))
  }

  ghost function TimesDone(executed: seq<Done>, k: nat): nat {
    if executed == [] then 0
    else TimesDone(executed[..|executed| - 1], k) + (if executed[|executed| - 1].via == ByItem(k) then 1 else 0)
  }

  function IsSafe(b: Brain): Action -> bool { (a: Action) => b.classify(a).Safe? }
  function IsRisky(b: Brain): Action -> bool { (a: Action) => b.classify(a).Dangerous? || b.classify(a).CrossHub? }

  /** Where each executed action came from. */
  ghost predicate Sourced(b: Brain, w: World, d: Done) {
    match d.via
    case Inline => b.classify(d.action).Safe?
    case ByItem(k) => k < |w.inbox| && w.inbox[k] == Item(d.user, d.action, Approved) && IsRisky(b)(d.action)
  }

  /** The latest finished plan of a user, unless it was cleared since. */
  ghost function Latest(log: seq<Log>, u: User): Option<seq<Action>> {
    if log == [] then None
    else
      var last := log[|log| - 1];
      if last.Planned? && last.user == u then Some(last.actions)
      else if last.Cleared? && last.user == u then None
      else Latest(log[..|log| - 1], u)
  }

  /** Every apply took an action of that user's own latest proposal. */
  ghost predicate OwnLatest(log: seq<Log>) {
    log != [] ==>
      var before, last := log[..|log| - 1], log[|log| - 1];
      && OwnLatest(before)
      && (last.Applied? ==> Latest(before, last.user).Some? && last.action in Latest(before, last.user).value)
  }

  ghost predicate Conserved(b: Brain, w: World) {
    && InlineDone(w.executed) == Applies(w.log, IsSafe(b))
    && ItemAsks(w.inbox) == Applies(w.log, IsRisky(b))
    && (forall k: nat :: TimesDone(w.executed, k) == if k < |w.inbox| && w.inbox[k].status.Approved? then 1 else 0)
    && (forall i :: 0 <= i < |w.executed| ==> Sourced(b, w, w.executed[i]))
  }

  ghost predicate Remembered(w: World) {
    && OwnLatest(w.log)
    && (forall u: User :: Latest(w.log, u) == if u in w.proposals then Some(w.proposals[u]) else None)
  }

  lemma SafeKeeps(b: Brain, w: World, t: nat, u: User, a: Action)
    requires Conserved(b, w) && b.classify(a).Safe?
    ensures Conserved(b, ApplyAction(b, w, t, u, a))
  {
    var w' := ApplyAction(b, w, t, u, a);
    assert w'.log[..|w.log|] == w.log;
    assert w'.executed[..|w.executed|] == w.executed;
    forall i | 0 <= i < |w'.executed| ensures Sourced(b, w', w'.executed[i]) {
      if i < |w.executed| { assert Sourced(b, w, w.executed[i]); }
    }
  }

  lemma RiskyKeeps(b: Brain, w: World, t: nat, u: User, a: Action)
    requires Conserved(b, w) && IsRisky(b)(a)
    ensures Conserved(b, ApplyAction(b, w, t, u, a))
  {
    var w' := ApplyAction(b, w, t, u, a);
    assert w'.log[..|w.log|] == w.log;
    assert ItemAsks(w'.inbox) == ItemAsks(w.inbox) + [Ask(u, a)];
    forall i | 0 <= i < |w'.executed| ensures Sourced(b, w', w'.executed[i]) { assert Sourced(b, w, w.executed[i]); }
    forall k: nat ensures TimesDone(w'.executed, k) == if k < |w'.inbox| && w'.inbox[k].status.Approved? then 1 else 0 {
      assert TimesDone(w.executed, k) == if k < |w.inbox| && w.inbox[k].status.Approved? then 1 else 0;
    }
  }

  lemma ForbiddenKeeps(b: Brain, w: World, t: nat, u: User, a: Action)
    requires Conserved(b, w) && b.classify(a).Forbidden?
    ensures Conserved(b, ApplyAction(b, w, t, u, a))
  {
    var w' := ApplyAction(b, w, t, u, a);
    assert w'.log[..|w.log|] == w.log;
    forall i | 0 <= i < |w'.executed| ensures Sourced(b, w', w'.executed[i]) { assert Sourced(b, w, w.executed[i]); }
  }

  lemma ApplyKeeps(b: Brain, w: World, t: nat, u: User, a: Action)
    requires Conserved(b, w) && Remembered(w) && u in w.proposals && a in w.proposals[u]
    ensures Conserved(b, ApplyAction(b, w, t, u, a)) && Remembered(ApplyAction(b, w, t, u, a))
  {
    var log := w.log + [Applied(t, u, a)];
    assert log[..|w.log|] == w.log;
    assert Latest(w.log, u) == Some(w.proposals[u]);
    match b.classify(a)
    case Safe => SafeKeeps(b, w, t, u, a);
    case Forbidden => ForbiddenKeeps(b, w, t, u, a);
    case _ => RiskyKeeps(b, w, t, u, a);
  }

  /** A log entry that is no apply. */
  lemma NoteKeeps(b: Brain, w: World, note: Log)
    requires Conserved(b, w) && Remembered(w) && !note.Applied?
    ensures var log := w.log + [note];
            && Applies(log, IsSafe(b)) == Applies(w.log, IsSafe(b))
            && Applies(log, IsRisky(b)) == Applies(w.log, IsRisky(b))
            && OwnLatest(log)
            && forall v: User :: Latest(log, v) ==
                 if note.Planned? && note.user == v then Some(note.actions)
                 else if note.Cleared? && note.user == v then None else Latest(w.log, v)
  {
    assert (w.log + [note])[..|w.log|] == w.log;
  }

  /** A step that only notes something: a plan stored or proposals cleared. */
  lemma NoteStepKeeps(b: Brain, w: World, w': World, note: Log)
    requires Conserved(b, w) && Remembered(w) && !note.Applied?
    requires w'.inbox == w.inbox && w'.executed == w.executed && w'.log == w.log + [note]
    requires w'.proposals == if note.Planned? then w.proposals[note.user := note.actions]
                             else if note.Cleared? then w.proposals - {note.user} else w.proposals
    ensures Conserved(b, w') && Remembered(w')
  {
    NoteKeeps(b, w, note);
    forall i | 0 <= i < |w'.executed| ensures Sourced(b, w', w'.executed[i]) { assert Sourced(b, w, w.executed[i]); }
  }

  lemma ResolveKeeps(b: Brain, w: World, k: nat, approve: bool)
    requires Conserved(b, w) && Remembered(w)
    ensures Conserved(b, ResolveItem(w, k, approve)) && Remembered(ResolveItem(w, k, approve))
  {
    var w' := ResolveItem(w, k, approve);
    if k < |w.inbox| && w.inbox[k].status.Pending? {
      assert ItemAsks(w'.inbox) == ItemAsks(w.inbox);
      assert w'.executed[..|w.executed|] == w.executed;
      assert ItemAsks(w.inbox)[k] == Ask(w.inbox[k].user, w.inbox[k].action);
      AppliesAreOfSort(w.log, IsRisky(b), k);
      forall i | 0 <= i < |w'.executed| ensures Sourced(b, w', w'.executed[i]) {
        if i < |w.executed| { assert Sourced(b, w, w.executed[i]); }
      }
      forall j: nat
        ensures TimesDone(w'.executed, j) == if j < |w'.inbox| && w'.inbox[j].status.Approved? then 1 else 0
      {
        assert TimesDone(w.executed, j) == if j < |w.inbox| && w.inbox[j].status.Approved? then 1 else 0;
      }
    }
  }

  lemma {:induction false} AppliesAreOfSort(log: seq<Log>, sort: Action -> bool, k: nat)
    requires k < |Applies(log, sort)|
    ensures sort(Applies(log, sort)[k].action)
  {
    if k < |Applies(log[..|log| - 1], sort)| { AppliesAreOfSort(log[..|log| - 1], sort, k); }
  }

  /** Only tasks moved. */
  ghost predicate SameBooks(w: World, w': World) {
    w'.inbox == w.inbox && w'.executed == w.executed && w'.log == w.log && w'.proposals == w.proposals
  }

  lemma SameBooksKeep(b: Brain, w: World, w': World)
    requires Conserved(b, w) && Remembered(w) && SameBooks(w, w')
    ensures Conserved(b, w') && Remembered(w')
  {
    forall i | 0 <= i < |w'.executed| ensures Sourced(b, w', w'.executed[i]) { assert Sourced(b, w, w.executed[i]); }
  }

  /** What a step of a message's handling notes, if it is not the apply itself. */
  ghost function Note(w: World, t: nat): Option<Log>
    requires t < |w.tasks|
  {
    var task := w.tasks[t];
    match task.pc
    case Planning(u, actions) => Some(Planned(u, actions))
    case Clearing(u) => Some(Cleared(u))
    case _ => None
  }

  lemma TaskNotes(b: Brain, w: World, t: nat)
    requires t < |w.tasks| && !w.tasks[t].pc.Looked?
    ensures var w' := TaskStep(b, w, t); var note := Note(w, t);
            && w'.inbox == w.inbox && w'.executed == w.executed
            && w'.log == (if note.Some? then w.log + [note.value] else w.log)
            && w'.proposals == (if note.Some? && note.value.Planned?
                                then w.proposals[note.value.user := note.value.actions]
                                else if note.Some? && note.value.Cleared? then w.proposals - {note.value.user}
                                else w.proposals)
  {}

  lemma TaskKeeps(b: Brain, w: World, t: nat)
    requires Conserved(b, w) && Remembered(w)
    ensures Conserved(b, TaskStep(b, w, t)) && Remembered(TaskStep(b, w, t))
  {
    if t >= |w.tasks| { return; }
    if w.tasks[t].pc.Looked? {
      RouteKeeps(b, w, t, w.tasks[t].pc.user);
    } else {
      TaskNotes(b, w, t);
      match Note(w, t)
      case Some(note) => NoteStepKeeps(b, w, TaskStep(b, w, t), note);
      case None => SameBooksKeep(b, w, TaskStep(b, w, t));
    }
  }

  lemma RouteKeeps(b: Brain, w: World, t: nat, u: User)
    requires t < |w.tasks| && Conserved(b, w) && Remembered(w)
    ensures Conserved(b, Route(b, w, t, u)) && Remembered(Route(b, w, t, u))
  {
    var w' := Route(b, w, t, u);
    if w.tasks[t].verb.Apply? && Chosen(w, u, w.tasks[t].verb.n).Some? {
      var a := Chosen(w, u, w.tasks[t].verb.n).value;
      ApplyKeeps(b, w, t, u, a);
      SameBooksKeep(b, ApplyAction(b, w, t, u, a), w');
    } else {
      SameBooksKeep(b, w, w');
    }
  }

  lemma {:induction false} RunKeeps(b: Brain, es: seq<Event>)
    ensures Conserved(b, Run(b, es)) && Remembered(Run(b, es))
  {
    if es != [] {
      var w := Run(b, es[..|es| - 1]);
      RunKeeps(b, es[..|es| - 1]);
      match es[|es| - 1]
      case Receive(_, _) => SameBooksKeep(b, w, Run(b, es));
      case StepTask(t) => TaskKeeps(b, w, t);
      case Resolve(k, approve) => ResolveKeeps(b, w, k, approve);
    }
  }

  // --- what this means for every run --------------------------------------------------------

  /**
   * Over every interleaving of messages and decisions: the inline executions are exactly the
   * safe applies, in order; the inbox holds exactly the risky ones, in order; an item is
   * executed exactly once if it was approved and never otherwise; nothing forbidden runs.
   */
  lemma ExecutedIsAllowed(b: Brain, es: seq<Event>)
    ensures var w := Run(b, es);
            && InlineDone(w.executed) == Applies(w.log, IsSafe(b))
            && ItemAsks(w.inbox) == Applies(w.log, IsRisky(b))
            && (forall k: nat ::
                  TimesDone(w.executed, k) == if k < |w.inbox| && w.inbox[k].status.Approved? then 1 else 0)
            && (forall i :: 0 <= i < |w.executed| ==>
                  var d := w.executed[i];
                  && !b.classify(d.action).Forbidden?
                  && (!b.classify(d.action).Safe? ==>
                        d.via.ByItem? && d.via.item < |w.inbox|
                        && w.inbox[d.via.item] == Item(d.user, d.action, Approved)))
  {
    RunKeeps(b, es);
    var w := Run(b, es);
    forall i | 0 <= i < |w.executed| ensures Sourced(b, w, w.executed[i]) { }
  }

  lemma {:induction false} OwnAt(log: seq<Log>, i: nat)
    requires OwnLatest(log) && i < |log| && log[i].Applied?
    ensures Latest(log[..i], log[i].user).Some? && log[i].action in Latest(log[..i], log[i].user).value
  {
    if i < |log| - 1 {
      OwnAt(log[..|log| - 1], i);
      assert log[..|log| - 1][..i] == log[..i];
    }
  }

  /** Every apply, in every run, took an action of that user's own latest finished proposal. */
  lemma AppliesAreOwn(b: Brain, es: seq<Event>, i: nat)
    requires i < |Run(b, es).log| && Run(b, es).log[i].Applied?
    ensures var log := Run(b, es).log;
            Latest(log[..i], log[i].user).Some? && log[i].action in Latest(log[..i], log[i].user).value
  {
    RunKeeps(b, es);
    OwnAt(Run(b, es).log, i);
  }

  /** A decision on an item that is already decided, or never existed, changes nothing. */
  lemma DecidedOnce(b: Brain, es: seq<Event>, k: nat, first: bool, second: bool)
    ensures var w := Run(b, es); ResolveItem(ResolveItem(w, k, first), k, second) == ResolveItem(w, k, first)
  {}
}
