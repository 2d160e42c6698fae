/** The steward's port and router, updated in place, one method per stretch between awaits. */
module StewardApp {
  import opened Options
  import opened Steward

  class App {
    const brain: Brain
    var bound: map<Account, User>
    var proposals: map<User, seq<Action>>
    var inbox: seq<Item>
    var executed: seq<Done>
    var created: seq<(User, string)>
    var deleted: seq<string>
    var edited: seq<string>
    var tasks: seq<Task>
    ghost var log: seq<Log>

    ghost function View(): World
      reads this
    {
      World(bound, proposals, inbox, executed, tasks, log)
    }

    /** The three lists show what was executed, sort by sort, in order. */
    ghost predicate Valid()
      reads this
    {
      && created == Created(executed) && deleted == Deleted(executed) && edited == Edited(executed)
    }

    constructor (brain: Brain)
      ensures this.brain == brain && Valid() && View() == Empty
    {
      this.brain := brain;
      bound, proposals, inbox, executed, tasks, log := map[], map[], [], [], [], [];
      created, deleted, edited := [], [], [];
    }

    /** `executeSilently`: only three sorts of action leave a trace. */
    method Execute(user: User, action: Action, via: Via)
      requires Valid()
      modifies this`executed, this`created, this`deleted, this`edited
      ensures Valid() && executed == old(executed) + [Done(user, action, via)]
    {
      executed := executed + [Done(user, action, via)];
      assert executed[..|executed| - 1] == old(executed);
      match action {
        case CreateAgent(handle) => created := created + [(user, handle)];
        case DeleteAgent(id) => deleted := deleted + [id];
        case EditWorkflow(id) => edited := edited + [id];
        case _ =>
      }
    }

    /** `apply`: classify anew, whatever tier the proposal showed. */
    method ApplyOne(t: nat, user: User, action: Action)
      requires Valid()
      modifies this
      ensures Valid() && View() == ApplyAction(brain, old(View()), t, user, action)
    {
      log := log + [Applied(t, user, action)];
      match brain.classify(action) {
        case Forbidden =>
        case Safe => Execute(user, action, Inline);
        case _ => inbox := inbox + [Item(user, action, Pending)];
      }
    }

    /** `resolveInbox`. */
    method ResolveInbox(k: nat, approve: bool)
      requires Valid()
      modifies this
      ensures Valid() && View() == Step(brain, old(View()), Resolve(k, approve))
    {
      if k >= |inbox| || !inbox[k].status.Pending? { return; }
      var item := inbox[k];
      inbox := inbox[k := item.(status := if approve then Approved else Rejected)];
      if approve { Execute(item.user, item.action, ByItem(k)); }
    }

    /** A message arrives. */
    method OnMessage(account: Account, verb: Verb) returns (t: nat)
      requires Valid()
      modifies this
      ensures Valid() && t == |old(tasks)| && View() == Step(brain, old(View()), Receive(account, verb))
    {
      t := |tasks|;
      tasks := tasks + [Task(account, verb, Start)];
    }

    method Finish(t: nat, pc: Pc)
      requires t < |tasks|
      modifies this`tasks
      ensures View() == SetPc(old(View()), t, pc)
    {
      tasks := tasks[t := tasks[t].(pc := pc)];
    }

    /** `route`, from the answer of the binding lookup on. */
    method RouteFrom(t: nat, user: User)
      requires Valid() && t < |tasks|
      modifies this
      ensures Valid() && View() == Route(brain, old(View()), t, user)
    {
      match tasks[t].verb {
        case Apply(n) =>
          if user in proposals && n.Some? && 1 <= n.value <= |proposals[user]| {
            ApplyOne(t, user, proposals[user][n.value - 1]);
          }
          Finish(t, Over);
        case Plan(instruction) =>
          if instruction == "" {
            Finish(t, Over);
          } else {
            Finish(t, Planning(user, brain.propose(user, instruction)));
          }
        case Unbind => Finish(t, Unbinding(user));
        case Bind(_) => Finish(t, Over);
      }
    }

    /** The handling of message `t` goes on from where it awaited. */
    method Continue(t: nat)
      requires Valid() && t < |tasks|
      modifies this
      ensures Valid() && View() == Step(brain, old(View()), StepTask(t))
    {
      var task := tasks[t];
      match task.pc {
        case Start =>
          if task.verb.Bind? {
            if task.verb.claimed.Some? { bound := bound[task.account := task.verb.claimed.value]; }
            Finish(t, Over);
          } else if task.account !in bound {
            Finish(t, Over);
          } else {
            Finish(t, Looked(bound[task.account]));
          }
        case Looked(user) => RouteFrom(t, user);
        case Planning(user, actions) =>
          proposals := proposals[user := actions];
          log := log + [Planned(user, actions)];
          Finish(t, Over);
        case Unbinding(user) =>
          bound := bound - {task.account};
          Finish(t, Clearing(user));
        case Clearing(user) =>
          proposals := proposals - {user};
          log := log + [Cleared(user)];
          Finish(t, Over);
        case Over =>
      }
    }
  }

  ghost function Created(executed: seq<Done>): seq<(User, string)> {
    if executed == [] then []
    else
      var last := executed[|executed| - 1];
      Created(executed[..|executed| - 1]) + (if last.action.CreateAgent? then [(last.user, last.action.handle)] else [])
  }

  ghost function Deleted(executed: seq<Done>): seq<string> {
    if executed == [] then []
    else
      var last := executed[|executed| - 1].action;
      Deleted(executed[..|executed| - 1]) + (if last.DeleteAgent? then [last.id] else [])
  }

  ghost function Edited(executed: seq<Done>): seq<string> {
    if executed == [] then []
    else
      var last := executed[|executed| - 1].action;
      Edited(executed[..|executed| - 1]) + (if last.EditWorkflow? then [last.id] else [])
  }
}
