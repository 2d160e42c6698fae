/** The multi-turn tool loop of an agent, and when a brain that follows a plan makes it dispatch that plan. */
module ToolLoop {

  datatype Block<A> = TextBlock(text: string) | ToolUse(target: A)

  datatype Message<A> =
    | UserText(text: string)
    | UserResults(results: seq<string>)
    | AssistantText(text: string)
    | Assistant(blocks: seq<Block<A>>)

  /** What a provider streams: some text, the dispatches it asks for, and whether it stopped for them. */
  datatype Reply<A> = Reply(text: string, uses: seq<A>, wantsTool: bool)

  type Brain<!A> = seq<Message<A>> -> Reply<A>

  /** What a dispatch answers, or the error text it is turned into. */
  type Tool<!A> = (A, seq<Message<A>>) -> string

  datatype Outcome<A> = Outcome(dispatched: seq<A>, last: Reply<A>, aborted: bool)

  function UseBlocks<A>(uses: seq<A>): seq<Block<A>> {
    seq(|uses|, i requires 0 <= i < |uses| => ToolUse(uses[i]))
  }

  /** The two messages a round appends. */
  function Round<A>(reply: Reply<A>, tool: Tool<A>, history: seq<Message<A>>): seq<Message<A>> {
    [ Assistant((if reply.text != "" then [TextBlock(reply.text)] else []) + UseBlocks(reply.uses)),
      UserResults(seq(|reply.uses|, i requires 0 <= i < |reply.uses| => tool(reply.uses[i], history))) ]
  }

  function Loop<A>(brain: Brain<A>, tool: Tool<A>, history: seq<Message<A>>, rounds: nat, maxRounds: nat): Outcome<A>
    requires rounds <= maxRounds
    decreases maxRounds - rounds
  {
    var reply := brain(history);
    if !reply.wantsTool || reply.uses == [] then Outcome([], reply, false)
    else if rounds == maxRounds then Outcome([], reply, true)
    else
      var rest := Loop(brain, tool, history + Round(reply, tool, history), rounds + 1, maxRounds);
      rest.(dispatched := reply.uses + rest.dispatched)
  }

  /** `runToolLoop`. */
  method RunToolLoop<A>(brain: Brain<A>, tool: Tool<A>, start: seq<Message<A>>, maxRounds: nat) returns (r: Outcome<A>)
    ensures r == Loop(brain, tool, start, 0, maxRounds)
  {
    var history := start;
    var rounds := 0;
    var dispatched: seq<A> := [];
    while true
      invariant rounds <= maxRounds
      invariant var rest := Loop(brain, tool, history, rounds, maxRounds);
                Loop(brain, tool, start, 0, maxRounds) == rest.(dispatched := dispatched + rest.dispatched)
      decreases maxRounds - rounds
    {
      var reply := brain(history);
      if !reply.wantsTool || reply.uses == [] {
        assert dispatched + [] == dispatched;
        return Outcome(dispatched, reply, false);
      }
      if rounds == maxRounds {
        assert dispatched + [] == dispatched;
        return Outcome(dispatched, reply, true);
      }
      ghost var rest := Loop(brain, tool, history + Round(reply, tool, history), rounds + 1, maxRounds);
      assert dispatched + (reply.uses + rest.dispatched) == (dispatched + reply.uses) + rest.dispatched;
      rounds := rounds + 1;
      dispatched := dispatched + reply.uses;
      history := history + Round(reply, tool, history);
    }
  }

  // --- reading the history ----------------------------------------------------------------

  function UsesIn<A>(blocks: seq<Block<A>>): nat {
    if blocks == [] then 0
    else UsesIn(blocks[..|blocks| - 1]) + (if blocks[|blocks| - 1].ToolUse? then 1 else 0)
  }

  function Uses<A>(history: seq<Message<A>>): nat {
    if history == [] then 0
    else
      var last := history[|history| - 1];
      Uses(history[..|history| - 1]) + (if last.Assistant? then UsesIn(last.blocks) else 0)
  }

  /** `countDispatched`: the tool uses in the assistant messages. */
  method CountDispatched<A>(history: seq<Message<A>>) returns (n: nat)
    ensures n == Uses(history)
  {
    n := 0;
    for i := 0 to |history|
      invariant n == Uses(history[..i])
    {
      assert history[..i + 1][..i] == history[..i];
      if history[i].Assistant? {
        var blocks := history[i].blocks;
        for j := 0 to |blocks|
          invariant n == Uses(history[..i]) + UsesIn(blocks[..j])
        {
          assert blocks[..j + 1][..j] == blocks[..j];
          if blocks[j].ToolUse? { n := n + 1; }
        }
        assert blocks[..|blocks|] == blocks;
      }
    }
    assert history[..|history|] == history;
  }

  lemma RoundUses<A>(reply: Reply<A>, tool: Tool<A>, history: seq<Message<A>>)
    requires |reply.uses| == 1
    ensures Uses(history + Round(reply, tool, history)) == Uses(history) + 1
  {
    var round := Round(reply, tool, history);
    var longer := history + round;
    assert longer[..|longer| - 1] == history + [round[0]];
    assert (history + [round[0]])[..|history|] == history;
    var blocks := round[0].blocks;
    assert blocks[|blocks| - 1] == ToolUse(reply.uses[0]);
    var head := blocks[..|blocks| - 1];
    assert head == (if reply.text != "" then [TextBlock(reply.text)] else []);
    assert head != [] ==> head[..0] == [] && UsesIn(head) == 0;
  }

  /** `history` is `start` after `k` rounds of the brain. */
  ghost predicate After<A>(brain: Brain<A>, tool: Tool<A>, start: seq<Message<A>>, history: seq<Message<A>>, k: nat) {
    if k == 0 then history == start
    else
      && |history| >= 2
      && var before := history[..|history| - 2];
         After(brain, tool, start, before, k - 1) && history == before + Round(brain(before), tool, before)
  }

  /** After `k` rounds the brain asks for entry `k` of the plan, and behind the plan for nothing. */
  ghost predicate Follows<A(!new)>(brain: Brain<A>, tool: Tool<A>, start: seq<Message<A>>, plan: seq<A>) {
    forall history, k: nat :: After(brain, tool, start, history, k) && k <= |plan| ==>
      if k < |plan| then brain(history).wantsTool && brain(history).uses == [plan[k]]
      else !brain(history).wantsTool
  }

  lemma {:induction false} LoopFromRound<A(!new)>(brain: Brain<A>, tool: Tool<A>, start: seq<Message<A>>,
                                                 history: seq<Message<A>>, k: nat, plan: seq<A>, maxRounds: nat)
    requires Follows(brain, tool, start, plan) && After(brain, tool, start, history, k)
    requires k <= |plan| && k <= maxRounds
    ensures var r := Loop(brain, tool, history, k, maxRounds);
            && r.aborted == (|plan| > maxRounds)
            && r.dispatched == plan[k..if |plan| <= maxRounds then |plan| else maxRounds]
    decreases |plan| - k
  {
    if k < |plan| && k < maxRounds {
      var round := Round(brain(history), tool, history);
      assert (history + round)[..|history + round| - 2] == history;
      LoopFromRound(brain, tool, start, history + round, k + 1, plan, maxRounds);
    }
  }

  // --- any brain ----------------------------------------------------------------------------

  predicate Wants<A(==)>(reply: Reply<A>) { reply.wantsTool && reply.uses != [] }

  /** What was asked for on the way: the rounds from `start` to `history`, one behind the other. */
  ghost function Asked<A(!new)>(brain: Brain<A>, history: seq<Message<A>>, k: nat): seq<A> {
    if k == 0 || |history| < 2 then []
    else
      var before := history[..|history| - 2];
      Asked(brain, before, k - 1) + brain(before).uses
  }

  /** The loop is over with `history`, after `k` rounds: the first reply that asks for nothing, or the limit. */
  ghost predicate Ends<A(!new)>(brain: Brain<A>, tool: Tool<A>, start: seq<Message<A>>, history: seq<Message<A>>,
                                k: nat, maxRounds: nat) {
    && After(brain, tool, start, history, k) && k <= maxRounds
    && (forall h, j: nat :: j < k && After(brain, tool, start, h, j) ==> Wants(brain(h)))
    && (k == maxRounds || !Wants(brain(history)))
  }

  lemma {:induction false} AfterIsOne<A(!new)>(brain: Brain<A>, tool: Tool<A>, start: seq<Message<A>>,
                                              g: seq<Message<A>>, h: seq<Message<A>>, k: nat)
    requires After(brain, tool, start, g, k) && After(brain, tool, start, h, k)
    ensures g == h
  {
    if k > 0 { AfterIsOne(brain, tool, start, g[..|g| - 2], h[..|h| - 2], k - 1); }
  }

  lemma {:induction false} EndsSomewhere<A(!new)>(brain: Brain<A>, tool: Tool<A>, start: seq<Message<A>>,
                                                 history: seq<Message<A>>, k: nat, maxRounds: nat)
    requires After(brain, tool, start, history, k) && k <= maxRounds
    requires forall h, j: nat :: j < k && After(brain, tool, start, h, j) ==> Wants(brain(h))
    ensures exists h, n: nat :: Ends(brain, tool, start, h, n, maxRounds)
    decreases maxRounds - k
  {
    if k == maxRounds || !Wants(brain(history)) {
      assert Ends(brain, tool, start, history, k, maxRounds);
    } else {
      var round := Round(brain(history), tool, history);
      assert (history + round)[..|history + round| - 2] == history;
      forall h, j: nat | j <= k && After(brain, tool, start, h, j) ensures Wants(brain(h)) {
        if j == k { AfterIsOne(brain, tool, start, h, history, k); }
      }
      EndsSomewhere(brain, tool, start, history + round, k + 1, maxRounds);
    }
  }

  /**
   * For any brain: whatever it asks for in a round is dispatched, all of it and in order, round
   * after round; the loop ends with the first reply that asks for nothing, or at the limit.
   */
  lemma EveryUseIsDispatched<A(!new)>(brain: Brain<A>, tool: Tool<A>, start: seq<Message<A>>, maxRounds: nat)
    ensures exists history, k: nat ::
              && Ends(brain, tool, start, history, k, maxRounds)
              && Loop(brain, tool, start, 0, maxRounds) ==
                 Outcome(Asked(brain, history, k), brain(history), Wants(brain(history)))
  {
    EndsSomewhere(brain, tool, start, start, 0, maxRounds);
    var history, k: nat :| Ends(brain, tool, start, history, k, maxRounds);
    AskedSoFar(brain, tool, start, history, k, maxRounds);
    var rest := Loop(brain, tool, history, k, maxRounds);
    assert rest == Outcome([], brain(history), Wants(brain(history)));
    assert Asked(brain, history, k) + [] == Asked(brain, history, k);
  }

  lemma {:induction false} AskedSoFar<A(!new)>(brain: Brain<A>, tool: Tool<A>, start: seq<Message<A>>,
                                              history: seq<Message<A>>, k: nat, maxRounds: nat)
    requires After(brain, tool, start, history, k) && k <= maxRounds
    requires forall h, j: nat :: j < k && After(brain, tool, start, h, j) ==> Wants(brain(h))
    ensures var rest := Loop(brain, tool, history, k, maxRounds);
            Loop(brain, tool, start, 0, maxRounds) == rest.(dispatched := Asked(brain, history, k) + rest.dispatched)
  {
    if k == 0 {
      var rest := Loop(brain, tool, start, 0, maxRounds);
      assert [] + rest.dispatched == rest.dispatched;
    } else {
      var before := history[..|history| - 2];
      AskedSoFar(brain, tool, start, before, k - 1, maxRounds);
      var rest := Loop(brain, tool, history, k, maxRounds);
      assert Loop(brain, tool, before, k - 1, maxRounds) == rest.(dispatched := brain(before).uses + rest.dispatched);
      assert Asked(brain, before, k - 1) + (brain(before).uses + rest.dispatched) ==
             Asked(brain, history, k) + rest.dispatched;
    }
  }

  /** What a round adds to the conversation: the words, if any, each dispatch, and each dispatch's own answer. */
  lemma RoundSays<A>(reply: Reply<A>, tool: Tool<A>, history: seq<Message<A>>)
    ensures var said := if reply.text != "" then [TextBlock(reply.text)] else [];
            var round := Round(reply, tool, history);
            && |round| == 2 && round[0].Assistant? && round[1].UserResults?
            && |round[0].blocks| == |said| + |reply.uses| && said <= round[0].blocks
            && |round[1].results| == |reply.uses|
            && (forall i :: 0 <= i < |reply.uses| ==>
                  && round[0].blocks[|said| + i] == ToolUse(reply.uses[i])
                  && round[1].results[i] == tool(reply.uses[i], history))
  {}

  /** A brain that follows a plan dispatches exactly the plan, as far as the round limit allows. */
  lemma PlanIsDispatched<A(!new)>(brain: Brain<A>, tool: Tool<A>, start: seq<Message<A>>, plan: seq<A>, maxRounds: nat)
    requires Follows(brain, tool, start, plan)
    ensures var r := Loop(brain, tool, start, 0, maxRounds);
            && r.aborted == (|plan| > maxRounds)
            && r.dispatched == plan[..if |plan| <= maxRounds then |plan| else maxRounds]
  {
    LoopFromRound(brain, tool, start, start, 0, plan, maxRounds);
  }

  ghost predicate PlannedAt<A>(reply: Reply<A>, plan: seq<A>, turn: nat) {
    if turn < |plan| then reply.wantsTool && reply.uses == [plan[turn]] else !reply.wantsTool
  }

  /** A brain that re-plans on every turn follows its plan if the plan is the same on every turn. */
  lemma ReplanningFollows<A(!new)>(brain: Brain<A>, tool: Tool<A>, start: seq<Message<A>>, plan: seq<A>)
    requires Uses(start) == 0
    requires forall history, k: nat :: After(brain, tool, start, history, k) && start <= history && k <= |plan| ==>
               PlannedAt(brain(history), plan, Uses(history))
    ensures Follows(brain, tool, start, plan)
  {
    forall history, k: nat | After(brain, tool, start, history, k) && k <= |plan|
      ensures Uses(history) == k && start <= history
    {
      UsesGrow(brain, tool, start, plan, history, k);
    }
  }

  lemma {:induction false} UsesGrow<A(!new)>(brain: Brain<A>, tool: Tool<A>, start: seq<Message<A>>, plan: seq<A>,
                                            history: seq<Message<A>>, k: nat)
    requires Uses(start) == 0
    requires forall history, k: nat :: After(brain, tool, start, history, k) && start <= history && k <= |plan| ==>
               PlannedAt(brain(history), plan, Uses(history))
    requires After(brain, tool, start, history, k) && k <= |plan|
    ensures Uses(history) == k && start <= history
  {
    if k > 0 {
      var before := history[..|history| - 2];
      UsesGrow(brain, tool, start, plan, before, k - 1);
      RoundUses(brain(before), tool, before);
    }
  }
}
