/** A whole session: the brain in the tool loop, what it dispatches, and what it reads out of the prompt. */
module PreceptorSession {
  import opened Options
  import opened Numbers
  import opened Situation
  import opened ToolLoop
  import opened Preceptor

  const SituationLabel := "今日状态"
  const ArchiveLabel := "档案进度"

  /** Parsing the two blocks; a garbled one falls back to a normal day, a missing rank to 1. */
  datatype Reader = Reader(situation: string -> Option<Situation>, rank: (string, Pillar) -> Option<int>)

  const NormalDay := Situation(30.0, Normal, None, None)

  function ReadSituation(reader: Reader, text: string): Situation {
    match FindBlock(text, SituationLabel)
    case None => NormalDay
    case Some(block) => (match reader.situation(block) case None => NormalDay case Some(s) => s)
  }

  function ReadRank(reader: Reader, text: string, p: Pillar): PillarRank {
    match FindBlock(text, ArchiveLabel)
    case None => PillarRank(p, 1)
    case Some(block) => (match reader.rank(block, p) case None => PillarRank(p, 1) case Some(n) => PillarRank(p, n))
  }

  function ReadRanks(reader: Reader, text: string): seq<PillarRank> {
    [ReadRank(reader, text, Body), ReadRank(reader, text, Mind), ReadRank(reader, text, Lore)]
  }

  function PlanOf(reader: Reader, text: string): SessionPlan {
    Plan(ReadSituation(reader, text), ReadRanks(reader, text))
  }

  // --- the conversation as one text ---------------------------------------------------------

  function BlockTexts(blocks: seq<Block<Pillar>>): seq<string> {
    if blocks == [] then []
    else (if blocks[0].TextBlock? then [blocks[0].text] else []) + BlockTexts(blocks[1..])
  }

  function MessageTexts(m: Message<Pillar>): seq<string> {
    match m
    case UserText(t) => [t]
    case AssistantText(t) => [t]
    case Assistant(blocks) => BlockTexts(blocks)
    case UserResults(_) => []
  }

  function Texts(history: seq<Message<Pillar>>): seq<string> {
    if history == [] then [] else Texts(history[..|history| - 1]) + MessageTexts(history[|history| - 1])
  }

  function Join(parts: seq<string>): string {
    if parts == [] then ""
    else if |parts| == 1 then parts[0]
    else Join(parts[..|parts| - 1]) + "\n" + parts[|parts| - 1]
  }

  function GatherText(system: string, history: seq<Message<Pillar>>): string {
    Join((if system != "" then [system] else []) + Texts(history))
  }

  // --- the brain --------------------------------------------------------------------------

  function NumberText(n: int): (r: string)
    ensures NoBrace(r)
  {
    if n < 0 then "-" + NatText(-n) else NatText(n)
  }

  function Title(p: Pillar): (r: string)
    ensures NoBrace(r)
  {
    match p case Body => "肉身" case Mind => "心志" case Lore => "学识"
  }

  function DrillText(d: Drill): (r: string)
    ensures r != "" && NoBrace(r)
  {
    "操练" + Title(d.pillar) + " — " +
    (match d.why
     case Focused => "你点名专攻,首要"
     case MostBehind(rank) => "落后最多(第" + NumberText(rank) + "阶),优先")
    + "。"
  }

  /** What the brain says with a dispatch. */
  lemma DrillSays(p: Pillar, rank: nat)
    ensures var title := match p case Body => "肉身" case Mind => "心志" case Lore => "学识";
            && DrillText(Drill(p, Focused)) == "操练" + title + " — 你点名专攻,首要。"
            && DrillText(Drill(p, MostBehind(rank))) == "操练" + title + " — 落后最多(第" + NatText(rank) + "阶),优先。"
  {}

  function Turn(drills: seq<Drill>, turn: nat): Reply<Pillar> {
    if turn < |drills| then Reply(DrillText(drills[turn]), [drills[turn].pillar], true) else Reply("done", [], false)
  }

  /** A brain that plans from the text of the whole conversation, on every turn anew. */
  function TextBrain(planOf: string -> seq<Drill>, system: string): Brain<Pillar> {
    (history: seq<Message<Pillar>>) => Turn(planOf(GatherText(system, history)), Uses(history))
  }

  function DrillsFrom(reader: Reader): string -> seq<Drill> {
    (text: string) => PlanOf(reader, text).drills
  }

  function Brained(reader: Reader, system: string): Brain<Pillar> { TextBrain(DrillsFrom(reader), system) }

  const DefaultRounds: nat := 8

  lemma SamePlan(reader: Reader, text: string, more: string)
    requires NoBrace(more)
    ensures PlanOf(reader, text + more) == PlanOf(reader, text)
  {
    FindBlockStable(text, more, SituationLabel);
    FindBlockStable(text, more, ArchiveLabel);
  }

  /** What a round adds to the text: the brain's own words. */
  lemma RoundText(system: string, history: seq<Message<Pillar>>, reply: Reply<Pillar>, tool: Tool<Pillar>)
    requires history != [] && |Texts(history)| > 0 && reply.text != "" && |reply.uses| == 1
    ensures var longer := history + Round(reply, tool, history);
            && GatherText(system, longer) == GatherText(system, history) + ("\n" + reply.text)
            && |Texts(longer)| > 0
  {
    var round := Round(reply, tool, history);
    var longer := history + round;
    assert longer[..|longer| - 1] == history + [round[0]];
    assert (history + [round[0]])[..|history|] == history;
    var blocks := round[0].blocks;
    assert blocks == [TextBlock(reply.text), ToolUse(reply.uses[0])];
    assert blocks[1..] == [ToolUse(reply.uses[0])] && blocks[1..][1..] == [];
    assert BlockTexts(blocks[1..]) == [];
    assert BlockTexts(blocks) == [reply.text];
    assert Texts(longer) == Texts(history) + [reply.text];
    var head := if system != "" then [system] else [];
    var parts := head + Texts(history);
    assert head + Texts(longer) == parts + [reply.text];
    assert (parts + [reply.text])[..|parts|] == parts;
  }

  /** After `k` rounds the text is the first one and brace-less words of the brain. */
  ghost predicate Continues(system: string, start: seq<Message<Pillar>>, history: seq<Message<Pillar>>) {
    Longer(GatherText(system, start), GatherText(system, history))
  }

  /** `b` is `a` and some brace-less text. */
  ghost predicate Longer(a: string, b: string) { exists more :: NoBrace(more) && b == a + more }

  lemma EvenLonger(a: string, b: string, said: string)
    requires Longer(a, b) && NoBrace(said)
    ensures Longer(a, b + said)
  {
    var more :| NoBrace(more) && b == a + more;
    assert b + said == a + (more + said);
    assert NoBrace(more + said);
  }

  /** Brace-less text does not change the plan. */
  ghost predicate Steady(planOf: string -> seq<Drill>) {
    forall text, more :: NoBrace(more) ==> planOf(text + more) == planOf(text)
  }

  /** `k` tool uses so far, and no text but the first and brace-less words. */
  ghost predicate OnPlan(system: string, start: seq<Message<Pillar>>, history: seq<Message<Pillar>>, k: nat) {
    history != [] && Uses(history) == k && |Texts(history)| > 0 && Continues(system, start, history)
  }

  lemma StartsOnPlan(system: string, prompt: string)
    ensures OnPlan(system, [UserText(prompt)], [UserText(prompt)], 0)
  {
    var start: seq<Message<Pillar>> := [UserText(prompt)];
    assert start[..0] == [];
    assert NoBrace("") && GatherText(system, start) == GatherText(system, start) + "";
  }

  lemma RoundOnPlan(system: string, start: seq<Message<Pillar>>, before: seq<Message<Pillar>>, k: nat,
                    reply: Reply<Pillar>, tool: Tool<Pillar>)
    requires OnPlan(system, start, before, k) && |reply.uses| == 1 && reply.text != "" && NoBrace(reply.text)
    ensures OnPlan(system, start, before + Round(reply, tool, before), k + 1)
  {
    RoundUses(reply, tool, before);
    RoundText(system, before, reply, tool);
    EvenLonger(GatherText(system, start), GatherText(system, before), "\n" + reply.text);
  }

  lemma RepliesFromPlan(planOf: string -> seq<Drill>, system: string, start: seq<Message<Pillar>>,
                        history: seq<Message<Pillar>>, k: nat)
    requires Steady(planOf) && OnPlan(system, start, history, k)
    ensures TextBrain(planOf, system)(history) == Turn(planOf(GatherText(system, start)), k)
  {
    var more :| NoBrace(more) && GatherText(system, history) == GatherText(system, start) + more;
  }

  lemma DrillRound(system: string, start: seq<Message<Pillar>>, before: seq<Message<Pillar>>, k: nat,
                   drills: seq<Drill>, tool: Tool<Pillar>)
    requires OnPlan(system, start, before, k) && k < |drills|
    ensures OnPlan(system, start, before + Round(Turn(drills, k), tool, before), k + 1)
  {
    RoundOnPlan(system, start, before, k, Turn(drills, k), tool);
  }

  lemma {:induction false} StaysOnPlan(planOf: string -> seq<Drill>, system: string, tool: Tool<Pillar>, prompt: string,
                                       history: seq<Message<Pillar>>, k: nat, drills: seq<Drill>)
    requires Steady(planOf) && drills == planOf(GatherText(system, [UserText(prompt)]))
    requires After(TextBrain(planOf, system), tool, [UserText(prompt)], history, k) && k <= |drills|
    ensures OnPlan(system, [UserText(prompt)], history, k)
    ensures TextBrain(planOf, system)(history) == Turn(drills, k)
  {
    if k == 0 {
      StartsOnPlan(system, prompt);
    } else {
      var brain, before := TextBrain(planOf, system), history[..|history| - 2];
      assert After(brain, tool, [UserText(prompt)], before, k - 1);
      StaysOnPlan(planOf, system, tool, prompt, before, k - 1, drills);
      assert history == before + Round(Turn(drills, k - 1), tool, before);
      DrillRound(system, [UserText(prompt)], before, k - 1, drills, tool);
    }
    RepliesFromPlan(planOf, system, [UserText(prompt)], history, k);
  }

  function Targets(drills: seq<Drill>): seq<Pillar> {
    seq(|drills|, i requires 0 <= i < |drills| => drills[i].pillar)
  }

  /**
   * For every prompt the tool loop dispatches exactly the drills planned from it, once each
   * and in order, although the plan is read afresh from the growing conversation every turn.
   */
  lemma LoopDispatchesThePlan(reader: Reader, system: string, tool: Tool<Pillar>, prompt: string)
    ensures var r := Loop(Brained(reader, system), tool, [UserText(prompt)], 0, DefaultRounds);
            !r.aborted && r.dispatched == Targets(PlanOf(reader, GatherText(system, [UserText(prompt)])).drills)
  {
    var brain := Brained(reader, system);
    var start: seq<Message<Pillar>> := [UserText(prompt)];
    var drills := PlanOf(reader, GatherText(system, start)).drills;
    var plan := Targets(drills);
    forall text, more | NoBrace(more) ensures DrillsFrom(reader)(text + more) == DrillsFrom(reader)(text) {
      SamePlan(reader, text, more);
    }
    forall history, k: nat | After(brain, tool, start, history, k) && k <= |plan|
      ensures if k < |plan| then brain(history).wantsTool && brain(history).uses == [plan[k]]
              else !brain(history).wantsTool
    {
      StaysOnPlan(DrillsFrom(reader), system, tool, prompt, history, k, drills);
    }
    assert |plan| <= 3;
    PlanIsDispatched(brain, tool, start, plan, DefaultRounds);
    assert plan[..|plan|] == plan;
  }
}
