/**
 The agent graph: its execution plan (tradingagents/graph/analyst_execution.py), its
 routers (conditional_logic.py), its wired edges (setup.py) and the state updates of the
 debating nodes (agents/researchers, agents/risk_mgmt).
 */
module DebateGraph {
  import opened Basics
  import opened Outcomes

  datatype Key = Market | Social | News | Fundamentals | Derivatives

  datatype Node =
    | Analyst(key: Key) | Tools(key: Key) | Clear(key: Key)
    | Bull | Bear | ResearchManager | Trader
    | Aggressive | Conservative | Neutral | PortfolioManager
    | RunRecorder | End

  // ----- the execution plan -----

  /** A spec's wire key and node names; the sentiment analyst keeps its old wire key. */
  function WireOf(k: Key): string {
    match k
    case Market => "market" case Social => "social" case News => "news"
    case Fundamentals => "fundamentals" case Derivatives => "derivatives"
  }

  function AnalystName(k: Key): string {
    match k
    case Market => "Market Analyst" case Social => "Sentiment Analyst" case News => "News Analyst"
    case Fundamentals => "Fundamentals Analyst" case Derivatives => "Derivatives Analyst"
  }

  function ToolName(k: Key): string {
    match k
    case Market => "tools_market" case Social => "tools_social" case News => "tools_news"
    case Fundamentals => "tools_fundamentals" case Derivatives => "tools_derivatives"
  }

  function ClearName(k: Key): string {
    match k
    case Market => "Msg Clear Market" case Social => "Msg Clear Sentiment" case News => "Msg Clear News"
    case Fundamentals => "Msg Clear Fundamentals" case Derivatives => "Msg Clear Derivatives"
  }

  const WIRES: set<string> := {"market", "social", "news", "fundamentals", "derivatives"}

  /** The rows of the spec table: wire key, analyst node, clear node, tool node. */
  predicate IsSpec(wire: string, agent: string, clear: string, tool: string) {
    match wire
    case "market" => agent == "Market Analyst" && clear == "Msg Clear Market" && tool == "tools_market"
    case "social" => agent == "Sentiment Analyst" && clear == "Msg Clear Sentiment" && tool == "tools_social"
    case "news" => agent == "News Analyst" && clear == "Msg Clear News" && tool == "tools_news"
    case "fundamentals" => agent == "Fundamentals Analyst" && clear == "Msg Clear Fundamentals" && tool == "tools_fundamentals"
    case "derivatives" => agent == "Derivatives Analyst" && clear == "Msg Clear Derivatives" && tool == "tools_derivatives"
    case _ => false
  }

  predicate Names(wire: string, k: Key) {
    IsSpec(wire, AnalystName(k), ClearName(k), ToolName(k))
  }

  function KeyOf(wire: string): (key: Option<Key>)
    ensures key.Some? <==> wire in WIRES
    ensures key.Some? ==> Names(wire, key.value) && WireOf(key.value) == wire
  {
    match wire
    case "market" => Some(Market)
    case "social" => Some(Social)
    case "news" => Some(News)
    case "fundamentals" => Some(Fundamentals)
    case "derivatives" => Some(Derivatives)
    case _ => None
  }

  /** build_analyst_execution_plan: the specs of the keys in order, or an error. */
  method BuildPlan(selected: seq<string>, concurrency: int) returns (r: Result<seq<Key>>)
    ensures r.Ok? <==> concurrency >= 1 && selected != [] && forall wire | wire in selected :: wire in WIRES
    ensures r.Ok? ==> |r.value| == |selected| && forall i | 0 <= i < |selected| ::
              Names(selected[i], r.value[i]) && WireOf(r.value[i]) == selected[i]
  {
    if concurrency < 1 {
      return Raised("analyst concurrency limit must be >= 1");
    }
    var plan: seq<Key> := [];
    for i := 0 to |selected|
      invariant |plan| == i
      invariant forall j | 0 <= j < i :: KeyOf(selected[j]) == Some(plan[j])
    {
      var key := KeyOf(selected[i]);
      if key.None? {
        return Raised("unknown analyst key");
      }
      plan := plan + [key.value];
    }
    if plan == [] {
      return Raised("at least one analyst must be selected");
    }
    return Ok(plan);
  }

  // ----- the wired edges -----

  datatype Edge = Goto(node: Node) | Choose(targets: set<Node>)

  datatype Config = Config(plan: seq<Key>, debateRounds: int, riskRounds: int, recorder: bool)

  /** The analysts that come after one in the plan. */
  function After(plan: seq<Key>, k: Key): seq<Key> {
    if plan == [] then [] else if plan[0] == k then plan[1..] else After(plan[1..], k)
  }

  function Entry(plan: seq<Key>): Node {
    if plan == [] then Bull else Analyst(plan[0])
  }

  predicate IsNode(c: Config, node: Node) {
    if node.Analyst? || node.Tools? || node.Clear? then node.key in c.plan
    else if node.RunRecorder? then c.recorder
    else !node.End?
  }

  function EdgeOf(c: Config, node: Node): Edge {
    match node
    case Analyst(k) => Choose({Tools(k), Clear(k)})
    case Tools(k) => Goto(Analyst(k))
    case Clear(k) => Goto(Entry(After(c.plan, k)))
    case Bull => Choose({Bear, ResearchManager})
    case Bear => Choose({Bull, ResearchManager})
    case ResearchManager => Goto(Trader)
    case Trader => Goto(Aggressive)
    case Aggressive => Choose({Conservative, PortfolioManager})
    case Conservative => Choose({Neutral, PortfolioManager})
    case Neutral => Choose({Aggressive, PortfolioManager})
    case PortfolioManager => Goto(if c.recorder then RunRecorder else End)
    case RunRecorder => Goto(End)
    case End => Goto(End)
  }

  lemma {:induction false} AfterAt(plan: seq<Key>, i: nat)
    requires NoRepeats(plan) && i < |plan|
    ensures After(plan, plan[i]) == plan[i + 1..]
  {
    if i > 0 {
      assert plan[1..][i - 1] == plan[i] && plan[0] != plan[i];
      AfterAt(plan[1..], i - 1);
      assert plan[1..][i..] == plan[i + 1..];
    }
  }

  predicate OfAnalyst(node: Node, plan: seq<Key>) {
    (node.Analyst? || node.Tools? || node.Clear?) && node.key in plan
  }

  /** The loop of setup_graph over the plan: each analyst is wired to its tools and to what comes next. */
  method WireAnalysts(c: Config) returns (edges: map<Node, Edge>)
    requires NoRepeats(c.plan)
    ensures forall node :: node in edges <==> OfAnalyst(node, c.plan)
    ensures forall node | node in edges :: edges[node] == EdgeOf(c, node)
  {
    edges := map[];
    for i := 0 to |c.plan|
      invariant forall node :: node in edges <==> OfAnalyst(node, c.plan[..i])
      invariant forall node | node in edges :: edges[node] == EdgeOf(c, node)
    {
      var k := c.plan[i];
      AfterAt(c.plan, i);
      assert c.plan[..i + 1] == c.plan[..i] + [k];
      edges := edges[Analyst(k) := Choose({Tools(k), Clear(k)})];
      edges := edges[Tools(k) := Goto(Analyst(k))];
      edges := edges[Clear(k) := if i < |c.plan| - 1 then Goto(Analyst(c.plan[i + 1])) else Goto(Bull)];
    }
    assert c.plan[..|c.plan|] == c.plan;
  }

  method WireDebates(c: Config) returns (edges: map<Node, Edge>)
    ensures forall node :: node in edges <==> IsNode(c, node) && !(node.Analyst? || node.Tools? || node.Clear?)
    ensures forall node | node in edges :: edges[node] == EdgeOf(c, node)
  {
    edges := map[Bull := Choose({Bear, ResearchManager}), Bear := Choose({Bull, ResearchManager}),
                 ResearchManager := Goto(Trader), Trader := Goto(Aggressive),
                 Aggressive := Choose({Conservative, PortfolioManager}),
                 Conservative := Choose({Neutral, PortfolioManager}),
                 Neutral := Choose({Aggressive, PortfolioManager})];
    if c.recorder {
      edges := edges[PortfolioManager := Goto(RunRecorder)][RunRecorder := Goto(End)];
    } else {
      edges := edges[PortfolioManager := Goto(End)];
    }
  }

  /**
   setup_graph: the edges it adds are those of EdgeOf, one for each node. A node that is
   added twice, which a repeated analyst would be, is refused by the workflow.
   */
  method SetupGraph(c: Config) returns (start: Node, edges: map<Node, Edge>)
    requires c.plan != [] && NoRepeats(c.plan)
    ensures start == Entry(c.plan)
    ensures forall node :: node in edges <==> IsNode(c, node)
    ensures forall node | node in edges :: edges[node] == EdgeOf(c, node)
  {
    start := Analyst(c.plan[0]);
    var analysts := WireAnalysts(c);
    var debates := WireDebates(c);
    edges := analysts + debates;
  }

  // ----- the state, the node updates and the routers -----

  /**
   `rounds` gives the tool rounds each analyst's model will still ask for, `toolCalls`
   whether the last message asks for one. A debate's state is its last response (or
   speaker) and its count.
   */
  datatype State = State(rounds: map<Key, nat>, toolCalls: bool, response: string, debateCount: nat,
                         speaker: string, riskCount: nat)

  /** create_initial_state */
  function Initial(rounds: map<Key, nat>): State {
    State(rounds, false, "", 0, "", 0)
  }

  function Rounds(s: State, k: Key): nat {
    if k in s.rounds then s.rounds[k] else 0
  }

  /** What executing a node does to the state; `content` is the model's answer. */
  function Execute(s: State, node: Node, content: string): State {
    match node
    case Analyst(k) =>
      if Rounds(s, k) > 0 then s.(toolCalls := true, rounds := s.rounds[k := Rounds(s, k) - 1]) else s.(toolCalls := false)
    case Bull => s.(response := "Bull Analyst: " + content, debateCount := s.debateCount + 1)
    case Bear => s.(response := "Bear Analyst: " + content, debateCount := s.debateCount + 1)
    case Aggressive => s.(speaker := "Aggressive", riskCount := s.riskCount + 1)
    case Conservative => s.(speaker := "Conservative", riskCount := s.riskCount + 1)
    case Neutral => s.(speaker := "Neutral", riskCount := s.riskCount + 1)
    case _ => s
  }

  /** should_continue_market and its four siblings, by the names they return. */
  function ShouldContinue(k: Key, toolCalls: bool): (name: string)
    ensures name == if toolCalls then ToolName(k) else ClearName(k)
    ensures IsSpec(WireOf(k), AnalystName(k), if toolCalls then ClearName(k) else name, if toolCalls then name else ToolName(k))
  {
    match k
    case Market => if toolCalls then "tools_market" else "Msg Clear Market"
    case Social => if toolCalls then "tools_social" else "Msg Clear Sentiment"
    case News => if toolCalls then "tools_news" else "Msg Clear News"
    case Fundamentals => if toolCalls then "tools_fundamentals" else "Msg Clear Fundamentals"
    case Derivatives => if toolCalls then "tools_derivatives" else "Msg Clear Derivatives"
  }

  function ShouldContinueDebate(c: Config, s: State): Node {
    if s.debateCount >= 2 * c.debateRounds then ResearchManager
    else if "Bull" <= s.response then Bear
    else Bull
  }

  function ShouldContinueRisk(c: Config, s: State): Node {
    if s.riskCount >= 3 * c.riskRounds then PortfolioManager
    else if "Aggressive" <= s.speaker then Conservative
    else if "Conservative" <= s.speaker then Neutral
    else Aggressive
  }

  /** Where a node's edge leads in a state. */
  function Route(c: Config, s: State, node: Node): Node {
    if node.Analyst? then if s.toolCalls then Tools(node.key) else Clear(node.key)
    else if node.Bull? || node.Bear? then ShouldContinueDebate(c, s)
    else if node.Aggressive? || node.Conservative? || node.Neutral? then ShouldContinueRisk(c, s)
    else
      var edge := EdgeOf(c, node);
      if edge.Goto? then edge.node else node
  }

  /** The nodes a run executes from a node on, with these answers of the models. */
  function Visited(c: Config, s: State, node: Node, contents: seq<string>): seq<Node>
    decreases contents
  {
    if node.End? || contents == [] then []
    else
      var t := Execute(s, node, contents[0]);
      [node] + Visited(c, t, Route(c, t, node), contents[1..])
  }

  // ----- the predicted run -----

  function ToolLoop(k: Key, n: nat): seq<Node> {
    if n == 0 then [Analyst(k), Clear(k)] else [Analyst(k), Tools(k)] + ToolLoop(k, n - 1)
  }

  function DebateTurns(first: Node, n: nat): seq<Node>
    decreases n
  {
    if n == 0 then [] else [first] + DebateTurns(if first.Bull? then Bear else Bull, n - 1)
  }

  function AfterSpeaker(node: Node): Node {
    match node
    case Aggressive => Conservative
    case Conservative => Neutral
    case _ => Aggressive
  }

  function RiskTurns(first: Node, n: nat): seq<Node>
    decreases n
  {
    if n == 0 then [] else [first] + RiskTurns(AfterSpeaker(first), n - 1)
  }

  function Closing(c: Config): seq<Node> {
    if c.recorder then [PortfolioManager, RunRecorder] else [PortfolioManager]
  }

  /** The risk stage from a speaker on; a speaker always has at least one turn. */
  function RiskStage(c: Config, s: State, first: Node): seq<Node> {
    RiskTurns(first, Max(1, 3 * c.riskRounds - s.riskCount)) + Closing(c)
  }

  function DebateStage(c: Config, s: State, first: Node): seq<Node> {
    DebateTurns(first, Max(1, 2 * c.debateRounds - s.debateCount))
    + ([ResearchManager, Trader] + RiskStage(c, s, Aggressive))
  }

  function AnalystStage(c: Config, s: State, plan: seq<Key>): seq<Node>
    decreases plan
  {
    if plan == [] then DebateStage(c, s, Bull)
    else ToolLoop(plan[0], Rounds(s, plan[0])) + AnalystStage(c, s, plan[1..])
  }

  /** The whole rest of the run from a node on. */
  function Predicted(c: Config, s: State, node: Node): seq<Node> {
    match node
    case Analyst(k) => ToolLoop(k, Rounds(s, k)) + AnalystStage(c, s, After(c.plan, k))
    case Tools(k) => [node] + (ToolLoop(k, Rounds(s, k)) + AnalystStage(c, s, After(c.plan, k)))
    case Clear(k) => [node] + AnalystStage(c, s, After(c.plan, k))
    case Bull => DebateStage(c, s, Bull)
    case Bear => DebateStage(c, s, Bear)
    case ResearchManager => [node, Trader] + RiskStage(c, s, Aggressive)
    case Trader => [node] + RiskStage(c, s, Aggressive)
    case Aggressive => RiskStage(c, s, node)
    case Conservative => RiskStage(c, s, node)
    case Neutral => RiskStage(c, s, node)
    case PortfolioManager => Closing(c)
    case RunRecorder => [RunRecorder]
    case End => []
  }

  lemma {:induction false} AfterIsLater(plan: seq<Key>, k: Key)
    requires NoRepeats(plan)
    ensures k !in After(plan, k) && NoRepeats(After(plan, k))
    ensures After(plan, k) != [] ==> After(plan, After(plan, k)[0]) == After(plan, k)[1..]
    decreases plan
  {
    if plan != [] {
      AfterIsLater(plan[1..], k);
      if plan[0] == k && |plan| > 1 {
        assert plan[1] != plan[0];
        assert After(plan[1..], plan[1]) == plan[1..][1..];
      } else if plan[0] != k && After(plan[1..], k) != [] {
        AfterIsIn(plan[1..], k);
        assert After(plan[1..], k)[0] in plan[1..];
      }
    }
  }

  lemma {:induction false} AfterIsIn(plan: seq<Key>, k: Key)
    ensures forall l | l in After(plan, k) :: l in plan
    decreases plan
  {
    if plan != [] && plan[0] != k {
      AfterIsIn(plan[1..], k);
    }
  }

  /** Executing one analyst does not change the rounds of the later ones. */
  lemma {:induction false} StageDepends(c: Config, s: State, t: State, plan: seq<Key>)
    requires t.debateCount == s.debateCount && t.riskCount == s.riskCount
    requires forall k | k in plan :: Rounds(t, k) == Rounds(s, k)
    ensures AnalystStage(c, t, plan) == AnalystStage(c, s, plan)
    decreases plan
  {
    if plan != [] {
      assert plan[0] in plan;
      StageDepends(c, s, t, plan[1..]);
    }
  }

  lemma ToolLoopStarts(k: Key, n: nat)
    ensures ToolLoop(k, n) == [Analyst(k)] + if n > 0 then [Tools(k)] + ToolLoop(k, n - 1) else [Clear(k)]
  {
  }

  lemma AnalystStep(c: Config, s: State, k: Key, content: string)
    requires NoRepeats(c.plan)
    ensures var t := Execute(s, Analyst(k), content);
            Predicted(c, s, Analyst(k)) == [Analyst(k)] + Predicted(c, t, Route(c, t, Analyst(k)))
  {
    var t, later := Execute(s, Analyst(k), content), After(c.plan, k);
    AfterIsLater(c.plan, k);
    StageDepends(c, s, t, later);
    ToolLoopStarts(k, Rounds(s, k));
    var stage := AnalystStage(c, s, later);
    if Rounds(s, k) > 0 {
      var loop := ToolLoop(k, Rounds(s, k) - 1);
      assert ([Analyst(k)] + ([Tools(k)] + loop)) + stage == [Analyst(k)] + ([Tools(k)] + (loop + stage));
    } else {
      assert ([Analyst(k)] + [Clear(k)]) + stage == [Analyst(k)] + ([Clear(k)] + stage);
    }
  }

  lemma ClearStep(c: Config, s: State, k: Key)
    requires NoRepeats(c.plan)
    ensures Predicted(c, s, Clear(k)) == [Clear(k)] + Predicted(c, s, Entry(After(c.plan, k)))
  {
    AfterIsLater(c.plan, k);
  }

  lemma DebateStep(c: Config, s: State, node: Node, content: string)
    requires node.Bull? || node.Bear?
    ensures var t := Execute(s, node, content);
            Predicted(c, s, node) == [node] + Predicted(c, t, Route(c, t, node))
  {
    var t, other := Execute(s, node, content), if node.Bull? then Bear else Bull;
    assert t.response[1] == if node.Bull? then 'u' else 'e';
    var n := Max(1, 2 * c.debateRounds - s.debateCount);
    assert DebateTurns(node, n) == [node] + DebateTurns(other, n - 1);
    if t.debateCount < 2 * c.debateRounds {
      assert Route(c, t, node) == other;
    }
  }

  lemma RiskStep(c: Config, s: State, node: Node, content: string)
    requires node.Aggressive? || node.Conservative? || node.Neutral?
    ensures var t := Execute(s, node, content);
            Predicted(c, s, node) == [node] + Predicted(c, t, Route(c, t, node))
  {
    var t := Execute(s, node, content);
    assert t.speaker[0] == if node.Aggressive? then 'A' else if node.Conservative? then 'C' else 'N';
    var n := Max(1, 3 * c.riskRounds - s.riskCount);
    assert RiskTurns(node, n) == [node] + RiskTurns(AfterSpeaker(node), n - 1);
    if t.riskCount < 3 * c.riskRounds {
      assert Route(c, t, node) == AfterSpeaker(node);
    }
  }

  /** One step executes the head of the prediction and leaves its tail. */
  lemma OneStep(c: Config, s: State, node: Node, content: string)
    requires NoRepeats(c.plan) && !node.End?
    ensures var t := Execute(s, node, content);
            Predicted(c, s, node) == [node] + Predicted(c, t, Route(c, t, node))
  {
    match node
    case Analyst(k) => AnalystStep(c, s, k, content);
    case Clear(k) => ClearStep(c, s, k);
    case Bull => DebateStep(c, s, node, content);
    case Bear => DebateStep(c, s, node, content);
    case Aggressive => RiskStep(c, s, node, content);
    case Conservative => RiskStep(c, s, node, content);
    case Neutral => RiskStep(c, s, node, content);
    case _ =>
  }

  /** Whatever the models answer, a run executes the predicted nodes, as far as it goes. */
  lemma {:induction false} RunsAsPredicted(c: Config, s: State, node: Node, contents: seq<string>)
    requires NoRepeats(c.plan)
    ensures Visited(c, s, node, contents) <= Predicted(c, s, node)
    ensures |contents| >= |Predicted(c, s, node)| ==> Visited(c, s, node, contents) == Predicted(c, s, node)
    ensures |contents| < |Predicted(c, s, node)| ==> |Visited(c, s, node, contents)| == |contents|
    decreases contents
  {
    if !node.End? {
      var content := if contents == [] then "" else contents[0];
      OneStep(c, s, node, content);
      if contents != [] {
        var t := Execute(s, node, content);
        RunsAsPredicted(c, t, Route(c, t, node), contents[1..]);
      }
    }
  }

  // ----- what the prediction says -----

  function ToolRounds(s: State, plan: seq<Key>): nat {
    if plan == [] then 0 else 2 * Rounds(s, plan[0]) + 2 + ToolRounds(s, plan[1..])
  }

  /** The stages of the analysts, one after the other. */
  function ToolLoops(s: State, plan: seq<Key>): seq<Node> {
    if plan == [] then [] else ToolLoop(plan[0], Rounds(s, plan[0])) + ToolLoops(s, plan[1..])
  }

  /** An analyst with n tool rounds speaks n + 1 times; its tools run after each but the last, its clearing node then. */
  lemma {:induction false} ToolLoopAlternates(k: Key, n: nat)
    ensures |ToolLoop(k, n)| == 2 * n + 2
    ensures forall i | 0 <= i <= n :: ToolLoop(k, n)[2 * i] == Analyst(k)
    ensures forall i | 0 <= i <= n :: ToolLoop(k, n)[2 * i + 1] == if i < n then Tools(k) else Clear(k)
  {
    if n > 0 {
      ToolLoopAlternates(k, n - 1);
      forall i | 0 < i <= n
        ensures ToolLoop(k, n)[2 * i] == Analyst(k)
        ensures ToolLoop(k, n)[2 * i + 1] == if i < n then Tools(k) else Clear(k)
      {
        assert ToolLoop(k, n)[2 * i] == ToolLoop(k, n - 1)[2 * (i - 1)];
        assert ToolLoop(k, n)[2 * i + 1] == ToolLoop(k, n - 1)[2 * (i - 1) + 1];
      }
    }
  }

  /** The debate alternates, starting with `first`. */
  lemma {:induction false} DebateAlternates(first: Node, n: nat)
    requires first.Bull? || first.Bear?
    ensures |DebateTurns(first, n)| == n
    ensures forall i | 0 <= i < n ::
              DebateTurns(first, n)[i] == if i % 2 == 0 then first else if first.Bull? then Bear else Bull
    decreases n
  {
    if n > 0 {
      DebateAlternates(if first.Bull? then Bear else Bull, n - 1);
    }
  }

  /** The risk stage goes round Aggressive, Conservative, Neutral. */
  lemma {:induction false} RiskCycles(first: Node, n: nat)
    requires first.Aggressive? || first.Conservative? || first.Neutral?
    ensures |RiskTurns(first, n)| == n
    ensures forall i | 0 <= i < n :: RiskTurns(first, n)[i] ==
              if i % 3 == 0 then first else if i % 3 == 1 then AfterSpeaker(first) else AfterSpeaker(AfterSpeaker(first))
    decreases n
  {
    if n > 0 {
      RiskCycles(AfterSpeaker(first), n - 1);
    }
  }

  lemma Regroup(loop: seq<Node>, loops: seq<Node>, debate: seq<Node>)
    ensures loop + (loops + debate) == (loop + loops) + debate
  {
  }

  lemma {:induction false} AnalystsThenDebate(c: Config, s: State, plan: seq<Key>)
    ensures |ToolLoops(s, plan)| == ToolRounds(s, plan)
    ensures AnalystStage(c, s, plan) == ToolLoops(s, plan) + DebateStage(c, s, Bull)
    decreases plan
  {
    if plan != [] {
      var loop := ToolLoop(plan[0], Rounds(s, plan[0]));
      ToolLoopAlternates(plan[0], Rounds(s, plan[0]));
      AnalystsThenDebate(c, s, plan[1..]);
      Regroup(loop, ToolLoops(s, plan[1..]), DebateStage(c, s, Bull));
    }
  }

  /** The stages of a whole run, the analysts' first, then d and r turns long, with whose turn it is. */
  ghost predicate LaidOut(c: Config, run: seq<Node>, analysts: seq<Node>, d: nat, r: nat) {
    var a := |analysts|;
    && |run| == a + d + 2 + r + |Closing(c)|
    && run[..a] == analysts
    && (forall i | 0 <= i < d :: run[a + i] == if i % 2 == 0 then Bull else Bear)
    && run[a + d] == ResearchManager && run[a + d + 1] == Trader
    && (forall i | 0 <= i < r :: run[a + d + 2 + i] ==
          if i % 3 == 0 then Aggressive else if i % 3 == 1 then Conservative else Neutral)
    && run[a + d + 2 + r..] == Closing(c)
  }

  lemma Stages(c: Config, analysts: seq<Node>, debate: seq<Node>, risk: seq<Node>, run: seq<Node>)
    requires run == analysts + (debate + ([ResearchManager, Trader] + (risk + Closing(c))))
    requires forall i | 0 <= i < |debate| :: debate[i] == if i % 2 == 0 then Bull else Bear
    requires forall i | 0 <= i < |risk| ::
               risk[i] == if i % 3 == 0 then Aggressive else if i % 3 == 1 then Conservative else Neutral
    ensures LaidOut(c, run, analysts, |debate|, |risk|)
  {
  }

  lemma PredictionIsLaidOut(c: Config, s: State)
    requires s.debateCount == 0 && s.riskCount == 0
    ensures |ToolLoops(s, c.plan)| == ToolRounds(s, c.plan)
    ensures LaidOut(c, AnalystStage(c, s, c.plan),
                    ToolLoops(s, c.plan), Max(1, 2 * c.debateRounds), Max(1, 3 * c.riskRounds))
  {
    var d, r := Max(1, 2 * c.debateRounds), Max(1, 3 * c.riskRounds);
    AnalystsThenDebate(c, s, c.plan);
    DebateAlternates(Bull, d);
    RiskCycles(Aggressive, r);
    Stages(c, ToolLoops(s, c.plan), DebateTurns(Bull, d), RiskTurns(Aggressive, r), AnalystStage(c, s, c.plan));
  }

  /**
   A whole run, whatever the models answer: the tool loop of every analyst in the order
   of the plan, 2k + 2 nodes for k tool rounds, then Bull and Bear in turn for max(1, 2 debate rounds) turns, then the
   Research Manager and the Trader, then the three risk analysts in turn for
   max(1, 3 risk rounds) turns, then the closing nodes.
   */
  lemma WholeRun(c: Config, rounds: map<Key, nat>, contents: seq<string>)
    requires NoRepeats(c.plan) && c.plan != []
    requires |contents| >= ToolRounds(Initial(rounds), c.plan) + Max(1, 2 * c.debateRounds) + Max(1, 3 * c.riskRounds) + 4
    ensures LaidOut(c, Visited(c, Initial(rounds), Analyst(c.plan[0]), contents),
                    ToolLoops(Initial(rounds), c.plan), Max(1, 2 * c.debateRounds), Max(1, 3 * c.riskRounds))
  {
    PredictionIsLaidOut(c, Initial(rounds));
    RunsAsPredicted(c, Initial(rounds), Analyst(c.plan[0]), contents);
  }

  /** Every target a router gives after its node ran is one of the node's declared targets. */
  lemma RoutesAreDeclared(c: Config, s: State, node: Node, content: string)
    ensures var t := Execute(s, node, content);
            match EdgeOf(c, node)
            case Choose(targets) => Route(c, t, node) in targets
            case Goto(target) => Route(c, t, node) == target
  {
    var t := Execute(s, node, content);
    if node.Bull? || node.Bear? {
      assert t.response[1] == if node.Bull? then 'u' else 'e';
    } else if node.Aggressive? || node.Conservative? || node.Neutral? {
      assert t.speaker[0] == if node.Aggressive? then 'A' else if node.Conservative? then 'C' else 'N';
    }
  }

  /** Every declared target is taken from some state, whatever the model answers. */
  lemma TargetsAreTaken(c: Config, node: Node, target: Node, content: string) returns (s: State)
    requires c.debateRounds >= 1 && c.riskRounds >= 1
    requires EdgeOf(c, node).Choose? && target in EdgeOf(c, node).targets
    ensures Route(c, Execute(s, node, content), node) == target
  {
    if node.Analyst? {
      s := Initial(if target.Tools? then map[node.key := 1] else map[]);
    } else {
      s := Initial(map[]);
      if target.ResearchManager? || target.PortfolioManager? {
        s := s.(debateCount := 2 * c.debateRounds, riskCount := 3 * c.riskRounds);
      }
    }
    RoutesAreDeclared(c, s, node, content);
  }

  /** Every edge of a node leads to a node of the graph, or to its end. */
  lemma EdgesStayInside(c: Config, node: Node)
    requires c.plan != [] && NoRepeats(c.plan) && IsNode(c, node)
    ensures IsNode(c, Entry(c.plan))
    ensures match EdgeOf(c, node)
            case Goto(target) => target.End? || IsNode(c, target)
            case Choose(targets) => forall target | target in targets :: IsNode(c, target)
  {
    if node.Clear? {
      AfterIsIn(c.plan, node.key);
    }
  }

  /** So a run executes nodes of the graph only. */
  lemma {:induction false} RunStaysInside(c: Config, s: State, node: Node, contents: seq<string>)
    requires c.plan != [] && NoRepeats(c.plan) && (IsNode(c, node) || node.End?)
    ensures forall visited | visited in Visited(c, s, node, contents) :: IsNode(c, visited)
    decreases contents
  {
    if !node.End? && contents != [] {
      var t := Execute(s, node, contents[0]);
      EdgesStayInside(c, node);
      RoutesAreDeclared(c, s, node, contents[0]);
      RunStaysInside(c, t, Route(c, t, node), contents[1..]);
    }
  }
}
