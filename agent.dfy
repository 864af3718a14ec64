/** The graph wiring of my_agent/agent.py: the intent router of its conditional edge and the transition table. */
module Agent {
  import opened Common
  import opened State
  import Router
  import Config

  datatype Node =
    | RouterNode | WebAugmentNode
    | GeneralNode | IssueNode | SnsNode | RevisitNode
    | RelevanceChecker | MemoryUpdater | End

  /** `_route_intent`: the upper-cased intent when it is one of the four, GENERAL otherwise (None and "" included). */
  function RouteIntent(intent: Option<string>): (r: string)
    ensures r in Router.Intents
    ensures HasText(intent) && Upper(intent.value) in Router.Intents ==> r == Upper(intent.value)
    ensures !(HasText(intent) && Upper(intent.value) in Router.Intents) ==> r == "GENERAL"
  {
    var i := Upper(if HasText(intent) then intent.value else "GENERAL");
    if i in Router.Intents then i else "GENERAL"
  }

  /** The generator node each route label leads to. */
  function GeneratorOf(route: string): (n: Node)
    requires route in Router.Intents
    ensures IsGenerator(n)
  {
    if route == "GENERAL" then GeneralNode
    else if route == "ISSUE" then IssueNode
    else if route == "SNS" then SnsNode
    else RevisitNode
  }

  predicate IsGenerator(n: Node)
  {
    n == GeneralNode || n == IssueNode || n == SnsNode || n == RevisitNode
  }

  /**
   * The successor of a node. `intent` is the intent the router wrote and `passed`
   * the `relevance_passed` the checker wrote, the two state fields the
   * conditional edges read.
   */
  function Next(n: Node, intent: Option<string>, passed: bool): Node
  {
    match n
    case RouterNode => WebAugmentNode
    case WebAugmentNode => GeneratorOf(RouteIntent(intent))
    case GeneralNode => RelevanceChecker
    case IssueNode => RelevanceChecker
    case SnsNode => RelevanceChecker
    case RevisitNode => RelevanceChecker
    case RelevanceChecker => if passed then MemoryUpdater else End
    case MemoryUpdater => End
    case End => End
  }

  /** Distance to END in the edge order; every edge lowers it. */
  function Rank(n: Node): nat
  {
    match n
    case RouterNode => 5
    case WebAugmentNode => 4
    case GeneralNode => 3
    case IssueNode => 3
    case SnsNode => 3
    case RevisitNode => 3
    case RelevanceChecker => 2
    case MemoryUpdater => 1
    case End => 0
  }

  lemma NextLowersRank(n: Node, intent: Option<string>, passed: bool)
    requires n != End
    ensures Rank(Next(n, intent, passed)) < Rank(n)
  {
  }

  /** The nodes a run visits from n until it reaches END. */
  function Run(n: Node, intent: Option<string>, passed: bool): (path: seq<Node>)
    ensures |path| <= Rank(n)
    ensures End !in path
    ensures n != End ==> path != [] && path[0] == n
    decreases Rank(n)
  {
    if n == End then []
    else
      NextLowersRank(n, intent, passed);
      [n] + Run(Next(n, intent, passed), intent, passed)
  }

  /** Ranks strictly fall along a run, so no node is visited twice. */
  lemma {:induction false} RunRanksFall(n: Node, intent: Option<string>, passed: bool)
    ensures var path := Run(n, intent, passed);
      forall i, j :: 0 <= i < j < |path| ==> Rank(path[i]) > Rank(path[j])
    decreases Rank(n)
  {
    if n != End {
      NextLowersRank(n, intent, passed);
      var m := Next(n, intent, passed);
      RunRanksFall(m, intent, passed);
      var rest := Run(m, intent, passed);
      var path := Run(n, intent, passed);
      RunStep(n, intent, passed);
      forall i, j | 0 <= i < j < |path|
        ensures Rank(path[i]) > Rank(path[j])
      {
        if i > 0 {
          assert path[i] == rest[i - 1] && path[j] == rest[j - 1];
        } else {
          assert path[j] == rest[j - 1];
          assert rest[0] == m;
          if j > 1 {
            assert Rank(rest[0]) > Rank(rest[j - 1]);
          }
        }
      }
    }
  }

  /** From a generator a run goes to the checker, then to the memory updater only on a pass. */
  lemma RunFromGenerator(g: Node, intent: Option<string>, passed: bool)
    requires IsGenerator(g)
    ensures Run(g, intent, passed) == [g, RelevanceChecker] + (if passed then [MemoryUpdater] else [])
  {
    var tail := if passed then [MemoryUpdater] else [];
    assert Run(MemoryUpdater, intent, passed) == [MemoryUpdater];
    assert Run(RelevanceChecker, intent, passed) == [RelevanceChecker] + tail;
    assert Next(g, intent, passed) == RelevanceChecker;
  }

  /** A whole run: router, web augment, the intent's generator, the checker, and the memory updater only on a pass. */
  lemma RunFromEntry(intent: Option<string>, passed: bool)
    ensures Run(RouterNode, intent, passed)
      == [RouterNode, WebAugmentNode, GeneratorOf(RouteIntent(intent)), RelevanceChecker]
         + (if passed then [MemoryUpdater] else [])
  {
    var g := GeneratorOf(RouteIntent(intent));
    var tail := if passed then [MemoryUpdater] else [];
    RunFromGenerator(g, intent, passed);
    RunStep(WebAugmentNode, intent, passed);
    RunStep(RouterNode, intent, passed);
    ConsConsGen(RouterNode, WebAugmentNode, g, RelevanceChecker, tail);
  }

  /** One step of a run: the node, then the run from its successor. */
  lemma RunStep(n: Node, intent: Option<string>, passed: bool)
    requires n != End
    ensures Run(n, intent, passed) == [n] + Run(Next(n, intent, passed), intent, passed)
  {
  }

  lemma ConsConsGen<T>(a: T, b: T, c: T, d: T, tail: seq<T>)
    ensures [a] + ([b] + ([c, d] + tail)) == [a, b, c, d] + tail
  {
  }

  /** Every run visits at most five nodes, each at most once. */
  lemma RunVisitsOnce(intent: Option<string>, passed: bool)
    ensures var path := Run(RouterNode, intent, passed);
      |path| <= 5 && forall i, j :: 0 <= i < j < |path| ==> path[i] != path[j]
  {
    RunRanksFall(RouterNode, intent, passed);
  }

  /** The text a placeholder generator writes to `final_response`; the GENERAL generator calls the model. */
  function PlaceholderResponse(n: Node): (r: Option<string>)
    ensures r.Some? <==> n == IssueNode || n == SnsNode || n == RevisitNode
  {
    match n
    case IssueNode => Some("🛠 IssueNode는 아직 구현되지 않았습니다. 추후 업데이트 예정입니다.")
    case RevisitNode => Some("🔁 RevisitNode는 아직 구현되지 않았습니다. 추후 업데이트 예정입니다.")
    case SnsNode => Some("📣 SNSNode는 아직 구현되지 않았습니다. 추후 업데이트 예정입니다.")
    case _ => None
  }

  /** A placeholder generator: writes its fixed text and nothing else. */
  method RunPlaceholder(st: GraphState, n: Node)
    requires n == IssueNode || n == SnsNode || n == RevisitNode
    modifies st`finalResponse
    ensures st.finalResponse == PlaceholderResponse(n)
  {
    st.finalResponse := PlaceholderResponse(n);
  }

  // ---------------------------------------------------------------------
  // Building the graph

  /** Whether `create_graph` returns a compiled graph or raises. */
  datatype GraphBuild = Built | BuildRaised(exception: string)

  /** The keyword parameters of `WebAugmentNode.__init__` in my_agent/nodes/web_augment.py. */
  const WebAugmentParams: set<string> := {"default_topk", "intents"}

  /** The config names agent.py imports. */
  const ImportedSettings: seq<string> := ["DEFAULT_TOPK", "DEFAULT_RECENCY_DAYS"]

  function ImportErrorText(name: string): string
  {
    "ImportError: cannot import name '" + name + "'"
  }

  const RecencyKeywordError: string := "TypeError: unexpected keyword argument 'recency_days'"

  /**
   * Loading agent.py and calling `create_graph`, given the names config.py
   * defines and the parameters the web node accepts: the import of the two
   * settings fails first, then the web node's constructor call with
   * `recency_days=`; otherwise the graph is built.
   */
  function CreateGraph(configNames: set<string>, nodeParams: set<string>): (b: GraphBuild)
    ensures b == Built <==> (forall i :: 0 <= i < |ImportedSettings| ==> ImportedSettings[i] in configNames)
                            && "recency_days" in nodeParams
    ensures (exists i :: 0 <= i < |ImportedSettings| && ImportedSettings[i] !in configNames) ==>
              b == BuildRaised(ImportErrorText(Config.FirstMissing(ImportedSettings, configNames).value))
  {
    match Config.FirstMissing(ImportedSettings, configNames)
    case Some(name) => BuildRaised(ImportErrorText(name))
    case None => if "recency_days" in nodeParams then Built else BuildRaised(RecencyKeywordError)
  }

  /** As written the graph is never built: the import of DEFAULT_TOPK fails. */
  lemma CreateGraphRaisesAsWritten()
    ensures CreateGraph(Config.DefinedNames, WebAugmentParams) == BuildRaised(ImportErrorText("DEFAULT_TOPK"))
  {
    Config.SearchSettingsUndefined();
    assert ImportedSettings[0] !in Config.DefinedNames;
  }

  /** Even with both settings defined, the web node's constructor rejects `recency_days`. */
  lemma CreateGraphRaisesOnRecencyKeyword()
    ensures CreateGraph(Config.DefinedNames + {"DEFAULT_TOPK", "DEFAULT_RECENCY_DAYS"}, WebAugmentParams)
              == BuildRaised(RecencyKeywordError)
  {
    var names := Config.DefinedNames + {"DEFAULT_TOPK", "DEFAULT_RECENCY_DAYS"};
    assert ImportedSettings[0] in names && ImportedSettings[1] in names;
    assert "recency_days" !in WebAugmentParams;
  }
}
