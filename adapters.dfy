/** `run_one_turn` (my_agent/utils/adapters.py): the turn result read off the graph's final state. */
module Adapters {
  import opened Common
  import opened State
  import Agent

  /** The status: a pending clarification outranks an error, which outranks success. */
  function Status(needClarify: bool, error: Option<string>): (r: string)
    ensures r in {"need_clarify", "error", "ok"}
    ensures r == "need_clarify" <==> needClarify
    ensures r == "error" <==> !needClarify && HasText(error)
    ensures r == "ok" <==> !needClarify && !HasText(error)
  {
    if needClarify then "need_clarify" else if HasText(error) then "error" else "ok"
  }

  datatype TurnResult =
    | TurnDone(status: string, intent: Option<string>, storeId: Option<string>,
               storeCandidates: seq<Record>, card: Option<Record>,
               finalResponse: Option<string>, actions: seq<Record>, error: Option<string>)
    | TurnFailed(status: string, message: string)

  /** The result dict of a graph run that finished with state `fin`. */
  function ResultOf(fin: GraphState): (r: TurnResult)
    reads fin
    ensures r.TurnDone?
    ensures r.status == Status(fin.needClarify, fin.error)
    ensures r.intent == fin.intent && r.storeId == fin.storeId && r.card == fin.cardData
    ensures r.storeCandidates == fin.storeCandidates && r.actions == fin.actions
    ensures r.finalResponse == fin.finalResponse && r.error == fin.error
  {
    TurnDone(Status(fin.needClarify, fin.error), fin.intent, fin.storeId, fin.storeCandidates,
             fin.cardData, fin.finalResponse, fin.actions, fin.error)
  }

  const FailurePrefix: string := "그래프 실행 실패: "

  /** The result when the graph raises: only a status and the message. */
  function FailureOf(message: string): (r: TurnResult)
    ensures r.TurnFailed? && r.status == "error"
    ensures |r.message| >= |FailurePrefix| && r.message[..|FailurePrefix|] == FailurePrefix && r.message[|FailurePrefix|..] == message
  {
    TurnFailed("error", FailurePrefix + message)
  }

  /** How the graph run ended: with a final state, or with an exception's text. */
  datatype GraphRun = Finished(fin: GraphState) | Crashed(message: string)

  /** What `run_one_turn` does: return a result dict, or let an exception out. */
  datatype Turn = Returned(result: TurnResult) | Propagated(exception: string)

  /**
   * `run_one_turn`: builds the graph, then the initial state, then reports the
   * run. Building the graph is outside the `try`, so its exception leaves the
   * call and no initial state is made; only an exception of the run itself
   * becomes an error result.
   */
  method RunOneTurn(userQuery: string, storeName: string, build: Agent.GraphBuild, run: GraphRun)
    returns (init: GraphState?, r: Turn)
    ensures build.BuildRaised? ==> init == null && r == Propagated(build.exception)
    ensures build.Built? ==> init != null && fresh(init)
    ensures build.Built? ==> init.userQuery == userQuery && init.storeNameInput == Some(storeName)
    ensures build.Built? ==> init.retryCount == 0 && !init.relevancePassed && !init.needClarify
    ensures build.Built? && run.Crashed? ==> r == Returned(FailureOf(run.message))
    ensures build.Built? && run.Finished? ==> r == Returned(ResultOf(run.fin))
  {
    if build.BuildRaised? {
      return null, Propagated(build.exception);
    }
    init := new GraphState.Initial(userQuery, storeName);
    match run
    case Crashed(m) => r := Returned(FailureOf(m));
    case Finished(fin) => r := Returned(ResultOf(fin));
  }

  /** A state that still needs a clarification reports it even when an error was also set. */
  lemma ClarifyOutranksError(error: Option<string>)
    ensures Status(true, error) == "need_clarify"
  {
  }
}
