/**
 The run record of agents/state.py and the decision rule of agents/reflection_loop.py.
 */
module AgentStates {
  import opened Common
  import opened Tasks

  // ----- what one step observes and decides

  datatype Observation = Observation(tool: string, success: bool, quality: real, retrySuggested: bool)

  datatype Action = Accept | Retry | Skip

  /** The action ReflectionLoop.reflect chooses after the given number of attempts. */
  function Decide(o: Observation, attempts: int, maxRetries: int, threshold: real): Action {
    if o.success && o.quality >= threshold then Accept
    else if o.retrySuggested && attempts < maxRetries then Retry
    else if attempts >= maxRetries then Skip
    else if o.quality > 0.1 then Accept else Retry
  }

  // ----- the record of a run

  datatype Stats = Stats(successes: nat, failures: nat) {
    function Record(success: bool): Stats {
      if success then Stats(successes + 1, failures) else Stats(successes, failures + 1)
    }
  }

  datatype FailureRecord = FailureRecord(task: string, tool: string, failure: string)

  /** The value of an AgentState at one moment. */
  datatype Book = Book(completed: seq<Id>, failed: seq<Id>, failures: seq<FailureRecord>, observations: seq<Observation>,
                       reliability: map<string, Stats>, toolCalls: nat, retries: nat)

  const EMPTY_BOOK := Book([], [], [], [], map[], 0, 0)

  function AddOnce(ids: seq<Id>, id: Id): (r: seq<Id>)
    ensures id in r && ids <= r && (forall x :: x in r <==> x in ids || x == id)
    ensures Distinct(ids) ==> Distinct(r)
  {
    if id in ids then ids else ids + [id]
  }

  function Rated(r: map<string, Stats>, tool: string, success: bool): map<string, Stats> {
    r[tool := (if tool in r then r[tool] else Stats(0, 0)).Record(success)]
  }

  class AgentState {
    var completed: seq<Id>
    var failed: seq<Id>
    var failures: seq<FailureRecord>
    var observations: seq<Observation>
    var reliability: map<string, Stats>
    var toolCalls: nat
    var retries: nat

    ghost function Look(): Book
      reads this
    {
      Book(completed, failed, failures, observations, reliability, toolCalls, retries)
    }

    constructor ()
      ensures Look() == EMPTY_BOOK
    {
      completed, failed, failures := [], [], [];
      observations, reliability, toolCalls, retries := [], map[], 0, 0;
    }

    // record_observation together with the cost entry of the call.
    method RecordObservation(o: Observation)
      modifies this
      ensures Look() == old(Look()).(observations := old(observations) + [o], toolCalls := old(toolCalls) + 1)
    {
      observations, toolCalls := observations + [o], toolCalls + 1;
    }

    method RecordRetry()
      modifies this
      ensures Look() == old(Look()).(toolCalls := old(toolCalls) + 1, retries := old(retries) + 1)
    {
      toolCalls, retries := toolCalls + 1, retries + 1;
    }

    method RecordCompletion(id: Id)
      modifies this
      ensures Look() == old(Look()).(completed := AddOnce(old(completed), id))
    {
      if id !in completed {
        completed := completed + [id];
      }
    }

    method RecordFailure(id: Id, record: FailureRecord)
      modifies this
      ensures Look() == old(Look()).(failed := AddOnce(old(failed), id), failures := old(failures) + [record])
    {
      if id !in failed {
        failed := failed + [id];
      }
      failures := failures + [record];
    }

    method RecordReliability(tool: string, success: bool)
      modifies this
      ensures Look() == old(Look()).(reliability := Rated(old(reliability), tool, success))
    {
      var stats := if tool in reliability then reliability[tool] else Stats(0, 0);
      reliability := reliability[tool := stats.Record(success)];
    }
  }
}
