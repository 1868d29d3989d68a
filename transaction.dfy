/** `common.WithTransaction`: start a session, start a transaction on it, run the unit of work
    once, abort on its error or commit otherwise, and end the session on the way out. The driver's
    answers are inputs; the calls made are returned in order so that the contract can speak of
    what was and was not invoked. */
module Transaction {
  import opened Results

  datatype DriverCall =
    | StartSession
    | StartTransaction
    | RunUnitOfWork
    | AbortTransaction
    | CommitTransaction
    | EndSession

  /** What each driver call returns: nil (`Pass`) or an error. */
  datatype Driver = Driver(
    startSession: Outcome,
    startTransaction: Outcome,
    abortTransaction: Outcome,
    commitTransaction: Outcome)

  method WithTransaction(driver: Driver, work: () -> Outcome) returns (err: Outcome, calls: seq<DriverCall>)
    // no session: its error, and nothing else is attempted
    ensures driver.startSession.Fail? ==> err == driver.startSession && calls == [StartSession]
    // a session that was started is ended, as the last call and only then
    ensures driver.startSession.Pass? ==>
      && |calls| >= 2 && calls[0] == StartSession && calls[|calls| - 1] == EndSession
      && EndSession !in calls[..|calls| - 1]
    // the unit of work runs at most once, and only inside a started transaction
    ensures forall i, j :: 0 <= i < j < |calls| && calls[i] == RunUnitOfWork ==> calls[j] != RunUnitOfWork
    ensures RunUnitOfWork in calls <==> driver.startSession.Pass? && driver.startTransaction.Pass?
    ensures driver.startSession.Pass? && driver.startTransaction.Fail? ==> err == driver.startTransaction
    // a failing unit of work is aborted and its own error returned, whatever the abort answers
    ensures RunUnitOfWork in calls && work().Fail? ==>
      err == work() && AbortTransaction in calls && CommitTransaction !in calls
    // a succeeding unit of work is committed and the commit's answer is the result
    ensures RunUnitOfWork in calls && work().Pass? ==>
      err == driver.commitTransaction && CommitTransaction in calls && AbortTransaction !in calls
    // the whole trace, case by case: one transaction per started session, the unit of work
    // before the abort or commit, and neither of those without the unit of work
    ensures driver.startSession.Pass? && driver.startTransaction.Fail? ==>
      calls == [StartSession, StartTransaction, EndSession]
    ensures RunUnitOfWork in calls && work().Fail? ==>
      calls == [StartSession, StartTransaction, RunUnitOfWork, AbortTransaction, EndSession]
    ensures RunUnitOfWork in calls && work().Pass? ==>
      calls == [StartSession, StartTransaction, RunUnitOfWork, CommitTransaction, EndSession]
  {
    calls := [StartSession];
    if driver.startSession.Fail? {
      return driver.startSession, calls;
    }
    calls := calls + [StartTransaction];
    if driver.startTransaction.Fail? {
      err := driver.startTransaction;
    } else {
      calls := calls + [RunUnitOfWork];
      var outcome := work();
      if outcome.Fail? {
        // an abort failure is only logged
        calls := calls + [AbortTransaction];
        err := outcome;
      } else {
        calls := calls + [CommitTransaction];
        err := driver.commitTransaction;
      }
      assert calls == [StartSession, StartTransaction, RunUnitOfWork, calls[3]];
    }
    // deferred session.EndSession
    calls := calls + [EndSession];
  }
}
