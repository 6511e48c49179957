/** The `status` strings a job record can carry, in both backends. */
module Jobs {

  datatype Status = Queued | Running | Done | Error {
    predicate IsTerminal()
    {
      Done? || Error?
    }
  }
}
