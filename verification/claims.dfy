/** What the dispatcher hands from the claim query to the workers. */
module Claims {
  datatype Option<+T> = None | Some(value: T)

  datatype ClaimedJob = ClaimedJob(id: string, groupKey: Option<string>, priority: int, leaseToken: string,
                                   rateClass: Option<string>)
}
