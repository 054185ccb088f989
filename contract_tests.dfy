/** The contract's unit tests as client code: each runs the entry points on a
    fresh store, and its postcondition includes what the test asserts. */
module ContractTests {
  import opened Host
  import opened Error
  import opened Msg
  import opened Contract

  /** Instantiation succeeds and asks the host to dispatch no messages. */
  method ProperInitialization() returns (res: Response)
    ensures res.messageCount == 0
  {
    var deps := new ContractStorage();
    var r := deps.Instantiate("creator");
    res := r.value;
  }

  /** The owner sets its own score to 3 and reads 3 back. */
  method UpdateAndQuery() returns (score: I32)
    ensures score == 3
  {
    var deps := new ContractStorage();
    var init := deps.Instantiate("creator");
    var _ := init.value;
    var executed := deps.Execute("creator", UpdateScore("creator", 3));
    var _ := executed.value;
    var res := Query(deps.AsRef(), GetScore("creator"));
    score := res.value.score;
  }

  /** A caller other than the owner is refused, and the entry it tried to
      write still does not exist. */
  method FailToUpdate() returns (err: Result<Response>, after: Result<ScoreResponse>)
    ensures err == Err(Unauthorized)
    ensures after == Err(AddressNotFound)
  {
    var deps := new ContractStorage();
    var _ := deps.Instantiate("creator");
    err := deps.Execute("crook", UpdateScore("crook", 9999999));
    after := Query(deps.AsRef(), GetScore("crook"));
  }

  /** Right after instantiation nobody has a score, not even the owner. */
  method FailToFind() returns (res: Result<ScoreResponse>)
    ensures res == Err(AddressNotFound)
  {
    var deps := new ContractStorage();
    var _ := deps.Instantiate("creator");
    res := Query(deps.AsRef(), GetScore("creator"));
  }
}
