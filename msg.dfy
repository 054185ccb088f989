/** The messages the contract accepts and the answer it gives to a query. */
module Msg {
  import opened Host

  /** The one state-changing message: set the score of `address`. */
  datatype ExecuteMsg = UpdateScore(address: Addr, score: I32)

  /** The one read-only message: ask for the score of `address`. */
  datatype QueryMsg = GetScore(address: Addr)

  datatype ScoreResponse = ScoreResponse(score: I32)
}
