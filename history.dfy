/** Sequences of execute calls, as the host delivers them one after another to
    an instantiated store, and what the registry promises across them: the
    owner never changes, an entry never disappears, unauthorized calls have no
    effect, and a read returns the value of the most recent authorized write. */
module History {
  import opened Host
  import opened Error
  import opened Msg
  import opened Contract

  /** One execute call: who sent it and what it asked. */
  datatype Call = Call(sender: Addr, msg: ExecuteMsg)

  /** Whether `c` is a write that the owner `owner` made to `addr`. */
  predicate WritesTo(owner: Addr, c: Call, addr: Addr)
  {
    c.sender == owner && c.msg.address == addr
  }

  /** The store after executing `calls` in order, starting from `s`. */
  function Run(s: Storage, calls: seq<Call>): (t: Storage)
    requires s.owner.Some?
    ensures t.owner == s.owner
    ensures s.scores.Keys <= t.scores.Keys
    decreases |calls|
  {
    if calls == [] then s
    else
      var before := Run(s, calls[..|calls| - 1]);
      var last := calls[|calls| - 1];
      ExecuteStep(before, last.sender, last.msg).storage
  }

  /** Reference definition: the value of the most recent write that `owner`
      made to `addr` in `calls`, if there is one. */
  function LastWrite(owner: Addr, calls: seq<Call>, addr: Addr): Option<I32>
    decreases |calls|
  {
    if calls == [] then None
    else if WritesTo(owner, calls[|calls| - 1], addr) then Some(calls[|calls| - 1].msg.score)
    else LastWrite(owner, calls[..|calls| - 1], addr)
  }

  /** The most recent authorized write to an address is what every later read
      returns; with no such write the read answers as it did before the calls. */
  lemma {:induction false} LastWriteWins(s: Storage, calls: seq<Call>, addr: Addr)
    requires s.owner.Some?
    ensures QueryScore(Run(s, calls), addr) ==
            match LastWrite(s.owner.value, calls, addr)
            case Some(v) => Ok(ScoreResponse(v))
            case None => QueryScore(s, addr)
    decreases |calls|
  {
    if calls != [] {
      LastWriteWins(s, calls[..|calls| - 1], addr);
    }
  }

  /** `LastWrite` finds a value exactly when the owner wrote to the address. */
  lemma {:induction false} LastWriteFound(owner: Addr, calls: seq<Call>, addr: Addr)
    ensures LastWrite(owner, calls, addr).Some? <==>
            exists i :: 0 <= i < |calls| && WritesTo(owner, calls[i], addr)
    decreases |calls|
  {
    if calls != [] {
      var prefix := calls[..|calls| - 1];
      LastWriteFound(owner, prefix, addr);
      if exists i :: 0 <= i < |calls| && WritesTo(owner, calls[i], addr) {
        var i :| 0 <= i < |calls| && WritesTo(owner, calls[i], addr);
        if i < |calls| - 1 {
          assert prefix[i] == calls[i];
        }
      }
      if exists i :: 0 <= i < |prefix| && WritesTo(owner, prefix[i], addr) {
        var i :| 0 <= i < |prefix| && WritesTo(owner, prefix[i], addr);
        assert calls[i] == prefix[i];
      }
    }
  }

  /** Read isolation: an address with no entry before the calls can be read
      successfully afterwards exactly when the owner wrote to it. */
  lemma ReadNeedsWrite(s: Storage, calls: seq<Call>, addr: Addr)
    requires s.owner.Some?
    requires addr !in s.scores
    ensures QueryScore(Run(s, calls), addr).Ok? <==>
            exists i :: 0 <= i < |calls| && WritesTo(s.owner.value, calls[i], addr)
  {
    LastWriteWins(s, calls, addr);
    LastWriteFound(s.owner.value, calls, addr);
  }

  /** Calls from anyone but the owner leave the whole store as it was. */
  lemma {:induction false} ForeignCallsInert(s: Storage, calls: seq<Call>)
    requires s.owner.Some?
    requires forall i :: 0 <= i < |calls| ==> calls[i].sender != s.owner.value
    ensures Run(s, calls) == s
    decreases |calls|
  {
    if calls != [] {
      var prefix := calls[..|calls| - 1];
      assert forall i :: 0 <= i < |prefix| ==> prefix[i] == calls[i];
      ForeignCallsInert(s, prefix);
    }
  }
}
