/** The owner-guarded score registry: instantiation records the owner, an
    execute message lets the owner upsert one score, a query reads one score.

    The persistent store has two parts: the owner slot (`STATE`) and the map
    from address to score (`SCORES`). `Storage` is a read-only view of it (what
    the host passes to a query as `Deps`); `ContractStorage` is the mutable store
    the state-changing entry points write through (`DepsMut`). */
module Contract {
  import opened Host
  import opened Error
  import opened Msg

  /** A snapshot of the persistent store. `owner` is `None` until instantiation. */
  datatype Storage = Storage(owner: Option<Addr>, scores: map<Addr, I32>)

  /** The new store and the result of one state-changing call. */
  datatype Outcome = Outcome(storage: Storage, result: Result<Response>)

  /** The response of a successful instantiation. */
  function InstantiateResponse(sender: Addr): (r: Response)
    ensures r.messageCount == 0
    ensures r.attributes == [Attribute("method", "instantiate"), Attribute("owner", sender)]
  {
    Response.New().AddAttribute("method", "instantiate").AddAttribute("owner", sender)
  }

  /** The response of a successful score update. */
  function UpdateResponse(): (r: Response)
    ensures r.messageCount == 0
    ensures r.attributes == [Attribute("method", "try_update_score")]
  {
    Response.New().AddAttribute("method", "try_update_score")
  }

  /** The closure handed to the map's update: both arms give the new score, so
      the previous entry, present or not, never influences what is stored. */
  function UpsertValue(existing: Option<I32>, score: I32): (v: I32)
    ensures v == score
  {
    match existing
    case Some(_) => score
    case None => score
  }

  /** The entry stored for `addr`, if any. */
  function Lookup(scores: map<Addr, I32>, addr: Addr): Option<I32>
  {
    if addr in scores then Some(scores[addr]) else None
  }

  /** What `try_update_score` does to the store, as a function of the store
      before the call. Defined only once an owner exists: the source unwraps the
      loaded owner, so a call on an uninstantiated store aborts. */
  function UpdateStep(s: Storage, sender: Addr, addr: Addr, score: I32): (o: Outcome)
    requires s.owner.Some?
    ensures o.storage.owner == s.owner
    ensures o.result.Ok? <==> sender == s.owner.value
    ensures o.result.Err? ==> o.result.error == Unauthorized && o.storage == s
    ensures o.result.Ok? ==> o.result.value == UpdateResponse()
    ensures o.result.Ok? ==> o.storage.scores == s.scores[addr := score]
  {
    if sender != s.owner.value then
      Outcome(s, Err(Unauthorized))
    else
      Outcome(s.(scores := s.scores[addr := UpsertValue(Lookup(s.scores, addr), score)]), Ok(UpdateResponse()))
  }

  /** What `execute` does to the store: dispatch on the message. */
  function ExecuteStep(s: Storage, sender: Addr, msg: ExecuteMsg): (o: Outcome)
    requires s.owner.Some?
    ensures o.storage.owner == s.owner
    ensures o.result.Ok? <==> sender == s.owner.value
    ensures o.result.Err? ==> o.result.error == Unauthorized && o.storage == s
    ensures o.result.Ok? ==> o.result.value == UpdateResponse()
    ensures o.result.Ok? ==> o.storage.scores == s.scores[msg.address := msg.score]
  {
    match msg
    case UpdateScore(address, score) => UpdateStep(s, sender, address, score)
  }

  /** `query_score`: the stored score of `addr`, or `AddressNotFound`; never a
      default value, and the owner slot is not consulted. */
  function QueryScore(deps: Storage, addr: Addr): (r: Result<ScoreResponse>)
    ensures r.Ok? <==> addr in deps.scores
    ensures r.Ok? ==> r.value.score == deps.scores[addr]
    ensures r.Err? ==> r.error == AddressNotFound
  {
    if addr in deps.scores then
      Ok(ScoreResponse(deps.scores[addr]))
    else
      Err(AddressNotFound)
  }

  /** `query`: dispatch on the message. */
  function Query(deps: Storage, msg: QueryMsg): (r: Result<ScoreResponse>)
    ensures r.Ok? <==> msg.address in deps.scores
    ensures r.Ok? ==> r.value.score == deps.scores[msg.address]
    ensures r.Err? ==> r.error == AddressNotFound
  {
    match msg
    case GetScore(address) => QueryScore(deps, address)
  }

  /** The persistent store, written in place by the state-changing entry points. */
  class ContractStorage {
    var owner: Option<Addr>
    var scores: map<Addr, I32>

    /** A fresh store, before instantiation: no owner, no scores. */
    constructor ()
      ensures owner == None && scores == map[]
    {
      owner := None;
      scores := map[];
    }

    /** The read-only view of the store (`deps.as_ref()`). */
    function AsRef(): Storage
      reads this
    {
      Storage(owner, scores)
    }

    /** `instantiate`: records the caller as owner and leaves the scores alone. */
    method Instantiate(sender: Addr) returns (r: Result<Response>)
      modifies this
      ensures owner == Some(sender)
      ensures scores == old(scores)
      ensures r == Ok(InstantiateResponse(sender))
    {
      owner := Some(sender);
      r := Ok(InstantiateResponse(sender));
    }

    /** `try_update_score`: the owner check comes first; only the owner may
        write, and then the entry for `addr` is set to `score` whether or not
        it existed. */
    method TryUpdateScore(sender: Addr, addr: Addr, score: I32) returns (r: Result<Response>)
      requires owner.Some?
      modifies this
      ensures Outcome(AsRef(), r) == UpdateStep(old(AsRef()), sender, addr, score)
      ensures owner == old(owner)
      ensures r.Ok? <==> sender == owner.value
      ensures r.Err? ==> r.error == Unauthorized && scores == old(scores)
      ensures r.Ok? ==> scores == old(scores)[addr := score]
      ensures r.Ok? ==> QueryScore(AsRef(), addr) == Ok(ScoreResponse(score))
    {
      var stored := owner.value;
      if sender != stored {
        return Err(Unauthorized);
      }
      scores := scores[addr := UpsertValue(Lookup(scores, addr), score)];
      r := Ok(UpdateResponse());
    }

    /** `execute`: dispatch on the message to `TryUpdateScore`. */
    method Execute(sender: Addr, msg: ExecuteMsg) returns (r: Result<Response>)
      requires owner.Some?
      modifies this
      ensures Outcome(AsRef(), r) == ExecuteStep(old(AsRef()), sender, msg)
      ensures owner == old(owner)
      ensures r.Ok? <==> sender == owner.value
      ensures r.Err? ==> r.error == Unauthorized && scores == old(scores)
      ensures r.Ok? ==> scores == old(scores)[msg.address := msg.score]
    {
      match msg
      case UpdateScore(address, score) =>
        r := TryUpdateScore(sender, address, score);
    }
  }

  /** Round trip: after an authorized update, the query returns exactly the
      value written, over the whole `i32` range. */
  lemma UpdateThenQuery(s: Storage, addr: Addr, score: I32)
    requires s.owner.Some?
    ensures QueryScore(UpdateStep(s, s.owner.value, addr, score).storage, addr) == Ok(ScoreResponse(score))
  {
  }

  /** An update touches only the entry it names: every other address reads as
      before, and the owner is kept. */
  lemma UpdateFrame(s: Storage, sender: Addr, addr: Addr, score: I32, other: Addr)
    requires s.owner.Some?
    requires other != addr
    ensures QueryScore(UpdateStep(s, sender, addr, score).storage, other) == QueryScore(s, other)
    ensures UpdateStep(s, sender, addr, score).storage.owner == s.owner
  {
  }

  /** Upsert: two owner updates of the same address leave the second value,
      whether or not the address had an entry before the first. */
  lemma UpdateOverwrites(s: Storage, addr: Addr, v1: I32, v2: I32)
    requires s.owner.Some?
    ensures var s1 := UpdateStep(s, s.owner.value, addr, v1).storage;
            QueryScore(UpdateStep(s1, s.owner.value, addr, v2).storage, addr) == Ok(ScoreResponse(v2))
  {
  }

  /** Reads are open to everyone: the owner slot does not affect a query. */
  lemma QueryIgnoresOwner(s: Storage, owner: Option<Addr>, addr: Addr)
    ensures QueryScore(s.(owner := owner), addr) == QueryScore(s, addr)
  {
  }
}
