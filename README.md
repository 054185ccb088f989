# Scoria score registry in Dafny

Scoria is a CosmWasm contract that keeps one signed 32-bit score per address.
The account that instantiates the contract becomes its owner. Only the owner
may set a score, and setting one is an upsert: the entry is created or
overwritten, with no difference between the two. Anyone may query a score;
an address without an entry yields `AddressNotFound`, never a default.

The model has these parts:

- `host.dfy` (module `Host`): addresses (`Addr`, an opaque string), Rust's
  `i32` as the subset type `I32`, `Option`, and the `Response` with its
  builder (`New`, `AddAttribute`).
- `error.dfy` (module `Error`): `ContractError` (`Unauthorized`,
  `AddressNotFound`) and `Result`.
- `msg.dfy` (module `Msg`): `ExecuteMsg`, `QueryMsg`, `ScoreResponse`.
- `contract.dfy` (module `Contract`): the store. `Storage` is a read-only
  snapshot of it, the `Deps` a query receives; `Query` and `QueryScore` are
  functions of that snapshot, so a read cannot change anything.
  `ContractStorage` is the mutable store (`DepsMut`), a class with the fields
  `owner` (the `STATE` slot) and `scores` (the `SCORES` map). Its methods
  `Instantiate`, `Execute` and `TryUpdateScore` write these fields in place.
  `UpdateStep` is the pure specification of one update, and `TryUpdateScore`
  is proved against it.
- `history.dfy` (module `History`): calls delivered one after another
  (`Run`), and what holds over any number of them. The owner never changes,
  no entry disappears, and calls from anyone other than the owner change
  nothing. A read returns the value of the most recent authorized write, as
  computed by the reference definition `LastWrite`.
  These lemmas are stated over `Storage` values. They apply to the class
  because every `ContractStorage.Execute` call ensures that the new
  `AsRef()` is `ExecuteStep(old(AsRef()), sender, msg).storage`, and `Run`
  is `ExecuteStep` applied call after call; no client method chains the
  class calls into a `Run` explicitly.
- `contract_tests.dfy` (module `ContractTests`): the source's four unit
  tests as client methods. Each postcondition includes what its test asserts.
  `FailToUpdate` also checks that the refused write left no entry for
  `crook`; the test itself does not assert this.

`try_update_score` loads the owner with `.unwrap()`. On a store that was
never instantiated the call aborts; it does not return an error. The model
makes this a precondition (`owner.Some?`) of `TryUpdateScore`, `Execute`,
`UpdateStep` and `Run`. No "uninitialized" error variant is added, because
the code has none: before instantiation the call panics at the `.unwrap()`
(src/contract.rs:51).

Calling `instantiate` a second time simply overwrites the owner, as the code
does.

## Model

| member | source | states |
|---|---|---|
| Contract.ContractStorage.Instantiate | src/contract.rs:17-28 | afterwards the owner is the caller, the scores are untouched, and the result is `Ok` with no messages and the attributes `method = instantiate`, `owner = sender` |
| Contract.InstantiateResponse | src/contract.rs:25-27 | the instantiation response carries no messages and exactly the attributes `method = instantiate` then `owner = sender` |
| Contract.ContractStorage.TryUpdateScore | src/contract.rs:44-64 | needs an instantiated store (the owner is unwrapped). It succeeds iff the caller is the owner. On failure it returns `Unauthorized` and changes nothing. On success only the entry for `addr` changes, to `score`, the owner is kept, and a query of `addr` then returns `score`. It agrees with `UpdateStep` |
| Contract.UpdateStep | src/contract.rs:51-63 | specification of one update: the owner is kept; success iff sender equals owner; failure is `Unauthorized` and leaves the store as it was; success upserts exactly `addr := score` and answers `UpdateResponse()` |
| Contract.UpdateResponse | src/contract.rs:63 | a successful update answers with no messages and the single attribute `method = try_update_score` |
| Contract.UpsertValue | src/contract.rs:56-61 | the value stored is the new score whether an entry existed or not: both arms give the same result |
| Contract.ContractStorage.Execute | src/contract.rs:32-41 | dispatches `UpdateScore` to `TryUpdateScore` and inherits its guarantees (owner check, upsert, nothing else changes) |
| Contract.ExecuteStep | src/contract.rs:38-40 | executing `UpdateScore(address, score)`: the owner is kept; success iff the sender is the owner; failure is `Unauthorized` with the store unchanged; success sets exactly `address := score` and answers `UpdateResponse()` |
| Contract.QueryScore | src/contract.rs:75-83 | succeeds iff the address has an entry and then returns exactly the stored score. Otherwise it fails with `AddressNotFound`, never with a default value |
| Contract.Query | src/contract.rs:68-72 | `GetScore` answers as `QueryScore` on its address: the stored score iff present, else `AddressNotFound` |
| Contract.UpdateThenQuery | src/contract.rs:56-61 | round trip: after an authorized update of `addr` to `v`, a query of `addr` returns exactly `v`, over the whole `i32` range |
| Contract.UpdateFrame | src/contract.rs:56-61 | an update leaves every other address's query answer and the owner unchanged |
| Contract.UpdateOverwrites | src/contract.rs:56-61 | two owner updates of one address leave the later value, whether or not the address had an entry |
| Contract.QueryIgnoresOwner | src/contract.rs:75-83 | a query does not depend on the owner slot: reads are open to every caller |
| History.Run | src/contract.rs:32-64 | over any sequence of execute calls on an instantiated store the owner stays the same and every existing entry stays present |
| History.LastWriteWins | src/contract.rs:51-61 | after any sequence of calls, a query of an address returns the value of the owner's most recent write to it. If the owner never wrote to it, the query answers as before the calls |
| History.ReadNeedsWrite | src/contract.rs:75-83 | an address absent before a sequence of calls can be read afterwards iff the owner wrote to it during them |
| History.ForeignCallsInert | src/contract.rs:51-53 | a sequence of calls none of which comes from the owner leaves the whole store unchanged |
| ContractTests.ProperInitialization | src/contract.rs:94-99 | instantiating with `creator` succeeds with zero messages |
| ContractTests.UpdateAndQuery | src/contract.rs:103-125 | after the owner sets its own score to 3, the query returns 3 |
| ContractTests.FailToUpdate | src/contract.rs:129-145 | an update by `crook` fails with `Unauthorized` (what the test asserts); beyond the test, `crook` still has no entry afterwards |
| ContractTests.FailToFind | src/contract.rs:149-166 | right after instantiation, querying the owner's score fails with `AddressNotFound` |

## Left out

- `set_contract_version` (src/contract.rs:22): name/version metadata for the host's upgrade checks. No logic of the contract reads it.
- Storage-backend failures, whether propagated by `?` (src/contract.rs:22-23, 61) or unwrapped (the owner load at src/contract.rs:51 and the score load at src/contract.rs:78): these are host faults, and the model treats them as impossible. `Instantiate` therefore always returns `Ok`, a successful owner check always leads to a successful write, and an entry that exists can always be loaded. Only the unwrap of an absent owner is modelled, as the precondition `owner.Some?`.
- The `Env` and `MessageInfo` arguments except the sender, the funds and mock balances of the tests, and the entry-point attributes: none of them affects the logic.
- Serialization and JSON schema of the messages in src/msg.rs: only the shapes of the enums are modelled.
- `Response` contents beyond the number of sub-messages and the attribute list.
- The abort of `try_update_score` on a store that was never instantiated is modelled as a precondition, not as an outcome. The model therefore says nothing about what the host does after the abort.
- src/state.rs and src/error.rs are not part of this model beyond the item shapes the contract uses: the `STATE` owner slot, the `SCORES` map, and the two error variants.
