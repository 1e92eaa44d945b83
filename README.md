# Hardware service inventory model

A Dafny model of the inventory-consistency core of a small hardware-checkout
service. The service keeps two collections:

- **hardware sets**: a unique name mapped to a total `capacity` and the units
  currently `availability`;
- **project checkouts**: a `(projectId, hwSetName)` pair mapped to the
  quantity that project holds. A record exists only while its quantity is
  positive.

Its endpoints `check_out` and `check_in` move units between the two
collections. Each runs a sequence of checks, then two dependent writes: the
set's availability first, then the project's holding. If the second write
fails, a compensating write undoes the first.

The model has three modules:

- `HardwareDatabase` (`hardware_database.dfy`) models the store layer. Each
  store operation is a pure function on a table (`CreatedHwSet`,
  `UpdatedAvailability`, `RequestedSpace`, `UpdatedProjectCheckout`). The
  function's contract says what the operation means. The class `Database`
  holds both tables as `map` fields. Its methods update them in place, return
  `bool` like the source, and are proved to agree with those functions. The
  pure reads `QueryHardwareSet` and `GetProjectCheckout` are functions on the
  tables.
- `Inventory` (`inventory.dfy`) defines the cross-table invariant
  `Consistent`. It says that every set has `0 <= availability <= capacity`,
  every stored quantity is positive, and every record names a known set. It
  also says that `capacity - availability` of each set equals `Held`, the sum
  of the holdings recorded for that set. This module also holds the lemmas
  that reason about that sum.
- `HardwareService` (`hardware_service.dfy`) models the endpoints. Each one is
  a function from the state before a request to its `Response` (status code
  and message) and the state after it. Each is also a method on a `Database`
  that makes the same store calls as the source and is proved to agree with
  that function. The lemmas cover several properties:
  - every endpoint keeps the state `Consistent`;
  - rejections leave the state unchanged;
  - a failed holdings write is compensated back to the exact pre-state;
  - a check-out followed by the matching check-in restores both tables.

The holdings write takes an extra `injectFailure` parameter. It stands for
the store refusing that write for a reason the service cannot see, and it
makes the compensation paths reachable. In the sequential model that is the
only way to reach them: under the invariant, the store's own checks never
refuse the holdings write (`CheckOutWritesSucceed`, `CheckInWritesSucceed`).
In the running service, a concurrent request that changes the same record
between the check and the write could cause such a refusal.

Three behaviours of the code that the model keeps:

- A failed `requestSpace` in `check_out`, and a failed first write in
  `check_in`, answer 400, not an internal error (app.py:127-128,
  app.py:176-177).
- The field check rejects an empty `userId` as well (app.py:113, app.py:154).
- `getAllHwSetNames` returns the list of names (hardware_database.py:149-150).
  The model gives a sequence with each name once.

## Model

| member | source | states |
|---|---|---|
| HardwareDatabase.CreatedHwSet | hardware_database.py:38-49 | creation succeeds iff the name is new; then exactly one set is added with capacity == availability == initCapacity and every other set is kept; a duplicate name leaves the table unchanged; the range invariant is preserved for a non-negative capacity |
| HardwareDatabase.QueryHardwareSet | hardware_database.py:67-71 | found iff the name is stored, with the stored record; otherwise the "Hardware set does not exist" message |
| HardwareDatabase.UpdatedAvailability | hardware_database.py:88-104 | succeeds iff the set exists and availability + delta lies in [0, capacity]; on success only that set's availability changes, by delta; on failure nothing is written; 0 <= availability <= capacity is preserved |
| HardwareDatabase.RequestedSpace | hardware_database.py:121-134 | succeeds iff the set exists and availability >= amount; on success availability drops by exactly amount, otherwise nothing changes; for amount >= 0 on an in-range table it equals updateAvailability by -amount and preserves the range |
| HardwareDatabase.GetProjectCheckout | hardware_database.py:167-174 | the stored quantity, or 0 without a record; on a table without empty records the answer is >= 0 and positive iff a record exists |
| HardwareDatabase.UpdatedProjectCheckout | hardware_database.py:198-225 | succeeds iff (record exists and old + qty >= 0) or (no record and qty > 0); on success the holding becomes old + qty and the record exists iff that is > 0 (deleted at 0, inserted or updated otherwise); on failure nothing is written; no other record changes; no zero or negative record is ever created |
| HardwareDatabase.Database.CreateHardwareSet | hardware_database.py:35-49 | the set table becomes CreatedHwSet of the old one, the checkout table is untouched, and the message is the success text or "<name> set already exists" |
| HardwareDatabase.Database.UpdateAvailability | hardware_database.py:85-104 | the in-place update agrees with UpdatedAvailability (result and new set table); checkouts untouched |
| HardwareDatabase.Database.RequestSpace | hardware_database.py:118-134 | the in-place update agrees with RequestedSpace; checkouts untouched |
| HardwareDatabase.Database.GetAllHwSetNames | hardware_database.py:146-150 | returns exactly the names of the stored sets, each once (as many names as there are sets) |
| HardwareDatabase.Database.UpdateProjectCheckout | hardware_database.py:189-225 | the in-place update agrees with UpdatedProjectCheckout, or with a failed write that changes nothing when a store failure is injected; the set table is untouched |
| Inventory.HeldAfterCheckoutUpdate | hardware_database.py:198-225 | a successful holdings update of qty changes the total holdings of the record's set by exactly qty and those of every other set not at all |
| Inventory.HeldCoversHolding | hardware_database.py:167-174 | without empty records, one project's holding of a set never exceeds the total holdings of that set |
| Inventory.HeldUnreferenced | hardware_database.py:42-48 | a set name that no checkout record refers to has total holdings 0 |
| HardwareService.CheckOutStep | app.py:113-136 | an empty field gives 400, an unknown set gives 404, qty > availability gives 400, all with no change; success (200) iff the checks pass and the holdings write succeeds, and then availability drops by qty, the project's holding rises by qty and no other record changes; a 500 leaves the checkouts unchanged |
| HardwareService.CheckInStep | app.py:154-185 | an empty field gives 400, an unknown set gives 404, a holding < qty gives 400, and availability + qty > capacity gives 400 before any write, all with no change; on an in-range set table and qty > 0, success (200) iff these checks pass and the holdings write succeeds; on 200 availability rises by qty, the holding drops by qty and the record remains iff the old holding exceeded qty; no other record changes |
| HardwareService.CreateHardwareSetStep | app.py:201-210 | 409 iff the name exists, with the existing set untouched and the "already exists" message; otherwise 200 and a new set with capacity == availability == capacity |
| HardwareService.GetHwInfo | app.py:83-95 | a plain read of the state: an empty name gives 400, an unknown name gives 404 with the store's message, otherwise name, capacity and availability of the stored set |
| HardwareService.GetAllHwNames | app.py:221-224 | the names of all stored sets, each exactly once |
| HardwareService.CheckOut | app.py:113-136 | the store calls in the source's order yield exactly the response and new state of CheckOutStep, and a consistent state stays consistent |
| HardwareService.CheckIn | app.py:154-185 | the store calls in the source's order yield exactly the response and new state of CheckInStep, and a consistent state stays consistent |
| HardwareService.CreateHardwareSet | app.py:201-210 | the store call yields exactly the response and new state of CreateHardwareSetStep, and a consistent state stays consistent |
| HardwareService.CheckOutRollbackRestores | app.py:131-134 | when the holdings write of a check-out fails, the compensating +qty write restores the state before the request exactly |
| HardwareService.CheckInRollbackRestores | app.py:180-183 | when the holdings write of a check-in fails, the compensating -qty write restores the state before the request exactly |
| HardwareService.CheckOutWritesSucceed | app.py:122-134 | after the availability check the reservation never fails ("Failed to check out hardware" is never answered), and a 500 only arises from a store failure |
| HardwareService.CheckInWritesSucceed | app.py:163-183 | under the invariant "Too big to check in" and "Failed to check in hardware" are never answered, and a 500 only arises from a store failure |
| HardwareService.CheckOutKeepsConsistent | app.py:127-136 | every check-out outcome preserves the invariant, in particular capacity - availability == sum of holdings for every set |
| HardwareService.CheckInKeepsConsistent | app.py:176-185 | every check-in outcome preserves the invariant, in particular capacity - availability == sum of holdings for every set |
| HardwareService.CreateKeepsConsistent | app.py:201-210 | creating a set with non-negative capacity preserves the invariant |
| HardwareService.CheckOutThenCheckInRestores | app.py:127-185 | a successful check-out of qty followed by a check-in of qty for the same project and set succeeds and restores both availability and the checkout table exactly |
| HardwareService.HWSet1Scenario | tests/test_checkout.py:11-15 | the cited lines check out 5 units of HWSet1 for project123 and give no userId; the model adds a userId ("user1"), and the create with capacity 10, the refused check-out of 6, the check-in of 5 that removes the record and the refused check-in of 1 are additions of the model, not steps of the source |

## Left out

- MongoDB client construction, the TLS flags and the startup ping (app.py:20-61) are network I/O. The two collections are in-memory maps instead.
- FastAPI routing, `JSONResponse`, `HTTPException` and the `uvicorn` start-up (app.py:1-18, app.py:226-228) are left out. A response is a status code and its message text. The JSON key names ("error", "message", "detail") are not modelled.
- The root endpoint `/` (app.py:63-66) returns a constant and holds no state.
- config.py (environment variables, connection-string munging) is not part of this model. Its only relevant content, the two collection names, became the two map fields.
- models.py (pydantic validation) is not part of this model. Its `qty > 0` and `capacity > 0` constraints are preconditions of `CheckOut`, `CheckIn` and `CreateHardwareSet`. The `qty == 0` case of the field check is kept in `MissingField`, even though those preconditions make it unreachable.
- tests/test_checkout.py and tests/test_hw_info.py drive a live server and make no assertions. `HWSet1Scenario` extends their check-out of 5 units into a walk-through of its own.
- Concurrency is not modelled: each store call is one sequential step. This leaves out the race between the availability pre-check and `requestSpace` (app.py:122-127 against hardware_database.py:121-130), and the non-atomic read-then-write inside each store operation.
- A store failure of the compensating write itself is not modelled. That is the inconsistency window that the compensation leaves open, in which `capacity - availability` would be off by `qty` from the recorded holdings. Sequentially, the compensation's own range check always passes (`CheckOutRollbackRestores`, `CheckInRollbackRestores`).
- Store exceptions raised by the driver are not modelled. `injectFailure` covers only a holdings write that is refused without writing.
- Documents lacking a field (the defaults of `.get('quantity', 0)` and `.get("availability", 0)`) cannot occur in the model: every record has all its fields.
- HardwareDatabase.Database.GetAllHwSetNames: the order of the returned names is left unspecified, because the source returns them in the store's natural order, which the model does not represent.
