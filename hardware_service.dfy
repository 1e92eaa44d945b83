/** The orchestration layer of the hardware service (app.py): each request
    runs a sequence of checks, then two dependent writes (availability, then
    the project's holding), and undoes the first write when the second one
    fails. Each endpoint is given as a function from the state before the
    request to the response and the state after it (a `Step`), and as a
    method on `Database` proved to agree with that function; the lemmas show
    that every endpoint keeps the state `Consistent`, that rejections and
    compensated failures leave the state as it was, and that a check-out
    followed by the matching check-in restores it. */
module HardwareService {
  import opened HardwareDatabase
  import opened Inventory

  /** An HTTP status code and the message of the JSON body. */
  datatype Response = Response(status: int, message: string)

  /** What one request does: its response and the state it leaves. */
  datatype Step = Step(resp: Response, state: State)

  /** The answer of `get_hw_info`. */
  datatype HwInfoReply =
    | HwInfo(hardwareName: string, capacity: int, availability: int)
    | HwInfoError(resp: Response)

  const MissingFields := "Missing required fields"
  const MissingHwSetName := "Missing 'hwSetName' in request"
  const HardwareMissing := "Hardware does not exist"
  const NotEnoughUnits := "Not enough units available to check out"
  const CheckOutFailed := "Failed to check out hardware"
  const CheckedOut := "Checked out successfully"
  const OverCheckIn := "Cannot check in more than currently checked out"
  const TooBig := "Too big to check in"
  const CheckInFailed := "Failed to check in hardware"
  const CheckedIn := "Checked in successfully"
  const RecordUpdateFailed := "Failed to update project checkout record"

  /** The request is missing a field: an empty string or a zero quantity. */
  predicate MissingField(projectId: string, hwSetName: string, qty: int, userId: string) {
    projectId == "" || hwSetName == "" || qty == 0 || userId == ""
  }

  /** `check_out`: validate, look up the set, check availability, reserve the
      units, then record the project's holding; if that record cannot be
      written, give the units back and answer 500. */
  function CheckOutStep(s: State, projectId: string, hwSetName: string, qty: int, userId: string, injectFailure: bool): (r: Step)
    ensures MissingField(projectId, hwSetName, qty, userId) ==> r == Step(Response(400, MissingFields), s)
    ensures !MissingField(projectId, hwSetName, qty, userId) && hwSetName !in s.hwSets ==>
              r == Step(Response(404, HardwareMissing), s)
    ensures !MissingField(projectId, hwSetName, qty, userId) && hwSetName in s.hwSets && s.hwSets[hwSetName].availability < qty ==>
              r == Step(Response(400, NotEnoughUnits), s)
    ensures r.resp.status in {200, 400, 404, 500}
    ensures r.resp.status == 400 || r.resp.status == 404 ==> r.state == s
    ensures r.resp.status == 500 ==> r.state.checkouts == s.checkouts
    ensures r.resp.status == 200 <==>
              && !MissingField(projectId, hwSetName, qty, userId)
              && hwSetName in s.hwSets && qty <= s.hwSets[hwSetName].availability
              && CheckoutWrite(s.checkouts, CheckoutKey(projectId, hwSetName), qty, injectFailure).ok
    ensures r.resp.status == 200 ==>
              && r.resp.message == CheckedOut
              && r.state.hwSets == s.hwSets[hwSetName := HwSet(s.hwSets[hwSetName].capacity, s.hwSets[hwSetName].availability - qty)]
              && GetProjectCheckout(r.state.checkouts, CheckoutKey(projectId, hwSetName))
                 == GetProjectCheckout(s.checkouts, CheckoutKey(projectId, hwSetName)) + qty
              && r.state.checkouts - {CheckoutKey(projectId, hwSetName)} == s.checkouts - {CheckoutKey(projectId, hwSetName)}
  {
    if MissingField(projectId, hwSetName, qty, userId) then Step(Response(400, MissingFields), s)
    else match QueryHardwareSet(s.hwSets, hwSetName)
      case NotFound(_) => Step(Response(404, HardwareMissing), s)
      case Found(hw) =>
        if hw.availability < qty then Step(Response(400, NotEnoughUnits), s)
        else
          var reserved := RequestedSpace(s.hwSets, hwSetName, qty);
          if !reserved.ok then Step(Response(400, CheckOutFailed), s)
          else
            var recorded := CheckoutWrite(s.checkouts, CheckoutKey(projectId, hwSetName), qty, injectFailure);
            if !recorded.ok then
              var rollback := UpdatedAvailability(reserved.table, hwSetName, qty);
              Step(Response(500, RecordUpdateFailed), State(rollback.table, s.checkouts))
            else Step(Response(200, CheckedOut), State(reserved.table, recorded.table))
  }

  /** `check_in`: validate, look up the set, check the project's holding and
      the set's capacity, release the units, then lower the project's
      holding; if that record cannot be written, take the units back and
      answer 500. */
  function CheckInStep(s: State, projectId: string, hwSetName: string, qty: int, userId: string, injectFailure: bool): (r: Step)
    ensures MissingField(projectId, hwSetName, qty, userId) ==> r == Step(Response(400, MissingFields), s)
    ensures !MissingField(projectId, hwSetName, qty, userId) && hwSetName !in s.hwSets ==>
              r == Step(Response(404, HardwareMissing), s)
    ensures !MissingField(projectId, hwSetName, qty, userId) && hwSetName in s.hwSets
            && GetProjectCheckout(s.checkouts, CheckoutKey(projectId, hwSetName)) < qty ==>
              r == Step(Response(400, OverCheckIn), s)
    ensures !MissingField(projectId, hwSetName, qty, userId) && hwSetName in s.hwSets
            && GetProjectCheckout(s.checkouts, CheckoutKey(projectId, hwSetName)) >= qty
            && s.hwSets[hwSetName].availability + qty > s.hwSets[hwSetName].capacity ==>
              r == Step(Response(400, TooBig), s)
    ensures r.resp.status in {200, 400, 404, 500}
    ensures r.resp.status == 400 || r.resp.status == 404 ==> r.state == s
    ensures r.resp.status == 500 ==> r.state.checkouts == s.checkouts
    ensures InRange(s.hwSets) && qty > 0 ==>
              (r.resp.status == 200 <==>
                 && !MissingField(projectId, hwSetName, qty, userId)
                 && hwSetName in s.hwSets
                 && GetProjectCheckout(s.checkouts, CheckoutKey(projectId, hwSetName)) >= qty
                 && s.hwSets[hwSetName].availability + qty <= s.hwSets[hwSetName].capacity
                 && CheckoutWrite(s.checkouts, CheckoutKey(projectId, hwSetName), -qty, injectFailure).ok)
    ensures r.resp.status == 200 ==>
              && r.resp.message == CheckedIn
              && hwSetName in s.hwSets
              && r.state.hwSets == s.hwSets[hwSetName := HwSet(s.hwSets[hwSetName].capacity, s.hwSets[hwSetName].availability + qty)]
              && GetProjectCheckout(r.state.checkouts, CheckoutKey(projectId, hwSetName))
                 == GetProjectCheckout(s.checkouts, CheckoutKey(projectId, hwSetName)) - qty
              && (CheckoutKey(projectId, hwSetName) in r.state.checkouts
                  <==> GetProjectCheckout(s.checkouts, CheckoutKey(projectId, hwSetName)) > qty)
              && r.state.checkouts - {CheckoutKey(projectId, hwSetName)} == s.checkouts - {CheckoutKey(projectId, hwSetName)}
  {
    if MissingField(projectId, hwSetName, qty, userId) then Step(Response(400, MissingFields), s)
    else match QueryHardwareSet(s.hwSets, hwSetName)
      case NotFound(_) => Step(Response(404, HardwareMissing), s)
      case Found(hw) =>
        var key := CheckoutKey(projectId, hwSetName);
        if GetProjectCheckout(s.checkouts, key) < qty then Step(Response(400, OverCheckIn), s)
        else if hw.availability + qty > hw.capacity then Step(Response(400, TooBig), s)
        else
          var released := UpdatedAvailability(s.hwSets, hwSetName, qty);
          if !released.ok then Step(Response(400, CheckInFailed), s)
          else
            var recorded := CheckoutWrite(s.checkouts, key, -qty, injectFailure);
            if !recorded.ok then
              var rollback := UpdatedAvailability(released.table, hwSetName, -qty);
              Step(Response(500, RecordUpdateFailed), State(rollback.table, s.checkouts))
            else Step(Response(200, CheckedIn), State(released.table, recorded.table))
  }

  /** `create_hardware_set`: 409 for a name already in use, with the set
      untouched; otherwise a new, fully available set. */
  function CreateHardwareSetStep(s: State, hwSetName: string, capacity: int): (r: Step)
    ensures r.resp.status == 409 <==> hwSetName in s.hwSets
    ensures r.resp.status == 409 ==> r.state == s && r.resp.message == AlreadyExistsMessage(hwSetName)
    ensures r.resp.status != 409 ==>
              && r.resp == Response(200, CreatedMessage)
              && r.state.hwSets == s.hwSets[hwSetName := HwSet(capacity, capacity)]
              && r.state.checkouts == s.checkouts
  {
    var created := CreatedHwSet(s.hwSets, hwSetName, capacity);
    if !created.ok then Step(Response(409, AlreadyExistsMessage(hwSetName)), s)
    else Step(Response(200, CreatedMessage), State(created.table, s.checkouts))
  }

  /** `get_hw_info`: the set's name, capacity and availability; 400 for an
      empty name and 404 for an unknown one. */
  function GetHwInfo(s: State, hwSetName: string): (r: HwInfoReply)
    ensures r.HwInfo? <==> hwSetName != "" && hwSetName in s.hwSets
    ensures r.HwInfo? ==> r == HwInfo(hwSetName, s.hwSets[hwSetName].capacity, s.hwSets[hwSetName].availability)
    ensures hwSetName == "" ==> r == HwInfoError(Response(400, MissingHwSetName))
    ensures hwSetName != "" && hwSetName !in s.hwSets ==> r == HwInfoError(Response(404, NotFoundMessage))
  {
    if hwSetName == "" then HwInfoError(Response(400, MissingHwSetName))
    else match QueryHardwareSet(s.hwSets, hwSetName)
      case NotFound(message) => HwInfoError(Response(404, message))
      case Found(hw) => HwInfo(hwSetName, hw.capacity, hw.availability)
  }

  /** `get_all_hw_names`: the names of all stored sets, each once. */
  method GetAllHwNames(db: Database) returns (hardwareNames: seq<string>)
    ensures forall n :: n in hardwareNames <==> n in db.hwSets
    ensures |hardwareNames| == |db.hwSets|
  {
    hardwareNames := db.GetAllHwSetNames();
  }

  method CheckOut(db: Database, projectId: string, hwSetName: string, qty: int, userId: string, injectFailure: bool)
    returns (resp: Response)
    requires qty > 0
    modifies db
    ensures Step(resp, db.Snapshot()) == CheckOutStep(old(db.Snapshot()), projectId, hwSetName, qty, userId, injectFailure)
    ensures Consistent(old(db.Snapshot())) ==> Consistent(db.Snapshot())
  {
    CheckOutKeepsConsistent(db.Snapshot(), projectId, hwSetName, qty, userId, injectFailure);
    if MissingField(projectId, hwSetName, qty, userId) {
      return Response(400, MissingFields);
    }
    var query := QueryHardwareSet(db.hwSets, hwSetName);
    if query.NotFound? {
      return Response(404, HardwareMissing);
    }
    if query.hwSet.availability < qty {
      return Response(400, NotEnoughUnits);
    }
    var reserved := db.RequestSpace(hwSetName, qty);
    if !reserved {
      return Response(400, CheckOutFailed);
    }
    var recorded := db.UpdateProjectCheckout(projectId, hwSetName, qty, injectFailure);
    if !recorded {
      var _ := db.UpdateAvailability(hwSetName, qty);
      return Response(500, RecordUpdateFailed);
    }
    return Response(200, CheckedOut);
  }

  method CheckIn(db: Database, projectId: string, hwSetName: string, qty: int, userId: string, injectFailure: bool)
    returns (resp: Response)
    requires qty > 0
    modifies db
    ensures Step(resp, db.Snapshot()) == CheckInStep(old(db.Snapshot()), projectId, hwSetName, qty, userId, injectFailure)
    ensures Consistent(old(db.Snapshot())) ==> Consistent(db.Snapshot())
  {
    CheckInKeepsConsistent(db.Snapshot(), projectId, hwSetName, qty, userId, injectFailure);
    if MissingField(projectId, hwSetName, qty, userId) {
      return Response(400, MissingFields);
    }
    var query := QueryHardwareSet(db.hwSets, hwSetName);
    if query.NotFound? {
      return Response(404, HardwareMissing);
    }
    var currentCheckout := GetProjectCheckout(db.checkouts, CheckoutKey(projectId, hwSetName));
    if currentCheckout < qty {
      return Response(400, OverCheckIn);
    }
    var newAvailability := query.hwSet.availability + qty;
    if newAvailability > query.hwSet.capacity {
      return Response(400, TooBig);
    }
    var released := db.UpdateAvailability(hwSetName, qty);
    if !released {
      return Response(400, CheckInFailed);
    }
    var recorded := db.UpdateProjectCheckout(projectId, hwSetName, -qty, injectFailure);
    if !recorded {
      var _ := db.UpdateAvailability(hwSetName, -qty);
      return Response(500, RecordUpdateFailed);
    }
    return Response(200, CheckedIn);
  }

  method CreateHardwareSet(db: Database, hwSetName: string, capacity: int) returns (resp: Response)
    requires capacity > 0
    modifies db
    ensures Step(resp, db.Snapshot()) == CreateHardwareSetStep(old(db.Snapshot()), hwSetName, capacity)
    ensures Consistent(old(db.Snapshot())) ==> Consistent(db.Snapshot())
  {
    CreateKeepsConsistent(db.Snapshot(), hwSetName, capacity);
    var success, message := db.CreateHardwareSet(hwSetName, capacity);
    if !success {
      return Response(409, message);
    }
    return Response(200, message);
  }

  /** If the holdings write of a check-out fails, the compensating write
      returns the reserved units, so the state is exactly the one before
      the request. */
  lemma CheckOutRollbackRestores(s: State, projectId: string, hwSetName: string, qty: int, userId: string, injectFailure: bool)
    requires InRange(s.hwSets)
    requires CheckOutStep(s, projectId, hwSetName, qty, userId, injectFailure).resp.status == 500
    ensures CheckOutStep(s, projectId, hwSetName, qty, userId, injectFailure).state == s
  {
    var hw := s.hwSets[hwSetName];
    var reserved := RequestedSpace(s.hwSets, hwSetName, qty);
    assert reserved.table[hwSetName := hw] == s.hwSets;
  }

  /** If the holdings write of a check-in fails, the compensating write
      takes the released units back, so the state is exactly the one before
      the request. */
  lemma CheckInRollbackRestores(s: State, projectId: string, hwSetName: string, qty: int, userId: string, injectFailure: bool)
    requires InRange(s.hwSets)
    requires CheckInStep(s, projectId, hwSetName, qty, userId, injectFailure).resp.status == 500
    ensures CheckInStep(s, projectId, hwSetName, qty, userId, injectFailure).state == s
  {
    var hw := s.hwSets[hwSetName];
    var released := UpdatedAvailability(s.hwSets, hwSetName, qty);
    assert released.table[hwSetName := hw] == s.hwSets;
  }

  /** Under the invariant, the two store writes of a check-out cannot be
      refused by the store's own checks: the reservation always succeeds
      after the availability check, and the holdings write fails only
      through an injected store failure. */
  lemma CheckOutWritesSucceed(s: State, projectId: string, hwSetName: string, qty: int, userId: string, injectFailure: bool)
    requires NoEmptyRecords(s.checkouts) && qty > 0
    ensures CheckOutStep(s, projectId, hwSetName, qty, userId, injectFailure).resp != Response(400, CheckOutFailed)
    ensures CheckOutStep(s, projectId, hwSetName, qty, userId, injectFailure).resp.status == 500 ==> injectFailure
  {
  }

  /** Under the invariant, a project never holds more than the set is
      missing, so once the holding check passes the capacity check passes
      too ("Too big to check in" cannot be answered), the release always
      succeeds, and the holdings write fails only through an injected store
      failure. */
  lemma CheckInWritesSucceed(s: State, projectId: string, hwSetName: string, qty: int, userId: string, injectFailure: bool)
    requires Consistent(s) && qty > 0
    ensures CheckInStep(s, projectId, hwSetName, qty, userId, injectFailure).resp.message !in {TooBig, CheckInFailed}
    ensures CheckInStep(s, projectId, hwSetName, qty, userId, injectFailure).resp.status == 500 ==> injectFailure
  {
    var key := CheckoutKey(projectId, hwSetName);
    HeldCoversHolding(s.checkouts, key);
  }

  /** Every outcome of `check_out` keeps the state consistent. */
  lemma CheckOutKeepsConsistent(s: State, projectId: string, hwSetName: string, qty: int, userId: string, injectFailure: bool)
    requires qty > 0
    ensures Consistent(s) ==> Consistent(CheckOutStep(s, projectId, hwSetName, qty, userId, injectFailure).state)
  {
    var r := CheckOutStep(s, projectId, hwSetName, qty, userId, injectFailure);
    if Consistent(s) {
      if r.resp.status == 500 {
        CheckOutRollbackRestores(s, projectId, hwSetName, qty, userId, injectFailure);
      } else if r.resp.status == 200 {
        var key := CheckoutKey(projectId, hwSetName);
        forall n | n in r.state.hwSets
          ensures r.state.hwSets[n].capacity - r.state.hwSets[n].availability == Held(r.state.checkouts, n)
        {
          HeldAfterCheckoutUpdate(s.checkouts, key, qty, n);
        }
      }
    }
  }

  /** Every outcome of `check_in` keeps the state consistent. */
  lemma CheckInKeepsConsistent(s: State, projectId: string, hwSetName: string, qty: int, userId: string, injectFailure: bool)
    requires qty > 0
    ensures Consistent(s) ==> Consistent(CheckInStep(s, projectId, hwSetName, qty, userId, injectFailure).state)
  {
    var r := CheckInStep(s, projectId, hwSetName, qty, userId, injectFailure);
    if Consistent(s) {
      if r.resp.status == 500 {
        CheckInRollbackRestores(s, projectId, hwSetName, qty, userId, injectFailure);
      } else if r.resp.status == 200 {
        var key := CheckoutKey(projectId, hwSetName);
        forall n | n in r.state.hwSets
          ensures r.state.hwSets[n].capacity - r.state.hwSets[n].availability == Held(r.state.checkouts, n)
        {
          HeldAfterCheckoutUpdate(s.checkouts, key, -qty, n);
        }
      }
    }
  }

  /** Creating a set keeps the state consistent: the new set is fully
      available and no record refers to it yet. */
  lemma CreateKeepsConsistent(s: State, hwSetName: string, capacity: int)
    requires capacity >= 0
    ensures Consistent(s) ==> Consistent(CreateHardwareSetStep(s, hwSetName, capacity).state)
  {
    if Consistent(s) && hwSetName !in s.hwSets {
      HeldUnreferenced(s.checkouts, hwSetName);
    }
  }

  /** Two tables that agree everywhere except possibly at `key`, and agree
      at `key` as well, are equal. */
  lemma SameTables(a: CheckoutTable, b: CheckoutTable, key: CheckoutKey)
    requires a - {key} == b - {key}
    requires key in a <==> key in b
    requires key in a ==> a[key] == b[key]
    ensures a == b
  {
    forall k | k in a ensures k in b && a[k] == b[k] {
      if k != key {
        assert k in a - {key};
      }
    }
    forall k | k in b ensures k in a {
      if k != key {
        assert k in b - {key};
      }
    }
  }

  /** Conservation: a successful check-out of `qty` followed by a check-in
      of the same `qty` for the same project and set succeeds and restores
      both the availability and the holdings to their original values. */
  lemma CheckOutThenCheckInRestores(s: State, projectId: string, hwSetName: string, qty: int, userId: string, checkInUserId: string)
    requires Consistent(s) && qty > 0 && checkInUserId != ""
    requires CheckOutStep(s, projectId, hwSetName, qty, userId, false).resp.status == 200
    ensures var afterOut := CheckOutStep(s, projectId, hwSetName, qty, userId, false).state;
            CheckInStep(afterOut, projectId, hwSetName, qty, checkInUserId, false) == Step(Response(200, CheckedIn), s)
  {
    var key := CheckoutKey(projectId, hwSetName);
    var afterOut := CheckOutStep(s, projectId, hwSetName, qty, userId, false).state;
    var hw := s.hwSets[hwSetName];
    var held := GetProjectCheckout(s.checkouts, key);
    assert GetProjectCheckout(afterOut.checkouts, key) == held + qty;
    var released := UpdatedAvailability(afterOut.hwSets, hwSetName, qty);
    assert released.table == afterOut.hwSets[hwSetName := hw];
    assert released.table == s.hwSets;
    var recorded := UpdatedProjectCheckout(afterOut.checkouts, key, -qty);
    assert recorded.ok;
    SameTables(recorded.table, s.checkouts, key);
  }

  /** A walk-through: create HWSet1 with capacity 10, check out 5 for
      project123, fail to check out 6,
      check the 5 back in (the record disappears), and fail to check in 1
      more. */
  lemma HWSet1Scenario()
    ensures var s0 := CreateHardwareSetStep(State(map[], map[]), "HWSet1", 10).state;
            var out := CheckOutStep(s0, "project123", "HWSet1", 5, "user1", false);
            var tooMany := CheckOutStep(out.state, "project123", "HWSet1", 6, "user1", false);
            var back := CheckInStep(out.state, "project123", "HWSet1", 5, "user1", false);
            var extra := CheckInStep(back.state, "project123", "HWSet1", 1, "user1", false);
            && s0.hwSets["HWSet1"] == HwSet(10, 10)
            && out.resp.status == 200 && out.state.hwSets["HWSet1"].availability == 5
            && out.state.checkouts[CheckoutKey("project123", "HWSet1")] == 5
            && tooMany == Step(Response(400, NotEnoughUnits), out.state)
            && back.resp.status == 200 && back.state.hwSets["HWSet1"].availability == 10
            && back.state.checkouts == map[]
            && extra == Step(Response(400, OverCheckIn), back.state)
  {
  }
}
