/** The store layer of the hardware service: the hardware-set table, the
    project-checkout table, and the operations that read and conditionally
    write them (hardware_database.py). Each write is given twice: as a pure
    function on the table, which says what the operation means, and as a
    method of `Database`, which performs it in place and is proved to agree
    with that function. */
module HardwareDatabase {

  /** A hardware-set record: its total capacity and the units currently available. */
  datatype HwSet = HwSet(capacity: int, availability: int)

  /** The composite key of a project-checkout record. */
  datatype CheckoutKey = CheckoutKey(projectId: string, hwSetName: string)

  /** The hardware-set collection, keyed by the unique set name. */
  type HwTable = map<string, HwSet>

  /** The project-checkout collection: how many units of a set a project holds. */
  type CheckoutTable = map<CheckoutKey, int>

  /** Both collections, as the service sees them between two store calls. */
  datatype State = State(hwSets: HwTable, checkouts: CheckoutTable)

  /** The outcome of a conditional write: whether it was applied, and the table afterwards. */
  datatype Update<T> = Update(ok: bool, table: T)

  /** The answer of `queryHardwareSet`: the record, or the message for a missing set. */
  datatype Lookup = Found(hwSet: HwSet) | NotFound(message: string)

  const CreatedMessage := "Hardware set created successfully!"
  const NotFoundMessage := "Hardware set does not exist"

  function AlreadyExistsMessage(hwSetName: string): string {
    hwSetName + " set already exists"
  }

  /** Every set keeps 0 <= availability <= capacity. */
  ghost predicate InRange(t: HwTable) {
    forall n :: n in t ==> 0 <= t[n].availability <= t[n].capacity
  }

  /** A checkout record exists only while its quantity is positive. */
  ghost predicate NoEmptyRecords(c: CheckoutTable) {
    forall k :: k in c ==> c[k] > 0
  }

  /** `createHardwareSet`: a new name gets a set that is entirely available;
      an existing name is refused and nothing is written. */
  function CreatedHwSet(t: HwTable, hwSetName: string, initCapacity: int): (r: Update<HwTable>)
    ensures r.ok <==> hwSetName !in t
    ensures !r.ok ==> r.table == t
    ensures r.ok ==> r.table.Keys == t.Keys + {hwSetName}
    ensures r.ok ==> r.table[hwSetName] == HwSet(initCapacity, initCapacity)
    ensures forall n :: n in t ==> n in r.table && r.table[n] == t[n]
    ensures InRange(t) && initCapacity >= 0 ==> InRange(r.table)
  {
    if hwSetName in t then Update(false, t)
    else Update(true, t[hwSetName := HwSet(initCapacity, initCapacity)])
  }

  /** `queryHardwareSet`: the stored record, or the not-found message. */
  function QueryHardwareSet(t: HwTable, hwSetName: string): (r: Lookup)
    ensures r.Found? <==> hwSetName in t
    ensures r.Found? ==> r.hwSet == t[hwSetName]
    ensures r.NotFound? ==> r.message == NotFoundMessage
  {
    if hwSetName in t then Found(t[hwSetName]) else NotFound(NotFoundMessage)
  }

  /** `updateAvailability`: moves a set's availability by `delta` if the result
      stays within [0, capacity]; otherwise (or for a missing set) writes nothing. */
  function UpdatedAvailability(t: HwTable, hwSetName: string, delta: int): (r: Update<HwTable>)
    ensures r.ok <==> hwSetName in t && 0 <= t[hwSetName].availability + delta <= t[hwSetName].capacity
    ensures !r.ok ==> r.table == t
    ensures r.ok ==> r.table == t[hwSetName := HwSet(t[hwSetName].capacity, t[hwSetName].availability + delta)]
    ensures InRange(t) ==> InRange(r.table)
  {
    if hwSetName !in t then Update(false, t)
    else
      var hw := t[hwSetName];
      var newAvailability := hw.availability + delta;
      if newAvailability < 0 || newAvailability > hw.capacity then Update(false, t)
      else Update(true, t[hwSetName := HwSet(hw.capacity, newAvailability)])
  }

  /** `requestSpace`: a guarded decrement. For a non-negative amount on a
      table in range it is exactly `updateAvailability` by `-amount`. */
  function RequestedSpace(t: HwTable, hwSetName: string, amount: int): (r: Update<HwTable>)
    ensures r.ok <==> hwSetName in t && t[hwSetName].availability >= amount
    ensures !r.ok ==> r.table == t
    ensures r.ok ==> r.table == t[hwSetName := HwSet(t[hwSetName].capacity, t[hwSetName].availability - amount)]
    ensures InRange(t) && amount >= 0 ==> r == UpdatedAvailability(t, hwSetName, -amount)
    ensures InRange(t) && amount >= 0 ==> InRange(r.table)
  {
    if hwSetName !in t then Update(false, t)
    else
      var hw := t[hwSetName];
      if hw.availability >= amount then Update(true, t[hwSetName := HwSet(hw.capacity, hw.availability - amount)])
      else Update(false, t)
  }

  /** `getProjectCheckout`: the quantity a project holds of a set; a missing
      record reads as 0, and on a table without empty records a positive
      answer means exactly that a record exists. */
  function GetProjectCheckout(c: CheckoutTable, key: CheckoutKey): (q: int)
    ensures key in c ==> q == c[key]
    ensures key !in c ==> q == 0
    ensures NoEmptyRecords(c) ==> q >= 0 && (q > 0 <==> key in c)
  {
    if key in c then c[key] else 0
  }

  /** `updateProjectCheckout`: adds `qty` to a project's holding. The write is
      refused when the holding would become negative, or when there is no
      record and `qty` is not positive; a holding that reaches 0 is deleted,
      so the table never gains an empty record. No other record changes. */
  function UpdatedProjectCheckout(c: CheckoutTable, key: CheckoutKey, qty: int): (r: Update<CheckoutTable>)
    ensures r.ok <==> if key in c then c[key] + qty >= 0 else qty > 0
    ensures !r.ok ==> r.table == c
    ensures r.ok ==> GetProjectCheckout(r.table, key) == GetProjectCheckout(c, key) + qty
    ensures r.ok ==> (key in r.table <==> GetProjectCheckout(c, key) + qty > 0)
    ensures r.table - {key} == c - {key}
    ensures NoEmptyRecords(c) ==> NoEmptyRecords(r.table)
  {
    if key in c then
      var newQty := c[key] + qty;
      if newQty < 0 then Update(false, c)
      else if newQty == 0 then Update(true, c - {key})
      else Update(true, c[key := newQty])
    else if qty > 0 then Update(true, c[key := qty])
    else Update(false, c)
  }

  /** The holdings write as the service experiences it: `injectFailure`
      stands for a store-side failure that the service cannot see coming,
      in which case nothing is written. */
  function CheckoutWrite(c: CheckoutTable, key: CheckoutKey, qty: int, injectFailure: bool): (r: Update<CheckoutTable>)
    ensures r.ok ==> !injectFailure
    ensures !r.ok ==> r.table == c
    ensures NoEmptyRecords(c) ==> NoEmptyRecords(r.table)
  {
    if injectFailure then Update(false, c) else UpdatedProjectCheckout(c, key, qty)
  }

  /** The two collections, updated in place by the store operations. */
  class Database {
    var hwSets: HwTable
    var checkouts: CheckoutTable

    constructor ()
      ensures hwSets == map[] && checkouts == map[]
    {
      hwSets := map[];
      checkouts := map[];
    }

    function Snapshot(): State
      reads this
    {
      State(hwSets, checkouts)
    }

    method CreateHardwareSet(hwSetName: string, initCapacity: int) returns (ok: bool, message: string)
      modifies this
      ensures Update(ok, hwSets) == CreatedHwSet(old(hwSets), hwSetName, initCapacity)
      ensures checkouts == old(checkouts)
      ensures message == if ok then CreatedMessage else AlreadyExistsMessage(hwSetName)
    {
      if hwSetName in hwSets {
        return false, AlreadyExistsMessage(hwSetName);
      }
      hwSets := hwSets[hwSetName := HwSet(initCapacity, initCapacity)];
      return true, CreatedMessage;
    }

    method UpdateAvailability(hwSetName: string, delta: int) returns (ok: bool)
      modifies this
      ensures Update(ok, hwSets) == UpdatedAvailability(old(hwSets), hwSetName, delta)
      ensures checkouts == old(checkouts)
    {
      if hwSetName !in hwSets {
        return false;
      }
      var hw := hwSets[hwSetName];
      var newAvailability := hw.availability + delta;
      if newAvailability < 0 || newAvailability > hw.capacity {
        return false;
      }
      hwSets := hwSets[hwSetName := HwSet(hw.capacity, newAvailability)];
      return true;
    }

    method RequestSpace(hwSetName: string, amount: int) returns (ok: bool)
      modifies this
      ensures Update(ok, hwSets) == RequestedSpace(old(hwSets), hwSetName, amount)
      ensures checkouts == old(checkouts)
    {
      if hwSetName !in hwSets {
        return false;
      }
      var hw := hwSets[hwSetName];
      if hw.availability >= amount {
        hwSets := hwSets[hwSetName := HwSet(hw.capacity, hw.availability - amount)];
        return true;
      } else {
        return false;
      }
    }

    /** `getAllHwSetNames`: every stored set name, each exactly once. */
    method GetAllHwSetNames() returns (names: seq<string>)
      ensures forall n :: n in names <==> n in hwSets
      ensures forall i, j :: 0 <= i < j < |names| ==> names[i] != names[j]
      ensures |names| == |hwSets|
    {
      names := [];
      var rest := hwSets.Keys;
      while rest != {}
        invariant rest <= hwSets.Keys
        invariant forall n :: n in names <==> n in hwSets && n !in rest
        invariant forall i, j :: 0 <= i < j < |names| ==> names[i] != names[j]
        invariant |names| + |rest| == |hwSets|
        decreases rest
      {
        var n :| n in rest;
        names := names + [n];
        rest := rest - {n};
      }
    }

    method UpdateProjectCheckout(projectId: string, hwSetName: string, qty: int, injectFailure: bool)
      returns (ok: bool)
      modifies this
      ensures Update(ok, checkouts) == CheckoutWrite(old(checkouts), CheckoutKey(projectId, hwSetName), qty, injectFailure)
      ensures hwSets == old(hwSets)
    {
      if injectFailure {
        return false;
      }
      var key := CheckoutKey(projectId, hwSetName);
      if key in checkouts {
        var newQty := checkouts[key] + qty;
        if newQty < 0 {
          return false;
        }
        if newQty == 0 {
          checkouts := checkouts - {key};
        } else {
          checkouts := checkouts[key := newQty];
        }
      } else {
        if qty > 0 {
          checkouts := checkouts[key := qty];
        } else {
          return false;
        }
      }
      return true;
    }
  }
}
