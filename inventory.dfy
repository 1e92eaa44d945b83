/** The cross-table invariant of the hardware service: for every set, the
    units missing from its availability are exactly the units that the
    projects' checkout records say they hold. */
module Inventory {
  import opened HardwareDatabase

  /** What one checkout record contributes to the holdings of set `hwSetName`. */
  function Share(k: CheckoutKey, q: int, hwSetName: string): int {
    if k.hwSetName == hwSetName then q else 0
  }

  /** The total quantity of set `hwSetName` held across all projects. */
  ghost function Held(c: CheckoutTable, hwSetName: string): int
    decreases |c|
  {
    if c == map[] then 0
    else
      var k :| k in c;
      Share(k, c[k], hwSetName) + Held(c - {k}, hwSetName)
  }

  /** The state invariant: availability within range, no empty records, no
      record for an unknown set, and `capacity - availability` equal to the
      holdings of each set. */
  ghost predicate Consistent(s: State) {
    && InRange(s.hwSets)
    && NoEmptyRecords(s.checkouts)
    && (forall k :: k in s.checkouts ==> k.hwSetName in s.hwSets)
    && (forall n :: n in s.hwSets ==> s.hwSets[n].capacity - s.hwSets[n].availability == Held(s.checkouts, n))
  }

  /** The sum does not depend on which record is taken out first. */
  lemma {:induction false} HeldRemove(c: CheckoutTable, k: CheckoutKey, hwSetName: string)
    requires k in c
    ensures Held(c, hwSetName) == Share(k, c[k], hwSetName) + Held(c - {k}, hwSetName)
    decreases |c|
  {
    var j :| j in c && Held(c, hwSetName) == Share(j, c[j], hwSetName) + Held(c - {j}, hwSetName);
    if j != k {
      var withoutJ, withoutK := c - {j}, c - {k};
      HeldRemove(withoutJ, k, hwSetName);
      HeldRemove(withoutK, j, hwSetName);
      assert withoutJ - {k} == withoutK - {j};
    }
  }

  /** Splitting off one key, whether or not it has a record. */
  lemma HeldSplit(c: CheckoutTable, k: CheckoutKey, hwSetName: string)
    ensures Held(c, hwSetName) == Share(k, GetProjectCheckout(c, k), hwSetName) + Held(c - {k}, hwSetName)
  {
    if k in c {
      HeldRemove(c, k, hwSetName);
    } else {
      assert c - {k} == c;
    }
  }

  /** Without empty records, holdings are never negative. */
  lemma {:induction false} HeldNonNegative(c: CheckoutTable, hwSetName: string)
    requires NoEmptyRecords(c)
    ensures Held(c, hwSetName) >= 0
    decreases |c|
  {
    if c != map[] {
      var k :| k in c;
      HeldRemove(c, k, hwSetName);
      HeldNonNegative(c - {k}, hwSetName);
    }
  }

  /** One project's holding of a set never exceeds the set's total holdings. */
  lemma HeldCoversHolding(c: CheckoutTable, key: CheckoutKey)
    requires NoEmptyRecords(c)
    ensures GetProjectCheckout(c, key) <= Held(c, key.hwSetName)
  {
    HeldSplit(c, key, key.hwSetName);
    HeldNonNegative(c - {key}, key.hwSetName);
  }

  /** A set that no record refers to has no holdings. */
  lemma {:induction false} HeldUnreferenced(c: CheckoutTable, hwSetName: string)
    requires forall k :: k in c ==> k.hwSetName != hwSetName
    ensures Held(c, hwSetName) == 0
    decreases |c|
  {
    if c != map[] {
      var k :| k in c;
      HeldRemove(c, k, hwSetName);
      HeldUnreferenced(c - {k}, hwSetName);
    }
  }

  /** A successful `updateProjectCheckout` of `qty` moves the holdings of the
      record's set by exactly `qty`, and those of every other set not at all. */
  lemma HeldAfterCheckoutUpdate(c: CheckoutTable, key: CheckoutKey, qty: int, hwSetName: string)
    requires UpdatedProjectCheckout(c, key, qty).ok
    ensures Held(UpdatedProjectCheckout(c, key, qty).table, hwSetName) == Held(c, hwSetName) + Share(key, qty, hwSetName)
  {
    var c' := UpdatedProjectCheckout(c, key, qty).table;
    HeldSplit(c, key, hwSetName);
    HeldSplit(c', key, hwSetName);
  }
}
