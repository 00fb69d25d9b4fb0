/**
 * Item stacks of a profile inventory and the value-level meaning of the
 * inventory operations (add, remove, reserve, release, consume).
 *
 * Both profile files carry the same stack code (src/models/parts/InventoryPart.js
 * and models/UserProfile.js); the methods of both are proved equal to the
 * functions here, and the escrow laws are proved about these functions.
 * Quantities are JavaScript numbers that the code only ever adds or subtracts
 * whole amounts to, modelled as `int`.
 */
module Stacks {

  import Util

  /** One inventory entry: `{ itemId, quantity, reservedQuantity }`. */
  datatype Stack = Stack(itemId: string, quantity: int, reservedQuantity: int)

  /** `inventory.findIndex(item => item.itemId === id)`: the first matching index, or -1. */
  function IndexOf(inv: seq<Stack>, id: string): (r: int)
    ensures -1 <= r < |inv|
    ensures r >= 0 ==> inv[r].itemId == id && forall j :: 0 <= j < r ==> inv[j].itemId != id
    ensures r == -1 <==> forall j :: 0 <= j < |inv| ==> inv[j].itemId != id
  {
    if inv == [] then -1
    else if inv[0].itemId == id then 0
    else
      var k := IndexOf(inv[1..], id);
      assert forall j :: 1 <= j < |inv| ==> inv[j] == inv[1..][j - 1];
      if k < 0 then -1 else k + 1
  }

  /** The stack `inventory.find(...)` returns, if any. */
  function Lookup(inv: seq<Stack>, id: string): (r: Util.Option<Stack>)
    ensures r.Some? <==> exists j :: 0 <= j < |inv| && inv[j].itemId == id
    ensures r.Some? ==> r.value.itemId == id && r.value in inv
    ensures r.Some? ==> exists j :: 0 <= j < |inv| && inv[j] == r.value
                                    && forall k :: 0 <= k < j ==> inv[k].itemId != id
  {
    var i := IndexOf(inv, id);
    if i < 0 then Util.None else Util.Some(inv[i])
  }

  /** `countItem`: the available quantity of the first stack, 0 when there is none. */
  function Count(inv: seq<Stack>, id: string): int {
    var i := IndexOf(inv, id);
    if i < 0 then 0 else inv[i].quantity
  }

  /** `hasItem`: the first stack exists and holds at least `n` available. */
  predicate Has(inv: seq<Stack>, id: string, n: int) {
    var i := IndexOf(inv, id);
    i >= 0 && inv[i].quantity >= n
  }

  /** Available plus reserved quantity of the first stack (0 when absent). */
  function Total(inv: seq<Stack>, id: string): int {
    var i := IndexOf(inv, id);
    if i < 0 then 0 else inv[i].quantity + inv[i].reservedQuantity
  }

  /** The reserved quantity of the first stack (0 when absent). */
  function Reserved(inv: seq<Stack>, id: string): int {
    var i := IndexOf(inv, id);
    if i < 0 then 0 else inv[i].reservedQuantity
  }

  /** No stack has a negative available or reserved quantity. */
  predicate NonNegative(inv: seq<Stack>) {
    forall j :: 0 <= j < |inv| ==> inv[j].quantity >= 0 && inv[j].reservedQuantity >= 0
  }

  /** No two stacks share an itemId. */
  predicate UniqueIds(inv: seq<Stack>) {
    forall j, k :: 0 <= j < k < |inv| ==> inv[j].itemId != inv[k].itemId
  }

  /** The stacks of all other items, in order. */
  function Others(inv: seq<Stack>, id: string): seq<Stack> {
    if inv == [] then []
    else (if inv[0].itemId != id then [inv[0]] else []) + Others(inv[1..], id)
  }

  // ----- guards -------------------------------------------------------------

  /** `amount > 0` and the first stack has at least `amount` available. */
  predicate AvailableAtLeast(inv: seq<Stack>, id: string, amount: int) {
    amount > 0 && Has(inv, id, amount)
  }

  /** `amount > 0` and the first stack has at least `amount` reserved. */
  predicate ReservedAtLeast(inv: seq<Stack>, id: string, amount: int) {
    var i := IndexOf(inv, id);
    amount > 0 && i >= 0 && inv[i].reservedQuantity >= amount
  }

  // ----- effects of the successful operations ------------------------------

  /** Drop entry `i` when both of its quantities are 0 (`splice(i, 1)`). */
  function Prune(inv: seq<Stack>, i: nat): (r: seq<Stack>)
    requires i < |inv|
    ensures inv[i].quantity == 0 && inv[i].reservedQuantity == 0 ==> r == inv[..i] + inv[i + 1..]
    ensures !(inv[i].quantity == 0 && inv[i].reservedQuantity == 0) ==> r == inv
  {
    if inv[i].quantity == 0 && inv[i].reservedQuantity == 0 then inv[..i] + inv[i + 1..] else inv
  }

  /** addItemToInventory: merge into the first stack, or append a fresh one. */
  function Deposit(inv: seq<Stack>, id: string, amount: int): (r: seq<Stack>)
    ensures Others(r, id) == Others(inv, id)
  {
    var i := IndexOf(inv, id);
    if i >= 0 then
      UpdatePreservesOthers(inv, i, inv[i].(quantity := inv[i].quantity + amount), id);
      inv[i := inv[i].(quantity := inv[i].quantity + amount)]
    else
      OthersAppend(inv, [Stack(id, amount, 0)], id);
      inv + [Stack(id, amount, 0)]
  }

  /** removeItemFromInventory: lower the available quantity, prune an empty stack. */
  function Withdraw(inv: seq<Stack>, id: string, amount: int): (r: seq<Stack>)
    requires AvailableAtLeast(inv, id, amount)
    ensures Others(r, id) == Others(inv, id)
  {
    var i := IndexOf(inv, id);
    var u := inv[i := inv[i].(quantity := inv[i].quantity - amount)];
    UpdatePreservesOthers(inv, i, u[i], id);
    PrunePreservesOthers(u, i, id);
    Prune(u, i)
  }

  /** reserveItem: move `amount` from available to reserved. */
  function Reserve(inv: seq<Stack>, id: string, amount: int): (r: seq<Stack>)
    requires AvailableAtLeast(inv, id, amount)
    ensures Others(r, id) == Others(inv, id)
    ensures Total(r, id) == Total(inv, id)
    ensures Count(r, id) == Count(inv, id) - amount
    ensures Reserved(r, id) == Reserved(inv, id) + amount
  {
    var i := IndexOf(inv, id);
    var s := inv[i].(quantity := inv[i].quantity - amount, reservedQuantity := inv[i].reservedQuantity + amount);
    UpdatePreservesOthers(inv, i, s, id);
    IndexAfterUpdate(inv, i, s, id);
    inv[i := s]
  }

  /** releaseReservedItem: move `amount` from reserved back to available. */
  function Release(inv: seq<Stack>, id: string, amount: int): (r: seq<Stack>)
    requires ReservedAtLeast(inv, id, amount)
    ensures Others(r, id) == Others(inv, id)
    ensures Total(r, id) == Total(inv, id)
    ensures Count(r, id) == Count(inv, id) + amount
    ensures Reserved(r, id) == Reserved(inv, id) - amount
  {
    var i := IndexOf(inv, id);
    var s := inv[i].(quantity := inv[i].quantity + amount, reservedQuantity := inv[i].reservedQuantity - amount);
    UpdatePreservesOthers(inv, i, s, id);
    IndexAfterUpdate(inv, i, s, id);
    inv[i := s]
  }

  /** consumeReservedItem: drop `amount` from reserved for good, prune an empty stack. */
  function Consume(inv: seq<Stack>, id: string, amount: int): (r: seq<Stack>)
    requires ReservedAtLeast(inv, id, amount)
    ensures Others(r, id) == Others(inv, id)
  {
    var i := IndexOf(inv, id);
    var u := inv[i := inv[i].(reservedQuantity := inv[i].reservedQuantity - amount)];
    UpdatePreservesOthers(inv, i, u[i], id);
    PrunePreservesOthers(u, i, id);
    Prune(u, i)
  }

  // ----- helper lemmas --------------------------------------------------------

  lemma {:induction false} OthersAppend(a: seq<Stack>, b: seq<Stack>, id: string)
    ensures Others(a + b, id) == Others(a, id) + Others(b, id)
  {
    if a == [] {
      assert a + b == b;
    } else {
      assert (a + b)[1..] == a[1..] + b;
      OthersAppend(a[1..], b, id);
    }
  }

  lemma OthersSingle(s: Stack, id: string)
    ensures s.itemId == id ==> Others([s], id) == []
    ensures s.itemId != id ==> Others([s], id) == [s]
  {
    assert [s][1..] == [];
  }

  lemma UpdatePreservesOthers(inv: seq<Stack>, i: nat, s: Stack, id: string)
    requires i < |inv| && inv[i].itemId == id && s.itemId == id
    ensures Others(inv[i := s], id) == Others(inv, id)
  {
    assert inv == inv[..i] + [inv[i]] + inv[i + 1..];
    assert inv[i := s] == inv[..i] + [s] + inv[i + 1..];
    OthersAppend(inv[..i] + [inv[i]], inv[i + 1..], id);
    OthersAppend(inv[..i], [inv[i]], id);
    OthersAppend(inv[..i] + [s], inv[i + 1..], id);
    OthersAppend(inv[..i], [s], id);
    OthersSingle(s, id);
    OthersSingle(inv[i], id);
  }

  lemma PrunePreservesOthers(inv: seq<Stack>, i: nat, id: string)
    requires i < |inv| && inv[i].itemId == id
    ensures Others(Prune(inv, i), id) == Others(inv, id)
  {
    if Prune(inv, i) != inv {
      var a, b := inv[..i], inv[i + 1..];
      assert inv == a + [inv[i]] + b;
      OthersAppend(a + [inv[i]], b, id);
      OthersAppend(a, [inv[i]], id);
      OthersAppend(a, b, id);
      OthersSingle(inv[i], id);
      assert Others(a + [inv[i]], id) == Others(a, id);
    }
  }

  /** Replacing the first stack of `id` by another stack of `id` keeps it first. */
  lemma IndexAfterUpdate(inv: seq<Stack>, i: nat, s: Stack, id: string)
    requires i < |inv| && i == IndexOf(inv, id) && s.itemId == id
    ensures IndexOf(inv[i := s], id) == i
  {
    var r := IndexOf(inv[i := s], id);
    assert inv[i := s][i].itemId == id;
  }

  /** Under unique ids, the pruned entry was the only one for `id`. */
  lemma IndexAfterPrune(inv: seq<Stack>, i: nat, id: string)
    requires UniqueIds(inv) && i < |inv| && inv[i].itemId == id
    ensures IndexOf(inv[..i] + inv[i + 1..], id) == -1
  {
    var r := inv[..i] + inv[i + 1..];
    forall j | 0 <= j < |r| ensures r[j].itemId != id {
      if j < i { assert r[j] == inv[j]; } else { assert r[j] == inv[j + 1]; }
    }
  }

  // ----- laws -----------------------------------------------------------------

  /** The shape every inventory has when it has only been changed by these operations. */
  predicate Tidy(inv: seq<Stack>) {
    NonNegative(inv) && UniqueIds(inv)
    && forall j :: 0 <= j < |inv| ==> inv[j].quantity + inv[j].reservedQuantity > 0
  }

  /** `find` on a non-empty inventory: its head, or the find in the tail. */
  lemma LookupCons(inv: seq<Stack>, x: string)
    requires inv != []
    ensures Lookup(inv, x) == if inv[0].itemId == x then Util.Some(inv[0]) else Lookup(inv[1..], x)
  {
  }

  /** Another item's entry is found in the same place among the other items' stacks. */
  lemma {:induction false} LookupViaOthers(inv: seq<Stack>, id: string, other: string)
    requires other != id
    ensures Lookup(inv, other) == Lookup(Others(inv, id), other)
  {
    if inv != [] {
      LookupViaOthers(inv[1..], id, other);
      LookupCons(inv, other);
      var o := Others(inv, id);
      if inv[0].itemId != id {
        assert o == [inv[0]] + Others(inv[1..], id);
        assert o[0] == inv[0] && o[1..] == Others(inv[1..], id);
        LookupCons(o, other);
      } else {
        assert o == Others(inv[1..], id);
      }
    }
  }

  /** Every operation leaves the stacks of all other items exactly as they were. */
  lemma OtherItemsUnchanged(inv: seq<Stack>, id: string, amount: int, other: string)
    requires other != id
    ensures Lookup(Deposit(inv, id, amount), other) == Lookup(inv, other)
    ensures AvailableAtLeast(inv, id, amount) ==>
      Lookup(Withdraw(inv, id, amount), other) == Lookup(inv, other) &&
      Lookup(Reserve(inv, id, amount), other) == Lookup(inv, other)
    ensures ReservedAtLeast(inv, id, amount) ==>
      Lookup(Release(inv, id, amount), other) == Lookup(inv, other) &&
      Lookup(Consume(inv, id, amount), other) == Lookup(inv, other)
  {
    LookupViaOthers(inv, id, other);
    LookupViaOthers(Deposit(inv, id, amount), id, other);
    if AvailableAtLeast(inv, id, amount) {
      LookupViaOthers(Withdraw(inv, id, amount), id, other);
      LookupViaOthers(Reserve(inv, id, amount), id, other);
    }
    if ReservedAtLeast(inv, id, amount) {
      LookupViaOthers(Release(inv, id, amount), id, other);
      LookupViaOthers(Consume(inv, id, amount), id, other);
    }
  }

  /** Adding always raises the count by the amount added. */
  lemma CountAfterDeposit(inv: seq<Stack>, id: string, amount: int)
    ensures Count(Deposit(inv, id, amount), id) == Count(inv, id) + amount
    ensures Reserved(Deposit(inv, id, amount), id) == Reserved(inv, id)
  {
    var i := IndexOf(inv, id);
    if i >= 0 {
      IndexAfterUpdate(inv, i, inv[i].(quantity := inv[i].quantity + amount), id);
    } else {
      var r := inv + [Stack(id, amount, 0)];
      assert r[|inv|].itemId == id;
      assert forall j :: 0 <= j < |inv| ==> r[j] == inv[j];
    }
  }

  /** Removing lowers the count by the amount removed, also when the stack is pruned. */
  lemma CountAfterWithdraw(inv: seq<Stack>, id: string, amount: int)
    requires UniqueIds(inv) && AvailableAtLeast(inv, id, amount)
    ensures Count(Withdraw(inv, id, amount), id) == Count(inv, id) - amount
    ensures Reserved(Withdraw(inv, id, amount), id) == Reserved(inv, id)
  {
    var i := IndexOf(inv, id);
    var u := inv[i := inv[i].(quantity := inv[i].quantity - amount)];
    assert UniqueIds(u) by {
      forall j, k | 0 <= j < k < |u| ensures u[j].itemId != u[k].itemId {
        assert u[j].itemId == inv[j].itemId && u[k].itemId == inv[k].itemId;
      }
    }
    if Prune(u, i) == u {
      IndexAfterUpdate(inv, i, u[i], id);
    } else {
      IndexAfterPrune(u, i, id);
    }
  }

  /** Consuming lowers the reserved quantity by the amount consumed and keeps the available one. */
  lemma CountAfterConsume(inv: seq<Stack>, id: string, amount: int)
    requires UniqueIds(inv) && ReservedAtLeast(inv, id, amount)
    ensures Count(Consume(inv, id, amount), id) == Count(inv, id)
    ensures Reserved(Consume(inv, id, amount), id) == Reserved(inv, id) - amount
  {
    var i := IndexOf(inv, id);
    var u := inv[i := inv[i].(reservedQuantity := inv[i].reservedQuantity - amount)];
    assert UniqueIds(u) by {
      forall j, k | 0 <= j < k < |u| ensures u[j].itemId != u[k].itemId {
        assert u[j].itemId == inv[j].itemId && u[k].itemId == inv[k].itemId;
      }
    }
    if Prune(u, i) == u {
      IndexAfterUpdate(inv, i, u[i], id);
    } else {
      IndexAfterPrune(u, i, id);
    }
  }

  /** With unique ids, `hasItem` is the same as "some stack of the item holds enough". */
  lemma HasIffSomeStack(inv: seq<Stack>, id: string, n: int)
    requires UniqueIds(inv)
    ensures Has(inv, id, n) <==> exists j :: 0 <= j < |inv| && inv[j].itemId == id && inv[j].quantity >= n
  {
    if exists j :: 0 <= j < |inv| && inv[j].itemId == id && inv[j].quantity >= n {
      var j :| 0 <= j < |inv| && inv[j].itemId == id && inv[j].quantity >= n;
      assert IndexOf(inv, id) == j;
    }
  }

  /** Releasing what was just reserved gives back the original inventory. */
  lemma ReleaseUndoesReserve(inv: seq<Stack>, id: string, amount: int)
    requires NonNegative(inv) && AvailableAtLeast(inv, id, amount)
    ensures ReservedAtLeast(Reserve(inv, id, amount), id, amount)
    ensures Release(Reserve(inv, id, amount), id, amount) == inv
  {
    var i := IndexOf(inv, id);
    var s := inv[i].(quantity := inv[i].quantity - amount, reservedQuantity := inv[i].reservedQuantity + amount);
    ReserveAt(inv, id, amount, i);
    var r := inv[i := s];
    IndexAfterUpdate(inv, i, s, id);
    ReleaseAt(r, id, amount, i);
    assert r[i := inv[i]] == inv;
  }

  /** Where `reserveItem` writes. */
  lemma ReserveAt(inv: seq<Stack>, id: string, amount: int, i: nat)
    requires NonNegative(inv) && AvailableAtLeast(inv, id, amount) && IndexOf(inv, id) == i
    ensures Reserve(inv, id, amount) ==
            inv[i := inv[i].(quantity := inv[i].quantity - amount, reservedQuantity := inv[i].reservedQuantity + amount)]
    ensures inv[i].reservedQuantity + amount >= amount
  {
  }

  /** Where `removeItemFromInventory` writes. */
  lemma WithdrawAt(inv: seq<Stack>, id: string, amount: int, i: nat)
    requires AvailableAtLeast(inv, id, amount) && IndexOf(inv, id) == i
    ensures i < |inv|
    ensures Withdraw(inv, id, amount) == Prune(inv[i := inv[i].(quantity := inv[i].quantity - amount)], i)
  {
  }

  /** Where `consumeReservedItem` writes. */
  lemma ConsumeAt(inv: seq<Stack>, id: string, amount: int, i: nat)
    requires ReservedAtLeast(inv, id, amount) && IndexOf(inv, id) == i
    ensures i < |inv|
    ensures Consume(inv, id, amount) ==
            Prune(inv[i := inv[i].(reservedQuantity := inv[i].reservedQuantity - amount)], i)
  {
  }

  /** Where `releaseReservedItem` writes. */
  lemma ReleaseAt(inv: seq<Stack>, id: string, amount: int, i: nat)
    requires i < |inv| && IndexOf(inv, id) == i && amount > 0 && inv[i].reservedQuantity >= amount
    ensures ReservedAtLeast(inv, id, amount)
    ensures Release(inv, id, amount) ==
            inv[i := inv[i].(quantity := inv[i].quantity + amount, reservedQuantity := inv[i].reservedQuantity - amount)]
  {
  }

  /** Reserving and then consuming has the same effect as removing directly. */
  lemma ConsumeAfterReserveIsWithdraw(inv: seq<Stack>, id: string, amount: int)
    requires NonNegative(inv) && AvailableAtLeast(inv, id, amount)
    ensures ReservedAtLeast(Reserve(inv, id, amount), id, amount)
    ensures Consume(Reserve(inv, id, amount), id, amount) == Withdraw(inv, id, amount)
  {
    var i := IndexOf(inv, id);
    var s := inv[i].(quantity := inv[i].quantity - amount, reservedQuantity := inv[i].reservedQuantity + amount);
    var r := inv[i := s];
    assert Reserve(inv, id, amount) == r;
    IndexAfterUpdate(inv, i, s, id);
    assert inv[i].reservedQuantity >= 0;
    assert ReservedAtLeast(r, id, amount);
    var t := inv[i].(quantity := inv[i].quantity - amount);
    assert s.(reservedQuantity := s.reservedQuantity - amount) == t;
    assert r[i := t] == inv[i := t];
    assert Consume(r, id, amount) == Prune(inv[i := t], i);
    assert Withdraw(inv, id, amount) == Prune(inv[i := t], i);
  }

  /** On a tidy inventory, removing what was just added gives back the original inventory. */
  lemma WithdrawUndoesDeposit(inv: seq<Stack>, id: string, amount: int)
    requires Tidy(inv) && amount > 0
    ensures AvailableAtLeast(Deposit(inv, id, amount), id, amount)
    ensures Withdraw(Deposit(inv, id, amount), id, amount) == inv
  {
    CountAfterDeposit(inv, id, amount);
    var i := IndexOf(inv, id);
    if i >= 0 {
      assert inv[i].quantity + inv[i].reservedQuantity > 0;
      WithdrawAfterMerge(inv, id, amount, i);
    } else {
      WithdrawAfterAppend(inv, id, amount);
    }
  }

  /** The merge case: the stack gets its old quantity back and, not being empty, stays. */
  lemma WithdrawAfterMerge(inv: seq<Stack>, id: string, amount: int, i: nat)
    requires i < |inv| && IndexOf(inv, id) == i
    requires inv[i].quantity + inv[i].reservedQuantity > 0
    requires AvailableAtLeast(Deposit(inv, id, amount), id, amount)
    ensures Withdraw(Deposit(inv, id, amount), id, amount) == inv
  {
    var s := inv[i].(quantity := inv[i].quantity + amount);
    var d := inv[i := s];
    assert Deposit(inv, id, amount) == d;
    IndexAfterUpdate(inv, i, s, id);
    assert d[i].(quantity := d[i].quantity - amount) == inv[i];
    assert d[i := inv[i]] == inv;
  }

  /** The append case: the new stack is emptied and pruned, leaving the original stacks. */
  lemma WithdrawAfterAppend(inv: seq<Stack>, id: string, amount: int)
    requires amount > 0 && IndexOf(inv, id) < 0
    requires AvailableAtLeast(Deposit(inv, id, amount), id, amount)
    ensures Withdraw(Deposit(inv, id, amount), id, amount) == inv
  {
    var d := inv + [Stack(id, amount, 0)];
    assert Deposit(inv, id, amount) == d;
    assert forall j :: 0 <= j < |inv| ==> d[j] == inv[j];
    assert IndexOf(d, id) == |inv|;
    var u := d[|inv| := Stack(id, 0, 0)];
    assert u[..|inv|] == inv;
    assert Prune(u, |inv|) == inv;
  }

  lemma TidyUpdate(inv: seq<Stack>, i: nat, s: Stack)
    requires Tidy(inv) && i < |inv| && s.itemId == inv[i].itemId
    requires s.quantity >= 0 && s.reservedQuantity >= 0 && s.quantity + s.reservedQuantity > 0
    ensures Tidy(inv[i := s])
  {
    var u := inv[i := s];
    forall j, k | 0 <= j < k < |u| ensures u[j].itemId != u[k].itemId {
      assert u[j].itemId == inv[j].itemId && u[k].itemId == inv[k].itemId;
    }
  }

  lemma TidyPrune(inv: seq<Stack>, i: nat)
    requires i < |inv| && NonNegative(inv) && UniqueIds(inv)
    requires forall j :: 0 <= j < |inv| && j != i ==> inv[j].quantity + inv[j].reservedQuantity > 0
    ensures Tidy(Prune(inv, i))
  {
    var r := Prune(inv, i);
    if r != inv {
      assert forall j :: 0 <= j < |r| ==> r[j] == inv[if j < i then j else j + 1];
      forall j, k | 0 <= j < k < |r| ensures r[j].itemId != r[k].itemId {
        assert r[j] == inv[if j < i then j else j + 1];
        assert r[k] == inv[if k < i then k else k + 1];
      }
    }
  }

  lemma TidyUpdateThenPrune(inv: seq<Stack>, i: nat, s: Stack)
    requires Tidy(inv) && i < |inv| && s.itemId == inv[i].itemId
    requires s.quantity >= 0 && s.reservedQuantity >= 0
    ensures Tidy(Prune(inv[i := s], i))
  {
    var u := inv[i := s];
    forall j, k | 0 <= j < k < |u| ensures u[j].itemId != u[k].itemId {
      assert u[j].itemId == inv[j].itemId && u[k].itemId == inv[k].itemId;
    }
    TidyPrune(u, i);
  }

  /**
   * Every successful operation keeps an inventory tidy: no negative quantity,
   * no duplicate item, no stack left holding nothing.
   */
  lemma OperationsPreserveTidy(inv: seq<Stack>, id: string, amount: int)
    requires Tidy(inv) && amount > 0
    ensures Tidy(Deposit(inv, id, amount))
    ensures AvailableAtLeast(inv, id, amount) ==>
      Tidy(Withdraw(inv, id, amount)) && Tidy(Reserve(inv, id, amount))
    ensures ReservedAtLeast(inv, id, amount) ==>
      Tidy(Release(inv, id, amount)) && Tidy(Consume(inv, id, amount))
  {
    DepositPreservesTidy(inv, id, amount);
    if AvailableAtLeast(inv, id, amount) {
      WithdrawPreservesTidy(inv, id, amount);
      ReservePreservesTidy(inv, id, amount);
    }
    if ReservedAtLeast(inv, id, amount) {
      ReleasePreservesTidy(inv, id, amount);
      ConsumePreservesTidy(inv, id, amount);
    }
  }

  lemma WithdrawPreservesTidy(inv: seq<Stack>, id: string, amount: int)
    requires Tidy(inv) && AvailableAtLeast(inv, id, amount)
    ensures Tidy(Withdraw(inv, id, amount))
  {
    var i := IndexOf(inv, id);
    TidyUpdateThenPrune(inv, i, inv[i].(quantity := inv[i].quantity - amount));
  }

  lemma ReservePreservesTidy(inv: seq<Stack>, id: string, amount: int)
    requires Tidy(inv) && AvailableAtLeast(inv, id, amount)
    ensures Tidy(Reserve(inv, id, amount))
  {
    var i := IndexOf(inv, id);
    TidyUpdate(inv, i, inv[i].(quantity := inv[i].quantity - amount, reservedQuantity := inv[i].reservedQuantity + amount));
  }

  lemma ReleasePreservesTidy(inv: seq<Stack>, id: string, amount: int)
    requires Tidy(inv) && ReservedAtLeast(inv, id, amount)
    ensures Tidy(Release(inv, id, amount))
  {
    var i := IndexOf(inv, id);
    TidyUpdate(inv, i, inv[i].(quantity := inv[i].quantity + amount, reservedQuantity := inv[i].reservedQuantity - amount));
  }

  lemma ConsumePreservesTidy(inv: seq<Stack>, id: string, amount: int)
    requires Tidy(inv) && ReservedAtLeast(inv, id, amount)
    ensures Tidy(Consume(inv, id, amount))
  {
    var i := IndexOf(inv, id);
    TidyUpdateThenPrune(inv, i, inv[i].(reservedQuantity := inv[i].reservedQuantity - amount));
  }

  lemma DepositPreservesTidy(inv: seq<Stack>, id: string, amount: int)
    requires Tidy(inv) && amount > 0
    ensures Tidy(Deposit(inv, id, amount))
  {
    var i := IndexOf(inv, id);
    if i >= 0 {
      TidyUpdate(inv, i, inv[i].(quantity := inv[i].quantity + amount));
    } else {
      var r := inv + [Stack(id, amount, 0)];
      assert forall j :: 0 <= j < |inv| ==> r[j] == inv[j];
      forall j, k | 0 <= j < k < |r| ensures r[j].itemId != r[k].itemId {
        if k == |inv| { assert r[j] == inv[j]; }
      }
    }
  }
}
