/**
 * The inventory methods a profile carries (src/models/parts/InventoryPart.js;
 * the legacy models/UserProfile.js has the same bodies). Each method changes
 * only the inventory, and its new inventory is the matching function of
 * `Stacks`, where the escrow laws are proved.
 */
module InventoryPart {

  import Stacks
  import opened Profile

  /** `countItem`: the available quantity of the first stack of the item, 0 without one. */
  function CountItem(p: UserProfile, itemId: string): (n: int)
    reads p
    ensures (forall j :: 0 <= j < |p.inventory| ==> p.inventory[j].itemId != itemId) ==> n == 0
    ensures forall j ::
              (0 <= j < |p.inventory| && p.inventory[j].itemId == itemId
               && forall k :: 0 <= k < j ==> p.inventory[k].itemId != itemId)
              ==> n == p.inventory[j].quantity
  {
    Stacks.Count(p.inventory, itemId)
  }

  /** `hasItem(itemId, quantity = 1)`: the first stack exists and has at least `quantity` available. */
  predicate HasItem(p: UserProfile, itemId: string, quantity: int)
    reads p
    ensures HasItem(p, itemId, quantity) ==> CountItem(p, itemId) >= quantity
    ensures quantity > 0 && CountItem(p, itemId) >= quantity ==> HasItem(p, itemId, quantity)
  {
    Stacks.Has(p.inventory, itemId, quantity)
  }

  /** `addItemToInventory`: rejects a non-positive quantity, otherwise merges or appends. */
  method AddItemToInventory(p: UserProfile, itemId: string, quantity: int) returns (ok: bool)
    modifies p`inventory
    ensures ok <==> quantity > 0
    ensures p.inventory == if ok then Stacks.Deposit(old(p.inventory), itemId, quantity) else old(p.inventory)
  {
    if quantity <= 0 {
      return false;
    }
    var itemIndex := Stacks.IndexOf(p.inventory, itemId);
    if itemIndex > -1 {
      p.inventory := p.inventory[itemIndex := p.inventory[itemIndex].(quantity := p.inventory[itemIndex].quantity + quantity)];
    } else {
      p.inventory := p.inventory + [Stacks.Stack(itemId, quantity, 0)];
    }
    return true;
  }

  /** `removeItemFromInventory`: needs the quantity available; prunes a stack left empty. */
  method RemoveItemFromInventory(p: UserProfile, itemId: string, quantity: int) returns (ok: bool)
    modifies p`inventory
    ensures ok <==> Stacks.AvailableAtLeast(old(p.inventory), itemId, quantity)
    ensures p.inventory == if ok then Stacks.Withdraw(old(p.inventory), itemId, quantity) else old(p.inventory)
  {
    if quantity <= 0 {
      return false;
    }
    var itemIndex := Stacks.IndexOf(p.inventory, itemId);
    if itemIndex > -1 {
      var s := p.inventory[itemIndex];
      if s.quantity >= quantity {
        var u := p.inventory[itemIndex := s.(quantity := s.quantity - quantity)];
        Stacks.WithdrawAt(p.inventory, itemId, quantity, itemIndex);
        if u[itemIndex].quantity == 0 && u[itemIndex].reservedQuantity == 0 {
          p.inventory := u[..itemIndex] + u[itemIndex + 1..];
        } else {
          p.inventory := u;
        }
        return true;
      }
    }
    return false;
  }

  /** `reserveItem`: moves the quantity from available to reserved. */
  method ReserveItem(p: UserProfile, itemId: string, quantityToReserve: int) returns (ok: bool)
    modifies p`inventory
    ensures ok <==> Stacks.AvailableAtLeast(old(p.inventory), itemId, quantityToReserve)
    ensures p.inventory == if ok then Stacks.Reserve(old(p.inventory), itemId, quantityToReserve) else old(p.inventory)
  {
    if quantityToReserve <= 0 {
      return false;
    }
    var itemIndex := Stacks.IndexOf(p.inventory, itemId);
    if itemIndex > -1 {
      var s := p.inventory[itemIndex];
      if s.quantity >= quantityToReserve {
        p.inventory := p.inventory[itemIndex := s.(quantity := s.quantity - quantityToReserve,
                                                  reservedQuantity := s.reservedQuantity + quantityToReserve)];
        return true;
      }
    }
    return false;
  }

  /** `releaseReservedItem`: moves the quantity from reserved back to available. */
  method ReleaseReservedItem(p: UserProfile, itemId: string, quantityToRelease: int) returns (ok: bool)
    modifies p`inventory
    ensures ok <==> Stacks.ReservedAtLeast(old(p.inventory), itemId, quantityToRelease)
    ensures p.inventory == if ok then Stacks.Release(old(p.inventory), itemId, quantityToRelease) else old(p.inventory)
  {
    if quantityToRelease <= 0 {
      return false;
    }
    var itemIndex := Stacks.IndexOf(p.inventory, itemId);
    if itemIndex > -1 {
      var s := p.inventory[itemIndex];
      if s.reservedQuantity >= quantityToRelease {
        p.inventory := p.inventory[itemIndex := s.(reservedQuantity := s.reservedQuantity - quantityToRelease,
                                                  quantity := s.quantity + quantityToRelease)];
        return true;
      }
    }
    return false;
  }

  /** `consumeReservedItem`: removes the quantity from reserved for good; prunes a stack left empty. */
  method ConsumeReservedItem(p: UserProfile, itemId: string, quantityToConsume: int) returns (ok: bool)
    modifies p`inventory
    ensures ok <==> Stacks.ReservedAtLeast(old(p.inventory), itemId, quantityToConsume)
    ensures p.inventory == if ok then Stacks.Consume(old(p.inventory), itemId, quantityToConsume) else old(p.inventory)
  {
    if quantityToConsume <= 0 {
      return false;
    }
    var itemIndex := Stacks.IndexOf(p.inventory, itemId);
    if itemIndex > -1 {
      var s := p.inventory[itemIndex];
      if s.reservedQuantity >= quantityToConsume {
        var u := p.inventory[itemIndex := s.(reservedQuantity := s.reservedQuantity - quantityToConsume)];
        Stacks.ConsumeAt(p.inventory, itemId, quantityToConsume, itemIndex);
        if u[itemIndex].quantity == 0 && u[itemIndex].reservedQuantity == 0 {
          p.inventory := u[..itemIndex] + u[itemIndex + 1..];
        } else {
          p.inventory := u;
        }
        return true;
      }
    }
    return false;
  }
}
