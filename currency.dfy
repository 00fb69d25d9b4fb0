/**
 * Currency escrow on a profile: `reserveCurrency`, `releaseReservedCurrency`
 * and `consumeReservedCurrency` as the current profile
 * (src/models/UserProfile.js) and the legacy profile (models/UserProfile.js)
 * implement them. The currency is named by a string; only 'stars' and
 * 'shards' are accepted. Each method changes at most the pool it names, and
 * that pool becomes the matching `Escrow` move of the old one.
 */
module Currency {

  import Escrow
  import opened Profile

  const STARS := "stars"
  const SHARDS := "shards"

  /** `reserveCurrency(amount, currencyType)` of the current profile. */
  method ReserveCurrency(p: UserProfile, amount: real, currencyType: string) returns (ok: bool)
    modifies p`stars, p`reservedStars, p`shards, p`reservedShards
    ensures ok <==> ((currencyType == STARS && Escrow.CanReserve(old(p.StarPool()), amount))
                 || (currencyType == SHARDS && Escrow.CanReserve(old(p.ShardPool()), amount)))
    ensures p.StarPool() == if ok && currencyType == STARS then Escrow.Reserve(old(p.StarPool()), amount) else old(p.StarPool())
    ensures p.ShardPool() == if ok && currencyType == SHARDS then Escrow.Reserve(old(p.ShardPool()), amount) else old(p.ShardPool())
  {
    if amount <= 0.0 {
      return false;
    }
    if currencyType == STARS {
      if p.stars >= amount {
        p.stars := p.stars - amount;
        p.reservedStars := p.reservedStars + amount;
        return true;
      }
    } else if currencyType == SHARDS {
      if p.shards >= amount {
        p.shards := p.shards - amount;
        p.reservedShards := p.reservedShards + amount;
        return true;
      }
    }
    return false;
  }

  /** `releaseReservedCurrency(amount, currencyType)` of the current profile. */
  method ReleaseReservedCurrency(p: UserProfile, amount: real, currencyType: string) returns (ok: bool)
    modifies p`stars, p`reservedStars, p`shards, p`reservedShards
    ensures ok <==> ((currencyType == STARS && Escrow.CanRelease(old(p.StarPool()), amount))
                 || (currencyType == SHARDS && Escrow.CanRelease(old(p.ShardPool()), amount)))
    ensures p.StarPool() == if ok && currencyType == STARS then Escrow.Release(old(p.StarPool()), amount) else old(p.StarPool())
    ensures p.ShardPool() == if ok && currencyType == SHARDS then Escrow.Release(old(p.ShardPool()), amount) else old(p.ShardPool())
  {
    if amount <= 0.0 {
      return false;
    }
    if currencyType == STARS {
      if p.reservedStars >= amount {
        p.reservedStars := p.reservedStars - amount;
        p.stars := p.stars + amount;
        return true;
      }
    } else if currencyType == SHARDS {
      if p.reservedShards >= amount {
        p.reservedShards := p.reservedShards - amount;
        p.shards := p.shards + amount;
        return true;
      }
    }
    return false;
  }

  /** `consumeReservedCurrency(amount, currencyType)` of the current profile. */
  method ConsumeReservedCurrency(p: UserProfile, amount: real, currencyType: string) returns (ok: bool)
    modifies p`reservedStars, p`reservedShards
    ensures ok <==> ((currencyType == STARS && Escrow.CanRelease(old(p.StarPool()), amount))
                 || (currencyType == SHARDS && Escrow.CanRelease(old(p.ShardPool()), amount)))
    ensures p.StarPool() == if ok && currencyType == STARS then Escrow.Consume(old(p.StarPool()), amount) else old(p.StarPool())
    ensures p.ShardPool() == if ok && currencyType == SHARDS then Escrow.Consume(old(p.ShardPool()), amount) else old(p.ShardPool())
  {
    if amount <= 0.0 {
      return false;
    }
    if currencyType == STARS {
      if p.reservedStars >= amount {
        p.reservedStars := p.reservedStars - amount;
        return true;
      }
    } else if currencyType == SHARDS {
      if p.reservedShards >= amount {
        p.reservedShards := p.reservedShards - amount;
        return true;
      }
    }
    return false;
  }

  /** Legacy `reserveCurrency`: as above, but the star pool is re-rounded to hundredths. */
  method LegacyReserveCurrency(p: UserProfile, amount: real, currencyType: string) returns (ok: bool)
    modifies p`stars, p`reservedStars, p`shards, p`reservedShards
    ensures ok <==> ((currencyType == STARS && Escrow.CanReserve(old(p.StarPool()), amount))
                 || (currencyType == SHARDS && Escrow.CanReserve(old(p.ShardPool()), amount)))
    ensures p.StarPool() == if ok && currencyType == STARS then Escrow.LegacyReserve(old(p.StarPool()), amount) else old(p.StarPool())
    ensures p.ShardPool() == if ok && currencyType == SHARDS then Escrow.Reserve(old(p.ShardPool()), amount) else old(p.ShardPool())
  {
    if amount <= 0.0 {
      return false;
    }
    if currencyType == STARS {
      if p.stars >= amount {
        p.stars := p.stars - amount;
        p.reservedStars := p.reservedStars + amount;
        p.stars := Escrow.Round2(p.stars);
        p.reservedStars := Escrow.Round2(p.reservedStars);
        return true;
      }
    } else if currencyType == SHARDS {
      if p.shards >= amount {
        p.shards := p.shards - amount;
        p.reservedShards := p.reservedShards + amount;
        return true;
      }
    }
    return false;
  }

  /** Legacy `releaseReservedCurrency`: the star pool is re-rounded to hundredths. */
  method LegacyReleaseReservedCurrency(p: UserProfile, amount: real, currencyType: string) returns (ok: bool)
    modifies p`stars, p`reservedStars, p`shards, p`reservedShards
    ensures ok <==> ((currencyType == STARS && Escrow.CanRelease(old(p.StarPool()), amount))
                 || (currencyType == SHARDS && Escrow.CanRelease(old(p.ShardPool()), amount)))
    ensures p.StarPool() == if ok && currencyType == STARS then Escrow.LegacyRelease(old(p.StarPool()), amount) else old(p.StarPool())
    ensures p.ShardPool() == if ok && currencyType == SHARDS then Escrow.Release(old(p.ShardPool()), amount) else old(p.ShardPool())
  {
    if amount <= 0.0 {
      return false;
    }
    if currencyType == STARS {
      if p.reservedStars >= amount {
        p.reservedStars := p.reservedStars - amount;
        p.stars := p.stars + amount;
        p.stars := Escrow.Round2(p.stars);
        p.reservedStars := Escrow.Round2(p.reservedStars);
        return true;
      }
    } else if currencyType == SHARDS {
      if p.reservedShards >= amount {
        p.reservedShards := p.reservedShards - amount;
        p.shards := p.shards + amount;
        return true;
      }
    }
    return false;
  }

  /** Legacy `consumeReservedCurrency`: only the reserved stars are re-rounded. */
  method LegacyConsumeReservedCurrency(p: UserProfile, amount: real, currencyType: string) returns (ok: bool)
    modifies p`reservedStars, p`reservedShards
    ensures ok <==> ((currencyType == STARS && Escrow.CanRelease(old(p.StarPool()), amount))
                 || (currencyType == SHARDS && Escrow.CanRelease(old(p.ShardPool()), amount)))
    ensures p.StarPool() == if ok && currencyType == STARS then Escrow.LegacyConsume(old(p.StarPool()), amount) else old(p.StarPool())
    ensures p.ShardPool() == if ok && currencyType == SHARDS then Escrow.Consume(old(p.ShardPool()), amount) else old(p.ShardPool())
  {
    if amount <= 0.0 {
      return false;
    }
    if currencyType == STARS {
      if p.reservedStars >= amount {
        p.reservedStars := p.reservedStars - amount;
        p.reservedStars := Escrow.Round2(p.reservedStars);
        return true;
      }
    } else if currencyType == SHARDS {
      if p.reservedShards >= amount {
        p.reservedShards := p.reservedShards - amount;
        return true;
      }
    }
    return false;
  }
}
