/** The parts of the game engine the shop screen consults: the current character,
    the inventory's valuation and catalog, and the event manager's trade-in hook. */
module Engine {
  import opened ShopTypes
  import TradeIn

  class Game {
    /** The player. The source reads the equipped weapon for the game's current character
        and the gold and level for the viewpoint's owner; this model takes them to be the
        same character. */
    const character: Character
    /** The weapon-shop module's trade-in valuation of a weapon (its formula is not part of this model). */
    const baseValue: Weapon -> int
    /** The inventory module's catalog of weapons on sale at a level, in its order. */
    const weaponsForLevel: int -> seq<Weapon>
    /** The listeners of the trade-in hook as they behave at the n-th publication; a
        listener with side effects may behave differently from one publication to the next. */
    const listeners: nat -> seq<TradeIn.Adjuster>
    /** How many times the trade-in hook has been published. */
    var publishCount: nat

    constructor (character: Character, baseValue: Weapon -> int,
                 weaponsForLevel: int -> seq<Weapon>, listeners: nat -> seq<TradeIn.Adjuster>)
      ensures this.character == character && this.baseValue == baseValue
      ensures this.weaponsForLevel == weaponsForLevel && this.listeners == listeners
      ensures publishCount == 0
    {
      this.character := character;
      this.baseValue := baseValue;
      this.weaponsForLevel := weaponsForLevel;
      this.listeners := listeners;
      publishCount := 0;
    }

    /** Listeners without side effects behave the same on every publication. */
    ghost predicate StatelessHooks() {
      forall k: nat :: listeners(k) == listeners(0)
    }

    /** The trade-in value a valuation computes when the hook has been published n times before. */
    function ValueAt(n: nat): int {
      TradeIn.Value(character.equipped, baseValue, listeners(n))
    }

    /** How many publications one valuation makes: the hook runs only for an equipped weapon. */
    function PublicationsPerValuation(): nat {
      if character.equipped.Some? then 1 else 0
    }

    /** Publishes the trade-in hook with a weapon and a starting value; returns the value
        the listeners left in the context. */
    method PublishTradeIn(w: Weapon, value: int) returns (r: int)
      modifies this`publishCount
      ensures r == TradeIn.Publish(listeners(old(publishCount)), w, value)
      ensures publishCount == old(publishCount) + 1
    {
      r := TradeIn.Publish(listeners(publishCount), w, value);
      publishCount := publishCount + 1;
    }
  }
}
