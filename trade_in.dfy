/** Trade-in valuation: a base value for the equipped weapon, adjusted by the
    listeners of the trade-in hook before it is read back. */
module TradeIn {
  import opened ShopTypes

  /** One listener of the trade-in hook: it sees the weapon and the value left in the
      context so far, and leaves a new value there. */
  type Adjuster = (Weapon, int) -> int

  /** Publishing the hook runs the listeners in registration order, each receiving the
      value the previous one left in the context; the result is the final context value. */
  function Publish(listeners: seq<Adjuster>, w: Weapon, value: int): (r: int)
    ensures listeners == [] ==> r == value
    ensures |listeners| == 1 ==> r == listeners[0](w, value)
    decreases |listeners|
  {
    if listeners == [] then value else Publish(listeners[1..], w, listeners[0](w, value))
  }

  /** Publishing to two groups of listeners registered one after the other is publishing to
      the first group and handing its result to the second. */
  lemma {:induction false} PublishSequential(first: seq<Adjuster>, second: seq<Adjuster>, w: Weapon, value: int)
    ensures Publish(first + second, w, value) == Publish(second, w, Publish(first, w, value))
    decreases |first|
  {
    if first == [] {
      assert first + second == second;
    } else {
      assert (first + second)[1..] == first[1..] + second;
      PublishSequential(first[1..], second, w, first[0](w, value));
    }
  }

  /** A listener that leaves the context value alone does not change the outcome. */
  lemma {:induction false} PublishIgnoresPassiveListener(before: seq<Adjuster>, after: seq<Adjuster>, passive: Adjuster, w: Weapon, value: int)
    requires forall v :: passive(w, v) == v
    ensures Publish(before + [passive] + after, w, value) == Publish(before + after, w, value)
  {
    PublishSequential(before + [passive], after, w, value);
    PublishSequential(before, [passive], w, value);
    PublishSequential(before, after, w, value);
  }

  /** The trade-in value of the equipped weapon (intended behaviour): nothing equipped is
      worth 0; otherwise the base valuation, passed through the hook. */
  function Value(equipped: Option<Weapon>, baseValue: Weapon -> int, listeners: seq<Adjuster>): (r: int)
    ensures equipped.None? ==> r == 0
    ensures equipped.Some? && listeners == [] ==> r == baseValue(equipped.value)
  {
    match equipped
    case None => 0
    case Some(w) => Publish(listeners, w, baseValue(w))
  }

  /** The trade-in value as the code is written: without a weapon it reads an undefined
      variable before logging, so the call fails instead of returning 0. */
  function ValueAsWritten(equipped: Option<Weapon>, baseValue: Weapon -> int, listeners: seq<Adjuster>): (r: Result<int>)
    ensures r.Err? <==> equipped.None?
    ensures r.Ok? ==> r.value == Value(equipped, baseValue, listeners)
  {
    match equipped
    case None => Err(UndefinedUser)
    case Some(w) => Ok(Publish(listeners, w, baseValue(w)))
  }

  /** The source as written never yields the intended 0 for a player without a weapon. */
  lemma AsWrittenFailsWithoutWeapon(baseValue: Weapon -> int, listeners: seq<Adjuster>)
    ensures ValueAsWritten(None, baseValue, listeners) == Err(UndefinedUser)
    ensures Value(None, baseValue, listeners) == 0
  {
  }

  /** When the listeners behave the same on every publication, two valuations in one
      request (the displayed one and the applied one) agree. */
  lemma StatelessListenersAgree(equipped: Option<Weapon>, baseValue: Weapon -> int,
                                schedule: nat -> seq<Adjuster>, n: nat, m: nat)
    requires forall k: nat :: schedule(k) == schedule(0)
    ensures Value(equipped, baseValue, schedule(n)) == Value(equipped, baseValue, schedule(m))
  {
    assert schedule(n) == schedule(0) == schedule(m);
  }

  /** A listener whose behaviour changes between publications (here: it adds the number of
      earlier publications) makes the displayed and the applied value differ. */
  lemma StatefulListenerDiverges()
    ensures var w := Weapon(1, "Dagger", 50);
            var base := (x: Weapon) => 10;
            var schedule := (k: nat) => [(x: Weapon, v: int) => v + k];
            Value(Some(w), base, schedule(0)) == 10 && Value(Some(w), base, schedule(1)) == 11
  {
  }
}
