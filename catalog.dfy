/** The purchase choices: one button per weapon of the level catalog, disabled when the
    player cannot afford it after the trade-in credit or already holds it. */
module Catalog {
  import opened ShopTypes

  /** A weapon can be bought when its price less the trade-in credit is within the
      player's gold and it is not the equipped weapon; with nothing equipped no weapon
      counts as held. */
  predicate Purchasable(w: Weapon, tradeIn: int, gold: int, equipped: Option<Weapon>) {
    w.cost - tradeIn <= gold && (equipped.None? || w.id != equipped.value.id)
  }

  /** The button for one weapon. */
  function Choice(w: Weapon, tradeIn: int, gold: int, equipped: Option<Weapon>): FormElement {
    FormElement(ChoiceParameter, Button, w.name, w.id,
                if Purchasable(w, tradeIn, gold, equipped) then NoOptions else Disabled)
  }

  /** The choice list for a catalog, element by element in catalog order. */
  function Choices(weapons: seq<Weapon>, tradeIn: int, gold: int, equipped: Option<Weapon>): (r: seq<FormElement>)
    ensures |r| == |weapons|
    ensures forall i :: 0 <= i < |weapons| ==> r[i] == Choice(weapons[i], tradeIn, gold, equipped)
    decreases |weapons|
  {
    if weapons == [] then []
    else [Choice(weapons[0], tradeIn, gold, equipped)] + Choices(weapons[1..], tradeIn, gold, equipped)
  }

  /** The loop that builds the choice list by appending one button per catalog weapon. */
  method BuildChoices(weapons: seq<Weapon>, tradeIn: int, gold: int, equipped: Option<Weapon>)
    returns (elements: seq<FormElement>)
    ensures elements == Choices(weapons, tradeIn, gold, equipped)
    ensures |elements| == |weapons|
    ensures forall i :: 0 <= i < |weapons| ==>
              && elements[i].parameter == ChoiceParameter
              && elements[i].kind == Button
              && elements[i].caption == weapons[i].name
              && elements[i].value == weapons[i].id
              && (elements[i].options == NoOptions <==>
                    weapons[i].cost - tradeIn <= gold
                    && (equipped.None? || weapons[i].id != equipped.value.id))
              && (elements[i].options == Disabled <==>
                    weapons[i].cost - tradeIn > gold
                    || (equipped.Some? && weapons[i].id == equipped.value.id))
  {
    elements := [];
    var i := 0;
    while i < |weapons|
      invariant 0 <= i <= |weapons|
      invariant |elements| == i
      invariant forall k :: 0 <= k < i ==> elements[k] == Choice(weapons[k], tradeIn, gold, equipped)
    {
      var w := weapons[i];
      var options := if w.cost - tradeIn <= gold && (equipped.None? || w.id != equipped.value.id)
                     then NoOptions else Disabled;
      elements := elements + [FormElement(ChoiceParameter, Button, w.name, w.id, options)];
      i := i + 1;
    }
  }

  /** The choice list as the code is written. The exclusion test calls a method on the
      equipped weapon, but only after the price test holds (the conjunction short-circuits),
      so with nothing equipped the loop fails at the first affordable weapon. */
  function ChoicesAsWritten(weapons: seq<Weapon>, tradeIn: int, gold: int, equipped: Option<Weapon>)
    : (r: Result<seq<FormElement>>)
    ensures r.Err? <==> equipped.None? && exists i :: 0 <= i < |weapons| && weapons[i].cost - tradeIn <= gold
    ensures r.Err? ==> r.error == NullWeapon
    ensures r.Ok? ==> r.value == Choices(weapons, tradeIn, gold, equipped)
    decreases |weapons|
  {
    if weapons == [] then Ok([])
    else if weapons[0].cost - tradeIn <= gold && equipped.None? then Err(NullWeapon)
    else match ChoicesAsWritten(weapons[1..], tradeIn, gold, equipped)
      case Err(e) => Err(e)
      case Ok(rest) =>
        assert [weapons[0]] + weapons[1..] == weapons;
        Ok([Choice(weapons[0], tradeIn, gold, equipped)] + rest)
  }

  /** With nothing equipped, the intended list enables exactly the affordable weapons,
      where the code as written fails as soon as the catalog holds an affordable weapon. */
  lemma NothingEquippedEnablesAffordable(weapons: seq<Weapon>, tradeIn: int, gold: int, k: int)
    requires 0 <= k < |weapons| && weapons[k].cost - tradeIn <= gold
    ensures ChoicesAsWritten(weapons, tradeIn, gold, None) == Err(NullWeapon)
    ensures forall i :: 0 <= i < |weapons| ==>
              (Choices(weapons, tradeIn, gold, None)[i].options == NoOptions <==> weapons[i].cost - tradeIn <= gold)
  {
  }

  /** With nothing equipped and nothing affordable, the code as written does not fail:
      it renders every weapon disabled, as the intended list does. */
  lemma NothingAffordableRendersDisabled(weapons: seq<Weapon>, tradeIn: int, gold: int)
    requires forall i :: 0 <= i < |weapons| ==> weapons[i].cost - tradeIn > gold
    ensures ChoicesAsWritten(weapons, tradeIn, gold, None) == Ok(Choices(weapons, tradeIn, gold, None))
    ensures forall i :: 0 <= i < |weapons| ==> Choices(weapons, tradeIn, gold, None)[i].options == Disabled
  {
  }

  /** More gold or a larger trade-in credit never disables a weapon that was enabled. */
  lemma EnabledIsMonotone(weapons: seq<Weapon>, tradeIn: int, gold: int,
                         tradeIn': int, gold': int, equipped: Option<Weapon>, i: int)
    requires tradeIn <= tradeIn' && gold <= gold'
    requires 0 <= i < |weapons|
    requires Choices(weapons, tradeIn, gold, equipped)[i].options == NoOptions
    ensures Choices(weapons, tradeIn', gold', equipped)[i].options == NoOptions
  {
  }

  /** A level-5 player with 100 gold whose equipped weapon (id 3) trades in for 20:
      weapon 1 (cost 50) is enabled, weapon 2 (cost 150) is too dear, weapon 3 is held. */
  lemma WorkedExample()
    ensures var held := Weapon(3, "Club", 20);
            var catalog := [Weapon(1, "Sword", 50), Weapon(2, "Axe", 150), held];
            Choices(catalog, 20, 100, Some(held))
              == [FormElement(ChoiceParameter, Button, "Sword", 1, NoOptions),
                  FormElement(ChoiceParameter, Button, "Axe", 2, Disabled),
                  FormElement(ChoiceParameter, Button, "Club", 3, Disabled)]
  {
  }
}
