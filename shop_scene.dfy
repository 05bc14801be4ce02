/** The weapon-shop screen: the steps that populate a viewpoint for one visit to the shop
    scene, in the order the handler runs them. */
module ShopScene {
  import opened ShopTypes
  import Dialogue
  import TradeIn
  import Catalog
  import Navigation
  import opened Viewpoints
  import opened Engine

  /** The choices offered for a given trade-in credit: the catalog for the player's level,
      priced against the player's gold and equipped weapon. */
  function ForSale(g: Game, tradeIn: int): seq<FormElement> {
    Catalog.Choices(g.weaponsForLevel(g.character.level), tradeIn, g.character.gold, g.character.equipped)
  }

  /** The description the message step leaves: with a positive value, the scene's own
      description followed by the merchant's line; otherwise the viewpoint's description as it was. */
  function MessageStep(g: Game, scene: Scene, value: int, current: string): string {
    if value > 0 && g.character.equipped.Some?
    then scene.description + Dialogue.TradeInLine(g.character.equipped.value.name, value)
    else current
  }

  /** Values the equipped weapon. Without a weapon the value is 0 and the hook is not published
      (the source reads an undefined variable on that branch; this is the intended behaviour). */
  method GetTradeInValue(g: Game) returns (value: int)
    modifies g`publishCount
    ensures value == g.ValueAt(old(g.publishCount))
    ensures g.character.equipped.None? ==> value == 0
    ensures g.publishCount == old(g.publishCount) + g.PublicationsPerValuation()
  {
    var weapon := g.character.equipped;
    if weapon.None? {
      value := 0;
    } else {
      value := g.PublishTradeIn(weapon.value, g.baseValue(weapon.value));
    }
  }

  /** Quotes the trade-in value: when it is positive, the description becomes the scene's
      description followed by one line naming the weapon and the value; otherwise it is untouched. */
  method AddTradeInMessage(g: Game, scene: Scene, vp: Viewpoint)
    modifies g`publishCount, vp`description
    ensures g.publishCount == old(g.publishCount) + g.PublicationsPerValuation()
    ensures var v := g.ValueAt(old(g.publishCount));
            && (v <= 0 ==> vp.description == old(vp.description))
            && (v > 0 ==> g.character.equipped.Some?
                          && vp.description == scene.description
                                               + Dialogue.TradeInLine(g.character.equipped.value.name, v))
  {
    var value := GetTradeInValue(g);
    if value > 0 {
      var weapon := g.character.equipped;
      var name := weapon.value.name;
      var description := scene.description;
      description := description + Dialogue.TradeInLine(name, value);
      vp.SetDescription(description);
    }
  }

  /** Attaches the purchase form and registers its submit action in the hidden group.
      Without a buy-scene child this fails before the attachments are changed. */
  method AddForSaleForm(g: Game, scene: Scene, vp: Viewpoint, tradeIn: int) returns (r: Outcome)
    modifies vp`attachments, vp`groups
    ensures r.Fail? <==> Navigation.BuyAction(scene).Err?
    ensures r.Fail? ==> r.error == MissingBuyScene(scene.id)
                        && vp.attachments == old(vp.attachments) && vp.groups == old(vp.groups)
    ensures r.Pass? ==>
              var buy := Navigation.BuyAction(scene).value;
              && vp.attachments == old(vp.attachments) + [Form(ForSale(g, tradeIn), buy)]
              && vp.groups == WithAction(old(vp.groups), HiddenGroup, buy)
              && GroupActions(vp.groups, HiddenGroup) == GroupActions(old(vp.groups), HiddenGroup) + [buy]
              && GroupActions(vp.groups, DefaultGroup) == GroupActions(old(vp.groups), DefaultGroup)
  {
    var user := g.character;
    var gold := user.gold;
    var weapon := user.equipped;
    var weapons := g.weaponsForLevel(user.level);
    var elements := Catalog.BuildChoices(weapons, tradeIn, gold, weapon);

    var buyAction := Navigation.BuyAction(scene);
    if buyAction.Err? {
      return Fail(buyAction.error);
    }
    var form := Form(elements, buyAction.value);

    var attachments := vp.attachments;
    attachments := attachments + [form];
    vp.SetAttachments(attachments);

    vp.AddActionToGroupId(buyAction.value, HiddenGroup);
    r := Pass;
  }

  /** Registers the way back: an action to the scene's first parent, in the default group.
      The scene must have a parent; the source does not check this. */
  method AddMenu(scene: Scene, vp: Viewpoint)
    requires |scene.parents| > 0
    modifies vp`groups
    ensures vp.groups == WithAction(old(vp.groups), DefaultGroup, Action(scene.parents[0].id))
    ensures GroupActions(vp.groups, DefaultGroup) == GroupActions(old(vp.groups), DefaultGroup) + [Action(scene.parents[0].id)]
  {
    vp.AddActionToGroupId(Action(scene.parents[0].id), DefaultGroup);
  }

  /** The handler: message, form (valuing the weapon a second time), menu, then save.
      A missing buy scene aborts the render before anything is attached or saved. */
  method HandleViewpoint(g: Game, scene: Scene, vp: Viewpoint) returns (r: Outcome)
    requires |scene.parents| > 0
    modifies g`publishCount, vp
    ensures var n := old(g.publishCount);
            var shown := g.ValueAt(n);
            var applied := g.ValueAt(n + g.PublicationsPerValuation());
            && g.publishCount == n + 2 * g.PublicationsPerValuation()
            && vp.description == MessageStep(g, scene, shown, old(vp.description))
            && (g.StatelessHooks() ==> shown == applied)
            && (r.Fail? <==> Navigation.BuyAction(scene).Err?)
            && (r.Fail? ==> r.error == MissingBuyScene(scene.id)
                            && vp.attachments == old(vp.attachments)
                            && vp.groups == old(vp.groups)
                            && vp.saved == old(vp.saved))
            && (r.Pass? ==>
                  var buy := Navigation.BuyAction(scene).value;
                  var back := Action(scene.parents[0].id);
                  && vp.attachments == old(vp.attachments) + [Form(ForSale(g, applied), buy)]
                  && vp.groups == WithAction(WithAction(old(vp.groups), HiddenGroup, buy), DefaultGroup, back)
                  && vp.saved)
  {
    ghost var n := g.publishCount;
    AddTradeInMessage(g, scene, vp);
    var tradeIn := GetTradeInValue(g);
    if g.StatelessHooks() {
      TradeIn.StatelessListenersAgree(g.character.equipped, g.baseValue, g.listeners,
                                      n, n + g.PublicationsPerValuation());
    }
    r := AddForSaleForm(g, scene, vp, tradeIn);
    if r.Fail? {
      return;
    }
    AddMenu(scene, vp);
    vp.Save();
  }
}
