/** Locating the scenes the shop screen links to. */
module Navigation {
  import opened ShopTypes

  /** The position of the first child whose template is the buy-scene template, if any. */
  function FirstBuyChild(children: seq<SceneRef>): (r: Option<nat>)
    ensures r.Some? ==> r.value < |children| && children[r.value].template == WeaponShopBuyScene
    ensures r.Some? ==> forall j :: 0 <= j < r.value ==> children[j].template != WeaponShopBuyScene
    ensures r.None? <==> forall j :: 0 <= j < |children| ==> children[j].template != WeaponShopBuyScene
    decreases |children|
  {
    if children == [] then None
    else if children[0].template == WeaponShopBuyScene then Some(0)
    else match FirstBuyChild(children[1..])
      case None => None
      case Some(k) => Some(k + 1)
  }

  /** The action that submits the purchase form: it targets the first buy-scene child;
      without one the render fails, reporting the shop scene's identifier. */
  function BuyAction(scene: Scene): (r: Result<Action>)
    ensures r.Err? <==> forall j :: 0 <= j < |scene.children| ==> scene.children[j].template != WeaponShopBuyScene
    ensures r.Err? ==> r.error == MissingBuyScene(scene.id)
    ensures r.Ok? ==> exists k :: 0 <= k < |scene.children|
                        && scene.children[k].template == WeaponShopBuyScene
                        && (forall j :: 0 <= j < k ==> scene.children[j].template != WeaponShopBuyScene)
                        && r.value == Action(scene.children[k].id)
  {
    match FirstBuyChild(scene.children)
    case Some(k) => Ok(Action(scene.children[k].id))
    case None => Err(MissingBuyScene(scene.id))
  }

  /** Only the first matching child matters: buy-scene children after it do not change the action. */
  lemma {:induction false} LaterChildrenIrrelevant(scene: Scene, more: seq<SceneRef>)
    requires BuyAction(scene).Ok?
    ensures BuyAction(scene.(children := scene.children + more)) == BuyAction(scene)
  {
    FirstMatchSurvivesAppend(scene.children, more);
  }

  lemma {:induction false} FirstMatchSurvivesAppend(children: seq<SceneRef>, more: seq<SceneRef>)
    requires FirstBuyChild(children).Some?
    ensures FirstBuyChild(children + more) == FirstBuyChild(children)
    decreases |children|
  {
    if children[0].template != WeaponShopBuyScene {
      assert (children + more)[1..] == children[1..] + more;
      FirstMatchSurvivesAppend(children[1..], more);
    }
  }
}
