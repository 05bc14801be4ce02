/** The values the weapon-shop screen reads and builds: weapons, the player
    character, scenes of the screen graph, actions, action groups and forms. */
module ShopTypes {

  datatype Option<+T> = None | Some(value: T)

  /** Why a render fails. */
  datatype Failure =
    | MissingBuyScene(sceneId: int)   // no child of the shop scene has the buy-scene template
    | UndefinedUser                   // the no-weapon branch reads an undefined variable
    | NullWeapon                      // a method is called on the absent equipped weapon

  datatype Result<+T> = Ok(value: T) | Err(error: Failure)

  /** The outcome of a step that returns nothing on success. */
  datatype Outcome = Pass | Fail(error: Failure)

  datatype Weapon = Weapon(id: int, name: string, cost: int)

  /** The player: identifier, level, gold balance and the weapon currently equipped, if any. */
  datatype Character = Character(id: int, level: int, gold: int, equipped: Option<Weapon>)

  /** Scene templates; the engine compares template tags, this model compares kinds. */
  datatype Template = WeaponShopScene | WeaponShopBuyScene | OtherTemplate(tag: string)

  /** A reference to a neighbouring scene, as the scene's child and parent lists hold them. */
  datatype SceneRef = SceneRef(id: int, template: Template)

  datatype Scene = Scene(
    id: int,
    template: Template,
    description: string,
    children: seq<SceneRef>,
    parents: seq<SceneRef>)

  /** A navigable transition to the scene with identifier `target`. */
  datatype Action = Action(target: int)

  /** The default group is rendered as the menu; the hidden group is addressable but not shown. */
  datatype GroupId = DefaultGroup | HiddenGroup | OtherGroup(tag: string)

  /** The form parameter a weapon choice populates (the module's choice parameter). */
  datatype Parameter = ChoiceParameter

  datatype ElementType = Button

  datatype ElementOptions = NoOptions | Disabled

  datatype FormElement = FormElement(
    parameter: Parameter,
    kind: ElementType,
    caption: string,
    value: int,
    options: ElementOptions)

  /** An ordered list of choices and the action the form submits to. */
  datatype Form = Form(elements: seq<FormElement>, submit: Action)
}
