# Weapon-shop screen model

A Dafny model of the weapon-shop screen of a text-based multiplayer game (`src/ShopScene.php`).
When a player visits the shop scene, the handler works through these steps:

1. It values the player's equipped weapon for trade-in. The listeners of the trade-in hook may adjust that value.
2. When the value is positive, it replaces the viewpoint's description with the scene's description followed by the merchant's trade-in line.
3. It values the weapon a second time.
4. It builds one button per weapon of the level catalog. A button is disabled when the weapon costs more than the player's gold plus the trade-in credit, or when it is the equipped weapon.
5. It attaches that form, with the buy scene as its submit target, and registers the buy action in the hidden action group.
6. It registers a "back" action to the scene's first parent in the default group.
7. It saves the viewpoint.

Modules, one per component:

- `ShopTypes` (`types.dfy`): the values the screen uses. Weapon, character, scene, action, action group, form element, form. It also holds `Option`, `Result` and `Outcome` for failures.
- `Dialogue` (`dialogue.dfy`): the merchant's trade-in line and the decimal rendering of the value it quotes.
- `TradeIn` (`trade_in.dfy`): the trade-in hook as a fold of listeners `(Weapon, int) -> int` in registration order, and the valuation built on it.
- `Catalog` (`catalog.dfy`): the choice list. It has a specification function `Choices` and the loop `BuildChoices` that is proved equal to it.
- `Navigation` (`navigation.dfy`): the first-match search for the buy-scene child.
- `Viewpoints` (`viewpoint.dfy`): the `Viewpoint` class. It has the fields `description`, `attachments` and `groups`, and a ghost `saved` flag.
- `Engine` (`game.dfy`): the `Game` class, holding what the screen reads from the engine:
  - the character;
  - the weapon-shop module's trade-in valuation and the inventory's catalog lookup, as given functions;
  - the hook's listeners;
  - a count of hook publications.
- `ShopScene` (`shop_scene.dfy`): the handler and its steps as methods that mutate the viewpoint.

Modelling decisions:

- **Hook state.** A listener with side effects can behave differently each time the hook is published. So `Game.listeners` gives the listener list for the n-th publication, and `Game.publishCount` advances once per valuation of an equipped weapon.
- **Stateless hooks.** `Game.StatelessHooks` says the schedule is constant.
- **Two valuations.** `HandleViewpoint` values the weapon twice, as the source does: at line 67 inside the message step and at line 146. Its contract names the displayed value `shown` and the applied value `applied`. It proves them equal when the hooks are stateless. `TradeIn.StatefulListenerDiverges` shows that they can differ otherwise.
- **One character.** The equipped weapon is looked up for the game's current character (line 41). Gold and level come from the viewpoint's owner (line 92). This model assumes they are the same character (`Game.character`).
- **Nothing equipped.** The equipped weapon is an `Option`, and `None` matches no weapon id. This stands in for a sentinel id.
- **Failures.** The engine's exceptions become a `Failure` value. A missing buy child is `MissingBuyScene(sceneId)`.
- **Back action.** `AddMenu` and `HandleViewpoint` require the scene to have at least one parent. The source indexes `parents[0]` without checking it.
- **Templates.** Templates are the kinds `WeaponShopScene`, `WeaponShopBuyScene` and `OtherTemplate(tag)`, where the source compares tags. Ids are integers and compared with integer equality.
- **Dafny purity.** Every specification function is a Dafny function, so repeating the catalog step with the same inputs gives the same list by construction.

Three points about the code that the model keeps:

- **Message step.** The code sets the description to the scene's description plus the line (lines 72-74). It does not append to the viewpoint's current description, and neither does the model.
- **Negative values.** The code does not clamp what the listeners return, so a trade-in value may be negative.
- **Buy action and the default group.** Adding the buy action leaves the default group untouched (`AddForSaleForm`). Nothing stops the default group from already holding an action to the buy scene, so absence from it is not claimed.

## Model

| member | source | states |
|---|---|---|
| `TradeIn.Publish` | src/ShopScene.php:55-61 | with no listeners the context value is returned unchanged; with one listener it is that listener's adjustment of the value |
| `TradeIn.PublishSequential` | src/ShopScene.php:59 | publishing to listeners registered in two batches equals feeding the first batch's result to the second |
| `TradeIn.PublishIgnoresPassiveListener` | src/ShopScene.php:59 | a listener that leaves the context value alone, inserted anywhere, does not change the final value |
| `TradeIn.Value` | src/ShopScene.php:45-63 | nothing equipped gives 0; an equipped weapon with no listeners gives its base valuation |
| `TradeIn.ValueAsWritten` | src/ShopScene.php:50-53 | the code as written fails exactly when nothing is equipped, and otherwise agrees with `Value` |
| `TradeIn.AsWrittenFailsWithoutWeapon` | src/ShopScene.php:50-53 | without a weapon the code as written fails with the undefined-user error, while the intended value is 0 |
| `TradeIn.StatelessListenersAgree` | src/ShopScene.php:145-146 | when listeners behave the same on every publication, any two valuations in one request agree |
| `TradeIn.StatefulListenerDiverges` | src/ShopScene.php:145-146 | a listener that adds the publication count makes the first valuation 10 and the second 11 |
| `Engine.Game.PublishTradeIn` | src/ShopScene.php:59 | the returned value is the current listeners' fold over the weapon and starting value; the publication count advances by one |
| `ShopScene.GetTradeInValue` | src/ShopScene.php:45-63 | returns the valuation for the current publication count; 0 with nothing equipped; publishes the hook once only when a weapon is equipped |
| `Dialogue.Decimal` | src/ShopScene.php:73 | the rendered value is a non-empty string of decimal digits with a leading zero exactly for 0 |
| `Dialogue.DecimalRoundTrip` | src/ShopScene.php:73 | reading the rendered digits back gives the value |
| `Dialogue.TradeInLine` | src/ShopScene.php:73 | the line is the fixed opening, the value's decimal digits, the fixed middle, the weapon name and the closing, in that order: it starts with the opening (so on a new line), ends with the closing, and has exactly the length of those five parts |
| `Dialogue.TradeInLineShowsValueAndName` | src/ShopScene.php:73 | the merchant line starts on a new line and holds the value's digits, which read back as the value, and the weapon name at fixed offsets |
| `ShopScene.AddTradeInMessage` | src/ShopScene.php:65-76 | a value of 0 or less leaves the description untouched; a positive value (only possible with a weapon equipped) makes it the scene's description followed by the merchant line for that weapon and value |
| `Catalog.Choices` | src/ShopScene.php:102-116 | the list has one element per catalog weapon, and element i is the button for weapon i |
| `Catalog.BuildChoices` | src/ShopScene.php:102-116 | the loop's list equals `Choices`: same length and order as the catalog, nothing dropped; element i has the choice parameter, Button type, weapon i's name and id, and is enabled exactly when `cost - tradeIn <= gold` and the weapon is not the equipped one, otherwise disabled |
| `Catalog.ChoicesAsWritten` | src/ShopScene.php:102-116 | the loop as written, with the short-circuiting price test before the ownership test, fails exactly when nothing is equipped and some catalog weapon is affordable, and otherwise agrees with `Choices` |
| `Catalog.NothingEquippedEnablesAffordable` | src/ShopScene.php:107 | when nothing is equipped and catalog weapon k is affordable, the code as written fails, while the intended list enables exactly the affordable weapons |
| `Catalog.NothingAffordableRendersDisabled` | src/ShopScene.php:107 | when nothing is equipped and no weapon is affordable, the code as written does not fail: it gives the intended list, every button disabled |
| `Catalog.EnabledIsMonotone` | src/ShopScene.php:107 | more gold or a larger trade-in credit never disables an enabled weapon |
| `Catalog.WorkedExample` | src/ShopScene.php:102-116 | gold 100, trade-in 20, catalog costs 50, 150 and the held weapon: enabled, disabled, disabled |
| `Navigation.FirstBuyChild` | src/ShopScene.php:81-85 | returns the position of the first child with the buy-scene template, with no earlier match; returns None exactly when no child matches |
| `Navigation.BuyAction` | src/ShopScene.php:78-88 | fails, reporting the scene id, exactly when no child has the buy-scene template; otherwise targets the first such child |
| `Navigation.FirstMatchSurvivesAppend` | src/ShopScene.php:81-85 | appending children after a match does not change the match found |
| `Navigation.LaterChildrenIrrelevant` | src/ShopScene.php:81-85 | once a buy child exists, children added after it do not change the buy action |
| `Viewpoints.WithAction` | src/ShopScene.php:128 | after adding an action to a group, that group has the same actions followed by the new one, every other group is unchanged, and the group exists |
| `Viewpoints.Viewpoint.SetDescription` | src/ShopScene.php:74 | the description becomes the given text; nothing else changes |
| `Viewpoints.Viewpoint.SetAttachments` | src/ShopScene.php:123 | the attachments become the given list; nothing else changes |
| `Viewpoints.Viewpoint.AddActionToGroupId` | src/ShopScene.php:128 | the groups become `WithAction` of the old groups; nothing else changes |
| `Viewpoints.Viewpoint.Save` | src/ShopScene.php:149 | the viewpoint is marked saved |
| `ShopScene.AddForSaleForm` | src/ShopScene.php:90-129 | fails, reporting the scene id, exactly when there is no buy child, and then leaves attachments and groups untouched; otherwise appends exactly one form (the choices for the given credit, submitting to the buy action) after the earlier attachments, appends the buy action to the hidden group and leaves the default group as it was |
| `ShopScene.AddMenu` | src/ShopScene.php:131-134 | with at least one parent, appends an action targeting the first parent's id to the default group, other groups unchanged |
| `ShopScene.HandleViewpoint` | src/ShopScene.php:136-150 | the message step runs first and uses the first valuation; the form uses the second; the two agree when the hooks are stateless; the hook is published twice per equipped weapon. A missing buy child fails with the scene id, attaches nothing, changes no group and does not save. Otherwise it attaches one form, adds the buy action to the hidden group and then the back action to the default group, and saves |

## Left out

- `getScene` (src/ShopScene.php:22-36): a constant scene literal with no logic.
- The logger call on the no-weapon branch (line 52): logging is output only.
- The event bus itself (line 59): the engine's dispatch mechanism is not part of this model. Its effect is modelled as the ordered fold of listeners in `TradeIn.Publish`.
- The weapon-shop module's `Module::tradeInValue` (line 56): its formula is not part of this model. It is the given function `Game.baseValue`.
- The inventory and wealth lookups (lines 40-41, 94-100): these modules are not part of this model. They are inputs: `Game.character` and `Game.weaponsForLevel`.
- Persistence through the entity manager (line 149): modelled only as the ghost flag `Viewpoint.saved`.
- The implementation of the engine's `Viewpoint`: it is not part of this model. `addActionToGroupId` is modelled as appending to the group, creating the group if it is absent.
- PHP's loose `!=` comparison and the resolution of the exception class at line 87: ids are integers, and the exception is a generic `Failure`.
- A listener that throws: not modelled, because listeners are total functions.
- The trade-in line's colour codes are reproduced, but no rendering of them is modelled.

## Findings

| source | as written | input that shows it | evidently intended | confidence | as-written member | corrected member |
|---|---|---|---|---|---|---|
| src/ShopScene.php:50-53 | the no-weapon branch calls `getId()` on the undefined variable `$user`, so it fails before logging and never returns 0 | a player with no equipped weapon | log the missing weapon and return a trade-in value of 0 | high (not executed) | `TradeIn.AsWrittenFailsWithoutWeapon` | `TradeIn.Value` |
| src/ShopScene.php:107 | the exclusion test calls `getId()` on the equipped weapon; because the price test runs first, this fails when nothing is equipped and some catalog weapon is affordable | no equipped weapon, a catalog holding one weapon the player can afford | compare against an id that matches no weapon, so only affordability decides | high (not executed) | `Catalog.NothingEquippedEnablesAffordable` | `Catalog.BuildChoices` |

In the code as written, the second defect is masked by the first: the valuation at line 67 already fails for a player without a weapon. The rest of the model uses the corrected definitions.
