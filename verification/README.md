# ClarityInChaos configuration core in Dafny

ClarityInChaos is a game-client plugin. It keeps a separate preset of
battle-effect, nameplate, HP-bar and highlight visibility settings for each
grouping context: Backup (the saved in-game settings), Solo, Light Party,
Full Party, Alliance and PvP. It then pushes the preset in effect to the
game. This project models the plugin's configuration core and proves its
properties:

- **Enums** (`Enums.dfy`): the `GroupingSize` order used for fallback and the
  setting enumerations. Each one is a datatype with its C# ordinal.
- **Config** (`Configuration.dfy`): the six-layer store, the resolver and the
  constructor that seeds the layers from the live game settings.
  - The layer store is keyed by `GroupingSize`. Each layer carries the `Size`
    tag of its subclass.
  - The resolver `GetConfigForGroupingSize(size, inDuty)` works in two ways.
    Inside a duty it returns the layer for `size`. Outside a duty it walks
    down past layers flagged `OnlyInDuty` and stops at Backup.
  - The constructor seeds every layer from the live game settings. The live
    settings are an input function, and a failed read yields ordinal 0.
- **ConfigWindow** (`ConfigWindow.dfy`): the edit-and-propagate policy of the
  configuration window.
  - Table edits write only the fields whose widget reported a change.
  - Any reported change requests a save.
  - The edited layer is pushed to the game only when its header is active.
  - The only-in-duty checkbox is hidden for Backup and Alliance, and PvP has no
    header at all.
  - The debug party size is clamped at zero.
- **Wrappers** (`Wrappers.dfy`): `Option`.

A C# layer object is identified by its slot in the store, a `GroupingSize`.
The resolver returns a slot. The window's reference comparison
`Solo == activeConfig` becomes a comparison of slots. Saving is a
`saveRequested` flag on the frame's result. The live push `UIChange(size)` is
the `pushed` field of that result.

The model follows the code in these respects:

- `Enabled` is not an input to the resolver. The master switch acts only in
  the window's `isActive` test. `ConfigWindow.EffectiveLayer` combines the
  two: Backup when the plugin is disabled, otherwise the resolved layer. Its
  contract states that the window's `isActive` holds for exactly the header
  of that layer.
- The change flag comes from the widgets' return values, not from comparing
  the old and new values. Re-selecting the current radio value still saves,
  and pushes if the layer is active (`ConfigWindow.ReselectReportsChange`).
- Seeding sets only the fifteen battle-effect, nameplate and HP-bar fields.
  The three highlights and `OnlyInDuty` keep their initial values.
- The only-in-duty checkbox is not drawn for Backup and Alliance, so their
  flags never change. PvP's flag never changes either, because PvP has no
  header to edit.
- `isActive` is computed once per frame, from the resolution made before any
  table is drawn. A push therefore follows the layer that was effective when
  the frame began, not the one the edit makes effective. Setting Solo's
  only-in-duty flag while solo outside a duty still pushes Solo
  (`ConfigWindow.StalePushAfterOwnFlagSet`). Clearing Light Party's flag while
  in a light party makes that layer the resolved one, but nothing is pushed
  (`ConfigWindow.NoPushWhenEditBringsLayerIntoEffect`).

## Model

| member | source | states |
|---|---|---|
| `Enums.GroupingSize.Ordinal` | ClarityInChaos/Enums.cs:3-11 | the underlying value of every grouping size is one of the 6 ordinals 0..5 |
| `Enums.GroupingSize.FromOrdinal` | ClarityInChaos/Enums.cs:3-11 | casting any ordinal below 6 to a grouping size gives a value with that ordinal |
| `Enums.BattleEffect.Ordinal` | ClarityInChaos/Enums.cs:13-18 | the underlying value of every battle effect is one of the 3 ordinals 0..2 |
| `Enums.BattleEffect.FromOrdinal` | ClarityInChaos/Enums.cs:13-18 | casting any ordinal below 3 to a battle effect gives a value with that ordinal |
| `Enums.NameplateVisibility.Ordinal` | ClarityInChaos/Enums.cs:20-27 | the underlying value of every nameplate visibility is one of the 5 ordinals 0..4 |
| `Enums.NameplateVisibility.FromOrdinal` | ClarityInChaos/Enums.cs:20-27 | casting any ordinal below 5 to a nameplate visibility gives a value with that ordinal |
| `Enums.NameplateHpBarVisibility.Ordinal` | ClarityInChaos/Enums.cs:41-47 | the underlying value of every HP-bar visibility is one of the 4 ordinals 0..3 |
| `Enums.NameplateHpBarVisibility.FromOrdinal` | ClarityInChaos/Enums.cs:41-47 | casting any ordinal below 4 to an HP-bar visibility gives a value with that ordinal |
| `Enums.EngagedEnemyNameplateVisibility.Ordinal` | ClarityInChaos/Enums.cs:49-54 | the underlying value of every engaged-enemy nameplate visibility is one of the 3 ordinals 0..2 |
| `Enums.EngagedEnemyNameplateVisibility.FromOrdinal` | ClarityInChaos/Enums.cs:49-54 | casting any ordinal below 3 to an engaged-enemy nameplate visibility gives a value with that ordinal |
| `Enums.EngagedEnemyHpBarVisibility.Ordinal` | ClarityInChaos/Enums.cs:56-61 | the underlying value of every engaged-enemy HP-bar visibility is one of the 3 ordinals 0..2 |
| `Enums.EngagedEnemyHpBarVisibility.FromOrdinal` | ClarityInChaos/Enums.cs:56-61 | casting any ordinal below 3 to an engaged-enemy HP-bar visibility gives a value with that ordinal |
| `Enums.ObjectHighlightColor.Ordinal` | ClarityInChaos/ClarityInChaosUI.cs:422-425 | the combo index of every highlight colour is one of 0..6 |
| `Enums.ObjectHighlightColor.FromOrdinal` | ClarityInChaos/ClarityInChaosUI.cs:422-425 | casting any combo index below 7 to a colour gives a colour with that index |
| `Enums.GroupingSize.Pred` | ClarityInChaos/Enums.cs:3-11 | for every size other than Backup, `size - 1` is again a grouping size, exactly one ordinal lower |
| `Enums.GroupingSizeOrder` | ClarityInChaos/Enums.cs:3-11 | ordinals are Backup 0 < Solo < LightParty < FullParty < Alliance < PvP 5, and converting an ordinal back gives the same size |
| `Enums.GroupingSizeOrdinalInjective` | ClarityInChaos/Enums.cs:3-11 | two sizes are equal exactly when their ordinals are |
| `Enums.PredIsNextLower` | ClarityInChaos/Enums.cs:3-11 | the fallback step goes strictly down, and no size lies between a size and its predecessor |
| `Enums.BattleEffectValues` | ClarityInChaos/Enums.cs:13-18 | BattleEffect is in bijection with the ordinals 0..2, and 0 is All |
| `Enums.NameplateVisibilityValues` | ClarityInChaos/Enums.cs:20-27 | NameplateVisibility is in bijection with 0..4, with Never at 3 and OutofBattle at 4 |
| `Enums.NameplateHpBarVisibilityValues` | ClarityInChaos/Enums.cs:41-47 | NameplateHpBarVisibility is in bijection with 0..3, and 0 is Always |
| `Enums.EngagedEnemyValues` | ClarityInChaos/Enums.cs:49-61 | both engaged-enemy enums are in bijection with 0..2, and 0 is Always |
| `Enums.ObjectHighlightColorValues` | ClarityInChaos/ClarityInChaosUI.cs:422-425 | the highlight colour offered by the combo box is in bijection with 0..6, and 0 is None |
| `Config.LayerFor` | ClarityInChaos/Configuration.cs:102-113 | lookup by size is total, and in a valid store it returns the layer whose `Size` tag is the requested size |
| `Config.SetLayer` | ClarityInChaos/Configuration.cs:18-23 | an in-place edit of one layer changes that slot only; the other five layers, `Enabled` and the debug size are kept, and so are valid tags |
| `Config.LayerForDeterminesLayers` | ClarityInChaos/Configuration.cs:18-23 | two stores have the same six layers exactly when lookup agrees on every size |
| `Config.ResolveNotInDuty` | ClarityInChaos/Configuration.cs:115-130 | the walk terminates; its result is at or below the start, is unflagged or Backup, and every layer above it up to the start is flagged |
| `Config.ResolveNotInDutyIsFallbackTarget` | ClarityInChaos/Configuration.cs:115-130 | the walk's result is exactly the highest unflagged size at or below the start, or Backup if there is none; it is unique |
| `Config.Resolve` | ClarityInChaos/Configuration.cs:132-142 | inside a duty the resolved size is the current size; outside a duty it is the fallback target: at or below the size, unflagged or Backup, with every layer above it up to the size flagged |
| `Config.GetConfigForGroupingSize` | ClarityInChaos/Configuration.cs:132-142 | in a duty it returns the layer for `size`; outside a duty it is the stored layer of the fallback target; its tag is the resolved size; outside a duty it is unflagged unless it is Backup |
| `Config.InDutyIgnoresFlags` | ClarityInChaos/Configuration.cs:134-137 | in a duty the result is `size`, and is the same for stores that differ only in their only-in-duty flags |
| `Config.UnflaggedLayerIsInEffect` | ClarityInChaos/Configuration.cs:117-129 | outside a duty, an unflagged layer is returned itself |
| `Config.BackupIsTerminal` | ClarityInChaos/Configuration.cs:118-123 | Backup resolves to Backup even when flagged, and a flagged result can only be Backup |
| `Config.NoFlagsNoFallback` | ClarityInChaos/Configuration.cs:115-130 | with no layer flagged, every size resolves to itself outside a duty |
| `Config.FullPartyFallsBackToSolo` | ClarityInChaos/Configuration.cs:115-130 | with LightParty and FullParty flagged and Solo not, FullParty outside a duty resolves to Solo |
| `Config.FallbackLookups` | ClarityInChaos/Configuration.cs:115-130 | the walk looks up between 1 and ordinal + 1 layers, namely the ordinal distance from start to result plus one |
| `Config.ReadOrZero` | ClarityInChaos/Configuration.cs:68-69 | a failed read yields 0, a successful one its value, and with an in-range source the result is in range |
| `Config.DefaultLayer` | ClarityInChaos/Configuration.cs:145-171 | a new layer object holds ordinal 0 in every enum field and is not flagged |
| `Config.ApplyDefaultConfig` | ClarityInChaos/Configuration.cs:66-100 | each of the fifteen seeded fields holds the live read for its option (0 on failure); highlights, flag and tag are untouched |
| `Config.NewConfiguration` | ClarityInChaos/Configuration.cs:36-54 | the store is valid and enabled; highlights and flags are at their defaults; fresh construction seeds every layer from the live reads, otherwise every layer is the default |
| `Config.FreshLayersAgree` | ClarityInChaos/Configuration.cs:45-53 | after fresh construction the six layers are identical apart from their size tag, and a failed read leaves 0 in every layer |
| `Config.LayerSettingsDetermineLayer` | ClarityInChaos/Configuration.cs:145-171 | a layer is determined by its fifteen seeded settings together with its tag, highlights and flag |
| `ConfigWindow.DrawBattleEffectsTable` | ClarityInChaos/ClarityInChaosUI.cs:117-145 | each reported radio value is written, unreported ones are kept, no other field changes, and the result is changed iff some row reported |
| `ConfigWindow.DrawNameplatesTable` | ClarityInChaos/ClarityInChaosUI.cs:167-212 | the same for the five nameplate rows |
| `ConfigWindow.DrawHighlightsTable` | ClarityInChaos/ClarityInChaosUI.cs:222-253 | the same for the three highlight combos |
| `ConfigWindow.DrawTableGroup` | ClarityInChaos/ClarityInChaosUI.cs:255-298 | only the open tab's fields can change, and the open tab's reported fields take the reported values while its unreported fields keep theirs; HP bars and the engaged-enemy nameplate never change; the flag flips iff the checkbox is shown (not Backup, not Alliance) and clicked; no report means no change |
| `ConfigWindow.ReselectReportsChange` | ClarityInChaos/ClarityInChaosUI.cs:329-333 | clicking the radio of the value already held reports a change while leaving the layer equal |
| `ConfigWindow.DrawTableGroupTwice` | ClarityInChaos/ClarityInChaosUI.cs:255-298 | repeating the same reports rewrites the same values, and a second checkbox click restores the flag |
| `ConfigWindow.Header.Size` | ClarityInChaos/ClarityInChaosUI.cs:488-492 | the window has headers for five layers, and none of them is PvP |
| `ConfigWindow.EffectiveLayer` | ClarityInChaos/ClarityInChaosUI.cs:488-492 | the window's `isActive` holds for a header exactly when the header's size is this layer; with the master switch off it is Backup; with it on it is the current size in a duty and the fallback target outside one; so a preset header is active iff it is the resolved layer and `Enabled` holds, and Backup iff it is resolved or `Enabled` is false |
| `ConfigWindow.ExactlyOneActiveHeader` | ClarityInChaos/ClarityInChaosUI.cs:488-492 | exactly one header is active, except none when enabled and the resolved layer is PvP |
| `ConfigWindow.DrawGroupingSizeGroup` | ClarityInChaos/ClarityInChaosUI.cs:434-444 | a reported change is written to that layer only and always saved, and it is pushed (with the layer's size) iff the header is active; no report means no save, no push and no change |
| `ConfigWindow.Draw` | ClarityInChaos/ClarityInChaosUI.cs:528-537 | in a frame, a save happens iff a drawn widget reported; the push happens iff a save happens and the edited layer was the effective one when the frame began (before the edit); the pushed size is the edited layer's; without a report the store is unchanged; the edited layer becomes the table group's result; no other layer, `Enabled` or debug size changes |
| `ConfigWindow.StalePushAfterOwnFlagSet` | ClarityInChaos/ClarityInChaosUI.cs:488-492 | setting Solo's only-in-duty flag while solo outside a duty still pushes Solo, although the new store resolves solo play to Backup |
| `ConfigWindow.NoPushWhenEditBringsLayerIntoEffect` | ClarityInChaos/ClarityInChaosUI.cs:436-440 | clearing Light Party's only-in-duty flag while in a light party outside a duty makes it the resolved layer, yet nothing is pushed |
| `ConfigWindow.InactiveEditStoredNotPushed` | ClarityInChaos/ClarityInChaosUI.cs:438-442 | an edit to a layer that is not in effect is stored and saved but not pushed |
| `ConfigWindow.DrawDebugSection` | ClarityInChaos/ClarityInChaosUI.cs:511-515 | an entered party size is stored clamped at zero and saved; nothing else changes |
| `ConfigWindow.StepKeepsFixedFlags` | ClarityInChaos/ClarityInChaosUI.cs:286-291 | one frame keeps the store valid and the Backup, Alliance and PvP flags unchanged |
| `ConfigWindow.RunKeepsFixedFlags` | ClarityInChaos/ClarityInChaosUI.cs:286-291 | any sequence of frames keeps the store valid (debug size never negative) and those three flags unchanged |
| `ConfigWindow.ReachableResolution` | ClarityInChaos/Configuration.cs:115-130 | from a new configuration, after any sequence of window edits, Alliance and PvP resolve to themselves outside a duty, and the layer resolved outside a duty is never flagged |

## Left out

- Rendering: tables, radio buttons, combo boxes, collapsing headers, cursor
  arithmetic and colours (`ColorForEffect`, style colours) are float and ImGui
  code. A closed header or an unopened tab draws no widgets. The model shows
  this as widgets that report nothing.
- One frame edits one header. Edits to several headers in the same frame
  would each follow the same rule in turn; they are not modelled together.
- `Save()` and plugin-configuration persistence are reduced to the
  `saveRequested` flag. Serialization attributes, `Version`, `IsVisible` and
  `OnClose` are left out.
- `BattleEffectsConfigurator` (`GetCurrentGroupingSize`, `UIChange`,
  `IsTerritoryAllianceLike`) and `plugin.BoundByDuty` are code outside this
  model. The grouping size and duty state are inputs, and the push is an
  output.
- The master-enable checkbox and the current-effects display
  (`DrawSectionMasterEnable`) are not modelled. The debug flags
  `DebugMessages`, `DebugForcePartySize`, `DebugForceInDuty` and
  `DebugForceInPvP` are not modelled either: how they feed the classifier is
  in code outside this model. `Enabled` is an arbitrary input throughout.
- The `HighlightColor` enumeration is unused by the code and left out.
  Highlights use the game's `ObjectHighlightColor`, modelled with the seven
  entries of the combo box.
- C# enum variables can hold values outside their declared members. The model
  covers only the declared members, so the `_ => Backup` arm of the lookup is
  reached only by Backup itself.
- Config.ApplyDefaultConfig: requires every successful live read to lie within
  the range of its enumeration. The source's unchecked cast of an out-of-range
  `uint` yields an undeclared enum value, which the model does not represent.
- Config.NewConfiguration: the source reads the live settings again for each
  of the six layers. The model reads one unchanging source, so it does not
  cover settings that change during construction.
