/**
 The plugin configuration: six per-grouping-size layers of visibility
 settings, the master `Enabled` switch, the resolver that picks the layer in
 effect for a grouping size and duty state, and the seeding of a fresh
 configuration from the live game settings.

 A layer object of the source is identified here by its slot in the store,
 a `GroupingSize`: the resolver returns a slot, and "the same layer object"
 means "the same slot".
 */
module Config {
  import opened Wrappers
  import opened Enums

  /** One preset of visibility and highlight settings. `size` is the fixed tag
      of the layer (the `Size` property of its subclass in the source). */
  datatype Layer = Layer(
    size: GroupingSize,
    self: BattleEffect,
    party: BattleEffect,
    other: BattleEffect,
    ownNameplate: NameplateVisibility,
    partyNameplate: NameplateVisibility,
    allianceNameplate: NameplateVisibility,
    othersNameplate: NameplateVisibility,
    friendsNameplate: NameplateVisibility,
    engagedEnemyNameplate: EngagedEnemyNameplateVisibility,
    ownHpBar: NameplateHpBarVisibility,
    partyHpBar: NameplateHpBarVisibility,
    allianceHpBar: NameplateHpBarVisibility,
    othersHpBar: NameplateHpBarVisibility,
    friendsHpBar: NameplateHpBarVisibility,
    engagedEnemyHpBar: EngagedEnemyHpBarVisibility,
    ownHighlight: ObjectHighlightColor,
    partyHighlight: ObjectHighlightColor,
    othersHighlight: ObjectHighlightColor,
    onlyInDuty: bool)

  /** The layer store plus the master switch and the clamped debug party size. */
  datatype Configuration = Configuration(
    enabled: bool,
    backup: Layer,
    solo: Layer,
    lightParty: Layer,
    fullParty: Layer,
    alliance: Layer,
    pvp: Layer,
    debugPartySize: int)

  /** Every slot holds the layer tagged with that slot's size, and the debug
      party size is not negative. */
  predicate Valid(c: Configuration) {
    && c.backup.size == Backup
    && c.solo.size == Solo
    && c.lightParty.size == LightParty
    && c.fullParty.size == FullParty
    && c.alliance.size == Alliance
    && c.pvp.size == PvP
    && c.debugPartySize >= 0
  }

  // ---------------------------------------------------------------------------
  // Lookup and update by grouping size
  // ---------------------------------------------------------------------------

  /** The layer stored for `size`; total over the six sizes. */
  function LayerFor(c: Configuration, size: GroupingSize): (l: Layer)
    ensures Valid(c) ==> l.size == size
  {
    match size
    case Backup => c.backup
    case Solo => c.solo
    case LightParty => c.lightParty
    case FullParty => c.fullParty
    case Alliance => c.alliance
    case PvP => c.pvp
  }

  /** The store with the layer for `size` replaced by `l`; an in-place edit of
      that layer object in the source. */
  function SetLayer(c: Configuration, size: GroupingSize, l: Layer): (r: Configuration)
    ensures LayerFor(r, size) == l
    ensures forall s :: s != size ==> LayerFor(r, s) == LayerFor(c, s)
    ensures r.enabled == c.enabled && r.debugPartySize == c.debugPartySize
    ensures Valid(c) && l.size == size ==> Valid(r)
  {
    match size
    case Backup => c.(backup := l)
    case Solo => c.(solo := l)
    case LightParty => c.(lightParty := l)
    case FullParty => c.(fullParty := l)
    case Alliance => c.(alliance := l)
    case PvP => c.(pvp := l)
  }

  /** Two stores agree on every layer exactly when they agree on every slot. */
  lemma LayerForDeterminesLayers(c: Configuration, d: Configuration)
    ensures (forall s :: LayerFor(c, s) == LayerFor(d, s)) <==>
            c.(enabled := d.enabled, debugPartySize := d.debugPartySize) == d
  {
    if forall s :: LayerFor(c, s) == LayerFor(d, s) {
      assert LayerFor(c, Backup) == LayerFor(d, Backup);
      assert LayerFor(c, Solo) == LayerFor(d, Solo);
      assert LayerFor(c, LightParty) == LayerFor(d, LightParty);
      assert LayerFor(c, FullParty) == LayerFor(d, FullParty);
      assert LayerFor(c, Alliance) == LayerFor(d, Alliance);
      assert LayerFor(c, PvP) == LayerFor(d, PvP);
    }
  }

  // ---------------------------------------------------------------------------
  // Resolution
  // ---------------------------------------------------------------------------

  /** The layer in effect outside a duty: starting at `size`, skip layers that
      are flagged only-in-duty, stepping to the next lower size, and stop at
      Backup whatever its flag. */
  function ResolveNotInDuty(c: Configuration, size: GroupingSize): (r: GroupingSize)
    ensures r.Ordinal() <= size.Ordinal()
    ensures !LayerFor(c, r).onlyInDuty || r == Backup
    ensures forall s: GroupingSize :: r.Ordinal() < s.Ordinal() <= size.Ordinal() ==> LayerFor(c, s).onlyInDuty
    decreases size.Ordinal()
  {
    if LayerFor(c, size).onlyInDuty then
      if size == Backup then Backup else ResolveNotInDuty(c, size.Pred())
    else
      size
  }

  /** The layer in effect for `size`: inside a duty the layer for `size`
      itself, outside a duty the fallback walk. `Enabled` is not an input. */
  function Resolve(c: Configuration, size: GroupingSize, inDuty: bool): (r: GroupingSize)
    ensures inDuty ==> r == size
    ensures !inDuty ==> IsFallbackTarget(c, size, r)
  {
    if inDuty then size else ResolveNotInDuty(c, size)
  }

  /** The layer object the two-argument lookup returns. */
  function GetConfigForGroupingSize(c: Configuration, size: GroupingSize, inDuty: bool): (l: Layer)
    ensures inDuty ==> l == LayerFor(c, size)
    ensures !inDuty ==> exists g: GroupingSize :: IsFallbackTarget(c, size, g) && l == LayerFor(c, g)
    ensures Valid(c) ==> l.size == Resolve(c, size, inDuty)
    ensures Valid(c) && !inDuty ==> !l.onlyInDuty || l.size == Backup
  {
    LayerFor(c, Resolve(c, size, inDuty))
  }

  /** The reference characterisation of the fallback target: the highest size
      at or below `size` whose layer is not only-in-duty, or Backup if every
      layer from `size` down is flagged. */
  predicate IsFallbackTarget(c: Configuration, size: GroupingSize, g: GroupingSize) {
    && g.Ordinal() <= size.Ordinal()
    && (!LayerFor(c, g).onlyInDuty || g == Backup)
    && forall s: GroupingSize :: g.Ordinal() < s.Ordinal() <= size.Ordinal() ==> LayerFor(c, s).onlyInDuty
  }

  /** The fallback walk returns exactly the reference target: it is one, and
      it is the only one. */
  lemma ResolveNotInDutyIsFallbackTarget(c: Configuration, size: GroupingSize, g: GroupingSize)
    ensures IsFallbackTarget(c, size, g) <==> g == ResolveNotInDuty(c, size)
  {
  }

  /** Inside a duty the layer for `size` is in effect, whatever the
      only-in-duty flags of any layer. */
  lemma InDutyIgnoresFlags(c: Configuration, d: Configuration, size: GroupingSize)
    requires forall s :: LayerFor(d, s) == LayerFor(c, s).(onlyInDuty := LayerFor(d, s).onlyInDuty)
    ensures Resolve(c, size, true) == size
    ensures Resolve(c, size, true) == Resolve(d, size, true)
  {
  }

  /** Outside a duty, a layer that is not flagged only-in-duty is itself in effect. */
  lemma {:induction false} UnflaggedLayerIsInEffect(c: Configuration, size: GroupingSize)
    requires !LayerFor(c, size).onlyInDuty
    ensures Resolve(c, size, false) == size
  {
  }

  /** Backup is terminal: it resolves to itself even when flagged, and the
      resolved layer outside a duty is unflagged unless it is Backup. */
  lemma BackupIsTerminal(c: Configuration, size: GroupingSize)
    ensures ResolveNotInDuty(c, Backup) == Backup
    ensures LayerFor(c, Resolve(c, size, false)).onlyInDuty ==> Resolve(c, size, false) == Backup
  {
  }

  /** When no layer is flagged, every size resolves to itself also outside a duty. */
  lemma NoFlagsNoFallback(c: Configuration, size: GroupingSize)
    requires forall s :: !LayerFor(c, s).onlyInDuty
    ensures Resolve(c, size, false) == size
  {
  }

  /** Worked example: with LightParty and FullParty flagged and Solo not,
      FullParty outside a duty falls back past LightParty to Solo. */
  lemma FullPartyFallsBackToSolo(c: Configuration)
    requires !LayerFor(c, Solo).onlyInDuty
    requires LayerFor(c, LightParty).onlyInDuty && LayerFor(c, FullParty).onlyInDuty
    ensures Resolve(c, FullParty, false) == Solo
  {
  }

  /** Number of layers the fallback walk inspects: one per recursive call. */
  function FallbackLookups(c: Configuration, size: GroupingSize): (n: nat)
    ensures 1 <= n <= size.Ordinal() + 1
    ensures n == size.Ordinal() - ResolveNotInDuty(c, size).Ordinal() + 1
    decreases size.Ordinal()
  {
    if LayerFor(c, size).onlyInDuty && size != Backup then
      1 + FallbackLookups(c, size.Pred())
    else
      1
  }

  // ---------------------------------------------------------------------------
  // Construction and seeding from the live game settings
  // ---------------------------------------------------------------------------

  /** The game-config options read when seeding, one per seeded field. The last
      name keeps the game API's own spelling. */
  datatype UiConfigOption =
    | BattleEffectSelf | BattleEffectParty | BattleEffectOther
    | NamePlateDispTypeSelf | NamePlateDispTypeParty | NamePlateDispTypeAlliance
    | NamePlateDispTypeOther | NamePlateDispTypeFriend | NamePlateDispTypeEngagedEnemy
    | NamePlateHpTypeSelf | NamePlateHpTypeParty | NamePlateHpTypeAlliance
    | NamePlateHpTypeOther | NamePlateHpTypeFriend | NamePlateHpTypeEngagedEmemy

  /** Number of values of the enumeration an option is stored into. */
  function Range(o: UiConfigOption): (n: nat)
    ensures n >= 3
  {
    match o
    case BattleEffectSelf | BattleEffectParty | BattleEffectOther => 3
    case NamePlateDispTypeSelf | NamePlateDispTypeParty | NamePlateDispTypeAlliance
      | NamePlateDispTypeOther | NamePlateDispTypeFriend => 5
    case NamePlateDispTypeEngagedEnemy => 3
    case NamePlateHpTypeSelf | NamePlateHpTypeParty | NamePlateHpTypeAlliance
      | NamePlateHpTypeOther | NamePlateHpTypeFriend => 4
    case NamePlateHpTypeEngagedEmemy => 3
  }

  /** The live game settings: a read either fails (`None`) or yields a value. */
  type LiveSource = UiConfigOption -> Option<nat>

  /** Every successful read lies within the range of its target enumeration. */
  predicate SourceInRange(src: LiveSource) {
    forall o :: src(o).Some? ==> src(o).value < Range(o)
  }

  /** A read whose out-parameter is left at 0 when it fails. */
  function ReadOrZero(src: LiveSource, o: UiConfigOption): (n: nat)
    ensures src(o).None? ==> n == 0
    ensures src(o).Some? ==> n == src(o).value
    ensures SourceInRange(src) ==> n < Range(o)
  {
    src(o).GetOr(0)
  }

  /** The ordinal a layer holds for the field an option seeds. */
  function LayerSetting(l: Layer, o: UiConfigOption): (n: nat)
    ensures n < Range(o)
  {
    match o
    case BattleEffectSelf => l.self.Ordinal()
    case BattleEffectParty => l.party.Ordinal()
    case BattleEffectOther => l.other.Ordinal()
    case NamePlateDispTypeSelf => l.ownNameplate.Ordinal()
    case NamePlateDispTypeParty => l.partyNameplate.Ordinal()
    case NamePlateDispTypeAlliance => l.allianceNameplate.Ordinal()
    case NamePlateDispTypeOther => l.othersNameplate.Ordinal()
    case NamePlateDispTypeFriend => l.friendsNameplate.Ordinal()
    case NamePlateDispTypeEngagedEnemy => l.engagedEnemyNameplate.Ordinal()
    case NamePlateHpTypeSelf => l.ownHpBar.Ordinal()
    case NamePlateHpTypeParty => l.partyHpBar.Ordinal()
    case NamePlateHpTypeAlliance => l.allianceHpBar.Ordinal()
    case NamePlateHpTypeOther => l.othersHpBar.Ordinal()
    case NamePlateHpTypeFriend => l.friendsHpBar.Ordinal()
    case NamePlateHpTypeEngagedEmemy => l.engagedEnemyHpBar.Ordinal()
  }

  /** Two layers agree on the fields seeding does not touch: the size tag, the
      three highlights and the only-in-duty flag. */
  predicate SameUnseeded(a: Layer, b: Layer) {
    && a.size == b.size
    && a.ownHighlight == b.ownHighlight
    && a.partyHighlight == b.partyHighlight
    && a.othersHighlight == b.othersHighlight
    && a.onlyInDuty == b.onlyInDuty
  }

  /** A freshly constructed layer: every enum at its zero value, not flagged. */
  function DefaultLayer(size: GroupingSize): (l: Layer)
    ensures l.size == size && !l.onlyInDuty
    ensures forall o :: LayerSetting(l, o) == 0
    ensures l.ownHighlight.Ordinal() == 0 && l.partyHighlight.Ordinal() == 0 && l.othersHighlight.Ordinal() == 0
  {
    Layer(size,
      BattleEffect.All, BattleEffect.All, BattleEffect.All,
      NameplateVisibility.Always, NameplateVisibility.Always, NameplateVisibility.Always,
      NameplateVisibility.Always, NameplateVisibility.Always,
      EngagedEnemyNameplateVisibility.Always,
      NameplateHpBarVisibility.Always, NameplateHpBarVisibility.Always, NameplateHpBarVisibility.Always,
      NameplateHpBarVisibility.Always, NameplateHpBarVisibility.Always,
      EngagedEnemyHpBarVisibility.Always,
      ObjectHighlightColor.None, ObjectHighlightColor.None, ObjectHighlightColor.None,
      false)
  }

  /** Copy the fifteen live settings into a layer; highlights, the only-in-duty
      flag and the size tag are left as they were. */
  function ApplyDefaultConfig(l: Layer, src: LiveSource): (r: Layer)
    requires SourceInRange(src)
    ensures forall o :: LayerSetting(r, o) == ReadOrZero(src, o)
    ensures SameUnseeded(r, l)
  {
    l.(
      self := BattleEffect.FromOrdinal(ReadOrZero(src, BattleEffectSelf)),
      party := BattleEffect.FromOrdinal(ReadOrZero(src, BattleEffectParty)),
      other := BattleEffect.FromOrdinal(ReadOrZero(src, BattleEffectOther)),
      ownNameplate := NameplateVisibility.FromOrdinal(ReadOrZero(src, NamePlateDispTypeSelf)),
      partyNameplate := NameplateVisibility.FromOrdinal(ReadOrZero(src, NamePlateDispTypeParty)),
      allianceNameplate := NameplateVisibility.FromOrdinal(ReadOrZero(src, NamePlateDispTypeAlliance)),
      othersNameplate := NameplateVisibility.FromOrdinal(ReadOrZero(src, NamePlateDispTypeOther)),
      friendsNameplate := NameplateVisibility.FromOrdinal(ReadOrZero(src, NamePlateDispTypeFriend)),
      engagedEnemyNameplate :=
        EngagedEnemyNameplateVisibility.FromOrdinal(ReadOrZero(src, NamePlateDispTypeEngagedEnemy)),
      ownHpBar := NameplateHpBarVisibility.FromOrdinal(ReadOrZero(src, NamePlateHpTypeSelf)),
      partyHpBar := NameplateHpBarVisibility.FromOrdinal(ReadOrZero(src, NamePlateHpTypeParty)),
      allianceHpBar := NameplateHpBarVisibility.FromOrdinal(ReadOrZero(src, NamePlateHpTypeAlliance)),
      othersHpBar := NameplateHpBarVisibility.FromOrdinal(ReadOrZero(src, NamePlateHpTypeOther)),
      friendsHpBar := NameplateHpBarVisibility.FromOrdinal(ReadOrZero(src, NamePlateHpTypeFriend)),
      engagedEnemyHpBar := EngagedEnemyHpBarVisibility.FromOrdinal(ReadOrZero(src, NamePlateHpTypeEngagedEmemy)))
  }

  /** The constructor: six default layers, seeded from the live settings when
      `isFresh`. The live settings are assumed not to change while the six
      layers are seeded, so every layer reads the same values. */
  function NewConfiguration(isFresh: bool, src: LiveSource): (c: Configuration)
    requires isFresh ==> SourceInRange(src)
    ensures Valid(c) && c.enabled && c.debugPartySize == 0
    ensures forall s :: SameUnseeded(LayerFor(c, s), DefaultLayer(s))
    ensures isFresh ==> forall s, o :: LayerSetting(LayerFor(c, s), o) == ReadOrZero(src, o)
    ensures !isFresh ==> forall s :: LayerFor(c, s) == DefaultLayer(s)
  {
    var c := Configuration(true,
      DefaultLayer(Backup), DefaultLayer(Solo), DefaultLayer(LightParty),
      DefaultLayer(FullParty), DefaultLayer(Alliance), DefaultLayer(PvP), 0);
    if isFresh then
      c.(
        backup := ApplyDefaultConfig(c.backup, src),
        solo := ApplyDefaultConfig(c.solo, src),
        lightParty := ApplyDefaultConfig(c.lightParty, src),
        fullParty := ApplyDefaultConfig(c.fullParty, src),
        alliance := ApplyDefaultConfig(c.alliance, src),
        pvp := ApplyDefaultConfig(c.pvp, src))
    else
      c
  }

  /** After fresh construction the six layers differ only in their size tag,
      and a failed read leaves ordinal 0 in every layer. */
  lemma FreshLayersAgree(src: LiveSource, s: GroupingSize, t: GroupingSize, o: UiConfigOption)
    requires SourceInRange(src)
    ensures LayerFor(NewConfiguration(true, src), s).(size := t) == LayerFor(NewConfiguration(true, src), t)
    ensures src(o).None? ==> LayerSetting(LayerFor(NewConfiguration(true, src), s), o) == 0
  {
  }

  /** A layer is determined by its fifteen seeded settings together with the
      fields seeding leaves alone. */
  lemma LayerSettingsDetermineLayer(a: Layer, b: Layer)
    requires SameUnseeded(a, b)
    requires forall o :: LayerSetting(a, o) == LayerSetting(b, o)
    ensures a == b
  {
    BattleEffectValues();
    NameplateVisibilityValues();
    NameplateHpBarVisibilityValues();
    EngagedEnemyValues();
    assert LayerSetting(a, BattleEffectSelf) == LayerSetting(b, BattleEffectSelf);
    assert LayerSetting(a, BattleEffectParty) == LayerSetting(b, BattleEffectParty);
    assert LayerSetting(a, BattleEffectOther) == LayerSetting(b, BattleEffectOther);
    assert LayerSetting(a, NamePlateDispTypeSelf) == LayerSetting(b, NamePlateDispTypeSelf);
    assert LayerSetting(a, NamePlateDispTypeParty) == LayerSetting(b, NamePlateDispTypeParty);
    assert LayerSetting(a, NamePlateDispTypeAlliance) == LayerSetting(b, NamePlateDispTypeAlliance);
    assert LayerSetting(a, NamePlateDispTypeOther) == LayerSetting(b, NamePlateDispTypeOther);
    assert LayerSetting(a, NamePlateDispTypeFriend) == LayerSetting(b, NamePlateDispTypeFriend);
    assert LayerSetting(a, NamePlateDispTypeEngagedEnemy) == LayerSetting(b, NamePlateDispTypeEngagedEnemy);
    assert LayerSetting(a, NamePlateHpTypeSelf) == LayerSetting(b, NamePlateHpTypeSelf);
    assert LayerSetting(a, NamePlateHpTypeParty) == LayerSetting(b, NamePlateHpTypeParty);
    assert LayerSetting(a, NamePlateHpTypeAlliance) == LayerSetting(b, NamePlateHpTypeAlliance);
    assert LayerSetting(a, NamePlateHpTypeOther) == LayerSetting(b, NamePlateHpTypeOther);
    assert LayerSetting(a, NamePlateHpTypeFriend) == LayerSetting(b, NamePlateHpTypeFriend);
    assert LayerSetting(a, NamePlateHpTypeEngagedEmemy) == LayerSetting(b, NamePlateHpTypeEngagedEmemy);
  }
}
