/**
 The edit-and-propagate policy of the configuration window. Rendering is not
 modelled: one frame's user interaction is an input naming what each widget
 reported. A radio button or combo box that returns true reports
 `Some(value)`, even when the value is the one the layer already holds; one
 that returns false, or is not drawn, reports `None`. The only-in-duty
 checkbox either is clicked, which toggles the flag, or is not. The live
 push to the game (`UIChange`) and the save request are results of the frame.
 */
module ConfigWindow {
  import opened Wrappers
  import opened Enums
  import opened Config

  /** The tab of the tab bar that is open; only its table is drawn. */
  datatype Tab = BattleEffectsTab | NameplatesTab | HighlightsTab

  /** What the widgets of one layer's table group reported in a frame. */
  datatype TableInput = TableInput(
    tab: Tab,
    self: Option<BattleEffect>,
    party: Option<BattleEffect>,
    other: Option<BattleEffect>,
    ownNameplate: Option<NameplateVisibility>,
    partyNameplate: Option<NameplateVisibility>,
    allianceNameplate: Option<NameplateVisibility>,
    othersNameplate: Option<NameplateVisibility>,
    friendsNameplate: Option<NameplateVisibility>,
    ownHighlight: Option<ObjectHighlightColor>,
    partyHighlight: Option<ObjectHighlightColor>,
    othersHighlight: Option<ObjectHighlightColor>,
    onlyInDutyClicked: bool)

  /** A table's edited layer and whether any of its widgets reported a change. */
  datatype Drawn = Drawn(layer: Layer, changed: bool)

  /** The effect of one frame: the new store, whether a save was requested,
      and the grouping size pushed to the game, if any. */
  datatype FrameResult = FrameResult(config: Configuration, saveRequested: bool, pushed: Option<GroupingSize>)

  /** `after` is what a widget writing `reported` into a field holding `before` leaves. */
  predicate Written<T(==)>(reported: Option<T>, before: T, after: T) {
    match reported
    case Some(v) => after == v
    case None => after == before
  }

  // ---------------------------------------------------------------------------
  // Tables
  // ---------------------------------------------------------------------------

  /** The battle-effects tab: one radio row each for own, party and others. */
  function DrawBattleEffectsTable(l: Layer, input: TableInput): (r: Drawn)
    ensures Written(input.self, l.self, r.layer.self)
    ensures Written(input.party, l.party, r.layer.party)
    ensures Written(input.other, l.other, r.layer.other)
    ensures r.layer.(self := l.self, party := l.party, other := l.other) == l
    ensures r.changed <==> input.self.Some? || input.party.Some? || input.other.Some?
  {
    Drawn(
      l.(self := input.self.GetOr(l.self),
         party := input.party.GetOr(l.party),
         other := input.other.GetOr(l.other)),
      input.self.Some? || input.party.Some? || input.other.Some?)
  }

  /** The nameplates tab: one radio row each for own, party, alliance, others and friends. */
  function DrawNameplatesTable(l: Layer, input: TableInput): (r: Drawn)
    ensures Written(input.ownNameplate, l.ownNameplate, r.layer.ownNameplate)
    ensures Written(input.partyNameplate, l.partyNameplate, r.layer.partyNameplate)
    ensures Written(input.allianceNameplate, l.allianceNameplate, r.layer.allianceNameplate)
    ensures Written(input.othersNameplate, l.othersNameplate, r.layer.othersNameplate)
    ensures Written(input.friendsNameplate, l.friendsNameplate, r.layer.friendsNameplate)
    ensures r.layer.(ownNameplate := l.ownNameplate, partyNameplate := l.partyNameplate,
                     allianceNameplate := l.allianceNameplate, othersNameplate := l.othersNameplate,
                     friendsNameplate := l.friendsNameplate) == l
    ensures r.changed <==> NameplatesReported(input)
  {
    Drawn(
      l.(ownNameplate := input.ownNameplate.GetOr(l.ownNameplate),
         partyNameplate := input.partyNameplate.GetOr(l.partyNameplate),
         allianceNameplate := input.allianceNameplate.GetOr(l.allianceNameplate),
         othersNameplate := input.othersNameplate.GetOr(l.othersNameplate),
         friendsNameplate := input.friendsNameplate.GetOr(l.friendsNameplate)),
      NameplatesReported(input))
  }

  /** Some nameplate row reported a change. */
  predicate NameplatesReported(input: TableInput) {
    || input.ownNameplate.Some? || input.partyNameplate.Some? || input.allianceNameplate.Some?
    || input.othersNameplate.Some? || input.friendsNameplate.Some?
  }

  /** The highlights tab: one colour combo each for own, party and others. */
  function DrawHighlightsTable(l: Layer, input: TableInput): (r: Drawn)
    ensures Written(input.ownHighlight, l.ownHighlight, r.layer.ownHighlight)
    ensures Written(input.partyHighlight, l.partyHighlight, r.layer.partyHighlight)
    ensures Written(input.othersHighlight, l.othersHighlight, r.layer.othersHighlight)
    ensures r.layer.(ownHighlight := l.ownHighlight, partyHighlight := l.partyHighlight,
                     othersHighlight := l.othersHighlight) == l
    ensures r.changed <==> input.ownHighlight.Some? || input.partyHighlight.Some? || input.othersHighlight.Some?
  {
    Drawn(
      l.(ownHighlight := input.ownHighlight.GetOr(l.ownHighlight),
         partyHighlight := input.partyHighlight.GetOr(l.partyHighlight),
         othersHighlight := input.othersHighlight.GetOr(l.othersHighlight)),
      input.ownHighlight.Some? || input.partyHighlight.Some? || input.othersHighlight.Some?)
  }

  /** The only-in-duty checkbox is drawn for every size except Backup and Alliance. */
  predicate OnlyInDutyShown(size: GroupingSize) {
    size != Backup && size != Alliance
  }

  /** Some widget that is actually drawn for this layer reported a change. */
  predicate AnyReported(l: Layer, input: TableInput) {
    || (input.tab == BattleEffectsTab && (input.self.Some? || input.party.Some? || input.other.Some?))
    || (input.tab == NameplatesTab && NameplatesReported(input))
    || (input.tab == HighlightsTab
        && (input.ownHighlight.Some? || input.partyHighlight.Some? || input.othersHighlight.Some?))
    || (OnlyInDutyShown(l.size) && input.onlyInDutyClicked)
  }

  /** The open tab's table, then the only-in-duty checkbox. */
  function DrawTableGroup(l: Layer, input: TableInput): (r: Drawn)
    ensures r.changed <==> AnyReported(l, input)
    ensures !r.changed ==> r.layer == l
    ensures r.layer.size == l.size
    // there are no widgets for the HP bars and the engaged-enemy nameplate
    ensures NoWidgetFieldsKept(l, r.layer)
    // the open tab writes exactly its reported fields
    ensures input.tab == BattleEffectsTab ==>
              && Written(input.self, l.self, r.layer.self)
              && Written(input.party, l.party, r.layer.party)
              && Written(input.other, l.other, r.layer.other)
    ensures input.tab == NameplatesTab ==>
              && Written(input.ownNameplate, l.ownNameplate, r.layer.ownNameplate)
              && Written(input.partyNameplate, l.partyNameplate, r.layer.partyNameplate)
              && Written(input.allianceNameplate, l.allianceNameplate, r.layer.allianceNameplate)
              && Written(input.othersNameplate, l.othersNameplate, r.layer.othersNameplate)
              && Written(input.friendsNameplate, l.friendsNameplate, r.layer.friendsNameplate)
    ensures input.tab == HighlightsTab ==>
              && Written(input.ownHighlight, l.ownHighlight, r.layer.ownHighlight)
              && Written(input.partyHighlight, l.partyHighlight, r.layer.partyHighlight)
              && Written(input.othersHighlight, l.othersHighlight, r.layer.othersHighlight)
    // the closed tabs' fields are kept
    ensures input.tab != BattleEffectsTab ==>
              r.layer.self == l.self && r.layer.party == l.party && r.layer.other == l.other
    ensures input.tab != NameplatesTab ==>
              r.layer.ownNameplate == l.ownNameplate && r.layer.partyNameplate == l.partyNameplate
              && r.layer.allianceNameplate == l.allianceNameplate
              && r.layer.othersNameplate == l.othersNameplate && r.layer.friendsNameplate == l.friendsNameplate
    ensures input.tab != HighlightsTab ==>
              r.layer.ownHighlight == l.ownHighlight && r.layer.partyHighlight == l.partyHighlight
              && r.layer.othersHighlight == l.othersHighlight
    ensures r.layer.onlyInDuty != l.onlyInDuty <==> OnlyInDutyShown(l.size) && input.onlyInDutyClicked
  {
    var bfx := if input.tab == BattleEffectsTab then DrawBattleEffectsTable(l, input) else Drawn(l, false);
    var np := if input.tab == NameplatesTab then DrawNameplatesTable(bfx.layer, input) else Drawn(bfx.layer, false);
    var hl := if input.tab == HighlightsTab then DrawHighlightsTable(np.layer, input) else Drawn(np.layer, false);
    if OnlyInDutyShown(l.size) && input.onlyInDutyClicked then
      Drawn(hl.layer.(onlyInDuty := !l.onlyInDuty), true)
    else
      Drawn(hl.layer, bfx.changed || np.changed || hl.changed)
  }

  /** Two layers agree on the fields no widget of the window edits. */
  predicate NoWidgetFieldsKept(a: Layer, b: Layer) {
    && a.engagedEnemyNameplate == b.engagedEnemyNameplate
    && a.ownHpBar == b.ownHpBar && a.partyHpBar == b.partyHpBar && a.allianceHpBar == b.allianceHpBar
    && a.othersHpBar == b.othersHpBar && a.friendsHpBar == b.friendsHpBar
    && a.engagedEnemyHpBar == b.engagedEnemyHpBar
  }

  /** Re-selecting the value a field already holds still reports a change:
      the change flag comes from the widget, not from comparing values. */
  lemma ReselectReportsChange(l: Layer)
    ensures DrawTableGroup(l, TableInput(BattleEffectsTab, Some(l.self), Option.None, Option.None,
              Option.None, Option.None, Option.None, Option.None, Option.None,
              Option.None, Option.None, Option.None, false)) == Drawn(l, true)
  {
  }

  /** Repeating the same reports writes the same values again, while a second
      click on the checkbox toggles the flag back. */
  lemma DrawTableGroupTwice(l: Layer, input: TableInput)
    ensures var once := DrawTableGroup(l, input).layer;
            DrawTableGroup(once, input).layer == once.(onlyInDuty := l.onlyInDuty)
  {
  }

  // ---------------------------------------------------------------------------
  // Headers, activity and propagation
  // ---------------------------------------------------------------------------

  /** The collapsing headers of the matrix section, in drawing order; PvP has none. */
  datatype Header = SoloHeader | LightPartyHeader | FullPartyHeader | AllianceHeader | BackupHeader {
    function Size(): (s: GroupingSize)
      ensures s != PvP
    {
      match this
      case SoloHeader => Solo
      case LightPartyHeader => LightParty
      case FullPartyHeader => FullParty
      case AllianceHeader => Alliance
      case BackupHeader => Backup
    }
  }

  const Headers: seq<Header> := [SoloHeader, LightPartyHeader, FullPartyHeader, AllianceHeader, BackupHeader]

  /** Whether a header is drawn as the active one, given the resolved layer:
      a preset header needs the master switch on, the Backup header is also
      active whenever the master switch is off. */
  predicate IsActive(c: Configuration, h: Header, active: GroupingSize) {
    if h == BackupHeader then active == Backup || !c.enabled
    else h.Size() == active && c.enabled
  }

  /** The layer in effect once the master switch is taken into account: the
      resolved layer, or Backup (the saved in-game settings) when disabled.
      It is the one layer whose header the window shows as active. */
  function EffectiveLayer(c: Configuration, size: GroupingSize, inDuty: bool): (g: GroupingSize)
    ensures forall h: Header :: IsActive(c, h, Resolve(c, size, inDuty)) <==> h.Size() == g
    ensures !c.enabled ==> g == Backup
    ensures c.enabled && inDuty ==> g == size
    ensures c.enabled && !inDuty ==> IsFallbackTarget(c, size, g)
  {
    if c.enabled then Resolve(c, size, inDuty) else Backup
  }

  /** Number of active headers among `hs`. */
  function CountActive(c: Configuration, active: GroupingSize, hs: seq<Header>): (n: nat)
    ensures n <= |hs|
  {
    if hs == [] then 0
    else (if IsActive(c, hs[0], active) then 1 else 0) + CountActive(c, active, hs[1..])
  }

  /** Exactly one header is active, except that none is when the master switch
      is on and the resolved layer is PvP, which has no header. */
  lemma ExactlyOneActiveHeader(c: Configuration, active: GroupingSize)
    ensures CountActive(c, active, Headers) == (if c.enabled && active == PvP then 0 else 1)
  {
    var h4 := [BackupHeader];
    var h3 := [AllianceHeader] + h4;
    var h2 := [FullPartyHeader] + h3;
    var h1 := [LightPartyHeader] + h2;
    assert Headers == [SoloHeader] + h1;
    assert h4[1..] == [] && h3[1..] == h4 && h2[1..] == h3 && h1[1..] == h2 && Headers[1..] == h1;
    var b := if IsActive(c, BackupHeader, active) then 1 else 0;
    assert CountActive(c, active, h4) == b;
    assert CountActive(c, active, h3) == (if IsActive(c, AllianceHeader, active) then 1 else 0) + b;
    assert CountActive(c, active, h2) == (if IsActive(c, FullPartyHeader, active) then 1 else 0)
                                         + CountActive(c, active, h3);
    assert CountActive(c, active, h1) == (if IsActive(c, LightPartyHeader, active) then 1 else 0)
                                         + CountActive(c, active, h2);
    assert CountActive(c, active, Headers) == (if IsActive(c, SoloHeader, active) then 1 else 0)
                                              + CountActive(c, active, h1);
  }

  /** A header's group: the table edits are written into the layer in place; any
      reported change requests a save, and pushes the layer to the game when
      the header is active. */
  function DrawGroupingSizeGroup(c: Configuration, h: Header, input: TableInput, isActive: bool): (r: FrameResult)
    ensures r.saveRequested <==> AnyReported(LayerFor(c, h.Size()), input)
    ensures r.pushed.Some? <==> r.saveRequested && isActive
    ensures r.pushed.Some? ==> r.pushed.value == LayerFor(c, h.Size()).size
    ensures !r.saveRequested ==> r.config == c
    ensures forall s :: s != h.Size() ==> LayerFor(r.config, s) == LayerFor(c, s)
    ensures LayerFor(r.config, h.Size()) == DrawTableGroup(LayerFor(c, h.Size()), input).layer
    ensures r.config.enabled == c.enabled && r.config.debugPartySize == c.debugPartySize
    ensures Valid(c) ==> Valid(r.config)
  {
    var l := LayerFor(c, h.Size());
    var d := DrawTableGroup(l, input);
    if d.changed then
      FrameResult(SetLayer(c, h.Size(), d.layer), true, if isActive then Some(d.layer.size) else Option.None)
    else
      FrameResult(c, false, Option.None)
  }

  /** One frame of the window in which the user works in header `h`: the layer
      in effect is resolved once, the header's activity follows from it, and
      the header's group is drawn. A reported change is always saved. It
      reaches the game exactly when the edited layer was the effective one
      when the frame began, that is before the edit: the activity test is not
      repeated after the tables are drawn. Without a report nothing happens. */
  function Draw(c: Configuration, groupSize: GroupingSize, boundByDuty: bool, h: Header, input: TableInput)
    : (r: FrameResult)
    ensures r.saveRequested <==> AnyReported(LayerFor(c, h.Size()), input)
    ensures r.pushed.Some? <==> r.saveRequested && h.Size() == EffectiveLayer(c, groupSize, boundByDuty)
    ensures r.pushed.Some? ==> r.pushed.value == LayerFor(c, h.Size()).size
    ensures Valid(c) && r.pushed.Some? ==> r.pushed.value == h.Size()
    ensures !r.saveRequested ==> r.config == c && r.pushed.None?
    ensures LayerFor(r.config, h.Size()) == DrawTableGroup(LayerFor(c, h.Size()), input).layer
    ensures forall s :: s != h.Size() ==> LayerFor(r.config, s) == LayerFor(c, s)
    ensures r.config.enabled == c.enabled && r.config.debugPartySize == c.debugPartySize
  {
    var active := Resolve(c, groupSize, boundByDuty);
    DrawGroupingSizeGroup(c, h, input, IsActive(c, h, active))
  }

  /** A table input in which only the only-in-duty checkbox is clicked. */
  function CheckboxClickOnly(tab: Tab): TableInput {
    TableInput(tab, Option.None, Option.None, Option.None, Option.None, Option.None, Option.None,
               Option.None, Option.None, Option.None, Option.None, Option.None, true)
  }

  /** Because the push decision uses the resolution from the start of the
      frame, switching on "only in duty" for the Solo layer while solo outside
      a duty still pushes Solo to the game, although the stored settings now
      resolve solo play to Backup. */
  lemma StalePushAfterOwnFlagSet(c: Configuration, tab: Tab)
    requires Valid(c) && c.enabled
    requires !c.solo.onlyInDuty && !c.backup.onlyInDuty
    ensures var r := Draw(c, Solo, false, SoloHeader, CheckboxClickOnly(tab));
      && r.saveRequested && r.pushed == Some(Solo)
      && r.config.solo.onlyInDuty
      && Resolve(r.config, Solo, false) == Backup
  {
  }

  /** The converse: clearing the light-party layer's "only in duty" flag while
      in a light party outside a duty makes it the resolved layer, yet nothing
      is pushed, because at the start of the frame the layer was not in effect. */
  lemma NoPushWhenEditBringsLayerIntoEffect(c: Configuration, tab: Tab)
    requires Valid(c) && c.enabled
    requires c.lightParty.onlyInDuty && !c.solo.onlyInDuty
    ensures var r := Draw(c, LightParty, false, LightPartyHeader, CheckboxClickOnly(tab));
      && r.saveRequested && r.pushed.None?
      && !r.config.lightParty.onlyInDuty
      && Resolve(c, LightParty, false) == Solo
      && Resolve(r.config, LightParty, false) == LightParty
  {
  }

  /** An edit to a layer other than the effective one is stored and saved but
      not pushed. */
  lemma InactiveEditStoredNotPushed(c: Configuration, groupSize: GroupingSize, boundByDuty: bool,
                                    h: Header, input: TableInput)
    requires Valid(c)
    requires h.Size() != EffectiveLayer(c, groupSize, boundByDuty)
    requires AnyReported(LayerFor(c, h.Size()), input)
    ensures Draw(c, groupSize, boundByDuty, h, input).saveRequested
    ensures Draw(c, groupSize, boundByDuty, h, input).pushed.None?
    ensures LayerFor(Draw(c, groupSize, boundByDuty, h, input).config, h.Size())
            == DrawTableGroup(LayerFor(c, h.Size()), input).layer
  {
  }

  // ---------------------------------------------------------------------------
  // Debug section
  // ---------------------------------------------------------------------------

  /** The party-size input of the debug section: a reported value is stored
      clamped at zero and saved. */
  function DrawDebugSection(c: Configuration, psize: Option<int>): (r: FrameResult)
    ensures psize.Some? ==> r.config.debugPartySize >= 0 && r.saveRequested
    ensures psize.Some? && psize.value >= 0 ==> r.config.debugPartySize == psize.value
    ensures psize.Some? && psize.value < 0 ==> r.config.debugPartySize == 0
    ensures psize.None? ==> r.config == c && !r.saveRequested
    ensures r.config.(debugPartySize := c.debugPartySize) == c
    ensures r.pushed.None?
  {
    match psize
    case Some(p) => FrameResult(c.(debugPartySize := if p > 0 then p else 0), true, Option.None)
    case None => FrameResult(c, false, Option.None)
  }

  // ---------------------------------------------------------------------------
  // Sequences of frames
  // ---------------------------------------------------------------------------

  /** One frame's interaction: work in a header, or type a debug party size. */
  datatype Interaction =
    | HeaderEdit(groupSize: GroupingSize, boundByDuty: bool, header: Header, input: TableInput)
    | DebugPartySizeEdit(psize: int)

  /** The effect of one frame's interaction. */
  function Step(c: Configuration, i: Interaction): (r: FrameResult) {
    match i
    case HeaderEdit(g, d, h, input) => Draw(c, g, d, h, input)
    case DebugPartySizeEdit(p) => DrawDebugSection(c, Some(p))
  }

  /** The store after a sequence of frames. */
  function Run(c: Configuration, interactions: seq<Interaction>): (r: Configuration)
    decreases |interactions|
  {
    if interactions == [] then c
    else Run(Step(c, interactions[0]).config, interactions[1..])
  }

  /** The only-in-duty flags the window can never change: Backup and Alliance
      have no checkbox, PvP has no header. */
  predicate FixedFlags(c: Configuration, d: Configuration) {
    && c.backup.onlyInDuty == d.backup.onlyInDuty
    && c.alliance.onlyInDuty == d.alliance.onlyInDuty
    && c.pvp.onlyInDuty == d.pvp.onlyInDuty
  }

  /** A frame keeps the store valid and leaves the Backup, Alliance and PvP
      flags alone. */
  lemma StepKeepsFixedFlags(c: Configuration, i: Interaction)
    requires Valid(c)
    ensures Valid(Step(c, i).config)
    ensures FixedFlags(c, Step(c, i).config)
  {
  }

  /** Any sequence of frames keeps the store valid (in particular the debug
      party size is never negative) and the Backup, Alliance and PvP flags as
      they were. */
  lemma {:induction false} RunKeepsFixedFlags(c: Configuration, interactions: seq<Interaction>)
    requires Valid(c)
    ensures Valid(Run(c, interactions))
    ensures FixedFlags(c, Run(c, interactions))
    decreases |interactions|
  {
    if interactions != [] {
      StepKeepsFixedFlags(c, interactions[0]);
      RunKeepsFixedFlags(Step(c, interactions[0]).config, interactions[1..]);
    }
  }

  /** From a newly constructed configuration, whatever the user does in the
      window, Alliance and PvP resolve to themselves outside a duty and the
      resolved layer is never a flagged one. */
  lemma ReachableResolution(isFresh: bool, src: LiveSource, interactions: seq<Interaction>, size: GroupingSize)
    requires isFresh ==> SourceInRange(src)
    ensures var c := Run(NewConfiguration(isFresh, src), interactions);
      && Resolve(c, Alliance, false) == Alliance
      && Resolve(c, PvP, false) == PvP
      && !LayerFor(c, Resolve(c, size, false)).onlyInDuty
  {
    var c0 := NewConfiguration(isFresh, src);
    assert SameUnseeded(LayerFor(c0, Backup), DefaultLayer(Backup));
    assert SameUnseeded(LayerFor(c0, Alliance), DefaultLayer(Alliance));
    assert SameUnseeded(LayerFor(c0, PvP), DefaultLayer(PvP));
    RunKeepsFixedFlags(c0, interactions);
  }
}
