/**
 The enumerations of the plugin. Each C# enum becomes a datatype whose
 constructors appear in declaration order; `Ordinal` is the enum's
 underlying integer value and `FromOrdinal` the (checked) cast back.
 */
module Enums {

  /** Grouping context of the player. The declaration order is the fallback
      order: resolution outside a duty steps toward `Backup`. */
  datatype GroupingSize = Backup | Solo | LightParty | FullParty | Alliance | PvP {

    function Ordinal(): (n: nat)
      ensures n < 6
    {
      match this
      case Backup => 0
      case Solo => 1
      case LightParty => 2
      case FullParty => 3
      case Alliance => 4
      case PvP => 5
    }

    static function FromOrdinal(n: nat): (s: GroupingSize)
      requires n < 6
      ensures s.Ordinal() == n
    {
      if n == 0 then GroupingSize.Backup
      else if n == 1 then GroupingSize.Solo
      else if n == 2 then GroupingSize.LightParty
      else if n == 3 then GroupingSize.FullParty
      else if n == 4 then GroupingSize.Alliance
      else GroupingSize.PvP
    }

    /** `size - 1`: the next lower grouping size, defined for every size but `Backup`. */
    function Pred(): (p: GroupingSize)
      requires this != Backup
      ensures p.Ordinal() + 1 == Ordinal()
    {
      FromOrdinal(Ordinal() - 1)
    }
  }

  /** Battle-effect visibility. */
  datatype BattleEffect = All | Limited | None {

    function Ordinal(): (n: nat)
      ensures n < 3
    {
      match this
      case All => 0
      case Limited => 1
      case None => 2
    }

    static function FromOrdinal(n: nat): (e: BattleEffect)
      requires n < 3
      ensures e.Ordinal() == n
    {
      if n == 0 then BattleEffect.All else if n == 1 then BattleEffect.Limited else BattleEffect.None
    }
  }

  /** Nameplate visibility; note `OutofBattle` comes last, after `Never`. */
  datatype NameplateVisibility = Always | DuringBattle | WhenTargeted | Never | OutofBattle {

    function Ordinal(): (n: nat)
      ensures n < 5
    {
      match this
      case Always => 0
      case DuringBattle => 1
      case WhenTargeted => 2
      case Never => 3
      case OutofBattle => 4
    }

    static function FromOrdinal(n: nat): (v: NameplateVisibility)
      requires n < 5
      ensures v.Ordinal() == n
    {
      if n == 0 then NameplateVisibility.Always
      else if n == 1 then NameplateVisibility.DuringBattle
      else if n == 2 then NameplateVisibility.WhenTargeted
      else if n == 3 then NameplateVisibility.Never
      else NameplateVisibility.OutofBattle
    }
  }

  /** Nameplate HP-bar visibility. */
  datatype NameplateHpBarVisibility = Always | DuringBattle | WhenHpNotFull | Never {

    function Ordinal(): (n: nat)
      ensures n < 4
    {
      match this
      case Always => 0
      case DuringBattle => 1
      case WhenHpNotFull => 2
      case Never => 3
    }

    static function FromOrdinal(n: nat): (v: NameplateHpBarVisibility)
      requires n < 4
      ensures v.Ordinal() == n
    {
      if n == 0 then NameplateHpBarVisibility.Always
      else if n == 1 then NameplateHpBarVisibility.DuringBattle
      else if n == 2 then NameplateHpBarVisibility.WhenHpNotFull
      else NameplateHpBarVisibility.Never
    }
  }

  /** Nameplate visibility of an engaged enemy. */
  datatype EngagedEnemyNameplateVisibility = Always | WhenTargeted | Never {

    function Ordinal(): (n: nat)
      ensures n < 3
    {
      match this
      case Always => 0
      case WhenTargeted => 1
      case Never => 2
    }

    static function FromOrdinal(n: nat): (v: EngagedEnemyNameplateVisibility)
      requires n < 3
      ensures v.Ordinal() == n
    {
      if n == 0 then EngagedEnemyNameplateVisibility.Always
      else if n == 1 then EngagedEnemyNameplateVisibility.WhenTargeted
      else EngagedEnemyNameplateVisibility.Never
    }
  }

  /** HP-bar visibility of an engaged enemy. */
  datatype EngagedEnemyHpBarVisibility = Always | WhenHpNotFull | Never {

    function Ordinal(): (n: nat)
      ensures n < 3
    {
      match this
      case Always => 0
      case WhenHpNotFull => 1
      case Never => 2
    }

    static function FromOrdinal(n: nat): (v: EngagedEnemyHpBarVisibility)
      requires n < 3
      ensures v.Ordinal() == n
    {
      if n == 0 then EngagedEnemyHpBarVisibility.Always
      else if n == 1 then EngagedEnemyHpBarVisibility.WhenHpNotFull
      else EngagedEnemyHpBarVisibility.Never
    }
  }

  /** The game's object-highlight colour, used as an opaque enumeration with
      the seven entries the highlight combo box offers. */
  datatype ObjectHighlightColor = None | Red | Green | Blue | Yellow | Orange | Magenta {

    function Ordinal(): (n: nat)
      ensures n < 7
    {
      match this
      case None => 0
      case Red => 1
      case Green => 2
      case Blue => 3
      case Yellow => 4
      case Orange => 5
      case Magenta => 6
    }

    static function FromOrdinal(n: nat): (c: ObjectHighlightColor)
      requires n < 7
      ensures c.Ordinal() == n
    {
      if n == 0 then ObjectHighlightColor.None
      else if n == 1 then ObjectHighlightColor.Red
      else if n == 2 then ObjectHighlightColor.Green
      else if n == 3 then ObjectHighlightColor.Blue
      else if n == 4 then ObjectHighlightColor.Yellow
      else if n == 5 then ObjectHighlightColor.Orange
      else ObjectHighlightColor.Magenta
    }
  }

  /** The grouping sizes are totally ordered by ordinal, Backup lowest and
      PvP highest, and the ordinal determines the size. */
  lemma GroupingSizeOrder()
    ensures Backup.Ordinal() == 0 && PvP.Ordinal() == 5
    ensures Backup.Ordinal() < Solo.Ordinal() < LightParty.Ordinal()
            < FullParty.Ordinal() < Alliance.Ordinal() < PvP.Ordinal()
    ensures forall s: GroupingSize :: GroupingSize.FromOrdinal(s.Ordinal()) == s
  {
  }

  /** Equal ordinals mean equal sizes. */
  lemma GroupingSizeOrdinalInjective(a: GroupingSize, b: GroupingSize)
    ensures a.Ordinal() == b.Ordinal() <==> a == b
  {
  }

  /** Stepping down from any size but Backup stays inside the enumeration and
      lands on the size immediately below. */
  lemma PredIsNextLower(s: GroupingSize)
    requires s != Backup
    ensures s.Pred().Ordinal() < s.Ordinal()
    ensures forall t: GroupingSize :: t.Ordinal() < s.Ordinal() ==> t.Ordinal() <= s.Pred().Ordinal()
  {
  }

  /** BattleEffect has exactly the three values 0..2, 0 being All. */
  lemma BattleEffectValues()
    ensures forall e: BattleEffect :: BattleEffect.FromOrdinal(e.Ordinal()) == e
    ensures BattleEffect.FromOrdinal(0) == BattleEffect.All
  {
  }

  /** NameplateVisibility has exactly the five values 0..4, with OutofBattle at 4, after Never. */
  lemma NameplateVisibilityValues()
    ensures forall v: NameplateVisibility :: NameplateVisibility.FromOrdinal(v.Ordinal()) == v
    ensures NameplateVisibility.Never.Ordinal() == 3
    ensures NameplateVisibility.OutofBattle.Ordinal() == 4
  {
  }

  /** NameplateHpBarVisibility has exactly the four values 0..3. */
  lemma NameplateHpBarVisibilityValues()
    ensures forall v: NameplateHpBarVisibility :: NameplateHpBarVisibility.FromOrdinal(v.Ordinal()) == v
    ensures NameplateHpBarVisibility.FromOrdinal(0) == NameplateHpBarVisibility.Always
  {
  }

  /** Each engaged-enemy enumeration has exactly the three values 0..2, 0 being Always. */
  lemma EngagedEnemyValues()
    ensures forall v: EngagedEnemyNameplateVisibility :: EngagedEnemyNameplateVisibility.FromOrdinal(v.Ordinal()) == v
    ensures forall v: EngagedEnemyHpBarVisibility :: EngagedEnemyHpBarVisibility.FromOrdinal(v.Ordinal()) == v
    ensures EngagedEnemyNameplateVisibility.FromOrdinal(0) == EngagedEnemyNameplateVisibility.Always
    ensures EngagedEnemyHpBarVisibility.FromOrdinal(0) == EngagedEnemyHpBarVisibility.Always
  {
  }

  /** ObjectHighlightColor has exactly the seven values 0..6, 0 being None. */
  lemma ObjectHighlightColorValues()
    ensures forall c: ObjectHighlightColor :: ObjectHighlightColor.FromOrdinal(c.Ordinal()) == c
    ensures ObjectHighlightColor.FromOrdinal(0) == ObjectHighlightColor.None
  {
  }
}
