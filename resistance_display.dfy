/** The defending view (src/components/resistance-display.tsx): the
  * attackers that hit a fixed defender for 2x, 0.5x and 0x, the label of
  * the explanation dialog, and the click that opens it. */
module ResistanceDisplay {
  import opened Wrappers
  import opened SeqUtil
  import opened PokemonData
  import opened Matchups

  /** `TYPE_CHART[attacker][defender]` as a function of the attacker. */
  function Against(defender: string): string -> real {
    a => ChartEntry(a, defender)
  }

  /** The `matchups` memo (lines 159-177) for a roster defender. */
  method ComputeMatchups(defender: string) returns (b: Buckets)
    requires defender in TypeNames
    ensures b == Bucketed(TypeNames, Against(defender))
  {
    b := Partition(TypeNames, Against(defender));
  }

  /** `weaknesses`, `resistances` and `immunities` hold exactly the roster
    * attackers whose chart value against the defender is 2, 0.5 and 0, so an attacker of value 1
    * is in none and no attacker is in two (`TypeChartDense`: on roster pairs
    * the chart value is `TYPE_CHART`'s entry). */
  lemma MatchupsExact(defender: string)
    requires defender in TypeNames
    ensures var b := Bucketed(TypeNames, Against(defender));
      && (forall a :: a in b.double <==> a in TypeNames && ChartEntry(a, defender) == 2.0)
      && (forall a :: a in b.half <==> a in TypeNames && ChartEntry(a, defender) == 0.5)
      && (forall a :: a in b.zero <==> a in TypeNames && ChartEntry(a, defender) == 0.0)
  {
    BucketedShape(TypeNames, Against(defender));
  }

  /** Each list is in roster order, without repeats. */
  lemma MatchupsInRosterOrder(defender: string)
    requires defender in TypeNames
    ensures var b := Bucketed(TypeNames, Against(defender));
      && IsSubsequence(b.double, TypeNames) && IsSubsequence(b.half, TypeNames) && IsSubsequence(b.zero, TypeNames)
      && Distinct(b.double) && Distinct(b.half) && Distinct(b.zero)
  {
    BucketedShape(TypeNames, Against(defender));
    RosterDistinct();
  }

  /** Fire on Fire is listed at 0.5 in the exception table. */
  lemma FireOnFire()
    ensures ChartEntry("Fire", "Fire") == 0.5
  {
  }

  /** A type can resist itself: Fire is among Fire's resistances. */
  lemma FireResistsFire()
    ensures "Fire" in Bucketed(TypeNames, Against("Fire")).half
  {
    FireOnFire();
    assert "Fire" in TypeNames by { assert TypeNames[1] == "Fire"; }
    InBucket(TypeNames, Against("Fire"), 0.5, "Fire");
  }

  /** The badge of `ExplanationModal` (lines 106-110): the `TYPE_CHART` value
    * for the selected attacker with its label, which is what
    * `getEffectiveness` says; 1 and 'Normal' when none is selected, in
    * which case the badge is not rendered (line 124). */
  function ModalEffect(attacker: Option<string>, defender: string): (e: Effect)
    requires attacker.Some? ==> attacker.value in TypeNames
    requires defender in TypeNames
    ensures attacker.Some? ==> e == Effectiveness(attacker.value, defender)
    ensures attacker.None? ==> e == Effect(1.0, "Normal")
  {
    var m := if attacker.Some? then TypeChartDense(attacker.value, defender); TypeChart()[attacker.value][defender] else 1.0;
    Effect(m,
      if m == 2.0 then "Super Effective"
      else if m == 0.5 then "Not Very Effective"
      else if m == 0.0 then "No Effect"
      else "Normal")
  }

  /** The dialog state of `ResistanceDisplay` (lines 154-157). */
  class Display {
    var modalOpen: bool
    var selectedAttacker: Option<string>

    /** Closed, nothing selected. */
    constructor ()
      ensures !modalOpen && selectedAttacker == None
    {
      modalOpen := false;
      selectedAttacker := None;
    }

    /** `handleTypeClick` (lines 179-182): select the attacker and open the dialog. */
    method HandleTypeClick(t: string)
      modifies this
      ensures selectedAttacker == Some(t) && modalOpen
    {
      selectedAttacker := Some(t);
      modalOpen := true;
    }

    /** `onClose` (line 211): close the dialog, keeping the selection. */
    method Close()
      modifies this
      ensures !modalOpen && selectedAttacker == old(selectedAttacker)
    {
      modalOpen := false;
    }
  }
}
