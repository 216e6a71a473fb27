/** The attacking view (src/components/effectiveness-display.tsx): the
  * defenders a fixed attacker hits for 2x, 0.5x and 0x, the label of the
  * explanation dialog, and the click that opens it. */
module EffectivenessDisplay {
  import opened Wrappers
  import opened SeqUtil
  import opened PokemonData
  import opened Matchups

  /** `TYPE_CHART[attacker][defender]` as a function of the defender. */
  function From(attacker: string): string -> real {
    d => ChartEntry(attacker, d)
  }

  /** The `matchups` memo (lines 158-176) for a roster attacker. */
  method ComputeMatchups(attacker: string) returns (b: Buckets)
    requires attacker in TypeNames
    ensures b == Bucketed(TypeNames, From(attacker))
  {
    b := Partition(TypeNames, From(attacker));
  }

  /** `superEffective`, `notVeryEffective` and `noEffect` hold exactly the roster
    * defenders whose chart value is 2, 0.5 and 0, so a defender of value 1
    * is in none and no defender is in two (`TypeChartDense`: on roster pairs
    * the chart value is `TYPE_CHART`'s entry). */
  lemma MatchupsExact(attacker: string)
    requires attacker in TypeNames
    ensures var b := Bucketed(TypeNames, From(attacker));
      && (forall d :: d in b.double <==> d in TypeNames && ChartEntry(attacker, d) == 2.0)
      && (forall d :: d in b.half <==> d in TypeNames && ChartEntry(attacker, d) == 0.5)
      && (forall d :: d in b.zero <==> d in TypeNames && ChartEntry(attacker, d) == 0.0)
  {
    BucketedShape(TypeNames, From(attacker));
  }

  /** Each list is in roster order, without repeats. */
  lemma MatchupsInRosterOrder(attacker: string)
    requires attacker in TypeNames
    ensures var b := Bucketed(TypeNames, From(attacker));
      && IsSubsequence(b.double, TypeNames) && IsSubsequence(b.half, TypeNames) && IsSubsequence(b.zero, TypeNames)
      && Distinct(b.double) && Distinct(b.half) && Distinct(b.zero)
  {
    BucketedShape(TypeNames, From(attacker));
    RosterDistinct();
  }

  /** The badge of `ExplanationModal` (lines 105-109): the `TYPE_CHART` value
    * for the selected defender with its label, which is what
    * `getEffectiveness` says; 1 and 'Normal' when none is selected. */
  function ModalEffect(attacker: string, defender: Option<string>): (e: Effect)
    requires attacker in TypeNames
    requires defender.Some? ==> defender.value in TypeNames
    ensures defender.Some? ==> e == Effectiveness(attacker, defender.value)
    ensures defender.None? ==> e == Effect(1.0, "Normal")
  {
    var m := if defender.Some? then TypeChartDense(attacker, defender.value); TypeChart()[attacker][defender.value] else 1.0;
    Effect(m,
      if m == 2.0 then "Super Effective"
      else if m == 0.5 then "Not Very Effective"
      else if m == 0.0 then "No Effect"
      else "Normal")
  }

  /** The dialog state of `EffectivenessDisplay` (lines 153-156). */
  class Display {
    var modalOpen: bool
    var selectedDefender: Option<string>

    /** Closed, nothing selected. */
    constructor ()
      ensures !modalOpen && selectedDefender == None
    {
      modalOpen := false;
      selectedDefender := None;
    }

    /** `handleTypeClick` (lines 178-181): select the defender and open the dialog. */
    method HandleTypeClick(t: string)
      modifies this
      ensures selectedDefender == Some(t) && modalOpen
    {
      selectedDefender := Some(t);
      modalOpen := true;
    }

    /** `onClose` (line 210): close the dialog, keeping the selection. */
    method Close()
      modifies this
      ensures !modalOpen && selectedDefender == old(selectedDefender)
    {
      modalOpen := false;
    }
  }
}
