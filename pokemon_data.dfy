/** The type roster, the damage chart and the effectiveness engine
  * (src/lib/pokemon-data.ts). Multipliers are exact dyadic values and are
  * modelled as `real`. */
module PokemonData {
  import opened Wrappers
  import opened SeqUtil

  /** An entry of `POKEMON_TYPES`: a type name and its badge colour. */
  datatype TypeInfo = TypeInfo(name: string, color: string)

  /** `POKEMON_TYPES`, in roster order. */
  const PokemonTypes: seq<TypeInfo> := [
    TypeInfo("Normal", "#A8A77A"),
    TypeInfo("Fire", "#EE8130"),
    TypeInfo("Water", "#6390F0"),
    TypeInfo("Electric", "#F7D02C"),
    TypeInfo("Grass", "#7AC74C"),
    TypeInfo("Ice", "#96D9D6"),
    TypeInfo("Fighting", "#C22E28"),
    TypeInfo("Poison", "#A33EA1"),
    TypeInfo("Ground", "#E2BF65"),
    TypeInfo("Flying", "#A98FF3"),
    TypeInfo("Psychic", "#F95587"),
    TypeInfo("Bug", "#A6B91A"),
    TypeInfo("Rock", "#B6A136"),
    TypeInfo("Ghost", "#735797"),
    TypeInfo("Dragon", "#6F35FC"),
    TypeInfo("Dark", "#705746"),
    TypeInfo("Steel", "#B7B7CE"),
    TypeInfo("Fairy", "#D685AD")
  ]

  /** `types`: the names of the roster, in roster order (see RosterDistinct). */
  const TypeNames: seq<string> := [
    "Normal", "Fire", "Water", "Electric", "Grass", "Ice", "Fighting", "Poison", "Ground",
    "Flying", "Psychic", "Bug", "Rock", "Ghost", "Dragon", "Dark", "Steel", "Fairy"
  ]

  /** The sparse exception table `chart`: attacker, then defender, to a
    * multiplier other than 1. */
  const Chart: map<string, map<string, real>> := map[
    "Normal" := map["Rock" := 0.5, "Ghost" := 0.0, "Steel" := 0.5],
    "Fire" := map["Fire" := 0.5, "Water" := 0.5, "Grass" := 2.0, "Ice" := 2.0, "Bug" := 2.0, "Rock" := 0.5, "Dragon" := 0.5, "Steel" := 2.0],
    "Water" := map["Fire" := 2.0, "Water" := 0.5, "Grass" := 0.5, "Ground" := 2.0, "Rock" := 2.0, "Dragon" := 0.5],
    "Electric" := map["Water" := 2.0, "Electric" := 0.5, "Grass" := 0.5, "Ground" := 0.0, "Flying" := 2.0, "Dragon" := 0.5],
    "Grass" := map["Fire" := 0.5, "Water" := 2.0, "Grass" := 0.5, "Poison" := 0.5, "Ground" := 2.0, "Flying" := 0.5, "Bug" := 0.5, "Rock" := 2.0, "Dragon" := 0.5, "Steel" := 0.5],
    "Ice" := map["Fire" := 0.5, "Water" := 0.5, "Grass" := 2.0, "Ice" := 0.5, "Ground" := 2.0, "Flying" := 2.0, "Dragon" := 2.0, "Steel" := 0.5],
    "Fighting" := map["Normal" := 2.0, "Ice" := 2.0, "Poison" := 0.5, "Flying" := 0.5, "Psychic" := 0.5, "Bug" := 0.5, "Rock" := 2.0, "Ghost" := 0.0, "Dark" := 2.0, "Steel" := 2.0, "Fairy" := 0.5],
    "Poison" := map["Grass" := 2.0, "Poison" := 0.5, "Ground" := 0.5, "Rock" := 0.5, "Ghost" := 0.5, "Steel" := 0.0, "Fairy" := 2.0],
    "Ground" := map["Fire" := 2.0, "Electric" := 2.0, "Grass" := 0.5, "Poison" := 2.0, "Flying" := 0.0, "Bug" := 0.5, "Rock" := 2.0, "Steel" := 2.0],
    "Flying" := map["Electric" := 0.5, "Grass" := 2.0, "Fighting" := 2.0, "Bug" := 2.0, "Rock" := 0.5, "Steel" := 0.5],
    "Psychic" := map["Fighting" := 2.0, "Poison" := 2.0, "Psychic" := 0.5, "Dark" := 0.0, "Steel" := 0.5],
    "Bug" := map["Fire" := 0.5, "Grass" := 2.0, "Fighting" := 0.5, "Poison" := 0.5, "Flying" := 0.5, "Psychic" := 2.0, "Ghost" := 0.5, "Dark" := 2.0, "Steel" := 0.5, "Fairy" := 0.5],
    "Rock" := map["Fire" := 2.0, "Ice" := 2.0, "Fighting" := 0.5, "Ground" := 0.5, "Flying" := 2.0, "Bug" := 2.0, "Steel" := 0.5],
    "Ghost" := map["Normal" := 0.0, "Psychic" := 2.0, "Ghost" := 2.0, "Dark" := 0.5],
    "Dragon" := map["Dragon" := 2.0, "Steel" := 0.5, "Fairy" := 0.0],
    "Dark" := map["Fighting" := 0.5, "Psychic" := 2.0, "Ghost" := 2.0, "Dark" := 0.5, "Fairy" := 0.5],
    "Steel" := map["Fire" := 0.5, "Water" := 0.5, "Electric" := 0.5, "Ice" := 2.0, "Rock" := 2.0, "Steel" := 0.5, "Fairy" := 2.0],
    "Fairy" := map["Fire" := 0.5, "Fighting" := 2.0, "Poison" := 0.5, "Dragon" := 2.0, "Dark" := 2.0, "Steel" := 0.5]
  ]

  /** A single-type multiplier: what the chart can hold. */
  predicate IsSingleMultiplier(m: real) {
    m == 0.0 || m == 0.5 || m == 1.0 || m == 2.0
  }

  /** `exceptions[attacker]?.[defender] ?? 1`: the listed exception, else 1. */
  function ExceptionOr1(exceptions: map<string, map<string, real>>, attacker: string, defender: string): real {
    if attacker in exceptions && defender in exceptions[attacker] then exceptions[attacker][defender] else 1.0
  }

  /** One row of a dense chart: every defender of `names` to its exception or 1. */
  function Row(names: seq<string>, exceptions: map<string, map<string, real>>, attacker: string): map<string, real> {
    map d | d in names :: ExceptionOr1(exceptions, attacker, d)
  }

  /** A chart made dense: every pair of `names` maps to its exception or 1. */
  function Densified(names: seq<string>, exceptions: map<string, map<string, real>>): map<string, map<string, real>> {
    map a | a in names :: Row(names, exceptions, a)
  }

  /** The inner `forEach` of the densifying loops: the row of one attacker,
    * built defender by defender. */
  method DenseRow(names: seq<string>, exceptions: map<string, map<string, real>>, attacker: string)
    returns (row: map<string, real>)
    ensures row == Row(names, exceptions, attacker)
  {
    row := map[];
    var j := 0;
    while j < |names|
      invariant 0 <= j <= |names|
      invariant forall d :: d in row <==> d in names[..j]
      invariant forall d | d in row :: row[d] == ExceptionOr1(exceptions, attacker, d)
    {
      row := row[names[j] := ExceptionOr1(exceptions, attacker, names[j])];
      assert names[..j + 1] == names[..j] + [names[j]];
      j := j + 1;
    }
    assert names[..j] == names;
  }

  /** The densifying loops that build `TYPE_CHART`: for every attacker, an
    * empty row, then for every defender the exception or the default 1. */
  method Densify(names: seq<string>, exceptions: map<string, map<string, real>>)
    returns (dense: map<string, map<string, real>>)
    ensures dense == Densified(names, exceptions)
  {
    dense := map[];
    var i := 0;
    while i < |names|
      invariant 0 <= i <= |names|
      invariant forall a :: a in dense <==> a in names[..i]
      invariant forall a | a in dense :: dense[a] == Row(names, exceptions, a)
    {
      var row := DenseRow(names, exceptions, names[i]);
      dense := dense[names[i] := row];
      assert names[..i + 1] == names[..i] + [names[i]];
      i := i + 1;
    }
    assert names[..i] == names;
  }

  /** A densified chart is total over `names` x `names` and holds nothing
    * else; each entry is the listed exception or 1. */
  lemma DensifiedShape(names: seq<string>, exceptions: map<string, map<string, real>>, a: string, d: string)
    ensures a in Densified(names, exceptions) <==> a in names
    ensures a in names ==> (d in Densified(names, exceptions)[a] <==> d in names)
    ensures a in names && d in names ==> Densified(names, exceptions)[a][d] == ExceptionOr1(exceptions, a, d)
  {
  }

  /** `chart[attacker]?.[defender] ?? 1` for the table of this module. */
  function ChartEntry(attacker: string, defender: string): real {
    ExceptionOr1(Chart, attacker, defender)
  }

  /** `TYPE_CHART`: the exception table made dense over roster x roster. */
  function TypeChart(): map<string, map<string, real>> {
    Densified(TypeNames, Chart)
  }

  /** `types` is `POKEMON_TYPES.map(t => t.name)`, and the roster holds 18 distinct names. */
  lemma RosterDistinct()
    ensures |TypeNames| == |PokemonTypes| == 18
    ensures forall i | 0 <= i < |PokemonTypes| :: TypeNames[i] == PokemonTypes[i].name
    ensures Distinct(TypeNames)
    ensures |set t | t in TypeNames| == 18
  {
    RosterNames();
    NamesDistinct();
    DistinctCard(TypeNames);
  }

  /** `types` lists the roster's names in roster order. */
  lemma RosterNames()
    ensures |TypeNames| == |PokemonTypes| == 18
    ensures forall i | 0 <= i < |PokemonTypes| :: TypeNames[i] == PokemonTypes[i].name
  {
  }

  /** A roster name's position, read off its length and first two
    * letters (18 for any other string). */
  function NameCode(s: string): nat {
    if |s| < 2 then 18
    else if |s| == 6 && s[0] == 'N' && s[1] == 'o' then 0
    else if |s| == 4 && s[0] == 'F' && s[1] == 'i' then 1
    else if |s| == 5 && s[0] == 'W' && s[1] == 'a' then 2
    else if |s| == 8 && s[0] == 'E' && s[1] == 'l' then 3
    else if |s| == 5 && s[0] == 'G' && s[1] == 'r' then 4
    else if |s| == 3 && s[0] == 'I' && s[1] == 'c' then 5
    else if |s| == 8 && s[0] == 'F' && s[1] == 'i' then 6
    else if |s| == 6 && s[0] == 'P' && s[1] == 'o' then 7
    else if |s| == 6 && s[0] == 'G' && s[1] == 'r' then 8
    else if |s| == 6 && s[0] == 'F' && s[1] == 'l' then 9
    else if |s| == 7 && s[0] == 'P' && s[1] == 's' then 10
    else if |s| == 3 && s[0] == 'B' && s[1] == 'u' then 11
    else if |s| == 4 && s[0] == 'R' && s[1] == 'o' then 12
    else if |s| == 5 && s[0] == 'G' && s[1] == 'h' then 13
    else if |s| == 6 && s[0] == 'D' && s[1] == 'r' then 14
    else if |s| == 4 && s[0] == 'D' && s[1] == 'a' then 15
    else if |s| == 5 && s[0] == 'S' && s[1] == 't' then 16
    else if |s| == 5 && s[0] == 'F' && s[1] == 'a' then 17
    else 18
  }

  /** Each name's code is its position in the roster. */
  lemma NameCodes()
    ensures forall i | 0 <= i < |TypeNames| :: NameCode(TypeNames[i]) == i
  {
  }

  /** No name appears twice. */
  lemma NamesDistinct()
    ensures Distinct(TypeNames)
  {
    NameCodes();
  }

  /** `types.filter(t => t !== attacker)`: the roster without the attacker,
    * in roster order. */
  function OtherTypes(attacker: string): (cs: seq<string>)
    ensures Distinct(cs)
    ensures forall t | t in cs :: t in TypeNames && t != attacker
    ensures forall t | t in TypeNames && t != attacker :: t in cs
  {
    var other := t => t != attacker;
    RosterDistinct();
    FilterInOrder(TypeNames, other);
    Filter(TypeNames, other)
  }

  /** At least 17 defenders are left once the attacker is taken out of the
    * roster of 18 (all 18 when the attacker is not a roster name). */
  lemma OtherTypesCount(attacker: string)
    ensures |set t | t in OtherTypes(attacker)| >= 17
  {
    RosterDistinct();
    AllButOne(TypeNames, attacker, OtherTypes(attacker));
  }

  /** Every name the exception table mentions is a roster name. */
  lemma ExceptionTableNames()
    ensures forall a | a in Chart :: a in TypeNames
    ensures forall a, d | a in Chart && d in Chart[a] :: d in TypeNames
  {
  }

  /** Every listed exception is 0, 0.5 or 2 (never the default 1). */
  lemma ExceptionTableWellFormed()
    ensures forall a, d | a in Chart && d in Chart[a] ::
      Chart[a][d] == 0.0 || Chart[a][d] == 0.5 || Chart[a][d] == 2.0
  {
  }

  /** `TYPE_CHART` is total over roster x roster, each entry is the listed
    * exception or 1, and every entry is 0, 0.5, 1 or 2. */
  lemma TypeChartDense(a: string, d: string)
    requires a in TypeNames && d in TypeNames
    ensures a in TypeChart() && d in TypeChart()[a]
    ensures TypeChart()[a][d] == if a in Chart && d in Chart[a] then Chart[a][d] else 1.0
    ensures IsSingleMultiplier(TypeChart()[a][d])
    ensures (a !in Chart || d !in Chart[a]) <==> TypeChart()[a][d] == 1.0
  {
    ExceptionTableWellFormed();
  }

  /** A multiplier together with the text the interface shows for it. */
  datatype Effect = Effect(multiplier: real, caption: string)

  /** The label `getEffectiveness` gives a single-type multiplier. */
  function SingleLabel(m: real): string {
    if m == 2.0 then "Super Effective"
    else if m == 0.5 then "Not Very Effective"
    else if m == 0.0 then "No Effect"
    else "Normal"
  }

  /** `getEffectiveness`, as the value it returns: a single-type
    * multiplier, labelled 'Normal' exactly when it is 1. */
  function Effectiveness(attacker: string, defender: string): (e: Effect)
    requires attacker in TypeNames && defender in TypeNames
    ensures IsSingleMultiplier(e.multiplier)
    ensures e.caption == "Normal" <==> e.multiplier == 1.0
  {
    ExceptionTableWellFormed();
    Effect(ChartEntry(attacker, defender), SingleLabel(ChartEntry(attacker, defender)))
  }

  /** `getEffectiveness` (lines 55-62): the chart value, then a label that
    * starts as 'Normal' and is overwritten by each matching test. */
  method GetEffectiveness(attacker: string, defender: string) returns (e: Effect)
    requires attacker in TypeNames && defender in TypeNames
    ensures e.multiplier == ChartEntry(attacker, defender)
    ensures e == Effectiveness(attacker, defender)
  {
    var multiplier := ChartEntry(attacker, defender);
    var caption := "Normal";
    if multiplier == 2.0 { caption := "Super Effective"; }
    if multiplier == 0.5 { caption := "Not Very Effective"; }
    if multiplier == 0.0 { caption := "No Effect"; }
    e := Effect(multiplier, caption);
  }

  /** The single-type label names the multiplier: each label holds for
    * exactly one chart value, 'Normal' for exactly 1. */
  lemma EffectivenessLabels(attacker: string, defender: string)
    requires attacker in TypeNames && defender in TypeNames
    ensures var e := Effectiveness(attacker, defender);
      && e.multiplier == ChartEntry(attacker, defender)
      && IsSingleMultiplier(e.multiplier)
      && (e.caption == "Super Effective" <==> e.multiplier == 2.0)
      && (e.caption == "Not Very Effective" <==> e.multiplier == 0.5)
      && (e.caption == "No Effect" <==> e.multiplier == 0.0)
      && (e.caption == "Normal" <==> e.multiplier == 1.0)
  {
    ExceptionTableWellFormed();
  }

  /** Sample matchups: Water on Fire, Water on Water, Normal on Ghost, Normal on Normal. */
  lemma EffectivenessExamples()
    ensures Effectiveness("Water", "Fire") == Effect(2.0, "Super Effective")
    ensures Effectiveness("Water", "Water") == Effect(0.5, "Not Very Effective")
    ensures Effectiveness("Normal", "Ghost") == Effect(0.0, "No Effect")
    ensures Effectiveness("Normal", "Normal") == Effect(1.0, "Normal")
  {
  }

  /** `TYPE_CHART[attacker]?.[defender] ?? 1`: one factor of a combined
    * multiplier; a name outside the roster contributes 1. */
  function Factor(attacker: string, defender: string): (f: real)
    ensures IsSingleMultiplier(f)
  {
    ExceptionTableWellFormed();
    if attacker in TypeNames && defender in TypeNames then ChartEntry(attacker, defender) else 1.0
  }

  /** Every factor is a single-type multiplier, and is 1 for an unknown name. */
  lemma FactorValues(attacker: string, defender: string)
    ensures IsSingleMultiplier(Factor(attacker, defender))
    ensures attacker !in TypeNames || defender !in TypeNames ==> Factor(attacker, defender) == 1.0
  {
    ExceptionTableWellFormed();
  }

  /** The factors of a defender list, in list order. */
  function Factors(attacker: string, defenders: seq<string>): (fs: seq<real>)
    ensures |fs| == |defenders|
    ensures forall i | 0 <= i < |defenders| :: fs[i] == Factor(attacker, defenders[i])
  {
    Map(FactorOf(attacker), defenders)
  }

  /** `defender => TYPE_CHART[attacker]?.[defender] ?? 1`, for one attacker. */
  function FactorOf(attacker: string): string -> real {
    d => Factor(attacker, d)
  }

  /** `reduce((acc, f) => acc * f, acc)`: the left fold over the factors. */
  function FoldProduct(acc: real, fs: seq<real>): real
    decreases |fs|
  {
    if fs == [] then acc else FoldProduct(acc * fs[0], fs[1..])
  }

  /** The product of the factors, as a plain recursive definition. */
  function Product(fs: seq<real>): real {
    if fs == [] then 1.0 else fs[0] * Product(fs[1..])
  }

  /** The fold computes `acc` times the product. */
  lemma {:induction false} FoldIsProduct(acc: real, fs: seq<real>)
    ensures FoldProduct(acc, fs) == acc * Product(fs)
    decreases |fs|
  {
    if fs != [] {
      FoldIsProduct(acc * fs[0], fs[1..]);
      assert (acc * fs[0]) * Product(fs[1..]) == acc * (fs[0] * Product(fs[1..]));
    }
  }

  /** Taking out the factor at position `k` divides it out of the product. */
  lemma {:induction false} ProductRemove(fs: seq<real>, k: nat)
    requires k < |fs|
    ensures Product(fs) == fs[k] * Product(fs[..k] + fs[k + 1..])
  {
    if k > 0 {
      var tail := fs[1..];
      ProductRemove(tail, k - 1);
      assert fs[..k] + fs[k + 1..] == [fs[0]] + (tail[..k - 1] + tail[k..]);
      var rest := Product(tail[..k - 1] + tail[k..]);
      assert fs[0] * (fs[k] * rest) == fs[k] * (fs[0] * rest);
    } else {
      assert fs[..k] + fs[k + 1..] == fs[1..];
    }
  }

  /** The product depends only on the multiset of factors, not on their order. */
  lemma {:induction false} ProductPermutation(xs: seq<real>, ys: seq<real>)
    requires multiset(xs) == multiset(ys)
    ensures Product(xs) == Product(ys)
    decreases |xs|
  {
    if xs == [] {
      assert |ys| == |multiset(ys)| == 0;
    } else {
      assert xs[0] in multiset(ys);
      var k :| 0 <= k < |ys| && ys[k] == xs[0];
      MultisetRemove(xs, ys, k);
      ProductPermutation(xs[1..], ys[..k] + ys[k + 1..]);
      ProductRemove(ys, k);
    }
  }

  /** The left fold from 1 does not depend on the order of the factors. */
  lemma FoldPermutation(xs: seq<real>, ys: seq<real>)
    requires multiset(xs) == multiset(ys)
    ensures FoldProduct(1.0, xs) == FoldProduct(1.0, ys)
  {
    FoldIsProduct(1.0, xs);
    FoldIsProduct(1.0, ys);
    ProductPermutation(xs, ys);
  }

  /** One or two single-type multipliers multiply to 0, 1/4, 1/2, 1, 2 or 4. */
  lemma ProductOfSingles(fs: seq<real>)
    requires 1 <= |fs| <= 2
    requires forall i | 0 <= i < |fs| :: IsSingleMultiplier(fs[i])
    ensures |fs| == 1 ==> IsSingleMultiplier(Product(fs))
    ensures var m := Product(fs);
      m == 0.0 || m == 0.25 || m == 0.5 || m == 1.0 || m == 2.0 || m == 4.0
  {
    if |fs| == 1 {
      assert Product(fs) == fs[0] * Product([]);
    } else {
      assert fs[1..][1..] == [];
      assert Product(fs) == fs[0] * (fs[1] * Product([]));
    }
  }

  /** A factor 0 makes the whole product 0. */
  lemma ZeroAbsorbs(fs: seq<real>, k: nat)
    requires k < |fs| && fs[k] == 0.0
    ensures Product(fs) == 0.0
  {
    ProductRemove(fs, k);
  }

  /** The label of a combined multiplier: one of six texts, or the generic
    * template for any other product. */
  datatype CombinedLabel =
    | Named(text: string)
    /** Stands for the text `${multiplier}x Damage`. */
    | Damage(multiplier: real)

  datatype CombinedEffect = CombinedEffect(multiplier: real, caption: CombinedLabel)

  /** The label `getCombinedEffectiveness` gives a product. */
  function CombinedLabelOf(m: real): CombinedLabel {
    if m == 0.0 then Named("No Effect")
    else if m == 0.25 then Named("0.25x Not Very Effective")
    else if m == 0.5 then Named("0.5x Not Very Effective")
    else if m == 1.0 then Named("Normal Damage")
    else if m == 2.0 then Named("2x Super Effective")
    else if m == 4.0 then Named("4x Super Effective")
    else Damage(m)
  }

  /** `getCombinedEffectiveness`, as the value it returns: the product of
    * the factors, 'No Effect' exactly when it is 0. */
  function CombinedEffectiveness(attacker: string, defenders: seq<string>): (e: CombinedEffect)
    ensures defenders == [] ==> e == CombinedEffect(1.0, Named("Normal"))
    ensures defenders != [] ==> e.multiplier == Product(Factors(attacker, defenders))
    ensures e.caption == Named("No Effect") <==> e.multiplier == 0.0
  {
    if |defenders| == 0 then CombinedEffect(1.0, Named("Normal"))
    else
      var m := FoldProduct(1.0, Factors(attacker, defenders));
      FoldIsProduct(1.0, Factors(attacker, defenders));
      CombinedEffect(m, CombinedLabelOf(m))
  }

  /** `getCombinedEffectiveness` (lines 64-85): the empty list is answered
    * early; otherwise the product, then a label that starts as the generic
    * template and is overwritten by each matching test. */
  method GetCombinedEffectiveness(attacker: string, defenders: seq<string>) returns (e: CombinedEffect)
    ensures defenders == [] ==> e == CombinedEffect(1.0, Named("Normal"))
    ensures defenders != [] ==> e.multiplier == Product(Factors(attacker, defenders))
    ensures e == CombinedEffectiveness(attacker, defenders)
  {
    if |defenders| == 0 {
      return CombinedEffect(1.0, Named("Normal"));
    }
    var multiplier := FoldProduct(1.0, Factors(attacker, defenders));
    FoldIsProduct(1.0, Factors(attacker, defenders));
    var caption := Damage(multiplier);
    if multiplier == 4.0 { caption := Named("4x Super Effective"); }
    if multiplier == 2.0 { caption := Named("2x Super Effective"); }
    if multiplier == 1.0 { caption := Named("Normal Damage"); }
    if multiplier == 0.5 { caption := Named("0.5x Not Very Effective"); }
    if multiplier == 0.25 { caption := Named("0.25x Not Very Effective"); }
    if multiplier == 0.0 { caption := Named("No Effect"); }
    e := CombinedEffect(multiplier, caption);
  }

  /** `getCombinedEffectiveness` does not depend on the order of the defenders. */
  lemma CombinedOrderIndependent(attacker: string, xs: seq<string>, ys: seq<string>)
    requires multiset(xs) == multiset(ys)
    ensures CombinedEffectiveness(attacker, xs) == CombinedEffectiveness(attacker, ys)
  {
    assert |xs| == |multiset(xs)| == |multiset(ys)| == |ys|;
    if xs != [] {
      MapPermutation(FactorOf(attacker), xs, ys);
      FoldPermutation(Factors(attacker, xs), Factors(attacker, ys));
    }
  }

  /** A defender that the attacker cannot touch forces multiplier 0 and 'No Effect'. */
  lemma ZeroFactorForcesNoEffect(attacker: string, defenders: seq<string>, k: nat)
    requires k < |defenders| && Factor(attacker, defenders[k]) == 0.0
    ensures CombinedEffectiveness(attacker, defenders) == CombinedEffect(0.0, Named("No Effect"))
  {
    FoldIsProduct(1.0, Factors(attacker, defenders));
    ZeroAbsorbs(Factors(attacker, defenders), k);
  }

  /** With one or two defenders the product is one of the six values that
    * have a fixed label, and the generic template is never used. */
  lemma CombinedValues(attacker: string, defenders: seq<string>)
    requires 1 <= |defenders| <= 2
    ensures var e := CombinedEffectiveness(attacker, defenders);
      && (|defenders| == 1 ==> IsSingleMultiplier(e.multiplier))
      && (e.multiplier == 0.0 || e.multiplier == 0.25 || e.multiplier == 0.5
          || e.multiplier == 1.0 || e.multiplier == 2.0 || e.multiplier == 4.0)
      && e.caption.Named?
  {
    var fs := Factors(attacker, defenders);
    FoldIsProduct(1.0, fs);
    forall i | 0 <= i < |fs| ensures IsSingleMultiplier(fs[i]) {
      FactorValues(attacker, defenders[i]);
    }
    ProductOfSingles(fs);
  }

  /** Ground cannot touch Flying: Ground against Flying/Fire is 0, 'No Effect'. */
  lemma CombinedExampleImmune()
    ensures CombinedEffectiveness("Ground", ["Flying", "Fire"]) == CombinedEffect(0.0, Named("No Effect"))
  {
    assert Factor("Ground", "Flying") == 0.0;
    ZeroFactorForcesNoEffect("Ground", ["Flying", "Fire"], 0);
  }

  /** The fold over two factors is their product. */
  lemma FoldOfTwo(fs: seq<real>)
    requires |fs| == 2
    ensures FoldProduct(1.0, fs) == fs[0] * fs[1]
  {
    FoldIsProduct(1.0, fs);
    assert Product(fs[1..]) == fs[1] * Product(fs[1..][1..]);
    assert fs[1..][1..] == [];
  }

  /** The fold over three factors is their product. */
  lemma FoldOfThree(fs: seq<real>)
    requires |fs| == 3
    ensures FoldProduct(1.0, fs) == fs[0] * (fs[1] * fs[2])
  {
    FoldIsProduct(1.0, fs);
    FoldIsProduct(1.0, fs[1..]);
    FoldOfTwo(fs[1..]);
  }

  /** The chart entries the examples use, one lookup each. */
  lemma WaterOnFire()
    ensures Factor("Water", "Fire") == 2.0
  {
    assert "Water" in TypeNames by { assert TypeNames[2] == "Water"; }
    assert "Fire" in TypeNames by { assert TypeNames[1] == "Fire"; }
  }

  lemma WaterOnGround()
    ensures Factor("Water", "Ground") == 2.0
  {
    assert "Water" in TypeNames by { assert TypeNames[2] == "Water"; }
    assert "Ground" in TypeNames by { assert TypeNames[8] == "Ground"; }
  }

  lemma WaterOnGrass()
    ensures Factor("Water", "Grass") == 0.5
  {
    assert "Water" in TypeNames by { assert TypeNames[2] == "Water"; }
    assert "Grass" in TypeNames by { assert TypeNames[4] == "Grass"; }
  }

  lemma WaterOnDragon()
    ensures Factor("Water", "Dragon") == 0.5
  {
    assert "Water" in TypeNames by { assert TypeNames[2] == "Water"; }
    assert "Dragon" in TypeNames by { assert TypeNames[14] == "Dragon"; }
  }

  lemma WaterOnWater()
    ensures Factor("Water", "Water") == 0.5
  {
    assert "Water" in TypeNames by { assert TypeNames[2] == "Water"; }
  }

  /** Water against Fire/Ground is 2 x 2 = 4, '4x Super Effective'. */
  lemma CombinedExampleDouble()
    ensures CombinedEffectiveness("Water", ["Fire", "Ground"]) == CombinedEffect(4.0, Named("4x Super Effective"))
  {
    var fs := Factors("Water", ["Fire", "Ground"]);
    WaterOnFire();
    WaterOnGround();
    FoldOfTwo(fs);
  }

  /** The empty list is answered 1 and 'Normal', not 'Normal Damage'. */
  lemma CombinedExampleEmpty()
    ensures CombinedEffectiveness("Fire", []) == CombinedEffect(1.0, Named("Normal"))
  {
  }

  /** Three defenders can reach a product with no fixed label:
    * Water against Grass/Dragon/Water is 0.125. */
  lemma CombinedExampleTemplate()
    ensures CombinedEffectiveness("Water", ["Grass", "Dragon", "Water"]) == CombinedEffect(0.125, Damage(0.125))
  {
    var fs := Factors("Water", ["Grass", "Dragon", "Water"]);
    WaterOnGrass();
    WaterOnDragon();
    WaterOnWater();
    FoldOfThree(fs);
  }

  /** `POKEMON_TYPES.find(t => t.name === name)`: the first entry with that name. */
  function FindType(types: seq<TypeInfo>, name: string): (r: Option<TypeInfo>)
    ensures r.Some? ==> r.value in types && r.value.name == name
    ensures r.None? ==> forall t | t in types :: t.name != name
  {
    if types == [] then None
    else if types[0].name == name then Some(types[0])
    else FindType(types[1..], name)
  }

  /** `getTypeColor`: the found entry's colour, or white when there is no
    * entry (or its colour is empty, as `||` treats it). */
  function TypeColor(name: string): (c: string)
    ensures c != ""
    ensures c == "#FFFFFF" || exists t | t in PokemonTypes :: t.name == name && t.color == c
  {
    match FindType(PokemonTypes, name)
    case Some(t) => if t.color != "" then t.color else "#FFFFFF"
    case None => "#FFFFFF"
  }

  /** `find` returns the first entry with the name. */
  lemma {:induction false} FindByName(types: seq<TypeInfo>, i: nat)
    requires i < |types|
    requires forall j | 0 <= j < i :: types[j].name != types[i].name
    ensures FindType(types, types[i].name) == Some(types[i])
  {
    if i > 0 {
      FindByName(types[1..], i - 1);
    }
  }

  /** Every roster entry has a colour. */
  lemma RosterColors()
    ensures forall t | t in PokemonTypes :: t.color != ""
  {
  }

  /** A roster name gets its own colour. */
  lemma TypeColorOfRoster(i: nat)
    requires i < |PokemonTypes|
    ensures TypeColor(PokemonTypes[i].name) == PokemonTypes[i].color
  {
    RosterDistinct();
    RosterColors();
    FindByName(PokemonTypes, i);
    assert PokemonTypes[i] in PokemonTypes;
  }

  /** Any name outside the roster gets white. */
  lemma TypeColorOfUnknown(name: string)
    requires name !in TypeNames
    ensures TypeColor(name) == "#FFFFFF"
  {
    RosterDistinct();
    forall t | t in PokemonTypes ensures t.name != name {
      var j :| 0 <= j < |PokemonTypes| && PokemonTypes[j] == t;
      assert t.name == TypeNames[j];
    }
    assert FindType(PokemonTypes, name).None?;
  }
}
