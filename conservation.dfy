/**
 * What the weighting pass distributes is conserved: every `percentage *
 * amount` it adds lands in exactly one entry of the result set, so the
 * entries add up to the amounts of the matched funds weighted by the sum of
 * their numeric percentages.
 */
module Conservation {
  import opened Values
  import opened OrderedMaps
  import opened Weighting

  /** A number's value, with NaN counted as 0. */
  function AsReal(x: Num): real
  {
    if x.Val? then x.v else 0.0
  }

  /** The entries under one property type, added up. */
  function TypeTotal(m: OMap<Num>): real
  {
    Total(m, AsReal)
  }

  /** Every entry of the result set, added up. */
  function Grand(r: ResultSet): real
  {
    Total(r, TypeTotal)
  }

  /** What one property type of one fund distributes: every percentage weighted by the amount. */
  function DataMass(data: PropertyData, a: Num, parse: string -> Num): real
  {
    if data == [] then 0.0
    else DataMass(data[..|data| - 1], a, parse) + Weight(ParseFloat(parse, data[|data| - 1].1), a)
  }

  /** What one fund distributes over all its property types. */
  function FundMass(props: FundProperties, a: Num, parse: string -> Num): real
  {
    if props == [] then 0.0
    else FundMass(props[..|props| - 1], a, parse) + DataMass(props[|props| - 1].1, a, parse)
  }

  /** What the matched funds among `entries` distribute. */
  function Mass(entries: seq<(string, Num)>, config: Config, parse: string -> Num): real
  {
    if entries == [] then 0.0
    else
      var (fund, amount) := entries[|entries| - 1];
      Mass(entries[..|entries| - 1], config, parse) + (if fund in config then FundMass(config[fund], amount, parse) else 0.0)
  }

  /** The numeric percentages of one property type, added up. */
  function DataPercent(data: PropertyData, parse: string -> Num): real
  {
    if data == [] then 0.0
    else DataPercent(data[..|data| - 1], parse) + AsReal(ParseFloat(parse, data[|data| - 1].1))
  }

  /** The numeric percentages configured for one fund, added up over all its property types. */
  function FundPercent(props: FundProperties, parse: string -> Num): real
  {
    if props == [] then 0.0
    else FundPercent(props[..|props| - 1], parse) + DataPercent(props[|props| - 1].1, parse)
  }

  /** Setting `result[t][n]` to `v` replaces that entry's share of the grand total by `v`'s. */
  lemma GrandPut(r: ResultSet, t: string, n: string, v: Num)
    requires WellFormed(r) && t in r.at
    ensures Grand(r.Put(t, r.at[t].Put(n, v))) ==
              Grand(r) - (if n in r.at[t].at then AsReal(r.at[t].at[n]) else 0.0) + AsReal(v)
  {
    PutTotal(r.at[t], n, v, AsReal);
    PutTotal(r, t, r.at[t].Put(n, v), TypeTotal);
  }

  /** One innermost iteration adds its weight to the grand total, provided the entry it credits is a number. */
  lemma CreditGrand(r: ResultSet, t: string, n: string, p: Num, a: Num)
    requires WellFormed(r) && t in r.at && Lookup(r, t, n).Val?
    ensures Grand(Credit(r, t, n, p, a)) == Grand(r) + Weight(p, a)
  {
    var seeded := if n in r.at[t].at then r else r.Put(t, r.at[t].Put(n, Val(0.0)));
    if n !in r.at[t].at {
      GrandPut(r, t, n, Val(0.0));
      PutWellFormed(r, t, n, Val(0.0));
    }
    assert seeded.at[t].at[n] == Lookup(r, t, n);
    if p.Val? && a.Val? {
      GrandPut(seeded, t, n, Add(seeded.at[t].at[n], Val(Weight(p, a))));
    }
  }

  /** The loop over one type's names adds that type's mass to the grand total. */
  lemma {:induction false} CreditNamesGrand(r: ResultSet, t: string, data: PropertyData, a: Num, parse: string -> Num)
    requires WellFormed(r) && t in r.at
    requires forall n :: Lookup(r, t, n).Val?
    ensures Grand(CreditNames(r, t, data, a, parse)) == Grand(r) + DataMass(data, a, parse)
  {
    if data != [] {
      var pre := data[..|data| - 1];
      var (n, p) := data[|data| - 1];
      var prev := CreditNames(r, t, pre, a, parse);
      CreditNamesGrand(r, t, pre, a, parse);
      CreditNamesWellFormed(r, t, pre, a, parse);
      CreditNamesLookup(r, t, pre, a, parse, t, n);
      CreditGrand(prev, t, n, ParseFloat(parse, p), a);
    }
  }

  /** Creating a type's entry does not change the grand total. */
  lemma WithTypeGrand(r: ResultSet, t: string)
    requires WellFormed(r)
    ensures WellFormed(WithType(r, t)) && Grand(WithType(r, t)) == Grand(r)
  {
    if t !in r.at {
      PutTotal(r, t, Empty(), TypeTotal);
    }
  }

  /** A matched fund adds its mass to the grand total. */
  lemma {:induction false} CreditFundGrand(r: ResultSet, props: FundProperties, a: Num, parse: string -> Num)
    requires WellFormed(r)
    requires forall t, n :: Lookup(r, t, n).Val?
    ensures Grand(CreditFund(r, props, a, parse)) == Grand(r) + FundMass(props, a, parse)
  {
    if props != [] {
      var pre := props[..|props| - 1];
      var (t, data) := props[|props| - 1];
      var prev := CreditFund(r, pre, a, parse);
      CreditFundGrand(r, pre, a, parse);
      CreditFundWellFormed(r, pre, a, parse);
      WithTypeGrand(prev, t);
      forall n
        ensures Lookup(WithType(prev, t), t, n).Val?
      {
        CreditFundLookup(r, pre, a, parse, t, n);
        WithTypeLookup(prev, t, t, n);
      }
      CreditNamesGrand(WithType(prev, t), t, data, a, parse);
    }
  }

  /**
   * The entries of the result set add up to what the matched funds
   * distribute: nothing is lost and nothing is counted twice.
   */
  lemma {:induction false} WeighedGrand(entries: seq<(string, Num)>, config: Config, parse: string -> Num)
    ensures Grand(Weighed(entries, config, parse).result) == Mass(entries, config, parse)
  {
    if entries != [] {
      var pre := entries[..|entries| - 1];
      var (fund, amount) := entries[|entries| - 1];
      var prev := Weighed(pre, config, parse).result;
      WeighedGrand(pre, config, parse);
      if fund in config {
        WeighedWellFormed(pre, config, parse);
        forall t, n
          ensures Lookup(prev, t, n).Val?
        {
          WeighedLookup(pre, config, parse, t, n);
        }
        CreditFundGrand(prev, config[fund], amount, parse);
      }
    }
  }

  /** `v * x`, kept behind a name so that equal factors give equal products by congruence alone. */
  function Times(v: real, x: real): real
  {
    v * x
  }

  /** One step of a scaled sum: if both parts scale by `v`, so does their sum. */
  lemma ScaleStep(v: real, whole: real, part: real, last: real, sum: real, partSum: real, lastSum: real)
    requires whole == part + last && sum == partSum + lastSum
    requires part == Times(v, partSum) && last == Times(v, lastSum)
    ensures whole == Times(v, sum)
  {
  }

  /** A percentage weighted by an amount is their product, a NaN counting 0. */
  lemma WeightScales(p: Num, a: Num)
    ensures Weight(p, a) == Times(AsReal(a), AsReal(p))
  {
  }

  /** The last percentage of a type adds its weight to the type's mass and its value to its percentages. */
  lemma DataStep(data: PropertyData, a: Num, parse: string -> Num)
    requires data != []
    ensures var p := ParseFloat(parse, data[|data| - 1].1);
      && DataMass(data, a, parse) == DataMass(data[..|data| - 1], a, parse) + Weight(p, a)
      && DataPercent(data, parse) == DataPercent(data[..|data| - 1], parse) + AsReal(p)
  {
  }

  /** The last type of a fund adds its mass to the fund's mass and its percentages to the fund's. */
  lemma FundStep(props: FundProperties, a: Num, parse: string -> Num)
    requires props != []
    ensures var data := props[|props| - 1].1;
      && FundMass(props, a, parse) == FundMass(props[..|props| - 1], a, parse) + DataMass(data, a, parse)
      && FundPercent(props, parse) == FundPercent(props[..|props| - 1], parse) + DataPercent(data, parse)
  {
  }

  /** If a type's earlier percentages scale by the amount, so do all of them. */
  lemma DataScaleStep(data: PropertyData, a: Num, parse: string -> Num)
    requires data != []
    requires DataMass(data[..|data| - 1], a, parse) == Times(AsReal(a), DataPercent(data[..|data| - 1], parse))
    ensures DataMass(data, a, parse) == Times(AsReal(a), DataPercent(data, parse))
  {
    var p := ParseFloat(parse, data[|data| - 1].1);
    DataStep(data, a, parse);
    WeightScales(p, a);
    ScaleStep(AsReal(a), DataMass(data, a, parse), DataMass(data[..|data| - 1], a, parse), Weight(p, a),
              DataPercent(data, parse), DataPercent(data[..|data| - 1], parse), AsReal(p));
  }

  /** One type distributes the amount times its numeric percentages. */
  lemma {:induction false} DataMassScales(data: PropertyData, a: Num, parse: string -> Num)
    ensures DataMass(data, a, parse) == Times(AsReal(a), DataPercent(data, parse))
  {
    if data != [] {
      DataMassScales(data[..|data| - 1], a, parse);
      DataScaleStep(data, a, parse);
    }
  }

  /** If a fund's earlier types scale by the amount, so do all of them. */
  lemma FundScaleStep(props: FundProperties, a: Num, parse: string -> Num)
    requires props != []
    requires FundMass(props[..|props| - 1], a, parse) == Times(AsReal(a), FundPercent(props[..|props| - 1], parse))
    ensures FundMass(props, a, parse) == Times(AsReal(a), FundPercent(props, parse))
  {
    var data := props[|props| - 1].1;
    FundStep(props, a, parse);
    DataMassScales(data, a, parse);
    ScaleStep(AsReal(a), FundMass(props, a, parse), FundMass(props[..|props| - 1], a, parse), DataMass(data, a, parse),
              FundPercent(props, parse), FundPercent(props[..|props| - 1], parse), DataPercent(data, parse));
  }

  /** A fund distributes the amount times its numeric percentages, added up over all types. */
  lemma {:induction false} FundMassScales(props: FundProperties, a: Num, parse: string -> Num)
    ensures FundMass(props, a, parse) == Times(AsReal(a), FundPercent(props, parse))
  {
    if props != [] {
      FundMassScales(props[..|props| - 1], a, parse);
      FundScaleStep(props, a, parse);
    }
  }

  /** A portfolio of one matched fund: the entries of the result set add up to that fund's mass. */
  lemma SingleGrand(fund: string, a: Num, config: Config, parse: string -> Num)
    requires fund in config
    ensures Grand(Weighed([(fund, a)], config, parse).result) == FundMass(config[fund], a, parse)
  {
    WeighedGrand([(fund, a)], config, parse);
    assert [(fund, a)][..0] == [];
  }

  /** `Times` is the product. */
  lemma TimesProduct(v: real, x: real)
    ensures Times(v, x) == v * x
  {
  }

  /** A portfolio of one matched fund with amount `v`: the entries of the result set add up to `Times(v, ...)` of its percentages. */
  lemma WeightsSumScaled(fund: string, v: real, config: Config, parse: string -> Num)
    requires fund in config
    ensures Grand(Weighed([(fund, Val(v))], config, parse).result) == Times(v, FundPercent(config[fund], parse))
  {
    SingleGrand(fund, Val(v), config, parse);
    FundMassScales(config[fund], Val(v), parse);
    assert AsReal(Val(v)) == v;
  }

  /**
   * A portfolio of one matched fund with amount `v`: the entries of the
   * result set add up to `v` times the sum of the fund's numeric
   * percentages, whether or not those add up to 1.
   */
  lemma WeightsSum(fund: string, v: real, config: Config, parse: string -> Num)
    requires fund in config
    ensures Grand(Weighed([(fund, Val(v))], config, parse).result) == v * FundPercent(config[fund], parse)
  {
    WeightsSumScaled(fund, v, config, parse);
    TimesProduct(v, FundPercent(config[fund], parse));
  }
}
