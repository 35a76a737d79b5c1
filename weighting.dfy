/**
 * The second pass of `summarizeFunction`: every fund of the summary is added
 * to the total, and a fund with a configuration entry spreads
 * `percentage * amount` over the property types and names configured for it;
 * a fund without one is reported as unmatched.
 */
module Weighting {
  import opened Values
  import opened OrderedMaps

  /** `propertyData`: property name to percentage, as `Object.entries` lists them. */
  type PropertyData = seq<(string, Raw)>

  /** `fundProperties[fund]`: property type to its property data, in key order. */
  type FundProperties = seq<(string, PropertyData)>

  /** `fundProperties`: the configuration, fund to its properties. */
  type Config = map<string, FundProperties>

  /** `result`: property type to property name to accumulated weighted amount. */
  type ResultSet = OMap<OMap<Num>>

  /** What the pass leaves behind: `result`, `total` and `noFundDataList`. */
  datatype Outcome = Outcome(result: ResultSet, total: Num, unmatched: seq<string>)

  /** The result set and each of its inner objects are well-formed ordered maps. */
  ghost predicate WellFormed(r: ResultSet)
  {
    r.Valid() && forall t :: t in r.at ==> r.at[t].Valid()
  }

  /** `result[t][n]`, reading an absent entry as 0. */
  function Lookup(r: ResultSet, t: string, n: string): Num
  {
    if t in r.at && n in r.at[t].at then r.at[t].at[n] else Val(0.0)
  }

  /** The property names present under type `t` (none when `t` is absent). */
  function NamesAt(r: ResultSet, t: string): set<string>
  {
    if t in r.at then r.at[t].at.Keys else {}
  }

  // ---------------------------------------------------------------------------
  // The pass as the loops perform it, one step at a time
  // ---------------------------------------------------------------------------

  /**
   * One iteration of the innermost loop (app/index.js:74-81): seed
   * `result[t][n]` with 0 if absent, then add `p * a` when both are numbers.
   */
  function Credit(r: ResultSet, t: string, n: string, p: Num, a: Num): (r': ResultSet)
    requires t in r.at
    ensures r'.at.Keys == r.at.Keys
  {
    var seeded := if n in r.at[t].at then r else r.Put(t, r.at[t].Put(n, Val(0.0)));
    if p.Val? && a.Val? then
      seeded.Put(t, seeded.at[t].Put(n, Add(seeded.at[t].at[n], Val(Weight(p, a)))))
    else
      seeded
  }

  /** The innermost loop over the names of one property type. */
  function CreditNames(r: ResultSet, t: string, data: PropertyData, a: Num, parse: string -> Num): (r': ResultSet)
    requires t in r.at
    ensures r'.at.Keys == r.at.Keys
  {
    if data == [] then r
    else
      var prev := CreditNames(r, t, data[..|data| - 1], a, parse);
      var (n, p) := data[|data| - 1];
      Credit(prev, t, n, ParseFloat(parse, p), a)
  }

  /** `if (result[t] === undefined) result[t] = {}` (app/index.js:70-72). */
  function WithType(r: ResultSet, t: string): (r': ResultSet)
    ensures r'.at.Keys == r.at.Keys + {t}
  {
    if t in r.at then r else r.Put(t, Empty())
  }

  /** The middle loop over the property types configured for one fund. */
  function CreditFund(r: ResultSet, props: FundProperties, a: Num, parse: string -> Num): ResultSet
  {
    if props == [] then r
    else
      var prev := CreditFund(r, props[..|props| - 1], a, parse);
      var (t, data) := props[|props| - 1];
      CreditNames(WithType(prev, t), t, data, a, parse)
  }

  /** The outer loop over the summary's entries (app/index.js:63-87). */
  function Weighed(entries: seq<(string, Num)>, config: Config, parse: string -> Num): Outcome
  {
    if entries == [] then Outcome(Empty(), Val(0.0), [])
    else
      var prev := Weighed(entries[..|entries| - 1], config, parse);
      var (fund, amount) := entries[|entries| - 1];
      var total := Add(prev.total, amount);
      if fund in config then Outcome(CreditFund(prev.result, config[fund], amount, parse), total, prev.unmatched)
      else Outcome(prev.result, total, prev.unmatched + [fund])
  }

  // ---------------------------------------------------------------------------
  // Reference definitions: what the pass computes, stated as sums and sets
  // ---------------------------------------------------------------------------

  /** What one (percentage, amount) pair contributes: their product, or nothing if either is NaN. */
  function Weight(p: Num, a: Num): (w: real)
    ensures p.NaN? || a.NaN? ==> w == 0.0
  {
    if p.Val? && a.Val? then p.v * a.v else 0.0
  }

  /** Two numbers contribute their product. */
  lemma WeightIsProduct(p: Num, a: Num)
    requires p.Val? && a.Val?
    ensures Weight(p, a) == p.v * a.v
  {
  }

  /** The contributions of the entries of `data` named `n`. */
  function NameExposure(data: PropertyData, n: string, a: Num, parse: string -> Num): real
  {
    if data == [] then 0.0
    else
      var (n', p) := data[|data| - 1];
      NameExposure(data[..|data| - 1], n, a, parse) + (if n' == n then Weight(ParseFloat(parse, p), a) else 0.0)
  }

  /** The contributions of one fund's properties to type `t`, name `n`. */
  function FundExposure(props: FundProperties, t: string, n: string, a: Num, parse: string -> Num): real
  {
    if props == [] then 0.0
    else
      var (t', data) := props[|props| - 1];
      FundExposure(props[..|props| - 1], t, n, a, parse) + (if t' == t then NameExposure(data, n, a, parse) else 0.0)
  }

  /** The contributions of all configured funds among `entries` to type `t`, name `n`. */
  function Exposure(entries: seq<(string, Num)>, config: Config, t: string, n: string, parse: string -> Num): real
  {
    if entries == [] then 0.0
    else
      var (fund, amount) := entries[|entries| - 1];
      Exposure(entries[..|entries| - 1], config, t, n, parse)
        + (if fund in config then FundExposure(config[fund], t, n, amount, parse) else 0.0)
  }

  /** The property names listed in `data`. */
  function NamesOf(data: PropertyData): (ns: set<string>)
    ensures forall n :: n in ns <==> exists k :: 0 <= k < |data| && data[k].0 == n
  {
    set k | 0 <= k < |data| :: data[k].0
  }

  /** The property types listed in `props`. */
  function TypesOf(props: FundProperties): (ts: set<string>)
    ensures forall t :: t in ts <==> exists j :: 0 <= j < |props| && props[j].0 == t
  {
    set j | 0 <= j < |props| :: props[j].0
  }

  /** The property names `props` lists under type `t`. */
  function NamesUnder(props: FundProperties, t: string): set<string>
  {
    if props == [] then {}
    else
      var (t', data) := props[|props| - 1];
      NamesUnder(props[..|props| - 1], t) + (if t' == t then NamesOf(data) else {})
  }

  /** The property types configured for the configured funds among `entries`. */
  function ConfiguredTypes(entries: seq<(string, Num)>, config: Config): set<string>
  {
    if entries == [] then {}
    else
      var fund := entries[|entries| - 1].0;
      ConfiguredTypes(entries[..|entries| - 1], config) + (if fund in config then TypesOf(config[fund]) else {})
  }

  /** The property names configured under type `t` for the configured funds among `entries`. */
  function ConfiguredNames(entries: seq<(string, Num)>, config: Config, t: string): set<string>
  {
    if entries == [] then {}
    else
      var fund := entries[|entries| - 1].0;
      ConfiguredNames(entries[..|entries| - 1], config, t) + (if fund in config then NamesUnder(config[fund], t) else {})
  }

  /** The amounts of the entries, in order. */
  function Amounts(entries: seq<(string, Num)>): (xs: seq<Num>)
    ensures |xs| == |entries| && forall i :: 0 <= i < |xs| ==> xs[i] == entries[i].1
  {
    seq(|entries|, i requires 0 <= i < |entries| => entries[i].1)
  }

  /** The funds of the entries that have no configuration, in entry order. */
  function Unconfigured(entries: seq<(string, Num)>, config: Config): (u: seq<string>)
    ensures forall f :: f in u <==> f !in config && exists i :: 0 <= i < |entries| && entries[i].0 == f
  {
    if entries == [] then []
    else
      var fund := entries[|entries| - 1].0;
      var prev := Unconfigured(entries[..|entries| - 1], config);
      assert forall i :: 0 <= i < |entries| - 1 ==> entries[..|entries| - 1][i] == entries[i];
      if fund in config then prev else prev + [fund]
  }

  /** The entries name each fund once, as `Object.entries` of an object does. */
  ghost predicate DistinctFunds(entries: seq<(string, Num)>)
  {
    forall i, j :: 0 <= i < j < |entries| ==> entries[i].0 != entries[j].0
  }

  /** The entries whose fund has a configuration, in order. */
  function Matched(entries: seq<(string, Num)>, config: Config): seq<(string, Num)>
  {
    if entries == [] then []
    else
      var prev := Matched(entries[..|entries| - 1], config);
      if entries[|entries| - 1].0 in config then prev + [entries[|entries| - 1]] else prev
  }

  /** The first components of `pairs` (property names or property types), in order, repeats included. */
  function Firsts<T>(pairs: seq<(string, T)>): (ks: seq<string>)
    ensures |ks| == |pairs|
  {
    if pairs == [] then [] else Firsts(pairs[..|pairs| - 1]) + [pairs[|pairs| - 1].0]
  }

  /** The property names `props` lists under type `t`, in order, repeats included. */
  function NameListUnder(props: FundProperties, t: string): seq<string>
  {
    if props == [] then []
    else
      var (t', data) := props[|props| - 1];
      NameListUnder(props[..|props| - 1], t) + (if t' == t then Firsts(data) else [])
  }

  /** Every property type the pass meets, in the order it meets them: matched funds in entry order, then their types. */
  function TypesMet(entries: seq<(string, Num)>, config: Config): seq<string>
  {
    if entries == [] then []
    else
      var fund := entries[|entries| - 1].0;
      TypesMet(entries[..|entries| - 1], config) + (if fund in config then Firsts(config[fund]) else [])
  }

  /** Every property name the pass meets under type `t`, in the order it meets them. */
  function NamesMet(entries: seq<(string, Num)>, config: Config, t: string): seq<string>
  {
    if entries == [] then []
    else
      var fund := entries[|entries| - 1].0;
      NamesMet(entries[..|entries| - 1], config, t) + (if fund in config then NameListUnder(config[fund], t) else [])
  }

  /** The key order of `result[t]` (empty when `t` is absent). */
  function NameKeys(r: ResultSet, t: string): seq<string>
  {
    if t in r.at then r.at[t].keys else []
  }

  /** A number that is not negative (NaN counts as not negative). */
  predicate NonNegative(x: Num)
  {
    x.Val? ==> x.v >= 0.0
  }

  /** Every percentage in `data` parses to a non-negative number or to NaN. */
  ghost predicate NonNegativeData(data: PropertyData, parse: string -> Num)
  {
    forall k :: 0 <= k < |data| ==> NonNegative(ParseFloat(parse, data[k].1))
  }

  /** Every percentage the configuration gives parses to a non-negative number or to NaN. */
  ghost predicate NonNegativeConfig(config: Config, parse: string -> Num)
  {
    forall f, j :: f in config && 0 <= j < |config[f]| ==> NonNegativeData(config[f][j].1, parse)
  }

  // ---------------------------------------------------------------------------
  // Lemmas tying the loops' steps to the reference definitions
  // ---------------------------------------------------------------------------

  /** Setting `result[t][n]` keeps the result set well-formed. */
  lemma PutWellFormed(r: ResultSet, t: string, n: string, v: Num)
    requires t in r.at && WellFormed(r)
    ensures WellFormed(r.Put(t, r.at[t].Put(n, v)))
  {
  }

  /** One innermost step keeps the result set well-formed. */
  lemma CreditWellFormed(r: ResultSet, t: string, n: string, p: Num, a: Num)
    requires t in r.at && WellFormed(r)
    ensures WellFormed(Credit(r, t, n, p, a))
  {
    var seeded := if n in r.at[t].at then r else r.Put(t, r.at[t].Put(n, Val(0.0)));
    if n !in r.at[t].at {
      PutWellFormed(r, t, n, Val(0.0));
    }
    if p.Val? && a.Val? {
      PutWellFormed(seeded, t, n, Add(seeded.at[t].at[n], Val(Weight(p, a))));
    }
  }

  /** One innermost step adds name `n` under `t` and no other name. */
  lemma CreditNames1(r: ResultSet, t: string, n: string, p: Num, a: Num, t': string)
    requires t in r.at
    ensures NamesAt(Credit(r, t, n, p, a), t') == NamesAt(r, t') + (if t' == t then {n} else {})
  {
    var seeded := if n in r.at[t].at then r else r.Put(t, r.at[t].Put(n, Val(0.0)));
    assert seeded.at.Keys == r.at.Keys;
    assert seeded.at[t].at.Keys == r.at[t].at.Keys + {n};
    assert t' != t ==> NamesAt(seeded, t') == NamesAt(r, t');
    if p.Val? && a.Val? {
      var v := Add(seeded.at[t].at[n], Val(Weight(p, a)));
      assert Credit(r, t, n, p, a) == seeded.Put(t, seeded.at[t].Put(n, v));
    } else {
      assert Credit(r, t, n, p, a) == seeded;
    }
  }

  /** Setting `result[t][n]` changes that entry and no other. */
  lemma PutLookup(r: ResultSet, t: string, n: string, v: Num, t': string, n': string)
    requires t in r.at
    ensures Lookup(r.Put(t, r.at[t].Put(n, v)), t', n') == if t' == t && n' == n then v else Lookup(r, t', n')
  {
  }

  /** One innermost step credits `result[t][n]` with the weight and leaves every other entry alone. */
  lemma CreditLookup(r: ResultSet, t: string, n: string, p: Num, a: Num, t': string, n': string)
    requires t in r.at
    ensures Lookup(Credit(r, t, n, p, a), t', n') ==
              if t' == t && n' == n then Add(Lookup(r, t, n), Val(Weight(p, a))) else Lookup(r, t', n')
  {
    var seeded := if n in r.at[t].at then r else r.Put(t, r.at[t].Put(n, Val(0.0)));
    if n !in r.at[t].at {
      PutLookup(r, t, n, Val(0.0), t', n');
      PutLookup(r, t, n, Val(0.0), t, n);
    }
    if p.Val? && a.Val? {
      PutLookup(seeded, t, n, Add(seeded.at[t].at[n], Val(Weight(p, a))), t', n');
    }
  }

  /** The innermost loop keeps the result set well-formed. */
  lemma {:induction false} CreditNamesWellFormed(r: ResultSet, t: string, data: PropertyData, a: Num, parse: string -> Num)
    requires t in r.at && WellFormed(r)
    ensures WellFormed(CreditNames(r, t, data, a, parse))
  {
    if data != [] {
      var pre := data[..|data| - 1];
      var (n, p) := data[|data| - 1];
      CreditNamesWellFormed(r, t, pre, a, parse);
      CreditWellFormed(CreditNames(r, t, pre, a, parse), t, n, ParseFloat(parse, p), a);
    }
  }

  /** The innermost loop adds exactly the names of `data` under `t`. */
  lemma {:induction false} CreditNamesNames(r: ResultSet, t: string, data: PropertyData, a: Num, parse: string -> Num, t': string)
    requires t in r.at
    ensures NamesAt(CreditNames(r, t, data, a, parse), t') == NamesAt(r, t') + (if t' == t then NamesOf(data) else {})
  {
    if data != [] {
      var pre := data[..|data| - 1];
      var (n, p) := data[|data| - 1];
      assert NamesOf(data) == NamesOf(pre) + {n} by {
        assert data == pre + [(n, p)];
      }
      CreditNamesNames(r, t, pre, a, parse, t');
      CreditNames1(CreditNames(r, t, pre, a, parse), t, n, ParseFloat(parse, p), a, t');
    }
  }

  /** The innermost loop credits each name under `t` with its exposure and nothing else. */
  lemma {:induction false} CreditNamesLookup(r: ResultSet, t: string, data: PropertyData, a: Num, parse: string -> Num, t': string, n': string)
    requires t in r.at
    ensures Lookup(CreditNames(r, t, data, a, parse), t', n') ==
              if t' == t then Add(Lookup(r, t, n'), Val(NameExposure(data, n', a, parse))) else Lookup(r, t', n')
  {
    if data != [] {
      var pre := data[..|data| - 1];
      var (n, p) := data[|data| - 1];
      CreditNamesLookup(r, t, pre, a, parse, t', n');
      CreditLookup(CreditNames(r, t, pre, a, parse), t, n, ParseFloat(parse, p), a, t', n');
    }
  }

  /** The middle loop adds exactly the property types configured for the fund. */
  lemma {:induction false} CreditFundTypes(r: ResultSet, props: FundProperties, a: Num, parse: string -> Num)
    ensures CreditFund(r, props, a, parse).at.Keys == r.at.Keys + TypesOf(props)
  {
    if props != [] {
      var pre := props[..|props| - 1];
      var (t, data) := props[|props| - 1];
      assert TypesOf(props) == TypesOf(pre) + {t} by {
        assert props == pre + [(t, data)];
      }
      CreditFundTypes(r, pre, a, parse);
    }
  }

  /** The middle loop keeps the result set well-formed. */
  lemma {:induction false} CreditFundWellFormed(r: ResultSet, props: FundProperties, a: Num, parse: string -> Num)
    requires WellFormed(r)
    ensures WellFormed(CreditFund(r, props, a, parse))
  {
    if props != [] {
      var pre := props[..|props| - 1];
      var (t, data) := props[|props| - 1];
      CreditFundWellFormed(r, pre, a, parse);
      CreditNamesWellFormed(WithType(CreditFund(r, pre, a, parse), t), t, data, a, parse);
    }
  }

  /** The middle loop adds exactly the names the fund configures under each type. */
  lemma {:induction false} CreditFundNames(r: ResultSet, props: FundProperties, a: Num, parse: string -> Num, t: string)
    ensures NamesAt(CreditFund(r, props, a, parse), t) == NamesAt(r, t) + NamesUnder(props, t)
  {
    if props != [] {
      var pre := props[..|props| - 1];
      var (t', data) := props[|props| - 1];
      CreditFundNames(r, pre, a, parse, t);
      var prev := CreditFund(r, pre, a, parse);
      assert NamesAt(WithType(prev, t'), t) == NamesAt(prev, t);
      CreditNamesNames(WithType(prev, t'), t', data, a, parse, t);
    }
  }

  /** Adding two numbers one after the other adds their sum. */
  lemma AddTwice(x: Num, u: real, w: real)
    ensures Add(Add(x, Val(u)), Val(w)) == Add(x, Val(u + w))
  {
  }

  /** Creating a type's entry changes no value. */
  lemma WithTypeLookup(r: ResultSet, t': string, t: string, n: string)
    ensures Lookup(WithType(r, t'), t, n) == Lookup(r, t, n)
  {
  }

  /** One iteration of the middle loop credits `result[t][n]` with that type's exposure to it. */
  lemma CreditFundStep(r: ResultSet, props: FundProperties, a: Num, parse: string -> Num, t: string, n: string)
    requires props != []
    ensures var (t', data) := props[|props| - 1];
      Lookup(CreditFund(r, props, a, parse), t, n) ==
        Add(Lookup(CreditFund(r, props[..|props| - 1], a, parse), t, n),
            Val(if t' == t then NameExposure(data, n, a, parse) else 0.0))
  {
    var (t', data) := props[|props| - 1];
    var prev := CreditFund(r, props[..|props| - 1], a, parse);
    WithTypeLookup(prev, t', t, n);
    CreditNamesLookup(WithType(prev, t'), t', data, a, parse, t, n);
  }

  /** The middle loop credits every entry with the fund's exposure to it. */
  lemma {:induction false} CreditFundLookup(r: ResultSet, props: FundProperties, a: Num, parse: string -> Num, t: string, n: string)
    ensures Lookup(CreditFund(r, props, a, parse), t, n) == Add(Lookup(r, t, n), Val(FundExposure(props, t, n, a, parse)))
  {
    if props == [] {
      AddTwice(Lookup(r, t, n), 0.0, 0.0);
    } else {
      var pre := props[..|props| - 1];
      var (t', data) := props[|props| - 1];
      var here := if t' == t then NameExposure(data, n, a, parse) else 0.0;
      CreditFundLookup(r, pre, a, parse, t, n);
      CreditFundStep(r, props, a, parse, t, n);
      AddTwice(Lookup(r, t, n), FundExposure(pre, t, n, a, parse), here);
    }
  }

  /** The result set and its inner objects stay well-formed ordered maps. */
  lemma {:induction false} WeighedWellFormed(entries: seq<(string, Num)>, config: Config, parse: string -> Num)
    ensures WellFormed(Weighed(entries, config, parse).result)
  {
    if entries != [] {
      var pre := entries[..|entries| - 1];
      var (fund, amount) := entries[|entries| - 1];
      WeighedWellFormed(pre, config, parse);
      if fund in config {
        CreditFundWellFormed(Weighed(pre, config, parse).result, config[fund], amount, parse);
      }
    }
  }

  /** The result set's keys are exactly the property types configured for a matched fund. */
  lemma {:induction false} WeighedTypes(entries: seq<(string, Num)>, config: Config, parse: string -> Num)
    ensures Weighed(entries, config, parse).result.at.Keys == ConfiguredTypes(entries, config)
  {
    if entries != [] {
      var pre := entries[..|entries| - 1];
      var (fund, amount) := entries[|entries| - 1];
      WeighedTypes(pre, config, parse);
      if fund in config {
        CreditFundTypes(Weighed(pre, config, parse).result, config[fund], amount, parse);
      }
    }
  }

  /**
   * Under each type the result set has exactly the names configured under it
   * for a matched fund, whether or not the percentage or amount is a number.
   */
  lemma {:induction false} WeighedNames(entries: seq<(string, Num)>, config: Config, parse: string -> Num, t: string)
    ensures NamesAt(Weighed(entries, config, parse).result, t) == ConfiguredNames(entries, config, t)
  {
    if entries != [] {
      var pre := entries[..|entries| - 1];
      var (fund, amount) := entries[|entries| - 1];
      WeighedNames(pre, config, parse, t);
      if fund in config {
        CreditFundNames(Weighed(pre, config, parse).result, config[fund], amount, parse, t);
      }
    }
  }

  /**
   * Each `result[t][n]` is the sum of `percentage * amount` over the matched
   * funds whose percentage and amount are both numbers (0 when there are none).
   */
  lemma {:induction false} WeighedLookup(entries: seq<(string, Num)>, config: Config, parse: string -> Num, t: string, n: string)
    ensures Lookup(Weighed(entries, config, parse).result, t, n) == Val(Exposure(entries, config, t, n, parse))
  {
    if entries != [] {
      var pre := entries[..|entries| - 1];
      var (fund, amount) := entries[|entries| - 1];
      WeighedLookup(pre, config, parse, t, n);
      if fund in config {
        CreditFundLookup(Weighed(pre, config, parse).result, config[fund], amount, parse, t, n);
      }
    }
  }

  /**
   * The result set holds exactly the property types configured for a
   * matched fund, under each exactly the names configured for it, and every
   * entry is the weighted sum: a number, never NaN.
   */
  lemma WeighedResult(entries: seq<(string, Num)>, config: Config, parse: string -> Num)
    ensures var r := Weighed(entries, config, parse).result;
      && WellFormed(r)
      && r.at.Keys == ConfiguredTypes(entries, config)
      && (forall t :: t in r.at ==> r.at[t].at.Keys == ConfiguredNames(entries, config, t))
      && (forall t, n :: t in r.at && n in r.at[t].at ==> r.at[t].at[n] == Val(Exposure(entries, config, t, n, parse)))
  {
    var r := Weighed(entries, config, parse).result;
    WeighedWellFormed(entries, config, parse);
    WeighedTypes(entries, config, parse);
    forall t | t in r.at
      ensures r.at[t].at.Keys == ConfiguredNames(entries, config, t)
    {
      WeighedNames(entries, config, parse, t);
    }
    forall t, n | t in r.at && n in r.at[t].at
      ensures r.at[t].at[n] == Val(Exposure(entries, config, t, n, parse))
    {
      WeighedLookup(entries, config, parse, t, n);
    }
  }

  /** `total` is the running sum of every entry's amount, configured or not. */
  lemma {:induction false} WeighedTotal(entries: seq<(string, Num)>, config: Config, parse: string -> Num)
    ensures Weighed(entries, config, parse).total == Sum(Amounts(entries))
  {
    if entries != [] {
      var pre := entries[..|entries| - 1];
      WeighedTotal(pre, config, parse);
      assert Amounts(entries)[..|entries| - 1] == Amounts(pre);
    }
  }

  /** `noFundDataList` lists exactly the funds without configuration, in entry order. */
  lemma {:induction false} WeighedUnmatched(entries: seq<(string, Num)>, config: Config, parse: string -> Num)
    ensures Weighed(entries, config, parse).unmatched == Unconfigured(entries, config)
  {
    if entries != [] {
      WeighedUnmatched(entries[..|entries| - 1], config, parse);
    }
  }

  /** One innermost step keeps the type order and assigns `n` under `t`. */
  lemma CreditKeys(r: ResultSet, t: string, n: string, p: Num, a: Num, t': string)
    requires WellFormed(r) && t in r.at
    ensures Credit(r, t, n, p, a).keys == r.keys
    ensures NameKeys(Credit(r, t, n, p, a), t') == if t' == t then Extend(NameKeys(r, t), [n]) else NameKeys(r, t')
  {
    PutKeys(r.at[t], n, Val(0.0));
  }

  /** The innermost loop keeps the type order and assigns the names of `data`, in order, under `t`. */
  lemma {:induction false} CreditNamesKeys(r: ResultSet, t: string, data: PropertyData, a: Num, parse: string -> Num, t': string)
    requires WellFormed(r) && t in r.at
    ensures CreditNames(r, t, data, a, parse).keys == r.keys
    ensures NameKeys(CreditNames(r, t, data, a, parse), t') ==
              if t' == t then Extend(NameKeys(r, t), Firsts(data)) else NameKeys(r, t')
  {
    if data != [] {
      var pre := data[..|data| - 1];
      var (n, p) := data[|data| - 1];
      CreditNamesKeys(r, t, pre, a, parse, t');
      CreditNamesWellFormed(r, t, pre, a, parse);
      CreditKeys(CreditNames(r, t, pre, a, parse), t, n, ParseFloat(parse, p), a, t');
      ExtendAppend(NameKeys(r, t), Firsts(pre), [n]);
    }
  }

  /** Creating a type's entry assigns the type and leaves every name order alone. */
  lemma WithTypeKeys(r: ResultSet, t: string, t': string)
    requires WellFormed(r)
    ensures WellFormed(WithType(r, t))
    ensures WithType(r, t).keys == Extend(r.keys, [t])
    ensures NameKeys(WithType(r, t), t') == NameKeys(r, t')
  {
    PutKeys(r, t, Empty());
  }

  /** The middle loop assigns the fund's property types, in order. */
  lemma {:induction false} CreditFundKeys(r: ResultSet, props: FundProperties, a: Num, parse: string -> Num)
    requires WellFormed(r)
    ensures CreditFund(r, props, a, parse).keys == Extend(r.keys, Firsts(props))
  {
    if props != [] {
      var pre := props[..|props| - 1];
      var (t, data) := props[|props| - 1];
      var prev := CreditFund(r, pre, a, parse);
      CreditFundKeys(r, pre, a, parse);
      CreditFundWellFormed(r, pre, a, parse);
      WithTypeKeys(prev, t, t);
      CreditNamesKeys(WithType(prev, t), t, data, a, parse, t);
      ExtendAppend(r.keys, Firsts(pre), [t]);
    }
  }

  /** One iteration of the middle loop assigns under `t` the names its type lists for `t`. */
  lemma CreditFundNameStep(r: ResultSet, props: FundProperties, a: Num, parse: string -> Num, t: string)
    requires WellFormed(r) && props != []
    ensures var (t', data) := props[|props| - 1];
      NameKeys(CreditFund(r, props, a, parse), t) ==
        Extend(NameKeys(CreditFund(r, props[..|props| - 1], a, parse), t), if t' == t then Firsts(data) else [])
  {
    var (t', data) := props[|props| - 1];
    var prev := CreditFund(r, props[..|props| - 1], a, parse);
    CreditFundWellFormed(r, props[..|props| - 1], a, parse);
    WithTypeKeys(prev, t', t);
    CreditNamesKeys(WithType(prev, t'), t', data, a, parse, t);
  }

  /** The middle loop assigns under each type the names the fund lists for it, in order. */
  lemma {:induction false} CreditFundNameKeys(r: ResultSet, props: FundProperties, a: Num, parse: string -> Num, t: string)
    requires WellFormed(r)
    ensures NameKeys(CreditFund(r, props, a, parse), t) == Extend(NameKeys(r, t), NameListUnder(props, t))
  {
    if props != [] {
      var pre := props[..|props| - 1];
      var (t', data) := props[|props| - 1];
      CreditFundNameKeys(r, pre, a, parse, t);
      CreditFundNameStep(r, props, a, parse, t);
      ExtendAppend(NameKeys(r, t), NameListUnder(pre, t), if t' == t then Firsts(data) else []);
    }
  }

  /**
   * `result` lists its property types in the order the pass first meets
   * them: matched funds in entry order, each fund's types in their order.
   */
  lemma {:induction false} WeighedTypeOrder(entries: seq<(string, Num)>, config: Config, parse: string -> Num)
    ensures Weighed(entries, config, parse).result.keys == Extend([], TypesMet(entries, config))
  {
    if entries != [] {
      var pre := entries[..|entries| - 1];
      var (fund, amount) := entries[|entries| - 1];
      WeighedTypeOrder(pre, config, parse);
      if fund in config {
        WeighedWellFormed(pre, config, parse);
        CreditFundKeys(Weighed(pre, config, parse).result, config[fund], amount, parse);
        ExtendAppend([], TypesMet(pre, config), Firsts(config[fund]));
      } else {
        assert TypesMet(entries, config) == TypesMet(pre, config);
      }
    }
  }

  /** Each `result[t]` lists its names in the order the pass first meets them under `t`. */
  lemma {:induction false} WeighedNameOrder(entries: seq<(string, Num)>, config: Config, parse: string -> Num, t: string)
    ensures NameKeys(Weighed(entries, config, parse).result, t) == Extend([], NamesMet(entries, config, t))
  {
    if entries != [] {
      var pre := entries[..|entries| - 1];
      var (fund, amount) := entries[|entries| - 1];
      WeighedNameOrder(pre, config, parse, t);
      if fund in config {
        WeighedWellFormed(pre, config, parse);
        CreditFundNameKeys(Weighed(pre, config, parse).result, config[fund], amount, parse, t);
        ExtendAppend([], NamesMet(pre, config, t), NameListUnder(config[fund], t));
      } else {
        assert NamesMet(entries, config, t) == NamesMet(pre, config, t);
      }
    }
  }

  /**
   * `result` lists each property type the pass meets once, and a type
   * listed before another was met before it: every meeting of the later type
   * comes after a meeting of the earlier one.
   */
  lemma WeighedTypesFirstMet(entries: seq<(string, Num)>, config: Config, parse: string -> Num)
    ensures var ks := Weighed(entries, config, parse).result.keys;
      var met := TypesMet(entries, config);
      && Unique(ks)
      && (forall t :: t in ks <==> t in met)
      && (forall i, j, q :: 0 <= i < j < |ks| && 0 <= q < |met| && met[q] == ks[j] ==> ks[i] in met[..q])
  {
    var met := TypesMet(entries, config);
    WeighedTypeOrder(entries, config, parse);
    ExtendDistinct([], met);
    ExtendElements([], met);
    forall i, j, q | 0 <= i < j < |Extend([], met)| && 0 <= q < |met| && met[q] == Extend([], met)[j]
      ensures Extend([], met)[i] in met[..q]
    {
      ExtendOrder(met, i, j, q);
    }
  }

  /**
   * Each `result[t]` lists each name the pass meets under `t` once, and a
   * name listed before another was met under `t` before it.
   */
  lemma WeighedNamesFirstMet(entries: seq<(string, Num)>, config: Config, parse: string -> Num, t: string)
    ensures var ks := NameKeys(Weighed(entries, config, parse).result, t);
      var met := NamesMet(entries, config, t);
      && Unique(ks)
      && (forall n :: n in ks <==> n in met)
      && (forall i, j, q :: 0 <= i < j < |ks| && 0 <= q < |met| && met[q] == ks[j] ==> ks[i] in met[..q])
  {
    var met := NamesMet(entries, config, t);
    WeighedNameOrder(entries, config, parse, t);
    ExtendDistinct([], met);
    ExtendElements([], met);
    forall i, j, q | 0 <= i < j < |Extend([], met)| && 0 <= q < |met| && met[q] == Extend([], met)[j]
      ensures Extend([], met)[i] in met[..q]
    {
      ExtendOrder(met, i, j, q);
    }
  }

  /** When the entries name each fund once, so does the list of unmatched funds. */
  lemma {:induction false} UnconfiguredDistinct(entries: seq<(string, Num)>, config: Config)
    requires DistinctFunds(entries)
    ensures var u := Unconfigured(entries, config);
      forall i, j :: 0 <= i < j < |u| ==> u[i] != u[j]
  {
    if entries != [] {
      var pre := entries[..|entries| - 1];
      var fund := entries[|entries| - 1].0;
      UnconfiguredDistinct(pre, config);
      forall i | 0 <= i < |pre|
        ensures pre[i].0 != fund
      {
        assert pre[i] == entries[i];
      }
      assert fund !in Unconfigured(pre, config);
    }
  }

  /** A fund without configuration never contributes to the result set: dropping it changes nothing. */
  lemma {:induction false} UnmatchedIgnored(entries: seq<(string, Num)>, config: Config, parse: string -> Num)
    ensures Weighed(Matched(entries, config), config, parse).result == Weighed(entries, config, parse).result
  {
    if entries != [] {
      var pre := entries[..|entries| - 1];
      var last := entries[|entries| - 1];
      UnmatchedIgnored(pre, config, parse);
      if last.0 in config {
        var m := Matched(entries, config);
        assert m[..|m| - 1] == Matched(pre, config);
      }
    }
  }

  /** A product of two non-negative numbers is not negative. */
  lemma WeightNonNegative(p: Num, a: Num)
    requires NonNegative(p) && NonNegative(a)
    ensures Weight(p, a) >= 0.0
  {
    if p.Val? && a.Val? {
      assert p.v * a.v >= 0.0 * a.v;
    }
  }

  /** Non-negative percentages and amount give a non-negative exposure to one name. */
  lemma {:induction false} NameExposureNonNegative(data: PropertyData, n: string, a: Num, parse: string -> Num)
    requires NonNegative(a) && NonNegativeData(data, parse)
    ensures NameExposure(data, n, a, parse) >= 0.0
  {
    if data != [] {
      var pre := data[..|data| - 1];
      assert NonNegativeData(pre, parse) by {
        forall k | 0 <= k < |pre|
          ensures NonNegative(ParseFloat(parse, pre[k].1))
        {
          assert pre[k] == data[k];
        }
      }
      NameExposureNonNegative(pre, n, a, parse);
      WeightNonNegative(ParseFloat(parse, data[|data| - 1].1), a);
    }
  }

  /** Non-negative percentages and amount give a non-negative exposure from one fund. */
  lemma {:induction false} FundExposureNonNegative(props: FundProperties, t: string, n: string, a: Num, parse: string -> Num)
    requires NonNegative(a) && forall j :: 0 <= j < |props| ==> NonNegativeData(props[j].1, parse)
    ensures FundExposure(props, t, n, a, parse) >= 0.0
  {
    if props != [] {
      var pre := props[..|props| - 1];
      assert forall j :: 0 <= j < |pre| ==> pre[j] == props[j];
      FundExposureNonNegative(pre, t, n, a, parse);
      NameExposureNonNegative(props[|props| - 1].1, n, a, parse);
    }
  }

  /**
   * With non-negative amounts and percentages, every entry of the result set
   * is a non-negative number (or absent).
   */
  lemma {:induction false} WeighedNonNegative(entries: seq<(string, Num)>, config: Config, parse: string -> Num, t: string, n: string)
    requires forall i :: 0 <= i < |entries| ==> NonNegative(entries[i].1)
    requires NonNegativeConfig(config, parse)
    ensures Lookup(Weighed(entries, config, parse).result, t, n).Val?
    ensures Lookup(Weighed(entries, config, parse).result, t, n).v >= 0.0
  {
    WeighedLookup(entries, config, parse, t, n);
    ExposureNonNegative(entries, config, parse, t, n);
  }

  /** The exposure of non-negative entries to non-negative percentages is not negative. */
  lemma {:induction false} ExposureNonNegative(entries: seq<(string, Num)>, config: Config, parse: string -> Num, t: string, n: string)
    requires forall i :: 0 <= i < |entries| ==> NonNegative(entries[i].1)
    requires NonNegativeConfig(config, parse)
    ensures Exposure(entries, config, t, n, parse) >= 0.0
  {
    if entries != [] {
      var pre := entries[..|entries| - 1];
      var (fund, amount) := entries[|entries| - 1];
      assert forall i :: 0 <= i < |pre| ==> pre[i] == entries[i];
      ExposureNonNegative(pre, config, parse, t, n);
      if fund in config {
        FundExposureNonNegative(config[fund], t, n, amount, parse);
      }
    }
  }

  // ---------------------------------------------------------------------------
  // The pass itself
  // ---------------------------------------------------------------------------

  /**
   * The weighting loop (app/index.js:63-87): every entry's amount goes into
   * `total`; a configured fund is spread over the result set, an
   * unconfigured one is pushed onto `noFundDataList`.
   */
  method Weigh(entries: seq<(string, Num)>, fundProperties: Config, parse: string -> Num)
    returns (result: ResultSet, total: Num, noFundDataList: seq<string>)
    ensures Outcome(result, total, noFundDataList) == Weighed(entries, fundProperties, parse)
  {
    result, total, noFundDataList := Empty(), Val(0.0), [];
    for i := 0 to |entries|
      invariant Outcome(result, total, noFundDataList) == Weighed(entries[..i], fundProperties, parse)
    {
      assert entries[..i + 1][..i] == entries[..i];
      var (fund, amount) := entries[i];
      total := Add(total, amount);
      if fund in fundProperties {
        result := SpreadFund(result, fundProperties[fund], amount, parse);
      } else {
        noFundDataList := noFundDataList + [fund];
      }
    }
    assert entries[..|entries|] == entries;
  }

  /**
   * The loop over a configured fund's property types (app/index.js:67-82):
   * create each type's entry on demand, then spread over its names.
   */
  method SpreadFund(start: ResultSet, props: FundProperties, amount: Num, parse: string -> Num)
    returns (result: ResultSet)
    ensures result == CreditFund(start, props, amount, parse)
  {
    result := start;
    for j := 0 to |props|
      invariant result == CreditFund(start, props[..j], amount, parse)
    {
      assert props[..j + 1][..j] == props[..j];
      var (propertyType, propertyData) := props[j];
      if propertyType !in result.at {
        result := result.Put(propertyType, Empty());
      }
      result := SpreadType(result, propertyType, propertyData, amount, parse);
    }
    assert props[..|props|] == props;
  }

  /**
   * The loop over one property type's names (app/index.js:74-81): seed each
   * entry with 0 on demand, then add `percentage * amount` when both are numbers.
   */
  method SpreadType(start: ResultSet, propertyType: string, propertyData: PropertyData, amount: Num, parse: string -> Num)
    returns (result: ResultSet)
    requires propertyType in start.at
    ensures result == CreditNames(start, propertyType, propertyData, amount, parse)
  {
    result := start;
    for k := 0 to |propertyData|
      invariant result == CreditNames(start, propertyType, propertyData[..k], amount, parse)
    {
      assert propertyData[..k + 1][..k] == propertyData[..k];
      var (propertyName, propertyPercentage) := propertyData[k];
      if propertyName !in result.at[propertyType].at {
        result := result.Put(propertyType, result.at[propertyType].Put(propertyName, Val(0.0)));
      }
      var percentage := ParseFloat(parse, propertyPercentage);
      if percentage.Val? && amount.Val? {
        WeightIsProduct(percentage, amount);
        result := result.Put(propertyType, result.at[propertyType].Put(propertyName,
          Add(result.at[propertyType].at[propertyName], Val(percentage.v * amount.v))));
      }
    }
    assert propertyData[..|propertyData|] == propertyData;
  }
}
