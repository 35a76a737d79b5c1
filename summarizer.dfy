/**
 * `summarizeFunction` as a whole (app/index.js:34-94): consolidate the
 * portfolio, if there is one, then weigh the summary against the
 * configuration, if there is one. A missing file is a missing input.
 */
module Summarizer {
  import opened Values
  import opened OrderedMaps
  import opened Consolidation
  import opened Weighting

  /** What `summarizeFunction` hands to the display code, given its two inputs. */
  function Summarized(portfolio: Option<seq<Record>>, config: Option<Config>, parse: string -> Num): Outcome
  {
    var summary := if portfolio.Some? then Consolidated(portfolio.value, parse) else Empty();
    if config.Some? then Weighed(summary.Entries(), config.value, parse)
    else Outcome(Empty(), Val(0.0), [])
  }

  /**
   * `summarizeFunction` without its display calls: `portfolio` is the parsed
   * CSV when the portfolio file exists, `config` the required JSON when the
   * configuration file exists.
   */
  method Summarize(portfolio: Option<seq<Record>>, config: Option<Config>, parse: string -> Num)
    returns (result: ResultSet, total: Num, noFundDataList: seq<string>)
    ensures Outcome(result, total, noFundDataList) == Summarized(portfolio, config, parse)
    ensures portfolio.None? || config.None? ==> result == Empty() && total == Val(0.0) && noFundDataList == []
  {
    var portfolioSummary: Summary := Empty();
    if portfolio.Some? {
      portfolioSummary := Consolidate(portfolio.value, parse);
    }
    result, total, noFundDataList := Empty(), Val(0.0), [];
    if config.Some? {
      result, total, noFundDataList := Weigh(portfolioSummary.Entries(), config.value, parse);
    }
  }

  /**
   * With both inputs present, `total` is NaN exactly when some record that
   * names a fund has an amount that parses to NaN, matched or not.
   */
  lemma TotalPoisoned(records: seq<Record>, config: Config, parse: string -> Num)
    ensures Summarized(Some(records), Some(config), parse).total == NaN <==>
      exists i :: 0 <= i < |records| && records[i].fund.Some? && ParseFloat(parse, records[i].amount) == NaN
  {
    var s := Consolidated(records, parse);
    var es := s.Entries();
    WeighedTotal(es, config, parse);
    ConsolidatedKeys(records, parse);
    if NaN in Amounts(es) {
      var k :| 0 <= k < |es| && Amounts(es)[k] == NaN;
      NaNPoisonsFund(records, s.keys[k], parse);
    } else {
      forall i | 0 <= i < |records| && records[i].fund.Some?
        ensures ParseFloat(parse, records[i].amount) != NaN
      {
        var f := records[i].fund.value;
        assert f in s.keys;
        var k :| 0 <= k < |s.keys| && s.keys[k] == f;
        assert Amounts(es)[k] == s.at[f];
        NaNPoisonsFund(records, f, parse);
      }
    }
  }

  /**
   * With both inputs present, `noFundDataList` lists each fund named in the
   * portfolio that has no configuration, once, in order of first appearance,
   * and nothing else.
   */
  lemma SummarizedUnmatched(records: seq<Record>, config: Config, parse: string -> Num)
    ensures var u := Summarized(Some(records), Some(config), parse).unmatched;
      && (forall f :: f in u <==> f in Funds(records) && f !in config)
      && (forall i, j :: 0 <= i < j < |u| ==> u[i] != u[j])
      && u == Unconfigured(Consolidated(records, parse).Entries(), config)
  {
    var s := Consolidated(records, parse);
    var es := s.Entries();
    WeighedUnmatched(es, config, parse);
    ConsolidatedKeys(records, parse);
    UnconfiguredDistinct(es, config);
    forall f | f in Funds(records) && f !in config
      ensures exists i :: 0 <= i < |es| && es[i].0 == f
    {
      assert f in s.keys;
      var k :| 0 <= k < |s.keys| && s.keys[k] == f;
      assert es[k].0 == f;
    }
  }

  /** The example portfolio: two records of fund A, for 100 and for 50. */
  function ExampleRecords(): seq<Record>
  {
    [Record(Some("A"), Text("100")), Record(Some("A"), Text("50"))]
  }

  /** The example configuration: A is 0.6 Equity and 0.4 Bond under Class. */
  function ExampleConfig(): Config
  {
    map["A" := [("Class", [("Equity", Number(0.6)), ("Bond", Number(0.4))])]]
  }

  /** Consolidating the example portfolio gives the single entry A: 150. */
  lemma ExampleSummary(parse: string -> Num)
    requires parse("100") == Val(100.0) && parse("50") == Val(50.0)
    ensures Consolidated(ExampleRecords(), parse).Entries() == [("A", Val(150.0))]
  {
    var records := ExampleRecords();
    assert records[..1] == [Record(Some("A"), Text("100"))];
    assert Consolidated(records[..1], parse) == OMap(["A"], map["A" := Val(100.0)]);
  }

  /** Weighing the entry A: 150 against the example configuration: its total, types and unmatched funds. */
  lemma ExampleWeighedShape(parse: string -> Num)
    ensures var o := Weighed([("A", Val(150.0))], ExampleConfig(), parse);
      o.total == Val(150.0) && o.result.at.Keys == {"Class"} && o.unmatched == []
  {
    var es := [("A", Val(150.0))];
    var config := ExampleConfig();
    assert es[..0] == [];
    WeighedTotal(es, config, parse);
    assert Amounts(es) == [Val(150.0)];
    WeighedTypes(es, config, parse);
    assert TypesOf(config["A"]) == {"Class"};
    WeighedUnmatched(es, config, parse);
  }

  /** Weighing the entry A: 150 against the example configuration: its two entries. */
  lemma ExampleWeighedEntries(parse: string -> Num)
    ensures var r := Weighed([("A", Val(150.0))], ExampleConfig(), parse).result;
      Lookup(r, "Class", "Equity") == Val(90.0) && Lookup(r, "Class", "Bond") == Val(60.0)
  {
    var es := [("A", Val(150.0))];
    var data: PropertyData := [("Equity", Number(0.6)), ("Bond", Number(0.4))];
    var props: FundProperties := [("Class", data)];
    var config := ExampleConfig();
    assert es[..0] == [];
    WeighedLookup(es, config, parse, "Class", "Equity");
    WeighedLookup(es, config, parse, "Class", "Bond");
    assert props[..0] == [];
    assert data[..1] == [("Equity", Number(0.6))];
    assert data[..1][..0] == [];
    assert NameExposure(data, "Equity", Val(150.0), parse) == 90.0;
    assert NameExposure(data, "Bond", Val(150.0), parse) == 60.0;
  }

  /**
   * The worked example: two records of fund A (100 and 50) and a
   * configuration giving A 0.6 Equity and 0.4 Bond under Class yield a total
   * of 150, Class/Equity 90 and Class/Bond 60, and no unmatched fund.
   */
  lemma WorkedExample(parse: string -> Num)
    requires parse("100") == Val(100.0) && parse("50") == Val(50.0)
    ensures var o := Summarized(Some(ExampleRecords()), Some(ExampleConfig()), parse);
      && o.total == Val(150.0)
      && o.result.at.Keys == {"Class"}
      && Lookup(o.result, "Class", "Equity") == Val(90.0)
      && Lookup(o.result, "Class", "Bond") == Val(60.0)
      && o.unmatched == []
  {
    ExampleSummary(parse);
    ExampleWeighedShape(parse);
    ExampleWeighedEntries(parse);
  }
}
