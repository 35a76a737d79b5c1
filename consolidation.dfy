/**
 * The first pass of `summarizeFunction`: the parsed portfolio records are
 * folded into a summary that maps each fund to the total of its amounts.
 */
module Consolidation {
  import opened Values
  import opened OrderedMaps

  /** One row of the portfolio CSV: its `fund` column (if any) and its raw `amount`. */
  datatype Record = Record(fund: Option<string>, amount: Raw)

  /** `portfolioSummary`: fund to summed amount, funds in order of first appearance. */
  type Summary = OMap<Num>

  /** What one loop iteration does to the summary with one record. */
  function Absorb(s: Summary, r: Record, parse: string -> Num): Summary
  {
    match r.fund
    case None => s
    case Some(f) =>
      var x := ParseFloat(parse, r.amount);
      if f in s.at then s.Put(f, Add(s.at[f], x)) else s.Put(f, x)
  }

  /** The summary after the loop has seen `records`, in order. */
  function Consolidated(records: seq<Record>, parse: string -> Num): (s: Summary)
    ensures s.Valid()
  {
    if records == [] then Empty()
    else Absorb(Consolidated(records[..|records| - 1], parse), records[|records| - 1], parse)
  }

  /** The funds named by some record. */
  function Funds(records: seq<Record>): (fs: set<string>)
    ensures forall f :: f in fs <==> exists i :: 0 <= i < |records| && records[i].fund == Some(f)
  {
    if records == [] then {}
    else
      var last := records[|records| - 1];
      var prev := Funds(records[..|records| - 1]);
      assert forall i :: 0 <= i < |records| - 1 ==> records[..|records| - 1][i] == records[i];
      if last.fund.Some? then prev + {last.fund.value} else prev
  }

  /** The parsed amounts of the records of fund `f`, in record order. */
  function AmountsOf(records: seq<Record>, f: string, parse: string -> Num): seq<Num>
  {
    if records == [] then []
    else
      var last := records[|records| - 1];
      var prev := AmountsOf(records[..|records| - 1], f, parse);
      if last.fund == Some(f) then prev + [ParseFloat(parse, last.amount)] else prev
  }

  /** The records that carry a fund, in order. */
  function Defined(records: seq<Record>): seq<Record>
  {
    if records == [] then []
    else
      var last := records[|records| - 1];
      var prev := Defined(records[..|records| - 1]);
      if last.fund.Some? then prev + [last] else prev
  }

  /**
   * Every record of fund `g` comes after some record of fund `f`: `f` was
   * seen first.
   */
  ghost predicate SeenBefore(records: seq<Record>, f: string, g: string)
  {
    forall q :: 0 <= q < |records| && records[q].fund == Some(g) ==> f in Funds(records[..q])
  }

  /** The summary has one key per distinct fund named in the records, and no other. */
  lemma {:induction false} ConsolidatedKeys(records: seq<Record>, parse: string -> Num)
    ensures Consolidated(records, parse).at.Keys == Funds(records)
  {
    if records != [] {
      ConsolidatedKeys(records[..|records| - 1], parse);
    }
  }

  /** The summary lists its funds in the order in which they first appear. */
  lemma ConsolidatedOrder(records: seq<Record>, parse: string -> Num)
    ensures var keys := Consolidated(records, parse).keys;
      forall i, j :: 0 <= i < j < |keys| ==> SeenBefore(records, keys[i], keys[j])
  {
    var keys := Consolidated(records, parse).keys;
    forall i, j, q | 0 <= i < j < |keys| && 0 <= q < |records| && records[q].fund == Some(keys[j])
      ensures keys[i] in Funds(records[..q])
    {
      OrderAt(records, parse, i, j, q);
    }
  }

  /** One loop iteration appends the record's fund to the keys when it is new, and otherwise keeps them. */
  lemma KeysStep(records: seq<Record>, parse: string -> Num)
    requires records != []
    ensures var s := Consolidated(records[..|records| - 1], parse);
      var r := records[|records| - 1];
      Consolidated(records, parse).keys == if r.fund.Some? && r.fund.value !in s.at then s.keys + [r.fund.value] else s.keys
  {
  }

  /** One instance of the order: record `q` names the later key `j`, so key `i` was seen before it. */
  lemma {:induction false} OrderAt(records: seq<Record>, parse: string -> Num, i: nat, j: nat, q: nat)
    requires i < j < |Consolidated(records, parse).keys|
    requires q < |records| && records[q].fund == Some(Consolidated(records, parse).keys[j])
    ensures Consolidated(records, parse).keys[i] in Funds(records[..q])
    decreases |records|
  {
    var n := |records| - 1;
    var pre := records[..n];
    var s := Consolidated(pre, parse);
    var r := records[n];
    ConsolidatedKeys(pre, parse);
    var keys := Consolidated(records, parse).keys;
    KeysStep(records, parse);
    assert keys[i] == s.keys[i];
    if q < n {
      var g := records[q].fund.value;
      assert pre[q] == records[q];
      assert g in s.at;
      assert j < |s.keys|;
      assert keys[j] == s.keys[j];
      assert records[..q] == pre[..q];
      OrderAt(pre, parse, i, j, q);
    } else {
      assert records[..q] == pre;
      assert s.keys[i] in s.at;
    }
  }

  /** A fund no record names has no amounts. */
  lemma {:induction false} NoAmounts(records: seq<Record>, f: string, parse: string -> Num)
    requires f !in Funds(records)
    ensures AmountsOf(records, f, parse) == []
  {
    if records != [] {
      assert f !in Funds(records[..|records| - 1]);
      NoAmounts(records[..|records| - 1], f, parse);
    }
  }

  /**
   * Each fund's summary value is the running sum of the parsed amounts of
   * all its records: NaN exactly when one of them is NaN, and otherwise the
   * ordinary sum.
   */
  lemma {:induction false} ConsolidatedAmounts(records: seq<Record>, parse: string -> Num)
    ensures var s := Consolidated(records, parse);
      forall f :: f in s.at ==> s.at[f] == Sum(AmountsOf(records, f, parse))
  {
    if records != [] {
      var n := |records| - 1;
      var pre := records[..n];
      ConsolidatedAmounts(pre, parse);
      ConsolidatedKeys(pre, parse);
      var s := Consolidated(pre, parse);
      var r := records[n];
      if r.fund.Some? {
        var f := r.fund.value;
        var x := ParseFloat(parse, r.amount);
        SumSnoc(AmountsOf(pre, f, parse), x);
        if f !in s.at {
          NoAmounts(pre, f, parse);
          assert Sum([x]) == Add(Sum([]), x);
        }
      }
    }
  }

  /**
   * A fund's summary value is NaN exactly when one of its records has an
   * amount that parses to NaN; otherwise it is the ordinary sum of the amounts.
   */
  lemma NaNPoisonsFund(records: seq<Record>, f: string, parse: string -> Num)
    requires f in Consolidated(records, parse).at
    ensures Consolidated(records, parse).at[f] == NaN <==>
      exists i :: 0 <= i < |records| && records[i].fund == Some(f) && ParseFloat(parse, records[i].amount) == NaN
    ensures NaN !in AmountsOf(records, f, parse) ==>
              Consolidated(records, parse).at[f] == Val(RealSum(AmountsOf(records, f, parse)))
  {
    ConsolidatedAmounts(records, parse);
    AmountsNaN(records, f, parse);
    if NaN !in AmountsOf(records, f, parse) {
      SumOfNumbers(AmountsOf(records, f, parse));
    }
  }

  /** A fund's amounts include NaN exactly when one of its records has an amount that parses to NaN. */
  lemma {:induction false} AmountsNaN(records: seq<Record>, f: string, parse: string -> Num)
    ensures NaN in AmountsOf(records, f, parse) <==>
      exists i :: 0 <= i < |records| && records[i].fund == Some(f) && ParseFloat(parse, records[i].amount) == NaN
  {
    if records != [] {
      var n := |records| - 1;
      AmountsNaN(records[..n], f, parse);
      assert forall i :: 0 <= i < n ==> records[..n][i] == records[i];
    }
  }

  /** Records without a fund have no effect: only the records with one matter. */
  lemma {:induction false} UndefinedFundsIgnored(records: seq<Record>, parse: string -> Num)
    ensures Consolidated(Defined(records), parse) == Consolidated(records, parse)
  {
    if records != [] {
      var n := |records| - 1;
      UndefinedFundsIgnored(records[..n], parse);
      if records[n].fund.Some? {
        var d := Defined(records);
        assert d[..|d| - 1] == Defined(records[..n]);
      }
    }
  }

  /**
   * The consolidation loop (app/index.js:48-56): an index loop over the
   * records that seeds or adds to each fund's entry.
   */
  method Consolidate(records: seq<Record>, parse: string -> Num) returns (portfolioSummary: Summary)
    ensures portfolioSummary == Consolidated(records, parse)
  {
    portfolioSummary := Empty();
    for a := 0 to |records|
      invariant portfolioSummary == Consolidated(records[..a], parse)
    {
      assert records[..a + 1][..a] == records[..a];
      var record := records[a];
      if record.fund.Some? {
        var fund := record.fund.value;
        if fund !in portfolioSummary.at {
          portfolioSummary := portfolioSummary.Put(fund, ParseFloat(parse, record.amount));
        } else {
          portfolioSummary := portfolioSummary.Put(fund, Add(portfolioSummary.at[fund], ParseFloat(parse, record.amount)));
        }
      }
    }
    assert records[..|records|] == records;
  }
}
