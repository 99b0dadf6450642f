/** The app's "Treatment Recommendations Summary": the dictionary
    `drug_summary` that counts, per key "name (class)", how many of all the
    recommendations rate the drug High, Medium and Low, and how many there
    are in total. Rows are kept in the order their keys first appear, as a
    Python dictionary keeps insertion order. */
module DrugTally {
  import opened Wrappers
  import opened Records

  /** `f"{drug['name']} ({drug['class']})"`. */
  function DrugKey(r: Recommendation): string
  {
    r.name + " (" + r.drugClass + ")"
  }

  /** What the tally reads of one recommendation: its key and efficacy. */
  datatype Entry = Entry(key: string, efficacy: Efficacy)

  function Entries(recs: seq<Recommendation>): (es: seq<Entry>)
    ensures |es| == |recs|
    ensures forall k :: 0 <= k < |recs| ==> es[k] == Entry(DrugKey(recs[k]), recs[k].efficacy)
  {
    seq(|recs|, k requires 0 <= k < |recs| => Entry(DrugKey(recs[k]), recs[k].efficacy))
  }

  /** One row of `drug_summary`: the key and its four counters. */
  datatype Tally = Tally(key: string, high: nat, medium: nat, low: nat, total: nat)

  /** The position of `key` among the rows, if any: the dictionary lookup. */
  function Find(rows: seq<Tally>, key: string): (o: Option<nat>)
    ensures o.Some? ==> o.value < |rows| && rows[o.value].key == key
                        && forall k :: 0 <= k < o.value ==> rows[k].key != key
    ensures o.None? ==> forall k :: 0 <= k < |rows| ==> rows[k].key != key
  {
    if |rows| == 0 then None
    else if rows[0].key == key then Some(0)
    else match Find(rows[1..], key)
      case None => None
      case Some(j) => Some(j + 1)
  }

  /** One more recommendation of efficacy `e`: the counter named by
      `e.lower()` and the total go up by one. */
  function Bump(t: Tally, e: Efficacy): (t': Tally)
    requires e != Unrated
    ensures t'.key == t.key
  {
    match e
    case High => t.(high := t.high + 1, total := t.total + 1)
    case Medium => t.(medium := t.medium + 1, total := t.total + 1)
    case Low => t.(low := t.low + 1, total := t.total + 1)
  }

  /** Counting one entry: its row is bumped, or a zeroed row is added at the
      end and bumped. */
  function Count(rows: seq<Tally>, x: Entry): seq<Tally>
    requires x.efficacy != Unrated
  {
    match Find(rows, x.key)
    case Some(i) => rows[i := Bump(rows[i], x.efficacy)]
    case None => rows + [Bump(Tally(x.key, 0, 0, 0, 0), x.efficacy)]
  }

  predicate AllRated(es: seq<Entry>)
  {
    forall k :: 0 <= k < |es| ==> es[k].efficacy != Unrated
  }

  /** `drug_summary` after counting the entries in order. */
  function TallyOf(es: seq<Entry>): seq<Tally>
    requires AllRated(es)
  {
    if |es| == 0 then [] else Count(TallyOf(es[..|es| - 1]), es[|es| - 1])
  }

  /** The tally loop over `all_drugs`. A "None" efficacy would raise
      `KeyError` at `drug_summary[key]['none']`; the engine never produces
      one. */
  method DrugSummary(recs: seq<Recommendation>) returns (rows: seq<Tally>)
    requires AllRated(Entries(recs))
    ensures rows == TallyOf(Entries(recs))
  {
    ghost var es := Entries(recs);
    rows := [];
    var k := 0;
    while k < |recs|
      invariant 0 <= k <= |recs|
      invariant rows == TallyOf(es[..k])
    {
      var r := recs[k];
      var key := DrugKey(r);
      var j := 0;
      while j < |rows| && rows[j].key != key
        invariant 0 <= j <= |rows|
        invariant forall i :: 0 <= i < j ==> rows[i].key != key
      {
        j := j + 1;
      }
      if j == |rows| {
        rows := rows + [Tally(key, 0, 0, 0, 0)];
      }
      rows := rows[j := Bump(rows[j], r.efficacy)];
      assert es[..k + 1][..k] == es[..k];
      k := k + 1;
    }
    assert es[..k] == es;
  }

  /** What counting one entry does to the rows, without unfolding the
      lookup: either one existing row, the one with the entry's key, is
      bumped, or a new row for the key is appended. */
  lemma CountShape(rows: seq<Tally>, x: Entry)
    requires x.efficacy != Unrated
    ensures var rows' := Count(rows, x);
      || (exists idx :: 0 <= idx < |rows| && rows[idx].key == x.key
            && rows' == rows[idx := Bump(rows[idx], x.efficacy)])
      || ((forall i :: 0 <= i < |rows| ==> rows[i].key != x.key)
            && rows' == rows + [Bump(Tally(x.key, 0, 0, 0, 0), x.efficacy)])
    ensures var rows' := Count(rows, x);
      && |rows| <= |rows'| <= |rows| + 1
      && forall i :: 0 <= i < |rows'| ==> rows'[i].key == if i < |rows| then rows[i].key else x.key
  {
  }

  /** How many of the entries have key `key` (and efficacy `e`, when
      given). */
  function Occurrences(es: seq<Entry>, key: string, e: Option<Efficacy>): nat
  {
    if |es| == 0 then 0
    else
      var x := es[|es| - 1];
      Occurrences(es[..|es| - 1], key, e) + (if x.key == key && (e.None? || e == Some(x.efficacy)) then 1 else 0)
  }

  lemma {:induction false} OccurrencesAbsent(es: seq<Entry>, key: string, e: Option<Efficacy>)
    requires forall k :: 0 <= k < |es| ==> es[k].key != key
    ensures Occurrences(es, key, e) == 0
  {
    if |es| > 0 {
      OccurrencesAbsent(es[..|es| - 1], key, e);
    }
  }

  /** No key appears in two rows. */
  lemma {:induction false} TallyKeysDistinct(es: seq<Entry>)
    requires AllRated(es)
    ensures forall i, j :: 0 <= i < j < |TallyOf(es)| ==> TallyOf(es)[i].key != TallyOf(es)[j].key
  {
    if |es| > 0 {
      var init := es[..|es| - 1];
      TallyKeysDistinct(init);
      CountShape(TallyOf(init), es[|es| - 1]);
    }
  }

  predicate HasRow(rows: seq<Tally>, key: string)
  {
    exists i :: 0 <= i < |rows| && rows[i].key == key
  }

  predicate Mentions(es: seq<Entry>, key: string)
  {
    exists k :: 0 <= k < |es| && es[k].key == key
  }

  /** Every entry's key has a row. */
  lemma {:induction false} TallyKeysCover(es: seq<Entry>)
    requires AllRated(es)
    ensures forall k :: 0 <= k < |es| ==> HasRow(TallyOf(es), es[k].key)
  {
    if |es| > 0 {
      var init := es[..|es| - 1];
      var x := es[|es| - 1];
      TallyKeysCover(init);
      var rows := TallyOf(init);
      var rows' := TallyOf(es);
      CountShape(rows, x);
      forall k | 0 <= k < |es| ensures HasRow(rows', es[k].key) {
        if k < |init| {
          assert init[k] == es[k];
          var i :| 0 <= i < |rows| && rows[i].key == init[k].key;
          assert rows'[i].key == es[k].key;
        } else if exists idx :: 0 <= idx < |rows| && rows[idx].key == x.key {
          var idx :| 0 <= idx < |rows| && rows[idx].key == x.key;
          assert rows'[idx].key == x.key;
        } else {
          assert rows'[|rows|].key == x.key;
        }
      }
    }
  }

  /** Every row's key is some entry's key. */
  lemma {:induction false} TallyKeysFromEntries(es: seq<Entry>)
    requires AllRated(es)
    ensures forall i :: 0 <= i < |TallyOf(es)| ==> Mentions(es, TallyOf(es)[i].key)
  {
    if |es| > 0 {
      var init := es[..|es| - 1];
      var x := es[|es| - 1];
      TallyKeysFromEntries(init);
      var rows := TallyOf(init);
      var rows' := TallyOf(es);
      CountShape(rows, x);
      forall i | 0 <= i < |rows'| ensures Mentions(es, rows'[i].key) {
        if i < |rows| {
          var k :| 0 <= k < |init| && init[k].key == rows[i].key;
          assert es[k].key == rows'[i].key;
        } else {
          assert es[|es| - 1].key == rows'[i].key;
        }
      }
    }
  }

  /** A row holds the number of entries with its key, in total and per
      efficacy. */
  predicate RowCounts(es: seq<Entry>, t: Tally)
  {
    && t.total == Occurrences(es, t.key, None)
    && t.high == Occurrences(es, t.key, Some(High))
    && t.medium == Occurrences(es, t.key, Some(Medium))
    && t.low == Occurrences(es, t.key, Some(Low))
  }

  /** Each row holds the number of recommendations with its key, in total
      and per efficacy: the tally is the per-key count. */
  lemma {:induction false} TallyCounts(es: seq<Entry>)
    requires AllRated(es)
    ensures forall i :: 0 <= i < |TallyOf(es)| ==> RowCounts(es, TallyOf(es)[i])
  {
    if |es| > 0 {
      var init := es[..|es| - 1];
      var x := es[|es| - 1];
      TallyCounts(init);
      TallyKeysDistinct(init);
      TallyKeysCover(init);
      var rows := TallyOf(init);
      var rows' := TallyOf(es);
      CountShape(rows, x);
      if forall i :: 0 <= i < |rows| ==> rows[i].key != x.key {
        OccurrencesAbsent(init, x.key, None);
        OccurrencesAbsent(init, x.key, Some(High));
        OccurrencesAbsent(init, x.key, Some(Medium));
        OccurrencesAbsent(init, x.key, Some(Low));
      }
      forall i | 0 <= i < |rows'| ensures RowCounts(es, rows'[i]) {
        if i < |rows| && rows[i].key != x.key {
          assert rows'[i] == rows[i];
        }
      }
    }
  }

  /** Every row's three efficacy counters add up to its total. */
  lemma {:induction false} TallyRowsConsistent(es: seq<Entry>)
    requires AllRated(es)
    ensures forall i :: 0 <= i < |TallyOf(es)| ==>
      TallyOf(es)[i].high + TallyOf(es)[i].medium + TallyOf(es)[i].low == TallyOf(es)[i].total
  {
    if |es| > 0 {
      TallyRowsConsistent(es[..|es| - 1]);
      CountShape(TallyOf(es[..|es| - 1]), es[|es| - 1]);
    }
  }

  /** The totals of all rows. */
  function SumTotals(rows: seq<Tally>): nat
  {
    if |rows| == 0 then 0 else SumTotals(rows[..|rows| - 1]) + rows[|rows| - 1].total
  }

  lemma {:induction false} SumTotalsBumped(rows: seq<Tally>, i: nat, e: Efficacy)
    requires i < |rows| && e != Unrated
    ensures SumTotals(rows[i := Bump(rows[i], e)]) == SumTotals(rows) + 1
  {
    var rows' := rows[i := Bump(rows[i], e)];
    if i < |rows| - 1 {
      assert rows'[..|rows'| - 1] == rows[..|rows| - 1][i := Bump(rows[i], e)];
      SumTotalsBumped(rows[..|rows| - 1], i, e);
    } else {
      assert rows'[..|rows'| - 1] == rows[..|rows| - 1];
    }
  }

  /** The totals add up to the number of recommendations counted. */
  lemma {:induction false} TallyTotalsSum(es: seq<Entry>)
    requires AllRated(es)
    ensures SumTotals(TallyOf(es)) == |es|
  {
    if |es| > 0 {
      var init := es[..|es| - 1];
      var x := es[|es| - 1];
      TallyTotalsSum(init);
      var rows := TallyOf(init);
      CountShape(rows, x);
      if idx :| 0 <= idx < |rows| && rows[idx].key == x.key && TallyOf(es) == rows[idx := Bump(rows[idx], x.efficacy)] {
        SumTotalsBumped(rows, idx, x.efficacy);
      } else {
        var rows' := TallyOf(es);
        assert rows'[..|rows'| - 1] == rows;
      }
    }
  }
}
