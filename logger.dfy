/**
 * The trial logger (logger.py `DataLogger`): the fields `add_trial` derives
 * before appending a record, the append-only record list, the columns the CSV
 * keeps and their order, and the trial counts of the summary.
 *
 * A record is a dictionary from column names to values. Writing files, the
 * JSON metadata and the timestamps are not modelled.
 */
module Logger {
  import opened Options
  import opened Config
  import opened Utils

  /** A value of a record: Python's `None`, a number or a string. */
  datatype Value = Null | Num(x: real) | Str(s: string)

  type Record = map<string, Value>

  /** `record.get(key)`: `None` for a missing key. */
  function Get(r: Record, key: string): Value {
    if key in r then r[key] else Null
  }

  /** A number or `None` as an optional number. */
  function AsOption(v: Value): Option<real> {
    if v.Num? then Some(v.x) else None
  }

  /**
   * The values `add_trial` subtracts are not strings (Python's arithmetic
   * raises on one): an Active trial's delay, when it has one, and the two
   * times, when both are present. A string elsewhere is kept as it is.
   */
  predicate NumericTimes(r: Record) {
    (Get(r, "trial_type") == Str("Active") && Get(r, "delay_ms") != Null ==> !Get(r, "delay_ms").Str?) &&
    (Get(r, "t_tone_ms") != Null && Get(r, "t_click_ms") != Null ==>
      !Get(r, "t_tone_ms").Str? && !Get(r, "t_click_ms").Str?)
  }

  /** The record `add_trial` appends: the input with the epsilon fields and the measured latency set. */
  function WithDerived(r: Record): Record
    requires NumericTimes(r)
  {
    var eps :=
      if Get(r, "trial_type") == Str("Active") && Get(r, "delay_ms") != Null
      then CalculateEpsilon(Some(Get(r, "delay_ms").x))
      else (None, None);
    var latency :=
      if Get(r, "t_tone_ms") != Null && Get(r, "t_click_ms") != Null
      then Num(Get(r, "t_tone_ms").x - Get(r, "t_click_ms").x)
      else Null;
    r["epsilon_k" := OptionValue(eps.0)]["epsilon_k_squared" := OptionValue(eps.1)]["actual_tone_latency_ms" := latency]
  }

  function OptionValue(o: Option<real>): Value {
    if o.Some? then Num(o.value) else Null
  }

  /**
   * The derived fields: `epsilon_k` is `delay - MU_0` and `epsilon_k_squared`
   * its square exactly for an Active trial with a delay, both `None`
   * otherwise; the latency is `t_tone - t_click` when both times are present
   * and `None` otherwise; every other key keeps its value.
   */
  lemma {:induction false} DerivedFields(r: Record)
    requires NumericTimes(r)
    ensures var d := WithDerived(r);
      var active := Get(r, "trial_type") == Str("Active") && Get(r, "delay_ms").Num?;
      (active ==> (d["epsilon_k"] == Num(Get(r, "delay_ms").x - MU_0 as real) &&
        d["epsilon_k_squared"] == Num(d["epsilon_k"].x * d["epsilon_k"].x))) &&
      (!active ==> d["epsilon_k"] == Null && d["epsilon_k_squared"] == Null)
    ensures var d := WithDerived(r);
      (Get(r, "t_tone_ms").Num? && Get(r, "t_click_ms").Num? ==>
        d["actual_tone_latency_ms"] == Num(Get(r, "t_tone_ms").x - Get(r, "t_click_ms").x)) &&
      (Get(r, "t_tone_ms") == Null || Get(r, "t_click_ms") == Null ==> d["actual_tone_latency_ms"] == Null)
    ensures WithDerived(r).Keys == r.Keys + {"epsilon_k", "epsilon_k_squared", "actual_tone_latency_ms"}
    ensures forall k :: k in r && k !in {"epsilon_k", "epsilon_k_squared", "actual_tone_latency_ms"} ==>
      WithDerived(r)[k] == r[k]
  {
  }

  /** `columns_order` of `save_csv`. */
  const COLUMNS_ORDER: seq<string> := [
    "trial_index_global", "trial_index_in_block", "block_id", "trial_type", "delay_ms",
    "scheduled_delay_ms", "t_click_ms", "t_tone_ms", "actual_tone_latency_ms",
    "boundary_cross_time_ms", "soa_rating", "epsilon_k", "epsilon_k_squared", "sigma",
    "response_time_ms"]

  /** The columns of the DataFrame built from `data`: every key of some record. */
  function Columns(data: seq<Record>): set<string> {
    if data == [] then {} else data[0].Keys + Columns(data[1..])
  }

  lemma {:induction false} ColumnsAreKeys(data: seq<Record>, c: string)
    ensures c in Columns(data) <==> exists i :: 0 <= i < |data| && c in data[i]
    decreases |data|
  {
    if data != [] {
      ColumnsAreKeys(data[1..], c);
      if c in Columns(data[1..]) {
        var i :| 0 <= i < |data[1..]| && c in data[1..][i];
        assert c in data[i + 1];
      }
      if exists i :: 0 <= i < |data| && c in data[i] {
        var i :| 0 <= i < |data| && c in data[i];
        if i > 0 {
          assert c in data[1..][i - 1];
        }
      }
    }
  }

  /** `[col for col in order if col in present]`. */
  function SelectColumns(order: seq<string>, present: set<string>): (r: seq<string>) {
    if order == [] then []
    else (if order[0] in present then [order[0]] else []) + SelectColumns(order[1..], present)
  }

  /** The position of `c` in `s`, or `|s|` when it is absent. */
  function IndexOf(s: seq<string>, c: string): (r: nat)
    ensures r <= |s|
    ensures r < |s| ==> s[r] == c
  {
    if s == [] then 0 else if s[0] == c then 0 else 1 + IndexOf(s[1..], c)
  }

  predicate Distinct(s: seq<string>) {
    forall i, j :: 0 <= i < j < |s| ==> s[i] != s[j]
  }

  /** The selected columns are exactly the columns of `order` that are present. */
  lemma {:induction false} SelectColumnsMembers(order: seq<string>, present: set<string>)
    ensures forall c :: c in SelectColumns(order, present) <==> c in order && c in present
    decreases |order|
  {
    if order != [] {
      SelectColumnsMembers(order[1..], present);
      assert forall c :: c in order <==> c == order[0] || c in order[1..] by {
        assert order == [order[0]] + order[1..];
      }
    }
  }

  /** A column of `order` after its first is found one position further on in `order` than in its tail. */
  lemma {:induction false} IndexOfTail(order: seq<string>, c: string)
    requires order != [] && c != order[0]
    ensures IndexOf(order, c) == 1 + IndexOf(order[1..], c)
  {
  }

  /**
   * When `order` has no repeats, the selected columns come in the order
   * `order` lists them, each once.
   */
  lemma {:induction false} SelectColumnsOrdered(order: seq<string>, present: set<string>)
    requires Distinct(order)
    ensures forall i, j :: 0 <= i < j < |SelectColumns(order, present)| ==>
      IndexOf(order, SelectColumns(order, present)[i]) < IndexOf(order, SelectColumns(order, present)[j])
    ensures Distinct(SelectColumns(order, present))
    decreases |order|
  {
    var r := SelectColumns(order, present);
    if order != [] {
      var tail := order[1..];
      var rest := SelectColumns(tail, present);
      assert Distinct(tail);
      SelectColumnsOrdered(tail, present);
      assert order[0] !in rest by {
        SelectColumnsMembers(tail, present);
        assert forall k :: 0 <= k < |tail| ==> tail[k] == order[k + 1];
      }
      var h := if order[0] in present then 1 else 0;
      assert r == (if h == 1 then [order[0]] else []) + rest;
      forall i, j | 0 <= i < j < |r| ensures IndexOf(order, r[i]) < IndexOf(order, r[j]) {
        assert r[j] == rest[j - h];
        IndexOfTail(order, rest[j - h]);
        if i >= h {
          assert r[i] == rest[i - h];
          IndexOfTail(order, rest[i - h]);
        }
      }
    }
    forall i, j | 0 <= i < j < |r| ensures r[i] != r[j] {
      assert IndexOf(order, r[i]) < IndexOf(order, r[j]);
    }
  }

  /** The listed columns are fifteen different names. */
  lemma ColumnsOrderDistinct()
    ensures |COLUMNS_ORDER| == 15 && Distinct(COLUMNS_ORDER)
  {
  }

  /** The number of records whose `trial_type` is `t`. */
  function CountType(data: seq<Record>, t: string): (r: nat)
    ensures r <= |data|
  {
    if data == [] then 0
    else (if Get(data[0], "trial_type") == Str(t) then 1 else 0) + CountType(data[1..], t)
  }

  /** No record is counted as both Active and Pre-tone, so the two counts never exceed the number of records. */
  lemma {:induction false} CountsBounded(data: seq<Record>)
    ensures CountType(data, "Active") + CountType(data, "Pre-tone") <= |data|
    decreases |data|
  {
    if data != [] {
      CountsBounded(data[1..]);
    }
  }

  /** Appending a record adds one to the count of its own type and leaves the other counts. */
  lemma {:induction false} CountAppend(data: seq<Record>, r: Record, t: string)
    ensures CountType(data + [r], t) == CountType(data, t) + (if Get(r, "trial_type") == Str(t) then 1 else 0)
    decreases |data|
  {
    if data == [] {
      assert (data + [r])[1..] == [];
    } else {
      assert (data + [r])[1..] == data[1..] + [r];
      CountAppend(data[1..], r, t);
    }
  }

  /** The logger: its participant, its seed and the records so far. */
  class DataLogger {
    const participantId: string
    const seed: int
    var data: seq<Record>

    constructor (participantId: string, seed: int)
      ensures this.participantId == participantId && this.seed == seed && data == []
    {
      this.participantId := participantId;
      this.seed := seed;
      data := [];
    }

    /** `add_trial`: one record appended at the end with its derived fields; the earlier records stay as they were. */
    method AddTrial(trialData: Record)
      requires NumericTimes(trialData)
      modifies this
      ensures data == old(data) + [WithDerived(trialData)]
    {
      var t := trialData;
      if Get(t, "trial_type") == Str("Active") && Get(t, "delay_ms") != Null {
        var (epsilon, epsilonSquared) := CalculateEpsilon(Some(t["delay_ms"].x));
        t := t["epsilon_k" := OptionValue(epsilon)];
        t := t["epsilon_k_squared" := OptionValue(epsilonSquared)];
      } else {
        t := t["epsilon_k" := Null];
        t := t["epsilon_k_squared" := Null];
      }
      if Get(t, "t_tone_ms") != Null && Get(t, "t_click_ms") != Null {
        var actualLatency := t["t_tone_ms"].x - t["t_click_ms"].x;
        t := t["actual_tone_latency_ms" := Num(actualLatency)];
      } else {
        t := t["actual_tone_latency_ms" := Null];
      }
      data := data + [t];
    }

    /** The columns `save_csv` writes, in order. */
    function CsvColumns(): (r: seq<string>)
      reads this
      ensures forall c :: c in r <==> c in COLUMNS_ORDER && exists i :: 0 <= i < |data| && c in data[i]
      ensures Distinct(r)
    {
      CsvColumnsSpec(data);
      SelectColumns(COLUMNS_ORDER, Columns(data))
    }

    /** `get_summary`'s counts: all records, Active records, Pre-tone records. */
    function Summary(): (r: (nat, nat, nat))
      reads this
      ensures r.0 == |data| && r.1 + r.2 <= r.0
      ensures r.1 == CountType(data, "Active") && r.2 == CountType(data, "Pre-tone")
    {
      CountsBounded(data);
      (|data|, CountType(data, "Active"), CountType(data, "Pre-tone"))
    }
  }

  /**
   * The CSV keeps a listed column exactly when some record has it, each once,
   * in the listed order.
   */
  lemma {:induction false} CsvColumnsSpec(data: seq<Record>)
    ensures forall c :: c in SelectColumns(COLUMNS_ORDER, Columns(data)) <==>
      c in COLUMNS_ORDER && exists i :: 0 <= i < |data| && c in data[i]
    ensures Distinct(SelectColumns(COLUMNS_ORDER, Columns(data)))
    ensures var cols := SelectColumns(COLUMNS_ORDER, Columns(data));
      forall i, j :: 0 <= i < j < |cols| ==> IndexOf(COLUMNS_ORDER, cols[i]) < IndexOf(COLUMNS_ORDER, cols[j])
  {
    ColumnsOrderDistinct();
    SelectColumnsMembers(COLUMNS_ORDER, Columns(data));
    SelectColumnsOrdered(COLUMNS_ORDER, Columns(data));
    forall c ensures c in Columns(data) <==> exists i :: 0 <= i < |data| && c in data[i] {
      ColumnsAreKeys(data, c);
    }
  }

  /**
   * After `add_trial` the summary counts one more record, and one more of its
   * type when it is Active or Pre-tone: the derived fields never change the
   * trial type.
   */
  lemma {:induction false} SummaryAfterAdd(data: seq<Record>, r: Record)
    requires NumericTimes(r)
    ensures CountType(data + [WithDerived(r)], "Active") ==
      CountType(data, "Active") + (if Get(r, "trial_type") == Str("Active") then 1 else 0)
    ensures CountType(data + [WithDerived(r)], "Pre-tone") ==
      CountType(data, "Pre-tone") + (if Get(r, "trial_type") == Str("Pre-tone") then 1 else 0)
  {
    assert Get(WithDerived(r), "trial_type") == Get(r, "trial_type");
    CountAppend(data, WithDerived(r), "Active");
    CountAppend(data, WithDerived(r), "Pre-tone");
  }
}
