/**
 * CompositeSLORecordServiceImpl: turns the SLI records of the SLOs that make up a composite SLO
 * into composite SLO records. A WINDOW composite weighs each SLO's good or bad minute by its
 * weightage and emits a record, with running good and bad counts, for each minute at which every
 * SLO contributed; a REQUEST composite emits, for each minute at which every SLO has a record,
 * the records themselves by scoped identifier. Timestamps are integers (the minute of the
 * Instant) and the double arithmetic is exact `real` arithmetic.
 */
module CompositeSLO {
  import opened Wrappers

  datatype SLIState = Good | Bad | NoData | SkipData

  datatype MissingDataType = MissingGood | MissingBad | MissingIgnore

  /** SLIEvaluationType; the values other than WINDOW and REQUEST are one constructor. */
  datatype EvaluationType = Window | Request | OtherEvaluation

  datatype SLIRecord = SLIRecord(timestamp: int, state: SLIState)

  /** ServiceLevelObjectivesDetail, with the scoped identifier the SLO service computes for it. */
  datatype Detail = Detail(scopedIdentifier: string, weightagePercentage: real)

  /** One entry of the detail -> SLI records map, with the detail's entry of the missing-data map. */
  datatype DetailRecords = DetailRecords(detail: Detail, records: seq<SLIRecord>, missing: MissingDataType)

  datatype CompositeSLORecord = CompositeSLORecord(
    sloId: string,
    verificationTaskId: string,
    sloVersion: int,
    timestamp: int,
    runningGoodCount: real,
    runningBadCount: real,
    scopedIdentifierSLIRecordMap: Option<map<string, SLIRecord>>)

  /** CompositeSLORecord.builder() as both builders use it: the id is the SLO id and the task id. */
  function NewRecord(id: string, sloVersion: int, t: int, good: real, bad: real,
                     sliRecords: Option<map<string, SLIRecord>>): CompositeSLORecord
  {
    CompositeSLORecord(id, id, sloVersion, t, good, bad, sliRecords)
  }

  // ---------------------------------------------------------------------------------------------
  // Per-timestamp values (getTimeStampToValueMaps)

  datatype Contribution = ToGood | ToBad | NoContribution

  /** Which count a record of a detail with the given missing-data type adds to. */
  function Classify(state: SLIState, missing: MissingDataType): Contribution
  {
    if state == Good || (state == NoData && missing == MissingGood) then ToGood
    else if state == Bad || (state == NoData && missing == MissingBad) then ToBad
    else NoContribution
  }

  /** Skipped minutes and minutes without data whose missing-data type is IGNORE count nowhere. */
  lemma ClassifySpec(state: SLIState, missing: MissingDataType)
    ensures Classify(state, missing) == NoContribution <==>
              state == SkipData || (state == NoData && missing == MissingIgnore)
    ensures state == NoData && missing == MissingGood ==> Classify(state, missing) == ToGood
    ensures state == NoData && missing == MissingBad ==> Classify(state, missing) == ToBad
  {
  }

  /** The good and bad weight and the number of contributing records at one timestamp. */
  datatype Tally = Tally(good: real, bad: real, total: nat)

  const NoTally := Tally(0.0, 0.0, 0)

  function Plus(a: Tally, b: Tally): Tally
  {
    Tally(a.good + b.good, a.bad + b.bad, a.total + b.total)
  }

  function Weight(d: Detail): real
  {
    d.weightagePercentage / 100.0
  }

  /** What one SLI record of `e` adds at timestamp `t`. */
  function RecordTally(e: DetailRecords, r: SLIRecord, t: int): Tally
  {
    if r.timestamp != t then NoTally
    else
      match Classify(r.state, e.missing)
      case ToGood => Tally(Weight(e.detail), 0.0, 1)
      case ToBad => Tally(0.0, Weight(e.detail), 1)
      case NoContribution => NoTally
  }

  /** What the records `recs` of `e` add at `t`. */
  function TallyIn(e: DetailRecords, recs: seq<SLIRecord>, t: int): Tally
  {
    if recs == [] then NoTally
    else Plus(TallyIn(e, recs[..|recs| - 1], t), RecordTally(e, recs[|recs| - 1], t))
  }

  /** What all records of all details add at `t`. */
  function TallyAt(entries: seq<DetailRecords>, t: int): Tally
  {
    if entries == [] then NoTally
    else
      var e := entries[|entries| - 1];
      Plus(TallyAt(entries[..|entries| - 1], t), TallyIn(e, e.records, t))
  }

  /** Every SLO of the composite contributed at `t` (the total equals the map's size). */
  predicate Complete(entries: seq<DetailRecords>, t: int)
  {
    TallyAt(entries, t).total > 0 && TallyAt(entries, t).total == |entries|
  }

  /** Map.getOrDefault(t, 0.0). */
  function Lookup(m: map<int, real>, t: int): real
  {
    if t in m then m[t] else 0.0
  }

  /** The three maps hold, for every timestamp, what the records of `prefix` and then `recs` of `e` add. */
  ghost predicate Tabulates(good: map<int, real>, bad: map<int, real>, total: map<int, nat>,
                            prefix: seq<DetailRecords>, e: DetailRecords, recs: seq<SLIRecord>)
  {
    && (forall t :: Lookup(good, t) == TallyAt(prefix, t).good + TallyIn(e, recs, t).good)
    && (forall t :: Lookup(bad, t) == TallyAt(prefix, t).bad + TallyIn(e, recs, t).bad)
    && TabulatesTotal(total, prefix, e, recs)
  }

  ghost predicate TabulatesTotal(total: map<int, nat>, prefix: seq<DetailRecords>, e: DetailRecords,
                                 recs: seq<SLIRecord>)
  {
    forall t ::
      && (t in total <==> TallyAt(prefix, t).total + TallyIn(e, recs, t).total > 0)
      && (t in total ==> total[t] == TallyAt(prefix, t).total + TallyIn(e, recs, t).total)
  }

  /** One record counted into the maps, as the loop body counts it. */
  lemma TabulateRecord(good: map<int, real>, bad: map<int, real>, total: map<int, nat>,
                       good': map<int, real>, bad': map<int, real>, total': map<int, nat>,
                       prefix: seq<DetailRecords>, e: DetailRecords, j: int)
    requires 0 <= j < |e.records|
    requires Tabulates(good, bad, total, prefix, e, e.records[..j])
    requires var r := e.records[j];
      var c := Classify(r.state, e.missing);
      var count := total[r.timestamp := (if r.timestamp in total then total[r.timestamp] else 0) + 1];
      && good' == (if c == ToGood then good[r.timestamp := Lookup(good, r.timestamp) + Weight(e.detail)] else good)
      && bad' == (if c == ToBad then bad[r.timestamp := Lookup(bad, r.timestamp) + Weight(e.detail)] else bad)
      && total' == (if c == NoContribution then total else count)
    ensures Tabulates(good', bad', total', prefix, e, e.records[..j + 1])
  {
    var r, before, after := e.records[j], e.records[..j], e.records[..j + 1];
    assert after[..j] == before;
    forall t
      ensures TallyIn(e, after, t) == Plus(TallyIn(e, before, t), RecordTally(e, r, t))
    {
    }
    var c := Classify(r.state, e.missing);
    forall t
      ensures Lookup(good', t) == TallyAt(prefix, t).good + TallyIn(e, after, t).good
    {
      assert RecordTally(e, r, t).good == if c == ToGood && t == r.timestamp then Weight(e.detail) else 0.0;
    }
    forall t
      ensures Lookup(bad', t) == TallyAt(prefix, t).bad + TallyIn(e, after, t).bad
    {
      assert RecordTally(e, r, t).bad == if c == ToBad && t == r.timestamp then Weight(e.detail) else 0.0;
    }
    TabulateTotalStep(total, total', prefix, e, before, after, r, c != NoContribution);
  }

  /** The count map after one record: incremented at its timestamp exactly when it contributes. */
  lemma TabulateTotalStep(total: map<int, nat>, total': map<int, nat>, prefix: seq<DetailRecords>, e: DetailRecords,
                          before: seq<SLIRecord>, after: seq<SLIRecord>, r: SLIRecord, counts: bool)
    requires TabulatesTotal(total, prefix, e, before)
    requires forall t :: TallyIn(e, after, t) == Plus(TallyIn(e, before, t), RecordTally(e, r, t))
    requires counts <==> Classify(r.state, e.missing) != NoContribution
    requires total' == (if !counts then total
                        else total[r.timestamp := (if r.timestamp in total then total[r.timestamp] else 0) + 1])
    ensures TabulatesTotal(total', prefix, e, after)
  {
    forall t
      ensures && (t in total' <==> TallyAt(prefix, t).total + TallyIn(e, after, t).total > 0)
              && (t in total' ==> total'[t] == TallyAt(prefix, t).total + TallyIn(e, after, t).total)
    {
      assert TallyIn(e, after, t).total == TallyIn(e, before, t).total + RecordTally(e, r, t).total;
      assert RecordTally(e, r, t).total == if counts && t == r.timestamp then 1 else 0;
    }
  }

  /** The three maps hold, for every timestamp, what the records of `entries` add. */
  ghost predicate Tabulated(good: map<int, real>, bad: map<int, real>, total: map<int, nat>, entries: seq<DetailRecords>)
  {
    forall t ::
      && Lookup(good, t) == TallyAt(entries, t).good
      && Lookup(bad, t) == TallyAt(entries, t).bad
      && (t in total <==> TallyAt(entries, t).total > 0)
      && (t in total ==> total[t] == TallyAt(entries, t).total)
  }

  lemma TabulateEntry(good: map<int, real>, bad: map<int, real>, total: map<int, nat>,
                      prefix: seq<DetailRecords>, e: DetailRecords)
    requires Tabulates(good, bad, total, prefix, e, e.records)
    ensures Tabulated(good, bad, total, prefix + [e])
  {
    assert (prefix + [e])[..|prefix|] == prefix;
  }

  /** The inner loop of getTimeStampToValueMaps: the records of one detail counted into the maps. */
  method CountRecords(good: map<int, real>, bad: map<int, real>, total: map<int, nat>,
                      ghost prefix: seq<DetailRecords>, e: DetailRecords)
    returns (good': map<int, real>, bad': map<int, real>, total': map<int, nat>)
    requires Tabulated(good, bad, total, prefix)
    ensures Tabulated(good', bad', total', prefix + [e])
  {
    good', bad', total' := good, bad, total;
    assert Tabulates(good', bad', total', prefix, e, e.records[..0]);
    for j := 0 to |e.records|
      invariant Tabulates(good', bad', total', prefix, e, e.records[..j])
    {
      var r := e.records[j];
      var c := Classify(r.state, e.missing);
      ghost var (good0, bad0, total0) := (good', bad', total');
      if c == ToGood {
        good' := good'[r.timestamp := Lookup(good', r.timestamp) + Weight(e.detail)];
        total' := total'[r.timestamp := (if r.timestamp in total' then total'[r.timestamp] else 0) + 1];
      } else if c == ToBad {
        bad' := bad'[r.timestamp := Lookup(bad', r.timestamp) + Weight(e.detail)];
        total' := total'[r.timestamp := (if r.timestamp in total' then total'[r.timestamp] else 0) + 1];
      }
      TabulateRecord(good0, bad0, total0, good', bad', total', prefix, e, j);
    }
    assert e.records[..|e.records|] == e.records;
    TabulateEntry(good', bad', total', prefix, e);
  }

  /**
   * getTimeStampToValueMaps: for each timestamp, the summed weight of good and of bad records and
   * the number of contributing records; a timestamp is a key of the total map iff something
   * contributed at it.
   */
  method TimeStampToValueMaps(entries: seq<DetailRecords>)
    returns (good: map<int, real>, bad: map<int, real>, total: map<int, nat>)
    ensures forall t :: Lookup(good, t) == TallyAt(entries, t).good
    ensures forall t :: Lookup(bad, t) == TallyAt(entries, t).bad
    ensures forall t :: t in total <==> TallyAt(entries, t).total > 0
    ensures forall t :: t in total ==> total[t] == TallyAt(entries, t).total
  {
    good, bad, total := map[], map[], map[];
    for i := 0 to |entries|
      invariant Tabulated(good, bad, total, entries[..i])
    {
      good, bad, total := CountRecords(good, bad, total, entries[..i], entries[i]);
      assert entries[..i] + [entries[i]] == entries[..i + 1];
    }
    assert entries[..|entries|] == entries;
  }

  // ---------------------------------------------------------------------------------------------
  // Timestamps in ascending order (ImmutableSortedSet.copyOf) and in hash order (keySet)

  predicate Ascending(s: seq<int>)
  {
    forall i, j :: 0 <= i < j < |s| ==> s[i] < s[j]
  }

  predicate Distinct(s: seq<int>)
  {
    forall i, j :: 0 <= i < j < |s| ==> s[i] != s[j]
  }

  predicate IsLeast(m: int, s: set<int>)
  {
    m in s && forall x :: x in s ==> m <= x
  }

  lemma {:induction false} LeastExists(s: set<int>)
    requires s != {}
    ensures exists m :: IsLeast(m, s)
    decreases |s|
  {
    if forall y :: y !in s {
      assert false;
    }
    var x :| x in s;
    if s != {x} {
      var rest := s - {x};
      assert forall y :: y in s ==> y == x || y in rest;
      LeastExists(rest);
      var m :| IsLeast(m, rest);
      if x < m {
        assert IsLeast(x, s);
      } else {
        assert IsLeast(m, s);
      }
    } else {
      assert IsLeast(x, s);
    }
  }

  /** ImmutableSortedSet.copyOf(keys): the keys, each once, in ascending order. */
  method SortedCopy(keys: set<int>) returns (ts: seq<int>)
    ensures Ascending(ts)
    ensures forall t :: t in ts <==> t in keys
  {
    ts := [];
    var remaining := keys;
    while remaining != {}
      invariant Ascending(ts)
      invariant forall t :: t in keys <==> t in ts || t in remaining
      invariant forall i, u :: 0 <= i < |ts| && u in remaining ==> ts[i] < u
      decreases |remaining|
    {
      LeastExists(remaining);
      var m :| IsLeast(m, remaining);
      ts := ts + [m];
      remaining := remaining - {m};
    }
  }

  /** The keys of a HashMap in its iteration order, which the model leaves arbitrary. */
  method KeySetOrder<V>(m: map<int, V>) returns (order: seq<int>)
    ensures Distinct(order)
    ensures forall t :: t in order <==> t in m
  {
    order := [];
    var remaining := m.Keys;
    while remaining != {}
      invariant Distinct(order)
      invariant forall t :: t in m <==> t in order || t in remaining
      invariant forall t :: t in order ==> t !in remaining
      decreases |remaining|
    {
      if forall u :: u !in remaining {
        assert false;
      }
      var t :| t in remaining;
      order := order + [t];
      remaining := remaining - {t};
    }
  }

  // ---------------------------------------------------------------------------------------------
  // WINDOW records (getWindowCompositeSLORecordsFromSLIsDetails)

  function Stamps(r: seq<CompositeSLORecord>): (s: seq<int>)
    ensures |s| == |r| && forall i :: 0 <= i < |r| ==> s[i] == r[i].timestamp
  {
    seq(|r|, i requires 0 <= i < |r| => r[i].timestamp)
  }

  /** The good and bad weight summed over the timestamps `ts`. */
  function SumTally(entries: seq<DetailRecords>, ts: seq<int>): Tally
  {
    if ts == [] then NoTally
    else Plus(SumTally(entries, ts[..|ts| - 1]), TallyAt(entries, ts[|ts| - 1]))
  }

  /** The complete timestamps among `ts`, in their order. */
  function Emitted(entries: seq<DetailRecords>, ts: seq<int>): seq<int>
  {
    if ts == [] then []
    else Emitted(entries, ts[..|ts| - 1]) + (if Complete(entries, ts[|ts| - 1]) then [ts[|ts| - 1]] else [])
  }

  lemma {:induction false} EmittedSpec(entries: seq<DetailRecords>, ts: seq<int>)
    requires Ascending(ts)
    ensures Ascending(Emitted(entries, ts))
    ensures forall t :: t in Emitted(entries, ts) <==> t in ts && Complete(entries, t)
  {
    if ts != [] {
      var prefix := ts[..|ts| - 1];
      var last := ts[|ts| - 1];
      assert Ascending(prefix);
      EmittedSpec(entries, prefix);
      assert forall t :: t in ts <==> t in prefix || t == last by {
        assert ts == prefix + [last];
      }
      var before := Emitted(entries, prefix);
      forall k | 0 <= k < |before|
        ensures before[k] < last
      {
        assert before[k] in before;
        var j :| 0 <= j < |prefix| && prefix[j] == before[k];
        assert ts[j] == prefix[j];
      }
    }
  }

  /** The record sequence `r` records the running counts from `good`, `bad` over its own timestamps. */
  ghost predicate RunningFrom(r: seq<CompositeSLORecord>, entries: seq<DetailRecords>, good: real, bad: real)
  {
    forall i :: 0 <= i < |r| ==>
      r[i].runningGoodCount == good + SumTally(entries, Stamps(r)[..i + 1]).good
      && r[i].runningBadCount == bad + SumTally(entries, Stamps(r)[..i + 1]).bad
  }

  lemma RunningSnoc(r: seq<CompositeSLORecord>, rec: CompositeSLORecord, entries: seq<DetailRecords>, good: real, bad: real)
    requires RunningFrom(r, entries, good, bad)
    requires rec.runningGoodCount == good + SumTally(entries, Stamps(r) + [rec.timestamp]).good
    requires rec.runningBadCount == bad + SumTally(entries, Stamps(r) + [rec.timestamp]).bad
    ensures RunningFrom(r + [rec], entries, good, bad)
    ensures Stamps(r + [rec]) == Stamps(r) + [rec.timestamp]
  {
    var r' := r + [rec];
    var s := Stamps(r');
    assert s == Stamps(r) + [rec.timestamp];
    forall i | 0 <= i < |r'|
      ensures r'[i].runningGoodCount == good + SumTally(entries, s[..i + 1]).good
      ensures r'[i].runningBadCount == bad + SumTally(entries, s[..i + 1]).bad
    {
      if i < |r| {
        assert s[..i + 1] == Stamps(r)[..i + 1];
      } else {
        assert s[..i + 1] == s;
      }
    }
  }

  lemma SumTallySnoc(entries: seq<DetailRecords>, ts: seq<int>, t: int)
    ensures SumTally(entries, ts + [t]) == Plus(SumTally(entries, ts), TallyAt(entries, t))
  {
    assert (ts + [t])[..|ts|] == ts;
  }

  /** After `k` ascending timestamps: the records of the complete ones, and the running counts so far. */
  ghost predicate Accumulated(r: seq<CompositeSLORecord>, runGood: real, runBad: real, entries: seq<DetailRecords>,
                              ts: seq<int>, k: int, good: real, bad: real)
  {
    && 0 <= k <= |ts|
    && Stamps(r) == Emitted(entries, ts[..k])
    && runGood == good + SumTally(entries, Stamps(r)).good
    && runBad == bad + SumTally(entries, Stamps(r)).bad
    && RunningFrom(r, entries, good, bad)
  }

  lemma EmittedSnoc(entries: seq<DetailRecords>, ts: seq<int>, k: int)
    requires 0 <= k < |ts|
    ensures Emitted(entries, ts[..k + 1]) == Emitted(entries, ts[..k]) + (if Complete(entries, ts[k]) then [ts[k]] else [])
  {
    assert ts[..k + 1][..k] == ts[..k];
  }

  /** A complete timestamp adds its record, with the running counts increased by its weights. */
  lemma AccumulateRecord(r: seq<CompositeSLORecord>, rec: CompositeSLORecord, runGood: real, runBad: real,
                         entries: seq<DetailRecords>, ts: seq<int>, k: int, good: real, bad: real)
    requires Accumulated(r, runGood, runBad, entries, ts, k, good, bad) && k < |ts|
    requires Complete(entries, ts[k]) && rec.timestamp == ts[k]
    requires rec.runningGoodCount == runGood + TallyAt(entries, ts[k]).good
    requires rec.runningBadCount == runBad + TallyAt(entries, ts[k]).bad
    ensures Accumulated(r + [rec], rec.runningGoodCount, rec.runningBadCount, entries, ts, k + 1, good, bad)
  {
    EmittedSnoc(entries, ts, k);
    SumTallySnoc(entries, Stamps(r), ts[k]);
    RunningSnoc(r, rec, entries, good, bad);
  }

  /** An incomplete timestamp changes nothing. */
  lemma AccumulateNothing(r: seq<CompositeSLORecord>, runGood: real, runBad: real,
                          entries: seq<DetailRecords>, ts: seq<int>, k: int, good: real, bad: real)
    requires Accumulated(r, runGood, runBad, entries, ts, k, good, bad) && k < |ts|
    requires !Complete(entries, ts[k])
    ensures Accumulated(r, runGood, runBad, entries, ts, k + 1, good, bad)
  {
    EmittedSnoc(entries, ts, k);
  }

  /** All timestamps seen: the records are those of exactly the complete timestamps, ascending. */
  lemma AccumulatedAll(r: seq<CompositeSLORecord>, runGood: real, runBad: real,
                       entries: seq<DetailRecords>, ts: seq<int>, good: real, bad: real)
    requires Accumulated(r, runGood, runBad, entries, ts, |ts|, good, bad) && Ascending(ts)
    requires forall t :: Complete(entries, t) ==> t in ts
    ensures Ascending(Stamps(r))
    ensures forall t :: t in Stamps(r) <==> Complete(entries, t)
  {
    assert ts[..|ts|] == ts;
    EmittedSpec(entries, ts);
  }

  /**
   * The WINDOW builder: one record per complete timestamp, in ascending order, whose running
   * counts are the starting counts plus the weights of the complete timestamps up to its own.
   */
  method WindowRecords(entries: seq<DetailRecords>, sloVersion: int, runningGood: real, runningBad: real, id: string)
    returns (r: seq<CompositeSLORecord>)
    ensures Ascending(Stamps(r))
    ensures forall t :: t in Stamps(r) <==> Complete(entries, t)
    ensures RunningFrom(r, entries, runningGood, runningBad)
    ensures forall i :: 0 <= i < |r| ==>
              r[i] == NewRecord(id, sloVersion, r[i].timestamp, r[i].runningGoodCount, r[i].runningBadCount, None)
  {
    var good, bad, total := TimeStampToValueMaps(entries);
    var ts := SortedCopy(total.Keys);
    r := [];
    var runGood, runBad := runningGood, runningBad;
    for k := 0 to |ts|
      invariant Accumulated(r, runGood, runBad, entries, ts, k, runningGood, runningBad)
      invariant forall i :: 0 <= i < |r| ==>
                  r[i] == NewRecord(id, sloVersion, r[i].timestamp, r[i].runningGoodCount, r[i].runningBadCount, None)
    {
      var t := ts[k];
      if total[t] == |entries| {
        ghost var (good0, bad0) := (runGood, runBad);
        runGood := runGood + Lookup(good, t);
        runBad := runBad + Lookup(bad, t);
        var rec := NewRecord(id, sloVersion, t, runGood, runBad, None);
        AccumulateRecord(r, rec, good0, bad0, entries, ts, k, runningGood, runningBad);
        r := r + [rec];
      } else {
        AccumulateNothing(r, runGood, runBad, entries, ts, k, runningGood, runningBad);
      }
    }
    AccumulatedAll(r, runGood, runBad, entries, ts, runningGood, runningBad);
  }

  // ---------------------------------------------------------------------------------------------
  // REQUEST records (getTimeStampToSLIRecordMap, getRequestCompositeSLORecordsFromSLIsDetails)

  type SLIRecordMap = map<int, map<string, SLIRecord>>

  /** The records of one detail put into the timestamp -> scoped identifier -> record map. */
  function AddRecords(m: SLIRecordMap, id: string, recs: seq<SLIRecord>): SLIRecordMap
  {
    if recs == [] then m
    else
      var m' := AddRecords(m, id, recs[..|recs| - 1]);
      var r := recs[|recs| - 1];
      var inner := if r.timestamp in m' then m'[r.timestamp] else map[];
      m'[r.timestamp := if r.state != SkipData then inner[id := r] else inner]
  }

  function RecordMap(entries: seq<DetailRecords>): SLIRecordMap
  {
    if entries == [] then map[]
    else
      var e := entries[|entries| - 1];
      AddRecords(RecordMap(entries[..|entries| - 1]), e.detail.scopedIdentifier, e.records)
  }

  ghost predicate HasRecordAt(entries: seq<DetailRecords>, t: int)
  {
    exists e, r :: e in entries && r in e.records && r.timestamp == t
  }

  ghost predicate HasDataAt(entries: seq<DetailRecords>, t: int, id: string)
  {
    exists e, r :: e in entries && e.detail.scopedIdentifier == id && r in e.records && r.timestamp == t && r.state != SkipData
  }

  /** Every record of the map sits under its own timestamp and is not a skipped one. */
  ghost predicate WellPlaced(m: SLIRecordMap)
  {
    forall t, id :: t in m && id in m[t] ==> m[t][id].timestamp == t && m[t][id].state != SkipData
  }

  lemma {:induction false} AddRecordsSpec(m: SLIRecordMap, id: string, recs: seq<SLIRecord>)
    requires WellPlaced(m)
    ensures WellPlaced(AddRecords(m, id, recs))
    ensures forall t :: t in AddRecords(m, id, recs) <==> t in m || exists r :: r in recs && r.timestamp == t
    ensures forall t, id2 :: t in AddRecords(m, id, recs) && id2 in AddRecords(m, id, recs)[t] <==>
              (t in m && id2 in m[t]) || (id2 == id && exists r :: r in recs && r.timestamp == t && r.state != SkipData)
  {
    if recs != [] {
      var prefix := recs[..|recs| - 1];
      var r := recs[|recs| - 1];
      AddRecordsSpec(m, id, prefix);
      assert recs == prefix + [r];
      assert forall x :: x in recs <==> x in prefix || x == r;
    }
  }

  /**
   * getTimeStampToSLIRecordMap: every timestamp of some record is a key, also when that record
   * is skipped; under a timestamp sit exactly the scoped identifiers with a record there that is
   * not skipped, each with a record of that timestamp.
   */
  lemma {:induction false} RecordMapSpec(entries: seq<DetailRecords>)
    ensures WellPlaced(RecordMap(entries))
    ensures forall t :: t in RecordMap(entries) <==> HasRecordAt(entries, t)
    ensures forall t, id :: t in RecordMap(entries) && id in RecordMap(entries)[t] <==> HasDataAt(entries, t, id)
  {
    if entries != [] {
      var prefix := entries[..|entries| - 1];
      var e := entries[|entries| - 1];
      RecordMapSpec(prefix);
      AddRecordsSpec(RecordMap(prefix), e.detail.scopedIdentifier, e.records);
      assert entries == prefix + [e];
      assert forall x :: x in entries <==> x in prefix || x == e;
    }
  }

  method TimeStampToSLIRecordMap(entries: seq<DetailRecords>) returns (m: SLIRecordMap)
    ensures m == RecordMap(entries)
  {
    m := map[];
    for i := 0 to |entries|
      invariant m == RecordMap(entries[..i])
    {
      var e := entries[i];
      var id := e.detail.scopedIdentifier;
      ghost var start := m;
      for j := 0 to |e.records|
        invariant m == AddRecords(start, id, e.records[..j])
      {
        var r := e.records[j];
        var inner := if r.timestamp in m then m[r.timestamp] else map[];
        if r.state != SkipData {
          inner := inner[id := r];
        }
        m := m[r.timestamp := inner];
        assert e.records[..j + 1][..j] == e.records[..j];
      }
      assert e.records[..|e.records|] == e.records;
      assert entries[..i + 1][..i] == entries[..i];
    }
    assert entries[..|entries|] == entries;
  }

  /** A REQUEST timestamp is complete when every SLO has a record there that is not skipped. */
  predicate RequestComplete(m: SLIRecordMap, t: int, size: nat)
  {
    t in m && |m[t]| == size
  }

  /**
   * The REQUEST builder: one record per complete timestamp, in hash order, each carrying that
   * timestamp's records and the running counts passed in, unchanged.
   */
  method RequestRecords(entries: seq<DetailRecords>, sloVersion: int, runningGood: real, runningBad: real, id: string)
    returns (r: seq<CompositeSLORecord>)
    ensures Distinct(Stamps(r))
    ensures forall t :: t in Stamps(r) <==> RequestComplete(RecordMap(entries), t, |entries|)
    ensures forall i :: 0 <= i < |r| ==>
              (r[i].timestamp in RecordMap(entries)
               && r[i] == NewRecord(id, sloVersion, r[i].timestamp, runningGood, runningBad, Some(RecordMap(entries)[r[i].timestamp])))
  {
    var m := TimeStampToSLIRecordMap(entries);
    var order := KeySetOrder(m);
    r := [];
    for k := 0 to |order|
      invariant Distinct(Stamps(r))
      invariant forall t :: t in Stamps(r) <==> t in order[..k] && RequestComplete(m, t, |entries|)
      invariant forall i :: 0 <= i < |r| ==>
                  (r[i].timestamp in m
                   && r[i] == NewRecord(id, sloVersion, r[i].timestamp, runningGood, runningBad, Some(m[r[i].timestamp])))
    {
      var t := order[k];
      assert order[..k + 1] == order[..k] + [t];
      if |m[t]| == |entries| {
        assert t !in order[..k];
        assert Stamps(r + [NewRecord(id, sloVersion, t, runningGood, runningBad, Some(m[t]))]) == Stamps(r) + [t];
        r := r + [NewRecord(id, sloVersion, t, runningGood, runningBad, Some(m[t]))];
      }
    }
    assert order[..|order|] == order;
  }

  /** getCompositeSLORecordsFromSLIsDetails: REQUEST goes to the request builder, all else to the window builder. */
  method RecordsFromSLIsDetails(entries: seq<DetailRecords>, sloVersion: int, runningGood: real, runningBad: real,
                                id: string, evaluationType: EvaluationType)
    returns (r: seq<CompositeSLORecord>)
    ensures evaluationType == Request ==> forall t :: t in Stamps(r) <==> RequestComplete(RecordMap(entries), t, |entries|)
    ensures evaluationType != Request ==> forall t :: t in Stamps(r) <==> Complete(entries, t)
    ensures evaluationType != Request ==> Ascending(Stamps(r)) && RunningFrom(r, entries, runningGood, runningBad)
    ensures forall i :: 0 <= i < |r| ==> r[i].sloId == id && r[i].verificationTaskId == id && r[i].sloVersion == sloVersion
  {
    if evaluationType == Request {
      r := RequestRecords(entries, sloVersion, runningGood, runningBad, id);
    } else {
      r := WindowRecords(entries, sloVersion, runningGood, runningBad, id);
    }
  }

  // ---------------------------------------------------------------------------------------------
  // The update flow (updateCompositeSLORecords and its two builders)

  /** The stored records keyed by their timestamp. */
  ghost predicate KeyedByTimestamp(stored: map<int, CompositeSLORecord>)
  {
    forall t :: t in stored ==> stored[t].timestamp == t
  }

  /** Collectors.toMap(getTimestamp, identity): an IllegalStateException on a repeated timestamp. */
  function ByTimestamp(records: seq<CompositeSLORecord>): (r: Result<map<int, CompositeSLORecord>>)
    ensures r.Ok? <==> Distinct(Stamps(records))
    ensures r.Ok? ==> KeyedByTimestamp(r.value) && forall t :: t in r.value <==> t in Stamps(records)
    ensures r.Ok? ==> forall i :: 0 <= i < |records| ==> r.value[records[i].timestamp] == records[i]
    ensures r.Err? ==> r.error == IllegalState
  {
    if records == [] then Ok(map[])
    else
      var prefix := records[..|records| - 1];
      var last := records[|records| - 1];
      var m := ByTimestamp(prefix);
      assert Stamps(records) == Stamps(prefix) + [last.timestamp];
      if m.Err? then Err(IllegalState)
      else if last.timestamp in m.value then
        assert last.timestamp in Stamps(prefix);
        Err(IllegalState)
      else
        Ok(m.value[last.timestamp := last])
  }

  /** A stored record brought up to date. */
  function Refreshed(stored: CompositeSLORecord, sloVersion: int, good: real, bad: real): CompositeSLORecord
  {
    stored.(runningGoodCount := good, runningBadCount := bad, sloVersion := sloVersion)
  }

  /**
   * updateWindowCompositeSLORecords as written, over the ascending timestamps `ts`: `current` is
   * the record the loop last handled, which an incomplete timestamp handles again.
   */
  function UpdateWindowAsWritten(entries: seq<DetailRecords>, ts: seq<int>, stored: map<int, CompositeSLORecord>,
                                 sloVersion: int, good: real, bad: real, id: string,
                                 current: Option<CompositeSLORecord>): (r: seq<CompositeSLORecord>)
    ensures |r| == |ts|
  {
    if ts == [] then []
    else
      var t := ts[0];
      var complete := Complete(entries, t);
      var current' := if complete then (if t in stored then Some(stored[t]) else None) else current;
      var good' := if complete then good + TallyAt(entries, t).good else good;
      var bad' := if complete then bad + TallyAt(entries, t).bad else bad;
      var rec := match current'
        case Some(c) => Refreshed(c, sloVersion, good', bad')
        case None => NewRecord(id, sloVersion, t, good', bad', None);
      [rec] + UpdateWindowAsWritten(entries, ts[1..], stored, sloVersion, good', bad', id, Some(rec))
  }

  lemma TallyOfTwo(a: DetailRecords, b: DetailRecords, t: int)
    ensures TallyAt([a, b], t) == Plus(Plus(NoTally, TallyIn(a, a.records, t)), TallyIn(b, b.records, t))
  {
    var two := [a, b];
    assert two[..1] == [a];
    assert TallyAt(two, t) == Plus(TallyAt([a], t), TallyIn(b, b.records, t));
    assert [a][..0] == [];
    assert TallyAt([a], t) == Plus(TallyAt([], t), TallyIn(a, a.records, t));
  }

  lemma TallyOfOne(e: DetailRecords, r: SLIRecord, t: int)
    ensures TallyIn(e, [r], t) == Plus(NoTally, RecordTally(e, r, t))
  {
    assert [r][..0] == [];
  }

  /** Two SLOs whose only records are a good minute 1 and a minute 2: minute 1 has data but is not complete. */
  lemma PartialMinute(a: DetailRecords, b: DetailRecords)
    requires |a.records| == 1 && a.records[0].timestamp == 1 && a.records[0].state == Good
    requires |b.records| == 1 && b.records[0].timestamp == 2
    ensures TallyAt([a, b], 1).total == 1
    ensures !Complete([a, b], 1)
  {
    assert TallyIn(a, a.records, 1).total == 1 by {
      assert a.records == [a.records[0]];
      TallyOfOne(a, a.records[0], 1);
    }
    assert TallyIn(b, b.records, 1).total == 0 by {
      assert b.records == [b.records[0]];
      TallyOfOne(b, b.records[0], 1);
    }
    TallyOfTwo(a, b, 1);
  }

  /** As written, an incomplete first timestamp gets a new record of its own. */
  lemma UpdateWindowFirstIncomplete(entries: seq<DetailRecords>, ts: seq<int>, stored: map<int, CompositeSLORecord>,
                                    sloVersion: int, good: real, bad: real, id: string)
    requires ts != [] && !Complete(entries, ts[0])
    ensures UpdateWindowAsWritten(entries, ts, stored, sloVersion, good, bad, id, None)[0]
            == NewRecord(id, sloVersion, ts[0], good, bad, None)
  {
  }

  /** So minute 1 of two such SLOs, which the loop visits, is written although it is not complete. */
  lemma UpdateWindowWritesIncompleteMinute(a: DetailRecords, b: DetailRecords)
    requires |a.records| == 1 && a.records[0].timestamp == 1 && a.records[0].state == Good
    requires |b.records| == 1 && b.records[0].timestamp == 2
    ensures TallyAt([a, b], 1).total > 0 && !Complete([a, b], 1)
    ensures UpdateWindowAsWritten([a, b], [1, 2], map[], 3, 0.0, 0.0, "slo", None)[0]
            == NewRecord("slo", 3, 1, 0.0, 0.0, None)
  {
    PartialMinute(a, b);
    UpdateWindowFirstIncomplete([a, b], [1, 2], map[], 3, 0.0, 0.0, "slo");
  }

  /**
   * The WINDOW update as intended: only complete timestamps are written, each the stored record
   * of that timestamp brought up to date or a new one, with the same running counts as a fresh
   * build.
   */
  method UpdateWindowRecords(entries: seq<DetailRecords>, sloVersion: int, runningGood: real, runningBad: real,
                             id: string, stored: map<int, CompositeSLORecord>)
    returns (r: seq<CompositeSLORecord>)
    requires KeyedByTimestamp(stored)
    ensures Ascending(Stamps(r))
    ensures forall t :: t in Stamps(r) <==> Complete(entries, t)
    ensures RunningFrom(r, entries, runningGood, runningBad)
    ensures forall i :: 0 <= i < |r| ==>
              r[i] == if r[i].timestamp in stored
                      then Refreshed(stored[r[i].timestamp], sloVersion, r[i].runningGoodCount, r[i].runningBadCount)
                      else NewRecord(id, sloVersion, r[i].timestamp, r[i].runningGoodCount, r[i].runningBadCount, None)
  {
    var good, bad, total := TimeStampToValueMaps(entries);
    var ts := SortedCopy(total.Keys);
    r := [];
    var runGood, runBad := runningGood, runningBad;
    for k := 0 to |ts|
      invariant Accumulated(r, runGood, runBad, entries, ts, k, runningGood, runningBad)
      invariant forall i :: 0 <= i < |r| ==>
                  r[i] == if r[i].timestamp in stored
                          then Refreshed(stored[r[i].timestamp], sloVersion, r[i].runningGoodCount, r[i].runningBadCount)
                          else NewRecord(id, sloVersion, r[i].timestamp, r[i].runningGoodCount, r[i].runningBadCount, None)
    {
      var t := ts[k];
      if total[t] == |entries| {
        ghost var (good0, bad0) := (runGood, runBad);
        runGood := runGood + Lookup(good, t);
        runBad := runBad + Lookup(bad, t);
        var rec := if t in stored then Refreshed(stored[t], sloVersion, runGood, runBad)
                   else NewRecord(id, sloVersion, t, runGood, runBad, None);
        AccumulateRecord(r, rec, good0, bad0, entries, ts, k, runningGood, runningBad);
        r := r + [rec];
      } else {
        AccumulateNothing(r, runGood, runBad, entries, ts, k, runningGood, runningBad);
      }
    }
    AccumulatedAll(r, runGood, runBad, entries, ts, runningGood, runningBad);
  }

  /**
   * updateRequestCompositeSLORecords as written, over the timestamps `order` of the map `m` in
   * hash order: an incomplete timestamp hands its records to the record the loop last handled.
   */
  function UpdateRequestAsWritten(m: SLIRecordMap, size: nat, order: seq<int>, stored: map<int, CompositeSLORecord>,
                                  sloVersion: int, good: real, bad: real, id: string,
                                  current: Option<CompositeSLORecord>): (r: seq<CompositeSLORecord>)
    requires forall t :: t in order ==> t in m
    ensures |r| == |order|
  {
    if order == [] then []
    else
      var t := order[0];
      var current' := if |m[t]| == size then (if t in stored then Some(stored[t]) else None) else current;
      var rec := match current'
        case Some(c) => Refreshed(c, sloVersion, good, bad).(scopedIdentifierSLIRecordMap := Some(m[t]))
        case None => NewRecord(id, sloVersion, t, good, bad, Some(m[t]));
      [rec] + UpdateRequestAsWritten(m, size, order[1..], stored, sloVersion, good, bad, id, Some(rec))
  }

  lemma PartialRecordMap(a: DetailRecords, b: DetailRecords)
    requires |a.records| == 1 && a.records[0].timestamp == 1 && a.records[0].state == Good
    requires |b.records| == 1 && b.records[0].timestamp == 2
    ensures RecordMap([a, b]) == map[1 := map[a.detail.scopedIdentifier := a.records[0]],
                                     2 := (if b.records[0].state == SkipData then map[]
                                           else map[b.detail.scopedIdentifier := b.records[0]])]
  {
    var ra := a.records[0];
    var rb := b.records[0];
    assert [a, b][..1] == [a] && [a][..0] == [];
    assert RecordMap([a]) == AddRecords(map[], a.detail.scopedIdentifier, [ra]) by {
      assert a.records == [ra];
    }
    AddOneRecord(map[], a.detail.scopedIdentifier, ra);
    assert RecordMap([a, b]) == AddRecords(RecordMap([a]), b.detail.scopedIdentifier, [rb]) by {
      assert b.records == [rb];
    }
    AddOneRecord(RecordMap([a]), b.detail.scopedIdentifier, rb);
  }

  lemma AddOneRecord(m: SLIRecordMap, id: string, r: SLIRecord)
    ensures AddRecords(m, id, [r]) ==
            var inner := if r.timestamp in m then m[r.timestamp] else map[];
            m[r.timestamp := if r.state != SkipData then inner[id := r] else inner]
  {
    assert [r][..0] == [];
  }

  /** As written, minute 1, where only one of the two SLOs has a record, is written when it comes first. */
  lemma UpdateRequestWritesIncompleteMinute(a: DetailRecords, b: DetailRecords)
    requires |a.records| == 1 && a.records[0].timestamp == 1 && a.records[0].state == Good
    requires |b.records| == 1 && b.records[0].timestamp == 2
    ensures var m := RecordMap([a, b]);
            1 in m && 2 in m && !RequestComplete(m, 1, 2)
            && UpdateRequestAsWritten(m, 2, [1, 2], map[], 3, 0.0, 0.0, "slo", None)[0]
               == NewRecord("slo", 3, 1, 0.0, 0.0, Some(m[1]))
  {
    PartialRecordMap(a, b);
  }

  /**
   * The REQUEST update as intended: only complete timestamps are written, each the stored record
   * of that timestamp brought up to date or a new one, carrying that timestamp's records.
   */
  method UpdateRequestRecords(entries: seq<DetailRecords>, sloVersion: int, runningGood: real, runningBad: real,
                              id: string, stored: map<int, CompositeSLORecord>)
    returns (r: seq<CompositeSLORecord>)
    requires KeyedByTimestamp(stored)
    ensures Distinct(Stamps(r))
    ensures forall t :: t in Stamps(r) <==> RequestComplete(RecordMap(entries), t, |entries|)
    ensures forall i :: 0 <= i < |r| ==>
              (r[i].timestamp in RecordMap(entries) &&
               r[i] == if r[i].timestamp in stored
                       then Refreshed(stored[r[i].timestamp], sloVersion, runningGood, runningBad)
                              .(scopedIdentifierSLIRecordMap := Some(RecordMap(entries)[r[i].timestamp]))
                       else NewRecord(id, sloVersion, r[i].timestamp, runningGood, runningBad, Some(RecordMap(entries)[r[i].timestamp])))
  {
    var m := TimeStampToSLIRecordMap(entries);
    var order := KeySetOrder(m);
    r := [];
    for k := 0 to |order|
      invariant Distinct(Stamps(r))
      invariant forall t :: t in Stamps(r) <==> t in order[..k] && RequestComplete(m, t, |entries|)
      invariant forall i :: 0 <= i < |r| ==>
                  (r[i].timestamp in m &&
                   r[i] == if r[i].timestamp in stored
                           then Refreshed(stored[r[i].timestamp], sloVersion, runningGood, runningBad)
                                  .(scopedIdentifierSLIRecordMap := Some(m[r[i].timestamp]))
                           else NewRecord(id, sloVersion, r[i].timestamp, runningGood, runningBad, Some(m[r[i].timestamp])))
    {
      var t := order[k];
      assert order[..k + 1] == order[..k] + [t];
      if |m[t]| == |entries| {
        assert t !in order[..k];
        var rec := if t in stored
                   then Refreshed(stored[t], sloVersion, runningGood, runningBad).(scopedIdentifierSLIRecordMap := Some(m[t]))
                   else NewRecord(id, sloVersion, t, runningGood, runningBad, Some(m[t]));
        assert rec.timestamp == t;
        assert Stamps(r + [rec]) == Stamps(r) + [t];
        r := r + [rec];
      }
    }
    assert order[..|order|] == order;
  }

  /**
   * updateCompositeSLORecords: the stored records of the range keyed by timestamp, then WINDOW
   * and REQUEST each to their update builder; any other type is rejected.
   */
  method UpdateRecords(entries: seq<DetailRecords>, sloVersion: int, runningGood: real, runningBad: real,
                       id: string, evaluationType: EvaluationType, storedRecords: seq<CompositeSLORecord>)
    returns (r: Result<seq<CompositeSLORecord>>)
    ensures r.Err? <==> !Distinct(Stamps(storedRecords)) || evaluationType == OtherEvaluation
    ensures r.Err? && Distinct(Stamps(storedRecords)) ==> r.error == InvalidArguments("Invalid Evaluation Type")
    ensures r.Ok? && evaluationType == Window ==> forall t :: t in Stamps(r.value) <==> Complete(entries, t)
    ensures r.Ok? && evaluationType == Window ==> RunningFrom(r.value, entries, runningGood, runningBad)
    ensures r.Ok? && evaluationType == Request ==>
              forall t :: t in Stamps(r.value) <==> RequestComplete(RecordMap(entries), t, |entries|)
  {
    var stored := ByTimestamp(storedRecords);
    if stored.Err? {
      return Err(stored.error);
    }
    if evaluationType == Window {
      var records := UpdateWindowRecords(entries, sloVersion, runningGood, runningBad, id, stored.value);
      r := Ok(records);
    } else if evaluationType == Request {
      var records := UpdateRequestRecords(entries, sloVersion, runningGood, runningBad, id, stored.value);
      r := Ok(records);
    } else {
      r := Err(InvalidArguments("Invalid Evaluation Type"));
    }
  }

  /**
   * updateCompositeSLORecords as written: the same guards and dispatch, with the update builders
   * as the source has them, so every minute with data gets a record, complete or not.
   */
  method UpdateRecordsAsWritten(entries: seq<DetailRecords>, sloVersion: int, runningGood: real, runningBad: real,
                                id: string, evaluationType: EvaluationType, storedRecords: seq<CompositeSLORecord>)
    returns (r: Result<seq<CompositeSLORecord>>)
    ensures r.Err? <==> !Distinct(Stamps(storedRecords)) || evaluationType == OtherEvaluation
    ensures r.Err? && Distinct(Stamps(storedRecords)) ==> r.error == InvalidArguments("Invalid Evaluation Type")
    ensures r.Ok? && evaluationType == Window ==>
      exists ts :: Ascending(ts) && (forall t :: t in ts <==> TallyAt(entries, t).total > 0) &&
        r.value == UpdateWindowAsWritten(entries, ts, ByTimestamp(storedRecords).value, sloVersion,
                                         runningGood, runningBad, id, None)
    ensures r.Ok? && evaluationType == Request ==>
      exists order :: Distinct(order) && (forall t :: t in order <==> t in RecordMap(entries)) &&
        r.value == UpdateRequestAsWritten(RecordMap(entries), |entries|, order, ByTimestamp(storedRecords).value,
                                          sloVersion, runningGood, runningBad, id, None)
  {
    var stored := ByTimestamp(storedRecords);
    if stored.Err? {
      return Err(stored.error);
    }
    if evaluationType == Window {
      var good, bad, total := TimeStampToValueMaps(entries);
      var ts := SortedCopy(total.Keys);
      r := Ok(UpdateWindowAsWritten(entries, ts, stored.value, sloVersion, runningGood, runningBad, id, None));
    } else if evaluationType == Request {
      var m := TimeStampToSLIRecordMap(entries);
      var order := KeySetOrder(m);
      r := Ok(UpdateRequestAsWritten(m, |entries|, order, stored.value, sloVersion, runningGood, runningBad, id, None));
    } else {
      r := Err(InvalidArguments("Invalid Evaluation Type"));
    }
  }

  // ---------------------------------------------------------------------------------------------
  // create

  /** What `create` writes: nothing, a batch of new records, or an upsert of records of the range. */
  datatype Outcome = NothingToWrite | Saved(records: seq<CompositeSLORecord>) | Upserted(records: seq<CompositeSLORecord>)

  /** The running counts a range starts from: those of the last record before it, if any. */
  function StartingCounts(last: Option<CompositeSLORecord>): (real, real)
  {
    if last.Some? then (last.value.runningGoodCount, last.value.runningBadCount) else (0.0, 0.0)
  }

  /**
   * create: `detailCount` is the composite's number of SLO details and `found` the fetched
   * detail -> records map; `last` is the last record before the start, `latest` the newest
   * record, and `storedRecords` the records of the range that the update flow rewrites.
   */
  method Create(detailCount: nat, found: seq<DetailRecords>, sloVersion: int, evaluationType: EvaluationType, id: string,
                startTime: int, last: Option<CompositeSLORecord>, latest: Option<CompositeSLORecord>,
                storedRecords: seq<CompositeSLORecord>)
    returns (r: Result<Outcome>)
    ensures r == Ok(NothingToWrite) <==> |found| != detailCount || found == []
    ensures r.Ok? && r.value.Saved? <==> |found| == detailCount && found != [] && !(latest.Some? && latest.value.timestamp > startTime)
    ensures r.Err? ==> latest.Some? && latest.value.timestamp > startTime
    ensures r.Ok? && !r.value.NothingToWrite? && evaluationType == Window ==>
              forall t :: t in Stamps(r.value.records) <==> Complete(found, t)
    ensures r.Ok? && !r.value.NothingToWrite? && evaluationType == Window ==>
              RunningFrom(r.value.records, found, StartingCounts(last).0, StartingCounts(last).1)
    ensures r.Ok? && !r.value.NothingToWrite? && evaluationType == Request ==>
              forall t :: t in Stamps(r.value.records) <==> RequestComplete(RecordMap(found), t, |found|)
  {
    if |found| != detailCount || found == [] {
      return Ok(NothingToWrite);
    }
    var (runningGood, runningBad) := StartingCounts(last);
    if latest.Some? && latest.value.timestamp > startTime {
      var updated := UpdateRecords(found, sloVersion, runningGood, runningBad, id, evaluationType, storedRecords);
      if updated.Err? {
        return Err(updated.error);
      }
      r := Ok(Upserted(updated.value));
    } else {
      var records := RecordsFromSLIsDetails(found, sloVersion, runningGood, runningBad, id, evaluationType);
      r := Ok(Saved(records));
    }
  }
}
