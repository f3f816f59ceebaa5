/**
 * The loop of the availability check over the ledger's records: each record's `From` and
 * `To` are parsed, and the loop stops at the first record that overlaps the request.
 */
module Availability {
  import opened Wrappers
  import opened Sheets
  import opened Overlap
  import opened Requests

  /**
   * `fromisoformat(appointment['From'])`, then `fromisoformat(appointment['To'])`. Under the
   * ledger header `From` and `To` are the first two columns; a short row reads as blank.
   */
  function RecordInterval(record: Row): (r: Result<Interval, Failure>)
    ensures r.Ok? <==> |record| >= 2 && record[0].Time? && record[1].Time?
    ensures r.Ok? ==> r.value == Interval(record[0].t, record[1].t)
    ensures r.Err? ==> r.error == (if |record| >= 1 && record[0].Time? then BadTimestamp("To") else BadTimestamp("From"))
  {
    if |record| < 1 || !record[0].Time? then Err(BadTimestamp("From"))
    else if |record| < 2 || !record[1].Time? then Err(BadTimestamp("To"))
    else Ok(Interval(record[0].t, record[1].t))
  }

  /** Every record parsed, or the failure of the first one that does not parse. */
  function Intervals(records: seq<Row>): (r: Result<seq<Interval>, Failure>)
    ensures r.Ok? <==> forall k :: 0 <= k < |records| ==> RecordInterval(records[k]).Ok?
    ensures r.Ok? ==> |r.value| == |records|
    ensures r.Ok? ==> forall k :: 0 <= k < |records| ==> RecordInterval(records[k]) == Ok(r.value[k])
  {
    if records == [] then Ok([])
    else match RecordInterval(records[0])
      case Err(f) => Err(f)
      case Ok(iv) =>
        match Intervals(records[1..])
        case Err(f) => Err(f)
        case Ok(ivs) => Ok([iv] + ivs)
  }

  /**
   * What the scan concludes: unavailable at the first overlapping record, an exception at a
   * malformed record met before any overlap, available when it reaches the end.
   */
  function Scan(requested: Interval, records: seq<Row>): Result<bool, Failure>
  {
    if records == [] then Ok(true)
    else match RecordInterval(records[0])
      case Err(f) => Err(f)
      case Ok(existing) =>
        if Overlaps(requested, existing) then Ok(false) else Scan(requested, records[1..])
  }

  /** The loop itself: a `success` flag cleared, and the loop left, on the first overlap. */
  method ScanRecords(requested: Interval, records: seq<Row>) returns (r: Result<bool, Failure>)
    ensures r == Scan(requested, records)
  {
    var success := true;
    var i := 0;
    while i < |records|
      invariant 0 <= i <= |records|
      invariant success
      invariant Scan(requested, records) == Scan(requested, records[i..])
    {
      assert records[i..][1..] == records[i + 1..];
      var existing := RecordInterval(records[i]);
      if existing.Err? {
        return Err(existing.error);
      }
      if requested.from < existing.value.to && requested.to > existing.value.from {
        success := false;
        break;
      }
      i := i + 1;
    }
    return Ok(success);
  }

  /** Appending a parsable record appends its interval. */
  lemma {:induction false} IntervalsAppend(records: seq<Row>, ivs: seq<Interval>, record: Row, iv: Interval)
    requires Intervals(records) == Ok(ivs)
    requires RecordInterval(record) == Ok(iv)
    ensures Intervals(records + [record]) == Ok(ivs + [iv])
  {
    if records == [] {
      assert ivs == [];
      assert records + [record] == [record];
      assert [record][0] == record && [record][1..] == [];
      assert Intervals([record][1..]) == Ok([]);
      assert Intervals([record]) == Ok([iv] + []);
      assert [iv] + [] == ivs + [iv];
    } else {
      var first := RecordInterval(records[0]).value;
      var rest := Intervals(records[1..]).value;
      assert ivs == [first] + rest;
      IntervalsAppend(records[1..], rest, record, iv);
      assert (records + [record])[1..] == records[1..] + [record];
      assert (records + [record])[0] == records[0];
      assert ivs + [iv] == [first] + (rest + [iv]);
    }
  }

  /**
   * When every record parses, the scan answers exactly `Available`; whatever the records,
   * it reports available only if every record parses and none overlaps.
   */
  lemma {:induction false} ScanMeansAvailable(requested: Interval, records: seq<Row>)
    ensures Intervals(records).Ok? ==> Scan(requested, records) == Ok(Available(requested, Intervals(records).value))
    ensures Scan(requested, records) == Ok(true) <==>
      Intervals(records).Ok? && Available(requested, Intervals(records).value)
  {
    if records != [] {
      ScanMeansAvailable(requested, records[1..]);
      match RecordInterval(records[0])
      case Err(f) =>
      case Ok(existing) =>
        if Intervals(records[1..]).Ok? {
          var rest := Intervals(records[1..]).value;
          assert Intervals(records).value == [existing] + rest;
          AvailableConcat(requested, [existing], rest);
          assert [existing][0] == existing;
          assert Available(requested, [existing]) <==> !Overlaps(requested, existing);
        }
    }
  }

  /** On parsable records, availability means that no record overlaps the request, whatever their positions. */
  lemma AvailableOverRecords(requested: Interval, records: seq<Row>)
    requires Intervals(records).Ok?
    ensures Available(requested, Intervals(records).value) <==>
      forall r :: r in records ==> RecordInterval(r).Ok? && !Overlaps(requested, RecordInterval(r).value)
  {
    var ivs := Intervals(records).value;
    if Available(requested, ivs) {
      forall r | r in records
        ensures RecordInterval(r).Ok? && !Overlaps(requested, RecordInterval(r).value)
      {
        var k :| 0 <= k < |records| && records[k] == r;
        assert RecordInterval(records[k]) == Ok(ivs[k]);
      }
    } else {
      var k :| 0 <= k < |ivs| && Overlaps(requested, ivs[k]);
      assert RecordInterval(records[k]) == Ok(ivs[k]);
      assert records[k] in records;
    }
  }

  /**
   * The check's answer does not depend on the order of the ledger's records, as long as
   * every record parses: any rearrangement of them gets the same answer.
   */
  lemma ScanOrderIndependent(requested: Interval, s: seq<Row>, t: seq<Row>)
    requires multiset(s) == multiset(t)
    requires Intervals(s).Ok?
    ensures Intervals(t).Ok?
    ensures Scan(requested, s) == Scan(requested, t)
  {
    forall r
      ensures r in s <==> r in t
    {
      assert r in s <==> r in multiset(s);
      assert r in t <==> r in multiset(t);
    }
    forall k | 0 <= k < |t|
      ensures RecordInterval(t[k]).Ok?
    {
      assert t[k] in t;
      var j :| 0 <= j < |s| && s[j] == t[k];
    }
    ScanMeansAvailable(requested, s);
    ScanMeansAvailable(requested, t);
    AvailableOverRecords(requested, s);
    AvailableOverRecords(requested, t);
  }

  /** Scan reports unavailable only when some record parses and overlaps the request. */
  lemma {:induction false} ScanUnavailableWitness(requested: Interval, records: seq<Row>)
    requires Scan(requested, records) == Ok(false)
    ensures exists i :: (0 <= i < |records| && RecordInterval(records[i]).Ok? &&
      Overlaps(requested, RecordInterval(records[i]).value))
  {
    var existing := RecordInterval(records[0]).value;
    if !Overlaps(requested, existing) {
      ScanUnavailableWitness(requested, records[1..]);
      var i :| 0 <= i < |records[1..]| && RecordInterval(records[1..][i]).Ok? &&
        Overlaps(requested, RecordInterval(records[1..][i]).value);
      assert records[1..][i] == records[i + 1];
    }
  }

  /**
   * Order matters once a record is malformed: an overlap found first hides the malformed
   * record behind it, while the malformed record met first raises.
   */
  lemma ScanErrorDependsOnOrder(requested: Interval, overlapping: Row, malformed: Row)
    requires RecordInterval(overlapping).Ok? && Overlaps(requested, RecordInterval(overlapping).value)
    requires RecordInterval(malformed).Err?
    ensures Scan(requested, [overlapping, malformed]) == Ok(false)
    ensures Scan(requested, [malformed, overlapping]) == Err(RecordInterval(malformed).error)
  {
  }
}
