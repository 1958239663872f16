/** The BeaconSaved table: records keyed by their identity hash, the batch
    upsert a ranging event performs, and the query the webhook flush runs. */
module BeaconStore {
  import opened BeaconRecords

  type Store = map<int, BeaconSaved>

  /** Every record sits under its own identity hash, so the table holds at
      most one record per identity. */
  ghost predicate KeyedByHash(s: Store) {
    forall k :: k in s ==> s[k].hashcode == k
  }

  /** The identity hashes of a sequence of records. */
  function Hashes(rs: seq<BeaconSaved>): set<int> {
    set i | 0 <= i < |rs| :: rs[i].hashcode
  }

  lemma HashesFront(rs: seq<BeaconSaved>)
    requires rs != []
    ensures Hashes(rs) == Hashes(rs[..|rs| - 1]) + {rs[|rs| - 1].hashcode}
  {
    var front := rs[..|rs| - 1];
    forall k | k in Hashes(rs) ensures k in Hashes(front) + {rs[|rs| - 1].hashcode} {
      var i :| 0 <= i < |rs| && rs[i].hashcode == k;
      if i < |front| {
        assert front[i] == rs[i];
      }
    }
    forall k | k in Hashes(front) ensures k in Hashes(rs) {
      var i :| 0 <= i < |front| && front[i].hashcode == k;
      assert rs[i] == front[i];
    }
  }

  /** Insert-or-overwrite of each record in turn, keyed by identity hash. */
  function UpsertAll(s: Store, rs: seq<BeaconSaved>): (s': Store)
    ensures s'.Keys == s.Keys + Hashes(rs)
    ensures forall k :: k in s && k !in Hashes(rs) ==> s'[k] == s[k]
    decreases |rs|
  {
    if rs == [] then s
    else
      var last := rs[|rs| - 1];
      HashesFront(rs);
      UpsertAll(s, rs[..|rs| - 1])[last.hashcode := last]
  }

  /** Every key the records touch holds one of those records, under its own hash. */
  lemma {:induction false} UpsertAllTakesFromBatch(s: Store, rs: seq<BeaconSaved>)
    ensures forall k :: k in Hashes(rs) ==> UpsertAll(s, rs)[k] in rs && UpsertAll(s, rs)[k].hashcode == k
    decreases |rs|
  {
    if rs != [] {
      var front := rs[..|rs| - 1];
      HashesFront(rs);
      UpsertAllTakesFromBatch(s, front);
      forall k | k in Hashes(front) ensures UpsertAll(s, front)[k] in rs {
        var r := UpsertAll(s, front)[k];
        var i :| 0 <= i < |front| && front[i] == r;
        assert rs[i] == r;
      }
    }
  }

  /** On the keys the records touch, the table they are upserted into does not matter. */
  lemma {:induction false} UpsertAllOverridesBase(s1: Store, s2: Store, rs: seq<BeaconSaved>)
    ensures forall k :: k in Hashes(rs) ==> UpsertAll(s1, rs)[k] == UpsertAll(s2, rs)[k]
    decreases |rs|
  {
    if rs != [] {
      HashesFront(rs);
      UpsertAllOverridesBase(s1, s2, rs[..|rs| - 1]);
    }
  }

  /** A record that no later record shares a hash with is the one stored. */
  lemma {:induction false} UpsertAllKeepsLast(s: Store, rs: seq<BeaconSaved>, i: nat)
    requires i < |rs| && forall j :: i < j < |rs| ==> rs[j].hashcode != rs[i].hashcode
    ensures UpsertAll(s, rs)[rs[i].hashcode] == rs[i]
    decreases |rs|
  {
    var front := rs[..|rs| - 1];
    HashesFront(rs);
    if i < |rs| - 1 {
      assert front[i] == rs[i];
      assert forall j :: i < j < |front| ==> front[j] == rs[j];
      UpsertAllKeepsLast(s, front, i);
    }
  }

  /** Classification of a whole ranging event, in order: every beacon's
      record, or the error of the first beacon that cannot be read. */
  function ClassifyAll(bs: seq<Beacon>, now: int, uncompress: seq<byte> -> string): (r: Result<seq<BeaconSaved>, ClassifyError>)
    ensures r.Ok? <==> forall i :: 0 <= i < |bs| ==> Readable(bs[i])
    ensures r.Ok? ==> |r.value| == |bs|
    ensures r.Ok? ==> forall i :: 0 <= i < |bs| ==> r.value[i].hashcode == bs[i].hashCode
    decreases |bs|
  {
    if bs == [] then Ok([])
    else
      assert forall i :: 1 <= i < |bs| ==> bs[1..][i - 1] == bs[i];
      match Classify(bs[0], now, uncompress)
      case Err(e) => Err(e)
      case Ok(r) =>
        match ClassifyAll(bs[1..], now, uncompress)
        case Err(e) => Err(e)
        case Ok(rs) => Ok([r] + rs)
  }

  /** A classified event holds the i-th beacon's record at index i. */
  lemma {:induction false} ClassifyAllPointwise(bs: seq<Beacon>, now: int, uncompress: seq<byte> -> string)
    requires ClassifyAll(bs, now, uncompress).Ok?
    ensures var rs := ClassifyAll(bs, now, uncompress).value;
      forall i :: 0 <= i < |bs| ==> Classify(bs[i], now, uncompress) == Ok(rs[i])
    decreases |bs|
  {
    if bs != [] {
      var rs := ClassifyAll(bs, now, uncompress).value;
      var tail := bs[1..];
      ClassifyAllPointwise(tail, now, uncompress);
      var rest := ClassifyAll(tail, now, uncompress).value;
      assert rs == [Classify(bs[0], now, uncompress).value] + rest;
      forall i | 1 <= i < |bs| ensures Classify(bs[i], now, uncompress) == Ok(rs[i]) {
        assert tail[i - 1] == bs[i];
      }
    }
  }

  /** An event that fails to classify fails with the error of its first
      unreadable beacon. */
  lemma {:induction false} ClassifyAllFirstError(bs: seq<Beacon>, now: int, uncompress: seq<byte> -> string)
    requires ClassifyAll(bs, now, uncompress).Err?
    ensures exists i ::
      && 0 <= i < |bs|
      && !Readable(bs[i])
      && Classify(bs[i], now, uncompress) == Err(ClassifyAll(bs, now, uncompress).error)
      && forall j :: 0 <= j < i ==> Readable(bs[j])
    decreases |bs|
  {
    var e := ClassifyAll(bs, now, uncompress).error;
    if Classify(bs[0], now, uncompress).Err? {
      assert 0 <= 0 < |bs| && !Readable(bs[0]);
    } else {
      var tail := bs[1..];
      ClassifyAllFirstError(tail, now, uncompress);
      var k :| 0 <= k < |tail| && !Readable(tail[k]) && Classify(tail[k], now, uncompress) == Err(e)
        && forall j :: 0 <= j < k ==> Readable(tail[j]);
      assert tail[k] == bs[k + 1];
      assert forall j :: 1 <= j < k + 1 ==> tail[j - 1] == bs[j];
    }
  }

  /** The identity hashes of the beacons of a ranging event. */
  function BeaconHashes(bs: seq<Beacon>): set<int> {
    set i | 0 <= i < |bs| :: bs[i].hashCode
  }

  /** One ranging event applied to the table as a single transaction: every
      record upserted, or, when some beacon cannot be read, nothing at all. */
  function StoreBatch(s: Store, bs: seq<Beacon>, now: int, uncompress: seq<byte> -> string): (r: Result<Store, ClassifyError>)
    ensures r.Ok? <==> forall i :: 0 <= i < |bs| ==> Readable(bs[i])
    ensures r.Ok? ==> r.value.Keys == s.Keys + BeaconHashes(bs)
  {
    match ClassifyAll(bs, now, uncompress)
    case Ok(rs) =>
      HashesOfClassified(bs, now, uncompress);
      Ok(UpsertAll(s, rs))
    case Err(e) => Err(e)
  }

  /** `done` followed by the classification of the rest of an event. */
  function Continued(done: seq<BeaconSaved>, rest: Result<seq<BeaconSaved>, ClassifyError>): Result<seq<BeaconSaved>, ClassifyError> {
    match rest
    case Ok(rs) => Ok(done + rs)
    case Err(e) => Err(e)
  }

  lemma UpsertAllExtend(s: Store, rs: seq<BeaconSaved>, r: BeaconSaved)
    ensures UpsertAll(s, rs + [r]) == UpsertAll(s, rs)[r.hashcode := r]
  {
    assert (rs + [r])[..|rs|] == rs;
  }

  /** Before the first beacon nothing is classified yet. */
  lemma ContinuedStart(bs: seq<Beacon>, now: int, uncompress: seq<byte> -> string)
    ensures ClassifyAll(bs, now, uncompress) == Continued([], ClassifyAll(bs[0..], now, uncompress))
  {
    assert bs[0..] == bs;
    if ClassifyAll(bs, now, uncompress).Ok? {
      assert [] + ClassifyAll(bs, now, uncompress).value == ClassifyAll(bs, now, uncompress).value;
    }
  }

  /** A readable first beacon puts its record in front of the others'. */
  lemma ClassifyAllCons(bs: seq<Beacon>, r: BeaconSaved, now: int, uncompress: seq<byte> -> string)
    requires |bs| > 0 && Classify(bs[0], now, uncompress) == Ok(r)
    ensures ClassifyAll(bs, now, uncompress) == Continued([r], ClassifyAll(bs[1..], now, uncompress))
  {
  }

  lemma ContinuedAssoc(done: seq<BeaconSaved>, r: BeaconSaved, rest: Result<seq<BeaconSaved>, ClassifyError>)
    ensures Continued(done, Continued([r], rest)) == Continued(done + [r], rest)
  {
    if rest.Ok? {
      assert done + ([r] + rest.value) == (done + [r]) + rest.value;
    }
  }

  /** A readable beacon extends the classified prefix by its record, and the
      working copy by an upsert of that record. */
  lemma ContinuedStep(s: Store, bs: seq<Beacon>, i: nat, done: seq<BeaconSaved>, r: BeaconSaved, now: int, uncompress: seq<byte> -> string)
    requires i < |bs| && Classify(bs[i], now, uncompress) == Ok(r)
    requires ClassifyAll(bs, now, uncompress) == Continued(done, ClassifyAll(bs[i..], now, uncompress))
    ensures ClassifyAll(bs, now, uncompress) == Continued(done + [r], ClassifyAll(bs[i + 1..], now, uncompress))
    ensures UpsertAll(s, done + [r]) == UpsertAll(s, done)[r.hashcode := r]
  {
    assert bs[i..][0] == bs[i] && bs[i..][1..] == bs[i + 1..];
    ClassifyAllCons(bs[i..], r, now, uncompress);
    ContinuedAssoc(done, r, ClassifyAll(bs[i + 1..], now, uncompress));
    UpsertAllExtend(s, done, r);
  }

  /** An unreadable beacon fails the whole event with its own error. */
  lemma ContinuedStop(s: Store, bs: seq<Beacon>, i: nat, done: seq<BeaconSaved>, now: int, uncompress: seq<byte> -> string)
    requires i < |bs| && Classify(bs[i], now, uncompress).Err?
    requires ClassifyAll(bs, now, uncompress) == Continued(done, ClassifyAll(bs[i..], now, uncompress))
    ensures StoreBatch(s, bs, now, uncompress) == Err(Classify(bs[i], now, uncompress).error)
  {
    assert bs[i..][0] == bs[i];
  }

  /** Once every beacon is classified the working copy is the committed table. */
  lemma ContinuedEnd(s: Store, bs: seq<Beacon>, done: seq<BeaconSaved>, now: int, uncompress: seq<byte> -> string)
    requires ClassifyAll(bs, now, uncompress) == Continued(done, ClassifyAll(bs[|bs|..], now, uncompress))
    ensures StoreBatch(s, bs, now, uncompress) == Ok(UpsertAll(s, done))
  {
    assert bs[|bs|..] == [] && done + [] == done;
  }

  /** The body of the write transaction: each beacon is classified and
      upserted in turn into a working copy of the table; the first beacon that
      cannot be read aborts the transaction. */
  method ApplyBatch(s: Store, bs: seq<Beacon>, now: int, uncompress: seq<byte> -> string)
    returns (r: Result<Store, ClassifyError>)
    ensures r == StoreBatch(s, bs, now, uncompress)
  {
    var pending := s;
    ghost var records: seq<BeaconSaved> := [];
    var i := 0;
    ContinuedStart(bs, now, uncompress);
    while i < |bs|
      invariant 0 <= i <= |bs|
      invariant ClassifyAll(bs, now, uncompress) == Continued(records, ClassifyAll(bs[i..], now, uncompress))
      invariant pending == UpsertAll(s, records)
    {
      var classified := Classify(bs[i], now, uncompress);
      if classified.Err? {
        ContinuedStop(s, bs, i, records, now, uncompress);
        return Err(classified.error);
      }
      var record := classified.value;
      ContinuedStep(s, bs, i, records, record, now, uncompress);
      pending := pending[record.hashcode := record];
      records := records + [record];
      i := i + 1;
    }
    ContinuedEnd(s, bs, records, now, uncompress);
    return Ok(pending);
  }

  lemma HashesOfClassified(bs: seq<Beacon>, now: int, uncompress: seq<byte> -> string)
    requires ClassifyAll(bs, now, uncompress).Ok?
    ensures Hashes(ClassifyAll(bs, now, uncompress).value) == BeaconHashes(bs)
  {
    var rs := ClassifyAll(bs, now, uncompress).value;
    forall k | k in BeaconHashes(bs) ensures k in Hashes(rs) {
      var i :| 0 <= i < |bs| && bs[i].hashCode == k;
      assert rs[i].hashcode == k;
    }
    forall k | k in Hashes(rs) ensures k in BeaconHashes(bs) {
      var i :| 0 <= i < |rs| && rs[i].hashcode == k;
      assert bs[i].hashCode == k;
    }
  }

  /** After a committed ranging event the table holds exactly the old keys and
      the event's keys; every observed beacon's record was refreshed at `now`;
      the records of all other keys are untouched; and the invariant that each
      record sits under its own hash is kept. */
  lemma {:induction false} BatchStoresEveryBeacon(s: Store, bs: seq<Beacon>, now: int, uncompress: seq<byte> -> string)
    requires StoreBatch(s, bs, now, uncompress).Ok?
    ensures var s' := StoreBatch(s, bs, now, uncompress).value;
      && s'.Keys == s.Keys + BeaconHashes(bs)
      && (forall k :: k in s && k !in BeaconHashes(bs) ==> s'[k] == s[k])
      && (forall i :: 0 <= i < |bs| ==>
            s'[bs[i].hashCode].lastSeen == now && s'[bs[i].hashCode].lastMinuteSeen == MinuteOf(now))
      && (KeyedByHash(s) ==> KeyedByHash(s'))
  {
    var rs := ClassifyAll(bs, now, uncompress).value;
    ClassifyAllPointwise(bs, now, uncompress);
    HashesOfClassified(bs, now, uncompress);
    UpsertAllTakesFromBatch(s, rs);
    var s' := UpsertAll(s, rs);
    forall i | 0 <= i < |bs|
      ensures s'[bs[i].hashCode].lastSeen == now && s'[bs[i].hashCode].lastMinuteSeen == MinuteOf(now)
    {
      assert rs[i].hashcode == bs[i].hashCode;
      var r := s'[bs[i].hashCode];
      var j :| 0 <= j < |rs| && rs[j] == r;
      assert Classify(bs[j], now, uncompress) == Ok(r);
    }
  }

  /** Within one ranging event a later observation of an identity overwrites
      an earlier one: the stored record is that of the last beacon with the hash. */
  lemma {:induction false} LaterBeaconWins(s: Store, bs: seq<Beacon>, i: nat, now: int, uncompress: seq<byte> -> string)
    requires StoreBatch(s, bs, now, uncompress).Ok?
    requires i < |bs| && forall j :: i < j < |bs| ==> bs[j].hashCode != bs[i].hashCode
    ensures StoreBatch(s, bs, now, uncompress).value[bs[i].hashCode] == Classify(bs[i], now, uncompress).value
  {
    var rs := ClassifyAll(bs, now, uncompress).value;
    ClassifyAllPointwise(bs, now, uncompress);
    assert forall j :: 0 <= j < |bs| ==> rs[j].hashcode == bs[j].hashCode;
    UpsertAllKeepsLast(s, rs, i);
  }

  /** Upserting the same records a second time changes nothing. */
  lemma UpsertAllIdempotent(s: Store, rs: seq<BeaconSaved>)
    ensures UpsertAll(UpsertAll(s, rs), rs) == UpsertAll(s, rs)
  {
    var once := UpsertAll(s, rs);
    var twice := UpsertAll(once, rs);
    UpsertAllOverridesBase(once, s, rs);
    assert twice.Keys == once.Keys;
  }

  /** Storing the same ranging event twice at the same time leaves the table
      as storing it once. */
  lemma {:induction false} BatchIdempotent(s: Store, bs: seq<Beacon>, now: int, uncompress: seq<byte> -> string)
    requires StoreBatch(s, bs, now, uncompress).Ok?
    ensures StoreBatch(StoreBatch(s, bs, now, uncompress).value, bs, now, uncompress) == StoreBatch(s, bs, now, uncompress)
  {
    var rs := ClassifyAll(bs, now, uncompress).value;
    UpsertAllIdempotent(s, rs);
  }

  /** A ranging event of one readable beacon upserts exactly its record. */
  lemma SingleBeaconBatch(s: Store, b: Beacon, now: int, uncompress: seq<byte> -> string)
    requires Readable(b)
    ensures StoreBatch(s, [b], now, uncompress)
         == Ok(s[b.hashCode := Classify(b, now, uncompress).value])
  {
    var r := Classify(b, now, uncompress).value;
    assert [b][1..] == [];
    assert ClassifyAll([b], now, uncompress) == Ok([r] + []);
    UpsertAllExtend(s, [], r);
    assert [] + [r] == [r] + [] == [r];
  }

  /** A ranging event of two readable beacons upserts their records in order. */
  lemma PairBatch(s: Store, b1: Beacon, b2: Beacon, now: int, uncompress: seq<byte> -> string)
    requires Readable(b1) && Readable(b2)
    ensures var r1 := Classify(b1, now, uncompress).value;
      var r2 := Classify(b2, now, uncompress).value;
      StoreBatch(s, [b1, b2], now, uncompress) == Ok(s[r1.hashcode := r1][r2.hashcode := r2])
  {
    var r1 := Classify(b1, now, uncompress).value;
    var r2 := Classify(b2, now, uncompress).value;
    var bs := [b1, b2];
    assert bs[1..] == [b2] && [b2][1..] == [];
    assert ClassifyAll([b2], now, uncompress) == Ok([r2] + []);
    assert ClassifyAll(bs, now, uncompress) == Ok([r1] + ([r2] + []));
    assert [] + [r1] == [r1] && [r1] + [r2] == [r1, r2] == [r1] + ([r2] + []);
    UpsertAllExtend(s, [], r1);
    UpsertAllExtend(s, [r1], r2);
  }

  /** Two observations of one identity in one ranging event, differing only in
      signal strength and distance, leave one record, the later one's. */
  lemma {:induction false} SameIdentityOneRecord(s: Store, b: Beacon, rssi: int, distance: real, now: int, uncompress: seq<byte> -> string)
    requires Readable(b)
    ensures var b' := b.(rssi := rssi, distance := distance);
      var r := StoreBatch(s, [b, b'], now, uncompress);
      && r.Ok?
      && r.value.Keys == s.Keys + {b.hashCode}
      && r.value[b.hashCode] == Classify(b', now, uncompress).value
  {
    var b' := b.(rssi := rssi, distance := distance);
    assert Readable(b');
    PairBatch(s, b, b', now, uncompress);
  }

  /** Re-observing a beacon in a later ranging event never moves its record to
      an earlier minute bucket. */
  lemma {:induction false} ReobservationRefreshesMinute(s: Store, b: Beacon, t1: int, t2: int, uncompress: seq<byte> -> string)
    requires Readable(b) && t1 <= t2
    ensures var first := StoreBatch(s, [b], t1, uncompress);
      first.Ok? &&
      var second := StoreBatch(first.value, [b], t2, uncompress);
      && second.Ok?
      && second.value.Keys == first.value.Keys
      && first.value[b.hashCode].lastMinuteSeen <= second.value[b.hashCode].lastMinuteSeen
  {
    SingleBeaconBatch(s, b, t1, uncompress);
    var first := StoreBatch(s, [b], t1, uncompress).value;
    SingleBeaconBatch(first, b, t2, uncompress);
    MinuteMonotone(t1, t2);
  }

  /** The records seen strictly after `since`: the query behind a webhook flush. */
  function Window(s: Store, since: int): (w: Store)
    ensures w.Keys <= s.Keys
    ensures forall k :: k in s ==> (k in w <==> s[k].lastSeen > since)
    ensures forall k :: k in w ==> w[k] == s[k]
  {
    map k | k in s && s[k].lastSeen > since :: s[k]
  }

  /** A ranging event stored after a flush started at `flushTime` lands in the
      next flush's window, whatever became of that flush. */
  lemma {:induction false} ObservedAfterFlushIsInNextWindow(s: Store, bs: seq<Beacon>, flushTime: int, now: int, uncompress: seq<byte> -> string)
    requires flushTime < now
    requires StoreBatch(s, bs, now, uncompress).Ok?
    ensures var s' := StoreBatch(s, bs, now, uncompress).value;
      forall i :: 0 <= i < |bs| ==> bs[i].hashCode in Window(s', flushTime)
  {
    BatchStoresEveryBeacon(s, bs, now, uncompress);
  }

  /** Once a flush at `flushTime` has moved the cursor past every record, the
      next window is empty until a beacon is seen again, even if that flush's
      delivery was abandoned. */
  lemma WindowAfterFlushIsEmpty(s: Store, flushTime: int)
    requires forall k :: k in s ==> s[k].lastSeen <= flushTime
    ensures Window(s, flushTime) == map[]
  {
    assert forall k :: k !in Window(s, flushTime);
  }

  /** Clearing the table between two ranging events leaves only the second
      event's records. */
  lemma {:induction false} ClearThenStore(bs: seq<Beacon>, now: int, uncompress: seq<byte> -> string)
    requires StoreBatch(map[], bs, now, uncompress).Ok?
    ensures StoreBatch(map[], bs, now, uncompress).value.Keys == BeaconHashes(bs)
  {
    BatchStoresEveryBeacon(map[], bs, now, uncompress);
  }
}
