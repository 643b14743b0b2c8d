/** The extraction budget of a run, charged by concurrent extractions in any order. */
module Budget {
  import opened Outcomes
  import opened Identity

  /** One `consume` call. */
  datatype Charge = Charge(source: SourceId, rows: nat, bytes: nat)

  function RowsOf(log: seq<Charge>, source: SourceId): nat {
    if log == [] then 0
    else
      var last := log[|log| - 1];
      RowsOf(log[..|log| - 1], source) + if last.source == source then last.rows else 0
  }

  function BytesOf(log: seq<Charge>): nat {
    if log == [] then 0 else BytesOf(log[..|log| - 1]) + log[|log| - 1].bytes
  }

  predicate Within(log: seq<Charge>, source: SourceId, rowLimit: nat, byteLimit: nat) {
    RowsOf(log, source) <= rowLimit && BytesOf(log) <= byteLimit
  }

  class RunBudget {
    const rowLimit: nat
    const byteLimit: nat
    var rows: map<SourceId, nat>
    var extracted: nat
    /** Every charge so far, in the order in which the lock was taken. */
    ghost var log: seq<Charge>

    ghost predicate Valid()
      reads this
    {
      && extracted == BytesOf(log)
      && forall s: SourceId :: RowsOf(log, s) == if s in rows then rows[s] else 0
    }

    constructor (rowLimit: nat, byteLimit: nat)
      ensures Valid() && log == []
      ensures this.rowLimit == rowLimit && this.byteLimit == byteLimit
    {
      this.rowLimit, this.byteLimit := rowLimit, byteLimit;
      rows, extracted, log := map[], 0, [];
    }

    /** Counts first and raises afterwards: a batch that is over the limit has been counted. */
    method Consume(source: SourceId, count: nat, bytes: nat) returns (result: Result<()>)
      requires Valid()
      modifies this
      ensures Valid()
      ensures log == old(log) + [Charge(source, count, bytes)]
      ensures result == if Within(log, source, rowLimit, byteLimit) then Success(()) else Failure(PolicyError)
    {
      log := log + [Charge(source, count, bytes)];
      assert log[..|log| - 1] == old(log);
      rows := rows[source := (if source in rows then rows[source] else 0) + count];
      extracted := extracted + bytes;
      if rows[source] > rowLimit {
        return Failure(PolicyError);
      }
      if extracted > byteLimit {
        return Failure(PolicyError);
      }
      return Success(());
    }
  }

  lemma RowsOfSnoc(log: seq<Charge>, c: Charge, source: SourceId)
    ensures RowsOf(log + [c], source) == RowsOf(log, source) + if c.source == source then c.rows else 0
  {
    assert (log + [c])[..|log|] == log;
  }

  lemma {:induction false} RowsOfConcat(a: seq<Charge>, b: seq<Charge>, source: SourceId)
    ensures RowsOf(a + b, source) == RowsOf(a, source) + RowsOf(b, source)
    ensures BytesOf(a + b) == BytesOf(a) + BytesOf(b)
    decreases |b|
  {
    if b == [] {
      assert a + b == a;
    } else {
      RowsOfConcat(a, b[..|b| - 1], source);
      assert (a + b)[..|a + b| - 1] == a + b[..|b| - 1];
    }
  }

  /** The totals do not depend on how the concurrent charges were interleaved. */
  lemma {:induction false} TotalsIgnoreOrder(a: seq<Charge>, b: seq<Charge>, source: SourceId)
    requires multiset(a) == multiset(b)
    ensures RowsOf(a, source) == RowsOf(b, source) && BytesOf(a) == BytesOf(b)
    decreases |a|
  {
    if a == [] {
      assert |multiset(b)| == 0;
    } else {
      hide RowsOf, BytesOf;
      var last := a[|a| - 1];
      assert a == a[..|a| - 1] + [last];
      assert last in multiset(b);
      var i :| 0 <= i < |b| && b[i] == last;
      RemovedFrom(a, |a| - 1);
      RemovedFrom(b, i);
      TotalsIgnoreOrder(a[..|a| - 1], b[..i] + b[i + 1..], source);
      TotalsWithout(a, |a| - 1, source);
      TotalsWithout(b, i, source);
      assert a[..|a| - 1] + a[|a| - 1 + 1..] == a[..|a| - 1];
    }
  }

  lemma RemovedFrom(log: seq<Charge>, i: nat)
    requires i < |log|
    ensures multiset(log[..i] + log[i + 1..]) == multiset(log) - multiset{log[i]}
  {
    assert log == log[..i] + ([log[i]] + log[i + 1..]);
  }

  lemma TotalsWithout(log: seq<Charge>, i: nat, source: SourceId)
    requires i < |log|
    ensures RowsOf(log, source)
         == RowsOf(log[..i] + log[i + 1..], source) + if log[i].source == source then log[i].rows else 0
    ensures BytesOf(log) == BytesOf(log[..i] + log[i + 1..]) + log[i].bytes
  {
    assert log == (log[..i] + [log[i]]) + log[i + 1..];
    RowsOfConcat(log[..i] + [log[i]], log[i + 1..], source);
    RowsOfConcat(log[..i], log[i + 1..], source);
    assert (log[..i] + [log[i]])[..i] == log[..i];
  }

  /** The i-th charge did not raise. */
  predicate Accepted(log: seq<Charge>, i: nat, rowLimit: nat, byteLimit: nat)
    requires i < |log|
  {
    Within(log[..i + 1], log[i].source, rowLimit, byteLimit)
  }

  /** No call raised if and only if every source, and the run as a whole, ended within its limit. */
  lemma {:induction false} NothingRaisedIffWithin(log: seq<Charge>, rowLimit: nat, byteLimit: nat)
    ensures (forall i :: 0 <= i < |log| ==> Accepted(log, i, rowLimit, byteLimit))
            <==> (forall c <- log :: Within(log, c.source, rowLimit, byteLimit))
  {
    if forall c <- log :: Within(log, c.source, rowLimit, byteLimit) {
      forall i | 0 <= i < |log| ensures Accepted(log, i, rowLimit, byteLimit) {
        assert log == log[..i + 1] + log[i + 1..];
        RowsOfConcat(log[..i + 1], log[i + 1..], log[i].source);
        assert log[i] in log;
      }
    }
    if forall i :: 0 <= i < |log| ==> Accepted(log, i, rowLimit, byteLimit) {
      forall c <- log ensures Within(log, c.source, rowLimit, byteLimit) {
        LastChargeDecides(log, c.source, rowLimit, byteLimit);
      }
    }
  }

  /** The last charge of a source saw that source's final count, and the last of all the final size. */
  lemma {:induction false} LastChargeDecides(log: seq<Charge>, source: SourceId, rowLimit: nat, byteLimit: nat)
    requires log != []
    requires forall i :: 0 <= i < |log| ==> Accepted(log, i, rowLimit, byteLimit)
    ensures Within(log, source, rowLimit, byteLimit)
  {
    var n := |log| - 1;
    assert log[..n + 1] == log;
    assert Accepted(log, n, rowLimit, byteLimit);
    if n > 0 && log[n].source != source {
      var shorter := log[..n];
      forall i | 0 <= i < |shorter| ensures Accepted(shorter, i, rowLimit, byteLimit) {
        assert shorter[..i + 1] == log[..i + 1];
        assert Accepted(log, i, rowLimit, byteLimit);
      }
      LastChargeDecides(shorter, source, rowLimit, byteLimit);
    }
  }

  /** Whether anything raises is the same for every interleaving of the same charges. */
  lemma RaisingIgnoresOrder(a: seq<Charge>, b: seq<Charge>, rowLimit: nat, byteLimit: nat)
    requires multiset(a) == multiset(b)
    requires forall i :: 0 <= i < |a| ==> Accepted(a, i, rowLimit, byteLimit)
    ensures forall i :: 0 <= i < |b| ==> Accepted(b, i, rowLimit, byteLimit)
  {
    NothingRaisedIffWithin(a, rowLimit, byteLimit);
    forall c <- b ensures Within(b, c.source, rowLimit, byteLimit) {
      assert c in multiset(a);
      TotalsIgnoreOrder(a, b, c.source);
    }
    NothingRaisedIffWithin(b, rowLimit, byteLimit);
  }

  // ---------- interleaved extractions ----------

  /** The charges that the batches of one source are. */
  function Charges(source: SourceId, batches: seq<Table>): seq<Charge> {
    if batches == [] then []
    else
      var last := batches[|batches| - 1];
      Charges(source, batches[..|batches| - 1]) + [Charge(source, last.rows, last.memory)]
  }

  /** What one source has charged, in order. */
  function StreamOf(log: seq<Charge>, source: SourceId): seq<Charge> {
    if log == [] then []
    else
      var last := log[|log| - 1];
      StreamOf(log[..|log| - 1], source) + if last.source == source then [last] else []
  }

  /** The log interleaves these extractions: each source has charged its batches, in whatever order in between. */
  predicate Interleaves(log: seq<Charge>, extractions: map<SourceId, seq<Table>>) {
    && (forall c <- log :: c.source in extractions)
    && forall s <- extractions :: StreamOf(log, s) == Charges(s, extractions[s])
  }

  lemma {:induction false} RowsOfStream(log: seq<Charge>, source: SourceId)
    ensures RowsOf(StreamOf(log, source), source) == RowsOf(log, source)
  {
    if log != [] {
      var before, last := log[..|log| - 1], log[|log| - 1];
      RowsOfStream(before, source);
      if last.source == source {
        RowsOfSnoc(StreamOf(before, source), last, source);
      } else {
        assert StreamOf(log, source) == StreamOf(before, source);
      }
    }
  }

  lemma {:induction false} RowsOfCharges(source: SourceId, batches: seq<Table>)
    ensures RowsOf(Charges(source, batches), source) == SumRows(batches)
  {
    if batches != [] {
      var before, last := batches[..|batches| - 1], batches[|batches| - 1];
      RowsOfCharges(source, before);
      RowsOfSnoc(Charges(source, before), Charge(source, last.rows, last.memory), source);
    }
  }

  /**
   Concurrent extractions. Whatever else is charged in between, a source none of whose charges raised
   has delivered no more rows than the limit.
   */
  lemma AcceptedIsBounded(
    log: seq<Charge>, source: SourceId, batches: seq<Table>, rowLimit: nat, byteLimit: nat)
    requires StreamOf(log, source) == Charges(source, batches)
    requires forall i :: 0 <= i < |log| && log[i].source == source ==> Accepted(log, i, rowLimit, byteLimit)
    ensures SumRows(batches) <= rowLimit
  {
    RowsOfStream(log, source);
    RowsOfCharges(source, batches);
    AcceptedRows(log, source, rowLimit, byteLimit);
  }

  lemma {:induction false} AcceptedRows(log: seq<Charge>, source: SourceId, rowLimit: nat, byteLimit: nat)
    requires forall i :: 0 <= i < |log| && log[i].source == source ==> Accepted(log, i, rowLimit, byteLimit)
    ensures RowsOf(log, source) <= rowLimit
  {
    if log != [] {
      var n := |log| - 1;
      assert log[..n + 1] == log;
      if log[n].source != source {
        var shorter := log[..n];
        forall i | 0 <= i < |shorter| && shorter[i].source == source
          ensures Accepted(shorter, i, rowLimit, byteLimit)
        {
          assert shorter[..i + 1] == log[..i + 1];
          assert log[i].source == source && Accepted(log, i, rowLimit, byteLimit);
        }
        AcceptedRows(shorter, source, rowLimit, byteLimit);
      }
    }
  }

  /** Interleaved extractions all go through if and only if each is within the row limit, and all in size. */
  lemma InterleavedExactly(
    log: seq<Charge>, extractions: map<SourceId, seq<Table>>, rowLimit: nat, byteLimit: nat)
    requires Interleaves(log, extractions)
    ensures (forall i :: 0 <= i < |log| ==> Accepted(log, i, rowLimit, byteLimit))
            <==> BytesOf(log) <= byteLimit && forall s <- extractions :: SumRows(extractions[s]) <= rowLimit
  {
    NothingRaisedIffWithin(log, rowLimit, byteLimit);
    hide Accepted;
    forall s <- extractions ensures RowsOf(log, s) == SumRows(extractions[s]) {
      RowsOfStream(log, s);
      RowsOfCharges(s, extractions[s]);
    }
    if forall c <- log :: Within(log, c.source, rowLimit, byteLimit) {
      assert log != [] ==> Within(log, log[0].source, rowLimit, byteLimit);
      forall s <- extractions ensures RowsOf(log, s) <= rowLimit {
        if forall c <- log :: c.source != s {
          NothingCharged(log, s);
        }
      }
    }
  }

  lemma {:induction false} NothingCharged(log: seq<Charge>, source: SourceId)
    requires forall c <- log :: c.source != source
    ensures RowsOf(log, source) == 0
  {
    if log != [] {
      NothingCharged(log[..|log| - 1], source);
    }
  }

  // ---------- what a run has extracted ----------

  /** The size of the batches in memory. */
  function SumMemory(batches: seq<Table>): nat {
    if batches == [] then 0 else SumMemory(batches[..|batches| - 1]) + batches[|batches| - 1].memory
  }

  lemma {:induction false} BytesOfCharges(source: SourceId, batches: seq<Table>)
    ensures BytesOf(Charges(source, batches)) == SumMemory(batches)
  {
    if batches != [] {
      var before, last := batches[..|batches| - 1], batches[|batches| - 1];
      BytesOfCharges(source, before);
      assert Charges(source, batches)[..|Charges(source, before)|] == Charges(source, before);
    }
  }

  lemma ChargesSnoc(source: SourceId, batches: seq<Table>, i: nat)
    requires i < |batches|
    ensures Charges(source, batches[..i + 1])
         == Charges(source, batches[..i]) + [Charge(source, batches[i].rows, batches[i].memory)]
  {
    assert batches[..i + 1][..i] == batches[..i];
  }

  lemma ChargedOneMore(before: seq<Charge>, log: seq<Charge>, source: SourceId, batches: seq<Table>, i: nat)
    requires i < |batches| && log == before + Charges(source, batches[..i])
    ensures log + [Charge(source, batches[i].rows, batches[i].memory)] == before + Charges(source, batches[..i + 1])
  {
    ChargesSnoc(source, batches, i);
    hide Charges;
    Regrouped(before, Charges(source, batches[..i]), [Charge(source, batches[i].rows, batches[i].memory)]);
  }

  /** The charges of whole captures, one after the other. */
  function Delivered(captured: seq<SnapshotKey>): seq<Charge> {
    if captured == [] then []
    else
      var last := captured[|captured| - 1];
      Delivered(captured[..|captured| - 1]) + Charges(Source(last), last.content)
  }

  /** The size in memory of all the batches of these captures. */
  function MemoryOf(captured: seq<SnapshotKey>): nat {
    if captured == [] then 0
    else MemoryOf(captured[..|captured| - 1]) + SumMemory(captured[|captured| - 1].content)
  }

  lemma {:induction false} BytesOfDelivered(captured: seq<SnapshotKey>)
    ensures BytesOf(Delivered(captured)) == MemoryOf(captured)
  {
    if captured != [] {
      var before, last := captured[..|captured| - 1], captured[|captured| - 1];
      BytesOfDelivered(before);
      BytesOfCharges(Source(last), last.content);
      RowsOfConcat(Delivered(before), Charges(Source(last), last.content), Source(last));
    }
  }

  lemma DeliveredSnoc(captured: seq<SnapshotKey>, key: SnapshotKey)
    ensures Delivered(captured + [key]) == Delivered(captured) + Charges(Source(key), key.content)
  {
    assert (captured + [key])[..|captured|] == captured;
    hide Charges;
  }

  lemma SnocLast(a: seq<SnapshotKey>, b: seq<SnapshotKey>)
    requires b != []
    ensures b == b[..|b| - 1] + [b[|b| - 1]]
    ensures a + b == a + b[..|b| - 1] + [b[|b| - 1]]
  {
  }

  lemma Regrouped(a: seq<Charge>, b: seq<Charge>, c: seq<Charge>)
    ensures a + (b + c) == a + b + c
  {
  }

  lemma {:induction false} DeliveredConcat(a: seq<SnapshotKey>, b: seq<SnapshotKey>)
    ensures Delivered(a + b) == Delivered(a) + Delivered(b)
    decreases |b|
  {
    if b == [] {
      assert a + b == a;
    } else {
      var before, last := b[..|b| - 1], b[|b| - 1];
      hide Delivered, Charges;
      DeliveredConcat(a, before);
      DeliveredSnoc(a + before, last);
      DeliveredSnoc(before, last);
      SnocLast(a, b);
      Regrouped(Delivered(a), Delivered(before), Charges(Source(last), last.content));
    }
  }

  /** Of each of these sources its member, and nothing else, was captured, once. */
  ghost predicate CapturedOnce(
    captured: seq<SnapshotKey>, members: map<SourceId, SnapshotKey>, ids: set<SourceId>)
  {
    && (forall k <- captured :: Source(k) in ids && Source(k) in members && members[Source(k)] == k)
    && (forall id <- ids :: id in members && members[id] in captured)
    && (forall i, j :: 0 <= i < j < |captured| ==> captured[i] != captured[j])
  }

  /** Charging did not take the run over its size limit. */
  predicate Fits(before: seq<Charge>, after: seq<Charge>, limit: nat) {
    BytesOf(before) <= limit ==> BytesOf(after) <= limit
  }

  /** The log has grown by the charges of exactly these captures, and stayed within the size limit. */
  ghost predicate Accounts(
    before: seq<Charge>, after: seq<Charge>, limit: nat,
    captured: seq<SnapshotKey>, members: map<SourceId, SnapshotKey>, ids: set<SourceId>)
  {
    && after == before + Delivered(captured)
    && CapturedOnce(captured, members, ids)
    && Fits(before, after, limit)
  }

  lemma NothingAccounted(log: seq<Charge>, limit: nat, members: map<SourceId, SnapshotKey>)
    ensures Accounts(log, log, limit, [], members, {})
  {
    assert log + [] == log;
  }

  lemma OneMoreAccounted(
    before: seq<Charge>, log: seq<Charge>, after: seq<Charge>, limit: nat,
    captured: seq<SnapshotKey>, members: map<SourceId, SnapshotKey>, ids: set<SourceId>, key: SnapshotKey)
    requires Accounts(before, log, limit, captured, members, ids) && Source(key) !in ids
    requires after == log + Charges(Source(key), key.content) && Fits(log, after, limit)
    ensures Accounts(before, after, limit, captured + [key], members[Source(key) := key], ids + {Source(key)})
  {
    DeliveredSnoc(captured, key);
    hide Delivered, Charges, BytesOf, CapturedOnce;
    OneMoreCaptured(captured, members, ids, key);
    assert before + (Delivered(captured) + Charges(Source(key), key.content))
        == before + Delivered(captured) + Charges(Source(key), key.content);
  }

  lemma OneMoreCaptured(
    captured: seq<SnapshotKey>, members: map<SourceId, SnapshotKey>, ids: set<SourceId>, key: SnapshotKey)
    requires CapturedOnce(captured, members, ids) && Source(key) !in ids
    ensures CapturedOnce(captured + [key], members[Source(key) := key], ids + {Source(key)})
  {
    var all, more := captured + [key], members[Source(key) := key];
    assert forall k :: k in all <==> k in captured || k == key;
    assert key !in captured;
    forall id <- ids + {Source(key)} ensures id in more && more[id] in all {
      if id != Source(key) {
        assert id in ids;
      }
    }
  }

  lemma AccountedTogether(
    before: seq<Charge>, log: seq<Charge>, after: seq<Charge>, limit: nat,
    a: seq<SnapshotKey>, members: map<SourceId, SnapshotKey>, ids: set<SourceId>,
    b: seq<SnapshotKey>, more: map<SourceId, SnapshotKey>, others: set<SourceId>)
    requires Accounts(before, log, limit, a, members, ids) && Accounts(log, after, limit, b, more, others)
    requires (forall id <- members :: id in more && more[id] == members[id]) && ids !! others
    ensures Accounts(before, after, limit, a + b, more, ids + others)
  {
    DeliveredConcat(a, b);
    hide Delivered, BytesOf;
    assert before + Delivered(a) + Delivered(b) == before + (Delivered(a) + Delivered(b));
    forall i, j | 0 <= i < j < |a + b| ensures (a + b)[i] != (a + b)[j] {
      if i < |a| <= j {
        assert Source(a[i]) in ids && Source(b[j - |a|]) in others;
      }
    }
  }

  /** The size of what was captured is within the limit. */
  lemma AccountedSize(
    before: seq<Charge>, after: seq<Charge>, limit: nat,
    captured: seq<SnapshotKey>, members: map<SourceId, SnapshotKey>, ids: set<SourceId>)
    requires Accounts(before, after, limit, captured, members, ids)
    ensures BytesOf(after) == BytesOf(before) + MemoryOf(captured)
    ensures BytesOf(before) <= limit ==> BytesOf(before) + MemoryOf(captured) <= limit
  {
    BytesOfDelivered(captured);
    RowsOfConcat(before, Delivered(captured), "");
  }
}
