/**
 * The Reports page's figures over the ticket list: the counts, the status filter and the
 * per-bucket generated/scanned tallies behind the chart.
 */
module Reports {
  import opened Seqs
  import opened TicketContext

  datatype Stats = Stats(total: nat, scanned: nat, notScanned: int)

  /** `tickets.filter(t => t.scannedAt)`. */
  function ScannedTickets(tickets: seq<Ticket>): seq<Ticket> {
    Filter(tickets, IsScanned)
  }

  /** `tickets.filter(t => !t.scannedAt)`. */
  function UnscannedTickets(tickets: seq<Ticket>): seq<Ticket> {
    Filter(tickets, IsUnscanned)
  }

  /** `stats` without the scan rate: notScanned, computed as total - scanned, counts the unscanned tickets. */
  function ComputeStats(tickets: seq<Ticket>): (s: Stats)
    ensures s.total == |tickets|
    ensures s.scanned == |ScannedTickets(tickets)|
    ensures s.notScanned == |UnscannedTickets(tickets)|
    ensures 0 <= s.notScanned <= s.total
  {
    FilterSplits(tickets, IsScanned, IsUnscanned);
    var total := |tickets|;
    var scanned := |Filter(tickets, IsScanned)|;
    Stats(total, scanned, total - scanned)
  }

  /** `filteredTickets`: "scanned" and "not-scanned" select by status, any other value keeps the list. */
  function FilterTickets(tickets: seq<Ticket>, filter: string): (r: seq<Ticket>)
    ensures filter == "scanned" ==> forall t :: t in r <==> t in tickets && IsScanned(t)
    ensures filter == "not-scanned" ==> forall t :: t in r <==> t in tickets && !IsScanned(t)
    ensures filter != "scanned" && filter != "not-scanned" ==> r == tickets
  {
    if filter == "scanned" then ScannedTickets(tickets)
    else if filter == "not-scanned" then UnscannedTickets(tickets)
    else tickets
  }

  /** The two status filters split the list: sizes add up to the total, every ticket lands in exactly one. */
  lemma FiltersPartition(tickets: seq<Ticket>)
    ensures |FilterTickets(tickets, "scanned")| + |FilterTickets(tickets, "not-scanned")| == |tickets|
    ensures multiset(FilterTickets(tickets, "scanned")) + multiset(FilterTickets(tickets, "not-scanned"))
      == multiset(tickets)
  {
    FilterSplits(tickets, IsScanned, IsUnscanned);
  }

  // ---------------------------------------------------------------------------
  // Chart buckets

  /** One chart entry `{date, generated, scanned}`, keyed by the ticket's period bucket. */
  datatype Bucket<K> = Bucket(key: K, generated: nat, scanned: nat)

  /** Where `data[key]` lives, or -1 when it is not there yet. */
  function BucketIndex<K(==)>(data: seq<Bucket<K>>, key: K): (k: int)
    ensures -1 <= k < |data|
    ensures k >= 0 ==> data[k].key == key && forall i :: 0 <= i < k ==> data[i].key != key
    ensures k == -1 ==> forall i :: 0 <= i < |data| ==> data[i].key != key
  {
    if data == [] then -1
    else if data[0].key == key then 0
    else
      var k := BucketIndex(data[1..], key);
      if k == -1 then -1 else k + 1
  }

  /** One step of the forEach: create the bucket if missing, count the ticket, and count it as scanned if it is. */
  function CountTicket<K(==)>(data: seq<Bucket<K>>, t: Ticket, key: K): (r: seq<Bucket<K>>)
    ensures |r| == if BucketIndex(data, key) == -1 then |data| + 1 else |data|
    ensures forall j :: 0 <= j < |data| && j != BucketIndex(data, key) ==> r[j] == data[j]
    ensures BucketIndex(data, key) == -1 ==> r[|data|] == Bucket(key, 1, if IsScanned(t) then 1 else 0)
    ensures var k := BucketIndex(data, key);
      k >= 0 ==> r[k] == Bucket(key, data[k].generated + 1, data[k].scanned + if IsScanned(t) then 1 else 0)
  {
    var k := BucketIndex(data, key);
    var d := if k == -1 then data + [Bucket(key, 0, 0)] else data;
    var i := if k == -1 then |data| else k;
    d[i := d[i].(generated := d[i].generated + 1, scanned := d[i].scanned + if IsScanned(t) then 1 else 0)]
  }

  /** The buckets after counting every ticket, in order of first appearance (the object's insertion order). */
  function Tally<K(==)>(tickets: seq<Ticket>, bucketOf: Ticket -> K): (r: seq<Bucket<K>>)
    ensures |r| <= |tickets|
    ensures tickets != [] ==> |r| >= 1
    decreases |tickets|
  {
    if tickets == [] then []
    else
      var n := |tickets| - 1;
      CountTicket(Tally(tickets[..n], bucketOf), tickets[n], bucketOf(tickets[n]))
  }

  /** The chartData loop, before its date sort. */
  method ChartData<K(==)>(tickets: seq<Ticket>, bucketOf: Ticket -> K) returns (data: seq<Bucket<K>>)
    ensures data == Tally(tickets, bucketOf)
  {
    data := [];
    for i := 0 to |tickets|
      invariant data == Tally(tickets[..i], bucketOf)
    {
      var ticket := tickets[i];
      var dateKey := bucketOf(ticket);
      assert Tally(tickets[..i + 1], bucketOf) == CountTicket(data, ticket, dateKey) by {
        assert tickets[..i + 1][..i] == tickets[..i];
      }
      var k := BucketIndex(data, dateKey);
      if k == -1 {
        data := data + [Bucket(dateKey, 0, 0)];
        k := |data| - 1;
      }
      // data[dateKey] is one object, bumped in place and kept in the map
      var bucket := data[k].(generated := data[k].generated + 1);
      if IsScanned(ticket) {
        bucket := bucket.(scanned := bucket.scanned + 1);
      }
      data := data[k := bucket];
    }
    assert tickets[..|tickets|] == tickets;
  }

  function TotalGenerated<K>(data: seq<Bucket<K>>): nat {
    if data == [] then 0 else data[0].generated + TotalGenerated(data[1..])
  }

  function TotalScanned<K>(data: seq<Bucket<K>>): nat {
    if data == [] then 0 else data[0].scanned + TotalScanned(data[1..])
  }

  ghost predicate DistinctKeys<K>(data: seq<Bucket<K>>) {
    forall i, j :: 0 <= i < |data| && 0 <= j < |data| && i != j ==> data[i].key != data[j].key
  }

  /** Replacing one bucket changes the totals by the difference of its counts. */
  lemma {:induction false} TotalsAfterUpdate<K>(data: seq<Bucket<K>>, i: nat, b: Bucket<K>)
    requires i < |data|
    ensures TotalGenerated(data[i := b]) == TotalGenerated(data) - data[i].generated + b.generated
    ensures TotalScanned(data[i := b]) == TotalScanned(data) - data[i].scanned + b.scanned
  {
    if i > 0 {
      assert data[i := b][1..] == data[1..][i - 1 := b];
      TotalsAfterUpdate(data[1..], i - 1, b);
    }
  }

  /** Appending an empty bucket leaves the totals alone. */
  lemma {:induction false} TotalsAfterEmptyBucket<K>(data: seq<Bucket<K>>, key: K)
    ensures TotalGenerated(data + [Bucket(key, 0, 0)]) == TotalGenerated(data)
    ensures TotalScanned(data + [Bucket(key, 0, 0)]) == TotalScanned(data)
  {
    if data == [] {
      assert ([] + [Bucket(key, 0, 0)])[1..] == [];
    } else {
      assert (data + [Bucket(key, 0, 0)])[1..] == data[1..] + [Bucket(key, 0, 0)];
      TotalsAfterEmptyBucket(data[1..], key);
    }
  }

  /** Counting one ticket adds one to the generated total and one to the scanned total when it is scanned. */
  lemma CountTicketTotals<K>(data: seq<Bucket<K>>, t: Ticket, key: K)
    ensures TotalGenerated(CountTicket(data, t, key)) == TotalGenerated(data) + 1
    ensures TotalScanned(CountTicket(data, t, key)) == TotalScanned(data) + if IsScanned(t) then 1 else 0
  {
    var k := BucketIndex(data, key);
    var d := if k == -1 then data + [Bucket(key, 0, 0)] else data;
    var i := if k == -1 then |data| else k;
    TotalsAfterEmptyBucket(data, key);
    TotalsAfterUpdate(d, i, Bucket(key, d[i].generated + 1, d[i].scanned + if IsScanned(t) then 1 else 0));
  }

  /** Where the bucket of `key` is, as seen through one step: the keys stay in place and a new one goes at the end. */
  lemma BucketIndexSameKeys<K>(a: seq<Bucket<K>>, b: seq<Bucket<K>>, key: K)
    requires |a| == |b| && forall j :: 0 <= j < |a| ==> a[j].key == b[j].key
    ensures BucketIndex(a, key) == BucketIndex(b, key)
  {
    var ka, kb := BucketIndex(a, key), BucketIndex(b, key);
    if ka >= 0 && kb >= 0 {
      assert !(ka < kb) && !(kb < ka);
    }
  }

  /** Appending a bucket of another key does not move the bucket of `key`. */
  lemma BucketIndexAppend<K>(data: seq<Bucket<K>>, b: Bucket<K>, key: K)
    requires b.key != key
    ensures BucketIndex(data + [b], key) == BucketIndex(data, key)
  {
    var k1, k2 := BucketIndex(data + [b], key), BucketIndex(data, key);
    if k1 >= 0 {
      assert k1 < |data| && (data + [b])[k1] == data[k1];
    }
    if k2 >= 0 {
      assert (data + [b])[k2] == data[k2];
    }
  }

  /** The generated count of the bucket of `key`, 0 when there is none. */
  function GeneratedFor<K(==)>(data: seq<Bucket<K>>, key: K): nat {
    var k := BucketIndex(data, key);
    if k == -1 then 0 else data[k].generated
  }

  /** The scanned count of the bucket of `key`, 0 when there is none. */
  function ScannedFor<K(==)>(data: seq<Bucket<K>>, key: K): nat {
    var k := BucketIndex(data, key);
    if k == -1 then 0 else data[k].scanned
  }

  /**
   * Counting a ticket of bucket `key` creates that bucket if it was missing, adds one to its
   * generated count and one to its scanned count when the ticket is scanned; every other
   * bucket keeps its place and its counts.
   */
  lemma CountTicketLookup<K>(data: seq<Bucket<K>>, t: Ticket, key: K, other: K)
    ensures BucketIndex(CountTicket(data, t, key), other) >= 0 <==> BucketIndex(data, other) >= 0 || other == key
    ensures GeneratedFor(CountTicket(data, t, key), other) == GeneratedFor(data, other) + if other == key then 1 else 0
    ensures ScannedFor(CountTicket(data, t, key), other)
      == ScannedFor(data, other) + if other == key && IsScanned(t) then 1 else 0
  {
    var k := BucketIndex(data, key);
    var d := if k == -1 then data + [Bucket(key, 0, 0)] else data;
    var i := if k == -1 then |data| else k;
    var r := CountTicket(data, t, key);
    BucketIndexSameKeys(r, d, other);
    if other == key {
      assert BucketIndex(d, key) == i;
    } else if k == -1 {
      BucketIndexAppend(data, Bucket(key, 0, 0), other);
    }
  }

  /** Counting a ticket keeps the bucket keys distinct. */
  lemma CountTicketKeepsDistinct<K>(data: seq<Bucket<K>>, t: Ticket, key: K)
    requires DistinctKeys(data)
    ensures DistinctKeys(CountTicket(data, t, key))
  {
    var k := BucketIndex(data, key);
    var d := if k == -1 then data + [Bucket(key, 0, 0)] else data;
    assert DistinctKeys(d);
  }

  /** How many tickets fall in the bucket `key`. */
  function CountKey<K(==)>(tickets: seq<Ticket>, bucketOf: Ticket -> K, key: K): nat
    decreases |tickets|
  {
    if tickets == [] then 0
    else
      var n := |tickets| - 1;
      CountKey(tickets[..n], bucketOf, key) + if bucketOf(tickets[n]) == key then 1 else 0
  }

  /** How many scanned tickets fall in the bucket `key`. */
  function CountScannedKey<K(==)>(tickets: seq<Ticket>, bucketOf: Ticket -> K, key: K): (c: nat)
    ensures c <= CountKey(tickets, bucketOf, key)
    decreases |tickets|
  {
    if tickets == [] then 0
    else
      var n := |tickets| - 1;
      var t := tickets[n];
      CountScannedKey(tickets[..n], bucketOf, key) + if bucketOf(t) == key && IsScanned(t) then 1 else 0
  }

  /**
   * The chart has a bucket for `key` exactly when some ticket falls in it; that bucket's
   * generated count is the number of its tickets and its scanned count the number of its
   * scanned tickets.
   */
  lemma {:induction false} TallyPerKey<K>(tickets: seq<Ticket>, bucketOf: Ticket -> K, key: K)
    ensures BucketIndex(Tally(tickets, bucketOf), key) >= 0 <==> CountKey(tickets, bucketOf, key) > 0
    ensures GeneratedFor(Tally(tickets, bucketOf), key) == CountKey(tickets, bucketOf, key)
    ensures ScannedFor(Tally(tickets, bucketOf), key) == CountScannedKey(tickets, bucketOf, key)
    decreases |tickets|
  {
    if tickets != [] {
      var n := |tickets| - 1;
      TallyPerKey(tickets[..n], bucketOf, key);
      CountTicketLookup(Tally(tickets[..n], bucketOf), tickets[n], bucketOf(tickets[n]), key);
    }
  }

  /** The chart's bucket keys are distinct. */
  lemma {:induction false} TallyDistinctKeys<K>(tickets: seq<Ticket>, bucketOf: Ticket -> K)
    ensures DistinctKeys(Tally(tickets, bucketOf))
    decreases |tickets|
  {
    if tickets != [] {
      var n := |tickets| - 1;
      TallyDistinctKeys(tickets[..n], bucketOf);
      CountTicketKeepsDistinct(Tally(tickets[..n], bucketOf), tickets[n], bucketOf(tickets[n]));
    }
  }

  /** Every chart entry counts exactly its bucket's tickets, so none has more scanned than generated. */
  lemma TallyEntries<K>(tickets: seq<Ticket>, bucketOf: Ticket -> K)
    ensures forall b :: b in Tally(tickets, bucketOf) ==>
      && b.generated == CountKey(tickets, bucketOf, b.key)
      && b.scanned == CountScannedKey(tickets, bucketOf, b.key)
      && b.scanned <= b.generated
  {
    var data := Tally(tickets, bucketOf);
    TallyDistinctKeys(tickets, bucketOf);
    forall b | b in data
      ensures b.generated == CountKey(tickets, bucketOf, b.key)
      ensures b.scanned == CountScannedKey(tickets, bucketOf, b.key)
    {
      var j :| 0 <= j < |data| && data[j] == b;
      assert BucketIndex(data, b.key) == j;
      TallyPerKey(tickets, bucketOf, b.key);
    }
  }

  /** The generated counts of the chart add up to the number of tickets. */
  lemma {:induction false} TallyTotalGenerated<K>(tickets: seq<Ticket>, bucketOf: Ticket -> K)
    ensures TotalGenerated(Tally(tickets, bucketOf)) == |tickets|
    decreases |tickets|
  {
    if tickets != [] {
      var n := |tickets| - 1;
      TallyTotalGenerated(tickets[..n], bucketOf);
      CountTicketTotals(Tally(tickets[..n], bucketOf), tickets[n], bucketOf(tickets[n]));
    }
  }

  /** The scanned counts of the chart add up to the number of scanned tickets. */
  lemma {:induction false} TallyTotalScanned<K>(tickets: seq<Ticket>, bucketOf: Ticket -> K)
    ensures TotalScanned(Tally(tickets, bucketOf)) == |ScannedTickets(tickets)|
    decreases |tickets|
  {
    if tickets != [] {
      var n := |tickets| - 1;
      var t := tickets[n];
      TallyTotalScanned(tickets[..n], bucketOf);
      CountTicketTotals(Tally(tickets[..n], bucketOf), t, bucketOf(t));
      assert |ScannedTickets(tickets)| == |ScannedTickets(tickets[..n])| + if IsScanned(t) then 1 else 0 by {
        assert tickets == tickets[..n] + [t];
        FilterAppend(tickets[..n], [t], IsScanned);
        assert [t][1..] == [];
      }
    }
  }
}
