/**
 The scheduler's code on one thread: RegisterCallback and SendTimerCallback of the C++ worker
 and one tick of processTimerEvent, against the string-keyed bucket.
 */
module TimerWorker {
  import opened Sequences
  import opened Text
  import opened Calendar
  import opened MetadataBucket
  import opened TimerStore

  /** Timer values above this are absolute; the code says 25920000 where its comment says 30 days. */
  const ABSOLUTE_ABOVE := 25920000

  /** ConvertToISO8601: the second a timer value stands for. */
  function Expiry(timerValue: int, now: nat): int {
    if timerValue > ABSOLUTE_ABOVE then timerValue else now + timerValue
  }

  /** What a callback does to the bucket when it runs. */
  type Effects = (Entry, Bucket) -> Bucket

  /** The callbacks that have run, and the bucket they leave. */
  datatype Fired = Fired(calls: seq<Entry>, bucket: Bucket)

  predicate Readable(b: Bucket, id: string) {
    id in b && b[id].Blob?
  }

  /** What SendTimerCallback runs: the callbacks of the tokens up to the first that has no
      readable blob, where it returns. */
  function FireAll(run: Effects, b: Bucket, tokens: seq<string>): Fired
    decreases |tokens|
  {
    if tokens == [] || !Readable(b, tokens[0]) then Fired([], b)
    else
      var entry := Entry(b[tokens[0]].docId, b[tokens[0]].callback);
      var rest := FireAll(run, run(entry, b), tokens[1..]);
      Fired([entry] + rest.calls, rest.bucket)
  }

  /** The entry has its blob. */
  predicate HasBlob(b: Bucket, entry: Entry) {
    Readable(b, entry.id) && b[entry.id].docId == entry.id && b[entry.id].callback == entry.callback
  }

  predicate AllBlobs(b: Bucket, es: seq<Entry>) {
    forall i :: 0 <= i < |es| ==> HasBlob(b, es[i])
  }

  /** The bucket after all the callbacks, one after the other. */
  function AfterAll(run: Effects, b: Bucket, es: seq<Entry>): Bucket
    decreases |es|
  {
    if es == [] then b else AfterAll(run, run(es[0], b), es[1..])
  }

  /** Every entry has its blob when its turn comes, whatever the callbacks before it did. */
  predicate BlobsInTurn(run: Effects, b: Bucket, es: seq<Entry>) {
    forall i :: 0 <= i < |es| ==> HasBlob(AfterAll(run, b, es[..i]), es[i])
  }

  lemma InTurnStep(run: Effects, b: Bucket, es: seq<Entry>)
    requires es != []
    ensures BlobsInTurn(run, b, es) <==> HasBlob(b, es[0]) && BlobsInTurn(run, run(es[0], b), es[1..])
  {
    var b', rest := run(es[0], b), es[1..];
    assert es[..0] == [] && AfterAll(run, b, es[..0]) == b;
    forall i | 0 <= i < |rest|
      ensures HasBlob(AfterAll(run, b', rest[..i]), rest[i]) <==> HasBlob(AfterAll(run, b, es[..i + 1]), es[i + 1])
    {
      assert es[..i + 1][1..] == rest[..i] && es[..i + 1][0] == es[0];
    }
    if HasBlob(b, es[0]) && BlobsInTurn(run, b', rest) {
      forall i | 0 <= i < |es| ensures HasBlob(AfterAll(run, b, es[..i]), es[i]) {
        if i > 0 {
          assert HasBlob(AfterAll(run, b', rest[..i - 1]), rest[i - 1]);
        }
      }
    }
    if BlobsInTurn(run, b, es) {
      assert HasBlob(AfterAll(run, b, es[..0]), es[0]);
      forall i | 0 <= i < |rest| ensures HasBlob(AfterAll(run, b', rest[..i]), rest[i]) {
        assert HasBlob(AfterAll(run, b, es[..i + 1]), es[i + 1]);
      }
    }
  }

  /** Every listed callback runs, in list order, if and only if every one has its readable blob when
      its turn comes, whatever the callbacks do to the bucket. */
  lemma {:induction false} FiresExactly(run: Effects, b: Bucket, es: seq<Entry>)
    ensures FireAll(run, b, Ids(es)).calls == es <==> BlobsInTurn(run, b, es)
    ensures BlobsInTurn(run, b, es) ==> FireAll(run, b, Ids(es)).bucket == AfterAll(run, b, es)
    decreases |es|
  {
    if es != [] {
      var rest := es[1..];
      assert Ids(es)[1..] == Ids(rest);
      InTurnStep(run, b, es);
      if Readable(b, es[0].id) {
        var entry := Entry(b[es[0].id].docId, b[es[0].id].callback);
        FiresExactly(run, run(entry, b), rest);
        FirstOf(entry, FireAll(run, run(entry, b), Ids(rest)).calls, es);
      }
    }
  }

  lemma FirstOf(entry: Entry, calls: seq<Entry>, es: seq<Entry>)
    requires es != []
    ensures [entry] + calls == es <==> entry == es[0] && calls == es[1..]
  {
    assert es == [es[0]] + es[1..];
    assert ([entry] + calls)[1..] == calls;
  }

  /** A missing or unreadable blob cuts off every callback behind it, although the purge deletes
      their blobs all the same. */
  lemma {:induction false} MissingBlobAborts(run: Effects, b: Bucket, before: seq<Entry>, missing: string, after: seq<string>)
    requires BlobsInTurn(run, b, before) && !Readable(AfterAll(run, b, before), missing)
    ensures FireAll(run, b, Ids(before) + [missing] + after) == Fired(before, AfterAll(run, b, before))
    decreases |before|
  {
    var tokens := Ids(before) + [missing] + after;
    if before == [] {
      assert tokens[0] == missing;
    } else {
      InTurnStep(run, b, before);
      MissingBlobAborts(run, run(before[0], b), before[1..], missing, after);
      TokensTail(before, [missing] + after);
      Assoc(Ids(before), [missing], after);
      Assoc(Ids(before[1..]), [missing], after);
      assert before == [before[0]] + before[1..];
    }
  }

  lemma TokensTail(es: seq<Entry>, more: seq<string>)
    requires es != []
    ensures (Ids(es) + more)[0] == es[0].id && (Ids(es) + more)[1..] == Ids(es[1..]) + more
  {
  }

  /** The callbacks leave this key alone. */
  ghost predicate Spares(run: Effects, k: string) {
    forall entry, b :: (k in run(entry, b) <==> k in b) && (k in b ==> run(entry, b)[k] == b[k])
  }

  lemma {:induction false} SparedStays(run: Effects, b: Bucket, es: seq<Entry>, k: string)
    requires Spares(run, k)
    ensures k in AfterAll(run, b, es) <==> k in b
    ensures k in b ==> AfterAll(run, b, es)[k] == b[k]
    decreases |es|
  {
    if es != [] {
      SparedStays(run, run(es[0], b), es[1..], k);
    }
  }

  /** For callbacks that leave the listed blobs alone, the blobs at the start decide. */
  lemma InTurnFromStart(run: Effects, b: Bucket, es: seq<Entry>)
    requires forall i :: 0 <= i < |es| ==> Spares(run, es[i].id)
    ensures BlobsInTurn(run, b, es) <==> AllBlobs(b, es)
  {
    forall i | 0 <= i < |es| ensures HasBlob(AfterAll(run, b, es[..i]), es[i]) <==> HasBlob(b, es[i]) {
      SparedStays(run, b, es[..i], es[i].id);
    }
  }

  /** Two callbacks for one document in one second: the second blob replaces the first, the id is
      listed twice, and the second callback runs twice. */
  lemma SecondCallbackRunsTwice(run: Effects, b: Bucket, id: string, first: string, second: string, e: int)
    requires Spares(run, id)
    ensures var stored := Put(Put(b, id, Blob(first, id, e)), id, Blob(second, id, e));
            FireAll(run, stored, [id, id]).calls == [Entry(id, second), Entry(id, second)]
  {
    var stored := Put(Put(b, id, Blob(first, id, e)), id, Blob(second, id, e));
    var es := [Entry(id, second), Entry(id, second)];
    InTurnFromStart(run, stored, es);
    FiresExactly(run, stored, es);
    assert Ids(es) == [id, id];
  }

  /** Every key of a list deleted. */
  function Purged(b: Bucket, keys: seq<string>): Bucket {
    b - set k | k in keys
  }

  lemma PurgedTwice(b: Bucket, k: string, keys: seq<string>)
    ensures Purged(Delete(b, k), keys) == Purged(b, [k] + keys)
  {
  }

  lemma ListedTokens(es: seq<Entry>)
    requires forall i :: 0 <= i < |es| ==> SEPARATOR !in es[i].id
    ensures var value := Terminated(Ids(es), SEPARATOR);
            GetlineTokens(value, SEPARATOR) == Ids(es) && GoSplit(value, SEPARATOR) == Ids(es) + [""]
  {
    forall id | id in Ids(es) ensures SEPARATOR !in id {
      var i :| 0 <= i < |es| && Ids(es)[i] == id;
    }
    MarkerRoundTrip(Ids(es), SEPARATOR);
  }

  lemma OneIdSplits(id: string)
    requires SEPARATOR !in id
    ensures GetlineTokens(id + [SEPARATOR], SEPARATOR) == [id] && GoSplit(id + [SEPARATOR], SEPARATOR) == [id, ""]
  {
    MarkerRoundTrip([id], SEPARATOR);
    assert Terminated([id][..0], SEPARATOR) == "" && "" + id + [SEPARATOR] == id + [SEPARATOR];
    assert Terminated([id], SEPARATOR) == id + [SEPARATOR];
    assert [id] + [""] == [id, ""];
  }

  lemma OneFires(run: Effects, b: Bucket, id: string, callback: string)
    requires HasBlob(b, Entry(id, callback))
    ensures FireAll(run, b, [id]) == Fired([Entry(id, callback)], run(Entry(id, callback), b))
  {
    assert [id][1..] == [];
    assert FireAll(run, run(Entry(id, callback), b), []) == Fired([], run(Entry(id, callback), b));
  }

  /** The key that a registration writes is the one that the tick reads. */
  predicate Meet(v: int, now: nat, tick: nat, key: string)
    requires -0x8000_0000 <= v < 0x8000_0000 && 2 <= tick
  {
    key == StampKey(Expiry(v, now)) && key == TickKey(tick)
  }

  lemma KeysMeet(v: int, now: nat, tick: nat)
    requires -0x8000_0000 <= v < 0x8000_0000 && 2 <= tick && tick - 2 == if v > 25920000 then v else now + v
    ensures Meet(v, now, tick, TickKey(tick))
  {
    StampIsTick(Expiry(v, now), tick);
  }

  /** A tick of a marker with one id on it. */
  lemma OneTimerTick(run: Effects, b: Bucket, key: string, id: string, callback: string)
    requires SEPARATOR !in id && key in b && b[key] == Value.Text(id + [SEPARATOR]) && HasBlob(b, Entry(id, callback))
    ensures var value := ReadText(b, key);
            var fired := FireAll(run, b, GetlineTokens(value, SEPARATOR));
            var after := Purged(Delete(fired.bucket, key), GoSplit(value, SEPARATOR));
            fired.calls == [Entry(id, callback)] && id !in after && key !in after
  {
    OneIdSplits(id);
    OneFires(run, b, id, callback);
    assert id in [id, ""];
  }

  class Worker {
    var bucket: Bucket
    var calls: seq<Entry>   // callbacks run, in order
    const run: Effects

    constructor (bucket: Bucket, run: Effects)
      ensures this.bucket == bucket && calls == [] && this.run == run
    {
      this.bucket, calls, this.run := bucket, [], run;
    }

    /** The bucket operations of RegisterCallback: blob, check, add, append. */
    method Register(key: string, entry: Entry, e: int)
      modifies `bucket
      ensures var blob := Put(old(bucket), entry.id, Blob(entry.callback, entry.id, e));
              && (key in blob ==> bucket == Append(blob, key, entry.id + [SEPARATOR]))
              && (key !in blob ==> bucket == Put(blob, key, Value.Text(entry.id + [SEPARATOR])))
    {
      bucket := Put(bucket, entry.id, Blob(entry.callback, entry.id, e));
      if key !in bucket {
        bucket := Add(bucket, key, Value.Text(""));
        assert "" + (entry.id + [SEPARATOR]) == entry.id + [SEPARATOR];
      }
      bucket := Append(bucket, key, entry.id + [SEPARATOR]);
    }

    /** worker.cc RegisterCallback, from the 32-bit number that atoi read. */
    method RegisterCallback(callback: string, docId: string, timerValue: int, now: nat)
      requires -0x8000_0000 <= timerValue < 0x8000_0000
      modifies `bucket
      ensures timerValue == 0 ==> bucket == old(bucket)
      ensures timerValue != 0 ==>
                var e := Expiry(timerValue, now);
                var blob := Put(old(bucket), docId, Blob(callback, docId, e));
                && (StampKey(e) in blob ==> bucket == Append(blob, StampKey(e), docId + [SEPARATOR]))
                && (StampKey(e) !in blob ==> bucket == Put(blob, StampKey(e), Value.Text(docId + [SEPARATOR])))
    {
      if timerValue == 0 {
        return;
      }
      var e := Expiry(timerValue, now);
      Register(StampKey(e), Entry(docId, callback), e);
    }

    /** A timer from its registration to its tick, across the two sides: a callback registered for v
        seconds from now, v up to 25920000, runs in the tick two seconds after that; its marker and
        its blob are gone then. */
    method RelativeTimer(callback: string, docId: string, v: int, now: nat, tick: nat, ghost key: string)
      requires -0x8000_0000 <= v <= 25920000 && v != 0 && 2 <= tick && tick == now + v + 2
      requires SEPARATOR !in docId && key == TickKey(tick) && key !in bucket && key != docId
      modifies this
      ensures calls == old(calls) + [Entry(docId, callback)] && docId !in bucket && key !in bucket
    {
      KeysMeet(v, now, tick);
      RegisterThenTick(callback, docId, v, now, tick, key);
    }

    /** And one registered for a time v beyond 25920000 runs in the tick at v + 2, whatever the time
        of its registration. */
    method AbsoluteTimer(callback: string, docId: string, v: int, now: nat, tick: nat, ghost key: string)
      requires 25920000 < v < 0x8000_0000 && tick == v + 2
      requires SEPARATOR !in docId && key == TickKey(tick) && key !in bucket && key != docId
      modifies this
      ensures calls == old(calls) + [Entry(docId, callback)] && docId !in bucket && key !in bucket
    {
      KeysMeet(v, now, tick);
      RegisterThenTick(callback, docId, v, now, tick, key);
    }

    /** A document that is named like the second it is armed for spoils its own blob: its callback
        does not run. */
    method SelfNamedTimer(callback: string, docId: string, v: int, now: nat, tick: nat)
      requires -0x8000_0000 <= v <= 25920000 && v != 0 && 2 <= tick && tick == now + v + 2
      requires docId == TickKey(tick)
      modifies this
      ensures calls == old(calls)
    {
      KeysMeet(v, now, tick);
      RegisterSelf(callback, docId, v, now);
      TickNothing(tick, docId);
    }

    method RegisterSelf(callback: string, docId: string, v: int, now: nat)
      requires v != 0 && -0x8000_0000 <= v < 0x8000_0000 && docId == StampKey(Expiry(v, now))
      modifies `bucket
      ensures docId in bucket && !bucket[docId].Text? && !Readable(bucket, docId)
    {
      RegisterCallback(callback, docId, v, now);
    }

    method TickNothing(now: nat, ghost key: string)
      requires now >= 2 && key == TickKey(now) && (key in bucket ==> !bucket[key].Text?)
      modifies this
      ensures calls == old(calls)
    {
      assert ReadText(bucket, key) == "";
      ProcessTimerEvent(now);
    }

    method RegisterThenTick(callback: string, docId: string, v: int, now: nat, tick: nat, ghost key: string)
      requires v != 0 && -0x8000_0000 <= v < 0x8000_0000 && SEPARATOR !in docId && 2 <= tick
      requires Meet(v, now, tick, key) && key !in bucket && key != docId
      modifies this
      ensures calls == old(calls) + [Entry(docId, callback)] && docId !in bucket && key !in bucket
    {
      RegisterAt(callback, docId, v, now, key);
      TickAt(tick, key, docId, callback);
    }

    method RegisterAt(callback: string, docId: string, v: int, now: nat, ghost key: string)
      requires v != 0 && -0x8000_0000 <= v < 0x8000_0000
      requires key == StampKey(Expiry(v, now)) && key !in bucket && key != docId
      modifies `bucket
      ensures key in bucket && bucket[key] == Value.Text(docId + [SEPARATOR]) && HasBlob(bucket, Entry(docId, callback))
    {
      RegisterCallback(callback, docId, v, now);
    }

    method TickAt(now: nat, ghost key: string, ghost docId: string, ghost callback: string)
      requires now >= 2 && key == TickKey(now) && SEPARATOR !in docId
      requires key in bucket && bucket[key] == Value.Text(docId + [SEPARATOR]) && HasBlob(bucket, Entry(docId, callback))
      modifies this
      ensures calls == old(calls) + [Entry(docId, callback)] && docId !in bucket && key !in bucket
    {
      OneTimerTick(run, bucket, key, docId, callback);
      ProcessTimerEvent(now);
    }

    /** worker.cc SendTimerCallback; each callback runs before the next blob is read. */
    method SendTimerCallback(k: string)
      modifies `calls, `bucket
      ensures var fired := FireAll(run, old(bucket), GetlineTokens(k, SEPARATOR));
              calls == old(calls) + fired.calls && bucket == fired.bucket
    {
      var keys := Split(k, SEPARATOR);
      var i := 0;
      assert keys[0..] == keys;
      while i < |keys|
        invariant 0 <= i <= |keys|
        invariant calls + FireAll(run, bucket, keys[i..]).calls == old(calls) + FireAll(run, old(bucket), keys).calls
        invariant FireAll(run, bucket, keys[i..]).bucket == FireAll(run, old(bucket), keys).bucket
      {
        assert keys[i..][1..] == keys[i + 1..];
        if keys[i] !in bucket || !bucket[keys[i]].Blob? {
          return;
        }
        var entry := Entry(bucket[keys[i]].docId, bucket[keys[i]].callback);
        Assoc(calls, [entry], FireAll(run, run(entry, bucket), keys[i + 1..]).calls);
        calls := calls + [entry];
        bucket := run(entry, bucket);
        i := i + 1;
      }
    }

    /** One tick of processTimerEvent, for the marker key of two seconds ago: read the marker,
        run its callbacks, delete the marker, then every key the Go split yields. */
    method ProcessTick(key: string)
      modifies this
      ensures var value := ReadText(old(bucket), key);
              var fired := FireAll(run, old(bucket), GetlineTokens(value, SEPARATOR));
              calls == old(calls) + fired.calls && bucket == Purged(Delete(fired.bucket, key), GoSplit(value, SEPARATOR))
    {
      var value := ReadText(bucket, key);
      SendTimerCallback(value);
      bucket := Delete(bucket, key);
      Purge(GoSplit(value, SEPARATOR));
    }

    method Purge(keys: seq<string>)
      modifies `bucket
      ensures bucket == Purged(old(bucket), keys)
    {
      for i := 0 to |keys|
        invariant bucket == Purged(old(bucket), keys[..i])
      {
        bucket := Delete(bucket, keys[i]);
        assert keys[..i + 1] == keys[..i] + [keys[i]];
      }
      assert keys[..|keys|] == keys;
    }

    /** A tick runs exactly the entries its marker lists, in order, and leaves neither the
        marker nor a blob behind; what the callbacks stored under other keys stays. */
    method ProcessListed(key: string, es: seq<Entry>)
      requires forall i :: 0 <= i < |es| ==> SEPARATOR !in es[i].id
      requires BlobsInTurn(run, bucket, es)
      requires key in bucket && bucket[key] == Value.Text(Terminated(Ids(es), SEPARATOR))
      modifies this
      ensures calls == old(calls) + es
      ensures bucket == Purged(AfterAll(run, old(bucket), es), [key] + (Ids(es) + [""]))
    {
      ListedTokens(es);
      FiresExactly(run, bucket, es);
      ghost var after := AfterAll(run, bucket, es);
      ProcessTick(key);
      PurgedTwice(after, key, Ids(es) + [""]);
    }

    /** The ticker case of processTimerEvent at the current time. */
    method ProcessTimerEvent(now: nat)
      requires now >= 2
      modifies this
      ensures var value := ReadText(old(bucket), TickKey(now));
              var fired := FireAll(run, old(bucket), GetlineTokens(value, SEPARATOR));
              && calls == old(calls) + fired.calls
              && bucket == Purged(Delete(fired.bucket, TickKey(now)), GoSplit(value, SEPARATOR))
    {
      ProcessTick(TickKey(now));
    }
  }

  /** The purge deletes exactly the keys offered to the callbacks, and at most the empty key
      besides. */
  lemma PurgeMatchesCallbacks(value: string)
    ensures (set k | k in GoSplit(value, SEPARATOR)) + {""} == (set k | k in GetlineTokens(value, SEPARATOR)) + {""}
    ensures forall k :: k in GetlineTokens(value, SEPARATOR) ==> k in GoSplit(value, SEPARATOR)
  {
    SplitterRelation(value, SEPARATOR);
  }
}
