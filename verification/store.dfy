/**
  `ThreadSafeDataStore`: the in-memory list of parsed messages, oldest first.
  The read/write lock only serialises calls, so the model is the sequential
  behaviour over a sequence; the pure functions below are what each method
  computes, and the class applies them to its one field.
 */
module Store {
  import opened SensorTypes

  /**
    `GetLatest(n)`: the newest `n` messages in arrival order, or all of them
    when there are fewer. Go's `make` panics on a negative length, so a
    negative `n` is only harmless on an empty store.
   */
  function Latest(s: seq<ParsedSensorData>, n: int): (r: seq<ParsedSensorData>)
    requires n >= 0 || |s| == 0
    ensures |s| == 0 ==> r == []
    ensures n >= 0 ==> |r| == (if n < |s| then n else |s|)
    ensures r == s[|s| - |r|..]
  {
    if |s| == 0 then []
    else if n >= |s| then s
    else s[|s| - n..]
  }

  /**
    `GetLatestOne`: the newest message and true, or the zero value and false
    on an empty store.
   */
  function LatestOne(s: seq<ParsedSensorData>): (r: (ParsedSensorData, bool))
    ensures r.1 <==> |s| > 0
    ensures r.1 ==> r.0 == s[|s| - 1]
    ensures !r.1 ==> r.0 == ZeroParsed
  {
    if |s| == 0 then (ZeroParsed, false) else (s[|s| - 1], true)
  }

  /**
    `TrimToSize(maxSize)`: keeps the newest `maxSize` messages, dropping the
    oldest. A negative size makes the Go slice expression panic.
   */
  function Trimmed(s: seq<ParsedSensorData>, maxSize: int): (r: seq<ParsedSensorData>)
    requires maxSize >= 0
    ensures |r| <= maxSize && |r| <= |s|
    ensures |r| == maxSize || r == s
    ensures r == s[|s| - |r|..]
  {
    if |s| > maxSize then s[|s| - maxSize..] else s
  }

  /** The newest message of a non-empty store is the last element of `GetLatest(1)`. */
  lemma LatestOneIsLatest(s: seq<ParsedSensorData>)
    requires |s| > 0
    ensures Latest(s, 1) == [LatestOne(s).0]
  {
    if |s| > 1 {
      assert Latest(s, 1) == s[|s| - 1..];
    }
    assert s[|s| - 1..] == [s[|s| - 1]];
  }

  /** Reading the newest `n` and trimming to `n` keep the same messages. */
  lemma LatestAgreesWithTrim(s: seq<ParsedSensorData>, n: nat)
    ensures Latest(s, n) == Trimmed(s, n)
  {
  }

  /** Trimming twice to the same size is trimming once. */
  lemma TrimIdempotent(s: seq<ParsedSensorData>, k: nat)
    ensures Trimmed(Trimmed(s, k), k) == Trimmed(s, k)
  {
  }

  /**
    Trimming before an append does not change the outcome of trimming after
    it: the append-then-trim step only ever looks at the newest `k` messages.
   */
  lemma TrimBeforeAppend(s: seq<ParsedSensorData>, x: ParsedSensorData, k: nat)
    ensures Trimmed(Trimmed(s, k) + [x], k) == Trimmed(s + [x], k)
  {
    var t := Trimmed(s, k);
    assert (t + [x])[|t + [x]| - |Trimmed(t + [x], k)|..] == Trimmed(t + [x], k);
    if |s| > k {
      assert t + [x] == (s + [x])[|s| - k..];
    }
  }

  /**
    One add-then-trim step: the store grows by one until it reaches `k`;
    the new message is the newest and the rest are the newest of the old ones.
   */
  lemma AppendThenTrim(s: seq<ParsedSensorData>, x: ParsedSensorData, k: nat)
    ensures |Trimmed(s + [x], k)| == (if |s| + 1 < k then |s| + 1 else k)
    ensures k > 0 ==> var r := Trimmed(s + [x], k);
      r[|r| - 1] == x && r[..|r| - 1] == s[|s| - (|r| - 1)..]
  {
    var r := Trimmed(s + [x], k);
    if k > 0 {
      assert r == (s + [x])[|s| + 1 - |r|..];
      assert r[..|r| - 1] == s[|s| - (|r| - 1)..];
    }
  }

  /** The store after adding each message of `xs` in turn, trimming after each add. */
  function AddAll(s: seq<ParsedSensorData>, xs: seq<ParsedSensorData>, k: nat): seq<ParsedSensorData>
    decreases |xs|
  {
    if |xs| == 0 then s else AddAll(Trimmed(s + [xs[0]], k), xs[1..], k)
  }

  /**
    Retention: a store trimmed after every add holds exactly the newest `k`
    messages ever added, the same as keeping them all and trimming once.
   */
  lemma {:induction false} AddAllRetainsNewest(s: seq<ParsedSensorData>, xs: seq<ParsedSensorData>, k: nat)
    ensures AddAll(Trimmed(s, k), xs, k) == Trimmed(s + xs, k)
    decreases |xs|
  {
    if |xs| == 0 {
      assert s + xs == s;
      TrimIdempotent(s, k);
    } else {
      var t, s' := Trimmed(s, k), s + [xs[0]];
      assert AddAll(t, xs, k) == AddAll(Trimmed(t + [xs[0]], k), xs[1..], k);
      TrimBeforeAppend(s, xs[0], k);
      AddAllRetainsNewest(s', xs[1..], k);
      assert s' + xs[1..] == s + xs;
    }
  }

  /**
    FIFO eviction: adding to a store that holds at most `k > 0` messages keeps
    all of them while there is room and otherwise drops exactly the oldest;
    the new message is always the newest.
   */
  lemma AddEvictsOldest(s: seq<ParsedSensorData>, x: ParsedSensorData, k: nat)
    requires 0 < k && |s| <= k
    ensures |s| < k ==> Trimmed(s + [x], k) == s + [x]
    ensures |s| == k ==> Trimmed(s + [x], k) == s[1..] + [x]
    ensures LatestOne(Trimmed(s + [x], k)) == (x, true)
  {
    if |s| == k {
      assert (s + [x])[1..] == s[1..] + [x];
    }
  }

  /** The store object; `data` is oldest first. */
  class ThreadSafeDataStore {
    var data: seq<ParsedSensorData>

    /** `NewThreadSafeDataStore`: an empty store. */
    constructor ()
      ensures data == []
    {
      data := [];
    }

    /** `Add`: appends at the newest end. */
    method Add(x: ParsedSensorData)
      modifies this
      ensures data == old(data) + [x]
    {
      data := data + [x];
    }

    /** `Get`: a copy of every message, oldest first. */
    method Get() returns (r: seq<ParsedSensorData>)
      ensures r == data
    {
      r := data;
    }

    /** `GetLatest`. */
    method GetLatest(n: int) returns (r: seq<ParsedSensorData>)
      requires n >= 0 || |data| == 0
      ensures |data| == 0 ==> r == []
      ensures n >= 0 ==> |r| == (if n < |data| then n else |data|)
      ensures r == data[|data| - |r|..]
    {
      if |data| == 0 {
        return [];
      }
      if n >= |data| {
        return data;
      }
      r := data[|data| - n..];
    }

    /** `GetLatestOne`. */
    method GetLatestOne() returns (latest: ParsedSensorData, ok: bool)
      ensures ok <==> |data| > 0
      ensures ok ==> latest == data[|data| - 1]
      ensures !ok ==> latest == ZeroParsed
    {
      if |data| == 0 {
        return ZeroParsed, false;
      }
      return data[|data| - 1], true;
    }

    /** `Len`. */
    method Len() returns (n: nat)
      ensures n == |data|
    {
      n := |data|;
    }

    /** `IsEmpty`. */
    method IsEmpty() returns (b: bool)
      ensures b <==> |data| == 0
    {
      b := |data| == 0;
    }

    /** `TrimToSize`. */
    method TrimToSize(maxSize: int)
      requires maxSize >= 0
      modifies this
      ensures data == Trimmed(old(data), maxSize)
    {
      if |data| > maxSize {
        data := data[|data| - maxSize..];
      }
    }

    /** `GetAllForRead`: the stored sequence itself; callers only read it. */
    method GetAllForRead() returns (r: seq<ParsedSensorData>)
      ensures r == data
    {
      r := data;
    }
  }
}
