/** The bounds guard of `loggingTun.Read` over 64-bit machine integers (device/device.go). */
module LoggingTun {
  import opened Sequences
  import opened Transport

  const TWO_TO_THE_63: int := 0x8000_0000_0000_0000
  const TWO_TO_THE_64: int := 0x1_0000_0000_0000_0000

  newtype int64 = x: int | -0x8000_0000_0000_0000 <= x < 0x8000_0000_0000_0000

  /** Machine addition: the sum wraps around. */
  function Add64(a: int64, b: int64): (sum: int64)
    ensures (sum as int - (a as int + b as int)) % TWO_TO_THE_64 == 0
  {
    var exact := a as int + b as int;
    if exact >= TWO_TO_THE_63 then (exact - TWO_TO_THE_64) as int64
    else if exact < -TWO_TO_THE_63 then (exact + TWO_TO_THE_64) as int64
    else exact as int64
  }

  /** The condition under which the owner of packet data is looked up. */
  predicate Guard(offset: int64, size: int64, length: int64) {
    var end := Add64(offset, size);
    !(offset < 0 || end < offset || end > length)
  }

  /** The guard lets a packet through exactly when its true bounds lie inside the buffer, wrapping
      included. */
  lemma GuardIsExact(offset: int64, size: int64, length: int64)
    requires length >= 0
    ensures Guard(offset, size, length) <==>
            offset >= 0 && size >= 0 && offset as int + size as int <= length as int
  {
  }

  /** The packets logged, each with its number and data. */
  datatype Logged = Logged(number: nat, data: seq<byte>)

  /** Packet `i` of the result can be shown. */
  predicate Shown(bufs: seq<array<byte>>, sizes: array<int64>, offset: int64, i: int)
    requires 0 <= i < |bufs| && i < sizes.Length
    reads sizes
  {
    offset >= 0 && sizes[i] >= 0 && offset as int + sizes[i] as int <= bufs[i].Length
  }

  /** What is logged for the first `i` packets. */
  function LoggedBefore(bufs: seq<array<byte>>, sizes: array<int64>, offset: int64, i: nat): seq<Logged>
    requires i <= |bufs| && i <= sizes.Length
    reads sizes, bufs
  {
    if i == 0 then []
    else
      LoggedBefore(bufs, sizes, offset, i - 1) +
      if Shown(bufs, sizes, offset, i - 1)
      then [Logged(i - 1, bufs[i - 1][offset as int..offset as int + sizes[i - 1] as int])]
      else []
  }

  /** A logged entry names one of the first `i` packets that can be shown, and has its data. */
  predicate Genuine(bufs: seq<array<byte>>, sizes: array<int64>, offset: int64, i: nat, entry: Logged)
    requires i <= |bufs| && i <= sizes.Length
    reads sizes, bufs
  {
    entry.number < i && Shown(bufs, sizes, offset, entry.number) &&
    entry.data == bufs[entry.number][offset as int..offset as int + sizes[entry.number] as int]
  }

  predicate Numbered(logged: seq<Logged>, m: nat) { exists k :: 0 <= k < |logged| && logged[k].number == m }

  lemma {:induction false} LoggedGenuine(bufs: seq<array<byte>>, sizes: array<int64>, offset: int64, i: nat, k: nat)
    requires i <= |bufs| && i <= sizes.Length && k < |LoggedBefore(bufs, sizes, offset, i)|
    ensures Genuine(bufs, sizes, offset, i, LoggedBefore(bufs, sizes, offset, i)[k])
  {
    var before := LoggedBefore(bufs, sizes, offset, i - 1);
    if k < |before| {
      LoggedGenuine(bufs, sizes, offset, i - 1, k);
      assert LoggedBefore(bufs, sizes, offset, i)[k] == before[k];
    }
  }

  lemma {:induction false} LoggedInOrder(bufs: seq<array<byte>>, sizes: array<int64>, offset: int64, i: nat, k: nat, j: nat)
    requires i <= |bufs| && i <= sizes.Length && k < j < |LoggedBefore(bufs, sizes, offset, i)|
    ensures var logged := LoggedBefore(bufs, sizes, offset, i); logged[k].number < logged[j].number
  {
    var before, logged := LoggedBefore(bufs, sizes, offset, i - 1), LoggedBefore(bufs, sizes, offset, i);
    assert k < |before| && logged[k] == before[k];
    if j < |before| {
      LoggedInOrder(bufs, sizes, offset, i - 1, k, j);
      assert logged[j] == before[j];
    } else {
      LoggedGenuine(bufs, sizes, offset, i - 1, k);
    }
  }

  lemma {:induction false} LoggedAll(bufs: seq<array<byte>>, sizes: array<int64>, offset: int64, i: nat, m: nat)
    requires m < i <= |bufs| && i <= sizes.Length && Shown(bufs, sizes, offset, m)
    ensures Numbered(LoggedBefore(bufs, sizes, offset, i), m)
  {
    var before, logged := LoggedBefore(bufs, sizes, offset, i - 1), LoggedBefore(bufs, sizes, offset, i);
    if m < i - 1 {
      LoggedAll(bufs, sizes, offset, i - 1, m);
      var k :| 0 <= k < |before| && before[k].number == m;
      assert logged[k] == before[k];
    } else {
      assert logged[|before|].number == m;
    }
  }

  /** How many of the device's packets have a buffer and a size. */
  function Inspected(deviceN: int, buffers: nat, sizes: nat): nat {
    if deviceN <= 0 then 0 else Min(deviceN, Min(buffers, sizes))
  }

  /** The packets logged are those with a buffer, a size and bounds inside the buffer. */
  lemma InspectedAll(deviceN: int, bufs: seq<array<byte>>, sizes: array<int64>, offset: int64, m: nat, data: seq<byte>)
    ensures var logged := LoggedBefore(bufs, sizes, offset, Inspected(deviceN, |bufs|, sizes.Length));
            Logged(m, data) in logged <==>
            m < deviceN && m < |bufs| && m < sizes.Length &&
            offset >= 0 && sizes[m] >= 0 && offset as int + sizes[m] as int <= bufs[m].Length &&
            data == bufs[m][offset as int..offset as int + sizes[m] as int]
  {
    var i := Inspected(deviceN, |bufs|, sizes.Length);
    var logged := LoggedBefore(bufs, sizes, offset, i);
    if Logged(m, data) in logged {
      var k :| 0 <= k < |logged| && logged[k] == Logged(m, data);
      LoggedGenuine(bufs, sizes, offset, i, k);
    }
    if m < i && Shown(bufs, sizes, offset, m) {
      LoggedAll(bufs, sizes, offset, i, m);
      var k :| 0 <= k < |logged| && logged[k].number == m;
      LoggedGenuine(bufs, sizes, offset, i, k);
    }
  }

  lemma InspectedExactly(deviceN: int, bufs: seq<array<byte>>, sizes: array<int64>, offset: int64)
    ensures var logged := LoggedBefore(bufs, sizes, offset, Inspected(deviceN, |bufs|, sizes.Length));
            && (forall m: nat, data ::
                  Logged(m, data) in logged <==>
                  m < deviceN && m < |bufs| && m < sizes.Length &&
                  offset >= 0 && sizes[m] >= 0 && offset as int + sizes[m] as int <= bufs[m].Length &&
                  data == bufs[m][offset as int..offset as int + sizes[m] as int])
            && (forall k, j :: 0 <= k < j < |logged| ==> logged[k].number < logged[j].number)
  {
    var i := Inspected(deviceN, |bufs|, sizes.Length);
    var logged := LoggedBefore(bufs, sizes, offset, i);
    forall m: nat, data
      ensures Logged(m, data) in logged <==>
              m < deviceN && m < |bufs| && m < sizes.Length &&
              offset >= 0 && sizes[m] >= 0 && offset as int + sizes[m] as int <= bufs[m].Length &&
              data == bufs[m][offset as int..offset as int + sizes[m] as int]
    {
      InspectedAll(deviceN, bufs, sizes, offset, m, data);
    }
    forall k, j | 0 <= k < j < |logged| ensures logged[k].number < logged[j].number {
      LoggedInOrder(bufs, sizes, offset, i, k, j);
    }
  }

  /** `Read`, given what the wrapped device's `Read` returned. */
  method Read(deviceN: int, deviceErr: Option<IoError>, bufs: seq<array<byte>>, sizes: array<int64>, offset: int64)
    returns (n: int, err: Option<IoError>, logged: seq<Logged>)
    requires forall b <- bufs :: b.Length < TWO_TO_THE_63
    ensures n == deviceN && err == deviceErr
    ensures deviceErr.Some? ==> logged == []
    ensures deviceErr == None ==> forall m: nat, data ::
              Logged(m, data) in logged <==>
              m < deviceN && m < |bufs| && m < sizes.Length &&
              offset >= 0 && sizes[m] >= 0 && offset as int + sizes[m] as int <= bufs[m].Length &&
              data == bufs[m][offset as int..offset as int + sizes[m] as int]
    ensures forall k, j :: 0 <= k < j < |logged| ==> logged[k].number < logged[j].number
  {
    n, err, logged := deviceN, deviceErr, [];
    if err.Some? {
      return;
    }
    logged := LogPackets(n, bufs, sizes, offset);
    InspectedExactly(n, bufs, sizes, offset);
  }

  /** The loop of `Read` over the packets that the device returned. */
  method LogPackets(n: int, bufs: seq<array<byte>>, sizes: array<int64>, offset: int64) returns (logged: seq<Logged>)
    requires forall b <- bufs :: b.Length < TWO_TO_THE_63
    ensures logged == LoggedBefore(bufs, sizes, offset, Inspected(n, |bufs|, sizes.Length))
  {
    logged := [];
    var i := 0;
    while i < n
      invariant 0 <= i <= Inspected(n, |bufs|, sizes.Length)
      invariant logged == LoggedBefore(bufs, sizes, offset, i)
    {
      if i >= |bufs| || i >= sizes.Length {
        break;
      }
      var end := Add64(offset, sizes[i]);
      GuardIsExact(offset, sizes[i], bufs[i].Length as int64);
      if offset < 0 || end < offset || end > bufs[i].Length as int64 {
        i := i + 1;
        continue;
      }
      logged := logged + [Logged(i, bufs[i][offset as int..end as int])];
      i := i + 1;
    }
  }
}
