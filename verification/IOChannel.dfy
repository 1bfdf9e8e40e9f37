/** The chunked read of glib.IOChannel (py_io_channel_read_chars in glib/pygiochannel.c). */
module IOChannel {
  import opened Wrappers

  datatype Status = Normal | Eof | Again | Failed

  /** What the channel does at one call: how much it hands over at most, and what it reports. */
  datatype Turn = Turn(status: Status, count: nat, error: bool)

  datatype ReadError = ChannelError | MemoryError

  const CHUNK_SIZE := 8192
  const GSIZE_RANGE := 0x1_0000_0000_0000_0000

  /** A stream of bytes behind calls that may deliver any part of what they are asked for. */
  class Channel {
    var stream: seq<bv8>
    var turns: nat
    const behave: nat -> Turn

    constructor (stream: seq<bv8>, behave: nat -> Turn)
      ensures this.stream == stream && turns == 0 && this.behave == behave
    {
      this.stream, turns, this.behave := stream, 0, behave;
    }

    /** At its k-th call the channel does not report NORMAL for no byte at all. */
    predicate Acts(k: nat) {
      !behave(k).status.Normal? || behave(k).count > 0
    }

    ghost predicate ActsAfter(k: nat) {
      exists j: nat :: k <= j && Acts(j)
    }

    /** It does not go on reporting NORMAL for no byte for ever. */
    ghost predicate Lively() {
      forall k: nat :: ActsAfter(k)
    }

    ghost function NextAct(k: nat): (j: nat)
      requires Lively()
      ensures k <= j && Acts(j)
    {
      assert ActsAfter(k);
      var j: nat :| k <= j && Acts(j);
      j
    }

    /** g_io_channel_read_chars into buf[at..at + size], which has to lie inside the buffer. */
    method ReadChars(buf: array<bv8>, at: nat, size: nat) returns (status: Status, single: nat, error: bool)
      requires at + size <= buf.Length && size > 0
      modifies this, buf
      ensures single <= size && single <= |old(stream)|
      ensures stream == old(stream[single..]) && turns == old(turns) + 1
      ensures buf[at..at + single] == old(stream[..single])
      ensures buf[..at] == old(buf[..at]) && buf[at + single..] == old(buf[at + single..])
      ensures status.Normal? ==> behave(old(turns)).status.Normal? && old(stream) != []
      ensures !status.Normal? ==> stream == [] || !behave(old(turns)).status.Normal?
      ensures error == behave(old(turns)).error
      ensures status.Normal? && Acts(old(turns)) ==> single > 0
    {
      var turn := behave(turns);
      single := if turn.count < size then turn.count else size;
      single := if single < |stream| then single else |stream|;
      status := if turn.status.Normal? && stream == [] then Eof else turn.status;
      error := turn.error;
      ghost var was := buf[..];
      for i := 0 to single
        modifies buf
        invariant buf[at..at + i] == stream[..i]
        invariant buf[..at] == was[..at] && buf[at + i..] == was[at + i..]
      {
        buf[at + i] := stream[i];
        assert buf[at..at + i + 1] == buf[at..at + i] + [stream[i]];
        assert stream[..i + 1] == stream[..i] + [stream[i]];
        assert buf[at + i + 1..] == was[at + i + 1..];
      }
      stream := stream[single..];
      turns := turns + 1;
    }
  }

  /** What max_count is compared with as a gsize: -1 stands for no limit, and any other negative number
      for one that is about as large as a gsize can be. */
  function Limit(maxCount: int): (limit: Option<nat>)
    requires -0x8000_0000 <= maxCount <= 0x7fff_ffff
  {
    if maxCount == -1 then None else if maxCount < 0 then Some(GSIZE_RANGE + maxCount) else Some(maxCount)
  }

  predicate Within(total: nat, limit: Option<nat>) {
    limit.Some? ==> total < limit.value
  }

  function BufSize(total: nat, limit: Option<nat>): (n: nat)
    requires Within(total, limit)
    ensures 0 < n <= CHUNK_SIZE
    ensures limit.Some? ==> total + n <= limit.value
    ensures n == CHUNK_SIZE || limit == Some(total + n)
  {
    if limit.None? then CHUNK_SIZE else
    var n := limit.value - total;
    if n > CHUNK_SIZE then CHUNK_SIZE else n
  }

  /** The string object that is read into: its buffer may be replaced by one of another size, which
      keeps what fits.  Whether the k-th allocation succeeds is a parameter. */
  method Resize(old_: array<bv8>, size: nat, succeeds: bool) returns (buf: array<bv8>, ok: bool)
    ensures ok == succeeds
    ensures ok ==> fresh(buf) && buf.Length == size
    ensures ok ==> forall n :: 0 <= n <= size && n <= old_.Length ==> buf[..n] == old_[..n]
  {
    ok := succeeds;
    buf := old_;
    if ok {
      buf := new bv8[size];
      for i := 0 to if size < old_.Length then size else old_.Length
        invariant fresh(buf) && buf.Length == size
        invariant forall k :: 0 <= k < i ==> buf[k] == old_[k]
      {
        buf[i] := old_[i];
      }
    }
  }

  /** At each of these turns the channel reported NORMAL, and no error. */
  ghost predicate AllNormal(behave: nat -> Turn, start: nat, end: nat) {
    forall k :: start <= k < end ==> behave(k).status.Normal? && !behave(k).error
  }

  /** The same, except that the last one need not be NORMAL. */
  ghost predicate Smooth(behave: nat -> Turn, start: nat, end: nat) {
    start < end ==> AllNormal(behave, start, end - 1) && !behave(end - 1).error
  }

  /** The bytes that are returned are exactly those taken off the stream, never more than max_count, and
      reading stops only at the limit or after a read that was not NORMAL; -1 is no limit.  A channel that
      reports NORMAL for no byte for ever keeps the loop from ending; any other behaviour is allowed. */
  method ReadAll(channel: Channel, maxCount: int, memory: nat -> bool) returns (r: Result<seq<bv8>, ReadError>)
    requires -0x8000_0000 <= maxCount <= 0x7fff_ffff
    requires channel.Lively()
    modifies channel
    ensures r.Ok? ==> old(channel.stream) == r.value + channel.stream
    ensures r.Ok? && maxCount >= 0 ==> |r.value| <= maxCount
    ensures r.Ok? && maxCount < -1 ==> |r.value| <= 0x1_0000_0000_0000_0000 + maxCount
    ensures maxCount == 0 ==>
            r == Ok([]) && channel.stream == old(channel.stream) && channel.turns == old(channel.turns)
    ensures r.Ok? && maxCount != 0 ==>
              channel.turns > old(channel.turns) &&
              (Limit(maxCount) == Some(|r.value|) || channel.stream == [] ||
               !channel.behave(channel.turns - 1).status.Normal?)
    ensures r.Ok? && maxCount == -1 ==> channel.stream == [] || !channel.behave(channel.turns - 1).status.Normal?
    ensures r.Ok? ==> Smooth(channel.behave, old(channel.turns), channel.turns)
    ensures r == Err(ChannelError) ==> channel.turns > old(channel.turns) && channel.behave(channel.turns - 1).error
    ensures r == Err(MemoryError) ==> exists k :: !memory(k)
  {
    if maxCount == 0 {
      return Ok([]);
    }
    r := ReadUpTo(channel, Limit(maxCount), memory);
  }

  /** The loop, which reads at least once. */
  method ReadUpTo(channel: Channel, limit: Option<nat>, memory: nat -> bool)
      returns (r: Result<seq<bv8>, ReadError>)
    requires channel.Lively() && Within(0, limit)
    modifies channel
    ensures r.Ok? ==> old(channel.stream) == r.value + channel.stream
    ensures r.Ok? && limit.Some? ==> |r.value| <= limit.value
    ensures r.Ok? ==> channel.turns > old(channel.turns) && (limit == Some(|r.value|) || EndedAt(channel))
    ensures r.Ok? ==> Smooth(channel.behave, old(channel.turns), channel.turns)
    ensures r == Err(ChannelError) ==> channel.turns > old(channel.turns) && channel.behave(channel.turns - 1).error
    ensures r == Err(MemoryError) ==> exists k :: !memory(k)
  {
    var retObj: array<bv8> := new bv8[0];
    var begun, allocations: nat := false, 0;
    var total: nat := 0;
    var status := Normal;
    ghost var start, turn := channel.stream, channel.turns;
    ghost var next := channel.NextAct(turn);
    while status == Normal && Within(total, limit)
      invariant fresh(retObj) && Gathered(retObj, total, start, channel)
      invariant limit.Some? ==> total <= limit.value
      invariant if begun then channel.turns > turn else channel.turns == turn && status == Normal && total == 0
      invariant status != Normal ==> channel.turns > 0 && EndedAt(channel)
      invariant if status == Normal then AllNormal(channel.behave, turn, channel.turns)
                else Smooth(channel.behave, turn, channel.turns)
      invariant channel.turns <= next && channel.Acts(next)
      decreases |channel.stream|, if status == Normal then 1 else 0, next - channel.turns
    {
      var bufSize := BufSize(total, limit);
      if !begun || bufSize + total > retObj.Length {
        var ok;
        retObj, ok := Resize(retObj, bufSize + total, memory(allocations));
        if !ok {
          return Err(MemoryError);
        }
        allocations := allocations + 1;
      }
      begun := true;
      var single, error;
      status, single, error := ReadOnce(channel, retObj, total, bufSize, start);
      if error {
        return Err(ChannelError);
      }
      total := total + single;
      if next < channel.turns {
        next := channel.NextAct(channel.turns);
      }
    }
    assert start == start[..total] + start[total..];
    r := Shrink(retObj, total, memory(allocations));
  }

  /** The string that is returned has the size of what was read. */
  method Shrink(buf: array<bv8>, total: nat, succeeds: bool) returns (r: Result<seq<bv8>, ReadError>)
    requires total <= buf.Length
    ensures r == if succeeds || total == buf.Length then Ok(buf[..total]) else Err(MemoryError)
  {
    var retObj := buf;
    if total != retObj.Length {
      var ok;
      retObj, ok := Resize(buf, total, succeeds);
      if !ok {
        return Err(MemoryError);
      }
    }
    assert retObj[..] == retObj[..total];
    r := Ok(retObj[..]);
  }

  /** The first `total` bytes of the buffer are those taken off the stream so far. */
  ghost predicate Gathered(buf: array<bv8>, total: nat, start: seq<bv8>, channel: Channel)
    reads buf, channel
  {
    total <= buf.Length && total <= |start| && buf[..total] == start[..total] && channel.stream == start[total..]
  }

  predicate EndedAt(channel: Channel)
    requires channel.turns > 0
    reads channel
  {
    channel.stream == [] || !channel.behave(channel.turns - 1).status.Normal?
  }

  /** One round: what the channel hands over is appended to what has been gathered. */
  method ReadOnce(channel: Channel, buf: array<bv8>, total: nat, bufSize: nat, ghost start: seq<bv8>)
      returns (status: Status, single: nat, error: bool)
    requires Gathered(buf, total, start, channel) && total + bufSize <= buf.Length && bufSize > 0
    modifies channel, buf
    ensures single <= bufSize && Gathered(buf, total + single, start, channel)
    ensures channel.turns == old(channel.turns) + 1
    ensures |channel.stream| == |old(channel.stream)| - single
    ensures status.Normal? && channel.Acts(old(channel.turns)) ==> single > 0
    ensures status.Normal? ==> channel.behave(old(channel.turns)).status.Normal?
    ensures !status.Normal? ==> EndedAt(channel)
    ensures error == channel.behave(old(channel.turns)).error
  {
    status, single, error := channel.ReadChars(buf, total, bufSize);
    Extend(buf[..], start, total, single);
  }

  lemma Extend(buf: seq<bv8>, start: seq<bv8>, total: nat, single: nat)
    requires total + single <= |buf| && total + single <= |start|
    requires buf[..total] == start[..total] && buf[total..total + single] == start[total..][..single]
    ensures buf[..total + single] == start[..total + single]
    ensures start[total..][single..] == start[total + single..]
  {
    assert buf[..total + single] == buf[..total] + buf[total..total + single];
    assert start[..total + single] == start[..total] + start[total..][..single];
  }
}
