/** The byte window of Buffer.h and Buffer.cpp: a growable, compacting array.

    `writableBytes` is modelled as `size - writeIndex_`, the reading that the layout comment and
    `makeSpace` rely on; module `BufferAsWritten` keeps the source's own expression. */
module Buffers {
  import opened Prelude

  const CHEAP_PREPEND: nat := 8
  const INITIAL_SIZE: nat := 1024
  const EXTRA_SIZE: nat := 65536

  /** The three sizes of a buffer: the two indices and the length of the backing array. */
  datatype Layout = Layout(reader: nat, writer: nat, size: nat) {
    ghost predicate Valid() {
      CHEAP_PREPEND <= reader <= writer <= size
    }
  }

  /** What a caller can observe: the layout and the readable bytes. */
  datatype State = State(layout: Layout, contents: seq<byte>) {
    ghost predicate Valid() {
      layout.Valid() && |contents| == layout.writer - layout.reader
    }
  }

  function Initial(initialSize: nat): State {
    State(Layout(CHEAP_PREPEND, CHEAP_PREPEND, CHEAP_PREPEND + initialSize), [])
  }

  function MadeSpace(l: Layout, len: nat): Layout
    requires l.Valid()
  {
    if l.size - l.writer + l.reader < len + CHEAP_PREPEND then
      l.(size := l.writer + len)
    else
      l.(reader := CHEAP_PREPEND, writer := CHEAP_PREPEND + (l.writer - l.reader))
  }

  function EnsuredWritable(l: Layout, len: nat): (r: Layout)
    requires l.Valid()
    ensures r.Valid() && r.writer + len <= r.size && r.writer - r.reader == l.writer - l.reader
  {
    if l.size - l.writer < len then MadeSpace(l, len) else l
  }

  function AppendedLayout(l: Layout, len: nat): (r: Layout)
    requires l.Valid()
    ensures r.Valid() && r.writer - r.reader == l.writer - l.reader + len
  {
    var e := EnsuredWritable(l, len);
    e.(writer := e.writer + len)
  }

  /** `readFd` for `n` delivered bytes: the array's free tail first, the spill area after it. */
  function ReceivedLayout(l: Layout, n: nat): (r: Layout)
    requires l.Valid()
    ensures r.Valid() && r.writer - r.reader == l.writer - l.reader + n
  {
    var writable := l.size - l.writer;
    if n <= writable then l.(writer := l.writer + n)
    else AppendedLayout(l.(writer := l.size), n - writable)
  }

  function Appended(s: State, bytes: seq<byte>): State
    requires s.Valid()
  {
    State(AppendedLayout(s.layout, |bytes|), s.contents + bytes)
  }

  function Received(s: State, bytes: seq<byte>): State
    requires s.Valid()
  {
    State(ReceivedLayout(s.layout, |bytes|), s.contents + bytes)
  }

  lemma ReceivedWithSpill(s: State, first: seq<byte>, spill: seq<byte>)
    requires s.Valid() && |first| == s.layout.size - s.layout.writer && spill != []
    ensures Received(s, first + spill)
         == Appended(State(s.layout.(writer := s.layout.size), s.contents + first), spill)
  {
    assert s.contents + (first + spill) == s.contents + first + spill;
  }

  function Retrieved(s: State, len: nat): State
    requires s.Valid()
  {
    if len < |s.contents| then
      State(s.layout.(reader := s.layout.reader + len), s.contents[len..])
    else
      State(Layout(CHEAP_PREPEND, CHEAP_PREPEND, s.layout.size), [])
  }

  /** How many bytes one `readv` may deliver: with a large free tail only one vector is passed. */
  function ReadCapacity(l: Layout): nat
    requires l.Valid()
  {
    var writable := l.size - l.writer;
    if writable < EXTRA_SIZE then writable + EXTRA_SIZE else writable
  }

  /** A read takes any offer up to 64 KiB whole, however full the buffer is, and so something of every
      offer that is not empty. What it leaves behind is what lies beyond the free tail and, behind a tail
      shorter than 64 KiB, the spill area. */
  lemma ReadTakes(l: Layout, offered: nat)
    requires l.Valid()
    ensures var n := Min(offered, ReadCapacity(l));
            && (offered <= 65536 ==> n == offered)
            && (offered > 0 ==> n > 0)
            && (n < offered ==> n == l.size - l.writer + (if l.size - l.writer < 65536 then 65536 else 0))
  {
  }

  /** `std::copy` of `bytes` to `target[at..]`. */
  method CopyIn(target: array<byte>, at: nat, bytes: seq<byte>)
    requires at + |bytes| <= target.Length
    modifies target
    ensures target[at..at + |bytes|] == bytes
    ensures target[..at] == old(target[..at])
  {
    forall i | 0 <= i < |bytes| {
      target[at + i] := bytes[i];
    }
  }

  class Buffer {
    var data: array<byte>
    var readerIndex: nat
    var writeIndex: nat

    ghost predicate Valid()
      reads this
    {
      CHEAP_PREPEND <= readerIndex <= writeIndex <= data.Length
    }

    function GetLayout(): Layout
      reads this
    {
      Layout(readerIndex, writeIndex, data.Length)
    }

    function Contents(): seq<byte>
      requires Valid()
      reads this, data
    {
      data[readerIndex..writeIndex]
    }

    ghost function View(): (s: State)
      requires Valid()
      reads this, data
      ensures s.Valid()
    {
      State(GetLayout(), Contents())
    }

    constructor (initialSize: nat := INITIAL_SIZE)
      ensures Valid() && fresh(data) && View() == Initial(initialSize)
      ensures readerIndex == writeIndex == 8 && data.Length == 8 + initialSize && Contents() == []
    {
      data := new byte[CHEAP_PREPEND + initialSize](_ => 0);
      readerIndex, writeIndex := CHEAP_PREPEND, CHEAP_PREPEND;
    }

    function ReadableBytes(): nat
      requires Valid()
      reads this
    {
      writeIndex - readerIndex
    }

    function WritableBytes(): nat
      requires Valid()
      reads this
    {
      data.Length - writeIndex
    }

    method Retrieve(len: nat)
      requires Valid()
      modifies this
      ensures Valid() && data == old(data) && View() == Retrieved(old(View()), len)
      ensures len < old(ReadableBytes()) ==>
                && readerIndex == old(readerIndex) + len && writeIndex == old(writeIndex)
                && Contents() == old(Contents())[len..]
      ensures len >= old(ReadableBytes()) ==> readerIndex == writeIndex == 8 && Contents() == []
    {
      if len < ReadableBytes() {
        readerIndex := readerIndex + len;
      } else {
        RetrieveAll();
      }
    }

    method RetrieveAll()
      requires Valid()
      modifies this
      ensures Valid() && data == old(data)
      ensures View() == State(Layout(CHEAP_PREPEND, CHEAP_PREPEND, data.Length), [])
    {
      readerIndex, writeIndex := CHEAP_PREPEND, CHEAP_PREPEND;
    }

    /** The string is built from `peek()` whatever is readable: a longer `len` returns stale bytes
        after the readable ones, as long as it stays in the array. */
    method RetrieveAsString(len: nat) returns (result: seq<byte>)
      requires Valid() && readerIndex + len <= data.Length
      modifies this
      ensures Valid() && data == old(data) && View() == Retrieved(old(View()), len)
      ensures result == old(data[readerIndex..readerIndex + len])
      ensures result + Contents() == old(Contents()) <==> len <= old(ReadableBytes())
      ensures len > old(ReadableBytes()) ==> result[..old(ReadableBytes())] == old(Contents())
    {
      result := data[readerIndex..readerIndex + len];
      assert len <= ReadableBytes() ==> result == Contents()[..len];
      Retrieve(len);
    }

    method MakeSpace(len: nat)
      requires Valid()
      modifies this, data
      ensures Valid() && (data == old(data) || fresh(data))
      ensures GetLayout() == MadeSpace(old(GetLayout()), len)
      ensures Contents() == old(Contents())
      ensures len <= old(WritableBytes()) + old(readerIndex) - 8 ==> data == old(data) && readerIndex == 8
      ensures old(WritableBytes()) + old(readerIndex) - 8 < len ==>
                fresh(data) && readerIndex == old(readerIndex) && data.Length == old(writeIndex) + len
    {
      if data.Length - writeIndex + readerIndex < len + CHEAP_PREPEND {
        var grown := new byte[writeIndex + len](_ => 0);
        var kept := Min(data.Length, writeIndex + len);
        forall i | 0 <= i < kept {
          grown[i] := data[i];
        }
        data := grown;
      } else {
        var readable := writeIndex - readerIndex;
        forall i | 0 <= i < readable {
          data[CHEAP_PREPEND + i] := data[readerIndex + i];
        }
        readerIndex := CHEAP_PREPEND;
        writeIndex := readerIndex + readable;
      }
    }

    method EnsureWritableBytes(len: nat)
      requires Valid()
      modifies this, data
      ensures Valid() && (data == old(data) || fresh(data))
      ensures len <= WritableBytes() && Contents() == old(Contents())
      ensures GetLayout() == EnsuredWritable(old(GetLayout()), len)
      ensures len <= old(WritableBytes()) ==> data == old(data) && GetLayout() == old(GetLayout())
      ensures old(WritableBytes()) < len <= old(WritableBytes()) + old(readerIndex) - 8 ==>
                data == old(data) && readerIndex == 8
      ensures old(WritableBytes()) + old(readerIndex) - 8 < len ==>
                fresh(data) && readerIndex == old(readerIndex) && data.Length == old(writeIndex) + len
    {
      if WritableBytes() < len {
        MakeSpace(len);
      }
    }

    /** The copy of `append`, into a free tail that holds it. */
    method Fill(bytes: seq<byte>)
      requires Valid() && |bytes| <= WritableBytes()
      modifies this`writeIndex, data
      ensures Valid() && Contents() == old(Contents()) + bytes
      ensures writeIndex == old(writeIndex) + |bytes|
    {
      CopyIn(data, writeIndex, bytes);
      assert data[readerIndex..writeIndex] == data[..writeIndex][readerIndex..];
      writeIndex := writeIndex + |bytes|;
    }

    /** A tail that is long enough is used as it is; free space that is long enough only in both parts is
        joined in front; and only when all of it is too short, a longer array is made, exactly filled. */
    method Append(bytes: seq<byte>)
      requires Valid()
      modifies this, data
      ensures Valid() && (data == old(data) || fresh(data))
      ensures View() == Appended(old(View()), bytes)
      ensures Contents() == old(Contents()) + bytes
      ensures |bytes| <= old(WritableBytes()) ==>
                data == old(data) && readerIndex == old(readerIndex) && writeIndex == old(writeIndex) + |bytes|
      ensures old(WritableBytes()) < |bytes| <= old(WritableBytes()) + old(readerIndex) - 8 ==>
                data == old(data) && readerIndex == 8
      ensures old(WritableBytes()) + old(readerIndex) - 8 < |bytes| ==>
                fresh(data) && readerIndex == old(readerIndex) && writeIndex == data.Length
    {
      EnsureWritableBytes(|bytes|);
      Fill(bytes);
    }

    /** `offered` is what the kernel would hand over (`None` for an error); `readv` takes as much
        of it as the vectors hold, filling the buffer's tail before the spill area: up to 64 KiB always,
        however full the buffer is, and so something of every offer that is not empty. */
    method ReadFd(offered: Option<seq<byte>>) returns (n: int)
      requires Valid()
      modifies this, data
      ensures Valid() && (data == old(data) || fresh(data))
      ensures offered.None? ==> n == -1 && View() == old(View())
      ensures offered.Some? ==>
                && n == Min(|offered.value|, ReadCapacity(old(GetLayout())))
                && View() == Received(old(View()), offered.value[..n])
      ensures offered.Some? ==>
                && 0 <= n <= |offered.value| && Contents() == old(Contents()) + offered.value[..n]
                && (n == |offered.value| || n >= 65536)
                && (n < |offered.value| ==>
                      n == old(WritableBytes()) + (if old(WritableBytes()) < 65536 then 65536 else 0))
    {
      ghost var before := GetLayout();
      var extra, filled, spilled := Readv(offered);
      if offered.None? {
        return -1;
      }
      n := filled + spilled;
      ReadTakes(before, |offered.value|);
      Keep(offered.value, n, filled, extra);
    }

    /** What `readFd` does with the n bytes that `readv` has put into the tail and the spill area. */
    method Keep(ghost offered: seq<byte>, n: nat, filled: nat, extra: array<byte>)
      requires Valid() && filled == Min(n, WritableBytes()) && n <= |offered|
      requires data[writeIndex..writeIndex + filled] == offered[..filled]
      requires extra != data && n - filled <= extra.Length && extra[..n - filled] == offered[filled..n]
      modifies this, data
      ensures Valid() && (data == old(data) || fresh(data))
      ensures View() == Received(old(View()), offered[..n])
    {
      ghost var before := View();
      if n <= WritableBytes() {
        writeIndex := writeIndex + n;
        assert data[readerIndex..writeIndex] == before.contents + offered[..n];
      } else {
        writeIndex := data.Length;
        assert data[readerIndex..writeIndex] == before.contents + offered[..filled];
        var tail := extra[..n - filled];
        ReceivedWithSpill(before, offered[..filled], tail);
        assert offered[..filled] + tail == offered[..n];
        Append(tail);
      }
    }

    /** The stub for `::readv` over the buffer's free tail and, if that is short, a 64 KiB area. */
    method Readv(offered: Option<seq<byte>>) returns (extra: array<byte>, filled: nat, spilled: nat)
      requires Valid()
      modifies data
      ensures fresh(extra) && extra.Length == EXTRA_SIZE
      ensures Contents() == old(Contents())
      ensures offered.None? ==> data[..] == old(data[..]) && filled == spilled == 0
      ensures offered.Some? ==>
                && filled == Min(|offered.value|, WritableBytes())
                && filled + spilled == Min(|offered.value|, ReadCapacity(GetLayout()))
                && spilled <= EXTRA_SIZE
                && data[writeIndex..writeIndex + filled] == offered.value[..filled]
                && extra[..spilled] == offered.value[filled..filled + spilled]
    {
      extra := new byte[EXTRA_SIZE](_ => 0);
      filled, spilled := 0, 0;
      if offered.Some? {
        var writable := WritableBytes();
        filled := Min(|offered.value|, writable);
        var second := if writable < EXTRA_SIZE then EXTRA_SIZE else 0;
        spilled := Min(|offered.value| - filled, second);
        CopyIn(data, writeIndex, offered.value[..filled]);
        CopyIn(extra, 0, offered.value[filled..filled + spilled]);
        assert data[readerIndex..writeIndex] == data[..writeIndex][readerIndex..];
      }
    }
  }
}

/** Whole runs of a buffer: the byte-queue refinement and the bound on its memory. */
module BufferRuns {
  import opened Prelude
  import opened Buffers

  datatype Op = Append(bytes: seq<byte>) | Read(bytes: seq<byte>) | Retrieve(len: nat)

  function Step(s: State, op: Op): (t: State)
    requires s.Valid()
    ensures t.Valid()
  {
    match op
    case Append(bytes) => Appended(s, bytes)
    case Read(bytes) => Received(s, bytes)
    case Retrieve(len) => Retrieved(s, len)
  }

  function Run(s: State, ops: seq<Op>): (t: State)
    requires s.Valid()
    ensures t.Valid()
    decreases |ops|
  {
    if ops == [] then s else Run(Step(s, ops[0]), ops[1..])
  }

  function BytesIn(op: Op): seq<byte> {
    match op
    case Append(bytes) => bytes
    case Read(bytes) => bytes
    case Retrieve(_) => []
  }

  /** Everything put into the buffer by a run. */
  function Put(ops: seq<Op>): seq<byte> {
    if ops == [] then [] else BytesIn(ops[0]) + Put(ops[1..])
  }

  /** Everything handed out by a run: `retrieve` yields the bytes it skips. */
  function Taken(s: State, ops: seq<Op>): seq<byte>
    requires s.Valid()
    decreases |ops|
  {
    if ops == [] then []
    else
      (if ops[0].Retrieve? then s.contents[..Min(ops[0].len, |s.contents|)] else [])
      + Taken(Step(s, ops[0]), ops[1..])
  }

  /** A buffer is a byte queue: nothing is lost, duplicated or reordered by growth or compaction. */
  lemma {:induction false} QueueRefined(s: State, ops: seq<Op>)
    requires s.Valid()
    ensures Taken(s, ops) + Run(s, ops).contents == s.contents + Put(ops)
    decreases |ops|
  {
    if ops == [] {
    } else {
      var t := Step(s, ops[0]);
      QueueRefined(t, ops[1..]);
      var out := if ops[0].Retrieve? then s.contents[..Min(ops[0].len, |s.contents|)] else [];
      assert out + t.contents == s.contents + BytesIn(ops[0]);
      ConservedTwice(out, Taken(t, ops[1..]), s.contents, t.contents, Run(t, ops[1..]).contents,
                     BytesIn(ops[0]), Put(ops[1..]));
    }
  }

  /** How much a single step appends in one `append` call: for a read, the part that spills. */
  function AppendSize(s: State, op: Op): nat
    requires s.Valid()
  {
    match op
    case Append(bytes) => |bytes|
    case Read(bytes) => var free := s.layout.size - s.layout.writer; if |bytes| <= free then 0 else |bytes| - free
    case Retrieve(_) => 0
  }

  ghost predicate Within(s: State, ops: seq<Op>, maxReadable: nat, maxAppend: nat)
    requires s.Valid()
    decreases |ops|
  {
    && |s.contents| <= maxReadable
    && (ops != [] ==>
          && AppendSize(s, ops[0]) <= maxAppend
          && Within(Step(s, ops[0]), ops[1..], maxReadable, maxAppend))
  }

  /** Resizing is driven by what is readable, not by the total traffic: a run that never holds more
      than `maxReadable` bytes and never appends more than `maxAppend` at once is bounded. */
  lemma {:induction false} SpaceBounded(s: State, ops: seq<Op>, maxReadable: nat, maxAppend: nat)
    requires s.Valid() && Within(s, ops, maxReadable, maxAppend)
    ensures Run(s, ops).layout.size <= Max(s.layout.size, maxReadable + maxAppend + CHEAP_PREPEND - 1)
    decreases |ops|
  {
    if ops == [] {
    } else {
      var t := Step(s, ops[0]);
      assert |t.contents| <= maxReadable;
      SpaceBounded(t, ops[1..], maxReadable, maxAppend);
    }
  }

  /** The bound is attained: one full append, one byte consumed, then an append one short of the
      room that compaction would have needed. */
  lemma SpaceBoundAttained(len: nat)
    requires 2 <= len
    ensures var s := Initial(len);
            var ops := [Append(seq(len, _ => 0)), Retrieve(len - 1), Append(seq(len, _ => 0))];
            && Within(s, ops, len + 1, len)
            && Run(s, ops).layout.size == (len + 1) + len + CHEAP_PREPEND - 1
  {
    var s0 := Initial(len);
    var bytes: seq<byte> := seq(len, _ => 0);
    var ops := [Append(bytes), Retrieve(len - 1), Append(bytes)];
    var s1 := Step(s0, ops[0]);
    var s2 := Step(s1, ops[1]);
    var s3 := Step(s2, ops[2]);
    assert ops[1..] == [ops[1], ops[2]] && ops[1..][1..] == [ops[2]] && [ops[2]][1..] == [];
    assert Run(s0, ops) == Run(s1, [ops[1], ops[2]]) == Run(s2, [ops[2]]) == Run(s3, []) == s3;
    assert Within(s3, [], len + 1, len);
    assert Within(s2, [ops[2]], len + 1, len);
    assert Within(s1, [ops[1], ops[2]], len + 1, len);
  }
}

/** Buffer.h:25-27 as written: `writableBytes` counts from the read index. */
module BufferAsWritten {
  import opened Prelude
  import opened Buffers

  function MadeSpaceAsWritten(l: Layout, len: nat): Layout
    requires l.Valid()
  {
    if l.size - l.reader + l.reader < len + CHEAP_PREPEND then
      l.(size := l.writer + len)
    else
      l.(reader := CHEAP_PREPEND, writer := CHEAP_PREPEND + (l.writer - l.reader))
  }

  /** `None` when the copy of `append` runs past the end of the array. */
  function AppendAsWritten(l: Layout, len: nat): Option<Layout>
    requires l.Valid()
  {
    var e := if l.size - l.reader < len then MadeSpaceAsWritten(l, len) else l;
    if e.writer + len <= e.size then Some(e.(writer := e.writer + len)) else None
  }

  /** Exactly when the source's `append` stays inside the array. */
  lemma AppendAsWrittenFitsIff(l: Layout, len: nat)
    requires l.Valid()
    ensures AppendAsWritten(l, len).Some? <==>
              || l.writer + len <= l.size                    // the free tail really holds it
              || l.size < len + CHEAP_PREPEND                // it is resized
              || (l.size - l.reader < len                    // it is compacted, and that suffices
                  && CHEAP_PREPEND + (l.writer - l.reader) + len <= l.size)
  {
  }

  /** The source's `append` is safe for every length exactly when nothing is waiting to be read. */
  lemma AppendAsWrittenSafeIffEmpty(l: Layout)
    requires l.Valid()
    ensures (forall len :: AppendAsWritten(l, len).Some?) <==> l.reader == l.writer
  {
    if l.reader < l.writer {
      assert AppendAsWritten(l, l.size - l.reader).None?;
    }
  }

  /** Buffer.cpp:24-39 with the same expression: `readv` is offered a tail longer than the array has,
      and a spill goes through the source's `append`. `None` when either runs past the array. */
  function ReadAsWritten(l: Layout, n: nat): Option<Layout>
    requires l.Valid()
  {
    var writable := l.size - l.reader;
    if l.writer + Min(n, writable) > l.size then None
    else if n <= writable then Some(l.(writer := l.writer + n))
    else AppendAsWritten(l.(writer := l.size), n - writable)
  }

  /** A read is safe exactly when the real tail holds it, or nothing was waiting and the spill is so
      long that the array is rebuilt for it. */
  lemma ReadAsWrittenFitsIff(l: Layout, n: nat)
    requires l.Valid()
    ensures ReadAsWritten(l, n).Some? <==>
              || n <= l.size - l.writer
              || (l.reader == l.writer
                  && var room, spill := l.size - l.reader, n - (l.size - l.reader);
                     room < spill && (l.size < spill + CHEAP_PREPEND || CHEAP_PREPEND + room + spill <= l.size))
  {
    if l.reader == l.writer && n > l.size - l.writer {
      AppendAsWrittenFitsIff(l.(writer := l.size), n - (l.size - l.reader));
    }
  }

  /** A fresh default buffer cannot take in one byte more than its size. */
  lemma ReadAsWrittenOverruns()
    ensures ReadAsWritten(Initial(INITIAL_SIZE).layout, INITIAL_SIZE).Some?
    ensures ReadAsWritten(Initial(INITIAL_SIZE).layout, INITIAL_SIZE + 1).None?
  {
  }

  /** A fresh default buffer holding 1000 bytes overruns on the next 100. */
  lemma AppendAsWrittenOverruns()
    ensures var first := AppendAsWritten(Initial(INITIAL_SIZE).layout, 1000);
            && first.Some? && first.value.Valid()
            && AppendAsWritten(first.value, 100).None?
  {
  }
}
