/**
 * The walk over the buffer that NtQuerySystemInformation fills, src/threatlens/utils/ntapi.py: a list of
 * process records linked by relative offsets, each followed by its thread records. The offsets below are
 * those of the x64 structures. What an image-name pointer points to is left abstract.
 */
module ProcessBuffer {

  type Byte = x: int | 0 <= x < 0x100
  type U16 = x: int | 0 <= x < 0x1_0000
  type U32 = x: int | 0 <= x < 0x1_0000_0000
  type U64 = x: int | 0 <= x < 0x1_0000_0000_0000_0000
  type I64 = x: int | -0x8000_0000_0000_0000 <= x < 0x8000_0000_0000_0000

  const HEADER_SIZE: nat := 256
  const THREAD_SIZE: nat := 80
  const NEXT_ENTRY_OFFSET: nat := 0
  const NUMBER_OF_THREADS: nat := 4
  const CREATE_TIME: nat := 32
  const USER_TIME: nat := 40
  const KERNEL_TIME: nat := 48
  const NAME_LENGTH: nat := 56
  const NAME_BUFFER: nat := 64
  const PROCESS_ID: nat := 80
  const PARENT_ID: nat := 88
  const HANDLE_COUNT: nat := 96
  const SESSION_ID: nat := 100
  const WORKING_SET: nat := 144
  const PRIVATE_PAGES: nat := 200
  const THREAD_STATE: nat := 68
  const WAIT_REASON: nat := 72
  const WAITING: int := 5
  const SUSPENDED: int := 5
  const IDLE_PROCESS_NAME := "System Idle Process"

  /** The text at an address, for a number of characters. */
  type Memory = (U64, nat) -> string

  datatype Entry = Entry(
    pid: int,
    ppid: int,
    imageName: string,
    createTime: int,
    sessionId: int,
    numThreads: int,
    handleCount: int,
    workingSet: int,
    privateBytes: int,
    cpuTime: int,
    allThreadsSuspended: bool)

  datatype Parsed = Entries(entries: seq<Entry>) | HeaderTruncated | ThreadsTruncated

  // ---- little-endian numbers -----------------------------------------------------------------------------

  function Pow256(n: nat): (p: nat)
    ensures p >= 1
  {
    if n == 0 then 1 else 256 * Pow256(n - 1)
  }

  function Read(b: seq<Byte>, at: nat, n: nat): nat
    requires at + n <= |b|
    decreases n
  {
    if n == 0 then 0 else b[at] + 256 * Read(b, at + 1, n - 1)
  }

  function Signed(x: int): int {
    if x >= 0x8000_0000_0000_0000 then x - 0x1_0000_0000_0000_0000 else x
  }

  // ---- the walk ------------------------------------------------------------------------------------------

  predicate ThreadSuspended(b: seq<Byte>, at: nat)
    requires at + THREAD_SIZE <= |b|
  {
    Read(b, at + THREAD_STATE, 4) == WAITING && Read(b, at + WAIT_REASON, 4) == SUSPENDED
  }

  function ThreadAt(at: nat, i: nat): nat {
    at + i * THREAD_SIZE
  }

  ghost predicate AllSuspended(b: seq<Byte>, at: nat, count: nat)
    requires at + count * THREAD_SIZE <= |b|
  {
    count > 0 && forall i :: 0 <= i < count ==> ThreadSuspended(b, ThreadAt(at, i))
  }

  function NameOf(memory: Memory, pid: int, pointer: int, length: int): string
    requires 0 <= pointer < 0x1_0000_0000_0000_0000 && length >= 0
  {
    if pointer != 0 && length / 2 != 0 then memory(pointer, length / 2)
    else if pid == 0 then IDLE_PROCESS_NAME
    else ""
  }

  /** The record at an offset. */
  ghost function EntryAt(memory: Memory, b: seq<Byte>, at: nat): Entry
    requires at + HEADER_SIZE <= |b|
    requires at + HEADER_SIZE + Read(b, at + NUMBER_OF_THREADS, 4) * THREAD_SIZE <= |b|
  {
    var threads := Read(b, at + NUMBER_OF_THREADS, 4);
    var pid := Read(b, at + PROCESS_ID, 8);
    ReadBound(b, at + NAME_BUFFER, 8);
    Entry(pid,
          Read(b, at + PARENT_ID, 8),
          NameOf(memory, pid, Read(b, at + NAME_BUFFER, 8), Read(b, at + NAME_LENGTH, 2)),
          Signed(Read(b, at + CREATE_TIME, 8)),
          Read(b, at + SESSION_ID, 4),
          threads,
          Read(b, at + HANDLE_COUNT, 4),
          Read(b, at + WORKING_SET, 8),
          Read(b, at + PRIVATE_PAGES, 8),
          Signed(Read(b, at + USER_TIME, 8)) + Signed(Read(b, at + KERNEL_TIME, 8)),
          AllSuspended(b, at + HEADER_SIZE, threads))
  }

  function Prepend(e: seq<Entry>, p: Parsed): Parsed {
    match p
    case Entries(rest) => Entries(e + rest)
    case _ => p
  }

  /** All records from an offset on; every read stays inside b, and each step goes strictly forward. */
  ghost function Walk(memory: Memory, b: seq<Byte>, at: nat): Parsed
    decreases |b| - at
  {
    if at + HEADER_SIZE > |b| then HeaderTruncated
    else if at + HEADER_SIZE + Read(b, at + NUMBER_OF_THREADS, 4) * THREAD_SIZE > |b| then ThreadsTruncated
    else
      var next := Read(b, at + NEXT_ENTRY_OFFSET, 4);
      if next == 0 then Entries([EntryAt(memory, b, at)])
      else Prepend([EntryAt(memory, b, at)], Walk(memory, b, at + next))
  }

  lemma {:induction false} ReadBound(b: seq<Byte>, at: nat, n: nat)
    requires at + n <= |b|
    ensures Read(b, at, n) < Pow256(n)
    ensures n == 8 ==> Read(b, at, n) < 0x1_0000_0000_0000_0000
    decreases n
  {
    if n > 0 {
      ReadBound(b, at + 1, n - 1);
    }
    assert Pow256(8) == 0x1_0000_0000_0000_0000 by {
      assert Pow256(4) == 0x1_0000_0000;
    }
  }

  // ---- the parser ----------------------------------------------------------------------------------------

  /** A number in the part of the buffer that was filled. */
  method Load(buffer: array<Byte>, used: nat, at: nat, n: nat) returns (value: nat)
    requires at + n <= used <= buffer.Length
    ensures value == Read(buffer[..used], at, n)
  {
    value := 0;
    var i := n;
    while i > 0
      invariant 0 <= i <= n && value == Read(buffer[..used], at + i, n - i)
    {
      i := i - 1;
      value := buffer[at + i] + 256 * value;
    }
  }

  method ThreadsAllSuspended(buffer: array<Byte>, used: nat, at: nat, count: nat) returns (all: bool)
    requires at + count * THREAD_SIZE <= used <= buffer.Length
    ensures all == AllSuspended(buffer[..used], at, count)
  {
    if count == 0 {
      return false;
    }
    for i := 0 to count
      invariant forall j :: 0 <= j < i ==> ThreadSuspended(buffer[..used], ThreadAt(at, j))
    {
      var thread := ThreadAt(at, i);
      var state := Load(buffer, used, thread + THREAD_STATE, 4);
      var reason := Load(buffer, used, thread + WAIT_REASON, 4);
      if state != WAITING || reason != SUSPENDED {
        assert !ThreadSuspended(buffer[..used], ThreadAt(at, i));
        return false;
      }
    }
    return true;
  }

  method ParseEntry(memory: Memory, buffer: array<Byte>, used: nat, at: nat) returns (e: Entry)
    requires used <= buffer.Length && at + HEADER_SIZE <= used
    requires at + HEADER_SIZE + Read(buffer[..used], at + NUMBER_OF_THREADS, 4) * THREAD_SIZE <= used
    ensures e == EntryAt(memory, buffer[..used], at)
  {
    hide Read, AllSuspended, Signed, Pow256;
    var threads := Load(buffer, used, at + NUMBER_OF_THREADS, 4);
    var pid := Load(buffer, used, at + PROCESS_ID, 8);
    var ppid := Load(buffer, used, at + PARENT_ID, 8);
    var length := Load(buffer, used, at + NAME_LENGTH, 2);
    var pointer := Load(buffer, used, at + NAME_BUFFER, 8);
    ReadBound(buffer[..used], at + NAME_BUFFER, 8);
    var name := NameOf(memory, pid, pointer, length);
    var created := Load(buffer, used, at + CREATE_TIME, 8);
    var session := Load(buffer, used, at + SESSION_ID, 4);
    var handles := Load(buffer, used, at + HANDLE_COUNT, 4);
    var workingSet := Load(buffer, used, at + WORKING_SET, 8);
    var privatePages := Load(buffer, used, at + PRIVATE_PAGES, 8);
    var user := Load(buffer, used, at + USER_TIME, 8);
    var kernel := Load(buffer, used, at + KERNEL_TIME, 8);
    var suspended := ThreadsAllSuspended(buffer, used, at + HEADER_SIZE, threads);
    e := Entry(pid, ppid, name, Signed(created), session, threads, handles, workingSet, privatePages,
               Signed(user) + Signed(kernel), suspended);
  }

  method ParseProcessBuffer(memory: Memory, buffer: array<Byte>, used: nat) returns (parsed: Parsed)
    requires used <= buffer.Length
    ensures parsed == Walk(memory, buffer[..used], 0)
  {
    hide EntryAt, Read;
    ghost var b := buffer[..used];
    var entries: seq<Entry> := [];
    var offset := 0;
    PrependNothing(Walk(memory, b, 0));
    while true
      invariant Prepend(entries, Walk(memory, b, offset)) == Walk(memory, b, 0)
      decreases used - offset
    {
      if offset + HEADER_SIZE > used {
        return HeaderTruncated;
      }
      var threads := Load(buffer, used, offset + NUMBER_OF_THREADS, 4);
      if offset + HEADER_SIZE + threads * THREAD_SIZE > used {
        return ThreadsTruncated;
      }
      var e := ParseEntry(memory, buffer, used, offset);
      var next := Load(buffer, used, offset + NEXT_ENTRY_OFFSET, 4);
      if next == 0 {
        return Entries(entries + [e]);
      }
      PrependTwice(entries, [e], Walk(memory, b, offset + next));
      entries := entries + [e];
      offset := offset + next;
    }
  }

  lemma PrependNothing(p: Parsed)
    ensures Prepend([], p) == p
  {
    if p.Entries? {
      assert [] + p.entries == p.entries;
    }
  }

  lemma PrependTwice(a: seq<Entry>, b: seq<Entry>, p: Parsed)
    ensures Prepend(a, Prepend(b, p)) == Prepend(a + b, p)
  {
    if p.Entries? {
      assert a + (b + p.entries) == a + b + p.entries;
    }
  }

  // ---- what the kernel writes ----------------------------------------------------------------------------

  function LittleEndian(v: nat, n: nat): (b: seq<Byte>)
    ensures |b| == n
  {
    if n == 0 then [] else [v % 256] + LittleEndian(v / 256, n - 1)
  }

  function Unsigned(v: I64): nat {
    if v < 0 then v + 0x1_0000_0000_0000_0000 else v
  }

  /** The bytes at an offset are those of a number. */
  ghost predicate Holds(b: seq<Byte>, at: nat, n: nat, v: nat) {
    at + n <= |b| && v < Pow256(n) && b[at..at + n] == LittleEndian(v, n)
  }

  datatype Thread = Thread(state: U32, reason: U32)

  datatype Record = Record(
    pid: U64,
    ppid: U64,
    nameLength: U16,
    namePointer: U64,
    createTime: I64,
    userTime: I64,
    kernelTime: I64,
    session: U32,
    handles: U32,
    workingSet: U64,
    privateBytes: U64,
    threads: seq<Thread>)

  /** What the record says: its fields, its name, and whether it has threads that all wait suspended. */
  function Meaning(memory: Memory, r: Record): Entry {
    Entry(r.pid, r.ppid,
          if r.namePointer != 0 && r.nameLength >= 2 then memory(r.namePointer, r.nameLength / 2)
          else if r.pid == 0 then "System Idle Process"
          else "",
          r.createTime, r.session, |r.threads|, r.handles, r.workingSet, r.privateBytes, r.userTime + r.kernelTime,
          r.threads != [] && forall i :: 0 <= i < |r.threads| ==> r.threads[i] == Thread(5, 5))
  }

  /** A thread record, and a process record with its threads, as on x64; bytes of other fields are free. */
  ghost predicate ThreadLaid(b: seq<Byte>, at: nat, t: Thread) {
    at + 80 <= |b| && Holds(b, at + 68, 4, t.state) && Holds(b, at + 72, 4, t.reason)
  }

  ghost predicate HeaderLaid(b: seq<Byte>, at: nat, r: Record) {
    && at + 256 <= |b|
    && Holds(b, at + 4, 4, |r.threads|)
    && Holds(b, at + 32, 8, Unsigned(r.createTime))
    && Holds(b, at + 40, 8, Unsigned(r.userTime))
    && Holds(b, at + 48, 8, Unsigned(r.kernelTime))
    && Holds(b, at + 56, 2, r.nameLength)
    && Holds(b, at + 64, 8, r.namePointer)
    && Holds(b, at + 80, 8, r.pid)
    && Holds(b, at + 88, 8, r.ppid)
    && Holds(b, at + 96, 4, r.handles)
    && Holds(b, at + 100, 4, r.session)
    && Holds(b, at + 144, 8, r.workingSet)
    && Holds(b, at + 200, 8, r.privateBytes)
  }

  ghost predicate RecordLaid(b: seq<Byte>, at: nat, r: Record) {
    && HeaderLaid(b, at, r)
    && at + 256 + |r.threads| * 80 <= |b|
    && forall i :: 0 <= i < |r.threads| ==> ThreadLaid(b, at + 256 + 80 * i, r.threads[i])
  }

  /** A record and the distance to the next one; the last record's distance is not used. */
  datatype Placed = Placed(record: Record, step: nat)

  /** A list of records linked by forward offsets, with anything in between and after. */
  ghost predicate Laid(b: seq<Byte>, at: nat, list: seq<Placed>)
    decreases |list|
  {
    && list != []
    && RecordLaid(b, at, list[0].record)
    && (if |list| == 1 then Holds(b, at, 4, 0)
        else
          && list[0].step > 0
          && Holds(b, at, 4, list[0].step)
          && Laid(b, at + list[0].step, list[1..]))
  }

  function Meanings(memory: Memory, list: seq<Placed>): seq<Entry> {
    if list == [] then [] else [Meaning(memory, list[0].record)] + Meanings(memory, list[1..])
  }

  lemma {:induction false} ReadsBack(b: seq<Byte>, at: nat, n: nat, v: nat)
    requires Holds(b, at, n, v)
    ensures Read(b, at, n) == v
    decreases n
  {
    if n > 0 {
      var bytes := LittleEndian(v, n);
      assert b[at] == b[at..at + n][0] == v % 256;
      assert b[at + 1..at + n] == b[at..at + n][1..] == LittleEndian(v / 256, n - 1);
      ReadsBack(b, at + 1, n - 1, v / 256);
    }
  }

  lemma SignedReadsBack(b: seq<Byte>, at: nat, v: I64)
    requires Holds(b, at, 8, Unsigned(v))
    ensures Signed(Read(b, at, 8)) == v
  {
    hide Holds, Read;
    ReadsBack(b, at, 8, Unsigned(v));
  }

  lemma ThreadsReadBack(b: seq<Byte>, at: nat, r: Record)
    requires RecordLaid(b, at, r)
    ensures AllSuspended(b, at + HEADER_SIZE, |r.threads|) <==>
            r.threads != [] && forall i :: 0 <= i < |r.threads| ==> r.threads[i] == Thread(5, 5)
  {
    hide HeaderLaid, Holds, Read;
    forall i | 0 <= i < |r.threads|
      ensures ThreadSuspended(b, ThreadAt(at + HEADER_SIZE, i)) <==> r.threads[i] == Thread(5, 5)
    {
      var thread := ThreadAt(at + HEADER_SIZE, i);
      assert thread == at + 256 + 80 * i;
      assert ThreadLaid(b, thread, r.threads[i]);
      ReadsBack(b, thread + THREAD_STATE, 4, r.threads[i].state);
      ReadsBack(b, thread + WAIT_REASON, 4, r.threads[i].reason);
    }
    if AllSuspended(b, at + HEADER_SIZE, |r.threads|) {
      forall i | 0 <= i < |r.threads| ensures r.threads[i] == Thread(5, 5) {
        assert ThreadSuspended(b, ThreadAt(at + HEADER_SIZE, i));
      }
    } else if r.threads != [] {
      var i :| 0 <= i < |r.threads| && !ThreadSuspended(b, ThreadAt(at + HEADER_SIZE, i));
      assert r.threads[i] != Thread(5, 5);
    }
  }

  lemma NameMeaning(memory: Memory, r: Record)
    ensures NameOf(memory, r.pid, r.namePointer, r.nameLength) == Meaning(memory, r).imageName
  {
  }

  lemma RecordReadsBack(memory: Memory, b: seq<Byte>, at: nat, r: Record)
    requires RecordLaid(b, at, r)
    ensures Read(b, at + NUMBER_OF_THREADS, 4) == |r.threads|
    ensures EntryAt(memory, b, at) == Meaning(memory, r)
  {
    hide Holds, Read, AllSuspended, Signed, Unsigned, Pow256, ThreadLaid, NameOf;
    NameMeaning(memory, r);
    ReadsBack(b, at + NUMBER_OF_THREADS, 4, |r.threads|);
    ReadsBack(b, at + NAME_LENGTH, 2, r.nameLength);
    ReadsBack(b, at + NAME_BUFFER, 8, r.namePointer);
    ReadsBack(b, at + PROCESS_ID, 8, r.pid);
    ReadsBack(b, at + PARENT_ID, 8, r.ppid);
    ReadsBack(b, at + HANDLE_COUNT, 4, r.handles);
    ReadsBack(b, at + SESSION_ID, 4, r.session);
    ReadsBack(b, at + WORKING_SET, 8, r.workingSet);
    ReadsBack(b, at + PRIVATE_PAGES, 8, r.privateBytes);
    SignedReadsBack(b, at + CREATE_TIME, r.createTime);
    SignedReadsBack(b, at + USER_TIME, r.userTime);
    SignedReadsBack(b, at + KERNEL_TIME, r.kernelTime);
    ThreadsReadBack(b, at, r);
  }

  /** For any list of records laid out with valid offsets, the walk returns exactly those, in order. */
  lemma {:induction false} WalkReadsEveryRecord(memory: Memory, b: seq<Byte>, at: nat, list: seq<Placed>)
    requires Laid(b, at, list)
    ensures Walk(memory, b, at) == Entries(Meanings(memory, list))
    decreases |list|
  {
    hide RecordLaid, EntryAt, Holds, Read, Meaning;
    RecordReadsBack(memory, b, at, list[0].record);
    InRange(b, at, list[0].record);
    if |list| == 1 {
      ReadsBack(b, at + NEXT_ENTRY_OFFSET, 4, 0);
      assert Meanings(memory, list[1..]) == [];
    } else {
      ReadsBack(b, at + NEXT_ENTRY_OFFSET, 4, list[0].step);
      WalkReadsEveryRecord(memory, b, at + list[0].step, list[1..]);
    }
  }

  lemma InRange(b: seq<Byte>, at: nat, r: Record)
    requires RecordLaid(b, at, r)
    ensures at + HEADER_SIZE <= |b| && at + HEADER_SIZE + |r.threads| * THREAD_SIZE <= |b|
  {
  }

  // ---- truncated buffers ---------------------------------------------------------------------------------

  /** Where the last record ends. */
  function End(at: nat, list: seq<Placed>): nat
    requires list != []
    decreases |list|
  {
    if |list| == 1 then at + 256 + |list[0].record.threads| * 80
    else End(at + list[0].step, list[1..])
  }

  lemma {:induction false} ReadOfPrefix(b: seq<Byte>, used: nat, at: nat, n: nat)
    requires at + n <= used <= |b|
    ensures Read(b[..used], at, n) == Read(b, at, n)
    decreases n
  {
    if n > 0 {
      ReadOfPrefix(b, used, at + 1, n - 1);
    }
  }

  /** Cutting such a list anywhere before its last record ends is always noticed: never a shortened list. */
  lemma {:induction false} TruncationIsNoticed(memory: Memory, b: seq<Byte>, used: nat, at: nat, list: seq<Placed>)
    requires Laid(b, at, list) && used <= |b| && used < End(at, list)
    ensures !Walk(memory, b[..used], at).Entries?
    decreases |list|
  {
    hide RecordLaid, EntryAt, Holds, Read;
    RecordReadsBack(memory, b, at, list[0].record);
    InRange(b, at, list[0].record);
    if at + HEADER_SIZE <= used {
      ReadOfPrefix(b, used, at + NUMBER_OF_THREADS, 4);
      ReadOfPrefix(b, used, at + NEXT_ENTRY_OFFSET, 4);
      if |list| > 1 {
        ReadsBack(b, at + NEXT_ENTRY_OFFSET, 4, list[0].step);
        TruncationIsNoticed(memory, b, used, at + list[0].step, list[1..]);
      }
    }
  }

  // ---- an encoder ----------------------------------------------------------------------------------------

  /** One byte of a number at an offset, or 0 outside it. */
  function ByteOf(i: nat, at: nat, n: nat, v: nat): Byte {
    if at <= i < at + n then LittleEndian(v, n)[i - at] else 0
  }

  function HeaderByte(r: Record, next: U32, i: nat): Byte {
    if i < 4 then ByteOf(i, NEXT_ENTRY_OFFSET, 4, next)
    else if i < 32 then ByteOf(i, NUMBER_OF_THREADS, 4, |r.threads|)
    else if i < 40 then ByteOf(i, CREATE_TIME, 8, Unsigned(r.createTime))
    else if i < 48 then ByteOf(i, USER_TIME, 8, Unsigned(r.userTime))
    else if i < 56 then ByteOf(i, KERNEL_TIME, 8, Unsigned(r.kernelTime))
    else if i < 64 then ByteOf(i, NAME_LENGTH, 2, r.nameLength)
    else if i < 80 then ByteOf(i, NAME_BUFFER, 8, r.namePointer)
    else if i < 88 then ByteOf(i, PROCESS_ID, 8, r.pid)
    else if i < 96 then ByteOf(i, PARENT_ID, 8, r.ppid)
    else if i < 100 then ByteOf(i, HANDLE_COUNT, 4, r.handles)
    else if i < 144 then ByteOf(i, SESSION_ID, 4, r.session)
    else if i < 200 then ByteOf(i, WORKING_SET, 8, r.workingSet)
    else ByteOf(i, PRIVATE_PAGES, 8, r.privateBytes)
  }

  function ThreadByte(t: Thread, i: nat): Byte {
    if i < 72 then ByteOf(i, THREAD_STATE, 4, t.state) else ByteOf(i, WAIT_REASON, 4, t.reason)
  }

  function ThreadBytes(threads: seq<Thread>): (b: seq<Byte>)
    ensures |b| == |threads| * THREAD_SIZE
  {
    seq(|threads| * THREAD_SIZE, i requires 0 <= i < |threads| * THREAD_SIZE =>
      ThreadByte(threads[i / THREAD_SIZE], i % THREAD_SIZE))
  }

  function RecordBytes(r: Record, next: U32): (b: seq<Byte>)
    ensures |b| == HEADER_SIZE + |r.threads| * THREAD_SIZE
  {
    seq(HEADER_SIZE, i requires 0 <= i < HEADER_SIZE => HeaderByte(r, next, i)) + ThreadBytes(r.threads)
  }

  /** A record and the bytes that follow it, such as the text of its image name. */
  datatype Source = Source(record: Record, gap: seq<Byte>)
  {
    function Size(): nat {
      HEADER_SIZE + |record.threads| * THREAD_SIZE + |gap|
    }

    predicate Fits() {
      Size() < 0x1_0000_0000
    }
  }

  function Encode(list: seq<Source>): seq<Byte>
    requires forall i :: 0 <= i < |list| ==> list[i].Fits()
  {
    if list == [] then []
    else
      assert list[0].Fits();
      RecordBytes(list[0].record, if |list| == 1 then 0 else list[0].Size()) + list[0].gap + Encode(list[1..])
  }

  function Placing(list: seq<Source>): (placed: seq<Placed>)
    ensures |placed| == |list|
  {
    if list == [] then [] else [Placed(list[0].record, list[0].Size())] + Placing(list[1..])
  }

  lemma PowersOf256()
    ensures Pow256(2) == 0x1_0000 && Pow256(4) == 0x1_0000_0000 && Pow256(8) == 0x1_0000_0000_0000_0000
  {
    assert Pow256(2) == 256 * Pow256(1);
    assert Pow256(4) == 256 * (256 * Pow256(2));
    assert Pow256(8) == 256 * (256 * (256 * (256 * Pow256(4))));
  }

  function ByteAt(b: seq<Byte>, base: nat, i: nat): Byte
    requires base + i < |b|
  {
    b[base + i]
  }

  /** Bytes that are those of a number at an offset hold that number. */
  lemma FieldHolds(b: seq<Byte>, base: nat, at: nat, n: nat, v: nat)
    requires base + at + n <= |b| && v < Pow256(n)
    requires forall i :: at <= i < at + n ==> ByteAt(b, base, i) == ByteOf(i, at, n, v)
    ensures Holds(b, base + at, n, v)
  {
    forall j | 0 <= j < n ensures b[base + at..base + at + n][j] == LittleEndian(v, n)[j] {
      assert ByteAt(b, base, at + j) == ByteOf(at + j, at, n, v);
    }
  }

  lemma HeaderHolds(b: seq<Byte>, at: nat, r: Record, next: U32)
    requires |r.threads| < 0x1_0000_0000 && at + HEADER_SIZE <= |b|
    requires forall i :: 0 <= i < HEADER_SIZE ==> ByteAt(b, at, i) == HeaderByte(r, next, i)
    ensures HeaderLaid(b, at, r) && Holds(b, at + NEXT_ENTRY_OFFSET, 4, next)
  {
    hide Holds, ByteOf, Pow256, LittleEndian;
    PowersOf256();
    FieldHolds(b, at, NEXT_ENTRY_OFFSET, 4, next);
    FieldHolds(b, at, NUMBER_OF_THREADS, 4, |r.threads|);
    FieldHolds(b, at, CREATE_TIME, 8, Unsigned(r.createTime));
    FieldHolds(b, at, USER_TIME, 8, Unsigned(r.userTime));
    FieldHolds(b, at, KERNEL_TIME, 8, Unsigned(r.kernelTime));
    FieldHolds(b, at, NAME_LENGTH, 2, r.nameLength);
    FieldHolds(b, at, NAME_BUFFER, 8, r.namePointer);
    FieldHolds(b, at, PROCESS_ID, 8, r.pid);
    FieldHolds(b, at, PARENT_ID, 8, r.ppid);
    FieldHolds(b, at, HANDLE_COUNT, 4, r.handles);
    FieldHolds(b, at, SESSION_ID, 4, r.session);
    FieldHolds(b, at, WORKING_SET, 8, r.workingSet);
    FieldHolds(b, at, PRIVATE_PAGES, 8, r.privateBytes);
  }

  lemma ThreadHolds(b: seq<Byte>, at: nat, t: Thread)
    requires at + THREAD_SIZE <= |b|
    requires forall i :: 0 <= i < THREAD_SIZE ==> ByteAt(b, at, i) == ThreadByte(t, i)
    ensures ThreadLaid(b, at, t)
  {
    hide Holds, ByteOf, Pow256, LittleEndian;
    PowersOf256();
    FieldHolds(b, at, THREAD_STATE, 4, t.state);
    FieldHolds(b, at, WAIT_REASON, 4, t.reason);
  }

  lemma ThreadBytesAt(threads: seq<Thread>, i: nat, j: nat)
    requires i < |threads| && j < THREAD_SIZE
    ensures ThreadAt(0, i) + j < |ThreadBytes(threads)|
    ensures ThreadBytes(threads)[ThreadAt(0, i) + j] == ThreadByte(threads[i], j)
  {
    hide ThreadByte;
    var k := i * THREAD_SIZE + j;
    assert k / THREAD_SIZE == i && k % THREAD_SIZE == j;
  }

  /** A record's bytes anywhere in a buffer lay that record there. */
  lemma RecordHolds(b: seq<Byte>, at: nat, r: Record, next: U32)
    requires |r.threads| < 0x1_0000_0000 && at + |RecordBytes(r, next)| <= |b|
    requires b[at..at + |RecordBytes(r, next)|] == RecordBytes(r, next)
    ensures RecordLaid(b, at, r) && Holds(b, at + NEXT_ENTRY_OFFSET, 4, next)
  {
    hide HeaderLaid, Holds, HeaderByte, ThreadBytes, ThreadByte, ThreadLaid;
    var bytes := RecordBytes(r, next);
    forall i | 0 <= i < HEADER_SIZE ensures ByteAt(b, at, i) == HeaderByte(r, next, i) {
      assert b[at..at + |bytes|][i] == bytes[i];
    }
    HeaderHolds(b, at, r, next);
    forall i | 0 <= i < |r.threads| ensures ThreadLaid(b, at + 256 + 80 * i, r.threads[i]) {
      assert ThreadAt(at + HEADER_SIZE, i) == at + 256 + 80 * i;
      forall j | 0 <= j < THREAD_SIZE
        ensures ByteAt(b, ThreadAt(at + HEADER_SIZE, i), j) == ThreadByte(r.threads[i], j)
      {
        ThreadBytesAt(r.threads, i, j);
        assert b[at..at + |bytes|][HEADER_SIZE + ThreadAt(0, i) + j] == bytes[HEADER_SIZE + ThreadAt(0, i) + j];
      }
      ThreadHolds(b, ThreadAt(at + HEADER_SIZE, i), r.threads[i]);
    }
  }

  lemma {:induction false} EncodingIsLaid(b: seq<Byte>, at: nat, list: seq<Source>)
    requires list != [] && forall i :: 0 <= i < |list| ==> list[i].Fits()
    requires at <= |b| && b[at..] == Encode(list)
    ensures Laid(b, at, Placing(list))
    decreases |list|
  {
    hide RecordLaid, RecordBytes, Holds;
    var s := list[0];
    var bytes := RecordBytes(s.record, if |list| == 1 then 0 else s.Size());
    var rest := Encode(list[1..]);
    assert b[at..][..|bytes|] == bytes;
    assert b[at..at + |bytes|] == b[at..][..|bytes|];
    RecordHolds(b, at, s.record, if |list| == 1 then 0 else s.Size());
    if |list| > 1 {
      assert b[at + s.Size()..] == b[at..][s.Size()..] == rest;
      EncodingIsLaid(b, at + s.Size(), list[1..]);
    }
  }

  /** Round trip: any non-empty list of records, encoded with any bytes in between, is parsed back as it was. */
  lemma RoundTrip(memory: Memory, list: seq<Source>)
    requires list != [] && forall i :: 0 <= i < |list| ==> list[i].Fits()
    ensures Walk(memory, Encode(list), 0) == Entries(Meanings(memory, Placing(list)))
  {
    hide *;
    assert Encode(list)[0..] == Encode(list);
    EncodingIsLaid(Encode(list), 0, list);
    WalkReadsEveryRecord(memory, Encode(list), 0, Placing(list));
  }

  // ---- numbers in plain terms ------------------------------------------------------------------------------

  function At(b: seq<Byte>, at: nat): int
    requires at < |b|
  {
    b[at]
  }

  /** The first byte counts least; a time is the signed number of 64 bits with the same bits. */
  lemma NumbersInBytes(b: seq<Byte>, at: nat)
    requires at + 8 <= |b|
    ensures Read(b, at, 2) == At(b, at) + 0x100 * At(b, at + 1)
    ensures Read(b, at, 4) == At(b, at) + 0x100 * At(b, at + 1) + 0x1_0000 * At(b, at + 2) + 0x100_0000 * At(b, at + 3)
    ensures Read(b, at, 8) == Read(b, at, 4) + 0x1_0000_0000 * Read(b, at + 4, 4)
    ensures Signed(Read(b, at, 8)) == Read(b, at, 8) - if b[at + 7] >= 0x80 then 0x1_0000_0000_0000_0000 else 0
  {
    FourBytes(b, at);
    FourBytes(b, at + 4);
    assert Read(b, at + 2, 6) == b[at + 2] + 0x100 * Read(b, at + 3, 5);
    assert Read(b, at, 8) == b[at] + 0x100 * (b[at + 1] + 0x100 * Read(b, at + 2, 6));
    assert Read(b, at + 3, 5) == b[at + 3] + 0x100 * Read(b, at + 4, 4);
  }

  lemma FourBytes(b: seq<Byte>, at: nat)
    requires at + 4 <= |b|
    ensures Read(b, at, 2) == At(b, at) + 0x100 * At(b, at + 1)
    ensures Read(b, at, 4) == At(b, at) + 0x100 * At(b, at + 1) + 0x1_0000 * At(b, at + 2) + 0x100_0000 * At(b, at + 3)
  {
    assert Read(b, at + 1, 1) == b[at + 1] + 0x100 * Read(b, at + 2, 0);
    assert Read(b, at + 3, 1) == b[at + 3] + 0x100 * Read(b, at + 4, 0);
    assert Read(b, at + 2, 2) == b[at + 2] + 0x100 * Read(b, at + 3, 1);
    assert Read(b, at + 1, 3) == b[at + 1] + 0x100 * Read(b, at + 2, 2);
  }
}
