/** Queues, messages and the per-queue views of a shared buffer of messages. */
module Messages {

  datatype Option<+T> = None | Some(value: T)

  /** A queue is identified by its topic, its broker and its number. */
  datatype MessageQueue = MessageQueue(topic: string, brokerName: string, queueId: int)

  /** A pulled message: the queue it came from, its offset there and the length of its body. */
  datatype Message = Message(queue: MessageQueue, offset: nat, bodySize: nat)

  /** One mebibyte: the size gates count whole ones. */
  const MIB: nat := 1024 * 1024

  predicate Distinct<T(==)>(s: seq<T>) {
    forall i, j :: 0 <= i < j < |s| ==> s[i] != s[j]
  }

  predicate IsBytes(s: seq<nat>) {
    forall i :: 0 <= i < |s| ==> s[i] < 256
  }

  /** The rows of one queue, in buffer order. */
  function RowsOf(q: MessageQueue, rows: seq<Message>): seq<Message> {
    if rows == [] then []
    else if rows[0].queue == q then [rows[0]] + RowsOf(q, rows[1..])
    else RowsOf(q, rows[1..])
  }

  /** The offsets of a list of rows. */
  function Offsets(rows: seq<Message>): (r: seq<nat>)
    ensures |r| == |rows|
    ensures forall i | 0 <= i < |rows| :: r[i] == rows[i].offset
  {
    seq(|rows|, i requires 0 <= i < |rows| => rows[i].offset)
  }

  /** The body bytes a list of rows keeps in memory. */
  function BodyBytes(rows: seq<Message>): nat {
    if rows == [] then 0 else rows[0].bodySize + BodyBytes(rows[1..])
  }

  lemma {:induction false} RowsOfConcat(q: MessageQueue, a: seq<Message>, b: seq<Message>)
    ensures RowsOf(q, a + b) == RowsOf(q, a) + RowsOf(q, b)
  {
    if a == [] {
      assert a + b == b;
    } else {
      assert (a + b)[1..] == a[1..] + b;
      RowsOfConcat(q, a[1..], b);
    }
  }

  lemma {:induction false} RowsOfBelong(q: MessageQueue, rows: seq<Message>)
    ensures forall m | m in RowsOf(q, rows) :: m.queue == q && m in rows
    ensures |RowsOf(q, rows)| <= |rows|
  {
    if rows != [] { RowsOfBelong(q, rows[1..]); }
  }

  /** Rows that all belong to one queue are that queue's rows, and nobody else's. */
  lemma {:induction false} RowsOfOwn(q: MessageQueue, p: MessageQueue, rows: seq<Message>)
    requires forall m | m in rows :: m.queue == q
    ensures RowsOf(p, rows) == if p == q then rows else []
  {
    if rows != [] { RowsOfOwn(q, p, rows[1..]); }
  }

  lemma {:induction false} BodyBytesConcat(a: seq<Message>, b: seq<Message>)
    ensures BodyBytes(a + b) == BodyBytes(a) + BodyBytes(b)
  {
    if a == [] {
      assert a + b == b;
    } else {
      assert (a + b)[1..] == a[1..] + b;
      BodyBytesConcat(a[1..], b);
    }
  }

  lemma OffsetsConcat(a: seq<Message>, b: seq<Message>)
    ensures Offsets(a + b) == Offsets(a) + Offsets(b)
  {
  }

  // ---- smallest and largest offsets ----

  predicate Least(m: nat, s: seq<nat>) {
    m in s && forall x | x in s :: m <= x
  }

  predicate Greatest(m: nat, s: seq<nat>) {
    m in s && forall x | x in s :: x <= m
  }

  function MinOf(s: seq<nat>): (m: nat)
    requires s != []
    ensures Least(m, s)
  {
    assert s == [s[0]] + s[1..];
    if |s| == 1 then s[0]
    else var r := MinOf(s[1..]); if s[0] <= r then s[0] else r
  }

  function MaxOf(s: seq<nat>): (m: nat)
    requires s != []
    ensures Greatest(m, s)
  {
    assert s == [s[0]] + s[1..];
    if |s| == 1 then s[0]
    else var r := MaxOf(s[1..]); if s[0] >= r then s[0] else r
  }

  lemma ExtremesAreUnique(s: seq<nat>, low: nat, high: nat)
    requires Least(low, s) && Greatest(high, s)
    ensures low == MinOf(s) && high == MaxOf(s) && (|s| == 1 ==> low == high)
  {
    if |s| == 1 { assert s == [s[0]]; }
  }
}
