/**
 One channel: its two queues and the history of calls on it (src/chan.c, src/chan.h:28-34).

 The queues are what the source keeps.  `writes`, `readCalls` and `deliveries` are history: the values of all
 write calls in call order, the number of read calls, and who got which write.
 */
module Channels {

  type Pid = nat
  type Value = int

  /** An entry of endQ: call is the position of the call among the writes, or reads, of the channel. */
  datatype ChanEnd = Writer(pid: Pid, call: nat, data: Value) | Reader(pid: Pid, call: nat)

  /** An entry of altQ or of the tree of time guards: the guard with that key in the ALT that process pid is in. */
  datatype GuardRef = GuardRef(pid: Pid, key: nat)

  /** The ALT calls of all processes are numbered. */
  datatype AltId = AltId(pid: Pid, number: nat)

  /** Who received a value: the read call of that number, or a guard of an ALT. */
  datatype Taker = ByRead(call: nat) | ByAlt(alt: AltId, key: nat)

  datatype Delivery = Delivery(write: nat, value: Value, to: Taker)

  datatype Chan = Chan(endQ: seq<ChanEnd>, altQ: seq<GuardRef>,
                       writes: seq<Value>, readCalls: nat, deliveries: seq<Delivery>)

  const NewChan := Chan([], [], [], 0, [])

  predicate WriterFirst(ch: Chan) { ch.endQ != [] && ch.endQ[0].Writer? }

  predicate ReaderFirst(ch: Chan) { ch.endQ != [] && ch.endQ[0].Reader? }

  // ---------------------------------------------------------------- what one call does to the channel

  /** A write that an enabled ALT accepts (src/chan.c:61-72). */
  function GiveAlt(ch: Chan, v: Value, alt: AltId, key: nat): Chan {
    ch.(writes := ch.writes + [v], deliveries := ch.deliveries + [Delivery(|ch.writes|, v, ByAlt(alt, key))])
  }

  /** A write that meets a waiting reader (src/chan.c:74-91). */
  function GiveReader(ch: Chan, v: Value): Chan
    requires ReaderFirst(ch)
  {
    ch.(writes := ch.writes + [v], endQ := ch.endQ[1..],
        deliveries := ch.deliveries + [Delivery(|ch.writes|, v, ByRead(ch.endQ[0].call))])
  }

  /** A write that has to wait (src/chan.c:93-102). */
  function QueueWriter(ch: Chan, p: Pid, v: Value): Chan {
    ch.(writes := ch.writes + [v], endQ := ch.endQ + [Writer(p, |ch.writes|, v)])
  }

  /** A read that meets a waiting writer (src/chan.c:124-142). */
  function TakeWriter(ch: Chan): Chan
    requires WriterFirst(ch)
  {
    ch.(readCalls := ch.readCalls + 1, endQ := ch.endQ[1..],
        deliveries := ch.deliveries + [Delivery(ch.endQ[0].call, ch.endQ[0].data, ByRead(ch.readCalls))])
  }

  /** A read that has to wait (src/chan.c:144-153). */
  function QueueReader(ch: Chan, p: Pid): Chan {
    ch.(readCalls := ch.readCalls + 1, endQ := ch.endQ + [Reader(p, ch.readCalls)])
  }

  /** An ALT whose ready guard is chosen takes the waiting writer (src/chan.c:190-211). */
  function AltTake(ch: Chan, alt: AltId, key: nat): Chan
    requires WriterFirst(ch)
  {
    ch.(endQ := ch.endQ[1..], deliveries := ch.deliveries + [Delivery(ch.endQ[0].call, ch.endQ[0].data, ByAlt(alt, key))])
  }

  // ---------------------------------------------------------------- views of the history

  function Iota(n: nat): seq<nat> { if n == 0 then [] else Iota(n - 1) + [n - 1] }

  function Cnt<T(==)>(s: seq<T>, x: T): nat {
    if s == [] then 0 else (if s[0] == x then 1 else 0) + Cnt(s[1..], x)
  }

  function WritesOf(ds: seq<Delivery>): seq<nat> {
    if ds == [] then [] else WritesOf(ds[..|ds| - 1]) + [ds[|ds| - 1].write]
  }

  function ReadsOf(ds: seq<Delivery>): seq<nat> {
    if ds == [] then []
    else ReadsOf(ds[..|ds| - 1]) + if ds[|ds| - 1].to.ByRead? then [ds[|ds| - 1].to.call] else []
  }

  /** The keys with which an ALT received values here. */
  function AltKeys(ds: seq<Delivery>, alt: AltId): seq<nat> {
    if ds == [] then []
    else
      var to := ds[|ds| - 1].to;
      AltKeys(ds[..|ds| - 1], alt) + if to.ByAlt? && to.alt == alt then [to.key] else []
  }

  function WriterCalls(q: seq<ChanEnd>): seq<nat> {
    if q == [] then [] else (if q[0].Writer? then [q[0].call] else []) + WriterCalls(q[1..])
  }

  function ReaderCalls(q: seq<ChanEnd>): seq<nat> {
    if q == [] then [] else (if q[0].Reader? then [q[0].call] else []) + ReaderCalls(q[1..])
  }

  /** The accounts of a channel: which writes are delivered and which wait, which reads are served and which wait. */
  datatype Books = Books(delivered: seq<nat>, waiting: seq<nat>, written: nat, served: seq<nat>, queued: seq<nat>, asked: nat)

  function BooksOf(ch: Chan): Books {
    Books(WritesOf(ch.deliveries), WriterCalls(ch.endQ), |ch.writes|,
          ReadsOf(ch.deliveries), ReaderCalls(ch.endQ), ch.readCalls)
  }

  // ---------------------------------------------------------------- what every call keeps

  ghost predicate AllWriters(q: seq<ChanEnd>) { q != [] ==> q[0].Writer? && AllWriters(q[1..]) }

  ghost predicate AllReaders(q: seq<ChanEnd>) { q != [] ==> q[0].Reader? && AllReaders(q[1..]) }

  ghost predicate OneKind(q: seq<ChanEnd>) { AllWriters(q) || AllReaders(q) }

  /** The value that each queue entry and delivery holds is the one that was written by that call. */
  ghost predicate GenuineQ(q: seq<ChanEnd>, writes: seq<Value>) {
    q != [] ==> (q[0].Writer? ==> q[0].call < |writes| && q[0].data == writes[q[0].call]) && GenuineQ(q[1..], writes)
  }

  ghost predicate GenuineD(ds: seq<Delivery>, writes: seq<Value>) {
    ds != [] ==>
      var d := ds[|ds| - 1];
      d.write < |writes| && d.value == writes[d.write] && GenuineD(ds[..|ds| - 1], writes)
  }

  /** Strictly increasing, and below n. */
  ghost predicate Rising(q: seq<nat>, n: nat) {
    q != [] ==> q[0] < n && (|q| > 1 ==> q[0] < q[1]) && Rising(q[1..], n)
  }

  /** Every write call was delivered once or waits once, and those that wait do so in call order; the reads were served in call order, and the others wait in
      call order. */
  ghost predicate Balanced(b: Books) {
    && (forall x: nat :: Cnt(b.delivered, x) + Cnt(b.waiting, x) == if x < b.written then 1 else 0)
    && Rising(b.waiting, b.written)
    && b.served + b.queued == Iota(b.asked)
    && (b.waiting == [] || b.queued == [])
  }

  ghost predicate ChanInv(ch: Chan) {
    && OneKind(ch.endQ)
    && GenuineQ(ch.endQ, ch.writes)
    && GenuineD(ch.deliveries, ch.writes)
    && Balanced(BooksOf(ch))
  }

  /** The writes were delivered in call order, and the others wait in call order. */
  ghost predicate Fifo(b: Books) { b.delivered + b.waiting == Iota(b.written) }

  // ---------------------------------------------------------------- queues and histories grow and shrink

  lemma {:induction false} Append(q: seq<ChanEnd>, e: ChanEnd)
    ensures WriterCalls(q + [e]) == WriterCalls(q) + if e.Writer? then [e.call] else []
    ensures ReaderCalls(q + [e]) == ReaderCalls(q) + if e.Reader? then [e.call] else []
  {
    if q == [] {
      assert q + [e] == [e] && [e][1..] == [];
      assert WriterCalls([e]) == (if e.Writer? then [e.call] else []) + WriterCalls([]);
      assert ReaderCalls([e]) == (if e.Reader? then [e.call] else []) + ReaderCalls([]);
    } else {
      var t := q[1..];
      assert (q + [e])[0] == q[0] && (q + [e])[1..] == t + [e];
      Append(t, e);
      var w, r := if e.Writer? then [e.call] else [], if e.Reader? then [e.call] else [];
      var w0, r0 := if q[0].Writer? then [q[0].call] else [], if q[0].Reader? then [q[0].call] else [];
      assert w0 + (WriterCalls(t) + w) == (w0 + WriterCalls(t)) + w;
      assert r0 + (ReaderCalls(t) + r) == (r0 + ReaderCalls(t)) + r;
    }
  }

  lemma {:induction false} AppendKind(q: seq<ChanEnd>, e: ChanEnd)
    ensures AllWriters(q + [e]) <==> AllWriters(q) && e.Writer?
    ensures AllReaders(q + [e]) <==> AllReaders(q) && e.Reader?
  {
    if q == [] {
      assert q + [e] == [e] && [e][1..] == [];
    } else {
      assert (q + [e])[1..] == q[1..] + [e];
      AppendKind(q[1..], e);
    }
  }

  lemma {:induction false} Grow(q: seq<ChanEnd>, e: ChanEnd, writes: seq<Value>, v: Value)
    requires GenuineQ(q, writes)
    ensures GenuineQ(q, writes + [v])
    ensures e.Reader? ==> GenuineQ(q + [e], writes)
    ensures e.Writer? && e.call == |writes| && e.data == v ==> GenuineQ(q + [e], writes + [v])
  {
    if q == [] {
      assert q + [e] == [e];
      assert [e][1..] == [];
    } else {
      assert (q + [e])[1..] == q[1..] + [e];
      Grow(q[1..], e, writes, v);
    }
  }

  lemma {:induction false} GrowD(ds: seq<Delivery>, writes: seq<Value>, v: Value)
    requires GenuineD(ds, writes)
    ensures GenuineD(ds, writes + [v])
  {
    if ds != [] { GrowD(ds[..|ds| - 1], writes, v); }
  }

  lemma {:induction false} Delivered(ds: seq<Delivery>, d: Delivery)
    ensures WritesOf(ds + [d]) == WritesOf(ds) + [d.write]
    ensures ReadsOf(ds + [d]) == ReadsOf(ds) + if d.to.ByRead? then [d.to.call] else []
  {
    assert (ds + [d])[..|ds|] == ds;
  }

  lemma {:induction false} DeliveredTo(ds: seq<Delivery>, d: Delivery, alt: AltId)
    ensures AltKeys(ds + [d], alt) == AltKeys(ds, alt) + if d.to.ByAlt? && d.to.alt == alt then [d.to.key] else []
  {
    assert (ds + [d])[..|ds|] == ds;
  }

  lemma {:induction false} DeliveredGenuine(ds: seq<Delivery>, d: Delivery, writes: seq<Value>)
    requires GenuineD(ds, writes) && d.write < |writes| && d.value == writes[d.write]
    ensures GenuineD(ds + [d], writes)
  {
    assert (ds + [d])[..|ds|] == ds;
  }

  lemma {:induction false} OnlyKind(q: seq<ChanEnd>)
    ensures AllWriters(q) ==> ReaderCalls(q) == [] && |WriterCalls(q)| == |q|
    ensures AllReaders(q) ==> WriterCalls(q) == [] && |ReaderCalls(q)| == |q|
  {
    if q != [] { OnlyKind(q[1..]); }
  }

  // ---------------------------------------------------------------- the accounts

  lemma {:induction false} IotaLen(n: nat)
    ensures |Iota(n)| == n
  {
    if n > 0 { IotaLen(n - 1); }
  }

  lemma {:induction false} IotaAt(n: nat, i: nat)
    requires i < n
    ensures |Iota(n)| == n && Iota(n)[i] == i
  {
    IotaLen(n - 1);
    if i < n - 1 { IotaAt(n - 1, i); }
  }

  lemma {:induction false} CntCat<T>(a: seq<T>, b: seq<T>, x: T)
    ensures Cnt(a + b, x) == Cnt(a, x) + Cnt(b, x)
  {
    if a == [] {
      assert a + b == b;
    } else {
      assert (a + b)[1..] == a[1..] + b;
      CntCat(a[1..], b, x);
    }
  }

  lemma CntOne<T>(x: T, y: T)
    ensures Cnt([x], y) == if x == y then 1 else 0
  {
    assert [x][1..] == [];
  }

  lemma {:induction false} IotaNext(a: seq<nat>, b: seq<nat>, n: nat)
    ensures a + (b + [n]) == Iota(n + 1) <==> a + b == Iota(n)
  {
    assert a + (b + [n]) == (a + b) + [n];
    assert ((a + b) + [n])[..|a + b|] == a + b;
    assert (Iota(n) + [n])[..|Iota(n)|] == Iota(n);
    if a + (b + [n]) == Iota(n + 1) {
      assert |a + b| == |Iota(n)|;
    }
  }

  lemma {:induction false} RisingNext(q: seq<nat>, n: nat)
    requires Rising(q, n)
    ensures Rising(q, n + 1) && Rising(q + [n], n + 1)
  {
    if q == [] {
      assert q + [n] == [n] && [n][1..] == [];
    } else {
      RisingNext(q[1..], n);
      assert (q + [n])[1..] == q[1..] + [n];
    }
  }

  lemma {:induction false} RisingFirst(q: seq<nat>, n: nat, i: nat)
    requires Rising(q, n) && i < |q|
    ensures q[0] <= q[i]
  {
    if i > 0 { RisingFirst(q[1..], n, i - 1); }
  }

  /** A write is queued, or delivered at once. */
  lemma {:induction false} BooksWrite(b: Books)
    requires Balanced(b)
    ensures b.queued == [] ==> Balanced(b.(waiting := b.waiting + [b.written], written := b.written + 1))
    ensures Balanced(b.(delivered := b.delivered + [b.written], written := b.written + 1))
  {
    RisingNext(b.waiting, b.written);
    forall x: nat ensures Cnt(b.delivered + [b.written], x) == Cnt(b.delivered, x) + (if x == b.written then 1 else 0) {
      CntCat(b.delivered, [b.written], x);
      CntOne(b.written, x);
    }
    forall x: nat ensures Cnt(b.waiting + [b.written], x) == Cnt(b.waiting, x) + (if x == b.written then 1 else 0) {
      CntCat(b.waiting, [b.written], x);
      CntOne(b.written, x);
    }
  }

  /** A write delivered at once keeps call order exactly if no other waits. */
  lemma {:induction false} BooksOvertake(b: Books)
    ensures Fifo(b.(delivered := b.delivered + [b.written], written := b.written + 1)) <==> Fifo(b) && b.waiting == []
  {
    var a, w, n := b.delivered, b.waiting, b.written;
    if w == [] {
      IotaNext(a, w, n);
      assert a + [] == a && (a + [n]) + [] == a + ([] + [n]);
    } else {
      assert ((a + [n]) + w)[|a|] == n;
      IotaLen(n + 1);
      if |a| < n { IotaAt(n + 1, |a|); }
    }
  }

  /** The first waiting write is delivered. */
  lemma {:induction false} BooksDeliver(b: Books, x: nat, rest: seq<nat>)
    requires b.waiting == [x] + rest
    ensures Balanced(b) ==> Balanced(b.(delivered := b.delivered + [x], waiting := rest))
    ensures Fifo(b.(delivered := b.delivered + [x], waiting := rest)) <==> Fifo(b)
  {
    assert b.waiting[1..] == rest;
    forall y: nat ensures Cnt(b.delivered + [x], y) + Cnt(rest, y) == Cnt(b.delivered, y) + Cnt(b.waiting, y) {
      CntCat(b.delivered, [x], y);
      CntCat([x], rest, y);
    }
    assert b.delivered + ([x] + rest) == (b.delivered + [x]) + rest;
  }

  /** A read is served at once, or queued; the first queued read is served. */
  lemma {:induction false} BooksRead(b: Books)
    requires Balanced(b)
    ensures b.queued == [] ==> Balanced(b.(served := b.served + [b.asked], asked := b.asked + 1))
    ensures b.waiting == [] ==> Balanced(b.(queued := b.queued + [b.asked], asked := b.asked + 1))
  {
    IotaNext(b.served, b.queued, b.asked);
    if b.queued == [] {
      assert b.served + [] == b.served && (b.served + [b.asked]) + [] == b.served + ([] + [b.asked]);
    }
  }

  lemma BooksServe(b: Books, x: nat, rest: seq<nat>)
    requires Balanced(b) && b.queued == [x] + rest
    ensures Balanced(b.(served := b.served + [x], queued := rest))
  {
    assert b.served + ([x] + rest) == (b.served + [x]) + rest;
  }

  // ---------------------------------------------------------------- every call keeps the channel invariant

  /** An ALT that accepts a write overtakes the writers that wait already: exactly then call order is lost. */
  lemma {:induction false} GiveAltKeeps(ch: Chan, v: Value, alt: AltId, key: nat)
    requires ChanInv(ch)
    ensures ChanInv(GiveAlt(ch, v, alt, key))
    ensures Fifo(BooksOf(GiveAlt(ch, v, alt, key))) <==> Fifo(BooksOf(ch)) && !WriterFirst(ch)
  {
    var b := BooksOf(ch);
    var d := Delivery(b.written, v, ByAlt(alt, key));
    Delivered(ch.deliveries, d);
    GrowD(ch.deliveries, ch.writes, v);
    DeliveredGenuine(ch.deliveries, d, ch.writes + [v]);
    Grow(ch.endQ, Reader(0, 0), ch.writes, v);
    BooksWrite(b);
    BooksOvertake(b);
    OnlyKind(ch.endQ);
    assert ReadsOf(ch.deliveries) + [] == ReadsOf(ch.deliveries);
    assert BooksOf(GiveAlt(ch, v, alt, key)) == b.(delivered := b.delivered + [b.written], written := b.written + 1);
  }

  lemma {:induction false} GiveReaderKeeps(ch: Chan, v: Value)
    requires ChanInv(ch) && ReaderFirst(ch)
    ensures ChanInv(GiveReader(ch, v))
    ensures Fifo(BooksOf(GiveReader(ch, v))) <==> Fifo(BooksOf(ch))
  {
    var b := BooksOf(ch);
    var e := ch.endQ[0];
    var d := Delivery(b.written, v, ByRead(e.call));
    Delivered(ch.deliveries, d);
    GrowD(ch.deliveries, ch.writes, v);
    DeliveredGenuine(ch.deliveries, d, ch.writes + [v]);
    Grow(ch.endQ, e, ch.writes, v);
    OnlyKind(ch.endQ);
    BooksWrite(b);
    BooksOvertake(b);
    var b' := b.(delivered := b.delivered + [b.written], written := b.written + 1);
    BooksServe(b', e.call, ReaderCalls(ch.endQ[1..]));
    assert BooksOf(GiveReader(ch, v)) == b'.(served := b.served + [e.call], queued := ReaderCalls(ch.endQ[1..]));
  }

  lemma {:induction false} QueueWriterKeeps(ch: Chan, p: Pid, v: Value)
    requires ChanInv(ch) && !ReaderFirst(ch)
    ensures ChanInv(QueueWriter(ch, p, v))
    ensures Fifo(BooksOf(QueueWriter(ch, p, v))) <==> Fifo(BooksOf(ch))
  {
    var b := BooksOf(ch);
    var e := Writer(p, b.written, v);
    Append(ch.endQ, e);
    AppendKind(ch.endQ, e);
    Grow(ch.endQ, e, ch.writes, v);
    GrowD(ch.deliveries, ch.writes, v);
    OnlyKind(ch.endQ);
    BooksWrite(b);
    IotaNext(b.delivered, b.waiting, b.written);
    assert b.queued + [] == b.queued;
    assert BooksOf(QueueWriter(ch, p, v)) == b.(waiting := b.waiting + [b.written], written := b.written + 1);
  }

  /** The first entry is the earliest of the writes that wait. */
  ghost predicate Earliest(ch: Chan)
    requires WriterFirst(ch)
  {
    forall i {:trigger WriterCalls(ch.endQ)[i]} :: 0 <= i < |WriterCalls(ch.endQ)| ==> ch.endQ[0].call <= WriterCalls(ch.endQ)[i]
  }

  /** One more delivery: the write waiting first, with the value written by that call, to that taker. */
  ghost predicate Served(ch: Chan, ch': Chan, to: Taker)
    requires WriterFirst(ch)
  {
    var w := ch.endQ[0].call;
    w < |ch.writes| && ch'.deliveries == ch.deliveries + [Delivery(w, ch.writes[w], to)]
  }

  lemma {:induction false} FirstIsEarliest(ch: Chan)
    requires ChanInv(ch) && WriterFirst(ch)
    ensures Earliest(ch)
  {
    var b := BooksOf(ch);
    assert b.waiting[0] == ch.endQ[0].call;
    forall i | 0 <= i < |b.waiting| ensures ch.endQ[0].call <= b.waiting[i] { RisingFirst(b.waiting, b.written, i); }
  }

  /** What is delivered is the earliest write that waits, with the value that it wrote. */
  lemma {:induction false} TakeWriterKeeps(ch: Chan)
    requires ChanInv(ch) && WriterFirst(ch)
    ensures ChanInv(TakeWriter(ch))
    ensures Earliest(ch) && Served(ch, TakeWriter(ch), ByRead(ch.readCalls))
    ensures Fifo(BooksOf(TakeWriter(ch))) <==> Fifo(BooksOf(ch))
  {
    var b := BooksOf(ch);
    var e := ch.endQ[0];
    var d := Delivery(e.call, e.data, ByRead(b.asked));
    FirstIsEarliest(ch);
    Delivered(ch.deliveries, d);
    DeliveredGenuine(ch.deliveries, d, ch.writes);
    OnlyKind(ch.endQ);
    BooksRead(b);
    var b' := b.(served := b.served + [b.asked], asked := b.asked + 1);
    BooksDeliver(b', e.call, WriterCalls(ch.endQ[1..]));
    assert BooksOf(TakeWriter(ch)) == b'.(delivered := b.delivered + [e.call], waiting := WriterCalls(ch.endQ[1..]));
  }

  lemma {:induction false} QueueReaderKeeps(ch: Chan, p: Pid)
    requires ChanInv(ch) && !WriterFirst(ch)
    ensures ChanInv(QueueReader(ch, p))
    ensures Fifo(BooksOf(QueueReader(ch, p))) <==> Fifo(BooksOf(ch))
  {
    var b := BooksOf(ch);
    var e := Reader(p, b.asked);
    Append(ch.endQ, e);
    AppendKind(ch.endQ, e);
    Grow(ch.endQ, e, ch.writes, 0);
    OnlyKind(ch.endQ);
    BooksRead(b);
    assert b.waiting + [] == b.waiting;
    assert BooksOf(QueueReader(ch, p)) == b.(queued := b.queued + [b.asked], asked := b.asked + 1);
  }

  lemma {:induction false} AltTakeKeeps(ch: Chan, alt: AltId, key: nat)
    requires ChanInv(ch) && WriterFirst(ch)
    ensures ChanInv(AltTake(ch, alt, key))
    ensures Earliest(ch) && Served(ch, AltTake(ch, alt, key), ByAlt(alt, key))
    ensures Fifo(BooksOf(AltTake(ch, alt, key))) <==> Fifo(BooksOf(ch))
  {
    var b := BooksOf(ch);
    var e := ch.endQ[0];
    var d := Delivery(e.call, e.data, ByAlt(alt, key));
    FirstIsEarliest(ch);
    Delivered(ch.deliveries, d);
    DeliveredGenuine(ch.deliveries, d, ch.writes);
    OnlyKind(ch.endQ);
    BooksDeliver(b, e.call, WriterCalls(ch.endQ[1..]));
    assert b.served + [] == b.served;
    assert BooksOf(AltTake(ch, alt, key)) == b.(delivered := b.delivered + [e.call], waiting := WriterCalls(ch.endQ[1..]));
  }

  // ---------------------------------------------------------------- without ALT: the k-th write meets the k-th read

  ghost predicate NoAlts(ds: seq<Delivery>) { ds != [] ==> ds[|ds| - 1].to.ByRead? && NoAlts(ds[..|ds| - 1]) }

  /** The k-th delivery is the k-th write to the k-th read, and endQ is the unmatched rest of the longer of the two call
      sequences, in order. */
  ghost predicate Matched(ch: Chan) {
    var m := if |ch.writes| < ch.readCalls then |ch.writes| else ch.readCalls;
    && |ch.deliveries| == m
    && (forall k :: 0 <= k < m ==> ch.deliveries[k] == Delivery(k, ch.writes[k], ByRead(k)))
    && (|ch.writes| >= ch.readCalls ==> AllWriters(ch.endQ) && |ch.endQ| == |ch.writes| - ch.readCalls)
    && (|ch.writes| <= ch.readCalls ==> AllReaders(ch.endQ) && |ch.endQ| == ch.readCalls - |ch.writes|)
    && (forall k :: 0 <= k < |ch.endQ| ==> ch.endQ[k].call == m + k)
  }

  /** Without ALT, and with the writes in order, the calls are matched in order. */
  lemma {:induction false} Rendezvous(ch: Chan)
    requires ChanInv(ch) && Fifo(BooksOf(ch)) && NoAlts(ch.deliveries)
    ensures Matched(ch)
  {
    HistoryLen(ch.deliveries);
    OnlyKind(ch.endQ);
    IotaLen(|ch.writes|);
    IotaLen(ch.readCalls);
    EmptyKinds(ch.endQ);
    forall k | 0 <= k < |ch.deliveries| ensures ch.deliveries[k] == Delivery(k, ch.writes[k], ByRead(k)) { DeliveryAt(ch, k); }
    forall k | 0 <= k < |ch.endQ| ensures ch.endQ[k].call == |ch.deliveries| + k { EntryAt(ch, k); }
  }

  lemma {:induction false} DeliveryAt(ch: Chan, k: nat)
    requires ChanInv(ch) && Fifo(BooksOf(ch)) && NoAlts(ch.deliveries) && k < |ch.deliveries|
    ensures k < |ch.writes| && ch.deliveries[k] == Delivery(k, ch.writes[k], ByRead(k))
  {
    var b := BooksOf(ch);
    HistoryLen(ch.deliveries);
    HistoryAt(ch.deliveries, ch.writes, k);
    IotaLen(b.written);
    IotaLen(b.asked);
    IotaAt(b.written, k);
    IotaAt(b.asked, k);
    assert (b.delivered + b.waiting)[k] == b.delivered[k];
    assert (b.served + b.queued)[k] == b.served[k];
  }

  lemma {:induction false} EntryAt(ch: Chan, k: nat)
    requires ChanInv(ch) && Fifo(BooksOf(ch)) && NoAlts(ch.deliveries) && k < |ch.endQ|
    ensures ch.endQ[k].call == |ch.deliveries| + k
  {
    var b, m := BooksOf(ch), |ch.deliveries|;
    HistoryLen(ch.deliveries);
    OnlyKind(ch.endQ);
    CallAt(ch.endQ, k);
    IotaLen(b.written);
    IotaLen(b.asked);
    if AllWriters(ch.endQ) {
      IotaAt(b.written, m + k);
      assert (b.delivered + b.waiting)[m + k] == b.waiting[k];
    } else {
      IotaAt(b.asked, m + k);
      assert (b.served + b.queued)[m + k] == b.queued[k];
    }
  }

  lemma {:induction false} EmptyKinds(q: seq<ChanEnd>)
    ensures q == [] ==> AllWriters(q) && AllReaders(q)
  {
  }

  lemma {:induction false} HistoryLen(ds: seq<Delivery>)
    requires NoAlts(ds)
    ensures |WritesOf(ds)| == |ReadsOf(ds)| == |ds|
  {
    if ds != [] { HistoryLen(ds[..|ds| - 1]); }
  }

  lemma {:induction false} HistoryAt(ds: seq<Delivery>, writes: seq<Value>, k: nat)
    requires NoAlts(ds) && GenuineD(ds, writes) && k < |ds|
    ensures |WritesOf(ds)| == |ReadsOf(ds)| == |ds|
    ensures ds[k].to.ByRead? && WritesOf(ds)[k] == ds[k].write && ReadsOf(ds)[k] == ds[k].to.call
    ensures ds[k].write < |writes| && ds[k].value == writes[ds[k].write]
  {
    HistoryLen(ds[..|ds| - 1]);
    if k < |ds| - 1 { HistoryAt(ds[..|ds| - 1], writes, k); }
  }

  lemma {:induction false} CallAt(q: seq<ChanEnd>, k: nat)
    requires k < |q|
    ensures AllWriters(q) ==> k < |WriterCalls(q)| && WriterCalls(q)[k] == q[k].call
    ensures AllReaders(q) ==> k < |ReaderCalls(q)| && ReaderCalls(q)[k] == q[k].call
  {
    if k > 0 { CallAt(q[1..], k - 1); }
  }
}
