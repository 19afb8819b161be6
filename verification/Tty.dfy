/**
 The terminal's receive ring: the interrupt handler may run between any two statements of the reader,
 and every byte it accepts is delivered once, in order.
 */
module Tty {
  import opened Machine

  const SIZE := 250

  /** `tty_init` stores the buffer's address 0x2106 into one-byte indices. */
  const START := 0x06

  /** The reader's next statement: the wait, the fetch, the tail's step, the count's decrement. */
  datatype At = Wait | Fetch | Step | Drop

  type Ring = r: seq<byte> | |r| == SIZE witness seq(SIZE, _ => 0)

  /** The cells, the reader's variable and place, and the history of both sides. */
  datatype State = State(buf: Ring, head: nat, tail: nat, count: nat, ch: byte, at: At,
                         accepted: seq<byte>, delivered: seq<byte>)

  function Init(buf: Ring): State { State(buf, START, START, 0, 0, Wait, [], []) }

  /** The handler: a byte that arrives when the ring is full is not taken. */
  function Interrupt(s: State, b: byte): State
    requires s.head < SIZE
  {
    if s.count < SIZE then
      s.(buf := s.buf[s.head := b], head := (s.head + 1) % SIZE, count := s.count + 1, accepted := s.accepted + [b])
    else s
  }

  /** One statement of `tty_getchar`; the byte counts as delivered with the last one. */
  function Reader(s: State): State
    requires s.tail < SIZE && (s.at == Drop ==> s.count > 0)
  {
    match s.at
    case Wait => if s.count == 0 then s else s.(at := Fetch)
    case Fetch => s.(ch := s.buf[s.tail], at := Step)
    case Step => s.(tail := (s.tail + 1) % SIZE, at := Drop)
    case Drop => s.(count := s.count - 1, at := Wait, delivered := s.delivered + [s.ch])
  }

  // ---- the invariant ----------------------------------------------------------------------------------

  /** Accepted bytes not yet delivered. */
  function Pending(s: State): seq<byte>
    requires |s.delivered| <= |s.accepted|
  {
    s.accepted[|s.delivered|..]
  }

  /** Where the oldest pending byte lies: behind the tail once the reader has stepped over it. */
  function First(s: State): int
    requires s.tail < SIZE
  {
    if s.at == Drop then (s.tail + SIZE - 1) % SIZE else s.tail
  }

  /** The ring cell `i` places on from `first`. */
  function Cell(first: int, i: int): (c: nat)
    requires 0 <= first < SIZE && 0 <= i
    ensures c < SIZE
  {
    (first + i) % SIZE
  }

  /** The counted cells hold the pending bytes in order, and the rest of the ring is free. */
  predicate Sound(s: State) {
    && s.tail < SIZE && s.head < SIZE && s.count <= SIZE
    && s.delivered <= s.accepted
    && |Pending(s)| == s.count
    && s.head == Cell(First(s), s.count)
    && (forall i :: 0 <= i < s.count ==> s.buf[Cell(First(s), i)] == Pending(s)[i])
    && (s.at != Wait ==> s.count > 0)
    && (s.at in {Step, Drop} ==> s.ch == Pending(s)[0])
  }

  lemma CellsDiffer(first: int, i: int, j: int)
    requires 0 <= first < SIZE && 0 <= i < j < SIZE
    ensures Cell(first, i) != Cell(first, j)
  {
  }

  lemma CellNext(first: int, i: int)
    requires 0 <= first < SIZE && 0 <= i
    ensures Cell(first, i + 1) == Cell((first + 1) % SIZE, i) == (Cell(first, i) + 1) % SIZE
  {
    ModStep(first + i);
    if first + 1 == SIZE { ModRound(i); }
  }

  lemma ModStep(x: nat)
    ensures (x + 1) % SIZE == (x % SIZE + 1) % SIZE
  {
    var q, r := x / SIZE, x % SIZE;
    assert x == q * SIZE + r;
    if r + 1 == SIZE { assert x + 1 == (q + 1) * SIZE; }
  }

  lemma ModRound(i: nat)
    ensures (SIZE + i) % SIZE == i % SIZE
  {
  }

  lemma InterruptKeeps(s: State, b: byte)
    requires Sound(s)
    ensures Sound(Interrupt(s, b))
  {
    if s.count < SIZE {
      var t := Interrupt(s, b);
      assert Pending(t) == Pending(s) + [b];
      CellNext(First(s), s.count);
      forall i | 0 <= i < t.count ensures t.buf[Cell(First(t), i)] == Pending(t)[i] {
        if i < s.count { CellsDiffer(First(s), i, s.count); }
      }
    }
  }

  lemma ReaderKeeps(s: State)
    requires Sound(s)
    ensures Sound(Reader(s))
  {
    var t := Reader(s);
    match s.at
    case Wait =>
    case Fetch => assert Cell(First(s), 0) == s.tail;
    case Step => assert First(t) == First(s);
    case Drop =>
      assert s.accepted[|s.delivered|] == Pending(s)[0];
      assert t.delivered <= t.accepted;
      assert Pending(t) == Pending(s)[1..];
      assert First(t) == (First(s) + 1) % SIZE;
      CellNext(First(s), t.count);
      forall i | 0 <= i < t.count ensures t.buf[Cell(First(t), i)] == Pending(t)[i] {
        CellNext(First(s), i);
      }
  }

  // ---- runs ----------------------------------------------------------------------------------------------

  datatype Event = Arrives(b: byte) | Reads

  /** All the code itself needs to go on, right or wrong. */
  predicate Running(s: State) {
    s.head < SIZE && s.tail < SIZE && s.count <= SIZE && (s.at != Wait ==> s.count > 0)
  }

  function Next(s: State, e: Event): (t: State)
    requires Running(s)
    ensures Running(t)
  {
    match e
    case Arrives(b) => Interrupt(s, b)
    case Reads => Reader(s)
  }

  lemma NextKeeps(s: State, e: Event)
    requires Sound(s)
    ensures Sound(Next(s, e))
  {
    match e
    case Arrives(b) => InterruptKeeps(s, b);
    case Reads => ReaderKeeps(s);
  }

  /** Any interleaving of arrivals and reader statements. */
  function Run(s: State, run: seq<Event>): (t: State)
    requires Running(s)
    ensures Running(t)
    decreases |run|
  {
    if run == [] then s else Run(Next(s, run[0]), run[1..])
  }

  lemma {:induction false} RunKeeps(s: State, run: seq<Event>)
    requires Sound(s)
    ensures Sound(Run(s, run))
    decreases |run|
  {
    if run != [] {
      NextKeeps(s, run[0]);
      RunKeeps(Next(s, run[0]), run[1..]);
    }
  }

  /**
   Main result: after every run from power-on, what was delivered is a prefix of what was accepted, and
   the bytes in between lie unharmed in the ring.
   */
  lemma DeliveredInOrder(buf: Ring, run: seq<Event>)
    ensures Sound(Init(buf))
    ensures var s := Run(Init(buf), run);
            s.delivered <= s.accepted && s.accepted == s.delivered + Pending(s) && |Pending(s)| == s.count &&
            forall i :: 0 <= i < s.count ==> s.buf[Cell(First(s), i)] == Pending(s)[i]
  {
    assert Pending(Init(buf)) == [];
    RunKeeps(Init(buf), run);
  }

  function Turns(run: seq<Event>): nat {
    if run == [] then 0 else (if run[0].Reads? then 1 else 0) + Turns(run[1..])
  }

  function Place(at: At): nat { match at case Wait => 0 case Fetch => 1 case Step => 2 case Drop => 3 }

  /** What is delivered or accepted stays so. */
  lemma {:induction false} HistoryGrows(s: State, run: seq<Event>)
    requires Sound(s)
    ensures s.delivered <= Run(s, run).delivered && s.accepted <= Run(s, run).accepted
    decreases |run|
  {
    if run != [] {
      NextKeeps(s, run[0]);
      HistoryGrows(Next(s, run[0]), run[1..]);
    }
  }

  /** A waiting reader with a byte pending gets it with its fourth statement, whatever arrives meanwhile. */
  lemma {:induction false} FourTurns(s: State, run: seq<Event>)
    requires Sound(s) && s.count > 0 && Place(s.at) + Turns(run) == 4
    ensures |Run(s, run).delivered| == |s.delivered| + 1 && Run(s, run).at == Wait
    decreases |run|
  {
    NextKeeps(s, run[0]);
    var t := Next(s, run[0]);
    if s.at == Drop && run[0].Reads? { NoTurns(t, run[1..]); } else { FourTurns(t, run[1..]); }
  }

  lemma {:induction false} NoTurns(s: State, run: seq<Event>)
    requires Sound(s) && Turns(run) == 0
    ensures Run(s, run).delivered == s.delivered && Run(s, run).at == s.at
    decreases |run|
  {
    if run != [] {
      NextKeeps(s, run[0]);
      NoTurns(Next(s, run[0]), run[1..]);
    }
  }

  lemma ReaderGetsOldest(s: State, run: seq<Event>)
    requires Sound(s) && s.at == Wait && s.count > 0 && Turns(run) == 4
    ensures Run(s, run).delivered == s.delivered + [Pending(s)[0]]
  {
    FourTurns(s, run);
    HistoryGrows(s, run);
    RunKeeps(s, run);
    var t := Run(s, run);
    assert s.accepted[|s.delivered|] == t.accepted[|s.delivered|] == t.delivered[|s.delivered|];
  }

  // ---- why the decrement must not be divided ------------------------------------------------------------

  /** The last statement as a load and a store, with an arrival in between. */
  function TornDrop(s: State, b: byte): State
    requires Sound(s) && s.at == Drop
  {
    Interrupt(s, b).(count := s.count - 1, at := Wait, delivered := s.delivered + [s.ch])
  }

  /** It goes wrong exactly when the arrival is accepted. */
  lemma TornDropForgets(s: State, b: byte)
    requires Sound(s) && s.at == Drop
    ensures Sound(TornDrop(s, b)) <==> s.count == SIZE
    ensures var t := TornDrop(s, b);
            |t.delivered| <= |t.accepted| && |Pending(t)| == t.count + if s.count == SIZE then 0 else 1
  {
    var t := TornDrop(s, b);
    if s.count == SIZE {
      assert Interrupt(s, b) == s;
      ReaderKeeps(s);
    } else {
      assert |t.accepted| - |t.delivered| == s.count;
    }
  }

  /** No run ever changes by how much the count is off. */
  lemma {:induction false} ShortStaysShort(s: State, run: seq<Event>)
    requires Running(s)
    ensures var t := Run(s, run); |t.accepted| - |t.delivered| - t.count == |s.accepted| - |s.delivered| - s.count
    decreases |run|
  {
    if run != [] { ShortStaysShort(Next(s, run[0]), run[1..]); }
  }

  /** So after the tear every later count is one short, and the ring is never sound again. */
  lemma NeverSoundAgain(s: State, b: byte, run: seq<Event>)
    requires Sound(s) && s.at == Drop && s.count < SIZE
    ensures Running(TornDrop(s, b))
    ensures var t := Run(TornDrop(s, b), run);
            |t.accepted| - |t.delivered| == t.count + 1 && !Sound(t)
  {
    TornDropForgets(s, b);
    ShortStaysShort(TornDrop(s, b), run);
  }

  /** If it was the only byte counted, the reader waits beside a pending byte until the next one arrives. */
  lemma TornDropHangs(s: State, b: byte, run: seq<Event>)
    requires Sound(s) && s.at == Drop && s.count == 1 && forall i :: 0 <= i < |run| ==> run[i] == Reads
    ensures var t := TornDrop(s, b);
            && |t.delivered| <= |t.accepted| && Pending(t) == [b] && Running(t) && Run(t, run) == t
  {
    var t := TornDrop(s, b);
    assert s.accepted == s.delivered + Pending(s) && |Pending(s)| == 1;
    assert t.accepted[|t.delivered|..] == [b];
    Waits(t, run);
  }

  lemma {:induction false} Waits(t: State, run: seq<Event>)
    requires Running(t) && t.at == Wait && t.count == 0 && forall i :: 0 <= i < |run| ==> run[i] == Reads
    ensures Run(t, run) == t
    decreases |run|
  {
    if run != [] { Waits(t, run[1..]); }
  }

  lemma TwoArrivals(t: State, x: byte, y: byte)
    requires Running(t)
    ensures Run(t, [Arrives(x), Arrives(y)]) == Interrupt(Interrupt(t, x), y)
  {
    var u := Interrupt(t, x);
    assert [Arrives(x), Arrives(y)][1..] == [Arrives(y)] && [Arrives(y)][1..] == [];
    assert Next(t, Arrives(x)) == u && Next(u, Arrives(y)) == Interrupt(u, y);
    assert Run(u, [Arrives(y)]) == Run(Interrupt(u, y), []);
  }

  /** Two places on from a head that is one short of full lies the tail. */
  lemma HeadMeetsTail(tail: nat, head: nat)
    requires tail < SIZE && head == Cell((tail + SIZE - 1) % SIZE, SIZE - 1)
    ensures ((head + 1) % SIZE + 1) % SIZE == tail
  {
  }

  /** And a ring that is full takes another byte, over the oldest one pending. */
  lemma TornDropLoses(s: State, b: byte, x: byte, y: byte)
    requires Sound(s) && s.at == Drop && s.count == SIZE - 1
    ensures Running(TornDrop(s, b))
    ensures var t := Run(TornDrop(s, b), [Arrives(x), Arrives(y)]);
            && |t.delivered| < |t.accepted| && Pending(t)[0] == Pending(s)[1] && t.at == Wait && t.buf[t.tail] == y
  {
    var t := TornDrop(s, b);
    HeadMeetsTail(s.tail, s.head);
    TwoArrivals(t, x, y);
    assert Pending(s)[1] == s.accepted[|s.delivered| + 1];
  }

  // ---- the driver ----------------------------------------------------------------------------------------

  /** The cells themselves, each method one statement or the whole handler. */
  class Driver {
    const buffer: array<byte>
    var head: nat
    var tail: nat
    var count: nat
    var character: byte

    predicate Valid()
      reads this
    {
      buffer.Length == SIZE && head < SIZE && tail < SIZE
    }

    /** The cells as part of a state with a given place and history. */
    ghost function Cells(at: At, accepted: seq<byte>, delivered: seq<byte>): State
      reads this, buffer
      requires Valid()
    {
      State(buffer[..], head, tail, count, character, at, accepted, delivered)
    }

    constructor ()
      ensures Valid() && fresh(buffer)
      ensures Cells(Wait, [], []) == Init(buffer[..])
    {
      buffer := new byte[SIZE];
      head, tail, count, character := START, START, 0, 0;
    }

    method Receive(data: byte, ghost s: State)
      requires Valid() && s == Cells(s.at, s.accepted, s.delivered)
      modifies this`head, this`count, buffer
      ensures Valid() && Cells(s.at, Interrupt(s, data).accepted, s.delivered) == Interrupt(s, data)
    {
      if count < SIZE {
        buffer[head] := data;
        head := (head + 1) % SIZE;
        count := count + 1;
      }
    }

    method FetchByte(ghost s: State)
      requires Valid() && s == Cells(Fetch, s.accepted, s.delivered)
      modifies this`character
      ensures Valid() && Cells(Step, s.accepted, s.delivered) == Reader(s)
    {
      character := buffer[tail];
    }

    method StepTail(ghost s: State)
      requires Valid() && s == Cells(Step, s.accepted, s.delivered)
      modifies this`tail
      ensures Valid() && Cells(Drop, s.accepted, s.delivered) == Reader(s)
    {
      tail := (tail + 1) % SIZE;
    }

    method DropCount(ghost s: State) returns (c: byte)
      requires Valid() && count > 0 && s == Cells(Drop, s.accepted, s.delivered)
      modifies this`count
      ensures Valid() && Cells(Wait, s.accepted, s.delivered + [c]) == Reader(s)
    {
      count := count - 1;
      c := character;
    }
  }
}
