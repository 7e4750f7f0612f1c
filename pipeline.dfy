/**
  The producer and consumer threads of the program, run one step at a time
  over one shared ProdCons buffer. A producer step is one call of Store in
  the producer's counting loop (or the final Store of the end marker); a
  consumer step is one call of Get in the consumer's loop. A step may run
  only when the buffer would not make its thread wait, and Run lets a
  scheduler choose freely between the steps that may run, so every
  interleaving the two threads can show is one run of Run.
 */
module Pipeline {
  import opened Ring

  /** The end-of-stream marker the producer stores last. */
  const LIMIT: int := -1

  /** Number of data items the program's producer stores. */
  const COUNT: nat := 11

  /** The data items 0, 1, ..., k - 1, in order. */
  function Range(k: nat): (r: seq<int>)
    ensures |r| == k
    ensures forall i :: 0 <= i < k ==> r[i] == i
  {
    if k == 0 then [] else Range(k - 1) + [k - 1]
  }

  /**
    The marker is not a data item, so in a prefix of the producer's stream
    the marker can only be the very last item of the whole stream.
   */
  lemma MarkerEndsStream(n: nat, finished: bool, popped: seq<int>, rest: seq<int>)
    requires popped + rest == Range(n) + if finished then [LIMIT] else []
    requires popped != [] && popped[|popped| - 1] == LIMIT
    ensures finished && rest == []
    ensures popped[..|popped| - 1] == Range(n)
  {
    var stream := Range(n) + if finished then [LIMIT] else [];
    var j := |popped| - 1;
    assert stream[j] == LIMIT;
    assert popped[..j] == stream[..j];
  }

  /** The producer thread: its loop counter and whether it has stored the marker. */
  class Producer {
    const count: nat
    var n: nat
    var finished: bool

    /** The counter never passes `count`, and the marker comes only after the last item. */
    ghost predicate Valid()
      reads this
    {
      n <= count && (finished ==> n == count)
    }

    /** Everything this producer has stored so far, in order. */
    ghost function Pushed(): seq<int>
      reads this
    {
      Range(n) + if finished then [LIMIT] else []
    }

    /** A producer about to run its loop from n = 0. */
    constructor (count: nat)
      ensures Valid() && this.count == count && n == 0 && !finished
      ensures Pushed() == []
    {
      this.count := count;
      n := 0;
      finished := false;
    }

    /**
      One Store of the producer: item `n` while `n < count`, then the
      marker. The buffer must not be full, since there the source waits.
     */
    method Step(b: ProdCons) returns (stored: int)
      requires Valid() && !finished
      requires b.Valid() && !b.IsFull()
      modifies this, b`write, b.buffer
      ensures Valid()
      ensures stored == if old(n) < count then old(n) else LIMIT
      ensures n == if old(n) < count then old(n) + 1 else old(n)
      ensures finished <==> old(n) == count
      ensures Pushed() == old(Pushed()) + [stored]
      ensures b.Valid() && b.read == old(b.read)
      ensures b.Contents() == old(b.Contents()) + [stored]
    {
      if n < count {
        stored := n;
        b.Store(n);
        n := n + 1;
      } else {
        stored := LIMIT;
        b.Store(LIMIT);
        finished := true;
      }
    }
  }

  /** The consumer thread: what it has output and whether it has seen the marker. */
  class Consumer {
    var output: seq<int>
    var finished: bool

    /** Everything this consumer has taken from the buffer so far, in order. */
    ghost function Popped(): seq<int>
      reads this
    {
      output + if finished then [LIMIT] else []
    }

    /** A consumer that has not taken anything yet. */
    constructor ()
      ensures output == [] && !finished
      ensures Popped() == []
    {
      output := [];
      finished := false;
    }

    /**
      One Get of the consumer: the marker ends the loop and is not output,
      every other item is output. The buffer must not be empty, since there
      the source waits.
     */
    method Step(b: ProdCons) returns (d: int)
      requires !finished
      requires b.Valid() && !b.IsEmpty()
      modifies this, b`read
      ensures d == old(b.Contents())[0]
      ensures b.Valid() && b.Contents() == old(b.Contents())[1..]
      ensures b.write == old(b.write)
      ensures finished <==> d == LIMIT
      ensures output == if d == LIMIT then old(output) else old(output) + [d]
      ensures Popped() == old(Popped()) + [d]
    {
      d := b.Get();
      if d == LIMIT {
        finished := true;
      } else {
        output := output + [d];
      }
    }
  }

  /**
    What holds between the buffer and the two threads at every moment: the
    consumer's gets followed by what is still queued are exactly the
    producer's stores, the output holds no marker, and a consumer that has
    seen the marker has output every data item and left the buffer empty.
   */
  ghost predicate Coherent(b: ProdCons, p: Producer, c: Consumer)
    reads b, b.buffer, p, c
  {
    && b.Valid() && p.Valid()
    && c.Popped() + b.Contents() == p.Pushed()
    && LIMIT !in c.output
    && (c.finished ==> p.finished && b.Contents() == [] && c.output == Range(p.count))
  }

  /** Work left: each store still to come is queued and then got, each queued item got. */
  ghost function Remaining(b: ProdCons, p: Producer): nat
    reads b, b.buffer, p
    requires b.Valid() && p.Valid()
  {
    2 * (p.count + 1 - |p.Pushed()|) + |b.Contents()|
  }

  /**
    No deadlock: unless both threads have finished, one of them can take a
    step without waiting. An empty buffer is never full, and a producer
    that has finished has left the marker queued until the consumer takes it.
   */
  lemma SomeStepEnabled(b: ProdCons, p: Producer, c: Consumer)
    requires Coherent(b, p, c) && !(p.finished && c.finished)
    ensures (!p.finished && !b.IsFull()) || (!c.finished && !b.IsEmpty())
  {
    if !c.finished && b.IsEmpty() {
      assert c.output == p.Pushed();
    }
  }

  /** The producer's step keeps the threads coherent and logs the item it stores. */
  method ProducerTurn(b: ProdCons, p: Producer, c: Consumer) returns (v: int)
    requires Coherent(b, p, c) && !p.finished && !b.IsFull()
    modifies b`write, b.buffer, p
    ensures Coherent(b, p, c)
    ensures Remaining(b, p) < old(Remaining(b, p))
    ensures p.Pushed() == old(p.Pushed()) + [v]
  {
    ghost var queued := b.Contents();
    v := p.Step(b);
    assert c.Popped() + b.Contents() == (c.Popped() + queued) + [v];
  }

  /** The consumer's step keeps the threads coherent and logs the item it gets. */
  method ConsumerTurn(b: ProdCons, p: Producer, c: Consumer) returns (v: int)
    requires Coherent(b, p, c) && !c.finished && !b.IsEmpty()
    modifies b`read, c
    ensures Coherent(b, p, c)
    ensures Remaining(b, p) < old(Remaining(b, p))
    ensures c.Popped() == old(c.Popped()) + [v]
  {
    ghost var queued := b.Contents();
    ghost var popped := c.Popped();
    v := c.Step(b);
    assert queued == [v] + b.Contents();
    assert c.Popped() + b.Contents() == popped + queued;
    if v == LIMIT {
      MarkerEndsStream(p.n, p.finished, c.Popped(), b.Contents());
      assert c.Popped()[..|c.Popped()| - 1] == c.output;
    }
  }

  /**
    One scheduling decision: run the producer's step when it may run and
    either the consumer's may not or `preferProducer` picks it, and the
    consumer's step otherwise.
   */
  method Schedule(b: ProdCons, p: Producer, c: Consumer, preferProducer: bool) returns (v: int, byProducer: bool)
    requires Coherent(b, p, c) && !(p.finished && c.finished)
    modifies b`read, b`write, b.buffer, p, c
    ensures Coherent(b, p, c)
    ensures Remaining(b, p) < old(Remaining(b, p))
    ensures byProducer ==> p.Pushed() == old(p.Pushed()) + [v] && c.Popped() == old(c.Popped())
    ensures !byProducer ==> c.Popped() == old(c.Popped()) + [v] && p.Pushed() == old(p.Pushed())
  {
    SomeStepEnabled(b, p, c);
    var canProduce := !p.finished && !b.IsFull();
    var canConsume := !c.finished && !b.IsEmpty();
    if canProduce && (!canConsume || preferProducer) {
      v := ProducerTurn(b, p, c);
      byProducer := true;
    } else {
      v := ConsumerTurn(b, p, c);
      byProducer := false;
    }
  }

  /**
    A whole run with a buffer of `size` slots and `count` data items. While
    both threads may step, `prefer(i)` says whether step `i` is the
    producer's. Returns the producer's stores, the consumer's gets and the
    consumer's output: the stream is the data items then the marker once,
    the consumer gets it all in the same order, and outputs exactly the data.
    The loop ends, so the two threads never deadlock.
   */
  method Run(size: nat, count: nat, prefer: nat -> bool) returns (produced: seq<int>, consumed: seq<int>, output: seq<int>)
    requires size >= 2
    ensures produced == Range(count) + [LIMIT]
    ensures consumed == produced
    ensures output == Range(count)
    ensures |consumed| > 0 && consumed[|consumed| - 1] == LIMIT
  {
    var b := new ProdCons(size);
    b.Init();
    var p := new Producer(count);
    var c := new Consumer();
    produced, consumed := [], [];
    var step: nat := 0;
    while !(p.finished && c.finished)
      invariant Coherent(b, p, c) && p.count == count
      invariant produced == p.Pushed() && consumed == c.Popped()
      decreases Remaining(b, p)
    {
      var v, byProducer := Schedule(b, p, c, prefer(step));
      if byProducer {
        produced := produced + [v];
      } else {
        consumed := consumed + [v];
      }
      step := step + 1;
    }
    output := c.output;
  }

  /**
    The program's main thread: one buffer of BUFFER_SIZE slots, a producer
    of COUNT items and a consumer, run to completion under any schedule.
   */
  method ProdConsMain(prefer: nat -> bool) returns (output: seq<int>)
    ensures output == [0, 1, 2, 3, 4, 5, 6, 7, 8, 9, 10]
  {
    var produced, consumed;
    produced, consumed, output := Run(BUFFER_SIZE, COUNT, prefer);
    assert output == Range(11);
  }
}
