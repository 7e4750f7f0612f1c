/**
  The shared circular buffer of the producer/consumer program: a fixed
  array of integer slots with a read index and a write index. The buffer is
  empty when the two indices meet and full when advancing the write index
  would make it meet the read index, so one slot is never used and a buffer
  of N slots holds at most N - 1 items.

  The pure functions below describe the index arithmetic and the queue that
  a given array and pair of indices stand for; the class ProdCons is the
  buffer itself, updated in place.
 */
module Ring {

  /** Number of slots of the single buffer the program declares. */
  const BUFFER_SIZE: nat := 4

  /** The index update `i++; if (i >= n) i = 0;` used for both indices. */
  function Next(i: int, n: int): (j: int)
    requires 0 <= i < n
    ensures 0 <= j < n
    ensures j == 0 || j == i + 1
  {
    if i + 1 >= n then 0 else i + 1
  }

  /** Incrementing and resetting to zero is incrementing modulo the size. */
  lemma NextIsIncrementMod(i: int, n: int)
    requires 0 <= i < n
    ensures Next(i, n) == (i + 1) % n
  {
    if i + 1 < n {
      ModOfSmall(i + 1, n);
    }
  }

  /** Number of items held between read index `r` and write index `w`. */
  function Occupancy(r: int, w: int, n: int): (k: nat)
    requires 0 <= r < n && 0 <= w < n
    ensures k <= n - 1
    ensures k == 0 <==> w == r
    ensures k == n - 1 <==> Next(w, n) == r
  {
    if r <= w then w - r else w - r + n
  }

  /** The occupancy is the usual `(write - read + N) % N` of a two-index ring. */
  lemma OccupancyIsDifferenceMod(r: int, w: int, n: int)
    requires 0 <= r < n && 0 <= w < n
    ensures Occupancy(r, w, n) == (w - r + n) % n
  {
    if r <= w {
      ModOfWrapped(w - r + n, n);
    } else {
      ModOfSmall(w - r + n, n);
    }
  }

  /** Storing at a buffer that is not full raises the occupancy by one. */
  lemma OccupancyAfterStore(r: int, w: int, n: int)
    requires 0 <= r < n && 0 <= w < n
    requires Next(w, n) != r
    ensures Occupancy(r, Next(w, n), n) == Occupancy(r, w, n) + 1
  {
  }

  /** Taking from a buffer that is not empty lowers the occupancy by one. */
  lemma OccupancyAfterGet(r: int, w: int, n: int)
    requires 0 <= r < n && 0 <= w < n
    requires w != r
    ensures Occupancy(Next(r, n), w, n) == Occupancy(r, w, n) - 1
  {
  }

  /**
    The queue held in slots `a` when reading starts at `r` and `k` items
    are present: the slots r, r+1, ... taken around the end of the array.
   */
  function Window(a: seq<int>, r: int, k: nat): (q: seq<int>)
    requires 0 <= r < |a|
    ensures |q| == k
    decreases k
  {
    if k == 0 then [] else [a[r]] + Window(a, Next(r, |a|), k - 1)
  }

  /** Item `i` of the queue is the slot `i` places after the read index, modulo the size. */
  lemma {:induction false} WindowAt(a: seq<int>, r: int, k: nat, i: nat)
    requires 0 <= r < |a|
    requires i < k <= |a|
    ensures Window(a, r, k)[i] == a[(r + i) % |a|]
    decreases k
  {
    var n := |a|;
    if i == 0 {
      ModOfSmall(r, n);
    } else {
      WindowAt(a, Next(r, n), k - 1, i - 1);
      assert Window(a, r, k)[i] == Window(a, Next(r, n), k - 1)[i - 1];
      if r + 1 == n {
        ModOfSmall(i - 1, n);
        ModOfWrapped(r + i, n);
      } else {
        assert Next(r, n) + (i - 1) == r + i;
      }
    }
  }

  /** Helper: a value below the modulus is its own remainder. */
  lemma ModOfSmall(x: int, n: int)
    requires 0 <= x < n
    ensures x % n == x
  {
  }

  /** Helper: a value between one and two moduli loses one modulus. */
  lemma ModOfWrapped(x: int, n: int)
    requires n <= x < 2 * n
    ensures x % n == x - n
  {
    assert x == n * 1 + (x - n);
  }

  /**
    Writing `x` at the write index of a buffer that is not full and
    advancing the write index appends `x` to the queue and leaves the
    items already queued as they were.
   */
  lemma {:induction false} WindowStore(a: seq<int>, r: int, w: int, x: int)
    requires 0 <= r < |a| && 0 <= w < |a|
    requires Next(w, |a|) != r
    ensures Window(a[w := x], r, Occupancy(r, w, |a|) + 1) == Window(a, r, Occupancy(r, w, |a|)) + [x]
    decreases Occupancy(r, w, |a|)
  {
    var n := |a|;
    var k := Occupancy(r, w, n);
    if r != w {
      OccupancyAfterGet(r, w, n);
      WindowStore(a, Next(r, n), w, x);
      calc {
        Window(a[w := x], r, k + 1);
        [a[r]] + Window(a[w := x], Next(r, n), k);
        [a[r]] + (Window(a, Next(r, n), k - 1) + [x]);
        ([a[r]] + Window(a, Next(r, n), k - 1)) + [x];
        Window(a, r, k) + [x];
      }
    }
  }

  /**
    The buffer shared by the producer and the consumer. The source also
    holds a mutex and two condition variables in it; here the waits they
    implement become the preconditions of Store and Get.
   */
  class ProdCons {
    const buffer: array<int>
    var read: int
    var write: int

    /** Both indices lie inside the array, which has at least two slots. */
    ghost predicate Valid()
      reads this
    {
      buffer.Length >= 2 && 0 <= read < buffer.Length && 0 <= write < buffer.Length
    }

    /** The items queued, oldest first. */
    ghost function Contents(): seq<int>
      reads this, buffer
      requires Valid()
    {
      Window(buffer[..], read, Occupancy(read, write, buffer.Length))
    }

    /** The condition the consumer waits on: no item to read. */
    predicate IsEmpty()
      reads this
      requires Valid()
      ensures IsEmpty() <==> Contents() == []
    {
      write == read
    }

    /** The condition the producer waits on: one free slot is left, which is never used. */
    predicate IsFull()
      reads this
      requires Valid()
      ensures IsFull() <==> |Contents()| == buffer.Length - 1
    {
      NextIsIncrementMod(write, buffer.Length);
      (write + 1) % buffer.Length == read
    }

    /**
      The declaration of the buffer object with `n` slots; like a C object
      of static storage duration, every slot and both indices start at zero.
     */
    constructor (n: nat)
      requires n >= 2
      ensures Valid() && fresh(buffer) && buffer.Length == n
      ensures forall i :: 0 <= i < n ==> buffer[i] == 0
      ensures read == 0 && write == 0
    {
      buffer := new int[n](_ => 0);
      read := 0;
      write := 0;
    }

    /** Reset both indices, which leaves the buffer empty. */
    method Init()
      requires buffer.Length >= 2
      modifies this
      ensures Valid() && read == 0 && write == 0
      ensures Contents() == []
      ensures buffer[..] == old(buffer[..])
    {
      read := 0;
      write := 0;
    }

    /** Put `data` at the write index and advance it; the caller has waited until the buffer is not full. */
    method Store(data: int)
      requires Valid() && !IsFull()
      modifies this`write, buffer
      ensures Valid()
      ensures buffer[old(write)] == data
      ensures forall i :: 0 <= i < buffer.Length && i != old(write) ==> buffer[i] == old(buffer[i])
      ensures write == (old(write) + 1) % buffer.Length && read == old(read)
      ensures Contents() == old(Contents()) + [data]
      ensures Occupancy(read, write, buffer.Length) == old(Occupancy(read, write, buffer.Length)) + 1
    {
      ghost var a, w := buffer[..], write;
      NextIsIncrementMod(write, buffer.Length);
      OccupancyAfterStore(read, write, buffer.Length);
      WindowStore(a, read, w, data);
      buffer[write] := data;
      write := write + 1;
      if write >= buffer.Length {
        write := 0;
      }
      assert buffer[..] == a[w := data];
    }

    /** Take the item at the read index and advance it; the caller has waited until the buffer is not empty. */
    method Get() returns (data: int)
      requires Valid() && !IsEmpty()
      modifies this`read
      ensures Valid()
      ensures data == old(buffer[read])
      ensures read == (old(read) + 1) % buffer.Length && write == old(write)
      ensures data == old(Contents())[0] && Contents() == old(Contents())[1..]
      ensures Occupancy(read, write, buffer.Length) == old(Occupancy(read, write, buffer.Length)) - 1
    {
      NextIsIncrementMod(read, buffer.Length);
      OccupancyAfterGet(read, write, buffer.Length);
      data := buffer[read];
      read := read + 1;
      if read >= buffer.Length {
        read := 0;
      }
    }
  }
}
