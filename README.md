# Producer/consumer over a circular buffer, in Dafny

This project models the producer/consumer program `6_Threads/7_ProdCons.c`.
One producer thread stores the integers 0, 1, ..., COUNT − 1 in a shared
circular buffer of BUFFER_SIZE slots, then stores the end-of-stream marker
LIMIT = −1. One consumer thread takes items out until it sees the marker and
outputs every item before it. The source uses BUFFER_SIZE = 4 and COUNT = 11.

- `ring.dfy`, module `Ring`: the buffer (`struct prodcons`) is the class
  `ProdCons`. It holds an `array<int>` of slots and the two indices `read` and
  `write`, and its methods `Init`, `Store` and `Get` update them in place.
  The buffer is empty when `write == read`. It is full when `(write + 1) % N == read`,
  so at most N − 1 slots are ever used. The waits on the condition variables
  become preconditions: `Store` requires a buffer that is not full, and `Get`
  requires one that is not empty. The ghost function `Contents()` reads the
  queue the array and indices stand for (`Window`). The contracts of `Store` and
  `Get` state the concrete slot and index updates, and also the FIFO effect
  on `Contents()`. The class takes any size N ≥ 2, and `BUFFER_SIZE` is the
  source's 4.
- `pipeline.dfy`, module `Pipeline`: each thread is a class that takes one
  step at a time. A `Producer.Step` is one `Store` of its counting loop, or the
  final `Store(LIMIT)`. A `Consumer.Step` is one `Get` of its loop, and it
  either outputs the item or ends on the marker. `Run` is the two-thread
  program executed sequentially. As long as one thread has not finished, it
  runs one step whose thread would not wait. When both threads could run,
  `prefer(i)` chooses which one takes step `i`, so every interleaving of the
  two threads is one run of `Run`. The proof shows that the run always ends,
  so no schedule deadlocks. It also shows three facts about the streams. The
  producer stores exactly 0..COUNT−1 and then the marker once. The consumer
  gets the same stream, in the same order, so the marker is the last item it
  gets. The consumer's output is exactly 0..COUNT−1. `ProdConsMain` is `main`
  with the source's constants.

## Model

| member | source | states |
|---|---|---|
| `Ring.Next` | 6_Threads/7_ProdCons.c:76-77 | the increment-then-reset index update stays in [0, N) and is either 0 or the old index plus one |
| `Ring.NextIsIncrementMod` | 6_Threads/7_ProdCons.c:98-99 | the increment-then-reset update equals `(i + 1) % N` |
| `Ring.Occupancy` | 6_Threads/7_ProdCons.c:68 | the number of queued items is in [0, N − 1]; it is 0 exactly when `write == read` (the empty test of line 89) and N − 1 exactly when `(write + 1) % N == read` (the full test) |
| `Ring.OccupancyIsDifferenceMod` | 6_Threads/7_ProdCons.c:68 | the occupancy equals `(write − read + N) % N` |
| `Ring.OccupancyAfterStore` | 6_Threads/7_ProdCons.c:75-77 | advancing `write` of a buffer that is not full raises the occupancy by one |
| `Ring.OccupancyAfterGet` | 6_Threads/7_ProdCons.c:97-99 | advancing `read` of a buffer that is not empty lowers the occupancy by one |
| `Ring.Window` | 6_Threads/7_ProdCons.c:45-51 | the queue read from `k` slots starting at the read index has exactly `k` items |
| `Ring.WindowAt` | 6_Threads/7_ProdCons.c:97-99 | the item `i` places from the head of the queue is slot `(read + i) % N` |
| `Ring.WindowStore` | 6_Threads/7_ProdCons.c:75-77 | writing at `write` and advancing it in a buffer that is not full appends the item to the queue and keeps the items already queued |
| `Ring.ProdCons.IsEmpty` | 6_Threads/7_ProdCons.c:89 | the consumer's wait condition holds exactly when the queue is empty |
| `Ring.ProdCons.IsFull` | 6_Threads/7_ProdCons.c:68 | the producer's wait condition holds exactly when the queue holds N − 1 items |
| `Ring.ProdCons.constructor` | 6_Threads/7_ProdCons.c:45-51 | a fresh buffer of N slots, all zero, with both indices zero, like the statically allocated global |
| `Ring.ProdCons.Init` | 6_Threads/7_ProdCons.c:54-61 | both indices are zero and the queue is empty; the slots are untouched |
| `Ring.ProdCons.Store` | 6_Threads/7_ProdCons.c:64-81 | requires not full; the slot at the old `write` holds the data, every other slot is unchanged, `write` advances by one modulo N, `read` is unchanged, the queue becomes old queue + [data], and the occupancy rises by one |
| `Ring.ProdCons.Get` | 6_Threads/7_ProdCons.c:84-104 | requires not empty; returns the slot at the old `read`, which is the head of the queue; the queue loses its head, `read` advances by one modulo N, and `write` and the slots are unchanged |
| `Pipeline.Range` | 6_Threads/7_ProdCons.c:112 | the items 0..k−1 in order: length k, item i is i |
| `Pipeline.MarkerEndsStream` | 6_Threads/7_ProdCons.c:36-37 | since LIMIT is not in [0, COUNT), a prefix of the producer's stream that ends with the marker is the whole finished stream, and everything before the marker is 0..n−1 |
| `Pipeline.Producer.constructor` | 6_Threads/7_ProdCons.c:111-112 | the producer starts its loop at n = 0, having stored nothing |
| `Pipeline.Producer.Step` | 6_Threads/7_ProdCons.c:112-117 | stores n and counts on while n < COUNT, otherwise stores LIMIT and finishes; the stored item is appended to both the producer's stream and the buffer's queue |
| `Pipeline.Consumer.constructor` | 6_Threads/7_ProdCons.c:124-127 | the consumer starts having taken and output nothing |
| `Pipeline.Consumer.Step` | 6_Threads/7_ProdCons.c:127-132 | takes the head of the queue; on LIMIT it finishes without output, otherwise it appends the item to its output |
| `Pipeline.SomeStepEnabled` | 6_Threads/7_ProdCons.c:109-134 | no deadlock: while a thread is unfinished, the producer can store without waiting or the consumer can get without waiting |
| `Pipeline.ProducerTurn` | 6_Threads/7_ProdCons.c:114 | a producer step keeps the buffer and both threads coherent and decreases the work left |
| `Pipeline.ConsumerTurn` | 6_Threads/7_ProdCons.c:128-130 | a consumer step keeps the buffer and both threads coherent and decreases the work left |
| `Pipeline.Schedule` | 6_Threads/7_ProdCons.c:150-151 | runs one step of a thread that would not wait, and records whose step it was and the item moved |
| `Pipeline.Run` | 6_Threads/7_ProdCons.c:140-155 | under every schedule the run ends; the producer stores 0..COUNT−1 and then LIMIT exactly once; the consumer gets that stream in order, ending with LIMIT; the output is exactly 0..COUNT−1 (also for COUNT = 0 and N = 2) |
| `Pipeline.ProdConsMain` | 6_Threads/7_ProdCons.c:140-165 | with BUFFER_SIZE = 4 and COUNT = 11, the consumer outputs exactly 0, 1, ..., 10 |

## Left out

- Mutex and condition variables (`pthread_mutex_*`, `pthread_cond_*`): their waits are preconditions of `Store` and `Get`. Their mutual exclusion is modelled by running one step at a time. Signalling is not modelled.
- Thread creation and join (`pthread_create`, `pthread_join`): replaced by the sequential scheduler in `Run`. `prefer` chooses which thread runs, and real parallelism is not modelled.
- `sleep(rand() % BUFFER_SIZE)` and `srand(time(NULL))`: timing jitter only, so they are left out. Their effect on the interleaving is covered because `prefer` is arbitrary.
- The `printf` lines of producer and consumer: the consumer's output is a `seq<int>`, and the producer's printed log is not modelled.
- Destruction of the mutex and condition variables, and the exit status of `main`: these are calls into the threading library and the OS.
