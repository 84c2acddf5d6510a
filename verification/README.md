# Verified models of the TT030 job system, partition builder and codecs

This project models, in Dafny, the parts of the repository whose correctness rests on an argument rather than on a
glance at one function, and proves what they promise for every input or every run.

* **The transputer job system.** Node 0's heap (`JobHeap`) is modelled at the level of pointers in one memory array.
  The network of processes on the three transputers (`Dispatcher`, `DispatcherInv`, `DispatcherTheorems`) is a
  transition system with a program counter per process and links that carry bytes; kernels are arbitrary terminating
  functions.  `DispatcherHeap` puts node 0's heap into that network and shows that it never drifts.
  The daemon on the 68030 (`Scheduler`, `LinkParser`, `DaemonBooks`, `JobDaemon`) is a class whose methods are the
  daemon's functions and main-loop steps, with a ghost history of connections, answers and link bytes.
  `EndToEnd` joins network and daemon, down to which client is given which answer, `WireIds` is a run in which the
  daemon runs out of wire ids, `Adler` adds the checksum and the reply that carries it.
* **The partition builder** (`Fat16Names`, `Fat16Layout`, `Fat16Writer`, `Fat16Reader`, `Fat16RoundTrip`): parser and
  builder of Atari FAT16 partitions, and that they undo each other.
* **Buffers used twice**: the PNG encoder that frames its compressed stream in place (`PngFilter`, `PngFile`) and the
  quantizer that expands its input over itself (`Overlay`).
* **Drawing shortcuts**: the falling-glyph animation (`Matrix`) and the one-bit blits and fills (`Mono`), each against
  the plain picture.
* **Package formats** (`Cpio`, `Rpm`): writers and readers, and that they undo each other.

`Wire` holds the job protocol's constants, `Bytes` the vocabulary for byte strings laid over parts of others.

The usual shape is a method or class in the form of the source, proved against a specification function or predicate,
and lemmas about that specification.  Whatever the daemon asks of the outside (memory, sockets, booting, writing to the
link) is answered by an arbitrary `World`, its clocks move by events, and `AfterX` is what step X makes of its variables
in that world.  Random seeds, deflate, inflate, gzip, CRC and MD5 are parameters.

What the proofs turned up, each stated as a lemma or a contract:

* The job whose own link write fails is freed without an answer while its client waits
  (`JobDaemon.LostIsUnanswered`); it is the only job that can be lost (`JobDaemon.OneFate`).
* The retry after a failure does not forget a half-read reply (`JobDaemon.Daemon.Retry`).  What follows is then read as
  if those bytes belonged to it, which is right for every stream if and only if there were none
  (`LinkParser.StaleMisreads`, with one byte in `LinkParser.OneStaleByte`).  The watchdog's re-boot does forget it.
* The lease ends on an empty slot if and only if its client is dropped for lack of memory while go_down answers that
  client's own jobs (`JobDaemon.Daemon.Lease`, reached in `JobDaemon.OneStarvedClient`); the next client accepted there
  holds it (`JobDaemon.InheritedLease`).
* The estimate meant to keep T425-only jobs off the TRAMs is finite; `Scheduler.T425OnlyOnTram` gives the exact
  condition and `Scheduler.PpmquantReachesTram` a queue that meets it.
* Wire ids are unique in flight only below 65,536 sends per flight (`DaemonBooks.WidUnique`); a run past that bound
  matches a reply with another job (`WireIds.Collide`).
* `calloc` wraps its product at 32 bits before asking for memory, and the block is too small exactly when it does
  (`JobHeap.Heap.Calloc`, `JobHeap.CallocWraps`).
* The FAT reader stops at cluster 0xFFF0, which the builder does not know: `Fat16RoundTrip.Rebuild` is exact, and
  `Fat16RoundTrip.LongFileIsCut` is a file that does not come back.
* A path with a character above 127 does not survive the archive, because it is written as UTF-8 and read as latin-1
  (`Cpio.PathRoundTrip` is exact), and a file called `TRAILER!!!` hides itself and all files after it
  (`Cpio.TrailerHides`).

`dafny verify dfyconfig.toml` checks everything.

## Model

| member | source | states |
|---|---|---|
| `JobHeap.FreeListDetermined` | sam-job-tt/llvm/jobheap.c:1-12 | the allocator theorem: two heaps whose free blocks and live blocks tile the same range, with the free blocks in address order and never adjacent, have the same free list as soon as their live extents are the same |
| `JobHeap.CoverDetermines` | sam-job-tt/llvm/jobheap.c:57-77 | an address-ordered list of free blocks that never touch is determined by the set of bytes it covers |
| `JobHeap.Heap.Malloc` | sam-job-tt/llvm/jobheap.c:27-55 | first fit from the head of the lowest free block that is big enough; NULL exactly when no free block is; the new block goes to the front of the live ring with the job mark of the moment; tiling, order and ring invariants hold and no live payload byte changes |
| `JobHeap.CarveTiles` | sam-job-tt/llvm/jobheap.c:38-51 | handing out the head of a free block, or all of it when the rest could not be a block, keeps free and live blocks an exact tiling |
| `JobHeap.Heap.Walk` | sam-job-tt/llvm/jobheap.c:39-41 | the pointer-to-pointer walk ends at the cell that points to the first free block of enough bytes |
| `JobHeap.Heap.Free` | sam-job-tt/llvm/jobheap.c:57-77 | the block leaves the ring and joins the free list, merged with a free neighbour above and below; NULL does nothing; other payloads keep their bytes |
| `JobHeap.ReleaseTiles` | sam-job-tt/llvm/jobheap.c:63-76 | insertion at the block's place in the address order with both merges keeps tiling, order and non-adjacency |
| `JobHeap.Heap.Realloc` | sam-job-tt/llvm/jobheap.c:79-91 | NULL exactly when a fresh block does not fit, and then nothing has changed; otherwise a fresh block with the first min(n, old capacity) bytes of the old one, which is free |
| `JobHeap.Heap.Calloc` | sam-job-tt/llvm/jobheap.c:93-99 | a block for k * n taken modulo 2^32, as the source's multiplication wraps, whose first so many bytes are zero; NULL exactly when no free block takes it; older payloads keep their bytes; the block is as large as k * n if and only if the product does not wrap |
| `JobHeap.CallocWraps` | sam-job-tt/llvm/jobheap.c:93-99 | an input that wraps: for 65,536 elements of 65,537 bytes a block is given out exactly when 65,536 bytes can be had, and it is too small |
| `JobHeap.Heap.End` | sam-job-tt/llvm/jobheap.c:106-119 | exactly the blocks marked as a job's are freed, in one walk that frees the node it stands on; the kept blocks stay in order with their bytes; the counters hold the bytes freed |
| `JobHeap.Heap.Kernel` | sam-job-tt/llvm/root.c:52-56 | whatever a kernel allocates, resizes, writes and frees of its own, the blocks that are not the job's stay, with their bytes |
| `JobHeap.Heap.Node0Job` | sam-job-tt/llvm/root.c:43-83 | one node-0 job from the payload's malloc to the reply's free leaves free list, live list and every older payload exactly as they were, and is run exactly when its buffers fit the free list it met |
| `JobHeap.QGAP` | sam-job-tt/llvm/root.c:28-31 | the gap is a multiple of 8, at least a third of the payload and 64 bytes more than the reply header, and not 8 bytes larger than it has to be |
| `JobHeap.Heap.Serve` | sam-job-tt/llvm/jobheap.c:1-12 | on the memory array itself: after any history of jobs the idle heap is the one it started from, so each job is taken or refused as if it were the first; the interleaved runs are `DispatcherHeap`'s |
| `DispatcherInv.StepInv` | sam-job-tt/llvm/root.c:43-126 | every step of host, work0, mux, route, work1, mux1 and TRAM 2 keeps the invariant that ties program counters, buffers, link positions and the phase of each node's job together |
| `DispatcherTheorems.RunInv` | sam-job-tt/llvm/root.c:85-126 | the invariant holds in every state of every interleaving |
| `DispatcherTheorems.OneOwner` | sam-job-tt/llvm/root.c:33-83 | hdr0, in0, rep0 and the heap are in the hands of at most one of host, work0 and mux in every reachable state |
| `DispatcherTheorems.RepliesIntact` | sam-job-tt/llvm/root.c:64-83 | from the worker's last write to the last byte sent, the buffer a reply goes out from still holds that reply, on all three nodes |
| `DispatcherTheorems.KernelsRunOnTheirOwnJob` | sam-job-tt/llvm/worker1.c:16-65 | a kernel runs on the header and payload of a request that the daemon sent to that very node |
| `DispatcherTheorems.ExactlyOnce` | sam-job-tt/llvm/jobnode.c:13-29 | each request sent is either open on its node or answered, never both and never twice; every answer carries its request's id and the node that ran it; what the daemon has read is those answers in order |
| `DispatcherTheorems.NoDeadlock` | sam-job-tt/llvm/root.c:64-126 | while a job is being sent, run or answered some process can step without a new request, also when the daemon is in the middle of writing a payload and mux waits for the host link |
| `DispatcherTheorems.Bounded` | sam-job-tt/llvm/root.c:64-126 | without a new request the network takes a bounded number of steps, however it is scheduled |
| `DispatcherTheorems.EveryJobIsAnswered` | sam-job-tt/ttjobd.c:282-362 | every schedule that runs until nothing can move has answered every request |
| `DispatcherHeap.MallocDoes` | sam-job-tt/llvm/jobheap.c:27-55 | `Heap.Malloc` does on the array what the network's malloc step does on free list and live list |
| `DispatcherHeap.FreeDoes` | sam-job-tt/llvm/jobheap.c:57-77 | and `Heap.Free` what its free step does |
| `DispatcherHeap.MoveKeeps` | sam-job-tt/llvm/root.c:43-126 | in the network with node 0's heap in it, every step of every process, malloc, kernel traffic, jobheap_end and free included, keeps the live list that the user of node 0 determines |
| `DispatcherHeap.IdleHeapIsTheSame` | sam-job-tt/llvm/root.c:43-126 | in every reachable state of every interleaving in which no process has a job of node 0, and whatever earlier kernels allocated and left, free list and live list are those the network was booted with |
| `DispatcherHeap.NoJobIsIdle` | sam-job-tt/llvm/root.c:43-126 | no process has a job of node 0 when none is open there and the last reply has been freed |
| `DispatcherHeap.RefusedIffItNeverFits` | sam-job-tt/llvm/root.c:43-83 | in every run a node-0 job gets its buffers if and only if they fit the heap the network was booted with, whatever ran before |
| `DispatcherHeap.RefusalSaysTooBig` | sam-job-tt/llvm/root.c:52-62 | otherwise its reply is ST_TOOBIG without output |
| `DispatcherHeap.HeapNeverBlocks` | sam-job-tt/llvm/root.c:43-83 | wherever a process is about to call malloc or free, or the kernel to return, it can go on |
| `EndToEnd.DaemonReadsTheAnswers` | sam-job-tt/ttjobd.c:309-362 | in every run, splitting what the daemon has read from the link gives exactly the network's answers, each whole and in order, plus part of the next |
| `EndToEnd.ClientsGetTheirAnswers` | sam-job-tt/ttjobd.c:282-362 | daemon and network together: in every run since a boot that left nothing in the reply buffer, with fewer than 65,536 sends during any flight, each answer the daemon has taken goes to the connection that submitted the job it was computed for, under that client's id and without the node byte, or that connection is closed; no other connection is given it |
| `Scheduler.EstimatesFit` | sam-job-tt/ttjobd.c:79-105 | no intermediate value of the estimate, nor of a deadline made from it, leaves 32 bits for payloads up to JOB_BIG at 200 ticks a second |
| `Scheduler.TramFactor` | sam-job-tt/ttjobd.c:76-106 | a TRAM is taken to need 2.8 times the T425's time for compression and twice its time for the rest |
| `Scheduler.MeasuredTimes` | sam-job-tt/ttjobd.c:76-106 | the estimates that the source's comments quote: bzip2 16.5 s and 46 s, X25519 2.8 s and 5.6 s, ppmquant 82 s, and 905 s to the watchdog for bc |
| `Scheduler.Pick` | sam-job-tt/ttjobd.c:114-137 | the first queued job that may start now and the node for it, or -1 exactly when none may |
| `Scheduler.T425GetsEarliest` | sam-job-tt/ttjobd.c:106-137 | an idle T425 gets the earliest queued job that is allowed there |
| `Scheduler.NeverIdleOn0` | sam-job-tt/ttjobd.c:282-298 | pick never leaves an idle T425 idle while a job that may run there waits |
| `Scheduler.PickTram` | sam-job-tt/ttjobd.c:106-137 | pick's result for NODE_ANY jobs in terms of the T425's work ahead, the sum of what it still runs and the T425 estimates of the NODE_ANY jobs queued before: the job picked goes to the T425 exactly when there is none, otherwise to an idle TRAM on which it ends earlier; those passed over had work ahead and no idle TRAM on which they would end earlier |
| `Scheduler.BacklogIsWork` | sam-job-tt/ttjobd.c:114-137 | the backlog that pick's loop carries is that sum |
| `Scheduler.T425OnlyOnTram` | sam-job-tt/ttjobd.c:99-137 | a T425-only NODE_ANY job reaches a TRAM if and only if an idle TRAM is there, the T425 cannot take it and backlog plus own time exceeds 2,147,483 ms |
| `Scheduler.PpmquantReachesTram` | sam-job-tt/ttjobd.c:103-103 | the value meant as never is finite: a concrete queue of large ppmquant jobs sends one to a TRAM |
| `LinkParser.ParseMore` | sam-job-tt/ttjobd.c:309-362 | a stream may be cut anywhere: parsing the kept rest with what follows gives what parsing the whole gives |
| `LinkParser.ReadStep` | sam-job-tt/ttjobd.c:313-315 | a read that asks for no more than the current frame lacks completes at most that frame |
| `LinkParser.BadStays` | sam-job-tt/ttjobd.c:315-315 | a bad length ends the stream: nothing behind it becomes a reply |
| `LinkParser.RestIsPartial` | sam-job-tt/ttjobd.c:313-315 | what is left of a good stream is the beginning of a single frame, so it fits the buffer |
| `LinkParser.ParseJoined` | sam-job-tt/ttjobd.c:309-362 | whole replies followed by part of one parse back into those replies and that part |
| `JobDaemon.OneFate` | sam-job-tt/ttjobd.c:174-187 | every admitted job is in exactly one place: queued, in flight, answered, dropped after its client was gone, or lost to its own failed link write |
| `JobDaemon.OnlyItsOwner` | sam-job-tt/ttjobd.c:203-222 | an answer is in the output of the connection that submitted the job, once; it is ST_DOWN under the client's own id, or the link reply that was matched with the job's own send, under that id and without the node byte; no link reply is used for two answers |
| `JobDaemon.RightMatch` | sam-job-tt/ttjobd.c:317-319 | when each reply answers one send whose wire id it carries, and no flight spans 65,536 sends, every reply is matched with the very send it answers |
| `JobDaemon.ReplyReachesItsJob` | sam-job-tt/ttjobd.c:317-353 | then each reply is in the output of the client whose job it answers and of nobody else, or that client is gone |
| `JobDaemon.ReplyFindsItsJob` | sam-job-tt/ttjobd.c:317-319 | a reply's wire id finds the job it was sent with, given fewer than 65,536 sends during any one flight |
| `DaemonBooks.WidWraps` | sam-job-tt/ttjobd.c:59-59 | two in-flight jobs sent 65,536 sends apart carry the same wire id and meet the bookkeeping of sends |
| `WireIds.Collide` | sam-job-tt/ttjobd.c:299-302 | such a state is reached, through the daemon's own operations: while one job stays on the T425 its client has 65,535 small jobs answered by TRAM 1 and sends one more; unless memory or the link fails, two jobs in flight then share a wire id and the reply to the second is matched with the first |
| `DaemonBooks.WidUnique` | sam-job-tt/ttjobd.c:299-302 | within the proviso no two jobs in flight share a wire id |
| `JobDaemon.Limits` | sam-job-tt/ttjobd.c:452-467 | at most 32 queued, one in flight per node with busy set exactly there, at most 16 outstanding per client |
| `JobDaemon.LostIsUnanswered` | sam-job-tt/ttjobd.c:302-302 | the job whose own link write fails is in no table and answered by nobody while its client is still connected |
| `JobDaemon.StampedIsValid` | sam-job-tt/ttjobd.c:294-302 | a request stamped with wire id and node is one the network accepts, unless it is too big for a TRAM |
| `JobDaemon.Receiver.Append` | sam-job-tt/ttjobd.c:355-359 | bytes read go behind those already there and never past the buffer |
| `JobDaemon.Daemon.Boot` | sam-job-tt/ttjobd.c:227-268 | the network is up exactly when an image ran; the nodes that image lacks are absent, the payload cap is the lower bound again, and the image is asked for its own cap by a job of the daemon's; the new stream of replies begins behind whatever is in the buffer |
| `JobDaemon.CapsIsValid` | sam-job-tt/ttjobd.c:259-262 | the network accepts that job: no payload, the checksum of nothing, node 0 |
| `JobDaemon.Daemon.DropClient` | sam-job-tt/ttjobd.c:174-187 | the client's slot is closed, its jobs answer to nobody, its unsent replies go, and nothing is handed to anybody; if it held the lease the half-read reply is forgotten, the T425 is re-booted, and a failed boot sets the time from which the retry counts |
| `JobDaemon.Daemon.FlushOut` | sam-job-tt/ttjobd.c:188-202 | for any socket, whatever each write takes: the bytes taken join those sent, the rest stays queued, a broken socket loses it; exactly as many writes are made as `Drain` says |
| `JobDaemon.DrainKeeps` | sam-job-tt/ttjobd.c:188-202 | what a socket has taken and what is still queued are together the bytes that were queued, in order |
| `JobDaemon.DrainStops` | sam-job-tt/ttjobd.c:188-202 | writing goes on until nothing is left, the socket takes nothing more for now, or it is broken; only then is the rest dropped |
| `JobDaemon.Daemon.Wr` | sam-job-tt/ttjobd.c:203-216 | the frame is appended to the client's replies and its socket is written to, or there is no such client, or the client is dropped for lack of memory; all variables afterwards are given, and what was handed out before stays |
| `JobDaemon.Daemon.GoDown` | sam-job-tt/ttjobd.c:269-281 | every job in flight and then every queued one is answered ST_DOWN, and with nothing else, or has no client left; nothing is lost; the tables are empty, the network is down since now, and the clients left are those whose memory sufficed |
| `JobDaemon.Daemon.SendOne` | sam-job-tt/ttjobd.c:287-306 | the job moves from the queue to the in-flight table with a fresh wire id, its node, and a deadline of three times its estimate there and five seconds; a job for node 0 sets the time the T425 will be free; exactly when the write fails it is the one job lost and everything else is failed |
| `JobDaemon.Daemon.SendJobs` | sam-job-tt/ttjobd.c:282-308 | the jobs sent, to which nodes and in which order, are pick's choices under the backlog that is left on the T425's clock, until pick has none, no node is free or a write fails; then the T425 is not idle while a job that may run there waits; at most one job is lost, and only when the network goes down |
| `JobDaemon.Daemon.Deliver` | sam-job-tt/ttjobd.c:316-353 | a reply goes to the owner of the first in-flight job with its wire id, under the client's id and without the node byte, and is the one new frame handed out; the job leaves the table and its node is idle; an OP_CAPS answer sets the payload cap; a reply with no such job changes nothing |
| `JobDaemon.CapMeans` | sam-job-tt/ttjobd.c:320-324 | the payload cap taken from an answer: the announced value within the daemon's bounds, the lower bound when the image cannot answer |
| `JobDaemon.Daemon.PollLink` | sam-job-tt/ttjobd.c:309-362 | all the link has is read, in pieces of any size: the replies handled and the rest in the buffer are those of parsing everything read since the last boot, behind what that boot found in the buffer, each reply doing to the variables what it does; the first bad length ends it in go_down with an empty buffer |
| `JobDaemon.Daemon.Accept` | sam-job-tt/ttjobd.c:416-423 | a new connection takes the first free slot under a number of its own even when its descriptor was used before; without a free slot nothing changes |
| `JobDaemon.Daemon.Refuse` | sam-job-tt/ttjobd.c:217-226 | that status, once, to that client and nothing to anybody else, exactly when it is there and there is memory; without memory it is dropped |
| `JobDaemon.Daemon.Request` | sam-job-tt/ttjobd.c:426-467 | all variables after a request: a short header or a lease with a payload closes the connection, an oversized request is told ST_TOOBIG and then closed, a lease is granted or refused, ST_NONODE and ST_DOWN as the source has them, and otherwise the job is queued; and the frames handed out: that status, ST_OK only behind ST_DOWN for everything outstanding, and nothing for a job that is queued |
| `JobDaemon.RequestKeeps` | sam-job-tt/ttjobd.c:426-467 | the client is still connected if and only if its header was whole, the request was not too big, a lease came without a payload, and there was memory for whatever it was to be told (for a lease: while everything outstanding was answered, too) |
| `JobDaemon.RequestQueues` | sam-job-tt/ttjobd.c:434-466 | a client's job joins the queue if and only if the network is up, queue and quota have room, its payload was read and its memory granted, its size is within the caps, and it asks neither for the lease nor for a node the image lacks; then it is last in the queue and nothing else changes |
| `JobDaemon.Daemon.Lease` | sam-job-tt/ttjobd.c:441-452 | the T425 goes to the client, everything outstanding is failed first, the network is down without retries, and the client is told ST_OK; a second lease is refused with ST_DOWN, one with a payload closes the connection; the lease is left on an empty slot if and only if the client is dropped for lack of memory while go_down answers its own jobs |
| `JobDaemon.StarvedNeedsJob` | sam-job-tt/ttjobd.c:203-216 | that takes an outstanding job of the client and a failed allocation |
| `JobDaemon.OneStarvedClient` | sam-job-tt/ttjobd.c:441-452 | a state of the daemon in which it happens |
| `JobDaemon.InheritedLease` | sam-job-tt/ttjobd.c:416-452 | the next client accepted into that slot holds the lease without having asked for it |
| `JobDaemon.Daemon.Admit` | sam-job-tt/ttjobd.c:453-467 | the job joins the queue if and only if the network is up, the queue and the client's quota have room, its payload was read and its memory granted; otherwise the client is told ST_DOWN |
| `JobDaemon.Daemon.Watchdog` | sam-job-tt/ttjobd.c:470-483 | when a job is past its deadline, every job that was queued or in flight is answered ST_DOWN or has no client left, the half-read reply is forgotten, one boot is tried, and if it fails the retry counts from now; otherwise nothing changes |
| `JobDaemon.Daemon.Retry` | sam-job-tt/ttjobd.c:484-488 | a boot is tried exactly when the network is down, not leased and the time is up; if it fails the next one counts from now, and if not there is none to come; the half-read reply stays in the buffer, in front of the new stream |
| `LinkParser.StaleMisreads` | sam-job-tt/ttjobd.c:484-488 | with bytes left over, every new stream is read as the whole replies it carries and the beginning of the next if and only if nothing was left over |
| `LinkParser.OneStaleByte` | sam-job-tt/ttjobd.c:484-488 | one byte left over and one status reply: the reply is misread |
| `JobDaemon.Daemon.Run` | sam-job-tt/ttjobd.c:390-490 | over any sequence of clock movements, connects, requests, writable sockets, link polls, sends, watchdogs and retries, in any world, the whole invariant holds, the contents and origin of every answer included, and variables and reply buffer are what those events make of them one after the other |
| `Adler.T4Adler32` | sam-yum-tt/src/t4adler.c:5-41 | for every input the unrolled loop with one modulo per 5552 bytes returns the byte-by-byte Adler-32 of section 2.2 of RFC 1950; the accumulators are typed as 32-bit values, so neither ever exceeds 2^32 - 1 |
| `Adler.AdlerMeans` | sam-yum-tt/src/t4adler.c:1-4 | the checksum in closed form: one more than the sum of the bytes, and the sum in which the last byte counts once and the first as often as there are bytes, plus their number, both modulo 65521 |
| `Adler.Add` | sam-yum-tt/src/t4adler.c:15-16 | one byte keeps both sums congruent to the reference and within the bound for its place in the block |
| `Adler.BlockIsLargest` | sam-yum-tt/src/t4adler.c:11-11 | no longer block would do: 5553 bytes of 255 after reduced sums of 65520 pass 32 bits |
| `Adler.RawOfOnes` | sam-yum-tt/src/t4adler.c:33-36 | the exact value the unreduced sums reach on bytes of 255 |
| `Adler.JobReply` | sam-job-tt/llvm/jobnode.c:13-29 | a well-formed reply to the header from this node whose length, status, both checksums and body agree, the body being the kernel's output; a payload that did not arrive whole is not run and leaves the rest of the reply block as it was; this is the reply the network model takes a worker to make |
| `Fat16Names.NameRoundTrip` | scripts/atari_fat16.py:145-155 | of all names pad83 accepts, name83 reads back exactly the canonical ones: upper case, no part ending in white space, no dot without an extension |
| `Fat16Names.UpperAscii` | scripts/atari_fat16.py:150-151 | names are stored with a-z as A-Z and every other ASCII character as it is |
| `Fat16Names.WhiteIsStripped` | scripts/atari_fat16.py:145-147 | a name that ends in any latin-1 white space does not come back |
| `Fat16Names.Dirent` | scripts/atari_fat16.py:157-168 | name, attribute, cluster and size are where the reader looks; an old entry keeps its other bytes, a new one gets the time stamp |
| `Fat16Layout.GeometryRegions` | scripts/atari_fat16.py:36-45 | FATs, root directory and clusters follow each other inside the partition |
| `Fat16Layout.GeometryMeans` | scripts/atari_fat16.py:36-45 | for a boot sector with given values laid at bytes 11, 13, 14, 16, 17, 21 and 22: where FATs, root directory and clusters begin, how big they are, and how many clusters there are |
| `Fat16Layout.ClustersEnough` | scripts/atari_fat16.py:88-90 | as many clusters as the bytes need and not one more |
| `Fat16Layout.DotsMean` | scripts/atari_fat16.py:112-114 | every directory below the root begins with . and .., which are directories without length and name its own and its parent's cluster |
| `Fat16Writer.Alloc` | scripts/atari_fat16.py:88-97 | refuses exactly when the clusters do not all exist; otherwise one contiguous chain ending in 0xFFFF, the rest of the FAT unchanged |
| `Fat16Writer.Place` | scripts/atari_fat16.py:99-108 | succeeds exactly when the whole forest fits; nodes occupy consecutive clusters in preorder and the FAT holds exactly their chains |
| `Fat16Writer.Emit` | scripts/atari_fat16.py:110-126 | each node's clusters hold exactly its bytes, zero padded, and nothing outside them is written |
| `Fat16Writer.CopyFats` | scripts/atari_fat16.py:134-137 | every FAT copy gets the same bytes |
| `Fat16Writer.Build` | scripts/atari_fat16.py:80-142 | refuses exactly when the clusters run out, more than 65,534 are needed, a name is not 8.3 or a length has more than 32 bits, or the root directory is full; otherwise the rebuilt partition consists of the old reserved sectors, equal FATs, the root directory, the clusters in use and zeros |
| `Fat16Writer.PackExactly` | scripts/atari_fat16.py:133-134 | the FAT's numbers and the first clusters fit 16 bits exactly when at most 65,534 clusters are used |
| `Fat16Reader.ChainLoop` | scripts/atari_fat16.py:74-79 | the generator's clusters, with its bounds on cluster number and length |
| `Fat16Reader.ReadLoop` | scripts/atari_fat16.py:50-73 | the loop over 32-byte entries: end marker, deleted, long-name, dot and label entries, files and directories, and the errors of truncated entries |
| `Fat16RoundTrip.ChainWalk` | scripts/atari_fat16.py:74-79 | following a contiguous chain visits its clusters in order, up to cluster 0xFFF0, where the reader stops |
| `Fat16RoundTrip.ReadBack` | scripts/atari_fat16.py:50-73 | the entries of a stored readable directory are read back as the tree they were made from, at any depth |
| `Fat16RoundTrip.ReadsOther` | scripts/atari_fat16.py:50-79 | the entries of any other stored directory are not: reading fails or gives another tree |
| `Fat16RoundTrip.ParseHolds` | scripts/atari_fat16.py:36-48 | a partition that holds a readable tree parses as that tree, with its labels |
| `Fat16RoundTrip.Rebuild` | scripts/atari_fat16.py:266-276 | for every tree that can be built, the rebuilt partition parses as the same ordered tree (names, attributes, bytes and labels, old entries with their time stamps) if and only if the tree is readable: canonical names that do not look deleted or like the end, no label attribute, every file's bytes and every directory's entries below cluster 0xFFF0, and directories no deeper than the reader goes |
| `Fat16RoundTrip.SmallIsReached` | scripts/atari_fat16.py:74-79 | trees of up to 65,518 clusters lie below that cluster |
| `Fat16RoundTrip.LongFileIsCut` | scripts/atari_fat16.py:74-79 | a single file of more than 65,518 clusters does not, and does not come back |
| `Fat16RoundTrip.ClustersOnce` | scripts/atari_fat16.py:88-108 | walking every node's chain meets each allocated cluster once |
| `Fat16RoundTrip.OneOwnerEach` | scripts/atari_fat16.py:80-142 | in a rebuilt partition the FAT holds exactly the nodes' chains one after the other, every other cluster is free and all FAT copies agree; up to 65,518 clusters the reader's walks meet each allocated cluster once |
| `PngFilter.FilterRoundTrip` | sam-yum-tt/src/pngenc.c:93-117 | every filter type is undone by the reconstruction of section 6 of RFC 2083, for every row and row above |
| `PngFilter.FilterMeans` | sam-yum-tt/src/pngenc.c:99-117 | what each filter byte means: the pixel is the filtered byte plus nothing, the byte left, the byte above, the halved sum of both rounded down, or the one of left, above and upper left that is nearest to left + above - upper left, ties in that order |
| `PngFilter.TryFilter` | sam-yum-tt/src/pngenc.c:99-117 | the row under one filter, and the sum of its bytes' magnitudes |
| `PngFilter.WeightMeans` | sam-yum-tt/src/pngenc.c:113-117 | a byte's magnitude is that of the signed number it stands for |
| `PngFilter.PeFilter` | sam-yum-tt/src/pngenc.c:93-125 | the filter with the least sum, ties to the lower number, with the row filtered by it |
| `PngFilter.ImageRoundTrip` | sam-yum-tt/src/pngenc.c:165-173 | whichever filters are chosen, reconstructing the filtered rows gives the pixels |
| `PngFilter.FilterRows` | sam-yum-tt/src/pngenc.c:165-173 | what goes into the compressor is the image with each row under its best filter |
| `PngFile.ChunkRoundTrip` | sam-yum-tt/src/pngenc.c:81-89 | a chunk's type and body are read back, its CRC checked |
| `PngFile.PeChunk` | sam-yum-tt/src/pngenc.c:81-89 | length, type and CRC around a body already in place, and no other byte changed |
| `PngFile.IdatRoundTrip` | sam-yum-tt/src/pngenc.c:182-187 | the bodies of the IDAT chunks concatenate to the stream |
| `PngFile.LayStep` | sam-yum-tt/src/pngenc.c:151-154 | one chunk is written below the part of the stream still to be read, which stays whole |
| `PngFile.LayChunks` | sam-yum-tt/src/pngenc.c:182-187 | for a stream within pe_zbound, chunks laid over it from the front and IEND hold every byte of it and end inside a buffer of pe_cap bytes |
| `PngFile.PeEncode` | sam-yum-tt/src/pngenc.c:127-188 | refused exactly when the buffer is smaller than pe_cap; otherwise signature, header, chunks and end of the file are in it |
| `PngFile.CapIsTight` | sam-yum-tt/src/pngenc.c:64-73 | a file whose stream is as long as pe_zbound allows is shorter than the buffer pe_cap asks for by the framing of one chunk or two, 12 or 24 bytes |
| `PngFile.DecodeFile` | sam-yum-tt/src/pngenc.c:127-188 | a PNG reader with a matching inflate gets width, height, channels and every pixel back |
| `Overlay.QgapSuffices` | sam-job-tt/llvm/root.c:29-31 | for a P6 payload of any size the gap always satisfies ppm_readppm's own test, so the separate array is never needed |
| `Overlay.ReadPpm` | sam-yum-tt/src/pmshim.c:256-281 | the 4-byte pixels built over the input are those a separate copy of the input would have given |
| `Overlay.FlatImage` | sam-yum-tt/src/pmshim.c:256-281 | the pixels read are the input's bytes in their order |
| `Overlay.WritePixel` | sam-yum-tt/src/pmshim.c:296-309 | the three bytes of a pixel are written without touching any pixel not yet written, itself included until its last byte is read |
| `Overlay.WritePpm` | sam-yum-tt/src/pmshim.c:283-309 | rows remapped where they lie and written in order give the header and the remapped image |
| `Overlay.QuantizeInPlace` | sam-job-tt/llvm/root.c:49-57 | reading, remapping and writing in one block gives the answer made from the image that arrived; when nothing is remapped, the input's own pixel bytes |
| `Matrix.WordsDraw` | src/atwbg/matrix.c:97-109 | two mask words draw the eight mirrored pixels of a font byte |
| `Matrix.DitherMeans` | src/atwbg/matrix.c:12-12 | which pixels of a glyph a band's dither keeps on a one-bit screen: all, every second, fourth or eighth, shifted on odd lines |
| `Matrix.Cell` | src/atwbg/matrix.c:89-109 | the cell shows the character at the level, in both depths, and no other byte of the framebuffer changes |
| `Matrix.StepRedraws` | src/atwbg/matrix.c:127-137 | six cells are all that a full redraw would change when the head moves one row: head, band (distance - 1) / 3 up to distance 12, background beyond |
| `Matrix.DrawStep` | src/atwbg/matrix.c:127-137 | at most six cells are drawn, only their bytes change, and the column is as redrawn |
| `Matrix.NeverZero` | src/atwbg/matrix.c:14-20 | the generator never gets stuck: a seed that is not 0 is followed by one that is not 0 |
| `Matrix.Mx.constructor` | src/atwbg/matrix.c:58-81 | every column idle and the screen cleared, which is what a redraw of idle columns gives |
| `Matrix.Mx.Step` | src/atwbg/matrix.c:125-139 | the column is redrawn for its new head, other columns are untouched, and a glyph changes only where the head passed |
| `Matrix.Mx.Column1` | src/atwbg/matrix.c:120-140 | the same for one column, the others untouched |
| `Matrix.Mx.Frame` | src/atwbg/matrix.c:117-142 | per column: an idle one counts up and gets a new speed of 1..3 when it starts; a head waits until tick reaches its speed, then moves one row on, or is idle again when its tail is off the screen; the result is the number of cells drawn, only bytes of those cells change, and every cell shows what a full redraw would show |
| `Matrix.Animate` | src/atwbg/matrix.c:58-142 | after any number of frames on a cleared screen it is as redrawn; every column's history begins staggered, is one such turn after the other, and always has a speed of 1..3 when its head is on |
| `Matrix.Waits` | src/atwbg/matrix.c:121-124 | an idle column counts up by one a frame |
| `Matrix.FallsEvenly` | src/atwbg/matrix.c:125-140 | a head that starts with speed s is in row k / s after k frames |
| `Matrix.Returns` | src/atwbg/matrix.c:136-138 | and is idle again, for at most as many frames as there are rows, once its tail has left the screen |
| `Mono.ClippedMeans` | src/atwbg/atwmono.c:122-130 | the clipping steps intersect the destination with the clip and move the source with it |
| `Mono.Forward` | src/atwbg/atwmono.c:150-158 | the engine's ascending copy equals a copy from a snapshot when each byte is read before it is written, or never written |
| `Mono.Backward` | src/atwbg/atwmono.c:144-149 | so does the descending one, started at the last byte |
| `Mono.Blit` | src/atwbg/atwmono.c:108-163 | accepted exactly when it is a plain copy, both rectangles have one size, and either nothing of the destination is visible or the engine is there and the visible part and its source lie on the screen in whole bytes; then every pixel of the clipped rectangle is the old pixel of the source, overlap or not, and every other pixel stays; otherwise nothing changes |
| `Mono.Replicate` | src/atwbg/atwmono.c:226-236 | with source pitch 0 the byte-aligned middle of one line goes to every line below it |
| `Mono.Fill` | src/atwbg/atwmono.c:192-241 | row replication and edge strips equal the plain fill of the clipped rectangle and change nothing else |
| `Cpio.HexRoundTrip` | scripts/rpm_header.py:119-120 | eight hexadecimal digits are read back as the number |
| `Cpio.PathRoundTrip` | scripts/rpm_header.py:118-118 | of all latin-1 paths exactly the absolute ASCII ones whose second character is neither a dot nor a slash survive, because the writer encodes in UTF-8 and the reader decodes latin-1 and strips dots and slashes |
| `Cpio.WriteCpio` | scripts/rpm_header.py:114-124 | the loop's padding of the output so far gives the archive member by member |
| `Cpio.ReadCpio` | scripts/wcpu_repack.py:34-52 | the cursor loop, which remembers the last body of each number with a non-zero size, and the hard-link pass, with the errors of short and malformed headers; what it returns for an archive is `Cpio.LinksResolved` |
| `Cpio.LinksResolved` | scripts/wcpu_repack.py:34-52 | for any archive of members with any numbers, of either magic: every regular entry with an empty body gets the body of the last member of its number with a non-zero size, if there is one, and every other entry is as it was written |
| `Cpio.ArchiveRoundTrip` | scripts/wcpu_repack.py:34-52 | every archive is read back as its files in order, with their modes and bodies |
| `Cpio.PathsRoundTrip` | scripts/wcpu_repack.py:45-45 | all paths come back if and only if all are plain |
| `Cpio.TrailerHides` | scripts/wcpu_repack.py:42-43 | a file called TRAILER!!! hides itself and every file after it |
| `Rpm.ValueRoundTrip` | scripts/rpm_header.py:47-61 | a value of every type is read back from where the writer put it |
| `Rpm.WriteHeader` | scripts/rpm_header.py:93-111 | the loop that grows index and store, with its alignment |
| `Rpm.HeaderMeans` | scripts/rpm_header.py:90-111 | a written header entry by entry: magic, count and size; tags in ascending order; each entry gives a tag's type, count and place, where its bytes are, integers on a multiple of their size |
| `Rpm.TagsLoop` | scripts/rpm_header.py:41-62 | the loop over index entries, with the errors of offsets and values outside the data |
| `Rpm.HeaderRoundTrip` | scripts/rpm_header.py:32-62 | reading back any header returns every tag's value and no other tag |
| `Rpm.PackageRoundTrip` | scripts/rpm_header.py:65-77 | reading a written package returns both headers' values and the payload |
| `Rpm.FilesRoundTrip` | scripts/rpm_header.py:127-174 | and, through the payload, every file's path, mode and body |

## Left out

- Heap: the 8-byte alignment of returned blocks and the high-water counter are not stated; the bytes that host reads into the payload block are not written in the heap model, only in the network model.
- Network: the `NODE_ANY` branch of host, because the daemon always stamps a node; images without TRAMs; the older build in `sam-job-tt/t4`.
- JobHeap.Heap.Kernel: a kernel frees and writes only blocks of its own and the reply buffer, which is what the source assumes of its kernels.
- Daemon: reading a client's header and payload is one event, so the payload that the failed-read path leaves in the socket is not modelled; both clocks stand still during one event; the three images that a boot tries are one outcome; `due_note`, the topology file, logging, tracing and wiping of buffers are left out.
- EndToEnd.ClientsGetTheirAnswers: speaks of a network whose boot found no half-read reply in the buffer, because with one the property is false (`LinkParser.StaleMisreads`); replies of earlier boots are covered by `JobDaemon.OnlyItsOwner`.
- WireIds.Collide: the run is one in which memory suffices and no link write fails; how long it takes is not modelled.
- Daemon: `busy` is set when the write has succeeded rather than before it, which no other code can observe because `go_down` clears it.
- Scheduler: the per-operation timing constants are the source's, but nothing is claimed about how long jobs really take.
- Fat16Reader.ReadLoop: Python's recursion limit is a parameter; a directory deeper than it, or one that contains itself, is an error here as there. The plan operations, host files and the image's root sector are left out, and names are latin-1.
- Fat16Writer.Build: which of the three refusals is reported first is not stated.
- PNG: scanning the PNM header and the deflate loop itself; a compressor's output is bounded by `pe_zbound`, as the source assumes.
- Overlay: the P6 header is scanned elsewhere; ppmquant's choice of colours is an arbitrary function per pixel; the branch that allocates a separate array is not modelled because `Overlay.QgapSuffices` shows it is not taken for op 'q'.
- Matrix: colour selection (`mx_colours`, `mx_mono`) is a parameter; glyphs are kept per column instead of in one flat array; coordinates do not wrap at 16 bits.
- Mono.Blit: without clipping the source does not test width and height, and programs the engine for a reversed rectangle; what the engine does then is not modelled, so such a rectangle is excluded.
- Mono: the assembler stubs, driver patching and counters; the driver's own fill is modelled as a per-pixel fill of the part that is on the screen; a stuck engine is not modelled; coordinates do not wrap at 16 bits.
- Rpm: the particular list of tags that `write_rpm` builds is any well-typed list that names the package; `file_paths` and `requires` are left out.
- Cpio.ReadCpio: Python's `int(s, 16)` also accepts signs, blanks and underscores; here such a header is an error.
- Everything else in the repository (drivers, probes, GEM tools, keyboard daemon, package tools, build and proxy scripts) is not part of this model.
