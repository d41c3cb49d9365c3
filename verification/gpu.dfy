/** The GPU backend (piet-gpu-hal) as seen from the frame ring: opaque
    handles, the fallible calls the ring makes, and the observable history
    of operations the backend has been asked to perform. */
module Gpu {
  import opened Common

  datatype CmdBuf = CmdBuf(id: nat)

  datatype Semaphore = Semaphore(id: nat)

  datatype QueryPool = QueryPool(id: nat, capacity: nat)

  /** A submitted command buffer: the handle `run_cmd_buf` returns. It still
      references the recorded buffer until it is waited on. */
  datatype Submission = Submission(id: nat, cmdBuf: CmdBuf, signal: Semaphore)

  datatype ImageLayout = Undefined | BlitDst | Present

  /** One immediate-mode drawing operation of the render context. */
  datatype DrawOp = DrawOp(id: nat)

  /** Everything the ring asks of the backend, in the order it asks. */
  datatype Op =
    | CreateQueryPool(pool: QueryPool)
    | CreateSemaphore(sem: Semaphore)
    | Wait(sub: Submission)
    | FetchQueryPool(pool: QueryPool)
    | Upload(scene: seq<DrawOp>, slot: nat)
    | Acquire(image: nat, sem: Semaphore)
    | Allocate(buf: CmdBuf)
    | Begin(buf: CmdBuf)
    | Record(buf: CmdBuf, pool: QueryPool, slot: nat)
    | Barrier(buf: CmdBuf, image: nat, from: ImageLayout, to: ImageLayout)
    | Blit(buf: CmdBuf, image: nat)
    | Finish(buf: CmdBuf)
    | Submit(sub: Submission, waitOn: seq<Semaphore>)
    | PresentImage(image: nat, waitOn: seq<Semaphore>)

  /** The backend calls that return a `Result` in the source. */
  datatype Call =
    | CreateQueryPoolCall
    | CreateSemaphoreCall
    | WaitCall
    | FetchCall
    | UploadCall
    | AcquireCall
    | AllocateCall
    | SubmitCall
    | PresentCall

  /** Why a frame panicked. */
  datatype Fault = MissingResource(name: string) | IndexOutOfBounds | GpuError(call: Call)

  /** The backend: a source of fresh handle numbers and the history of
      operations issued so far. */
  datatype Backend = Backend(next: nat, trace: seq<Op>)
}
