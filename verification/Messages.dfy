/**
 Values shared by every component: identifiers, descriptors, messages and errors.

 Instance ids, message ids and lock ids are GUIDs (or idempotency keys) that the
 runtime only compares for equality, so they are naturals here; where freshness
 matters it is written out as a guard.
 */
module Messages {
  type Id = nat

  datatype Option<+T> = None | Some(value: T)

  datatype SagaDescriptor = SagaDescriptor(
    sagaType: string,
    sagaStateType: Option<string>,
    initiatorTypes: set<string>)

  datatype MessageContext = MessageContext(messageId: Id, correlationId: string, messageType: string)

  datatype Envelope = Envelope(messageId: Id, correlationId: string, senderId: Id, messageType: string)

  datatype Error =
    | LockException
    | OptimisticLockException
    | SagaException(cause: Error)
    | AggregateException(inner: seq<Error>)
    | ApplicationException
    | ArgumentException
    | InvalidOperationException
    | DbUpdateException
    | DbUpdateConcurrencyException
    | OperationCanceledException
    | UserException(tag: nat)

  /** What a call returns, or the exception it throws. */
  datatype Result<+T> = Success(value: T) | Failure(error: Error)

  function Min(a: int, b: int): int { if a <= b then a else b }

  /** What identifies a saga: its correlation id and its types. */
  datatype SagaKey = SagaKey(correlationId: string, sagaType: string, sagaStateType: Option<string>)

  function KeyOf(descriptor: SagaDescriptor, correlationId: string): SagaKey {
    SagaKey(correlationId, descriptor.sagaType, descriptor.sagaStateType)
  }

  /** The `LockId` property of an instance: null, the empty string, or a GUID. */
  datatype LockField = Null | Empty | Guid(id: Id)

  /** What BeginProcessingAsync throws for an error of one of its two attempts. */
  function Raise(retry: bool, e: Error): Error {
    if retry then AggregateException([OptimisticLockException, e]) else e
  }
}
