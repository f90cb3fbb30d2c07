/** The in-memory task queue: a pending channel and an inflight map. */
module TaskQueue {
  import opened Text

  type TaskId = string

  const CAPACITY := 10000

  datatype Task = Task(id: TaskId, data: string)

  /** The queue's two places, as a value. */
  datatype Queue = Queue(pending: seq<Task>, inflight: map<TaskId, Task>) {
    predicate HasRoom() { |pending| < CAPACITY }
    function Send(task: Task): Queue { this.(pending := pending + [task]) }
    function Receive(): Queue
      requires pending != []
    {
      this.(pending := pending[1..])
    }
    function Register(task: Task): Queue { this.(inflight := inflight[task.id := task]) }
    function Forget(id: TaskId): Queue { this.(inflight := inflight - {id}) }
  }

  /** `memoryQueue`. Pull and Nack are two atomic actions each; between them a task is in
      neither place. */
  class MemoryQueue {
    var pending: seq<Task>
    var inflight: map<TaskId, Task>

    function Value(): Queue
      reads this
    {
      Queue(pending, inflight)
    }

    constructor ()
      ensures Value() == Queue([], map[])
    {
      pending, inflight := [], map[];
    }

    /** A send on the pending channel: refused while it is full, when only the end of the
        caller's context can wake it. */
    method TrySend(task: Task) returns (sent: bool)
      modifies this`pending
      ensures sent == old(Value()).HasRoom()
      ensures Value() == if sent then old(Value()).Send(task) else old(Value())
    {
      sent := |pending| < CAPACITY;
      if sent {
        pending := pending + [task];
      }
    }

    method TryReceive() returns (task: Option<Task>)
      modifies this`pending
      ensures old(pending) == [] ==> task == None && Value() == old(Value())
      ensures old(pending) != [] ==> task == Some(old(pending)[0]) && Value() == old(Value()).Receive()
    {
      if pending == [] {
        return None;
      }
      task := Some(pending[0]);
      pending := pending[1..];
    }

    method Register(task: Task)
      modifies this`inflight
      ensures Value() == old(Value()).Register(task)
    {
      inflight := inflight[task.id := task];
    }

    method Ack(id: TaskId)
      modifies this`inflight
      ensures Value() == old(Value()).Forget(id)
    {
      inflight := inflight - {id};
    }

    /** The mutex section of Nack: the task to send back, if it was inflight. */
    method TakeBack(id: TaskId) returns (task: Option<Task>)
      modifies this`inflight
      ensures task == if id in old(inflight) then Some(old(inflight)[id]) else None
      ensures Value() == old(Value()).Forget(id)
    {
      if id in inflight {
        task := Some(inflight[id]);
        inflight := inflight - {id};
      } else {
        task := None;
        assert inflight == inflight - {id};
      }
    }
  }
}
