/**
 The MT5 gateway's command handler: a result key and a state key per idempotency key, replies, and
 acknowledgements of stream messages. Every Redis or terminal operation may fail before or after its effect,
 or the process may die at it; an unacknowledged message is delivered again.
 */
module Gateway {
  import opened Common

  datatype Key = Key(operation: string, id: string)

  datatype Message = Message(id: nat, key: Key)

  type Data = string

  datatype Event =
    | Dispatched(key: Key, answer: Option<Data>)
    | Expired(key: Key)
    | Replied(message: nat, key: Key, data: Data)
    | Refused(message: nat)

  /** Redis as the handler sees it, and what happened so far. */
  datatype Store = Store(results: map<Key, Data>, locks: set<Key>, acked: set<nat>, log: seq<Event>)

  /** The next operation of a handler. */
  datatype Pc =
    | Read | Lock | Dispatching | Save(data: Data) | Unlock(data: Data) | ReplyOk(data: Data) | AckOk
    | ReplyError | AckError

  /** How an operation goes; `data` is what the terminal answers. */
  datatype Choice = Fine(data: Data) | FailsBefore | FailsAfter | Dies

  datatype Then = Go(pc: Pc) | Stop

  predicate HasKey(k: Key) {
    k.id != ""
  }

  function Logged(s: Store, e: Event): Store {
    s.(log := s.log + [e])
  }

  /** One operation of `_handle`. A failure in the normal path leads to the error reply; there it escapes. */
  function Next(s: Store, m: Message, pc: Pc, c: Choice): (Store, Then) {
    if c.Dies? then (s, Stop)
    else
      var k := m.key;
      match pc
      case Read =>
        (s, if !c.Fine? then Go(ReplyError)
            else if !HasKey(k) then Go(Dispatching)
            else if k in s.results then Go(ReplyOk(s.results[k]))
            else Go(Lock))
      case Lock =>
        if c.FailsBefore? then (s, Go(ReplyError))
        else (s.(locks := s.locks + {k}), if c.Fine? && k !in s.locks then Go(Dispatching) else Go(ReplyError))
      case Dispatching =>
        if c.Fine?
          then (Logged(s, Dispatched(k, Some(c.data))), Go(if HasKey(k) then Save(c.data) else ReplyOk(c.data)))
        else (Logged(s, Dispatched(k, None)), Go(ReplyError))
      case Save(data) =>
        if c.FailsBefore? then (s, Go(ReplyError))
        else (s.(results := s.results[k := data]), if c.Fine? then Go(Unlock(data)) else Go(ReplyError))
      case Unlock(data) =>
        if c.FailsBefore? then (s, Go(ReplyError))
        else (s.(locks := s.locks - {k}), if c.Fine? then Go(ReplyOk(data)) else Go(ReplyError))
      case ReplyOk(data) =>
        if c.FailsBefore? then (s, Go(ReplyError))
        else (Logged(s, Replied(m.id, k, data)), if c.Fine? then Go(AckOk) else Go(ReplyError))
      case AckOk =>
        if c.FailsBefore? then (s, Go(ReplyError))
        else (s.(acked := s.acked + {m.id}), if c.Fine? then Stop else Go(ReplyError))
      case ReplyError =>
        if c.FailsBefore? then (s, Stop)
        else (Logged(s, Refused(m.id)), if c.Fine? then Go(AckError) else Stop)
      case AckError =>
        (if c.FailsBefore? then s else s.(acked := s.acked + {m.id}), Stop)
  }

  function Rank(pc: Pc): nat {
    match pc
    case Read => 8
    case Lock => 7
    case Dispatching => 6
    case Save(_) => 5
    case Unlock(_) => 4
    case ReplyOk(_) => 3
    case AckOk => 2
    case ReplyError => 1
    case AckError => 0
  }

  /** How each operation of one handler goes. */
  datatype Choices = Choices(
    read: Choice, lock: Choice, dispatch: Choice, save: Choice, unlock: Choice,
    replyOk: Choice, ackOk: Choice, replyError: Choice, ackError: Choice)
  {
    function At(pc: Pc): Choice {
      match pc
      case Read => read
      case Lock => lock
      case Dispatching => dispatch
      case Save(_) => save
      case Unlock(_) => unlock
      case ReplyOk(_) => replyOk
      case AckOk => ackOk
      case ReplyError => replyError
      case AckError => ackError
    }
  }

  /** A handler run to its end. */
  function Drive(s: Store, m: Message, pc: Pc, c: Choices): Store
    decreases Rank(pc)
  {
    var (t, then') := Next(s, m, pc, c.At(pc));
    if then'.Stop? then t else Drive(t, m, then'.pc, c)
  }

  // ------------------------------------------------------------------ the gateway

  datatype End = Completed | Raised | Died

  class MT5Gateway {
    var results: map<Key, Data>
    var locks: set<Key>
    var acked: set<nat>
    ghost var log: seq<Event>

    ghost function View(): Store
      reads this
    {
      Store(results, locks, acked, log)
    }

    constructor ()
      ensures View() == Store(map[], {}, {}, [])
    {
      results, locks, acked, log := map[], {}, {}, [];
    }

    /** `_handle`: the body of its `try`, and the error reply when that raised. */
    method Handle(m: Message, c: Choices)
      modifies this
      ensures View() == Drive(old(View()), m, Read, c)
    {
      var end := Execute(m, c);
      if end.Raised? {
        if c.replyError.FailsBefore? || c.replyError.Dies? {
          return;
        }
        log := log + [Refused(m.id)];
        if c.replyError.FailsAfter? || c.ackError.FailsBefore? || c.ackError.Dies? {
          return;
        }
        acked := acked + {m.id};
      }
    }

    method Execute(m: Message, c: Choices) returns (end: End)
      modifies this
      ensures Drive(old(View()), m, Read, c) == if end.Raised? then Drive(View(), m, ReplyError, c) else View()
    {
      var k := m.key;
      var data: Data;
      if !c.read.Fine? {
        return if c.read.Dies? then Died else Raised;
      }
      if HasKey(k) && k in results {
        data := results[k];
      } else {
        if HasKey(k) {
          if c.lock.FailsBefore? || c.lock.Dies? {
            return if c.lock.Dies? then Died else Raised;
          }
          var taken := k in locks;
          locks := locks + {k};
          if taken || c.lock.FailsAfter? {
            return Raised;
          }
        }
        assert Drive(old(View()), m, Read, c) == Drive(View(), m, Dispatching, c);
        if c.dispatch.Dies? {
          return Died;
        }
        log := log + [Dispatched(k, if c.dispatch.Fine? then Some(c.dispatch.data) else None)];
        if !c.dispatch.Fine? {
          return Raised;
        }
        data := c.dispatch.data;
        if HasKey(k) {
          assert Drive(old(View()), m, Read, c) == Drive(View(), m, Save(data), c);
          if c.save.FailsBefore? || c.save.Dies? {
            return if c.save.Dies? then Died else Raised;
          }
          results := results[k := data];
          if c.save.FailsAfter? {
            return Raised;
          }
          assert Drive(old(View()), m, Read, c) == Drive(View(), m, Unlock(data), c);
          if c.unlock.FailsBefore? || c.unlock.Dies? {
            return if c.unlock.Dies? then Died else Raised;
          }
          locks := locks - {k};
          if c.unlock.FailsAfter? {
            return Raised;
          }
        }
      }
      assert Drive(old(View()), m, Read, c) == Drive(View(), m, ReplyOk(data), c);
      if c.replyOk.FailsBefore? || c.replyOk.Dies? {
        return if c.replyOk.Dies? then Died else Raised;
      }
      log := log + [Replied(m.id, k, data)];
      if c.replyOk.FailsAfter? {
        return Raised;
      }
      assert Drive(old(View()), m, Read, c) == Drive(View(), m, AckOk, c);
      if c.ackOk.FailsBefore? || c.ackOk.Dies? {
        return if c.ackOk.Dies? then Died else Raised;
      }
      acked := acked + {m.id};
      return if c.ackOk.FailsAfter? then Raised else Completed;
    }
  }
}
