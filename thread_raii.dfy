/** Item 37: `ThreadRAII`, an owner of a `std::thread` that, when destroyed,
    joins or detaches the thread so that it is never destroyed joinable.
    The thread of execution itself (what it runs, when it ends) is not
    modelled: only the state of the `std::thread` object. */
module ThreadRaii {

  /** What a `std::thread` object stands for. Only `Attached` is joinable;
      the other four are the unjoinable kinds: default-constructed, joined,
      detached, and moved-from. */
  datatype ThreadState = NoThread | Attached | Joined | Detached | MovedFrom

  /** `ThreadRAII::DtorAction`. */
  datatype DtorAction = Join | Detach

  /** The call a `ThreadRAII` destructor makes on its thread. */
  datatype Disposal = NoCall | CallsJoin | CallsDetach

  /** `std::thread::joinable()`. */
  predicate IsJoinable(s: ThreadState)
  {
    s == Attached
  }

  /** The call the destructor makes, given its thread's state and action. */
  function DisposalFor(s: ThreadState, a: DtorAction): (d: Disposal)
    ensures d == NoCall <==> !IsJoinable(s)
    ensures d == CallsJoin <==> IsJoinable(s) && a.Join?
    ensures d == CallsDetach <==> IsJoinable(s) && a.Detach?
  {
    if s != Attached then NoCall
    else if a.Join? then CallsJoin
    else CallsDetach
  }

  /** The thread's state once the destructor's call has returned. */
  function Disposed(s: ThreadState, a: DtorAction): (s': ThreadState)
    ensures !IsJoinable(s')
    ensures !IsJoinable(s) ==> s' == s
  {
    match DisposalFor(s, a)
    case NoCall => s
    case CallsJoin => Joined
    case CallsDetach => Detached
  }

  /** `std::thread` as far as ownership goes. */
  class Thread {
    var state: ThreadState

    /** `std::thread::joinable()`. */
    predicate Joinable()
      reads this
    {
      IsJoinable(state)
    }

    /** `std::thread{}`: no thread of execution. */
    constructor Empty()
      ensures state == NoThread
    {
      state := NoThread;
    }

    /** `std::thread{f}`: a started thread of execution. */
    constructor Spawn()
      ensures state == Attached
    {
      state := Attached;
    }

    /** `std::thread(std::thread&& other)`: takes over `other`'s thread of
        execution, if any; `other` is left unjoinable. */
    constructor MoveConstruct(other: Thread)
      modifies other
      ensures Joinable() == old(other.Joinable())
      ensures state == if old(other.Joinable()) then Attached else NoThread
      ensures other.state == if old(other.Joinable()) then MovedFrom else old(other.state)
      ensures !other.Joinable()
    {
      state := if other.state == Attached then Attached else NoThread;
      new;
      if other.state == Attached {
        other.state := MovedFrom;
      }
    }

    /** `operator=(std::thread&& other)`: `std::terminate()` when this object
        is still joinable; otherwise it takes over `other`'s thread of
        execution and `other` is left unjoinable. */
    method MoveAssign(other: Thread) returns (terminated: bool)
      modifies this, other
      ensures terminated == old(Joinable())
      ensures terminated ==> unchanged(this) && unchanged(other)
      ensures !terminated ==> Joinable() == old(other.Joinable()) && !(other != this && other.Joinable())
      ensures !terminated && other != this ==>
        state == (if old(other.Joinable()) then Attached else NoThread) &&
        other.state == (if old(other.Joinable()) then MovedFrom else old(other.state))
    {
      terminated := Joinable();
      if !terminated {
        var incoming := other.state == Attached;
        if incoming && other != this {
          other.state := MovedFrom;
        }
        state := if incoming then Attached else NoThread;
      }
    }

    /** `join()`: fails (`std::system_error`) on an unjoinable thread;
        otherwise waits for the thread and leaves this object unjoinable. */
    method Join() returns (ok: bool)
      modifies this
      ensures ok == old(Joinable())
      ensures ok ==> state == Joined
      ensures !ok ==> unchanged(this)
    {
      ok := Joinable();
      if ok {
        state := Joined;
      }
    }

    /** `detach()`: fails on an unjoinable thread; otherwise severs the
        object from its thread of execution. */
    method Detach() returns (ok: bool)
      modifies this
      ensures ok == old(Joinable())
      ensures ok ==> state == Detached
      ensures !ok ==> unchanged(this)
    {
      ok := Joinable();
      if ok {
        state := Detached;
      }
    }

    /** `~thread()` calls `std::terminate()` exactly when the object is
        joinable. */
    predicate DestructorTerminates()
      reads this
    {
      Joinable()
    }
  }

  /** `ThreadRAII`: the action to take and the owned `std::thread` member,
      an object of its own that the moves fill and empty. */
  class ThreadRAII {
    var action: DtorAction
    const t: Thread

    /** `ThreadRAII(std::thread&& t, DtorAction a)`: stores `a` and
        move-constructs the member from the caller's thread, which is left
        unjoinable. */
    constructor (th: Thread, a: DtorAction)
      modifies th
      ensures action == a
      ensures fresh(t)
      ensures t.Joinable() == old(th.Joinable())
      ensures !th.Joinable()
    {
      action := a;
      t := new Thread.MoveConstruct(th);
    }

    /** The defaulted move constructor: moves `action` and `t` member by
        member; the source keeps an unjoinable thread. */
    constructor MoveFrom(other: ThreadRAII)
      modifies other.t
      ensures action == other.action
      ensures fresh(t)
      ensures t.Joinable() == old(other.t.Joinable())
      ensures !other.t.Joinable()
      ensures other.action == old(other.action)
    {
      action := other.action;
      t := new Thread.MoveConstruct(other.t);
    }

    /** The defaulted move assignment: `action` is assigned first, then `t`,
        whose move assignment terminates the program when this object's
        thread is still joinable. */
    method MoveAssign(other: ThreadRAII) returns (terminated: bool)
      modifies this, t, other.t
      ensures action == old(other.action)
      ensures terminated == old(t.Joinable())
      ensures terminated ==> unchanged(t) && unchanged(other.t)
      ensures !terminated ==> t.Joinable() == old(other.t.Joinable())
      ensures !terminated && other.t != t ==> !other.t.Joinable()
    {
      action := other.action;
      terminated := t.MoveAssign(other.t);
    }

    /** `~ThreadRAII()`: when the thread is joinable, join it if the action
        is `Join` and detach it otherwise; an unjoinable thread is left
        alone. Afterwards the member's own destructor cannot terminate. */
    method Destroy() returns (call: Disposal)
      modifies t
      ensures call == DisposalFor(old(t.state), action)
      ensures t.state == Disposed(old(t.state), action)
      ensures !t.DestructorTerminates()
    {
      call := NoCall;
      if t.Joinable() {
        var ok;
        if action.Join? {
          ok := t.Join();
          call := CallsJoin;
        } else {
          ok := t.Detach();
          call := CallsDetach;
        }
      }
    }

    /** `get()`: the owned thread, by reference. */
    method Get() returns (th: Thread)
      ensures th == t
    {
      th := t;
    }
  }

  /** The example scope: a spawned thread wrapped with `Join` is joined when
      the scope ends, and nothing terminates the program. */
  method ScopedJoin() returns (call: Disposal, terminates: bool)
    ensures call == CallsJoin
    ensures !terminates
  {
    var th := new Thread.Spawn();
    var raii := new ThreadRAII(th, Join);
    call := raii.Destroy();
    terminates := raii.t.DestructorTerminates() || th.DestructorTerminates();
  }

  /** Moving a `ThreadRAII` hands the thread to the new owner: destroying
      the moved-from owner makes no call, and the new owner applies the
      action it took over. */
  method MovedFromIsInert(a: DtorAction) returns (fromSource: Disposal, fromTarget: Disposal)
    ensures fromSource == NoCall
    ensures fromTarget == if a.Join? then CallsJoin else CallsDetach
  {
    var th := new Thread.Spawn();
    var source := new ThreadRAII(th, a);
    var target := new ThreadRAII.MoveFrom(source);
    fromSource := source.Destroy();
    fromTarget := target.Destroy();
  }
}
