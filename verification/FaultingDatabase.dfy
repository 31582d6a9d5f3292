/** The fault-injecting wrapper that `FaultingDatabaseService` puts around a pooled client.

    `wrapClient` replaces `client.query` by a closure with its own `inTransaction` flag.  A pooled
    client is wrapped again at every checkout, so one client carries a stack of closures: `flags`
    lists their flags, innermost first. */
module FaultingDatabase {

  type Row = nat

  /** The active fault hook.  `OtherHook` stands for the business hooks, which no closure tests. */
  datatype Hook =
    | NoHook
    | DbTransactionAbort
    | DbConnectionLost
    | DbConnectionRefused
    | DbPoolUnavailable
    | OtherHook

  /** `accepted` says whether the database itself lets the write pass its constraints. */
  datatype Statement = Begin | Commit | Rollback | Write(row: Row, accepted: bool)

  datatype Transaction = Closed | Open(writes: seq<Row>) | Aborted

  datatype Db = Db(committed: seq<Row>, tx: Transaction)

  datatype Reply = Done | RefusedByDatabase | InjectedFault(hook: Hook)

  predicate EndsTransaction(s: Statement) {
    s.Commit? || s.Rollback?
  }

  /** What the real connection does with one statement. */
  function Execute(db: Db, s: Statement): (Db, Reply) {
    match (db.tx, s)
    case (Closed, Begin) => (db.(tx := Open([])), Done)
    case (Closed, Write(row, accepted)) =>
      if accepted then (db.(committed := db.committed + [row]), Done) else (db, RefusedByDatabase)
    case (Closed, _) => (db, Done)
    case (Open(writes), Begin) => (db, Done)
    case (Open(writes), Commit) => (Db(db.committed + writes, Closed), Done)
    case (Open(writes), Rollback) => (db.(tx := Closed), Done)
    case (Open(writes), Write(row, accepted)) =>
      if accepted then (db.(tx := Open(writes + [row])), Done) else (db.(tx := Aborted), RefusedByDatabase)
    case (Aborted, Commit) => (db.(tx := Closed), Done)
    case (Aborted, Rollback) => (db.(tx := Closed), Done)
    case (Aborted, _) => (db, RefusedByDatabase)
  }

  datatype Answer = Answer(flags: seq<bool>, db: Db, reply: Reply)

  /** What one closure does with a statement: pass it on with its flag at `flag`, roll back and
      throw, or throw at once. */
  datatype Reaction = Forward(flag: bool) | UndoAndThrow | Throw

  function React(hook: Hook, flag: bool, s: Statement): Reaction {
    var current := if s.Begin? then true else if EndsTransaction(s) then false else flag;
    if hook == DbTransactionAbort && current && !s.Begin? then UndoAndThrow
    else if hook == DbConnectionLost then if current then UndoAndThrow else Throw
    else Forward(current)
  }

  /** A query on the closure at depth `depth`; depth 0 is the driver's own query. */
  function AskAt(hook: Hook, flags: seq<bool>, depth: nat, db: Db, s: Statement): (a: Answer)
    requires depth <= |flags|
    ensures |a.flags| == |flags| && forall i :: depth <= i < |flags| ==> a.flags[i] == flags[i]
    decreases depth
  {
    if depth == 0 then
      var (db', reply) := Execute(db, s);
      Answer(flags, db', reply)
    else
      var own := depth - 1;
      match React(hook, flags[own], s)
      case Forward(flag) => AskAt(hook, flags[own := flag], own, db, s)
      case UndoAndThrow => AskAt(hook, flags[own := false], own, db, Rollback).(reply := InjectedFault(hook))
      case Throw => Answer(flags[own := false], db, InjectedFault(hook))
  }

  /** One query on a stack of wrappers, the outermost (last) one being asked. */
  function Ask(hook: Hook, flags: seq<bool>, db: Db, s: Statement): (a: Answer)
    ensures |a.flags| == |flags|
  {
    AskAt(hook, flags, |flags|, db, s)
  }

  // ----- The classes of the source --------------------------------------------------------------

  class ConfigurableFaultInjectionPort {
    var activeHook: Hook

    constructor ()
      ensures activeHook == NoHook
    {
      activeHook := NoHook;
    }

    method SetActiveHook(hook: Hook)
      modifies this
      ensures activeHook == hook
    {
      activeHook := hook;
    }

    method Clear()
      modifies this
      ensures activeHook == NoHook
    {
      activeHook := NoHook;
    }
  }

  /** A pooled client with the closures that `wrapClient` has stacked on its `query` so far. */
  class PoolClient {
    const faults: ConfigurableFaultInjectionPort
    var db: Db
    var flags: seq<bool>

    constructor (faults: ConfigurableFaultInjectionPort, committed: seq<Row>)
      ensures this.faults == faults && db == Db(committed, Closed) && flags == []
    {
      this.faults := faults;
      db := Db(committed, Closed);
      flags := [];
    }

    /** The connect proxy: refuse, or wrap the client once more. */
    method Connect() returns (reply: Reply)
      modifies this
      ensures db == old(db)
      ensures Checkout(faults.activeHook, old(flags)) == (flags, reply)
    {
      var hook := faults.activeHook;
      if RefusesCheckout(hook) {
        return InjectedFault(hook);
      }
      flags := flags + [false];
      reply := Done;
    }

    /** The closure at depth `depth`; depth 0 is the driver's own query. */
    method QueryAt(depth: nat, s: Statement) returns (reply: Reply)
      requires depth <= |flags|
      modifies this
      ensures Answer(flags, db, reply) == AskAt(faults.activeHook, old(flags), depth, old(db), s)
      decreases depth, 0
    {
      if depth == 0 {
        var (db', r) := Execute(db, s);
        db := db';
        return r;
      }
      var own := depth - 1;
      var hook := faults.activeHook;
      if s.Begin? {
        flags := flags[own := true];
      }
      if EndsTransaction(s) {
        flags := flags[own := false];
      }
      if hook == DbTransactionAbort && flags[own] && !s.Begin? {
        reply := RollBackAndThrow(depth, hook);
      } else if hook == DbConnectionLost && flags[own] {
        reply := RollBackAndThrow(depth, hook);
      } else if hook == DbConnectionLost {
        assert flags == old(flags)[own := false];
        reply := InjectedFault(hook);
      } else {
        assert flags == old(flags)[own := flags[own]];
        reply := QueryAt(own, s);
      }
    }

    /** Clear the closure's own flag, roll back one level further in, and throw. */
    method RollBackAndThrow(depth: nat, hook: Hook) returns (reply: Reply)
      requires 0 < depth <= |flags| && hook == faults.activeHook
      modifies this
      ensures Answer(flags, db, reply) ==
        AskAt(hook, old(flags)[depth - 1 := false], depth - 1, old(db), Rollback).(reply := InjectedFault(hook))
      decreases depth - 1, 1
    {
      flags := flags[depth - 1 := false];
      var ignored := QueryAt(depth - 1, Rollback);
      reply := InjectedFault(hook);
    }

    method Query(s: Statement) returns (reply: Reply)
      modifies this
      ensures Answer(flags, db, reply) == Ask(faults.activeHook, old(flags), old(db), s)
    {
      reply := QueryAt(|flags|, s);
    }

    /** A repository's transaction block while a test schedules the hook before each query: stop at
        the first error, then roll back. */
    method RunTransaction(plan: TransactionPlan) returns (ok: bool)
      modifies this, faults
      ensures Attempted(flags, db, ok) == Attempt(old(flags), old(db), plan)
    {
      faults.SetActiveHook(plan.beginHook);
      var reply := Query(Begin);
      var i := 0;
      while reply == Done && i < |plan.writes|
        invariant i <= |plan.writes|
        invariant reply == Done ==>
          Attempt(old(flags), old(db), plan) == FinishWrites(flags, db, plan.writes[i..], plan)
        invariant reply != Done ==> Attempt(old(flags), old(db), plan) == CleanUp(flags, db, plan.rollbackHook)
        decreases |plan.writes| - i, reply == Done
      {
        faults.SetActiveHook(plan.writes[i].hook);
        assert plan.writes[i..][0] == plan.writes[i] && plan.writes[i..][1..] == plan.writes[i + 1..];
        reply := Query(Write(plan.writes[i].row, plan.writes[i].accepted));
        i := i + 1;
      }
      if reply == Done {
        faults.SetActiveHook(plan.commitHook);
        reply := Query(Commit);
      }
      if reply != Done {
        faults.SetActiveHook(plan.rollbackHook);
        var ignored := Query(Rollback);
        return false;
      }
      return true;
    }

    /** The same block with reads of the new row through the pool after COMMIT, inside the `try`. */
    method RunTransactionAndReadBack(plan: TransactionPlan, readHooks: seq<Hook>, found: bool) returns (ok: bool)
      modifies this, faults
      ensures Attempted(flags, db, ok) == AttemptAndReadBack(old(flags), old(db), plan, readHooks, found)
    {
      ok := RunTransaction(plan);
      if ok {
        var threw := false;
        var i := 0;
        while !threw && i < |readHooks|
          invariant i <= |readHooks| && flags == Attempt(old(flags), old(db), plan).flags
          invariant db == Attempt(old(flags), old(db), plan).db
          invariant threw <==> exists k :: 0 <= k < i && PoolQueryThrows(readHooks[k])
        {
          faults.SetActiveHook(readHooks[i]);
          threw := PoolQueryThrows(faults.activeHook);
          i := i + 1;
        }
        if threw || !found {
          faults.SetActiveHook(plan.rollbackHook);
          var ignored := Query(Rollback);
          ok := false;
        }
      }
    }

    /** A whole visit: the checkout, which skips the block when refused, and the block. */
    method CheckOutAndRun(visit: Visit) returns (ok: bool)
      modifies this, faults
      ensures Attempted(flags, db, ok) == VisitOnce(old(flags), old(db), visit)
    {
      faults.SetActiveHook(visit.connectHook);
      var reply := Connect();
      if reply != Done {
        return false;
      }
      ok := RunTransactionAndReadBack(visit.plan, visit.readHooks, visit.found);
    }
  }

  predicate RefusesCheckout(hook: Hook) {
    hook == DbConnectionRefused || hook == DbPoolUnavailable
  }

  function Checkout(hook: Hook, flags: seq<bool>): (seq<bool>, Reply) {
    if RefusesCheckout(hook) then (flags, InjectedFault(hook))
    else (flags + [false], Done)
  }

  /** The hooks under which a query on the pool itself throws. */
  predicate PoolQueryThrows(hook: Hook) {
    hook == DbConnectionLost || hook == DbPoolUnavailable
  }

  /** A single wrapper. */
  lemma AskOne(hook: Hook, flag: bool, db: Db, s: Statement)
    ensures Ask(hook, [flag], db, s) ==
      match React(hook, flag, s)
      case Forward(f) => Answer([f], Execute(db, s).0, Execute(db, s).1)
      case UndoAndThrow => Answer([false], Execute(db, Rollback).0, InjectedFault(hook))
      case Throw => Answer([false], db, InjectedFault(hook))
  {
    match React(hook, flag, s)
    case Forward(f) =>
      assert [flag][0 := f] == [f];
      assert AskAt(hook, [f], 0, db, s) == Answer([f], Execute(db, s).0, Execute(db, s).1);
    case _ =>
      assert [flag][0 := false] == [false];
      assert AskAt(hook, [false], 0, db, Rollback) == Answer([false], Execute(db, Rollback).0, Execute(db, Rollback).1);
  }

  // ----- A stack of wrappers behaves like its innermost wrapper ---------------------------------

  /** No flag is set above a clear innermost one. */
  ghost predicate Ordered(flags: seq<bool>) {
    flags != [] && (flags[0] || forall i :: 0 <= i < |flags| ==> !flags[i])
  }

  function Copies(n: nat, b: bool): (s: seq<bool>)
    ensures |s| == n && forall i :: 0 <= i < n ==> s[i] == b
  {
    if n == 0 then [] else Copies(n - 1, b) + [b]
  }

  /** One wrapper's effect on the database, when the connection is not lost. */
  function Effect(hook: Hook, flag: bool, db: Db, s: Statement): (Db, Reply) {
    if hook == DbTransactionAbort && s.Write? && flag then (Execute(db, Rollback).0, InjectedFault(hook))
    else Execute(db, s)
  }

  function FlagsAfter(hook: Hook, flags: seq<bool>, s: Statement): seq<bool>
    requires flags != []
  {
    if s.Begin? then Copies(|flags|, true)
    else if EndsTransaction(s) || (hook == DbTransactionAbort && flags[0]) then Copies(|flags|, false)
    else flags
  }

  lemma {:induction false} BeginStep(hook: Hook, flags: seq<bool>, depth: nat, db: Db)
    requires depth <= |flags| && hook != DbConnectionLost
    ensures var a := AskAt(hook, flags, depth, db, Begin);
      (a.db, a.reply) == Execute(db, Begin) && forall i :: 0 <= i < depth ==> a.flags[i]
    decreases depth
  {
    if depth > 0 {
      BeginStep(hook, flags[depth - 1 := true], depth - 1, db);
    }
  }

  lemma {:induction false} EndStep(hook: Hook, flags: seq<bool>, depth: nat, db: Db, s: Statement)
    requires depth <= |flags| && hook != DbConnectionLost && EndsTransaction(s)
    ensures var a := AskAt(hook, flags, depth, db, s);
      (a.db, a.reply) == Execute(db, s) && forall i :: 0 <= i < depth ==> !a.flags[i]
    decreases depth
  {
    if depth > 0 {
      EndStep(hook, flags[depth - 1 := false], depth - 1, db, s);
    }
  }

  /** A write that no wrapper minds passes through. */
  lemma {:induction false} WritePasses(hook: Hook, flags: seq<bool>, depth: nat, db: Db, s: Statement)
    requires depth <= |flags| && hook != DbConnectionLost && s.Write?
    requires hook == DbTransactionAbort ==> forall i :: 0 <= i < depth ==> !flags[i]
    ensures AskAt(hook, flags, depth, db, s) == Answer(flags, Execute(db, s).0, Execute(db, s).1)
    decreases depth
  {
    if depth > 0 {
      assert flags[depth - 1 := flags[depth - 1]] == flags;
      WritePasses(hook, flags, depth - 1, db, s);
    }
  }

  /** A write inside a transaction that is to be aborted: one rollback reaches the database, and
      every flag is cleared. */
  lemma {:induction false} WriteAborts(flags: seq<bool>, depth: nat, db: Db, s: Statement)
    requires 0 < depth <= |flags| && flags[0] && s.Write?
    ensures var a := AskAt(DbTransactionAbort, flags, depth, db, s);
      && a.db == Execute(db, Rollback).0 && a.reply == InjectedFault(DbTransactionAbort)
      && forall i :: 0 <= i < depth ==> !a.flags[i]
    decreases depth
  {
    if flags[depth - 1] {
      EndStep(DbTransactionAbort, flags[depth - 1 := false], depth - 1, db, Rollback);
    } else {
      assert flags[depth - 1 := false] == flags;
      WriteAborts(flags, depth - 1, db, s);
    }
  }

  /** The whole stack in closed form. */
  lemma StackStep(hook: Hook, flags: seq<bool>, db: Db, s: Statement)
    requires Ordered(flags) && hook != DbConnectionLost
    ensures Ask(hook, flags, db, s) ==
      Answer(FlagsAfter(hook, flags, s), Effect(hook, flags[0], db, s).0, Effect(hook, flags[0], db, s).1)
  {
    if s.Begin? {
      BeginStep(hook, flags, |flags|, db);
    } else if EndsTransaction(s) {
      EndStep(hook, flags, |flags|, db, s);
    } else if hook == DbTransactionAbort && flags[0] {
      WriteAborts(flags, |flags|, db, s);
    } else {
      WritePasses(hook, flags, |flags|, db, s);
    }
  }

  datatype Event = Query(hook: Hook, s: Statement) | Connect(hook: Hook)

  datatype Trace = Trace(flags: seq<bool>, db: Db, replies: seq<Reply>)

  function StackRun(flags: seq<bool>, db: Db, events: seq<Event>): (t: Trace)
    ensures |t.replies| == |events|
    decreases |events|
  {
    if events == [] then Trace(flags, db, [])
    else match events[0]
      case Query(hook, s) =>
        var a := Ask(hook, flags, db, s);
        var rest := StackRun(a.flags, a.db, events[1..]);
        rest.(replies := [a.reply] + rest.replies)
      case Connect(hook) =>
        var (flags', reply) := Checkout(hook, flags);
        var rest := StackRun(flags', db, events[1..]);
        rest.(replies := [reply] + rest.replies)
  }

  /** The reference: one wrapper that is never wrapped again. */
  function OneWrapperRun(flag: bool, db: Db, events: seq<Event>): Trace
    decreases |events|
  {
    if events == [] then Trace([flag], db, [])
    else match events[0]
      case Query(hook, s) =>
        var a := Ask(hook, [flag], db, s);
        var rest := OneWrapperRun(a.flags[0], a.db, events[1..]);
        rest.(replies := [a.reply] + rest.replies)
      case Connect(hook) =>
        var rest := OneWrapperRun(flag, db, events[1..]);
        rest.(replies := [Checkout(hook, [flag]).1] + rest.replies)
  }

  /** Without `DbConnectionLost`, a client checked out any number of times, at any moment, answers
      every query, throws and changes the database exactly as one wrapper does. */
  lemma {:induction false} StackRefinesOneWrapper(flags: seq<bool>, db: Db, events: seq<Event>)
    requires Ordered(flags)
    requires forall i :: 0 <= i < |events| ==> events[i].hook != DbConnectionLost
    ensures var t, one := StackRun(flags, db, events), OneWrapperRun(flags[0], db, events);
      && t.replies == one.replies && t.db == one.db && Ordered(t.flags) && [t.flags[0]] == one.flags
    decreases |events|
  {
    if events != [] {
      match events[0]
      case Query(hook, s) =>
        StackStep(hook, flags, db, s);
        StackStep(hook, [flags[0]], db, s);
        var a := Ask(hook, flags, db, s);
        StackRefinesOneWrapper(a.flags, a.db, events[1..]);
      case Connect(hook) =>
        StackRefinesOneWrapper(Checkout(hook, flags).0, db, events[1..]);
    }
  }

  ghost predicate AllEqual(flags: seq<bool>) {
    flags != [] && flags == Copies(|flags|, flags[0])
  }

  /** Between checkouts the flags of all wrappers are equal after every query. */
  lemma {:induction false} FlagsStayEqual(flags: seq<bool>, db: Db, events: seq<Event>)
    requires AllEqual(flags)
    requires forall i :: 0 <= i < |events| ==> events[i].Query? && events[i].hook != DbConnectionLost
    ensures AllEqual(StackRun(flags, db, events).flags)
    decreases |events|
  {
    if events != [] {
      StackStep(events[0].hook, flags, db, events[0].s);
      var a := Ask(events[0].hook, flags, db, events[0].s);
      FlagsStayEqual(a.flags, a.db, events[1..]);
    }
  }

  /** Under `DbConnectionLost` an inner wrapper swallows the rollback of the wrapper around it.  From
      any flags, a stack of two or more parts from one wrapper with flag `flag` on exactly the
      statements that this one wrapper would have rolled back. */
  lemma LostConnectionDivergence(flags: seq<bool>, flag: bool, db: Db, s: Statement)
    requires |flags| >= 2
    ensures var a, one := Ask(DbConnectionLost, flags, db, s), Ask(DbConnectionLost, [flag], db, s);
      && a.reply == one.reply == InjectedFault(DbConnectionLost) && a.db == db
      && (a.db == one.db <==> db.tx.Closed? || !(s.Begin? || (flag && s.Write?)))
  {
    LostOnStack(flags, db, s);
    LostOnStack([flag], db, s);
  }

  /** Two wrappers keep a transaction open that one wrapper rolls back. */
  lemma LostWriteStaysPending()
    ensures Ask(DbConnectionLost, [true, true], Db([], Open([1])), Write(2, true)).db == Db([], Open([1]))
    ensures Ask(DbConnectionLost, [true], Db([], Open([1])), Write(2, true)).db == Db([], Closed)
  {
    LostOnStack([true, true], Db([], Open([1])), Write(2, true));
    LostOnStack([true], Db([], Open([1])), Write(2, true));
  }

  /** A query on a stack while the connection counts as lost: it always throws, and the database is
      rolled back only when the asked wrapper is the only one. */
  lemma LostOnStack(flags: seq<bool>, db: Db, s: Statement)
    requires flags != []
    ensures var n := |flags|;
      Ask(DbConnectionLost, flags, db, s) ==
        if React(DbConnectionLost, flags[n - 1], s).Throw? then
          Answer(flags[n - 1 := false], db, InjectedFault(DbConnectionLost))
        else if n == 1 then Answer([false], Execute(db, Rollback).0, InjectedFault(DbConnectionLost))
        else Answer(flags[n - 1 := false][n - 2 := false], db, InjectedFault(DbConnectionLost))
  {
    var own := |flags| - 1;
    assert |flags| == 1 ==> flags[own := false] == [false];
    if React(DbConnectionLost, flags[own], s).UndoAndThrow? {
      assert AskAt(DbConnectionLost, flags[own := false], own, db, Rollback).db
          == if own == 0 then Execute(db, Rollback).0 else db;
    }
  }

  // ----- One wrapper: the flag against the connection -------------------------------------------

  ghost predicate Agree(flag: bool, db: Db) {
    flag <==> !db.tx.Closed?
  }

  /** A transaction is ended by the caller while the connection counts as lost. */
  ghost predicate Leaks(e: Event, db: Db) {
    e.Query? && e.hook == DbConnectionLost && EndsTransaction(e.s) && !db.tx.Closed?
  }

  ghost predicate Repairs(e: Event) {
    e.Query? && (e.s.Begin? || (EndsTransaction(e.s) && e.hook != DbConnectionLost))
  }

  lemma FlagStep(e: Event, flag: bool, db: Db)
    requires e.Query? && (flag ==> !db.tx.Closed?)
    ensures var a := Ask(e.hook, [flag], db, e.s);
      && (a.flags[0] ==> !a.db.tx.Closed?)
      && (Agree(a.flags[0], a.db) <==> !Leaks(e, db) && (Repairs(e) || Agree(flag, db)))
  {
    AskOne(e.hook, flag, db, e.s);
  }

  /** The state before the `i`-th of a run of queries. */
  function StateAt(flag: bool, db: Db, events: seq<Event>, i: nat): (bool, Db)
    requires i <= |events|
  {
    if i == 0 then (flag, db)
    else
      var (f, d) := StateAt(flag, db, events, i - 1);
      match events[i - 1]
      case Query(hook, s) => var a := Ask(hook, [f], d, s); (a.flags[0], a.db)
      case Connect(_) => (f, d)
  }

  ghost predicate LeakAt(flag: bool, db: Db, events: seq<Event>, i: nat)
    requires i < |events|
  {
    Leaks(events[i], StateAt(flag, db, events, i).1)
  }

  ghost predicate RepairedBetween(events: seq<Event>, i: nat, n: nat)
    requires n <= |events|
  {
    exists j :: i < j < n && Repairs(events[j])
  }

  ghost predicate EveryLeakRepaired(flag: bool, db: Db, events: seq<Event>, n: nat)
    requires n <= |events|
  {
    forall i :: 0 <= i < n && LeakAt(flag, db, events, i) ==> RepairedBetween(events, i, n)
  }

  lemma LeakRepairStep(flag: bool, db: Db, events: seq<Event>, n: nat)
    requires 0 < n <= |events|
    ensures EveryLeakRepaired(flag, db, events, n) <==>
      !LeakAt(flag, db, events, n - 1)
      && (Repairs(events[n - 1]) || EveryLeakRepaired(flag, db, events, n - 1))
  {
    forall i | 0 <= i < n - 1
      ensures RepairedBetween(events, i, n) <==> Repairs(events[n - 1]) || RepairedBetween(events, i, n - 1)
    {
    }
    assert !RepairedBetween(events, n - 1, n);
  }

  /** In every run the flag never claims a transaction that is not open, and flag and connection
      agree exactly when every leak has been followed by a repair. */
  lemma {:induction false} AgreementOverARun(flag: bool, db: Db, events: seq<Event>, n: nat)
    requires n <= |events| && Agree(flag, db)
    requires forall i :: 0 <= i < |events| ==> events[i].Query?
    ensures var (f, d) := StateAt(flag, db, events, n);
      (f ==> !d.tx.Closed?) && (Agree(f, d) <==> EveryLeakRepaired(flag, db, events, n))
  {
    if n > 0 {
      AgreementOverARun(flag, db, events, n - 1);
      LeakRepairStep(flag, db, events, n);
      var (f, d) := StateAt(flag, db, events, n - 1);
      FlagStep(events[n - 1], f, d);
    }
  }

  // ----- Transactions ---------------------------------------------------------------------------

  datatype PlannedWrite = PlannedWrite(row: Row, accepted: bool, hook: Hook)

  /** The writes of a transaction and the hook that is active at each of its queries. */
  datatype TransactionPlan =
    TransactionPlan(beginHook: Hook, writes: seq<PlannedWrite>, commitHook: Hook, rollbackHook: Hook)

  datatype Attempted = Attempted(flags: seq<bool>, db: Db, ok: bool)

  function CleanUp(flags: seq<bool>, db: Db, hook: Hook): Attempted {
    var a := Ask(hook, flags, db, Rollback);
    Attempted(a.flags, a.db, false)
  }

  function FinishWrites(flags: seq<bool>, db: Db, writes: seq<PlannedWrite>, plan: TransactionPlan): Attempted
    decreases |writes|
  {
    if writes == [] then
      var a := Ask(plan.commitHook, flags, db, Commit);
      if a.reply == Done then Attempted(a.flags, a.db, true) else CleanUp(a.flags, a.db, plan.rollbackHook)
    else
      var a := Ask(writes[0].hook, flags, db, Write(writes[0].row, writes[0].accepted));
      if a.reply == Done then FinishWrites(a.flags, a.db, writes[1..], plan)
      else CleanUp(a.flags, a.db, plan.rollbackHook)
  }

  function Attempt(flags: seq<bool>, db: Db, plan: TransactionPlan): Attempted {
    var a := Ask(plan.beginHook, flags, db, Begin);
    if a.reply == Done then FinishWrites(a.flags, a.db, plan.writes, plan)
    else CleanUp(a.flags, a.db, plan.rollbackHook)
  }

  /** One of the reads meets a hook under which it throws, or the row is not found. */
  predicate ReadBackThrows(readHooks: seq<Hook>, found: bool) {
    (exists i :: 0 <= i < |readHooks| && PoolQueryThrows(readHooks[i])) || !found
  }

  function AttemptAndReadBack(flags: seq<bool>, db: Db, plan: TransactionPlan, readHooks: seq<Hook>, found: bool)
    : Attempted
  {
    var r := Attempt(flags, db, plan);
    if r.ok && ReadBackThrows(readHooks, found) then CleanUp(r.flags, r.db, plan.rollbackHook) else r
  }

  ghost function Rows(writes: seq<PlannedWrite>): (rows: seq<Row>)
    ensures |rows| == |writes|
  {
    seq(|writes|, i requires 0 <= i < |writes| => writes[i].row)
  }

  /** Whatever the stack, a query runs its statement, or throws after at most a rollback. */
  lemma AskEffect(hook: Hook, flags: seq<bool>, db: Db, s: Statement)
    ensures var a := Ask(hook, flags, db, s);
      || (a.db, a.reply) == Execute(db, s)
      || (a.reply.InjectedFault? && (a.db == db || a.db == Execute(db, Rollback).0))
  {
    AskEffectAt(hook, flags, |flags|, db, s);
  }

  lemma {:induction false} AskEffectAt(hook: Hook, flags: seq<bool>, depth: nat, db: Db, s: Statement)
    requires depth <= |flags|
    ensures var a := AskAt(hook, flags, depth, db, s);
      || (a.db, a.reply) == Execute(db, s)
      || (a.reply.InjectedFault? && (a.db == db || a.db == Execute(db, Rollback).0))
    decreases depth
  {
    if depth > 0 {
      match React(hook, flags[depth - 1], s)
      case Forward(flag) => AskEffectAt(hook, flags[depth - 1 := flag], depth - 1, db, s);
      case UndoAndThrow => AskEffectAt(hook, flags[depth - 1 := false], depth - 1, db, Rollback);
      case Throw =>
    }
  }

  /** Writes already pending when a transaction starts on a connection that was left open. */
  ghost function Carried(db: Db): seq<Row> {
    if db.tx.Open? then db.tx.writes else []
  }

  /** A transaction that ends here, by COMMIT or by cleaning up. */
  lemma CommitAtomic(flags: seq<bool>, db: Db, plan: TransactionPlan)
    requires db.tx.Open?
    ensures var r := FinishWrites(flags, db, [], plan);
      && r.db.committed == (if r.ok then db.committed + Carried(db) else db.committed)
      && (r.ok ==> r.db.tx.Closed?)
  {
    AskEffect(plan.commitHook, flags, db, Commit);
    var a := Ask(plan.commitHook, flags, db, Commit);
    AskEffect(plan.rollbackHook, a.flags, a.db, Rollback);
  }

  lemma CleanUpAtomic(flags: seq<bool>, db: Db, hook: Hook)
    ensures CleanUp(flags, db, hook).db.committed == db.committed && !CleanUp(flags, db, hook).ok
  {
    AskEffect(hook, flags, db, Rollback);
  }

  lemma {:induction false} FinishWritesAtomic(flags: seq<bool>, db: Db, writes: seq<PlannedWrite>,
                                              plan: TransactionPlan)
    requires db.tx.Open?
    ensures var r := FinishWrites(flags, db, writes, plan);
      && r.db.committed == (if r.ok then db.committed + (Carried(db) + Rows(writes)) else db.committed)
      && (r.ok ==> r.db.tx.Closed?)
    decreases |writes|
  {
    if writes == [] {
      CommitAtomic(flags, db, plan);
      assert Carried(db) + Rows(writes) == Carried(db);
    } else {
      var s := Write(writes[0].row, writes[0].accepted);
      AskEffect(writes[0].hook, flags, db, s);
      var a := Ask(writes[0].hook, flags, db, s);
      if a.reply == Done {
        FinishWritesAtomic(a.flags, a.db, writes[1..], plan);
        assert Carried(a.db) + Rows(writes[1..]) == Carried(db) + Rows(writes);
      } else {
        CleanUpAtomic(a.flags, a.db, plan.rollbackHook);
      }
    }
  }

  /** Atomicity at any depth and for every schedule of hooks: success means all writes are
      committed (with whatever was left pending before), failure means none is. */
  lemma TransactionAtomic(flags: seq<bool>, db: Db, plan: TransactionPlan)
    ensures var r := Attempt(flags, db, plan);
      && r.db.committed == (if r.ok then db.committed + (Carried(db) + Rows(plan.writes)) else db.committed)
      && (r.ok ==> r.db.tx.Closed?)
  {
    AskEffect(plan.beginHook, flags, db, Begin);
    var a := Ask(plan.beginHook, flags, db, Begin);
    if a.reply == Done {
      FinishWritesAtomic(a.flags, a.db, plan.writes, plan);
    } else {
      AskEffect(plan.rollbackHook, a.flags, a.db, Rollback);
    }
  }

  // ----- What a transaction leaves on its connection --------------------------------------------

  /** What a connection still holds between two transactions. */
  datatype Leftover = Clean | Pending(nonempty: bool) | Broken

  function LeftoverOf(tx: Transaction): Leftover {
    match tx
    case Closed => Clean
    case Open(writes) => Pending(writes != [])
    case Aborted => Broken
  }

  /** The schedule lets every write and the COMMIT through. */
  predicate Succeeds(writes: seq<PlannedWrite>, commitHook: Hook) {
    if writes == [] then commitHook != DbConnectionLost
    else writes[0].accepted && writes[0].hook != DbTransactionAbort && writes[0].hook != DbConnectionLost
         && Succeeds(writes[1..], commitHook)
  }

  predicate PlanSucceeds(plan: TransactionPlan, held: Leftover) {
    plan.beginHook != DbConnectionLost && !held.Broken? && Succeeds(plan.writes, plan.commitHook)
  }

  /** What a schedule that does not succeed leaves before the caller rolls back. */
  function AfterFailure(writes: seq<PlannedWrite>, nonempty: bool, deep: bool): Leftover {
    if writes == [] then Pending(nonempty)
    else if writes[0].hook == DbConnectionLost then if deep then Pending(nonempty) else Clean
    else if writes[0].hook == DbTransactionAbort then Clean
    else if !writes[0].accepted then Broken
    else AfterFailure(writes[1..], true, deep)
  }

  function RolledBack(held: Leftover, hook: Hook): Leftover {
    if hook == DbConnectionLost then held else Clean
  }

  /** What one transaction makes of a leftover, read off its schedule of hooks. */
  function NextLeftover(plan: TransactionPlan, held: Leftover, deep: bool): Leftover {
    if plan.beginHook == DbConnectionLost then RolledBack(if deep then held else Clean, plan.rollbackHook)
    else if held.Broken? then RolledBack(Broken, plan.rollbackHook)
    else if Succeeds(plan.writes, plan.commitHook) then Clean
    else RolledBack(AfterFailure(plan.writes, held.Pending? && held.nonempty, deep), plan.rollbackHook)
  }

  ghost predicate AllClear(flags: seq<bool>) {
    flags != [] && forall i :: 0 <= i < |flags| ==> !flags[i]
  }

  ghost predicate AllSet(flags: seq<bool>) {
    flags != [] && forall i :: 0 <= i < |flags| ==> flags[i]
  }

  lemma CleanUpLeftover(flags: seq<bool>, db: Db, hook: Hook)
    requires flags != []
    ensures LeftoverOf(CleanUp(flags, db, hook).db.tx) == RolledBack(LeftoverOf(db.tx), hook)
  {
    if hook == DbConnectionLost {
      LostOnStack(flags, db, Rollback);
    } else {
      EndStep(hook, flags, |flags|, db, Rollback);
    }
  }

  /** A write or COMMIT of a transaction, before the caller reacts. */
  lemma InsideLeftover(hook: Hook, flags: seq<bool>, db: Db, s: Statement)
    requires AllSet(flags) && db.tx.Open? && (s.Commit? || s.Write?)
    ensures var a := Ask(hook, flags, db, s);
      && (a.reply == Done <==>
            hook != DbConnectionLost && (s.Write? ==> s.accepted && hook != DbTransactionAbort))
      && (a.reply == Done && s.Write? ==> a.db.tx == Open(db.tx.writes + [s.row]) && AllSet(a.flags))
      && (a.reply == Done && s.Commit? ==> a.db.tx.Closed?)
      && (a.reply != Done ==>
            LeftoverOf(a.db.tx) == (if hook == DbConnectionLost then
                                      if s.Write? && |flags| == 1 then Clean else Pending(db.tx.writes != [])
                                    else if hook == DbTransactionAbort then Clean
                                    else Broken))
  {
    if hook == DbConnectionLost {
      LostOnStack(flags, db, s);
    } else {
      StackStep(hook, flags, db, s);
    }
  }

  lemma {:induction false} FinishLeftover(flags: seq<bool>, db: Db, writes: seq<PlannedWrite>, plan: TransactionPlan)
    requires AllSet(flags) && db.tx.Open?
    ensures var r := FinishWrites(flags, db, writes, plan);
      && (r.ok <==> Succeeds(writes, plan.commitHook))
      && LeftoverOf(r.db.tx) ==
           if r.ok then Clean
           else RolledBack(AfterFailure(writes, db.tx.writes != [], |flags| >= 2), plan.rollbackHook)
    decreases |writes|
  {
    var hook, s :=
      if writes == [] then plan.commitHook else writes[0].hook,
      if writes == [] then Commit else Write(writes[0].row, writes[0].accepted);
    var a := Ask(hook, flags, db, s);
    InsideLeftover(hook, flags, db, s);
    if a.reply != Done {
      CleanUpLeftover(a.flags, a.db, plan.rollbackHook);
    } else if writes != [] {
      FinishLeftover(a.flags, a.db, writes[1..], plan);
    }
  }

  /** From any flags and any leftover, at any depth: whether a transaction reports success, and what
      it leaves, follow from its schedule and the leftover it starts on. */
  lemma AttemptFollowsSchedule(flags: seq<bool>, db: Db, plan: TransactionPlan)
    requires flags != []
    ensures var r, held := Attempt(flags, db, plan), LeftoverOf(db.tx);
      && (r.ok <==> PlanSucceeds(plan, held))
      && LeftoverOf(r.db.tx) == NextLeftover(plan, held, |flags| >= 2)
  {
    var a := Ask(plan.beginHook, flags, db, Begin);
    if plan.beginHook == DbConnectionLost {
      LostOnStack(flags, db, Begin);
      CleanUpLeftover(a.flags, a.db, plan.rollbackHook);
    } else {
      BeginStep(plan.beginHook, flags, |flags|, db);
      if a.reply == Done {
        FinishLeftover(a.flags, a.db, plan.writes, plan);
      } else {
        CleanUpLeftover(a.flags, a.db, plan.rollbackHook);
      }
    }
  }

  /** The schedule leaves a closed connection open: the first failure is one after which no rollback
      reaches the database, and the caller's own ROLLBACK meets the lost connection. */
  predicate LeavesOpen(plan: TransactionPlan, deep: bool) {
    NextLeftover(plan, Clean, deep) != Clean
  }

  /** The connection ends closed with every flag clear, or open. */
  ghost predicate Ends(r: Attempted, open: bool) {
    if open then !r.db.tx.Closed? else r.db.tx.Closed? && AllClear(r.flags)
  }

  lemma CleanUpClears(flags: seq<bool>, db: Db, hook: Hook)
    requires Ordered(flags) && (db.tx.Closed? ==> AllClear(flags))
    ensures CleanUp(flags, db, hook).db.tx.Closed? ==> AllClear(CleanUp(flags, db, hook).flags)
  {
    if hook == DbConnectionLost {
      LostOnStack(flags, db, Rollback);
    } else {
      StackStep(hook, flags, db, Rollback);
    }
  }

  /** A lost connection at COMMIT or at a write inside the transaction. */
  lemma LostInside(flags: seq<bool>, db: Db, s: Statement)
    requires AllSet(flags) && db.tx.Open? && (s.Commit? || s.Write?)
    ensures var a := Ask(DbConnectionLost, flags, db, s);
      a.reply != Done && Ordered(a.flags) && (a.db.tx.Closed? ==> AllClear(a.flags))
  {
    LostOnStack(flags, db, s);
  }

  lemma {:induction false} FinishWritesClears(flags: seq<bool>, db: Db, writes: seq<PlannedWrite>,
                                              plan: TransactionPlan)
    requires AllSet(flags) && db.tx.Open?
    ensures var r := FinishWrites(flags, db, writes, plan); r.db.tx.Closed? ==> AllClear(r.flags)
    decreases |writes|
  {
    var hook, s :=
      if writes == [] then plan.commitHook else writes[0].hook,
      if writes == [] then Commit else Write(writes[0].row, writes[0].accepted);
    var a := Ask(hook, flags, db, s);
    if hook == DbConnectionLost {
      LostInside(flags, db, s);
      CleanUpClears(a.flags, a.db, plan.rollbackHook);
    } else {
      StackStep(hook, flags, db, s);
      if a.reply != Done {
        CleanUpClears(a.flags, a.db, plan.rollbackHook);
      } else if writes != [] {
        FinishWritesClears(a.flags, a.db, writes[1..], plan);
      }
    }
  }

  /** At any depth, a transaction returns the connection closed and every flag clear, unless its
      schedule leaves the connection open. */
  lemma TransactionCloses(flags: seq<bool>, db: Db, plan: TransactionPlan)
    requires db.tx.Closed? && AllClear(flags)
    ensures Ends(Attempt(flags, db, plan), LeavesOpen(plan, |flags| >= 2))
  {
    AttemptFollowsSchedule(flags, db, plan);
    var a := Ask(plan.beginHook, flags, db, Begin);
    if plan.beginHook == DbConnectionLost {
      LostOnStack(flags, db, Begin);
      CleanUpClears(a.flags, a.db, plan.rollbackHook);
    } else {
      StackStep(plan.beginHook, flags, db, Begin);
      FinishWritesClears(a.flags, a.db, plan.writes, plan);
    }
  }

  lemma AttemptKeepsDepth(flags: seq<bool>, db: Db, plan: TransactionPlan)
    ensures |Attempt(flags, db, plan).flags| == |flags|
  {
    var a := Ask(plan.beginHook, flags, db, Begin);
    if a.reply == Done {
      FinishKeepsDepth(a.flags, a.db, plan.writes, plan);
    }
  }

  lemma {:induction false} FinishKeepsDepth(flags: seq<bool>, db: Db, writes: seq<PlannedWrite>, plan: TransactionPlan)
    ensures |FinishWrites(flags, db, writes, plan).flags| == |flags|
    decreases |writes|
  {
    if writes != [] {
      var a := Ask(writes[0].hook, flags, db, Write(writes[0].row, writes[0].accepted));
      if a.reply == Done {
        FinishKeepsDepth(a.flags, a.db, writes[1..], plan);
      }
    }
  }

  /** With a read-back after COMMIT, a reported failure follows a commit exactly when the plan
      succeeds and the read-back throws; the rows are then in the store all the same. */
  lemma ReadBackFailure(flags: seq<bool>, db: Db, plan: TransactionPlan, readHooks: seq<Hook>, found: bool)
    requires flags != []
    ensures var r := AttemptAndReadBack(flags, db, plan, readHooks, found);
      var commits := PlanSucceeds(plan, LeftoverOf(db.tx));
      && (r.ok <==> commits && !ReadBackThrows(readHooks, found))
      && r.db.committed == (if commits then db.committed + (Carried(db) + Rows(plan.writes)) else db.committed)
      && (commits ==> r.db.tx.Closed?)
  {
    var r := Attempt(flags, db, plan);
    AttemptFollowsSchedule(flags, db, plan);
    AttemptKeepsDepth(flags, db, plan);
    TransactionAtomic(flags, db, plan);
    CleanUpLeftover(r.flags, r.db, plan.rollbackHook);
    CleanUpAtomic(r.flags, r.db, plan.rollbackHook);
  }

  // ----- Sequences of transactions on one pooled client -----------------------------------------

  /** A transaction with the checkout before it and the reads through the pool after its COMMIT; a
      caller that reads nothing back has no `readHooks` and finds what it looks for. */
  datatype Visit = Visit(connectHook: Hook, plan: TransactionPlan, readHooks: seq<Hook>, found: bool)

  /** A refused checkout skips the transaction; any other wraps the client once more. */
  function VisitOnce(flags: seq<bool>, db: Db, visit: Visit): Attempted {
    var (flags', reply) := Checkout(visit.connectHook, flags);
    if reply == Done then AttemptAndReadBack(flags', db, visit.plan, visit.readHooks, visit.found)
    else Attempted(flags', db, false)
  }

  function VisitAll(flags: seq<bool>, db: Db, visits: seq<Visit>): (seq<bool>, Db)
    decreases |visits|
  {
    if visits == [] then (flags, db)
    else
      var r := VisitOnce(flags, db, visits[0]);
      VisitAll(r.flags, r.db, visits[1..])
  }

  /** The rows of the transactions that reported success, in order. */
  ghost function Reported(flags: seq<bool>, db: Db, visits: seq<Visit>): seq<Row>
    decreases |visits|
  {
    if visits == [] then []
    else
      var r := VisitOnce(flags, db, visits[0]);
      (if r.ok then Rows(visits[0].plan.writes) else []) + Reported(r.flags, r.db, visits[1..])
  }

  predicate CheckedOut(visit: Visit) {
    !RefusesCheckout(visit.connectHook)
  }

  predicate VisitCommits(visit: Visit, held: Leftover) {
    CheckedOut(visit) && PlanSucceeds(visit.plan, held)
  }

  predicate ReportsFailure(visit: Visit) {
    ReadBackThrows(visit.readHooks, visit.found)
  }

  /** The leftover after a visit to a client that `depth` checkouts have wrapped before it. */
  function HeldAfter(visit: Visit, held: Leftover, depth: nat): Leftover {
    if CheckedOut(visit) then NextLeftover(visit.plan, held, depth >= 1) else held
  }

  function DepthAfter(visit: Visit, depth: nat): nat {
    if CheckedOut(visit) then depth + 1 else depth
  }

  function LeftoverAfter(visits: seq<Visit>, held: Leftover, depth: nat): Leftover
    decreases |visits|
  {
    if visits == [] then held
    else LeftoverAfter(visits[1..], HeldAfter(visits[0], held, depth), DepthAfter(visits[0], depth))
  }

  /** No visit of the schedule commits while writes of an earlier one are pending, and none commits
      writes and then fails to read them back. */
  predicate NoneUnreported(visits: seq<Visit>, held: Leftover, depth: nat)
    decreases |visits|
  {
    visits == [] ||
    ((VisitCommits(visits[0], held) ==>
        held != Pending(true) && (ReportsFailure(visits[0]) ==> visits[0].plan.writes == []))
     && NoneUnreported(visits[1..], HeldAfter(visits[0], held, depth), DepthAfter(visits[0], depth)))
  }

  lemma VisitFollowsSchedule(flags: seq<bool>, db: Db, visit: Visit)
    ensures var r, held := VisitOnce(flags, db, visit), LeftoverOf(db.tx);
      && (r.ok <==> VisitCommits(visit, held) && !ReportsFailure(visit))
      && LeftoverOf(r.db.tx) == HeldAfter(visit, held, |flags|)
      && |r.flags| == DepthAfter(visit, |flags|)
      && r.db.committed
         == db.committed + (if VisitCommits(visit, held) then Carried(db) + Rows(visit.plan.writes) else [])
  {
    if CheckedOut(visit) {
      var wrapped := flags + [false];
      AttemptFollowsSchedule(wrapped, db, visit.plan);
      AttemptKeepsDepth(wrapped, db, visit.plan);
      ReadBackFailure(wrapped, db, visit.plan, visit.readHooks, visit.found);
    }
  }

  /** Conservation, on a client with any wrappers and in any state: the store gains exactly the rows
      of the reported successes if and only if the schedule lets no visit commit while another one's
      writes are pending, or commit writes and then fail to read back.  Otherwise it gains more. */
  lemma {:induction false} CommittedEqualsReported(flags: seq<bool>, db: Db, visits: seq<Visit>)
    ensures var committed := VisitAll(flags, db, visits).1.committed;
      && |committed| >= |db.committed| + |Reported(flags, db, visits)|
      && (committed == db.committed + Reported(flags, db, visits)
          <==> NoneUnreported(visits, LeftoverOf(db.tx), |flags|))
    decreases |visits|
  {
    if visits != [] {
      var r, held := VisitOnce(flags, db, visits[0]), LeftoverOf(db.tx);
      VisitFollowsSchedule(flags, db, visits[0]);
      CommittedEqualsReported(r.flags, r.db, visits[1..]);
      var gain := if VisitCommits(visits[0], held) then Carried(db) + Rows(visits[0].plan.writes) else [];
      var carried, rows := if r.ok then Carried(db) else gain, if r.ok then Rows(visits[0].plan.writes) else [];
      assert r.db.committed == db.committed + (carried + rows);
      Extended(db.committed, carried, rows, Reported(r.flags, r.db, visits[1..]),
               VisitAll(flags, db, visits).1.committed, NoneUnreported(visits[1..], LeftoverOf(r.db.tx), |r.flags|));
    }
  }

  lemma Extended(before: seq<Row>, carried: seq<Row>, rows: seq<Row>, rest: seq<Row>, final: seq<Row>, clean: bool)
    requires |final| >= |before + (carried + rows)| + |rest|
    requires final == before + (carried + rows) + rest <==> clean
    ensures |final| >= |before| + |rows + rest|
    ensures final == before + (rows + rest) <==> carried == [] && clean
  {
    if carried == [] {
      assert before + (carried + rows) + rest == before + (rows + rest);
    }
  }

  lemma {:induction false} LeftoverFollowsSchedule(flags: seq<bool>, db: Db, visits: seq<Visit>)
    ensures LeftoverOf(VisitAll(flags, db, visits).1.tx) == LeftoverAfter(visits, LeftoverOf(db.tx), |flags|)
    decreases |visits|
  {
    if visits != [] {
      var r := VisitOnce(flags, db, visits[0]);
      VisitFollowsSchedule(flags, db, visits[0]);
      LeftoverFollowsSchedule(r.flags, r.db, visits[1..]);
    }
  }

  /** The store ends with exactly the reported rows and the connection closed if and only if, besides,
      the schedule's last leftover is clean. */
  lemma SequenceAtomic(flags: seq<bool>, db: Db, visits: seq<Visit>)
    ensures var held, depth := LeftoverOf(db.tx), |flags|;
      VisitAll(flags, db, visits).1 == Db(db.committed + Reported(flags, db, visits), Closed)
      <==> NoneUnreported(visits, held, depth) && LeftoverAfter(visits, held, depth) == Clean
  {
    CommittedEqualsReported(flags, db, visits);
    LeftoverFollowsSchedule(flags, db, visits);
  }

  /** No visit leaves its connection open or fails to read back, each at the depth its checkout brings the client to. */
  predicate EachCloses(visits: seq<Visit>, depth: nat)
    decreases |visits|
  {
    visits == [] ||
    ((CheckedOut(visits[0]) ==> !LeavesOpen(visits[0].plan, depth >= 1) && !ReportsFailure(visits[0]))
     && EachCloses(visits[1..], DepthAfter(visits[0], depth)))
  }

  lemma {:induction false} ClosedSchedule(visits: seq<Visit>, depth: nat)
    requires EachCloses(visits, depth)
    ensures NoneUnreported(visits, Clean, depth) && LeftoverAfter(visits, Clean, depth) == Clean
    decreases |visits|
  {
    if visits != [] {
      ClosedSchedule(visits[1..], DepthAfter(visits[0], depth));
    }
  }

  /** On a closed connection, visits none of which leaves it open or fails to read back commit exactly
      the reported rows and close it again. */
  lemma ClosingPlansAreAtomic(flags: seq<bool>, db: Db, visits: seq<Visit>)
    requires db.tx.Closed? && EachCloses(visits, |flags|)
    ensures VisitAll(flags, db, visits).1 == Db(db.committed + Reported(flags, db, visits), Closed)
  {
    ClosedSchedule(visits, |flags|);
    SequenceAtomic(flags, db, visits);
  }

  // ----- The hooks one by one -------------------------------------------------------------------

  /** Two hooks refuse a checkout with their own fault and leave the client unwrapped; under each of
      the others the client is wrapped once more. */
  lemma CheckoutByHook(flags: seq<bool>)
    ensures Checkout(DbConnectionRefused, flags) == (flags, InjectedFault(DbConnectionRefused))
    ensures Checkout(DbPoolUnavailable, flags) == (flags, InjectedFault(DbPoolUnavailable))
    ensures Checkout(NoHook, flags) == Checkout(OtherHook, flags) == (flags + [false], Done)
    ensures Checkout(DbTransactionAbort, flags) == Checkout(DbConnectionLost, flags) == (flags + [false], Done)
  {
  }

  /** No hook is active at the checkout, at a query or at a read through the pool that concerns it, the
      database takes every write, and the reads find the row. */
  ghost predicate MeetsNoFault(visit: Visit) {
    && visit.connectHook in {NoHook, DbTransactionAbort, DbConnectionLost, OtherHook}
    && visit.plan.beginHook in {NoHook, DbTransactionAbort, DbConnectionRefused, DbPoolUnavailable, OtherHook}
    && (forall i :: 0 <= i < |visit.plan.writes| ==> WriteMeetsNoFault(visit.plan.writes[i]))
    && visit.plan.commitHook in {NoHook, DbTransactionAbort, DbConnectionRefused, DbPoolUnavailable, OtherHook}
    && (forall i :: 0 <= i < |visit.readHooks| ==>
          visit.readHooks[i] in {NoHook, DbTransactionAbort, DbConnectionRefused, OtherHook})
    && visit.found
  }

  predicate WriteMeetsNoFault(write: PlannedWrite) {
    write.accepted && write.hook in {NoHook, DbConnectionRefused, DbPoolUnavailable, OtherHook}
  }

  lemma {:induction false} SucceedsIff(writes: seq<PlannedWrite>, commitHook: Hook)
    ensures Succeeds(writes, commitHook) <==>
      commitHook != DbConnectionLost && forall i :: 0 <= i < |writes| ==> WriteMeetsNoFault(writes[i])
  {
    if writes != [] {
      SucceedsIff(writes[1..], commitHook);
      assert forall i :: 0 < i < |writes| ==> writes[i] == writes[1..][i - 1];
      assert forall i :: 0 <= i < |writes[1..]| ==> writes[1..][i] == writes[i + 1];
    }
  }

  /** A visit to a client in any state reports success exactly when the connection is not broken and
      the visit meets no fault; it then ends closed, with its rows and the pending ones stored. */
  lemma VisitReportsIff(flags: seq<bool>, db: Db, visit: Visit)
    ensures var r := VisitOnce(flags, db, visit);
      && (r.ok <==> !db.tx.Aborted? && MeetsNoFault(visit))
      && (r.ok ==> r.db == Db(db.committed + (Carried(db) + Rows(visit.plan.writes)), Closed)
                   && |r.flags| == |flags| + 1)
  {
    CheckoutByHook(flags);
    SucceedsIff(visit.plan.writes, visit.plan.commitHook);
    VisitFollowsSchedule(flags, db, visit);
  }

  /** Visits that all meet a refusing hook leave client and database alone and report nothing. */
  lemma {:induction false} RefusedVisitsDoNothing(flags: seq<bool>, db: Db, visits: seq<Visit>)
    requires forall i :: 0 <= i < |visits| ==> visits[i].connectHook in {DbConnectionRefused, DbPoolUnavailable}
    ensures VisitAll(flags, db, visits) == (flags, db) && Reported(flags, db, visits) == []
    decreases visits
  {
    if visits != [] {
      CheckoutByHook(flags);
      assert visits[0].connectHook in {DbConnectionRefused, DbPoolUnavailable};
      assert forall i :: 0 <= i < |visits[1..]| ==> visits[1..][i] == visits[i + 1];
      RefusedVisitsDoNothing(flags, db, visits[1..]);
    }
  }

  ghost function AllRows(visits: seq<Visit>): seq<Row> {
    if visits == [] then [] else Rows(visits[0].plan.writes) + AllRows(visits[1..])
  }

  lemma RunExtended(before: seq<Row>, rows: seq<Row>, rest: seq<Row>, visits: seq<Visit>)
    requires |visits| > 0
    requires rows == Rows(visits[0].plan.writes) && rest == AllRows(visits[1..])
    ensures before + ([] + rows) + rest == before + AllRows(visits) && rows + rest == AllRows(visits)
  {
  }

  /** Visits that meet no fault store and report all their rows, and wrap the client once each. */
  lemma {:induction false} FaultFreeVisitsSucceed(flags: seq<bool>, db: Db, visits: seq<Visit>)
    requires db.tx.Closed?
    requires forall i :: 0 <= i < |visits| ==> MeetsNoFault(visits[i])
    ensures VisitAll(flags, db, visits).1 == Db(db.committed + AllRows(visits), Closed)
    ensures |VisitAll(flags, db, visits).0| == |flags| + |visits|
    ensures Reported(flags, db, visits) == AllRows(visits)
    decreases visits
  {
    if visits != [] {
      var r := VisitOnce(flags, db, visits[0]);
      VisitReportsIff(flags, db, visits[0]);
      RunExtended(db.committed, Rows(visits[0].plan.writes), AllRows(visits[1..]), visits);
      FaultFreeVisitsSucceed(r.flags, r.db, visits[1..]);
    }
  }

  /** Outside a transaction no hook but a lost connection disturbs a write: the flags stay clear and
      the row is stored at once, or refused by the database itself. */
  lemma WriteOutsideTransaction(hook: Hook, flags: seq<bool>, db: Db, row: Row, accepted: bool)
    requires AllClear(flags) && db.tx.Closed?
    ensures Ask(hook, flags, db, Write(row, accepted)) ==
      if hook == DbConnectionLost then Answer(flags, db, InjectedFault(DbConnectionLost))
      else if accepted then Answer(flags, db.(committed := db.committed + [row]), Done)
      else Answer(flags, db, RefusedByDatabase)
  {
    if hook == DbConnectionLost {
      LostOnStack(flags, db, Write(row, accepted));
      assert flags[|flags| - 1 := false] == flags;
    } else {
      WritePasses(hook, flags, |flags|, db, Write(row, accepted));
    }
  }

  // ----- Schedules at which the promises fail ---------------------------------------------------

  function Visiting(plan: TransactionPlan): Visit {
    Visit(NoHook, plan, [], true)
  }

  const LOST_PLAN: TransactionPlan :=
    TransactionPlan(NoHook, [PlannedWrite(1, true, NoHook)], DbConnectionLost, DbConnectionLost)
  const NEXT_PLAN: TransactionPlan := TransactionPlan(NoHook, [PlannedWrite(2, true, NoHook)], NoHook, NoHook)

  lemma LostAttempt()
    ensures Attempt([false], Db([], Closed), LOST_PLAN) == Attempted([false], Db([], Open([1])), false)
  {
    AskOne(NoHook, false, Db([], Closed), Begin);
    AskOne(NoHook, true, Db([], Open([])), Write(1, true));
    AskOne(DbConnectionLost, true, Db([], Open([1])), Commit);
    AskOne(DbConnectionLost, false, Db([], Open([1])), Rollback);
    assert [] + [1] == [1] && LOST_PLAN.writes[1..] == [];
    assert FinishWrites([true], Db([], Open([1])), [], LOST_PLAN) == Attempted([false], Db([], Open([1])), false);
  }

  /** The leak is real: on a fresh client, a failed transaction's row is committed by the next
      transaction. */
  lemma LeakedRowIsCommitted()
    ensures var visits := [Visiting(LOST_PLAN), Visiting(NEXT_PLAN)];
      && !NoneUnreported(visits, Clean, 0)
      && Reported([], Db([], Closed), visits) == [2]
      && VisitAll([], Db([], Closed), visits).1.committed == [1, 2]
  {
    var visits, next := [Visiting(LOST_PLAN), Visiting(NEXT_PLAN)], [Visiting(NEXT_PLAN)];
    assert visits[1..] == next && next[1..] == [] && [] + [false] == [false];
    LostAttempt();
    assert VisitOnce([], Db([], Closed), visits[0]) == Attempted([false], Db([], Open([1])), false);
    NextVisit();
    CommittedEqualsReported([], Db([], Closed), visits);
    assert Reported([], Db([], Closed), visits) == [] + [2];
  }

  lemma NextVisit()
    ensures var next := [Visiting(NEXT_PLAN)];
      && Reported([false], Db([], Open([1])), next) == [2]
      && VisitAll([false], Db([], Open([1])), next).1.committed == [1, 2]
  {
    var next := [Visiting(NEXT_PLAN)];
    assert next[1..] == [] && NEXT_PLAN.writes[1..] == [];
    VisitFollowsSchedule([false], Db([], Open([1])), next[0]);
    assert Rows(NEXT_PLAN.writes) == [2] && [1] + [2] == [1, 2] && [] + [1, 2] == [1, 2] && [2] + [] == [2];
  }

  const EMPTY_PLAN: TransactionPlan := TransactionPlan(NoHook, [], NoHook, NoHook)

  const CUT_PLAN: TransactionPlan :=
    TransactionPlan(NoHook, [PlannedWrite(1, true, NoHook), PlannedWrite(2, true, DbConnectionLost)], NoHook,
                    DbConnectionLost)

  /** A write on the lost connection leaks only on a client that has been checked out before. */
  lemma SecondCheckoutLeaks()
    ensures var (first, cut, next) := (Visiting(EMPTY_PLAN), Visiting(CUT_PLAN), Visiting(NEXT_PLAN));
      NoneUnreported([cut, next], Clean, 0) && !NoneUnreported([first, cut, next], Clean, 0)
  {
    var (first, cut, next) := (Visiting(EMPTY_PLAN), Visiting(CUT_PLAN), Visiting(NEXT_PLAN));
    assert [first, cut, next][1..] == [cut, next] && [cut, next][1..] == [next] && [next][1..] == [];
    assert CUT_PLAN.writes[1..] == [PlannedWrite(2, true, DbConnectionLost)] && NEXT_PLAN.writes[1..] == [];
    assert NextLeftover(CUT_PLAN, Clean, true) == Pending(true) && NextLeftover(CUT_PLAN, Clean, false) == Clean;
    assert NextLeftover(EMPTY_PLAN, Clean, false) == Clean;
    assert !NoneUnreported([next], Pending(true), 2);
    assert !NoneUnreported([cut, next], Clean, 1);
  }

  /** A transaction left open is not yet a leak: after a refused write there is nothing to pick up,
      at any depth. */
  lemma RefusedWriteIsNoLeak(depth: nat)
    ensures var refused := TransactionPlan(NoHook, [PlannedWrite(1, false, NoHook)], NoHook, DbConnectionLost);
      && LeavesOpen(refused, depth >= 1)
      && NoneUnreported([Visiting(refused), Visiting(NEXT_PLAN)], Clean, depth)
  {
    var refused := TransactionPlan(NoHook, [PlannedWrite(1, false, NoHook)], NoHook, DbConnectionLost);
    var visits := [Visiting(refused), Visiting(NEXT_PLAN)];
    assert visits[1..] == [Visiting(NEXT_PLAN)] && visits[1..][1..] == [];
    assert NextLeftover(refused, Clean, depth >= 1) == Broken;
  }

  /** A failure reported after a commit: the read-back meets an unavailable pool. */
  lemma CommittedButReportedFailed()
    ensures var r := AttemptAndReadBack([false], Db([], Closed), NEXT_PLAN, [DbPoolUnavailable], true);
      !r.ok && r.db.committed == [2]
  {
    assert PoolQueryThrows([DbPoolUnavailable][0]) && NEXT_PLAN.writes[1..] == [];
    ReadBackFailure([false], Db([], Closed), NEXT_PLAN, [DbPoolUnavailable], true);
    assert Rows(NEXT_PLAN.writes) == [2];
  }
}
