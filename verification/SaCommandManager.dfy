/** The registry of command processors: two indexes, fail-fast batch dispatch and
    the broadcast of disconnects.  A processor is the address of an object; what
    calling it does is a function on whatever state the processors share. */
module CommandRegistry {
  import opened Common
  import opened IlluminationManager

  type Processor = nat

  datatype Registry = Registry(byCommand: map<SaCommandId, set<Processor>>, processors: set<Processor>)

  const EMPTY := Registry(map[], {})

  // ----- iteration order: a std::set of pointers iterates by ascending address

  lemma {:induction false} LeastOf(s: set<Processor>) returns (m: Processor)
    requires s != {}
    ensures m in s && forall x :: x in s ==> m <= x
    decreases |s|
  {
    var x :| x in s;
    if s == {x} {
      m := x;
    } else {
      var others := s - {x};
      assert others != {} && s == others + {x};
      m := LeastOf(others);
      if x < m {
        m := x;
      }
    }
  }

  function Least(s: set<Processor>): (m: Processor)
    requires s != {}
    ensures m in s && forall x :: x in s ==> m <= x
  {
    assert exists m :: m in s && forall x :: x in s ==> m <= x by {
      var m := LeastOf(s);
    }
    var m :| m in s && forall x :: x in s ==> m <= x;
    m
  }

  function InOrder(s: set<Processor>): (r: seq<Processor>)
    ensures forall x :: x in r <==> x in s
    ensures forall i, j :: 0 <= i < j < |r| ==> r[i] < r[j]
    decreases |s|
  {
    if s == {} then []
    else
      var m := Least(s);
      [m] + InOrder(s - {m})
  }

  // ----- registration

  function Bound(reg: Registry, id: SaCommandId): set<Processor> {
    if id in reg.byCommand then reg.byCommand[id] else {}
  }

  function AddTo(byCommand: map<SaCommandId, set<Processor>>, ids: seq<SaCommandId>, p: Processor):
    map<SaCommandId, set<Processor>>
  {
    if ids == [] then byCommand
    else
      var id, before := ids[|ids| - 1], AddTo(byCommand, ids[..|ids| - 1], p);
      before[id := (if id in before then before[id] else {}) + {p}]
  }

  function RemoveFrom(byCommand: map<SaCommandId, set<Processor>>, ids: seq<SaCommandId>, p: Processor):
    map<SaCommandId, set<Processor>>
  {
    if ids == [] then byCommand
    else
      var id, before := ids[|ids| - 1], RemoveFrom(byCommand, ids[..|ids| - 1], p);
      if id in before then before[id := before[id] - {p}] else before
  }

  function Registered(reg: Registry, ids: seq<SaCommandId>, p: Option<Processor>): Registry {
    if p.None? then reg else Registry(AddTo(reg.byCommand, ids, p.value), reg.processors + {p.value})
  }

  function Unregistered(reg: Registry, ids: seq<SaCommandId>, p: Option<Processor>): Registry {
    if p.None? then reg else Registry(RemoveFrom(reg.byCommand, ids, p.value), reg.processors - {p.value})
  }

  /** Registering binds the processor to exactly the listed commands, which all become known. */
  lemma {:induction false} AddToBinds(byCommand: map<SaCommandId, set<Processor>>, ids: seq<SaCommandId>, p: Processor,
                                      id: SaCommandId)
    ensures var after := AddTo(byCommand, ids, p);
            && (id in after <==> id in byCommand || id in ids)
            && (id in ids ==> after[id] == (if id in byCommand then byCommand[id] else {}) + {p})
            && (id in byCommand && id !in ids ==> after[id] == byCommand[id])
  {
    if ids != [] {
      AddToBinds(byCommand, ids[..|ids| - 1], p, id);
    }
  }

  /** Unregistering unbinds it from exactly the listed commands, and forgets none of them. */
  lemma {:induction false} RemoveFromUnbinds(byCommand: map<SaCommandId, set<Processor>>, ids: seq<SaCommandId>,
                                             p: Processor, id: SaCommandId)
    ensures var after := RemoveFrom(byCommand, ids, p);
            && (id in after <==> id in byCommand)
            && (id in byCommand ==> after[id] == if id in ids then byCommand[id] - {p} else byCommand[id])
  {
    if ids != [] {
      RemoveFromUnbinds(byCommand, ids[..|ids| - 1], p, id);
    }
  }

  // ----- the registry is a function of its history

  datatype Operation =
    | Register(ids: seq<SaCommandId>, processor: Option<Processor>)
    | Unregister(ids: seq<SaCommandId>, processor: Option<Processor>)

  function Apply(reg: Registry, op: Operation): Registry {
    match op
    case Register(ids, p) => Registered(reg, ids, p)
    case Unregister(ids, p) => Unregistered(reg, ids, p)
  }

  function History(ops: seq<Operation>): Registry {
    if ops == [] then EMPTY else Apply(History(ops[..|ops| - 1]), ops[|ops| - 1])
  }

  /** The latest operation on this processor that satisfies `about`, if any. */
  function Latest(ops: seq<Operation>, p: Processor, about: Operation -> bool): Option<Operation> {
    if ops == [] then None
    else
      var op := ops[|ops| - 1];
      if op.processor == Some(p) && about(op) then Some(op) else Latest(ops[..|ops| - 1], p, about)
  }

  function Mentions(id: SaCommandId): Operation -> bool {
    (op: Operation) => id in op.ids
  }

  function Anything(): Operation -> bool {
    (op: Operation) => true
  }

  predicate IsRegister(op: Option<Operation>) {
    op.Some? && op.value.Register?
  }

  /** A command dispatches to exactly the processors whose latest operation mentioning it
      was a registration, and disconnects go to exactly those whose latest operation was one. */
  lemma {:induction false} RegistryIsHistory(ops: seq<Operation>, id: SaCommandId, p: Processor)
    ensures p in Bound(History(ops), id) <==> IsRegister(Latest(ops, p, Mentions(id)))
    ensures p in History(ops).processors <==> IsRegister(Latest(ops, p, Anything()))
  {
    if ops != [] {
      var before, op := History(ops[..|ops| - 1]), ops[|ops| - 1];
      RegistryIsHistory(ops[..|ops| - 1], id, p);
      if op.processor.Some? {
        AddToBinds(before.byCommand, op.ids, op.processor.value, id);
        RemoveFromUnbinds(before.byCommand, op.ids, op.processor.value, id);
      }
    }
  }

  /** A command is known exactly if some registration of an object ever mentioned it. */
  lemma {:induction false} KnownCommands(ops: seq<Operation>, id: SaCommandId)
    ensures id in History(ops).byCommand <==>
            exists i :: 0 <= i < |ops| && ops[i].Register? && ops[i].processor.Some? && id in ops[i].ids
  {
    if ops != [] {
      var before, op := ops[..|ops| - 1], ops[|ops| - 1];
      KnownCommands(before, id);
      if op.processor.Some? {
        AddToBinds(History(before).byCommand, op.ids, op.processor.value, id);
        RemoveFromUnbinds(History(before).byCommand, op.ids, op.processor.value, id);
      }
      if id in History(before).byCommand {
        var i :| 0 <= i < |before| && before[i].Register? && before[i].processor.Some? && id in before[i].ids;
        assert ops[i] == before[i];
      }
      if exists i :: 0 <= i < |ops| && ops[i].Register? && ops[i].processor.Some? && id in ops[i].ids {
        var i :| 0 <= i < |ops| && ops[i].Register? && ops[i].processor.Some? && id in ops[i].ids;
        assert i < |before| ==> before[i] == ops[i];
      }
    }
  }

  /** Whoever can be sent a command is also told of disconnects. */
  ghost predicate AllTold(reg: Registry) {
    forall id :: Bound(reg, id) <= reg.processors
  }

  /** The commands a processor is bound to are all among these. */
  ghost predicate Covers(reg: Registry, ids: seq<SaCommandId>, p: Processor) {
    forall id :: p in Bound(reg, id) ==> id in ids
  }

  lemma RegisterKeepsTold(reg: Registry, ids: seq<SaCommandId>, p: Option<Processor>)
    requires AllTold(reg)
    ensures AllTold(Registered(reg, ids, p))
  {
    if p.Some? {
      forall id ensures Bound(Registered(reg, ids, p), id) <= reg.processors + {p.value} {
        AddToBinds(reg.byCommand, ids, p.value, id);
        assert Bound(reg, id) <= reg.processors;
      }
    }
  }

  /** Unregistering keeps this exactly if it lists every command the processor is bound to. */
  lemma UnregisterKeepsToldExactly(reg: Registry, ids: seq<SaCommandId>, p: Processor)
    requires AllTold(reg)
    ensures AllTold(Unregistered(reg, ids, Some(p))) <==> Covers(reg, ids, p)
  {
    var after := Unregistered(reg, ids, Some(p));
    forall id
      ensures Bound(after, id) == if id in ids then Bound(reg, id) - {p} else Bound(reg, id)
    {
      RemoveFromUnbinds(reg.byCommand, ids, p, id);
    }
    if !Covers(reg, ids, p) {
      var id :| p in Bound(reg, id) && id !in ids;
      assert p in Bound(after, id) && p !in after.processors;
    }
  }

  ghost predicate Thorough(ops: seq<Operation>) {
    ops != [] ==>
      var before, op := ops[..|ops| - 1], ops[|ops| - 1];
      && Thorough(before)
      && (op.Unregister? && op.processor.Some? ==> Covers(History(before), op.ids, op.processor.value))
  }

  lemma {:induction false} ThoroughHistoriesTellAll(ops: seq<Operation>)
    requires Thorough(ops)
    ensures AllTold(History(ops))
  {
    if ops != [] {
      var before, op := ops[..|ops| - 1], ops[|ops| - 1];
      ThoroughHistoriesTellAll(before);
      match op
      case Register(ids, p) => RegisterKeepsTold(History(before), ids, p);
      case Unregister(ids, p) => if p.Some? { UnregisterKeepsToldExactly(History(before), ids, p.value); }
    }
  }

  // ----- batches

  /** One dispatch of a command, or the discovery that nobody ever registered for it. */
  datatype Call = Invoke(command: SaCommand, processor: Processor) | Unknown(command: SaCommand)

  function Invocations(command: SaCommand, order: seq<Processor>): seq<Call> {
    seq(|order|, i requires 0 <= i < |order| => Invoke(command, order[i]))
  }

  /** The calls a batch makes if they all succeed. */
  function Calls(reg: Registry, commands: seq<SaCommand>): seq<Call> {
    if commands == [] then []
    else if commands[0].id !in reg.byCommand then [Unknown(commands[0])]
    else Invocations(commands[0], InOrder(reg.byCommand[commands[0].id])) + Calls(reg, commands[1..])
  }

  /** The order calls every processor of a set once. */
  lemma {:induction false} InOrderCounts(s: set<Processor>)
    ensures |InOrder(s)| == |s|
    decreases |s|
  {
    if s != {} {
      InOrderCounts(s - {Least(s)});
    }
  }

  /** The command is called on each of these processors once, in ascending order. */
  ghost predicate OnceEach(calls: seq<Call>, command: SaCommand, processors: set<Processor>) {
    && (forall i :: 0 <= i < |calls| ==> calls[i].Invoke? && calls[i].command == command)
    && (forall i, j :: 0 <= i < j < |calls| ==> calls[i].processor < calls[j].processor)
    && (forall p :: p in processors <==> Invoke(command, p) in calls)
  }

  /** A known command is called once on each processor bound to it, in ascending
      order and before the next command; on none, if they have all gone.  An unknown
      command ends the batch, whatever comes after it. */
  lemma CallsExactly(reg: Registry, command: SaCommand, rest: seq<SaCommand>)
    ensures var calls := Calls(reg, [command] + rest);
            if command.id !in reg.byCommand then calls == [Unknown(command)]
            else
              var n := |reg.byCommand[command.id]|;
              && n <= |calls| && calls[n..] == Calls(reg, rest)
              && OnceEach(calls[..n], command, reg.byCommand[command.id])
  {
    assert ([command] + rest)[1..] == rest;
    if command.id in reg.byCommand {
      var bound := reg.byCommand[command.id];
      InOrderCounts(bound);
      InvocationsOnceEach(command, bound);
      var now := Invocations(command, InOrder(bound));
      assert (now + Calls(reg, rest))[..|now|] == now && (now + Calls(reg, rest))[|now|..] == Calls(reg, rest);
    }
  }

  lemma InvocationsOnceEach(command: SaCommand, processors: set<Processor>)
    ensures OnceEach(Invocations(command, InOrder(processors)), command, processors)
  {
    var order := InOrder(processors);
    var calls := Invocations(command, order);
    forall p | p in processors ensures Invoke(command, p) in calls {
      var i :| 0 <= i < |order| && order[i] == p;
      assert calls[i] == Invoke(command, p);
    }
  }

  /** What calling a processor does to the state `S` of all processors. */
  type Behaviour<!S> = (S, Processor, Option<Executor>, SaCommand) -> (S, ResultCode)

  datatype Result<S> = Result(state: S, code: ResultCode, made: nat)

  /** Calls are made in order up to and including the first that fails. */
  function Dispatch<S>(calls: seq<Call>, executor: Option<Executor>, call: Behaviour<S>, s: S): Result<S> {
    if calls == [] then Result(s, SUCCESS, 0)
    else if calls[0].Unknown? then Result(s, GENERAL_ERROR, 0)
    else
      var (s', code) := call(s, calls[0].processor, executor, calls[0].command);
      if code != SUCCESS then Result(s', GENERAL_ERROR, 1)
      else
        var rest := Dispatch(calls[1..], executor, call, s');
        rest.(made := rest.made + 1)
  }

  /** The state after a number of calls, whatever they answered. */
  function After<S>(calls: seq<Call>, executor: Option<Executor>, call: Behaviour<S>, s: S): S {
    if calls == [] then s
    else
      var last, before := calls[|calls| - 1], After(calls[..|calls| - 1], executor, call, s);
      if last.Unknown? then before else call(before, last.processor, executor, last.command).0
  }

  /** The call at `k` answers success when its predecessors have been made. */
  ghost predicate Succeeds<S>(calls: seq<Call>, executor: Option<Executor>, call: Behaviour<S>, s: S, k: nat)
    requires k < |calls|
  {
    && calls[k].Invoke?
    && call(After(calls[..k], executor, call, s), calls[k].processor, executor, calls[k].command).1 == SUCCESS
  }

  lemma {:induction false} AfterFirst<S>(calls: seq<Call>, executor: Option<Executor>, call: Behaviour<S>, s: S)
    requires calls != [] && calls[0].Invoke?
    ensures After(calls, executor, call, s)
            == After(calls[1..], executor, call, call(s, calls[0].processor, executor, calls[0].command).0)
  {
    var n := |calls| - 1;
    if n == 0 {
      assert calls[..0] == [] && calls[1..] == [];
    } else {
      AfterFirst(calls[..n], executor, call, s);
      assert calls[..n][1..] == calls[1..][..n - 1];
    }
  }

  /** A batch makes a prefix of its calls: all before the last one it makes succeed,
      and it succeeds exactly if every call does.  When it fails, either the last
      call made failed or the next command is unknown. */
  lemma {:induction false} DispatchStopsAtFirstFailure<S>(calls: seq<Call>, executor: Option<Executor>,
                                                          call: Behaviour<S>, s: S)
    ensures var r := Dispatch(calls, executor, call, s);
            && r.made <= |calls|
            && r.state == After(calls[..r.made], executor, call, s)
            && (forall k: nat :: k + 1 < r.made ==> Succeeds(calls, executor, call, s, k))
            && (r.code == SUCCESS <==> r.made == |calls| && forall k: nat :: k < |calls| ==> Succeeds(calls, executor, call, s, k))
            && (r.code != SUCCESS ==>
                  || (r.made < |calls| && calls[r.made].Unknown?
                      && (0 < r.made ==> Succeeds(calls, executor, call, s, r.made - 1)))
                  || (0 < r.made && !Succeeds(calls, executor, call, s, r.made - 1)))
  {
    if calls != [] && calls[0].Invoke? {
      var (s', code) := call(s, calls[0].processor, executor, calls[0].command);
      var r, rest := Dispatch(calls, executor, call, s), Dispatch(calls[1..], executor, call, s');
      assert calls[..0] == [];
      if code == SUCCESS {
        DispatchStopsAtFirstFailure(calls[1..], executor, call, s');
        forall k: nat | k < |calls| - 1
          ensures Succeeds(calls, executor, call, s, k + 1) == Succeeds(calls[1..], executor, call, s', k)
        {
          AfterFirst(calls[..k + 1], executor, call, s);
          assert calls[..k + 1][1..] == calls[1..][..k];
        }
        assert Succeeds(calls, executor, call, s, 0);
        AfterFirst(calls[..r.made], executor, call, s);
        assert calls[..r.made][1..] == calls[1..][..rest.made];
        forall k: nat | k + 1 < r.made ensures Succeeds(calls, executor, call, s, k) {
          if 0 < k { assert Succeeds(calls[1..], executor, call, s', k - 1); }
        }
        ShiftedSuccess(calls, executor, call, s);
      } else {
        assert !Succeeds(calls, executor, call, s, 0);
        AfterFirst(calls[..1], executor, call, s);
        assert calls[..1][1..] == [];
      }
    }
  }

  lemma ShiftedSuccess<S>(calls: seq<Call>, executor: Option<Executor>, call: Behaviour<S>, s: S)
    requires calls != [] && calls[0].Invoke? && Succeeds(calls, executor, call, s, 0)
    requires var s' := call(s, calls[0].processor, executor, calls[0].command).0;
             forall k: nat :: k < |calls| - 1 ==>
               Succeeds(calls, executor, call, s, k + 1) == Succeeds(calls[1..], executor, call, s', k)
    ensures var s' := call(s, calls[0].processor, executor, calls[0].command).0;
            (forall k: nat :: k < |calls| ==> Succeeds(calls, executor, call, s, k)) <==>
            (forall k: nat :: k < |calls| - 1 ==> Succeeds(calls[1..], executor, call, s', k))
  {
    var s' := call(s, calls[0].processor, executor, calls[0].command).0;
    if forall k: nat :: k < |calls| - 1 ==> Succeeds(calls[1..], executor, call, s', k) {
      forall k: nat | k < |calls| ensures Succeeds(calls, executor, call, s, k) {
        if 0 < k { assert Succeeds(calls[1..], executor, call, s', k - 1); }
      }
    }
  }

  /** How many calls of a batch succeed before the first that does not. */
  function SuccessfulPrefix<S>(calls: seq<Call>, executor: Option<Executor>, call: Behaviour<S>, s: S): (n: nat)
    ensures n <= |calls|
  {
    if calls == [] || calls[0].Unknown? then 0
    else
      var (s', code) := call(s, calls[0].processor, executor, calls[0].command);
      if code != SUCCESS then 0 else 1 + SuccessfulPrefix(calls[1..], executor, call, s')
  }

  lemma FirstCall<S>(calls: seq<Call>, executor: Option<Executor>, call: Behaviour<S>, s: S)
    requires calls != [] && calls[0].Invoke?
    ensures var (s', code) := call(s, calls[0].processor, executor, calls[0].command);
            var r, rest := Dispatch(calls, executor, call, s), Dispatch(calls[1..], executor, call, s');
            var n := SuccessfulPrefix(calls, executor, call, s);
            if code != SUCCESS then r.state == s' && r.code != SUCCESS && n == 0 && After(calls[..n], executor, call, s) == s
            else
              && r.state == rest.state && r.code == rest.code
              && n == 1 + SuccessfulPrefix(calls[1..], executor, call, s')
              && After(calls[..n], executor, call, s) == After(calls[1..][..n - 1], executor, call, s')
  {
    var (s', code) := call(s, calls[0].processor, executor, calls[0].command);
    var n := SuccessfulPrefix(calls, executor, call, s);
    if code == SUCCESS {
      AfterFirst(calls[..n], executor, call, s);
      assert calls[..n][1..] == calls[1..][..n - 1];
    } else {
      assert calls[..0] == [];
    }
  }

  function Batch<S>(reg: Registry, commands: seq<SaCommand>, executor: Option<Executor>, call: Behaviour<S>, s: S): Result<S> {
    Dispatch(Calls(reg, commands), executor, call, s)
  }

  lemma {:induction false} DispatchAppend<S>(a: seq<Call>, b: seq<Call>, executor: Option<Executor>, call: Behaviour<S>, s: S)
    ensures var first := Dispatch(a, executor, call, s);
            Dispatch(a + b, executor, call, s) ==
            if first.code != SUCCESS then first
            else var second := Dispatch(b, executor, call, first.state); second.(made := first.made + second.made)
  {
    if a == [] {
      assert a + b == b;
    } else {
      assert (a + b)[1..] == a[1..] + b;
      if a[0].Invoke? {
        DispatchAppend(a[1..], b, executor, call, call(s, a[0].processor, executor, a[0].command).0);
      }
    }
  }

  /** Two batches in one go are the first and then, if it succeeds, the second. */
  lemma {:induction false} BatchAppend<S>(reg: Registry, a: seq<SaCommand>, b: seq<SaCommand>,
                                          executor: Option<Executor>, call: Behaviour<S>, s: S)
    ensures var first := Batch(reg, a, executor, call, s);
            Batch(reg, a + b, executor, call, s) ==
            if first.code != SUCCESS then first
            else var second := Batch(reg, b, executor, call, first.state); second.(made := first.made + second.made)
    decreases |a|
  {
    if a == [] {
      assert a + b == b;
    } else {
      assert (a + b)[1..] == a[1..] + b;
      if a[0].id in reg.byCommand {
        var now := Invocations(a[0], InOrder(reg.byCommand[a[0].id]));
        var first := Dispatch(now, executor, call, s);
        DispatchAppend(now, Calls(reg, a[1..] + b), executor, call, s);
        DispatchAppend(now, Calls(reg, a[1..]), executor, call, s);
        BatchAppend(reg, a[1..], b, executor, call, first.state);
      }
    }
  }

  // ----- disconnects

  type Notification<!S> = (S, Processor) -> S

  function Broadcast<S>(order: seq<Processor>, notify: Notification<S>, s: S): S {
    if order == [] then s else Broadcast(order[1..], notify, notify(s, order[0]))
  }

  /** Processors are told one after the other, in the given order. */
  lemma {:induction false} BroadcastAppend<S>(a: seq<Processor>, b: seq<Processor>, notify: Notification<S>, s: S)
    ensures Broadcast(a + b, notify, s) == Broadcast(b, notify, Broadcast(a, notify, s))
    ensures forall p :: Broadcast([p], notify, s) == notify(s, p)
  {
    forall p ensures Broadcast([p], notify, s) == notify(s, p) {
      assert Broadcast([p][1..], notify, notify(s, p)) == notify(s, p);
    }
    if a == [] {
      assert a + b == b;
    } else {
      assert (a + b)[1..] == a[1..] + b;
      BroadcastAppend(a[1..], b, notify, notify(s, a[0]));
    }
  }

  /** If only one processor reacts, a broadcast is its reaction, provided it is registered. */
  lemma {:induction false} BroadcastReaches<S>(order: seq<Processor>, notify: Notification<S>, s: S, p: Processor)
    requires forall i, j :: 0 <= i < j < |order| ==> order[i] < order[j]
    requires forall t, q :: q != p ==> notify(t, q) == t
    ensures Broadcast(order, notify, s) == if p in order then notify(s, p) else s
  {
    if order != [] {
      BroadcastReaches(order[1..], notify, notify(s, order[0]), p);
      if order[0] == p {
        assert p !in order[1..];
      }
    }
  }

  class SaCommandManager {
    var commandId2Processors: map<SaCommandId, set<Processor>>
    var processors: set<Processor>

    ghost function State(): Registry
      reads this
    {
      Registry(commandId2Processors, processors)
    }

    constructor ()
      ensures State() == EMPTY
    {
      commandId2Processors, processors := map[], {};
    }

    method RegisterSaCommandProcessor(commandIds: seq<SaCommandId>, processor: Option<Processor>)
      modifies this
      ensures State() == Apply(old(State()), Register(commandIds, processor))
    {
      if processor.None? {
        return;
      }
      processors := processors + {processor.value};
      ghost var before := commandId2Processors;
      for i := 0 to |commandIds|
        invariant processors == old(processors) + {processor.value}
        invariant commandId2Processors == AddTo(before, commandIds[..i], processor.value)
      {
        var commandId := commandIds[i];
        assert commandIds[..i + 1][..i] == commandIds[..i];
        if commandId !in commandId2Processors {
          commandId2Processors := commandId2Processors[commandId := {}];
        }
        commandId2Processors :=
          commandId2Processors[commandId := commandId2Processors[commandId] + {processor.value}];
        assert commandId2Processors == AddTo(before, commandIds[..i + 1], processor.value);
      }
      assert commandIds[..|commandIds|] == commandIds;
    }

    method UnregisterSaCommandProcessor(commandIds: seq<SaCommandId>, processor: Option<Processor>)
      modifies this
      ensures State() == Apply(old(State()), Unregister(commandIds, processor))
    {
      if processor.None? {
        return;
      }
      processors := processors - {processor.value};
      ghost var before := commandId2Processors;
      for i := 0 to |commandIds|
        invariant processors == old(processors) - {processor.value}
        invariant commandId2Processors == RemoveFrom(before, commandIds[..i], processor.value)
      {
        var commandId := commandIds[i];
        assert commandIds[..i + 1][..i] == commandIds[..i];
        if commandId !in commandId2Processors {
          continue;
        }
        commandId2Processors :=
          commandId2Processors[commandId := commandId2Processors[commandId] - {processor.value}];
      }
      assert commandIds[..|commandIds|] == commandIds;
    }

    method ProcessSaCommands<S>(executor: Option<Executor>, commands: seq<SaCommand>, call: Behaviour<S>, s0: S)
      returns (code: ResultCode, s: S)
      ensures var r := Batch(State(), commands, executor, call, s0);
              s == r.state && code == r.code
    {
      s := s0;
      for i := 0 to |commands|
        invariant var all, rest := Batch(State(), commands, executor, call, s0),
                                   Batch(State(), commands[i..], executor, call, s);
                  all.state == rest.state && all.code == rest.code
      {
        var command := commands[i];
        assert commands[i..][1..] == commands[i + 1..];
        if command.id !in commandId2Processors {
          return GENERAL_ERROR, s;
        }
        var order := InOrder(commandId2Processors[command.id]);
        ghost var later := Calls(State(), commands[i + 1..]);
        assert Invocations(command, order[0..]) == Invocations(command, order);
        for j := 0 to |order|
          invariant var all, rest := Batch(State(), commands, executor, call, s0),
                                     Dispatch(Invocations(command, order[j..]) + later, executor, call, s);
                    all.state == rest.state && all.code == rest.code
        {
          ghost var remaining := Invocations(command, order[j..]) + later;
          assert remaining[0] == Invoke(command, order[j]);
          assert remaining[1..] == Invocations(command, order[j + 1..]) + later;
          var (next, result) := call(s, order[j], executor, command);
          s := next;
          if result != SUCCESS {
            return GENERAL_ERROR, s;
          }
        }
        assert Invocations(command, order[|order|..]) + later == later;
      }
      return SUCCESS, s;
    }

    method OnHdiDisconnect<S>(notify: Notification<S>, s0: S) returns (s: S)
      ensures s == Broadcast(InOrder(processors), notify, s0)
    {
      s := s0;
      var order := InOrder(processors);
      for i := 0 to |order|
        invariant Broadcast(order, notify, s0) == Broadcast(order[i..], notify, s)
      {
        assert order[i..][1..] == order[i + 1..];
        s := notify(s, order[i]);
      }
    }
  }
}
