// baseapp/baseapp.go: the ABCI state machine. `Abci` gives its meaning on plain maps and proves what
// holds of every run; `BaseApp` is the code over cache stores, proved equal to it call by call.

module Abci {
  import opened Bytes
  import opened CacheKV
  import opened Handler

  datatype Mode = Check | Simulate | Deliver

  // What handler code sees besides the store. Headers, votes and parameters stay abstract here; `meter`
  // is the reading of the gas meter the code starts from.
  datatype Context = Context(mode: Mode, header: nat, votes: nat, params: Option<Params>, txBytes: Bytes, meter: nat)

  datatype Params = Params(maxGas: nat, rest: nat)

  datatype Msg = Msg(route: Bytes, body: Bytes)
  datatype Tx = Tx(msgs: seq<Msg>, rest: Bytes)

  // ValidateBasic may accept, return an error, or panic.
  datatype Verdict = Accept | Reject | Crash

  // The deliver state: contents, and the parts of its context that change during a block.
  // `meter` is the context's own gas meter, `blockGas` the block gas meter.
  datatype DeliverState = DeliverState(view: View, header: nat, maxGas: nat, blockGas: nat, meter: nat)

  // An application: its decoder, router, handlers and hooks. The charge to the block gas meter is any
  // function of the deliver state and the context.
  datatype App = App(
    decode: Bytes -> Option<Tx>,
    validate: Msg -> Verdict,
    ante: Option<(Context, Tx) -> Program>,
    route: Bytes -> bool,
    handle: (Context, Msg) -> Program,
    initChainer: Option<Context -> Program>,
    beginBlocker: Option<Context -> Program>,
    endBlocker: Option<Context -> Program>,
    querier: (Context, Bytes) -> Option<Program>,
    paramsKey: Key,
    encodeParams: Params -> Value,
    charge: (DeliverState, Context) -> nat,
    meterAfter: (DeliverState, Context) -> nat
  )

  // ---------- One transaction ----------

  function ValidateBasicTxMsgs(app: App, msgs: seq<Msg>): bool {
    msgs != [] && forall i :: 0 <= i < |msgs| ==> app.validate(msgs[i]).Accept?
  }

  // Run messages until one has no route, fails or panics; None if that happens. Each starts from the
  // gas the ones before it have used.
  ghost function RunMsgs(app: App, ctx: Context, msgs: seq<Msg>, m: View): Option<View>
    decreases msgs
  {
    if msgs == [] then Some(m)
    else if !app.route(msgs[0].route) then None
    else
      var (outcome, m') := Exec(app.handle(ctx, msgs[0]), m);
      if Succeeded(outcome) then RunMsgs(app, ctx.(meter := outcome.meter), msgs[1..], m') else None
  }

  // The contents and the meter the messages start from.
  ghost function RunAnte(app: App, ctx: Context, tx: Tx, m: View): Option<(View, nat)> {
    if app.ante.None? then Some((m, ctx.meter))
    else
      var (outcome, m') := Exec(app.ante.value(ctx, tx), m);
      if Succeeded(outcome) then Some((m', outcome.meter)) else None
  }

  // The contents of the mode's state after runTx.
  ghost function RunTx(app: App, ctx: Context, tx: Tx, m: View): View {
    if !ValidateBasicTxMsgs(app, tx.msgs) || RunAnte(app, ctx, tx, m).None? || ctx.mode.Simulate? then m
    else
      var (m1, meter) := RunAnte(app, ctx, tx, m).value;
      var r := RunMsgs(app, ctx.(meter := meter), tx.msgs, m1);
      if ctx.mode.Check? || r.None? then m1 else r.value
  }

  // ---------- The machine ----------

  // `cms` is the working tree of the commit multistore, `versions` what Commit has saved.
  datatype State = State(
    cms: View, versions: seq<View>, deliver: Option<DeliverState>,
    check: View, checkHeader: nat, votes: nat, params: Option<Params>, halted: bool)

  datatype Call =
    | InitChain(header: nat, newParams: Option<Params>)
    | BeginBlock(header: nat, votes: nat)
    | DeliverTx(txBytes: Bytes)
    | EndBlock
    | Commit
    | CheckTx(txBytes: Bytes)
    | SimulateTx(txBytes: Bytes)
    | Query(path: Bytes)

  predicate IsConsensus(c: Call) {
    c.InitChain? || c.BeginBlock? || c.DeliverTx? || c.EndBlock? || c.Commit?
  }

  function MaxGas(params: Option<Params>): nat {
    if params.Some? then params.value.maxGas else 0
  }

  function DeliverContext(s: State, d: DeliverState, txBytes: Bytes): Context {
    Context(Deliver, d.header, s.votes, s.params, txBytes, d.meter)
  }

  function CheckContext(s: State, mode: Mode, txBytes: Bytes): Context {
    Context(mode, s.checkHeader, s.votes, s.params, txBytes, 0)
  }

  // A hook runs directly on the deliver state; nothing recovers its panics, so one kills the process.
  ghost function AfterHook(hook: Option<Context -> Program>, s: State): State
    requires s.deliver.Some?
  {
    if hook.None? then s
    else
      var d := s.deliver.value;
      var (outcome, view) := Exec(hook.value(DeliverContext(s, d, [])), d.view);
      s.(deliver := Some(d.(view := view, meter := MeterAfter(outcome, d.meter))), halted := outcome.Panicked?)
  }

  // setDeliverState and setCheckState over the working tree, with new parameters stored in it.
  function ChainOpened(app: App, s: State, header: nat, newParams: Option<Params>): State {
    var cms := if newParams.None? then s.cms else s.cms[app.paramsKey := app.encodeParams(newParams.value)];
    var params := if newParams.None? then s.params else newParams;
    s.(cms := cms, params := params, check := cms, checkHeader := header,
       deliver := Some(DeliverState(cms, header, 0, 0, 0)))
  }

  // The first block continues InitChain's deliver state; later ones start from the working tree.
  function BlockOpened(s: State, header: nat, votes: nat): State {
    var began := if s.deliver.None? then DeliverState(s.cms, header, 0, 0, 0) else s.deliver.value;
    s.(votes := votes, deliver := Some(began.(header := header, maxGas := MaxGas(s.params), blockGas := 0)))
  }

  predicate OutOfGas(d: DeliverState) {
    d.maxGas > 0 && d.blockGas >= d.maxGas
  }

  // The deferred charge comes after the writes, whatever it finds.
  ghost function StepDeliverTx(app: App, s: State, txBytes: Bytes): State {
    if app.decode(txBytes).None? then s
    else if s.deliver.None? then s.(halted := true)
    else
      var d := s.deliver.value;
      if OutOfGas(d) then s
      else
        var ctx := DeliverContext(s, d, txBytes);
        var view := RunTx(app, ctx, app.decode(txBytes).value, d.view);
        s.(deliver := Some(d.(view := view, blockGas := d.blockGas + app.charge(d, ctx), meter := app.meterAfter(d, ctx))))
  }

  ghost function StepCheckTx(app: App, s: State, mode: Mode, txBytes: Bytes): State
    requires mode != Deliver
  {
    if app.decode(txBytes).None? then s
    else s.(check := RunTx(app, CheckContext(s, mode, txBytes), app.decode(txBytes).value, s.check))
  }

  // A custom query runs on a throw-away cache of the commit multistore.
  ghost function StepQuery(app: App, s: State, path: Bytes): State {
    var p := app.querier(CheckContext(s, Check, path), path);
    if p.Some? && Exec(p.value, s.cms).0.Panicked? then s.(halted := true) else s
  }

  function StepCommit(s: State): State {
    if s.deliver.None? then s.(halted := true)
    else
      var d := s.deliver.value;
      s.(cms := d.view, versions := s.versions + [d.view], check := d.view, checkHeader := d.header, deliver := None)
  }

  ghost function Step(app: App, s: State, c: Call): State {
    if s.halted then s
    else match c
      case InitChain(header, newParams) => AfterHook(app.initChainer, ChainOpened(app, s, header, newParams))
      case BeginBlock(header, votes) => AfterHook(app.beginBlocker, BlockOpened(s, header, votes))
      case DeliverTx(txBytes) => StepDeliverTx(app, s, txBytes)
      case EndBlock => if s.deliver.None? then s.(halted := true) else AfterHook(app.endBlocker, s)
      case Commit => StepCommit(s)
      case CheckTx(txBytes) => StepCheckTx(app, s, Check, txBytes)
      case SimulateTx(txBytes) => StepCheckTx(app, s, Simulate, txBytes)
      case Query(path) => StepQuery(app, s, path)
  }

  ghost function RunCalls(app: App, s: State, calls: seq<Call>): State
    decreases calls
  {
    if calls == [] then s else RunCalls(app, Step(app, s, calls[0]), calls[1..])
  }

  function ConsensusOnly(calls: seq<Call>): seq<Call> {
    if calls == [] then []
    else (if IsConsensus(calls[0]) then [calls[0]] else []) + ConsensusOnly(calls[1..])
  }

  // ---------- What holds of one transaction ----------

  // Deliver leaves the state unchanged, at the ante result, or at the ante result followed by every
  // message; the last exactly when every message has a route and returns without error.
  lemma DeliverIsAtomic(app: App, ctx: Context, tx: Tx, m: View)
    requires ctx.mode == Deliver
    ensures var m' := RunTx(app, ctx, tx, m); var (outcome, m1) := AnteExec(app, ctx, tx, m);
            if !AllAccepted(app, tx.msgs) || !(outcome.Returned? && outcome.ok) then m' == m
            else
              var ctx1 := ctx.(meter := outcome.meter);
              if forall i :: 0 <= i < |tx.msgs| ==> MsgSucceeds(app, ctx1, tx.msgs, m1, i)
              then m' == After(app, ctx1, tx.msgs, m1, |tx.msgs|).0
              else m' == m1
  {
    var (outcome, m1) := AnteExec(app, ctx, tx, m);
    if Succeeded(outcome) {
      RunMsgsAll(app, ctx.(meter := outcome.meter), tx.msgs, m1);
    }
  }

  // The ante handler's program on its own; without one every transaction goes on as it is.
  ghost function AnteExec(app: App, ctx: Context, tx: Tx, m: View): (Outcome, View) {
    if app.ante.None? then (Returned(true, ctx.meter), m) else Exec(app.ante.value(ctx, tx), m)
  }

  ghost predicate AllAccepted(app: App, msgs: seq<Msg>) {
    |msgs| > 0 && forall msg :: msg in msgs ==> app.validate(msg) == Accept
  }

  // In every mode a transaction with a bad message, or one whose ante program fails or panics, leaves
  // nothing; otherwise Check keeps exactly what the ante program wrote, and Simulate nothing.
  lemma AnteGates(app: App, ctx: Context, tx: Tx, m: View)
    requires app.ante.Some?
    ensures var (outcome, m1) := Exec(app.ante.value(ctx, tx), m);
            var goesOn := AllAccepted(app, tx.msgs) && outcome.Returned? && outcome.ok;
            (!goesOn ==> RunTx(app, ctx, tx, m) == m) && (goesOn && ctx.mode == Check ==> RunTx(app, ctx, tx, m) == m1)
    ensures ctx.mode == Simulate ==> RunTx(app, ctx, tx, m) == m
  {
    assert AllAccepted(app, tx.msgs) <==> ValidateBasicTxMsgs(app, tx.msgs);
  }

  // The contents and the meter after the first `n` messages, whatever they returned.
  ghost function After(app: App, ctx: Context, msgs: seq<Msg>, m: View, n: nat): (View, nat)
    requires n <= |msgs|
  {
    if n == 0 then (m, ctx.meter)
    else
      var (m', meter) := After(app, ctx, msgs, m, n - 1);
      var (outcome, m'') := Exec(app.handle(ctx.(meter := meter), msgs[n - 1]), m');
      (m'', MeterAfter(outcome, meter))
  }

  ghost predicate MsgSucceeds(app: App, ctx: Context, msgs: seq<Msg>, m: View, i: nat)
    requires i < |msgs|
  {
    var (m', meter) := After(app, ctx, msgs, m, i);
    var outcome := Exec(app.handle(ctx.(meter := meter), msgs[i]), m').0;
    app.route(msgs[i].route) && outcome.Returned? && outcome.ok
  }

  lemma {:induction false} RunMsgsFrom(app: App, ctx: Context, msgs: seq<Msg>, m: View, n: nat)
    requires n <= |msgs|
    ensures var (m', meter) := After(app, ctx, msgs, m, n);
            var r := RunMsgs(app, ctx.(meter := meter), msgs[n..], m');
            if forall i :: n <= i < |msgs| ==> MsgSucceeds(app, ctx, msgs, m, i)
            then r == Some(After(app, ctx, msgs, m, |msgs|).0) else r == None
    decreases |msgs| - n
  {
    if n < |msgs| {
      assert msgs[n..][1..] == msgs[n + 1..];
      RunMsgsFrom(app, ctx, msgs, m, n + 1);
      var (m', meter) := After(app, ctx, msgs, m, n);
      var (outcome, m'') := Exec(app.handle(ctx.(meter := meter), msgs[n]), m');
      assert After(app, ctx, msgs, m, n + 1) == (m'', MeterAfter(outcome, meter));
      assert MsgSucceeds(app, ctx, msgs, m, n) <==> app.route(msgs[n].route) && Succeeded(outcome);
    }
  }

  lemma RunMsgsAll(app: App, ctx: Context, msgs: seq<Msg>, m: View)
    ensures var r := RunMsgs(app, ctx, msgs, m);
            if forall i :: 0 <= i < |msgs| ==> MsgSucceeds(app, ctx, msgs, m, i)
            then r == Some(After(app, ctx, msgs, m, |msgs|).0) else r == None
  {
    assert msgs[0..] == msgs;
    RunMsgsFrom(app, ctx, msgs, m, 0);
  }

  // ---------- What holds of one call ----------

  // BeginBlock runs its hook on what InitChain left, or else on the last commit.
  lemma BlockStartsFrom(app: App, s: State, header: nat, votes: nat)
    requires !s.halted
    ensures var t := Step(app, s, BeginBlock(header, votes));
            var view := if s.deliver.Some? then s.deliver.value.view else s.cms;
            var meter := if s.deliver.Some? then s.deliver.value.meter else 0;
            t.deliver.Some? && t.deliver.value.blockGas == 0 && t.deliver.value.header == header &&
            t.deliver.value.maxGas == (if s.params.Some? then s.params.value.maxGas else 0) &&
            if app.beginBlocker.None? then t.deliver.value.view == view && !t.halted
            else
              var (outcome, view') := Exec(app.beginBlocker.value(Context(Deliver, header, votes, s.params, [], meter)), view);
              t.deliver.value.view == view' && t.halted == outcome.Panicked?
  {}

  // The first block sees what InitChain's hook wrote.
  lemma FirstBlockContinues(app: App, s: State, h: nat, newParams: Option<Params>, header: nat, votes: nat)
    requires !s.halted && app.initChainer.Some? && app.beginBlocker.None?
    ensures var params := if newParams.Some? then newParams else s.params;
            var cms := if newParams.Some? then s.cms[app.paramsKey := app.encodeParams(newParams.value)] else s.cms;
            var (outcome, view) := Exec(app.initChainer.value(Context(Deliver, h, s.votes, params, [], 0)), cms);
            var t := RunCalls(app, s, [InitChain(h, newParams), BeginBlock(header, votes)]);
            t.deliver.Some? && t.deliver.value.view == view && t.halted == outcome.Panicked?
  {
    var calls := [InitChain(h, newParams), BeginBlock(header, votes)];
    var s1 := Step(app, s, calls[0]);
    assert calls[1..] == [BeginBlock(header, votes)] && calls[1..][1..] == [];
    assert RunCalls(app, s1, calls[1..]) == Step(app, s1, BeginBlock(header, votes));
    if !s1.halted { BlockStartsFrom(app, s1, header, votes); }
  }

  // InitChain stores the new parameters and points both states at the result; its hook runs on the deliver state.
  lemma InitChainOpens(app: App, s: State, header: nat, newParams: Option<Params>)
    requires !s.halted
    ensures var t := Step(app, s, InitChain(header, newParams));
            var params := if newParams.Some? then newParams else s.params;
            var cms := if newParams.Some? then s.cms[app.paramsKey := app.encodeParams(newParams.value)] else s.cms;
            t.cms == t.check == cms && t.params == params && t.versions == s.versions && t.checkHeader == header &&
            t.deliver.Some? && t.deliver.value.header == header &&
            if app.initChainer.None? then t.deliver.value.view == cms && !t.halted
            else
              var (outcome, view) := Exec(app.initChainer.value(Context(Deliver, header, s.votes, params, [], 0)), cms);
              t.deliver.value.view == view && t.halted == outcome.Panicked?
  {}

  // EndBlock runs its hook on the deliver state and touches nothing else.
  lemma EndBlockRuns(app: App, s: State)
    requires !s.halted && s.deliver.Some?
    ensures var t := Step(app, s, EndBlock); var d := s.deliver.value;
            if app.endBlocker.None? then t == s
            else
              var (outcome, view) := Exec(app.endBlocker.value(Context(Deliver, d.header, s.votes, s.params, [], d.meter)), d.view);
              t.deliver.Some? && t.deliver.value.view == view && t.deliver.value.blockGas == d.blockGas &&
              t == s.(deliver := t.deliver, halted := outcome.Panicked?)
  {}

  // CheckTx takes the check view to RunTx's in Check mode; Simulate leaves it.
  lemma CheckTxTakes(app: App, s: State, txBytes: Bytes)
    requires !s.halted
    ensures var tx := app.decode(txBytes);
            var ctx := Context(Check, s.checkHeader, s.votes, s.params, txBytes, 0);
            Step(app, s, CheckTx(txBytes)) == (if tx.None? then s else s.(check := RunTx(app, ctx, tx.value, s.check))) &&
            Step(app, s, SimulateTx(txBytes)) == s
  {}

  // A query leaves every view; only a querier that panics stops the process.
  lemma QueryLeaves(app: App, s: State, path: Bytes)
    requires !s.halted
    ensures var p := app.querier(Context(Check, s.checkHeader, s.votes, s.params, path, 0), path);
            Step(app, s, Query(path)) == s.(halted := p.Some? && Exec(p.value, s.cms).0.Panicked?)
  {}

  // DeliverTx: bytes that do not decode and blocks without gas change nothing; any other transaction
  // takes the view to RunTx's and is charged.
  lemma DeliverTxTakes(app: App, s: State, txBytes: Bytes)
    requires !s.halted && s.deliver.Some?
    ensures var d := s.deliver.value; var t := Step(app, s, DeliverTx(txBytes)); var tx := app.decode(txBytes);
            if tx.None? || (0 < d.maxGas <= d.blockGas) then t == s
            else
              var ctx := Context(Deliver, d.header, s.votes, s.params, txBytes, d.meter);
              t.deliver.Some? && t.deliver.value.view == RunTx(app, ctx, tx.value, d.view) &&
              t.deliver.value.blockGas == d.blockGas + app.charge(d, ctx) &&
              t == s.(deliver := t.deliver)
  {}

  // ---------- What holds of every run ----------

  // Everything but the mempool's state.
  datatype ConsensusState = ConsensusState(
    cms: View, versions: seq<View>, deliver: Option<DeliverState>, votes: nat, params: Option<Params>)

  function Consensus(s: State): ConsensusState {
    ConsensusState(s.cms, s.versions, s.deliver, s.votes, s.params)
  }

  lemma LocalCallIsInvisible(app: App, s: State, c: Call)
    requires !IsConsensus(c)
    ensures Consensus(Step(app, s, c)) == Consensus(s)
    ensures !c.Query? ==> Step(app, s, c).halted == s.halted
  {}

  ghost predicate SameConsensus(s: State, t: State) {
    Consensus(s) == Consensus(t) && s.halted == t.halted
  }

  lemma HookIgnoresCheck(hook: Option<Context -> Program>, s: State, t: State)
    requires SameConsensus(s, t) && s.deliver.Some?
    ensures SameConsensus(AfterHook(hook, s), AfterHook(hook, t))
  {}

  lemma DeliverTxIgnoresCheck(app: App, s: State, t: State, txBytes: Bytes)
    requires SameConsensus(s, t)
    ensures SameConsensus(StepDeliverTx(app, s, txBytes), StepDeliverTx(app, t, txBytes))
  {}

  lemma ConsensusCallIgnoresCheck(app: App, s: State, t: State, c: Call)
    requires IsConsensus(c) && SameConsensus(s, t)
    ensures SameConsensus(Step(app, s, c), Step(app, t, c))
  {
    if c.InitChain? {
      HookIgnoresCheck(app.initChainer, ChainOpened(app, s, c.header, c.newParams), ChainOpened(app, t, c.header, c.newParams));
    } else if c.BeginBlock? {
      HookIgnoresCheck(app.beginBlocker, BlockOpened(s, c.header, c.votes), BlockOpened(t, c.header, c.votes));
    } else if c.EndBlock? && s.deliver.Some? {
      HookIgnoresCheck(app.endBlocker, s, t);
    } else if c.DeliverTx? {
      DeliverTxIgnoresCheck(app, s, t, c.txBytes);
    }
  }

  // Interleaved CheckTx, Simulate and Query calls never influence what is committed.
  lemma {:induction false} CommittedIsConsensusOnly(app: App, s: State, t: State, calls: seq<Call>)
    requires SameConsensus(s, t)
    ensures var full := RunCalls(app, s, calls); var pure := RunCalls(app, t, ConsensusOnly(calls));
            full.versions <= pure.versions && (!full.halted ==> !pure.halted && Consensus(full) == Consensus(pure))
    decreases calls
  {
    if calls != [] {
      var c := calls[0];
      var s' := Step(app, s, c);
      if IsConsensus(c) {
        ConsensusCallIgnoresCheck(app, s, t, c);
        assert ConsensusOnly(calls)[1..] == ConsensusOnly(calls[1..]);
        CommittedIsConsensusOnly(app, s', Step(app, t, c), calls[1..]);
      } else {
        LocalCallIsInvisible(app, s, c);
        assert ConsensusOnly(calls) == ConsensusOnly(calls[1..]);
        if s'.halted == t.halted {
          CommittedIsConsensusOnly(app, s', t, calls[1..]);
        } else {
          HaltedStays(app, s', calls[1..]);
          VersionsGrow(app, t, ConsensusOnly(calls));
        }
      }
    }
  }

  lemma {:induction false} HaltedStays(app: App, s: State, calls: seq<Call>)
    requires s.halted
    ensures RunCalls(app, s, calls) == s
  {
    if calls != [] { HaltedStays(app, s, calls[1..]); }
  }

  // Committed versions are never rewritten.
  lemma {:induction false} VersionsGrow(app: App, s: State, calls: seq<Call>)
    ensures s.versions <= RunCalls(app, s, calls).versions
    decreases calls
  {
    if calls != [] { VersionsGrow(app, Step(app, s, calls[0]), calls[1..]); }
  }

  lemma {:induction false} RunCallsAppend(app: App, s: State, calls: seq<Call>, c: Call)
    ensures RunCalls(app, s, calls + [c]) == Step(app, RunCalls(app, s, calls), c)
    decreases calls
  {
    if calls == [] {
      assert calls + [c] == [c];
    } else {
      assert (calls + [c])[1..] == calls[1..] + [c];
      RunCallsAppend(app, Step(app, s, calls[0]), calls[1..], c);
    }
  }

  // After a Commit everybody sees the same contents: the mempool's view, the working tree and the
  // version just saved are what the consensus calls alone had built.
  lemma CommitAligns(app: App, s: State, calls: seq<Call>)
    ensures var after := RunCalls(app, s, calls + [Commit]); var pure := RunCalls(app, s, ConsensusOnly(calls));
            !after.halted ==>
              pure.deliver.Some? && after.check == after.cms == pure.deliver.value.view &&
              after.versions == pure.versions + [after.check]
  {
    RunCallsAppend(app, s, calls, Commit);
    CommittedIsConsensusOnly(app, s, s, calls);
  }
}

module BaseApp {
  import opened Bytes
  import opened CacheKV
  import opened Handler
  import opened Abci

  // runMsgs: the loop stops at the first message without a route, with an error or with a panic.
  method ExecuteMsgs(app: App, ctx: Context, msgs: seq<Msg>, store: Store) returns (ok: bool)
    requires store.Valid()
    modifies store, store.Repr`cache
    ensures store.Valid()
    ensures RunMsgs(app, ctx, msgs, old(store.Contents)) == if ok then Some(store.Contents) else None
  {
    ghost var m := store.Contents;
    var i, now := 0, ctx;
    while i < |msgs|
      invariant i <= |msgs| && store.Valid()
      invariant RunMsgs(app, ctx, msgs, m) == RunMsgs(app, now, msgs[i..], store.Contents)
    {
      if !app.route(msgs[i].route) {
        return false;
      }
      assert msgs[i..][1..] == msgs[i + 1..];
      var outcome := Run(app.handle(now, msgs[i]), store);
      if !Succeeded(outcome) {
        return false;
      }
      i, now := i + 1, now.(meter := outcome.meter);
    }
    ok := true;
  }

  method ExecuteAnte(app: App, ctx: Context, tx: Tx, store: Store) returns (ok: bool, meter: nat)
    requires store.Valid()
    modifies store, store.Repr`cache
    ensures store.Valid()
    ensures RunAnte(app, ctx, tx, old(store.Contents)) == if ok then Some((store.Contents, meter)) else None
    ensures !ok ==> store.Contents == old(store.Contents)
  {
    if app.ante.None? {
      return true, ctx.meter;
    }
    var msCache := new Store.Wrap(store);
    var outcome := Run(app.ante.value(ctx, tx), msCache);
    ok, meter := Succeeded(outcome), MeterAfter(outcome, ctx.meter);
    if ok {
      msCache.Write();
    }
  }

  // runTx on the store of the mode's state; a panic anywhere is recovered and leaves what was
  // written before it.
  method ExecuteTx(app: App, ctx: Context, tx: Tx, store: Store)
    requires store.Valid()
    modifies store, store.Repr`cache
    ensures store.Valid() && store.Contents == RunTx(app, ctx, tx, old(store.Contents))
  {
    var ms := store;
    if ctx.mode.Simulate? {
      ms := new Store.Wrap(store);
    }
    if !ValidateBasicTxMsgs(app, tx.msgs) {
      return;
    }
    var anteOk, meter := ExecuteAnte(app, ctx, tx, ms);
    if !anteOk || ctx.mode.Check? {
      return;
    }
    var msCache := new Store.Wrap(ms);
    var msgsOk := ExecuteMsgs(app, ctx.(meter := meter), tx.msgs, msCache);
    if ctx.mode.Simulate? {
      return;
    }
    if msgsOk {
      msCache.Write();
    }
  }

  class Node {
    const def: App
    const cms: Store
    var versions: seq<View>
    var checkState: Store
    var checkHeader: nat
    var deliverState: Store?
    var deliverHeader: nat
    var maxGas: nat
    var blockGas: nat
    var meter: nat
    var votes: nat
    var params: Option<Params>
    var halted: bool

    // The check and deliver states are sibling caches of the commit multistore.
    ghost predicate Valid()
      reads this, cms.Repr, checkState.Repr, if deliverState == null then {} else deliverState.Repr
    {
      cms.parent == null && cms.Valid() &&
      checkState.parent == cms && checkState.Valid() &&
      (deliverState != null ==> deliverState.parent == cms && deliverState.Valid() && deliverState != checkState)
    }

    ghost function Abs(): State
      reads this, cms, checkState, deliverState
    {
      State(cms.Contents, versions,
            if deliverState == null then None
            else Some(DeliverState(deliverState.Contents, deliverHeader, maxGas, blockGas, meter)),
            checkState.Contents, checkHeader, votes, params, halted)
    }

    constructor (d: App, contents: View)
      ensures Valid() && def == d
      ensures Abs() == State(contents, [], None, contents, 0, 0, None, false)
    {
      var root := new Store.Root(contents);
      var check := new Store.Wrap(root);
      def, cms, versions, checkState, checkHeader := d, root, [], check, 0;
      deliverState, deliverHeader, maxGas, blockGas, meter := null, 0, 0, 0, 0;
      votes, params, halted := 0, None, false;
    }

    method CheckTx(mode: Mode, txBytes: Bytes)
      requires Valid() && !halted && mode != Deliver
      modifies checkState, checkState.Repr`cache
      ensures Valid() && Abs() == StepCheckTx(def, old(Abs()), mode, txBytes)
    {
      var tx := def.decode(txBytes);
      if tx.None? {
        return;
      }
      ExecuteTx(def, Context(mode, checkHeader, votes, params, txBytes, 0), tx.value, checkState);
    }

    method Query(path: Bytes)
      requires Valid() && !halted
      modifies this`halted, cms`cache
      ensures Valid() && Abs() == StepQuery(def, old(Abs()), path)
    {
      var program := def.querier(Context(Check, checkHeader, votes, params, path, 0), path);
      if program.Some? {
        var ms := new Store.Wrap(cms);
        var outcome := Run(program.value, ms);
        halted := outcome.Panicked?;
      }
    }

    // What the transaction turns out to be charged, and the reading it leaves on the deliver state's
    // meter, come from gas meters this model does not follow.
    method DeliverTx(txBytes: Bytes, gasUsed: nat, meterAfter: nat)
      requires Valid() && !halted
      requires deliverState != null ==>
        var d := Abs().deliver.value;
        var ctx := DeliverContext(Abs(), d, txBytes);
        gasUsed == def.charge(d, ctx) && meterAfter == def.meterAfter(d, ctx)
      modifies this, cms`cache, deliverState
      ensures Valid() && Abs() == StepDeliverTx(def, old(Abs()), txBytes)
    {
      var tx := def.decode(txBytes);
      if tx.None? {
        return;
      }
      if deliverState == null {
        halted := true;
        return;
      }
      if maxGas > 0 && blockGas >= maxGas {
        return;
      }
      ExecuteTx(def, Context(Deliver, deliverHeader, votes, params, txBytes, meter), tx.value, deliverState);
      blockGas, meter := blockGas + gasUsed, meterAfter;
    }

    method RunDeliverHook(hook: Option<Context -> Program>)
      requires Valid() && !halted && deliverState != null
      modifies this`halted, this`meter, cms`cache, deliverState
      ensures Valid() && Abs() == AfterHook(hook, old(Abs()))
    {
      if hook.Some? {
        var outcome := Run(hook.value(Context(Deliver, deliverHeader, votes, params, [], meter)), deliverState);
        halted, meter := outcome.Panicked?, MeterAfter(outcome, meter);
      }
    }

    method InitChain(header: nat, newParams: Option<Params>)
      requires Valid() && !halted
      modifies this, cms
      ensures Valid() && Abs() == Step(def, old(Abs()), Call.InitChain(header, newParams))
    {
      OpenChain(header, newParams);
      RunDeliverHook(def.initChainer);
    }

    method OpenChain(header: nat, newParams: Option<Params>)
      requires Valid() && !halted
      modifies this, cms
      ensures Valid() && Abs() == ChainOpened(def, old(Abs()), header, newParams) && fresh(deliverState)
    {
      StoreConsensusParams(newParams);
      SetDeliverState(header);
      SetCheckState(header);
    }

    method StoreConsensusParams(newParams: Option<Params>)
      requires cms.parent == null && cms.Valid()
      modifies this`params, cms
      ensures cms.Valid()
      ensures params == if newParams.Some? then newParams else old(params)
      ensures cms.Contents == if newParams.None? then old(cms.Contents)
                              else old(cms.Contents)[def.paramsKey := def.encodeParams(newParams.value)]
    {
      if newParams.Some? {
        params := newParams;
        cms.Set(def.paramsKey, def.encodeParams(newParams.value));
      }
    }

    method SetDeliverState(header: nat)
      requires cms.parent == null && cms.Valid()
      modifies this`deliverState, this`deliverHeader, this`maxGas, this`blockGas, this`meter
      ensures deliverState != null && fresh(deliverState) && deliverState.parent == cms && deliverState.Valid()
      ensures deliverState.Contents == cms.Contents
      ensures deliverHeader == header && maxGas == blockGas == meter == 0
    {
      deliverState := new Store.Wrap(cms);
      deliverHeader, maxGas, blockGas, meter := header, 0, 0, 0;
    }

    method SetCheckState(header: nat)
      requires cms.parent == null && cms.Valid()
      modifies this`checkState, this`checkHeader
      ensures fresh(checkState) && checkState.parent == cms && checkState.Valid()
      ensures checkState.Contents == cms.Contents && checkHeader == header
    {
      checkState := new Store.Wrap(cms);
      checkHeader := header;
    }

    method BeginBlock(header: nat, newVotes: nat)
      requires Valid() && !halted
      modifies this, cms`cache, deliverState
      ensures Valid() && Abs() == Step(def, old(Abs()), Call.BeginBlock(header, newVotes))
    {
      OpenBlock(header, newVotes);
      RunDeliverHook(def.beginBlocker);
    }

    method OpenBlock(header: nat, newVotes: nat)
      requires Valid() && !halted
      modifies this
      ensures Valid() && Abs() == BlockOpened(old(Abs()), header, newVotes)
      ensures deliverState == old(deliverState) || fresh(deliverState)
    {
      if deliverState == null {
        SetDeliverState(header);
      }
      deliverHeader, maxGas, blockGas, votes := header, MaxGas(params), 0, newVotes;
    }

    method EndBlock()
      requires Valid() && !halted
      modifies this, cms`cache, deliverState
      ensures Valid() && Abs() == Step(def, old(Abs()), Call.EndBlock)
    {
      if deliverState == null {
        halted := true;
        return;
      }
      RunDeliverHook(def.endBlocker);
    }

    method Commit()
      requires Valid() && !halted
      modifies this, cms, deliverState
      ensures Valid() && Abs() == StepCommit(old(Abs()))
    {
      if deliverState == null {
        halted := true;
        return;
      }
      deliverState.Write();
      // A read cached by the check state may be stale from here until it is replaced.
      versions := versions + [cms.data];
      SetCheckState(deliverHeader);
      deliverState := null;
    }
  }
}
