/** Runs of the escrow system put together: what some continuation can reach, and that reachable states stay reachable. */
module EscrowRuns {
  import opened ContractsDb
  import opened Escrow
  import P = PaymentsDb

  ghost predicate HasStatus(s: System, c: nat, status: Status) {
    c < |s.con.rows| && s.con.rows[c].status == status
  }

  // Some continuation brings contract c to the given status.
  ghost predicate CanReach(s: System, c: nat, status: Status) {
    exists steps :: CanRun(s, steps) && HasStatus(Run(s, steps), c, status)
  }

  // A freelancer wallet id that names no wallet now names none later, as ids are not given out again.
  ghost predicate Fresh(s: System, s': System, c: nat) {
    && c < |s.con.rows|
    && (|s.pay.wallets| <= s.con.rows[c].freelancer ==> |s'.pay.wallets| <= s.con.rows[c].freelancer)
  }

  // Some continuation does so without giving the contract's missing freelancer wallet id to a new wallet.
  ghost predicate CanReachFresh(s: System, c: nat, status: Status) {
    exists steps :: CanRun(s, steps) && HasStatus(Run(s, steps), c, status) && Fresh(s, Run(s, steps), c)
  }

  // Some continuation does so without any new wallet.
  ghost predicate CanReachUnseeded(s: System, c: nat, status: Status) {
    exists steps ::
      CanRun(s, steps) && HasStatus(Run(s, steps), c, status) && |Run(s, steps).pay.wallets| == |s.pay.wallets|
  }

  lemma UnseededIsFresh(s: System, c: nat, status: Status)
    requires CanReachUnseeded(s, c, status)
    ensures CanReach(s, c, status)
    ensures c < |s.con.rows| ==> CanReachFresh(s, c, status)
  {
    var steps :|
      CanRun(s, steps) && HasStatus(Run(s, steps), c, status) && |Run(s, steps).pay.wallets| == |s.pay.wallets|;
    if c < |s.con.rows| {
      assert Fresh(s, Run(s, steps), c);
    }
  }

  // New wallets make a difference only to a contract whose freelancer wallet is missing.
  lemma WithWalletIsFresh(s: System, c: nat, status: Status)
    requires c < |s.con.rows| && s.con.rows[c].freelancer < |s.pay.wallets|
    ensures CanReach(s, c, status) <==> CanReachFresh(s, c, status)
  {
    if steps :| CanRun(s, steps) && HasStatus(Run(s, steps), c, status) {
      assert Fresh(s, Run(s, steps), c);
    }
  }

  lemma ExecutionKeepsWallets(l: P.Ledger, op: P.Op)
    requires !op.OpSeed?
    ensures |P.Execute(l, op).0.wallets| == |l.wallets|
  {
  }

  lemma OnlySeedingAddsWallets(s: System, step: Step)
    requires Enabled(s, step)
    ensures |s.pay.wallets| <= |Apply(s, step).pay.wallets|
    ensures !step.SeedWallet? ==> |Apply(s, step).pay.wallets| == |s.pay.wallets|
  {
    if step.HoldArrives? {
      ExecutionKeepsWallets(s.pay, HoldOp(s, step.c, step.heldSeen, step.now));
    } else if step.SettleArrives? {
      ExecutionKeepsWallets(s.pay, SettleOp(s.calls[step.i], step.now));
    }
  }

  lemma {:induction false} RunGrowsWallets(s: System, steps: seq<Step>)
    requires CanRun(s, steps)
    ensures |s.pay.wallets| <= |Run(s, steps).pay.wallets|
    decreases |steps|
  {
    if steps == [] {
    } else {
      OnlySeedingAddsWallets(s, steps[0]);
      RunGrowsWallets(Apply(s, steps[0]), steps[1..]);
    }
  }

  lemma ReachedAlready(s: System, c: nat, status: Status)
    requires HasStatus(s, c, status)
    ensures CanReachUnseeded(s, c, status)
  {
    var steps: seq<Step> := [];
    assert CanRun(s, steps) && HasStatus(Run(s, steps), c, status) && |Run(s, steps).pay.wallets| == |s.pay.wallets|;
  }

  lemma ReachedAfter(s: System, step: Step, c: nat, status: Status)
    requires Enabled(s, step) && CanReachUnseeded(Apply(s, step), c, status)
    requires !step.SeedWallet?
    ensures CanReachUnseeded(s, c, status)
  {
    var next := Apply(s, step);
    OnlySeedingAddsWallets(s, step);
    var rest :|
      CanRun(next, rest) && HasStatus(Run(next, rest), c, status) && |Run(next, rest).pay.wallets| == |next.pay.wallets|;
    var steps := [step] + rest;
    assert steps[0] == step && steps[1..] == rest;
    assert CanRun(s, steps) && HasStatus(Run(s, steps), c, status) && |Run(s, steps).pay.wallets| == |s.pay.wallets|;
  }

  lemma {:induction false} RunAppend(s: System, steps: seq<Step>, last: Step)
    requires CanRun(s, steps) && Enabled(Run(s, steps), last)
    ensures CanRun(s, steps + [last]) && Run(s, steps + [last]) == Apply(Run(s, steps), last)
    decreases |steps|
  {
    if steps == [] {
      assert (steps + [last])[1..] == [];
    } else {
      RunAppend(Apply(s, steps[0]), steps[1..], last);
      assert (steps + [last])[0] == steps[0] && (steps + [last])[1..] == steps[1..] + [last];
    }
  }

  lemma ReachNext(s: System, step: Step)
    requires Reachable(s) && Enabled(s, step)
    ensures Reachable(Apply(s, step))
  {
    var steps :| CanRun(START, steps) && s == Run(START, steps);
    RunAppend(START, steps, step);
    assert CanRun(START, steps + [step]) && Apply(s, step) == Run(START, steps + [step]);
  }

  lemma StartReachable()
    ensures Reachable(START)
  {
    var none: seq<Step> := [];
    assert CanRun(START, none) && START == Run(START, none);
  }

  lemma {:induction false} ReachRun(s: System, steps: seq<Step>)
    requires Reachable(s) && CanRun(s, steps)
    ensures Reachable(Run(s, steps))
    decreases |steps|
  {
    if steps == [] {
    } else {
      ReachNext(s, steps[0]);
      ReachRun(Apply(s, steps[0]), steps[1..]);
    }
  }

  lemma ConcatShape(first: seq<Step>, second: seq<Step>)
    requires first != []
    ensures (first + second)[0] == first[0] && (first + second)[1..] == first[1..] + second
  {
  }

  lemma {:induction false} RunConcat(s: System, first: seq<Step>, second: seq<Step>)
    requires CanRun(s, first) && CanRun(Run(s, first), second)
    ensures CanRun(s, first + second) && Run(s, first + second) == Run(Run(s, first), second)
    decreases |first|
  {
    if first == [] {
      assert first + second == second;
    } else {
      ConcatShape(first, second);
      RunConcat(Apply(s, first[0]), first[1..], second);
    }
  }

  lemma ReachThrough(s: System, first: seq<Step>, c: nat, status: Status)
    requires CanRun(s, first) && |Run(s, first).pay.wallets| == |s.pay.wallets|
    requires CanReachUnseeded(Run(s, first), c, status)
    ensures CanReachUnseeded(s, c, status)
  {
    var mid := Run(s, first);
    var second :|
      CanRun(mid, second) && HasStatus(Run(mid, second), c, status) && |Run(mid, second).pay.wallets| == |mid.pay.wallets|;
    RunConcat(s, first, second);
    var steps := first + second;
    assert CanRun(s, steps) && HasStatus(Run(s, steps), c, status) && |Run(s, steps).pay.wallets| == |s.pay.wallets|;
  }
}
