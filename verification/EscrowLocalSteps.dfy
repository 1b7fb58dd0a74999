/** Steps inside the contracts service keep the invariant: what callers notice, and the saga's local transactions. */
module EscrowLocalSteps {
  import opened Wrappers
  import opened ContractsDb
  import opened Escrow
  import opened EscrowInvariant

  // A step that leaves payments, publishers and messages alone.
  ghost predicate Local(s: System, s': System) {
    s' == s.(con := s'.con, creates := s'.creates, calls := s'.calls)
  }

  lemma LocalKeepsInv(s: System, s': System)
    requires Inv(s) && Local(s, s') && ConInv(s')
    requires RowsGrow(s.con.rows, s'.con.rows) && AnswersStay(s.creates, s'.creates) && |s.calls| <= |s'.calls|
    requires forall i | 0 <= i < |s'.calls| && (i < |s.calls| ==> s'.calls[i] != s.calls[i]) ::
               CallOk(s'.calls[i], s'.con.rows, s'.pay.holds)
    ensures Inv(s')
  {
    PayFrame(s, s');
    CallsFrame(s, s');
    EventsFrame(s, s');
    WakeFrame(s, s');
  }

  // A call moves on while its contract stays.
  lemma CallMoves(s: System, i: nat, call: Call)
    requires Inv(s) && i < |s.calls| && CallOk(call, s.con.rows, s.pay.holds)
    ensures Inv(SetCall(s, i, call))
  {
    LocalKeepsInv(s, SetCall(s, i, call));
  }

  // A creation moves on while its contract stays.
  lemma CreateMoves(s: System, c: nat, create: Create)
    requires Inv(s) && c < |s.creates| && ContractOk(c, s.con.rows[c], create, s.pay.holds)
    requires s.creates[c].http.Answered? ==> create.http == s.creates[c].http
    ensures Inv(SetCreate(s, c, create))
  {
    LocalKeepsInv(s, SetCreate(s, c, create));
  }

  lemma CallerStepKeepsCall(s: System, step: Step)
    requires Enabled(s, step)
    requires step.Send? || step.SettleLost? || step.SettleAnswered? || step.SettleFails? || step.StopCall?
    requires CallOk(s.calls[step.i], s.con.rows, s.pay.holds)
    ensures Apply(s, step) == SetCall(s, step.i, Apply(s, step).calls[step.i])
    ensures CallOk(Apply(s, step).calls[step.i], s.con.rows, s.pay.holds)
  {
  }

  lemma CallerStepKeepsInv(s: System, step: Step)
    requires Inv(s) && Enabled(s, step)
    requires step.Send? || step.SettleLost? || step.SettleAnswered? || step.SettleFails? || step.StopCall?
    ensures Inv(Apply(s, step))
  {
    assert CallOk(s.calls[step.i], s.con.rows, s.pay.holds);
    CallerStepKeepsCall(s, step);
    CallMoves(s, step.i, Apply(s, step).calls[step.i]);
  }

  lemma CreatorStepKeepsInv(s: System, step: Step)
    requires Inv(s) && Enabled(s, step)
    requires step.HoldLost? || step.HoldAnswered? || step.HoldFails? || step.StopCreate?
    ensures Inv(Apply(s, step))
  {
    var c := step.c;
    assert ContractOk(c, s.con.rows[c], s.creates[c], s.pay.holds);
    CreateMoves(s, c, Apply(s, step).creates[c]);
  }

  // ----- local transactions -----

  // One contract row moves along an edge, with its announcements in step.
  lemma RowMoves(s: System, s': System, c: nat)
    requires Inv(s) && Local(s, s') && s'.calls == s.calls && c < |s.con.rows| && c < |s.creates| == |s'.creates|
    requires Consistent(s'.con) && Touches(s.con, s'.con, c)
    requires s'.creates == s.creates[c := s'.creates[c]] && s'.creates[c].http == s.creates[c].http
    requires RowEvolves(s.con.rows[c], s'.con.rows[c])
    requires ContractOk(c, s'.con.rows[c], s'.creates[c], s.pay.holds)
    ensures Inv(s')
  {
    forall x | 0 <= x < |s'.con.rows| ensures ContractOk(x, s'.con.rows[x], s'.creates[x], s'.pay.holds) {
      assert ContractOk(x, s.con.rows[x], s.creates[x], s.pay.holds);
    }
    LocalKeepsInv(s, s');
  }

  lemma StartCreateKeepsInv(s: System, step: Step)
    requires Inv(s) && Enabled(s, step) && step.StartCreate?
    ensures Inv(Apply(s, step))
  {
    var s' := Apply(s, step);
    InsertKeepsConsistent(s.con, step.client, step.freelancer, step.amount);
    forall x | 0 <= x < |s'.con.rows| ensures ContractOk(x, s'.con.rows[x], s'.creates[x], s'.pay.holds) {
      if x < |s.con.rows| {
        assert ContractOk(x, s.con.rows[x], s.creates[x], s.pay.holds);
      }
    }
    LocalKeepsInv(s, s');
  }

  lemma RecordHoldKeepsInv(s: System, step: Step)
    requires Inv(s) && Enabled(s, step) && step.RecordHold?
    ensures Inv(Apply(s, step))
  {
    var c, h := step.c, s.creates[step.c].pc.hold;
    assert ContractOk(c, s.con.rows[c], s.creates[c], s.pay.holds);
    assert HoldOk(h, s.pay.holds[h], s.con.rows, s.creates);
    RecordHoldKeepsConsistent(s.con, c, h);
    RowMoves(s, Apply(s, step), c);
  }

  // The ignored status conflict of the compensation never happens: PENDING is left only by the call's own transactions.
  lemma CompensateKeepsInv(s: System, step: Step)
    requires Inv(s) && Enabled(s, step) && step.Compensate?
    ensures s.con.rows[step.c].status.Pending?
    ensures Inv(Apply(s, step))
  {
    assert ContractOk(step.c, s.con.rows[step.c], s.creates[step.c], s.pay.holds);
    CompensationNeedsPending(s.con, step.c);
    RowMoves(s, Apply(s, step), step.c);
  }

  lemma AcceptKeepsInv(s: System, step: Step)
    requires Inv(s) && Enabled(s, step) && step.Accept?
    ensures Inv(Apply(s, step))
  {
    if AcceptTx(s.con, step.c).Some? {
      assert ContractOk(step.c, s.con.rows[step.c], s.creates[step.c], s.pay.holds);
      AcceptKeepsConsistent(s.con, step.c);
      RowMoves(s, Apply(s, step), step.c);
    }
  }

  // A call that passed the status test starts in step with its contract.
  lemma StartedCallOk(s: System, op: Settlement, c: nat)
    requires c < |s.con.rows| && StatusOk(s.con.rows[c], s.pay.holds) && Started(s, op, c) != s
    ensures Started(s, op, c) == s.(calls := Started(s, op, c).calls)
    ensures |Started(s, op, c).calls| == |s.calls| + 1 && Started(s, op, c).calls[..|s.calls|] == s.calls
    ensures CallOk(Started(s, op, c).calls[|s.calls|], s.con.rows, s.pay.holds)
  {
  }

  lemma StartSettleKeepsInv(s: System, step: Step)
    requires Inv(s) && Enabled(s, step) && step.StartSettle?
    ensures Inv(Apply(s, step))
  {
    var s' := Started(s, step.op, step.c);
    if s' != s {
      assert ContractOk(step.c, s.con.rows[step.c], s.creates[step.c], s.pay.holds);
      StartedCallOk(s, step.op, step.c);
      forall i | 0 <= i < |s.calls| ensures s'.calls[i] == s.calls[i] {
        assert s'.calls[..|s.calls|][i] == s.calls[i];
      }
      LocalKeepsInv(s, s');
    }
  }

  // The compare-and-set that claims an open contract, and the one that finishes a claimed one.
  lemma ClaimMoves(s: System, op: Settlement, c: nat)
    requires Inv(s) && ClaimTx(s.con, op, c).Some?
    ensures Inv(s.(con := ClaimTx(s.con, op, c).value))
  {
    assert ContractOk(c, s.con.rows[c], s.creates[c], s.pay.holds);
    ClaimKeepsConsistent(s.con, op, c);
    RowMoves(s, s.(con := ClaimTx(s.con, op, c).value), c);
  }

  lemma FinishMoves(s: System, op: Settlement, c: nat)
    requires Inv(s) && FinishTx(s.con, op, c).Some?
    requires c < |s.con.rows| && HoldHas(s.pay.holds, s.con.rows[c].hold, Settled(op), Settled(op))
    ensures Inv(s.(con := FinishTx(s.con, op, c).value))
  {
    assert ContractOk(c, s.con.rows[c], s.creates[c], s.pay.holds);
    FinishKeepsConsistent(s.con, op, c);
    RowMoves(s, s.(con := FinishTx(s.con, op, c).value), c);
  }

  lemma ClaimKeepsInv(s: System, step: Step)
    requires Inv(s) && Enabled(s, step) && step.Claim?
    ensures Inv(Apply(s, step))
  {
    var call := s.calls[step.i];
    var tx := ClaimTx(s.con, call.op, call.contract);
    if tx.Some? {
      var claimed := s.(con := tx.value);
      ClaimMoves(s, call.op, call.contract);
      assert CallOk(call, claimed.con.rows, claimed.pay.holds);
      CallMoves(claimed, step.i, call.(pc := ToSend));
    } else {
      assert CallOk(call, s.con.rows, s.pay.holds);
      CallMoves(s, step.i, call.(pc := CallEnded));
    }
  }

  lemma FinishKeepsInv(s: System, step: Step)
    requires Inv(s) && Enabled(s, step) && step.Finish?
    ensures Inv(Apply(s, step))
  {
    var call := s.calls[step.i];
    var tx := FinishTx(s.con, call.op, call.contract);
    assert CallOk(call, s.con.rows, s.pay.holds);
    if tx.Some? {
      var finished := s.(con := tx.value);
      FinishMoves(s, call.op, call.contract);
      assert CallOk(finished.calls[step.i], finished.con.rows, finished.pay.holds);
      CallMoves(finished, step.i, call.(pc := CallEnded));
    } else {
      CallMoves(s, step.i, call.(pc := CallEnded));
    }
  }
}
