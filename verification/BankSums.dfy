/** How each commit moves the three sums the caps are made of. */
module BankSums {
  import opened Sums
  import opened Common
  import opened BankModel

  /** What one row adds to a user's sum. */
  function Share(row: Withdrawal, u: UserId, statuses: set<Status>): nat {
    if row.user == u && row.status in statuses then row.uzd else 0
  }

  lemma WithdrawnPut(db: Db, db': Db, w: WithdrawalId, row: Withdrawal, u: UserId, statuses: set<Status>)
    requires db'.withdrawals == db.withdrawals[w := row]
    ensures Withdrawn(db', u, statuses) + (if w in db.withdrawals then Share(db.withdrawals[w], u, statuses) else 0)
         == Withdrawn(db, u, statuses) + Share(row, u, statuses)
  {
    var m, m' := WithdrawalsOf(db, u, statuses), WithdrawalsOf(db', u, statuses);
    if w in m { TotalRemove(m, w); }
    if w in m' { TotalRemove(m', w); }
    assert m' - {w} == m - {w};
    assert w !in m ==> m - {w} == m;
    assert w !in m' ==> m' - {w} == m';
  }

  lemma DepositedPut(db: Db, db': Db, k: BankTxId, row: Deposit, u: UserId)
    requires k !in db.deposits && db'.deposits == db.deposits[k := row]
    ensures Deposited(db', u) == Deposited(db, u) + if row.user == u then row.uzs else 0
  {
    var m, m' := DepositsOf(db, u), DepositsOf(db', u);
    if row.user == u {
      TotalRemove(m', k);
      assert m' - {k} == m;
    } else {
      assert m' == m;
    }
  }

  /** A filed row adds to what is outstanding only. */
  lemma FiledSums(db: Db, wid: WithdrawalId, u: UserId, uzd: nat, wei: nat, v: UserId)
    requires wid !in db.withdrawals
    ensures var db' := WithFiled(db, wid, u, uzd, wei);
            && Deposited(db', v) == Deposited(db, v)
            && Burned(db', v) == Burned(db, v)
            && Outstanding(db', v) == Outstanding(db, v) + if u == v then uzd else 0
  {
    var db' := WithFiled(db, wid, u, uzd, wei);
    var row := Withdrawal(u, uzd, wei, Pending, None);
    WithdrawnPut(db, db', wid, row, v, {Confirmed, Reconcile});
    WithdrawnPut(db, db', wid, row, v, {Pending, Confirmed, Reconcile});
  }

  /** A rejected row leaves what is outstanding and nothing else. */
  lemma RejectedSums(db: Db, wid: WithdrawalId, v: UserId)
    requires wid in db.withdrawals && db.withdrawals[wid].status.Pending?
    ensures var db' := WithRejected(db, wid);
            && Deposited(db', v) == Deposited(db, v)
            && Burned(db', v) == Burned(db, v)
            && Outstanding(db', v) <= Outstanding(db, v)
  {
    var db' := WithRejected(db, wid);
    var row := db'.withdrawals[wid];
    WithdrawnPut(db, db', wid, row, v, {Confirmed, Reconcile});
    WithdrawnPut(db, db', wid, row, v, {Pending, Confirmed, Reconcile});
  }

  /** A confirmed or parked row moves from outstanding-only to burned. */
  lemma SettledSums(db: Db, r: RequestId, q: Request, h: Hash, parked: bool, v: UserId)
    requires q.kind.Confirm? && q.kind.wid in db.withdrawals && db.withdrawals[q.kind.wid].status.Pending?
    ensures var db' := Committed(db, r, q, h, parked);
            var row := db.withdrawals[q.kind.wid];
            && Deposited(db', v) == Deposited(db, v)
            && Outstanding(db', v) == Outstanding(db, v)
            && Burned(db', v) == Burned(db, v) + if row.user == v then row.uzd else 0
  {
    var db' := Committed(db, r, q, h, parked);
    var row' := db'.withdrawals[q.kind.wid];
    WithdrawnPut(db, db', q.kind.wid, row', v, {Confirmed, Reconcile});
    WithdrawnPut(db, db', q.kind.wid, row', v, {Pending, Confirmed, Reconcile});
  }

  /** Every other commit only adds deposits. */
  lemma OtherSums(db: Db, r: RequestId, q: Request, h: Hash, parked: bool, v: UserId)
    requires !q.kind.Confirm?
    requires q.kind.DepositFor? ==> q.kind.key !in db.deposits
    ensures var db' := Committed(db, r, q, h, parked);
            && Deposited(db, v) <= Deposited(db', v)
            && Outstanding(db', v) == Outstanding(db, v)
            && Burned(db', v) == Burned(db, v)
  {
    if q.kind.DepositFor? {
      var db' := Committed(db, r, q, h, parked);
      DepositedPut(db, db', q.kind.key, Deposit(q.user, q.uzd, q.wei, h), v);
    }
  }

  /** Pending rows are outstanding but not burned. */
  lemma PendingIsOutstanding(db: Db, w: WithdrawalId, u: UserId)
    requires w in db.withdrawals && db.withdrawals[w].status.Pending? && db.withdrawals[w].user == u
    ensures Burned(db, u) + db.withdrawals[w].uzd <= Outstanding(db, u)
  {
    var b, o := WithdrawalsOf(db, u, {Confirmed, Reconcile}), WithdrawalsOf(db, u, {Pending, Confirmed, Reconcile});
    TotalRemove(o, w);
    TotalMono(b, o - {w});
  }
}
