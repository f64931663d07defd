/** What the call-cost handlers keep and what they break: the ledger
    (every balance equals its client's signed transactions) and the
    one-debit-per-call rule, for `POST`, for `PUT` as written and for the
    corrected `PutCharged`. */
module BillingProofs {
  import opened Wrappers
  import opened Decimal
  import opened Ordering
  import opened Store
  import opened CallBilling

  // ---------------------------------------------------------------------------
  // Facts about the call table

  /** Appending a call marks at most its own key deducted. */
  lemma DeductedAppend(calls: seq<Call>, c: Call, id: Id)
    ensures Deducted(calls + [c], id) <==> Deducted(calls, id) || (c.id == id && c.costDeducted)
  {
    var all := calls + [c];
    if Deducted(all, id) && !(c.id == id && c.costDeducted) {
      var i :| 0 <= i < |all| && all[i].id == id && all[i].costDeducted;
      assert i < |calls| && calls[i] == all[i];
    }
    if Deducted(calls, id) {
      var i :| 0 <= i < |calls| && calls[i].id == id && calls[i].costDeducted;
      assert all[i] == calls[i];
    }
    if c.id == id && c.costDeducted {
      assert all[|calls|] == c;
    }
  }

  /** Replacing a call by one with the same key changes only that key's
      deducted flag, provided keys are unique. */
  lemma DeductedUpdate(calls: seq<Call>, k: nat, c: Call, id: Id)
    requires k < |calls| && c.id == calls[k].id
    requires forall i, j :: 0 <= i < j < |calls| ==> calls[i].id != calls[j].id
    ensures Deducted(calls[k := c], id) <==>
              if id == c.id then c.costDeducted else Deducted(calls, id)
  {
    var all := calls[k := c];
    if id == c.id {
      if Deducted(all, id) {
        var i :| 0 <= i < |all| && all[i].id == id && all[i].costDeducted;
      }
      if c.costDeducted {
        assert all[k] == c;
      }
    } else {
      if Deducted(all, id) {
        var i :| 0 <= i < |all| && all[i].id == id && all[i].costDeducted;
        assert i != k && calls[i] == all[i];
      }
      if Deducted(calls, id) {
        var i :| 0 <= i < |calls| && calls[i].id == id && calls[i].costDeducted;
        assert i != k && all[i] == calls[i];
      }
    }
  }

  /** A key at or above `nextId` belongs to no call, so it is not deducted
      and, by the invariant, has no debit. */
  lemma FreshKeyUncharged(db: Db)
    requires CallKeysFresh(db) && AtMostOneDebit(db)
    ensures !Deducted(db.calls, db.nextId)
    ensures DebitsFor(db.transactions, db.nextId) == 0
  {
    assert DebitsFor(db.transactions, db.nextId) <= (if Deducted(db.calls, db.nextId) then 1 else 0);
  }

  /** A charge names exactly one call. */
  lemma ChargeNamesOneCall(t: Transaction, a: Id, b: Id)
    requires IsChargeFor(t, a) && IsChargeFor(t, b)
    ensures a == b
  {
    ChargeReasonInjective(a, b);
  }

  // ---------------------------------------------------------------------------
  // POST

  /** `POST` keeps every balance equal to the sum of its client's
      transactions: the debit and the decrement land together. */
  lemma PostPreservesLedger(db: Db, session: Option<Session>, input: CallInput, now: int)
    requires LedgerBalanced(db) && ClientKeysUnique(db)
    ensures LedgerBalanced(Post(db, session, input, now).db)
    ensures ClientKeysUnique(Post(db, session, input, now).db)
  {
    var r := Post(db, session, input, now);
    if r.response.Json200? && TruthyNum(input.finalCost) {
      var k := ClientIndex(db.clients, input.clientId).value;
      var t := r.db.transactions[|r.db.transactions| - 1];
      assert r.db.transactions == db.transactions + [t];
      forall j | 0 <= j < |r.db.clients|
        ensures r.db.clients[j].balance == Net(r.db.transactions, r.db.clients[j].id)
      {
        NetAppend(db.transactions, t, db.clients[j].id);
        if j != k {
          assert db.clients[j].id != db.clients[k].id by {
            assert j < k || k < j;
          }
        }
      }
    }
  }

  /** `POST` never produces a second debit for a call: the new call's key is
      fresh, so its one debit is its first, and it is marked deducted. */
  lemma PostKeepsAtMostOneDebit(db: Db, session: Option<Session>, input: CallInput, now: int)
    requires AtMostOneDebit(db) && CallKeysFresh(db)
    ensures AtMostOneDebit(Post(db, session, input, now).db)
    ensures CallKeysFresh(Post(db, session, input, now).db)
  {
    var r := Post(db, session, input, now);
    if r.response.Json200? {
      var c := r.response.body;
      FreshKeyUncharged(db);
      forall id: Id
        ensures DebitsFor(r.db.transactions, id) <= (if Deducted(r.db.calls, id) then 1 else 0)
      {
        DeductedAppend(db.calls, c, id);
        assert DebitsFor(db.transactions, id) <= (if Deducted(db.calls, id) then 1 else 0);
        if TruthyNum(input.finalCost) {
          var t := r.db.transactions[|r.db.transactions| - 1];
          assert r.db.transactions == db.transactions + [t];
          DebitsAppend(db.transactions, t, id);
          if IsChargeFor(t, id) {
            ChargeNamesOneCall(t, id, db.nextId);
          }
        }
      }
    }
  }

  // ---------------------------------------------------------------------------
  // PUT as written

  /** Replacing one call by a same-key call that stays deducted if it was,
      without writing a transaction, keeps the invariant. */
  lemma ReplaceCallNoCharge(db: Db, after: Db, k: nat, c: Call)
    requires AtMostOneDebit(db) && CallKeysFresh(db)
    requires k < |db.calls| && c.id == db.calls[k].id
    requires db.calls[k].costDeducted ==> c.costDeducted
    requires after.calls == db.calls[k := c] && after.transactions == db.transactions
    requires after.nextId >= db.nextId
    ensures AtMostOneDebit(after) && CallKeysFresh(after)
  {
    forall key: Id
      ensures DebitsFor(after.transactions, key) <= (if Deducted(after.calls, key) then 1 else 0)
    {
      DeductedUpdate(db.calls, k, c, key);
      assert DebitsFor(db.transactions, key) <= (if Deducted(db.calls, key) then 1 else 0);
      if key == c.id && db.calls[k].costDeducted {
        assert Deducted(db.calls, key);
      }
    }
    forall i, j | 0 <= i < j < |after.calls| ensures after.calls[i].id != after.calls[j].id {
      assert after.calls[i].id == db.calls[i].id && after.calls[j].id == db.calls[j].id;
    }
  }

  /** Replacing an undeducted call by a deducted same-key call while
      appending one debit for it keeps the invariant. */
  lemma ReplaceCallWithCharge(db: Db, after: Db, k: nat, c: Call, t: Transaction)
    requires AtMostOneDebit(db) && CallKeysFresh(db)
    requires k < |db.calls| && c.id == db.calls[k].id
    requires !db.calls[k].costDeducted && c.costDeducted
    requires t.kind == Debit && t.reason == ChargeReason(c.id)
    requires after.calls == db.calls[k := c] && after.transactions == db.transactions + [t]
    requires after.nextId >= db.nextId
    ensures AtMostOneDebit(after) && CallKeysFresh(after)
  {
    assert !Deducted(db.calls, c.id) by {
      DeductedUpdate(db.calls, k, db.calls[k], c.id);
      assert db.calls[k := db.calls[k]] == db.calls;
    }
    forall key: Id
      ensures DebitsFor(after.transactions, key) <= (if Deducted(after.calls, key) then 1 else 0)
    {
      DeductedUpdate(db.calls, k, c, key);
      assert DebitsFor(db.transactions, key) <= (if Deducted(db.calls, key) then 1 else 0);
      DebitsAppend(db.transactions, t, key);
      if IsChargeFor(t, key) {
        ChargeNamesOneCall(t, key, c.id);
      }
    }
    forall i, j | 0 <= i < j < |after.calls| ensures after.calls[i].id != after.calls[j].id {
      assert after.calls[i].id == db.calls[i].id && after.calls[j].id == db.calls[j].id;
    }
  }

  /** While no request sends `costDeducted: false`, `PUT` never debits a
      call twice: it only debits a call not yet deducted, and marks it. */
  lemma PutKeepsAtMostOneDebit(db: Db, session: Option<Session>, id: Id, patch: CallPatch)
    requires AtMostOneDebit(db) && CallKeysFresh(db)
    requires patch.costDeducted != Some(false)
    ensures AtMostOneDebit(Put(db, session, id, patch).db)
    ensures CallKeysFresh(Put(db, session, id, patch).db)
  {
    var r := Put(db, session, id, patch);
    if r.response.Json200? {
      var k := CallIndex(db.calls, id).value;
      if r.db.transactions == db.transactions {
        ReplaceCallNoCharge(db, r.db, k, r.response.body);
      } else {
        var t := r.db.transactions[|r.db.transactions| - 1];
        ReplaceCallWithCharge(db, r.db, k, r.response.body, t);
      }
    }
  }

  /** Applies a sequence of `PUT` requests in order. */
  function PutAll(db: Db, session: Option<Session>, reqs: seq<(Id, CallPatch)>): Db
    decreases |reqs|
  {
    if |reqs| == 0 then db
    else PutAll(Put(db, session, reqs[0].0, reqs[0].1).db, session, reqs[1..])
  }

  /** Any number of `PUT`s — each possibly resending `final_cost` — debit a
      call at most once, unless one of them resets `costDeducted`. */
  lemma {:induction false} PutAllKeepsAtMostOneDebit(db: Db, session: Option<Session>, reqs: seq<(Id, CallPatch)>)
    requires AtMostOneDebit(db) && CallKeysFresh(db)
    requires forall i :: 0 <= i < |reqs| ==> reqs[i].1.costDeducted != Some(false)
    ensures AtMostOneDebit(PutAll(db, session, reqs))
    ensures forall id: Id :: DebitsFor(PutAll(db, session, reqs).transactions, id) <= 1
    decreases |reqs|
  {
    if |reqs| > 0 {
      PutKeepsAtMostOneDebit(db, session, reqs[0].0, reqs[0].1);
      PutAllKeepsAtMostOneDebit(Put(db, session, reqs[0].0, reqs[0].1).db, session, reqs[1..]);
    } else {
      forall id: Id ensures DebitsFor(db.transactions, id) <= 1 {
        assert DebitsFor(db.transactions, id) <= (if Deducted(db.calls, id) then 1 else 0);
      }
    }
  }

  /** A charging `PUT` on a call whose client exists leaves that client's
      balance above the sum of its transactions: the debit is written but the
      balance is not decremented. */
  lemma PutBreaksLedger(db: Db, session: Option<Session>, id: Id, patch: CallPatch)
    requires LedgerBalanced(db) && Authenticated(session)
    requires CallIndex(db.calls, id).Some?
    requires TruthyNum(patch.finalCost) && !db.calls[CallIndex(db.calls, id).value].costDeducted
    requires ClientIndex(db.clients, db.calls[CallIndex(db.calls, id).value].clientId).Some?
    ensures !LedgerBalanced(Put(db, session, id, patch).db)
  {
    var r := Put(db, session, id, patch);
    var call := db.calls[CallIndex(db.calls, id).value];
    var j := ClientIndex(db.clients, call.clientId).value;
    var t := r.db.transactions[|r.db.transactions| - 1];
    assert r.db.transactions == db.transactions + [t];
    NetAppend(db.transactions, t, call.clientId);
    assert r.db.clients[j].balance != Net(r.db.transactions, r.db.clients[j].id);
  }

  /** A `PUT` body that sends no field. */
  const NoPatch := CallPatch(None, None, None, None, None, None, None, None, None, None, None, None, None, None)

  /** One client (key 1, user 7, balance 10) with one undeducted call (key 2). */
  const ResetExample := Db(
    [Client(1, 7, 10.0)],
    [Call(2, 1, None, None, None, None, "in-progress", None, None, None, None, None, None, false, NoDetails, 0, 0)],
    [], [], [], [], [], map[7 := 1], map[], 3)

  /** The table holds exactly one call, with this key. */
  predicate OnlyCall(db: Db, id: Id) {
    |db.calls| == 1 && db.calls[0].id == id
  }

  /** `PUT {final_cost}` on the undeducted call appends one debit for it. */
  lemma ChargeStep(db: Db, s: Option<Session>, id: Id, amount: real)
    requires Authenticated(s) && OnlyCall(db, id) && !db.calls[0].costDeducted && amount != 0.0
    ensures var d := Put(db, s, id, NoPatch.(finalCost := Some(amount))).db;
            && OnlyCall(d, id) && d.calls[0].costDeducted
            && |d.transactions| == |db.transactions| + 1
            && d.transactions[..|db.transactions|] == db.transactions
            && IsChargeFor(d.transactions[|db.transactions|], id)
  {
    assert CallIndex(db.calls, id) == Some(0);
  }

  /** `PUT {costDeducted: false}` clears the flag and writes no debit. */
  lemma ResetStep(db: Db, s: Option<Session>, id: Id)
    requires Authenticated(s) && OnlyCall(db, id)
    ensures var d := Put(db, s, id, NoPatch.(costDeducted := Some(false))).db;
            OnlyCall(d, id) && !d.calls[0].costDeducted && d.transactions == db.transactions
  {
    assert CallIndex(db.calls, id) == Some(0);
  }

  /** `PUT {final_cost}`, then `PUT {costDeducted: false}`, then
      `PUT {final_cost}` again on an undeducted call debits it twice more. */
  lemma PutResetChargesTwice(db: Db, s: Option<Session>, id: Id, amount: real)
    requires Authenticated(s) && OnlyCall(db, id) && !db.calls[0].costDeducted && amount != 0.0
    ensures
      var d1 := Put(db, s, id, NoPatch.(finalCost := Some(amount))).db;
      var d2 := Put(d1, s, id, NoPatch.(costDeducted := Some(false))).db;
      var d3 := Put(d2, s, id, NoPatch.(finalCost := Some(amount))).db;
      DebitsFor(d3.transactions, id) == DebitsFor(db.transactions, id) + 2
  {
    var d1 := Put(db, s, id, NoPatch.(finalCost := Some(amount))).db;
    ChargeStep(db, s, id, amount);
    var d2 := Put(d1, s, id, NoPatch.(costDeducted := Some(false))).db;
    ResetStep(d1, s, id);
    var d3 := Put(d2, s, id, NoPatch.(finalCost := Some(amount))).db;
    ChargeStep(d2, s, id, amount);
    var n := |db.transactions|;
    assert d2.transactions == db.transactions + [d2.transactions[n]];
    DebitsAppend(db.transactions, d2.transactions[n], id);
    assert d3.transactions == d2.transactions + [d3.transactions[n + 1]];
    DebitsAppend(d2.transactions, d3.transactions[n + 1], id);
  }

  /** The example of one client and one undeducted call meets the
      conditions, and starts with no debit. */
  lemma ResetExampleApplies()
    ensures Authenticated(Some(Session(Some(7), None)))
    ensures OnlyCall(ResetExample, 2) && !ResetExample.calls[0].costDeducted
    ensures DebitsFor(ResetExample.transactions, 2) == 0
  {
  }

  // ---------------------------------------------------------------------------
  // PUT corrected

  /** The corrected `PUT` keeps the ledger balanced. */
  lemma PutChargedPreservesLedger(db: Db, session: Option<Session>, id: Id, patch: CallPatch)
    requires LedgerBalanced(db) && ClientKeysUnique(db)
    ensures LedgerBalanced(PutCharged(db, session, id, patch).db)
    ensures ClientKeysUnique(PutCharged(db, session, id, patch).db)
  {
    var r := PutCharged(db, session, id, patch);
    if r.db.transactions != db.transactions {
      var call := db.calls[CallIndex(db.calls, id).value];
      var c := ClientIndex(db.clients, call.clientId).value;
      var t := r.db.transactions[|r.db.transactions| - 1];
      assert r.db.transactions == db.transactions + [t];
      forall j | 0 <= j < |r.db.clients|
        ensures r.db.clients[j].balance == Net(r.db.transactions, r.db.clients[j].id)
      {
        NetAppend(db.transactions, t, db.clients[j].id);
        if j != c {
          assert db.clients[j].id != db.clients[c].id by {
            assert j < c || c < j;
          }
        }
      }
    }
  }

  /** The corrected `PUT` never debits a call twice, whatever the body sends. */
  lemma PutChargedKeepsAtMostOneDebit(db: Db, session: Option<Session>, id: Id, patch: CallPatch)
    requires AtMostOneDebit(db) && CallKeysFresh(db)
    ensures AtMostOneDebit(PutCharged(db, session, id, patch).db)
    ensures CallKeysFresh(PutCharged(db, session, id, patch).db)
  {
    var r := PutCharged(db, session, id, patch);
    if r.response.Json200? {
      var k := CallIndex(db.calls, id).value;
      if r.db.transactions == db.transactions {
        ReplaceCallNoCharge(db, r.db, k, r.response.body);
      } else {
        var t := r.db.transactions[|r.db.transactions| - 1];
        ReplaceCallWithCharge(db, r.db, k, r.response.body, t);
      }
    }
  }

  /** Under the corrected `PUT`, the reset sequence that debits twice as
      written debits once. */
  lemma PutChargedResetChargesOnce()
    ensures
      var s := Some(Session(Some(7), None));
      var d1 := PutCharged(ResetExample, s, 2, NoPatch.(finalCost := Some(5.0))).db;
      var d2 := PutCharged(d1, s, 2, NoPatch.(costDeducted := Some(false))).db;
      var d3 := PutCharged(d2, s, 2, NoPatch.(finalCost := Some(5.0))).db;
      DebitsFor(d3.transactions, 2) == 1 && d3.clients[0].balance == 5.0
  {
    var s := Some(Session(Some(7), None));
    var d1 := PutCharged(ResetExample, s, 2, NoPatch.(finalCost := Some(5.0))).db;
    assert |d1.transactions| == 1 && IsChargeFor(d1.transactions[0], 2);
    assert d1.transactions == [] + [d1.transactions[0]];
    DebitsAppend([], d1.transactions[0], 2);
    var d2 := PutCharged(d1, s, 2, NoPatch.(costDeducted := Some(false))).db;
    assert d2.transactions == d1.transactions && d2.calls[0].costDeducted;
  }
}
