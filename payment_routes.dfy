/** The payment lifecycle of server/routes/payments.js: a customer creates a
    payment (`pending`), staff verify it (`verified`, recording who), submit
    it (`submitted`, recording when) or delete it from any state. Each
    handler is a method over the shared store; the clock is a parameter. */
module PaymentRoutes {
  import opened Models
  import opened Validation
  import opened Middleware

  const PaymentNotFound: string := "Payment not found"
  const OnlyPendingCanBeVerified: string := "Only pending can be verified"
  const MustBeVerifiedFirst: string := "Payment must be verified first"
  const OnlyCustomersCanCreate: string := "Only customers can create payments"
  const ServerErrorMessage: string := "Server error"
  const VerifiedMessage: string := "Payment verified"
  const SubmittedMessage: string := "Submitted to SWIFT"

  /** The owner columns the staff listing joins in. */
  datatype Owner = Owner(fullName: string, accountNumber: string, username: string)

  /** One entry of the staff listing: the payment and its joined owner
      (`None` where the join finds no user). */
  datatype Row = Row(payment: Payment, owner: Option<Owner>)

  /** What the delete handler reports about the record it removed. */
  datatype DeletedInfo = DeletedInfo(id: int, amount: real, currency: string, status: Status, customerId: int)

  /** A handler's answer; `StatusCode` gives its HTTP status. */
  datatype Outcome =
    | Created(payment: Payment)
    | Listed(rows: seq<Row>)
    | Updated(message: string, payment: Payment)
    | Deleted(info: DeletedInfo)
    | NotFound
    | BadState(error: string)
    | Invalid(errors: seq<FieldError>)
    | Denied(code: int, error: string)
    | ServerError(error: string)

  function StatusCode(o: Outcome): int
  {
    match o
    case Created(_) => 201
    case Listed(_) => 200
    case Updated(_, _) => 200
    case Deleted(_) => 200
    case NotFound => 404
    case BadState(_) => 400
    case Invalid(_) => 400
    case Denied(code, _) => code
    case ServerError(_) => 500
  }

  function OwnerOf(u: User): Owner
  {
    Owner(u.fullName, u.accountNumber, u.username)
  }

  /** The left outer join of a payment's `customerId` with the users. */
  function Join(users: map<int, User>, customerId: int): Option<Owner>
  {
    if customerId in users then Some(OwnerOf(users[customerId])) else None
  }

  function InfoOf(p: Payment): DeletedInfo
  {
    DeletedInfo(p.id, p.amount, p.currency, p.status, p.customerId)
  }

  // ---------------------------------------------------------------------
  // Invariants of every reachable store

  /** The creation fields a stored payment was accepted with. */
  function FieldsOf(p: Payment): PaymentFields
  {
    PaymentFields(Some(p.amount), p.currency, p.provider, p.payeeAccount, p.swiftCode)
  }

  /** Every stored payment has nullable columns that match its status and
      creation fields that passed the whitelist. */
  ghost predicate Lifecycle(payments: map<int, Payment>)
  {
    forall id :: id in payments ==> Consistent(payments[id]) && PaymentFieldsValid(FieldsOf(payments[id]))
  }

  /** How one record may change between two states of the store: the
      creation columns never change, the status never moves back, the
      verifier is kept once past `pending` and the submission time once
      `submitted`. */
  predicate Evolves(p: Payment, q: Payment)
  {
    && q.id == p.id && q.customerId == p.customerId && q.amount == p.amount
    && q.currency == p.currency && q.provider == p.provider
    && q.payeeAccount == p.payeeAccount && q.swiftCode == p.swiftCode
    && q.createdAt == p.createdAt
    && Rank(p.status) <= Rank(q.status)
    && (p.status != Pending ==> q.verifiedBy == p.verifiedBy)
    && (p.status == Submitted ==> q.submittedAt == p.submittedAt)
  }

  /** How the payments table may change across requests: ids stay below the
      counter, the counter never decreases, a record that appears has a
      fresh id, and a record present in both states evolved. */
  ghost predicate Advances(a: Ledger, b: Ledger)
  {
    && a.nextId <= b.nextId
    && (forall id :: id in a.payments ==> id < a.nextId)
    && (forall id :: id in b.payments ==> id < b.nextId)
    && (forall id :: id in b.payments && id !in a.payments ==> a.nextId <= id)
    && (forall id :: id in a.payments && id in b.payments ==> Evolves(a.payments[id], b.payments[id]))
  }

  lemma AdvancesTransitive(a: Ledger, b: Ledger, c: Ledger)
    requires Advances(a, b) && Advances(b, c)
    ensures Advances(a, c)
  {
    forall id | id in a.payments && id in c.payments
      ensures Evolves(a.payments[id], c.payments[id])
    {
      assert id in b.payments;
    }
  }

  /** Over any run of requests, a record that survives from the first state
      to the last has not moved back: a verified payment is never pending
      again, a submitted one stays submitted with the same verifier and
      submission time. */
  lemma {:induction false} MonotoneAlongRun(run: seq<Ledger>)
    requires |run| >= 2
    requires forall i :: 0 <= i < |run| - 1 ==> Advances(run[i], run[i + 1])
    ensures Advances(run[0], run[|run| - 1])
    ensures forall id :: id in run[0].payments && id in run[|run| - 1].payments ==>
      var p, q := run[0].payments[id], run[|run| - 1].payments[id];
      && Rank(p.status) <= Rank(q.status)
      && (p.status == Verified ==> q.status != Pending && q.verifiedBy == p.verifiedBy)
      && (p.status == Submitted ==>
            q.status == Submitted && q.verifiedBy == p.verifiedBy && q.submittedAt == p.submittedAt)
  {
    if |run| > 2 {
      var rest := run[1..];
      MonotoneAlongRun(rest);
      AdvancesTransitive(run[0], run[1], run[|run| - 1]);
    }
  }

  /** A request that leaves the payments table alone advances it. */
  lemma NothingChanged(users: map<int, User>, payments: map<int, Payment>, nu: int, np: int)
    requires WellFormed(users, payments, nu, np)
    ensures Advances(Ledger(payments, np), Ledger(payments, np))
  {
  }

  /** Storing a new record under the next id keeps the invariants. */
  lemma AddKeeps(users: map<int, User>, payments: map<int, Payment>, nu: int, np: int, p: Payment)
    requires WellFormed(users, payments, nu, np) && Lifecycle(payments)
    requires p.id == np && p.customerId in users && Consistent(p) && PaymentFieldsValid(FieldsOf(p))
    ensures np !in payments
    ensures WellFormed(users, payments[np := p], nu, np + 1) && Lifecycle(payments[np := p])
    ensures Advances(Ledger(payments, np), Ledger(payments[np := p], np + 1))
  {
  }

  /** Rewriting a record the way records may evolve keeps the invariants. */
  lemma ReplaceKeeps(users: map<int, User>, payments: map<int, Payment>, nu: int, np: int, p: Payment)
    requires WellFormed(users, payments, nu, np) && Lifecycle(payments)
    requires p.id in payments && Evolves(payments[p.id], p) && Consistent(p)
    ensures WellFormed(users, payments[p.id := p], nu, np) && Lifecycle(payments[p.id := p])
    ensures Advances(Ledger(payments, np), Ledger(payments[p.id := p], np))
  {
  }

  /** Removing a record keeps the invariants. */
  lemma RemoveKeeps(users: map<int, User>, payments: map<int, Payment>, nu: int, np: int, id: int)
    requires WellFormed(users, payments, nu, np) && Lifecycle(payments)
    ensures WellFormed(users, payments - {id}, nu, np) && Lifecycle(payments - {id})
    ensures Advances(Ledger(payments, np), Ledger(payments - {id}, np))
  {
  }

  // ---------------------------------------------------------------------
  // Staff listing: every payment once, newest first, owner joined

  predicate Distinct(ids: seq<int>)
  {
    forall i, j :: 0 <= i < j < |ids| ==> ids[i] != ids[j]
  }

  predicate NewestFirst(m: map<int, Payment>, ids: seq<int>)
    requires forall i :: 0 <= i < |ids| ==> ids[i] in m
  {
    forall i, j :: 0 <= i < j < |ids| ==> m[ids[i]].createdAt >= m[ids[j]].createdAt
  }

  /** The keys of `m` in [1, k), highest first. */
  function IdsBelow(m: map<int, Payment>, k: int): (ids: seq<int>)
    decreases k
    ensures forall i :: 0 <= i < |ids| ==> ids[i] in m && 1 <= ids[i] < k
    ensures forall id :: id in m && 1 <= id < k ==> id in ids
    ensures forall i, j :: 0 <= i < j < |ids| ==> ids[i] > ids[j]
  {
    if k <= 1 then []
    else if k - 1 in m then [k - 1] + IdsBelow(m, k - 1)
    else IdsBelow(m, k - 1)
  }

  /** The head of a newest-first list is at least as new as every entry. */
  lemma HeadIsNewest(m: map<int, Payment>, ids: seq<int>)
    requires forall i :: 0 <= i < |ids| ==> ids[i] in m
    ensures NewestFirst(m, ids) && ids != [] ==> NewestFirst(m, ids[1..])
    ensures NewestFirst(m, ids) && ids != [] ==>
      forall y :: y in ids ==> y in m && m[ids[0]].createdAt >= m[y].createdAt
  {
  }

  /** An id at least as new as every entry of a newest-first list can go in front. */
  lemma ConsNewest(m: map<int, Payment>, h: int, rest: seq<int>)
    requires h in m && forall i :: 0 <= i < |rest| ==> rest[i] in m
    requires NewestFirst(m, rest)
    requires forall y :: y in rest ==> m[h].createdAt >= m[y].createdAt
    ensures NewestFirst(m, [h] + rest)
  {
    var r := [h] + rest;
    forall i, j | 0 <= i < j < |r| ensures m[r[i]].createdAt >= m[r[j]].createdAt {
      assert r[j] == rest[j - 1];
      if i > 0 {
        assert r[i] == rest[i - 1];
      } else {
        assert rest[j - 1] in rest;
      }
    }
  }

  lemma DistinctTail(ids: seq<int>)
    ensures Distinct(ids) && ids != [] ==> ids[0] !in ids[1..] && Distinct(ids[1..])
  {
  }

  lemma ConsDistinct(h: int, rest: seq<int>)
    requires h !in rest && Distinct(rest)
    ensures Distinct([h] + rest)
  {
    var r := [h] + rest;
    forall i, j | 0 <= i < j < |r| ensures r[i] != r[j] {
      assert r[j] == rest[j - 1];
      if i > 0 {
        assert r[i] == rest[i - 1];
      }
    }
  }

  /** Places `x` before the first id that is not newer than it. */
  function Insert(m: map<int, Payment>, x: int, ids: seq<int>): (r: seq<int>)
    requires x in m && forall i :: 0 <= i < |ids| ==> ids[i] in m
    ensures |r| == |ids| + 1
    ensures multiset(r) == multiset(ids) + multiset{x}
    ensures forall y :: y in r <==> y == x || y in ids
    ensures forall i :: 0 <= i < |r| ==> r[i] in m
  {
    if ids == [] || m[x].createdAt >= m[ids[0]].createdAt then [x] + ids
    else
      assert ids == [ids[0]] + ids[1..];
      [ids[0]] + Insert(m, x, ids[1..])
  }

  /** Inserting into a newest-first list keeps it newest first. */
  lemma {:induction false} InsertKeepsOrder(m: map<int, Payment>, x: int, ids: seq<int>)
    requires x in m && forall i :: 0 <= i < |ids| ==> ids[i] in m
    requires NewestFirst(m, ids)
    ensures NewestFirst(m, Insert(m, x, ids))
  {
    HeadIsNewest(m, ids);
    if ids == [] || m[x].createdAt >= m[ids[0]].createdAt {
      ConsNewest(m, x, ids);
    } else {
      InsertKeepsOrder(m, x, ids[1..]);
      ConsNewest(m, ids[0], Insert(m, x, ids[1..]));
    }
  }

  /** Inserting a new id into a duplicate-free list keeps it duplicate-free. */
  lemma {:induction false} InsertKeepsDistinct(m: map<int, Payment>, x: int, ids: seq<int>)
    requires x in m && forall i :: 0 <= i < |ids| ==> ids[i] in m
    requires Distinct(ids) && x !in ids
    ensures Distinct(Insert(m, x, ids))
  {
    if ids == [] || m[x].createdAt >= m[ids[0]].createdAt {
      ConsDistinct(x, ids);
    } else {
      DistinctTail(ids);
      assert x !in ids[1..];
      InsertKeepsDistinct(m, x, ids[1..]);
      ConsDistinct(ids[0], Insert(m, x, ids[1..]));
    }
  }

  /** `ORDER BY createdAt DESC` over a list of keys. */
  function SortNewestFirst(m: map<int, Payment>, ids: seq<int>): (r: seq<int>)
    requires forall i :: 0 <= i < |ids| ==> ids[i] in m
    ensures |r| == |ids|
    ensures multiset(r) == multiset(ids)
    ensures forall y :: y in r <==> y in ids
    ensures forall i :: 0 <= i < |r| ==> r[i] in m
  {
    if ids == [] then []
    else
      assert ids == [ids[0]] + ids[1..];
      Insert(m, ids[0], SortNewestFirst(m, ids[1..]))
  }

  /** The sort puts the ids newest first, and keeps a duplicate-free list
      duplicate-free. */
  lemma {:induction false} SortIsOrdered(m: map<int, Payment>, ids: seq<int>)
    requires forall i :: 0 <= i < |ids| ==> ids[i] in m
    ensures NewestFirst(m, SortNewestFirst(m, ids))
    ensures Distinct(ids) ==> Distinct(SortNewestFirst(m, ids))
  {
    if ids != [] {
      SortIsOrdered(m, ids[1..]);
      var rest := SortNewestFirst(m, ids[1..]);
      InsertKeepsOrder(m, ids[0], rest);
      if Distinct(ids) {
        DistinctTail(ids);
        InsertKeepsDistinct(m, ids[0], rest);
      }
    }
  }

  /** The listing order of the stored ids: every stored id once, newest first. */
  lemma ListingOrder(users: map<int, User>, m: map<int, Payment>, nu: int, np: int)
    requires WellFormed(users, m, nu, np)
    ensures var ids := SortNewestFirst(m, IdsBelow(m, np));
      && (forall i :: 0 <= i < |ids| ==> ids[i] in m && m[ids[i]].id == ids[i])
      && (forall id :: id in m ==> id in ids)
      && Distinct(ids)
      && NewestFirst(m, ids)
  {
    var below := IdsBelow(m, np);
    assert Distinct(below);
    SortIsOrdered(m, below);
  }

  /** The listing rows for the ids, in their order. */
  function RowsOf(m: map<int, Payment>, users: map<int, User>, ids: seq<int>): (rows: seq<Row>)
    requires forall i :: 0 <= i < |ids| ==> ids[i] in m
    ensures |rows| == |ids|
    ensures forall i :: 0 <= i < |ids| ==> rows[i] == Row(m[ids[i]], Join(users, m[ids[i]].customerId))
  {
    if ids == [] then [] else [Row(m[ids[0]], Join(users, m[ids[0]].customerId))] + RowsOf(m, users, ids[1..])
  }

  /** Rows built from stored ids are the stored payments, each joined with
      its owner. */
  lemma RowsAreStored(users: map<int, User>, m: map<int, Payment>, ids: seq<int>, rows: seq<Row>)
    requires forall i :: 0 <= i < |ids| ==> ids[i] in m && m[ids[i]].id == ids[i]
    requires forall id :: id in m ==> m[id].customerId in users
    requires rows == RowsOf(m, users, ids)
    ensures forall i :: 0 <= i < |rows| ==>
      rows[i].payment.id in m && m[rows[i].payment.id] == rows[i].payment
    ensures forall i :: 0 <= i < |rows| ==>
      rows[i].owner == Some(OwnerOf(users[rows[i].payment.customerId]))
  {
    forall i | 0 <= i < |rows|
      ensures rows[i].payment.id in m && m[rows[i].payment.id] == rows[i].payment
      ensures rows[i].owner == Some(OwnerOf(users[rows[i].payment.customerId]))
    {
      assert rows[i].payment == m[ids[i]] && m[ids[i]].id == ids[i];
    }
  }

  /** Rows built from a duplicate-free, newest-first list of ids name each
      payment once, newest first, and cover every id in the list. */
  lemma RowsFollowIds(users: map<int, User>, m: map<int, Payment>, ids: seq<int>, rows: seq<Row>)
    requires forall i :: 0 <= i < |ids| ==> ids[i] in m && m[ids[i]].id == ids[i]
    requires Distinct(ids) && NewestFirst(m, ids)
    requires rows == RowsOf(m, users, ids)
    ensures forall id :: id in ids ==> exists i :: 0 <= i < |rows| && rows[i].payment == m[id]
    ensures forall i, j :: 0 <= i < j < |rows| ==> rows[i].payment.id != rows[j].payment.id
    ensures forall i, j :: 0 <= i < j < |rows| ==> rows[i].payment.createdAt >= rows[j].payment.createdAt
  {
    forall id | id in ids ensures exists i :: 0 <= i < |rows| && rows[i].payment == m[id] {
      var i :| 0 <= i < |ids| && ids[i] == id;
      assert rows[i].payment == m[id];
    }
    forall i, j | 0 <= i < j < |rows| ensures rows[i].payment.id != rows[j].payment.id {
      assert rows[i].payment.id == ids[i] && rows[j].payment.id == ids[j];
    }
    forall i, j | 0 <= i < j < |rows| ensures rows[i].payment.createdAt >= rows[j].payment.createdAt {
      assert rows[i].payment == m[ids[i]] && rows[j].payment == m[ids[j]];
    }
  }

  /** `rows` is a staff listing of the tables: every stored payment exactly
      once, newest first, each with its owner's name, account number and
      username. */
  ghost predicate IsListing(users: map<int, User>, payments: map<int, Payment>, rows: seq<Row>)
  {
    && (forall i :: 0 <= i < |rows| ==>
          rows[i].payment.id in payments && payments[rows[i].payment.id] == rows[i].payment)
    && (forall i :: 0 <= i < |rows| ==>
          rows[i].payment.customerId in users && rows[i].owner == Some(OwnerOf(users[rows[i].payment.customerId])))
    && (forall id :: id in payments ==> exists i :: 0 <= i < |rows| && rows[i].payment == payments[id])
    && (forall i, j :: 0 <= i < j < |rows| ==> rows[i].payment.id != rows[j].payment.id)
    && (forall i, j :: 0 <= i < j < |rows| ==> rows[i].payment.createdAt >= rows[j].payment.createdAt)
  }

  /** GET /staff/payments: the listing of the store. */
  method List(db: Store) returns (rows: seq<Row>)
    requires db.Valid()
    ensures IsListing(db.users, db.payments, rows)
  {
    var m, users := db.payments, db.users;
    var ids := SortNewestFirst(m, IdsBelow(m, db.nextPaymentId));
    ListingOrder(users, m, db.nextUserId, db.nextPaymentId);
    rows := RowsOf(m, users, ids);
    RowsAreStored(users, m, ids, rows);
    RowsFollowIds(users, m, ids, rows);
  }

  // ---------------------------------------------------------------------
  // What each handler does to the payments table and what it answers. Each
  // relates the table before (`before`, counter `next`) to the table after
  // (`after`, counter `next'`); the handlers and the router both promise them.

  /** POST /payments: the role is checked before the field checks; a
      rejected request stores nothing; an accepted one stores exactly one new
      pending record owned by the caller under the next id. */
  predicate CreateEffect(users: map<int, User>, before: map<int, Payment>, next: int,
                         after: map<int, Payment>, next': int,
                         user: Identity, fields: PaymentFields, now: int, r: Outcome)
  {
    && (user.role != Customer ==>
          r == Denied(403, OnlyCustomersCanCreate) && after == before && next' == next)
    && (user.role == Customer && !PaymentFieldsValid(fields) ==>
          r == Invalid(PaymentErrors(fields)) && after == before && next' == next)
    && (user.role == Customer && PaymentFieldsValid(fields) && user.id !in users ==>
          r == ServerError(ServerErrorMessage) && after == before && next' == next)
    && (user.role == Customer && PaymentFieldsValid(fields) && user.id in users ==>
          var p := NewPayment(next, user.id, fields.amount.value, fields.currency,
                              fields.provider, fields.payeeAccount, fields.swiftCode, now);
          && p.id !in before
          && r == Created(p)
          && after == before[p.id := p]
          && next' == next + 1)
  }

  /** POST /staff/payments/:id/verify: only a pending payment is verified,
      recording the acting employee; no other record changes. */
  predicate VerifyEffect(before: map<int, Payment>, after: map<int, Payment>,
                         actor: Identity, id: int, now: int, r: Outcome)
  {
    && (id !in before ==> r == NotFound && after == before)
    && (id in before && before[id].status != Pending ==>
          r == BadState(OnlyPendingCanBeVerified) && after == before)
    && (id in before && before[id].status == Pending ==>
          var p := before[id].(status := Verified, verifiedBy := Some(actor.id), updatedAt := now);
          r == Updated(VerifiedMessage, p) && after == before[id := p])
  }

  /** POST /staff/payments/:id/submit: only a verified payment is submitted,
      stamping the time and keeping its verifier; no other record changes. */
  predicate SubmitEffect(before: map<int, Payment>, after: map<int, Payment>,
                         id: int, now: int, r: Outcome)
  {
    && (id !in before ==> r == NotFound && after == before)
    && (id in before && before[id].status != Verified ==>
          r == BadState(MustBeVerifiedFirst) && after == before)
    && (id in before && before[id].status == Verified ==>
          var p := before[id].(status := Submitted, submittedAt := Some(now), updatedAt := now);
          && p.verifiedBy == before[id].verifiedBy
          && r == Updated(SubmittedMessage, p) && after == before[id := p])
  }

  /** DELETE /staff/payments/:id: removes exactly the named record, from any
      status, and reports what it held. */
  predicate DeleteEffect(before: map<int, Payment>, after: map<int, Payment>, id: int, r: Outcome)
  {
    && (id !in before ==> r == NotFound && after == before)
    && (id in before ==> r == Deleted(InfoOf(before[id])) && after == before - {id})
  }

  // ---------------------------------------------------------------------
  // Handlers

  /** POST /payments, after authenticateToken and the field checks: the
      role is checked before the check results; a rejected request stores
      nothing; an accepted one stores exactly one new pending record owned
      by the caller. A caller id with no user row breaks the foreign key and
      is answered 500. */
  method Create(db: Store, user: Identity, fields: PaymentFields, now: int) returns (r: Outcome)
    requires db.Valid() && Lifecycle(db.payments)
    modifies db
    ensures db.Valid() && Lifecycle(db.payments)
    ensures db.users == old(db.users) && db.nextUserId == old(db.nextUserId)
    ensures Advances(old(db.Snapshot()), db.Snapshot())
    ensures CreateEffect(old(db.users), old(db.payments), old(db.nextPaymentId),
                         db.payments, db.nextPaymentId, user, fields, now, r)
  {
    NothingChanged(db.users, db.payments, db.nextUserId, db.nextPaymentId);
    if user.role != Customer {
      return Denied(403, OnlyCustomersCanCreate);
    }
    var errors := PaymentErrors(fields);
    if errors != [] {
      return Invalid(errors);
    }
    if user.id !in db.users {
      return ServerError(ServerErrorMessage);
    }
    var p := NewPayment(db.nextPaymentId, user.id, fields.amount.value, fields.currency,
                        fields.provider, fields.payeeAccount, fields.swiftCode, now);
    AddKeeps(db.users, db.payments, db.nextUserId, db.nextPaymentId, p);
    db.payments := db.payments[p.id := p];
    db.nextPaymentId := db.nextPaymentId + 1;
    r := Created(p);
  }

  /** POST /staff/payments/:id/verify: only a pending payment is verified,
      recording the acting employee; nothing else in the store changes. */
  method Verify(db: Store, actor: Identity, id: int, now: int) returns (r: Outcome)
    requires db.Valid() && Lifecycle(db.payments)
    modifies db
    ensures db.Valid() && Lifecycle(db.payments)
    ensures db.users == old(db.users) && db.nextUserId == old(db.nextUserId)
    ensures db.nextPaymentId == old(db.nextPaymentId)
    ensures Advances(old(db.Snapshot()), db.Snapshot())
    ensures db.payments.Keys == old(db.payments).Keys
    ensures VerifyEffect(old(db.payments), db.payments, actor, id, now, r)
  {
    NothingChanged(db.users, db.payments, db.nextUserId, db.nextPaymentId);
    if id !in db.payments {
      return NotFound;
    }
    var p := db.payments[id];
    if p.status != Pending {
      return BadState(OnlyPendingCanBeVerified);
    }
    p := p.(status := Verified, verifiedBy := Some(actor.id), updatedAt := now);
    ReplaceKeeps(db.users, db.payments, db.nextUserId, db.nextPaymentId, p);
    db.payments := db.payments[id := p];
    r := Updated(VerifiedMessage, p);
  }

  /** POST /staff/payments/:id/submit: only a verified payment is submitted,
      stamping the time and keeping its verifier; nothing else changes. */
  method Submit(db: Store, actor: Identity, id: int, now: int) returns (r: Outcome)
    requires db.Valid() && Lifecycle(db.payments)
    modifies db
    ensures db.Valid() && Lifecycle(db.payments)
    ensures db.users == old(db.users) && db.nextUserId == old(db.nextUserId)
    ensures db.nextPaymentId == old(db.nextPaymentId)
    ensures Advances(old(db.Snapshot()), db.Snapshot())
    ensures db.payments.Keys == old(db.payments).Keys
    ensures SubmitEffect(old(db.payments), db.payments, id, now, r)
  {
    NothingChanged(db.users, db.payments, db.nextUserId, db.nextPaymentId);
    if id !in db.payments {
      return NotFound;
    }
    var p := db.payments[id];
    if p.status != Verified {
      return BadState(MustBeVerifiedFirst);
    }
    p := p.(status := Submitted, submittedAt := Some(now), updatedAt := now);
    ReplaceKeeps(db.users, db.payments, db.nextUserId, db.nextPaymentId, p);
    db.payments := db.payments[id := p];
    r := Updated(SubmittedMessage, p);
  }

  /** DELETE /staff/payments/:id: removes exactly the named record, from any
      status, and reports what it held. */
  method Delete(db: Store, id: int) returns (r: Outcome)
    requires db.Valid() && Lifecycle(db.payments)
    modifies db
    ensures db.Valid() && Lifecycle(db.payments)
    ensures db.users == old(db.users) && db.nextUserId == old(db.nextUserId)
    ensures db.nextPaymentId == old(db.nextPaymentId)
    ensures Advances(old(db.Snapshot()), db.Snapshot())
    ensures DeleteEffect(old(db.payments), db.payments, id, r)
  {
    NothingChanged(db.users, db.payments, db.nextUserId, db.nextPaymentId);
    if id !in db.payments {
      return NotFound;
    }
    RemoveKeeps(db.users, db.payments, db.nextUserId, db.nextPaymentId, id);
    var info := InfoOf(db.payments[id]);
    db.payments := db.payments - {id};
    r := Deleted(info);
  }

  // ---------------------------------------------------------------------
  // The router: guards in front of the handlers

  datatype Action =
    | CreatePayment(fields: PaymentFields)
    | ListPayments
    | VerifyPayment(id: int)
    | SubmitPayment(id: int)
    | DeletePayment(id: int)

  /** The routes wrapped in authorizeRole('employee'). */
  predicate StaffOnly(a: Action)
  {
    !a.CreatePayment?
  }

  /** What the handler of a staff route does with `actor` as the employee. */
  ghost predicate StaffEffect(users: map<int, User>, before: map<int, Payment>, after: map<int, Payment>,
                              actor: Identity, action: Action, now: int, r: Outcome)
  {
    && (action.ListPayments? ==> r.Listed? && IsListing(users, before, r.rows) && after == before)
    && (action.VerifyPayment? ==> VerifyEffect(before, after, actor, action.id, now, r))
    && (action.SubmitPayment? ==> SubmitEffect(before, after, action.id, now, r))
    && (action.DeletePayment? ==> DeleteEffect(before, after, action.id, r))
  }

  /** One request through its route: authenticateToken, then, on the staff
      routes, authorizeRole('employee'), then the handler. A request whose
      guard answers changes nothing; one the guards let through gets its
      own handler's answer and effect, with the token's claims as the
      caller. */
  method Handle(db: Store, req: Request, verify: string -> Option<Identity>, action: Action, now: int)
    returns (r: Outcome)
    requires db.Valid() && Lifecycle(db.payments)
    modifies db, req`user
    ensures db.Valid() && Lifecycle(db.payments)
    ensures db.users == old(db.users) && db.nextUserId == old(db.nextUserId)
    ensures Advances(old(db.Snapshot()), db.Snapshot())
    ensures Authenticate(req.token, verify).Reject? ==>
      var g := Authenticate(req.token, verify);
      r == Denied(g.code, g.message) && unchanged(db)
    ensures StaffOnly(action) && Authenticate(req.token, verify).Proceed? &&
            Authenticate(req.token, verify).user.role == Customer ==>
      r == Denied(403, ForbiddenMessage) && unchanged(db)
    ensures action.CreatePayment? && Authenticate(req.token, verify).Proceed? ==>
      CreateEffect(old(db.users), old(db.payments), old(db.nextPaymentId), db.payments, db.nextPaymentId,
                   Authenticate(req.token, verify).user, action.fields, now, r)
    ensures StaffOnly(action) && Guard(req.token, verify, Employee).Proceed? ==>
      && db.nextPaymentId == old(db.nextPaymentId)
      && StaffEffect(old(db.users), old(db.payments), db.payments,
                     Guard(req.token, verify, Employee).user, action, now, r)
    ensures r.Listed? || r.Updated? || r.Deleted? ==>
      Guard(req.token, verify, Employee).Proceed?
    ensures r.Created? ==> Guard(req.token, verify, Customer).Proceed?
  {
    NothingChanged(db.users, db.payments, db.nextUserId, db.nextPaymentId);
    var g := AuthenticateToken(req, verify);
    if g.Reject? {
      return Denied(g.code, g.message);
    }
    if action.CreatePayment? {
      r := Create(db, req.user.value, action.fields, now);
      return;
    }
    g := AuthorizeRole(req.user, Employee);
    if g.Reject? {
      return Denied(g.code, g.message);
    }
    r := Dispatch(db, g.user, action, now);
  }

  /** The handler of a staff route, once both guards have let the request
      through. */
  method Dispatch(db: Store, actor: Identity, action: Action, now: int) returns (r: Outcome)
    requires StaffOnly(action)
    requires db.Valid() && Lifecycle(db.payments)
    modifies db
    ensures db.Valid() && Lifecycle(db.payments)
    ensures db.users == old(db.users) && db.nextUserId == old(db.nextUserId)
    ensures Advances(old(db.Snapshot()), db.Snapshot())
    ensures db.nextPaymentId == old(db.nextPaymentId)
    ensures StaffEffect(old(db.users), old(db.payments), db.payments, actor, action, now, r)
    ensures !r.Created? && !r.Denied?
  {
    match action {
      case ListPayments =>
        NothingChanged(db.users, db.payments, db.nextUserId, db.nextPaymentId);
        var rows := List(db);
        r := Listed(rows);
      case VerifyPayment(id) =>
        r := Verify(db, actor, id, now);
      case SubmitPayment(id) =>
        r := Submit(db, actor, id, now);
      case DeletePayment(id) =>
        r := Delete(db, id);
    }
  }

  // ---------------------------------------------------------------------
  // Guards against repeated transitions

  /** Verifying twice succeeds once, then fails with the state error. */
  method VerifyTwice(db: Store, actor: Identity, id: int, t1: int, t2: int) returns (first: Outcome, second: Outcome)
    requires db.Valid() && Lifecycle(db.payments)
    requires id in db.payments && db.payments[id].status == Pending
    modifies db
    ensures first.Updated? && first.payment.status == Verified && first.payment.verifiedBy == Some(actor.id)
    ensures second == BadState(OnlyPendingCanBeVerified)
    ensures id in db.payments && db.payments[id] == first.payment
  {
    first := Verify(db, actor, id, t1);
    second := Verify(db, actor, id, t2);
  }

  /** Submitting twice succeeds once, then fails with the state error. */
  method SubmitTwice(db: Store, actor: Identity, id: int, t1: int, t2: int) returns (first: Outcome, second: Outcome)
    requires db.Valid() && Lifecycle(db.payments)
    requires id in db.payments && db.payments[id].status == Verified
    modifies db
    ensures first.Updated? && first.payment.status == Submitted && first.payment.submittedAt == Some(t1)
    ensures second == BadState(MustBeVerifiedFirst)
    ensures id in db.payments && db.payments[id] == first.payment
  {
    first := Submit(db, actor, id, t1);
    second := Submit(db, actor, id, t2);
  }

  /** Once deleted, a payment is not found by the transitions. */
  method DeleteThenVerify(db: Store, actor: Identity, id: int, now: int) returns (deleted: Outcome, verified: Outcome)
    requires db.Valid() && Lifecycle(db.payments)
    requires id in db.payments
    modifies db
    ensures deleted.Deleted? && deleted.info.id == id
    ensures verified == NotFound
    ensures id !in db.payments
  {
    deleted := Delete(db, id);
    verified := Verify(db, actor, id, now);
  }

  /** An employee takes a pending payment through verification and
      submission; verifying it once more then fails. */
  method VerifySubmitVerify(db: Store, employee: Identity, id: int, t1: int, t2: int, t3: int)
    returns (verified: Outcome, submitted: Outcome, again: Outcome)
    requires db.Valid() && Lifecycle(db.payments)
    requires id in db.payments && db.payments[id].status == Pending
    modifies db
    ensures verified.Updated? && verified.payment.status == Verified
    ensures verified.payment.verifiedBy == Some(employee.id)
    ensures submitted.Updated? && submitted.payment.status == Submitted
    ensures submitted.payment.submittedAt == Some(t2) && submitted.payment.verifiedBy == Some(employee.id)
    ensures again == BadState(OnlyPendingCanBeVerified)
  {
    verified := Verify(db, employee, id, t1);
    submitted := Submit(db, employee, id, t2);
    again := Verify(db, employee, id, t3);
  }

  /** The whole lifecycle of one payment: created pending by a customer,
      verified and then submitted by an employee; verifying it again fails. */
  method FullLifecycle(db: Store, customer: Identity, employee: Identity, fields: PaymentFields,
                       t0: int, t1: int, t2: int, t3: int)
    returns (created: Outcome, verified: Outcome, submitted: Outcome, again: Outcome)
    requires db.Valid() && Lifecycle(db.payments)
    requires customer.role == Customer && customer.id in db.users && PaymentFieldsValid(fields)
    modifies db
    ensures created.Created? && StatusCode(created) == 201 && created.payment.status == Pending
    ensures verified.Updated? && verified.payment.status == Verified
    ensures verified.payment.verifiedBy == Some(employee.id)
    ensures submitted.Updated? && submitted.payment.status == Submitted
    ensures submitted.payment.submittedAt == Some(t2) && submitted.payment.verifiedBy == Some(employee.id)
    ensures again == BadState(OnlyPendingCanBeVerified) && StatusCode(again) == 400
  {
    created := Create(db, customer, fields, t0);
    verified, submitted, again := VerifySubmitVerify(db, employee, created.payment.id, t1, t2, t3);
  }

  /** The same lifecycle through the routes: a customer's request creates
      the payment, and an employee's requests verify it, submit it and try
      to verify it again, each as the caller its token names. */
  method LifecycleThroughRoutes(db: Store, customerReq: Request, staffReq: Request,
                                verify: string -> Option<Identity>, fields: PaymentFields,
                                t0: int, t1: int, t2: int, t3: int)
    returns (created: Outcome, verified: Outcome, submitted: Outcome, again: Outcome)
    requires db.Valid() && Lifecycle(db.payments)
    requires Authenticate(customerReq.token, verify).Proceed?
    requires Authenticate(customerReq.token, verify).user.role == Customer
    requires Authenticate(customerReq.token, verify).user.id in db.users
    requires Guard(staffReq.token, verify, Employee).Proceed?
    requires PaymentFieldsValid(fields)
    modifies db, customerReq`user, staffReq`user
    ensures created.Created? && StatusCode(created) == 201 && created.payment.status == Pending
    ensures created.payment.customerId == Authenticate(customerReq.token, verify).user.id
    ensures verified.Updated? && verified.payment.status == Verified
    ensures verified.payment.verifiedBy == Some(Guard(staffReq.token, verify, Employee).user.id)
    ensures submitted.Updated? && submitted.payment.status == Submitted
    ensures submitted.payment.submittedAt == Some(t2) && submitted.payment.verifiedBy == verified.payment.verifiedBy
    ensures again == BadState(OnlyPendingCanBeVerified) && StatusCode(again) == 400
  {
    created := Handle(db, customerReq, verify, CreatePayment(fields), t0);
    verified, submitted, again := StaffVerifySubmitVerify(db, staffReq, verify, created.payment.id, t1, t2, t3);
  }

  /** An employee's requests take a pending payment through verification
      and submission; a further verify request then fails. */
  method StaffVerifySubmitVerify(db: Store, staffReq: Request, verify: string -> Option<Identity>,
                                 id: int, t1: int, t2: int, t3: int)
    returns (verified: Outcome, submitted: Outcome, again: Outcome)
    requires db.Valid() && Lifecycle(db.payments)
    requires Guard(staffReq.token, verify, Employee).Proceed?
    requires id in db.payments && db.payments[id].status == Pending
    modifies db, staffReq`user
    ensures verified.Updated? && verified.payment.status == Verified
    ensures verified.payment.verifiedBy == Some(Guard(staffReq.token, verify, Employee).user.id)
    ensures submitted.Updated? && submitted.payment.status == Submitted
    ensures submitted.payment.submittedAt == Some(t2) && submitted.payment.verifiedBy == verified.payment.verifiedBy
    ensures again == BadState(OnlyPendingCanBeVerified)
  {
    verified := Handle(db, staffReq, verify, VerifyPayment(id), t1);
    submitted := Handle(db, staffReq, verify, SubmitPayment(id), t2);
    again := Handle(db, staffReq, verify, VerifyPayment(id), t3);
  }
}
