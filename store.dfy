// The Flask application (app.py): the users and transactions tables, the
// session, and the routes register, login, logout, transactions (GET and POST),
// delete_transaction and reset_data. Each SQL statement is modelled by its
// meaning over in-memory tables; the routes' HTTP statuses are returned.

module Store {
  import opened Records

  datatype User = User(id: nat, username: string, passwordHash: string)

  /** A row of the transactions table: the owner's user id and the columns the
      GET route lists. */
  datatype Row = Row(owner: nat, tx: Tx)

  /** The session after a login: `user_id` and `username`. */
  datatype Session = Session(userId: nat, username: string)

  /** The `amount` field of a POST body as float() sees it: absent (float(None)
      raises TypeError, which no handler catches), not a number (ValueError), or
      a number. */
  datatype AmountField = Missing | Unparsable | Number(value: int)

  datatype Listing = Listing(transactions: seq<Tx>, summary: Summary)

  const OK: int := 200
  const BadRequest: int := 400
  const Unauthorized: int := 401
  const Conflict: int := 409
  const ServerError: int := 500

  /** Python's `not x` for a string field of a JSON body: absent or empty. */
  predicate Blank(x: Option<string>)
  {
    x.None? || x.value == ""
  }

  predicate NameTaken(users: seq<User>, name: string)
  {
    exists i :: 0 <= i < |users| && users[i].username == name
  }

  /** SELECT * FROM users WHERE username = ?, fetchone(). */
  function FindUser(users: seq<User>, name: string): (r: Option<User>)
    ensures r.Some? ==> r.value in users && r.value.username == name
    ensures r.None? <==> !NameTaken(users, name)
  {
    if users == [] then None
    else if users[0].username == name then Some(users[0])
    else
      var r := FindUser(users[1..], name);
      assert forall i :: 1 <= i < |users| ==> users[i] == users[1..][i - 1];
      r
  }

  /** The caller's transactions, in table order: SELECT ... WHERE user_id = ?. */
  function OwnedTxs(rows: seq<Row>, uid: nat): (txs: seq<Tx>)
    ensures forall t :: t in txs <==> Row(uid, t) in rows
  {
    if rows == [] then []
    else
      var last := rows[|rows| - 1];
      OwnedTxs(rows[..|rows| - 1], uid) + (if last.owner == uid then [last.tx] else [])
  }

  predicate NewestFirst(txs: seq<Tx>)
  {
    forall i, j :: 0 <= i < j < |txs| ==> txs[i].timestamp >= txs[j].timestamp
  }

  /** Inserts t into a newest-first list before the first element older than it. */
  function InsertByTime(t: Tx, txs: seq<Tx>): (r: seq<Tx>)
    requires NewestFirst(txs)
    ensures NewestFirst(r)
    ensures |r| == |txs| + 1 && (r[0] == t || (txs != [] && r[0] == txs[0]))
  {
    if txs == [] || t.timestamp >= txs[0].timestamp then
      Prepend(t, txs);
      [t] + txs
    else
      TailNewestFirst(txs);
      var rest := InsertByTime(t, txs[1..]);
      assert rest[0].timestamp <= txs[0].timestamp by {
        if rest[0] != t {
          assert txs[1..][0] == txs[1];
        }
      }
      Prepend(txs[0], rest);
      [txs[0]] + rest
  }

  /** Insertion adds t and loses nothing. */
  lemma {:induction false} InsertByTimePermutes(t: Tx, txs: seq<Tx>)
    requires NewestFirst(txs)
    ensures multiset(InsertByTime(t, txs)) == multiset(txs) + multiset{t}
  {
    if !(txs == [] || t.timestamp >= txs[0].timestamp) {
      TailNewestFirst(txs);
      InsertByTimePermutes(t, txs[1..]);
      assert txs == [txs[0]] + txs[1..];
    }
  }

  lemma TailNewestFirst(txs: seq<Tx>)
    requires NewestFirst(txs) && txs != []
    ensures NewestFirst(txs[1..])
  {
    forall i, j | 0 <= i < j < |txs| - 1 ensures txs[1..][i].timestamp >= txs[1..][j].timestamp {
      assert txs[1..][i] == txs[i + 1] && txs[1..][j] == txs[j + 1];
    }
  }

  /** Prefixing an element no older than the first keeps the order. */
  lemma Prepend(h: Tx, rest: seq<Tx>)
    requires NewestFirst(rest)
    requires rest != [] ==> rest[0].timestamp <= h.timestamp
    ensures NewestFirst([h] + rest)
  {
    var r := [h] + rest;
    forall i, j | 0 <= i < j < |r| ensures r[i].timestamp >= r[j].timestamp {
      if i == 0 {
        assert r[j] == rest[j - 1];
        assert rest[0].timestamp >= rest[j - 1].timestamp;
      } else {
        assert r[i] == rest[i - 1] && r[j] == rest[j - 1];
      }
    }
  }

  /** ORDER BY timestamp DESC: newest first, the same transactions. */
  function SortNewestFirst(txs: seq<Tx>): (r: seq<Tx>)
    ensures NewestFirst(r)
    ensures multiset(r) == multiset(txs)
  {
    if txs == [] then []
    else
      assert txs == [txs[0]] + txs[1..];
      InsertByTimePermutes(txs[0], SortNewestFirst(txs[1..]));
      InsertByTime(txs[0], SortNewestFirst(txs[1..]))
  }

  lemma SameElements(a: seq<Tx>, b: seq<Tx>)
    requires multiset(a) == multiset(b)
    ensures forall x :: x in a <==> x in b
  {
    forall x ensures x in a <==> x in b {
      assert x in a <==> x in multiset(a);
      assert x in b <==> x in multiset(b);
    }
  }

  /** The rows a DELETE ... WHERE statement leaves: those `keep` holds of, in
      their order. */
  function Filter(rows: seq<Row>, keep: Row -> bool): (r: seq<Row>)
    ensures forall x :: x in r <==> x in rows && keep(x)
    ensures |r| <= |rows|
  {
    if rows == [] then []
    else
      var last := rows[|rows| - 1];
      assert rows == rows[..|rows| - 1] + [last];
      Filter(rows[..|rows| - 1], keep) + (if keep(last) then [last] else [])
  }

  /** DELETE FROM transactions WHERE id = ? AND user_id = ? */
  function WithoutTx(rows: seq<Row>, id: nat, uid: nat): (r: seq<Row>)
    ensures forall x :: x in r <==> x in rows && !(x.tx.id == id && x.owner == uid)
  {
    Filter(rows, (r: Row) => !(r.tx.id == id && r.owner == uid))
  }

  /** DELETE FROM transactions WHERE user_id = ? */
  function WithoutOwner(rows: seq<Row>, uid: nat): (r: seq<Row>)
    ensures forall x :: x in r <==> x in rows && x.owner != uid
  {
    Filter(rows, (r: Row) => r.owner != uid)
  }

  /** The primary key: no two rows share an id. */
  predicate IdsUnique(rows: seq<Row>)
  {
    forall i, j :: 0 <= i < |rows| && 0 <= j < |rows| && rows[i].tx.id == rows[j].tx.id ==> i == j
  }

  lemma {:induction false} FilterKeepsIdsUnique(rows: seq<Row>, keep: Row -> bool)
    requires IdsUnique(rows)
    ensures IdsUnique(Filter(rows, keep))
  {
    if rows != [] {
      var prefix := rows[..|rows| - 1];
      var last := rows[|rows| - 1];
      FilterKeepsIdsUnique(prefix, keep);
      forall x | x in Filter(prefix, keep) ensures x.tx.id != last.tx.id {
        var i :| 0 <= i < |prefix| && prefix[i] == x;
        assert rows[i] == x;
      }
    }
  }

  /** A delete that spares every row of user `other` leaves that user's
      transactions, and their order, exactly as they were. */
  lemma {:induction false} FilterSparesOwner(rows: seq<Row>, keep: Row -> bool, other: nat)
    requires forall r: Row :: r.owner == other ==> keep(r)
    ensures OwnedTxs(Filter(rows, keep), other) == OwnedTxs(rows, other)
  {
    if rows != [] {
      var prefix := rows[..|rows| - 1];
      var last := rows[|rows| - 1];
      FilterSparesOwner(prefix, keep, other);
      var kept := if keep(last) then [last] else [];
      OwnedTxsAppend(Filter(prefix, keep), kept, other);
      assert Filter(rows, keep) == Filter(prefix, keep) + kept;
    }
  }

  lemma {:induction false} OwnedTxsAppend(a: seq<Row>, b: seq<Row>, uid: nat)
    ensures OwnedTxs(a + b, uid) == OwnedTxs(a, uid) + OwnedTxs(b, uid)
    decreases |b|
  {
    if b == [] {
      assert a + b == a;
    } else {
      assert (a + b)[..|a + b| - 1] == a + b[..|b| - 1];
      OwnedTxsAppend(a, b[..|b| - 1], uid);
    }
  }

  /** Deleting a row never changes what another user sees, and a delete that
      matches no row leaves the table as it was. */
  lemma DeleteIsolated(rows: seq<Row>, id: nat, uid: nat, other: nat)
    requires other != uid
    ensures OwnedTxs(WithoutTx(rows, id, uid), other) == OwnedTxs(rows, other)
  {
    FilterSparesOwner(rows, (r: Row) => !(r.tx.id == id && r.owner == uid), other);
  }

  lemma {:induction false} DeleteWithoutMatch(rows: seq<Row>, id: nat, uid: nat)
    requires forall r :: r in rows ==> !(r.tx.id == id && r.owner == uid)
    ensures WithoutTx(rows, id, uid) == rows
  {
    if rows != [] {
      var prefix := rows[..|rows| - 1];
      DeleteWithoutMatch(prefix, id, uid);
      assert rows == prefix + [rows[|rows| - 1]];
    }
  }

  /** Reset empties the caller's transactions and leaves every other user's
      transactions exactly as they were. */
  lemma ResetIsolated(rows: seq<Row>, uid: nat, other: nat)
    requires other != uid
    ensures OwnedTxs(WithoutOwner(rows, uid), uid) == []
    ensures OwnedTxs(WithoutOwner(rows, uid), other) == OwnedTxs(rows, other)
  {
    FilterSparesOwner(rows, (r: Row) => r.owner != uid, other);
    NoRowsNoTxs(WithoutOwner(rows, uid), uid);
  }

  lemma {:induction false} NoRowsNoTxs(rows: seq<Row>, uid: nat)
    requires forall r :: r in rows ==> r.owner != uid
    ensures OwnedTxs(rows, uid) == []
  {
    if rows != [] {
      NoRowsNoTxs(rows[..|rows| - 1], uid);
    }
  }

  /** The database of the application and the session of the one client
      being served. */
  class Store {
    var users: seq<User>
    var transactions: seq<Row>
    var session: Option<Session>
    var nextUserId: nat
    var nextTxId: nat

    /** UNIQUE usernames, primary keys, and AUTOINCREMENT counters above every
        id handed out. */
    predicate Valid()
      reads this
    {
      && (forall i, j :: 0 <= i < j < |users| ==> users[i].username != users[j].username && users[i].id != users[j].id)
      && (forall i :: 0 <= i < |users| ==> users[i].id < nextUserId)
      && IdsUnique(transactions)
      && (forall r :: r in transactions ==> r.tx.id < nextTxId)
    }

    /** init_db(): both tables empty, no one logged in. */
    constructor ()
      ensures Valid() && users == [] && transactions == [] && session == None
    {
      users, transactions, session := [], [], None;
      nextUserId, nextTxId := 1, 1;
    }

    /** POST /api/register. `hashed` is what generate_password_hash returned
        for the password. */
    method Register(username: Option<string>, password: Option<string>, hashed: string) returns (status: int)
      requires Valid()
      modifies this`users, this`nextUserId
      ensures Valid()
      ensures Blank(username) || Blank(password) ==>
                status == BadRequest && users == old(users) && nextUserId == old(nextUserId)
      ensures !Blank(username) && !Blank(password) && NameTaken(old(users), username.value) ==>
                status == Conflict && users == old(users) && nextUserId == old(nextUserId)
      ensures !Blank(username) && !Blank(password) && !NameTaken(old(users), username.value) ==>
                status == OK && users == old(users) + [User(old(nextUserId), username.value, hashed)]
                && nextUserId == old(nextUserId) + 1
    {
      if Blank(username) || Blank(password) {
        return BadRequest;
      }
      var name := username.value;
      if FindUser(users, name).Some? {
        return Conflict;
      }
      users := users + [User(nextUserId, name, hashed)];
      nextUserId := nextUserId + 1;
      status := OK;
    }

    /** POST /api/login. `check` is check_password_hash. */
    method Login(username: Option<string>, password: string, check: (string, string) -> bool) returns (status: int)
      requires Valid()
      modifies this`session
      ensures Valid()
      ensures var u := if username.Some? then FindUser(users, username.value) else None;
              if u.Some? && check(u.value.passwordHash, password) then
                status == OK && session == Some(Session(u.value.id, u.value.username))
              else
                status == Unauthorized && session == old(session)
    {
      var user := if username.Some? then FindUser(users, username.value) else None;
      if user.Some? && check(user.value.passwordHash, password) {
        session := Some(Session(user.value.id, user.value.username));
        status := OK;
      } else {
        status := Unauthorized;
      }
    }

    /** POST /api/logout: session.clear(). */
    method Logout() returns (status: int)
      modifies this`session
      ensures session == None && status == OK
    {
      session := None;
      status := OK;
    }

    /** GET /api/transactions: the caller's transactions newest first, and
        the summary of their income and expense. */
    method ListTransactions() returns (status: int, listing: Option<Listing>)
      ensures session.None? ==> status == Unauthorized && listing.None?
      ensures session.Some? ==> status == OK && listing.Some?
      ensures session.Some? && listing.Some? ==>
                var uid := session.value.userId;
                var list := listing.value.transactions;
                && NewestFirst(list)
                && multiset(list) == multiset(OwnedTxs(transactions, uid))
                && (forall t :: t in list <==> Row(uid, t) in transactions)
                && listing.value.summary == Summarize(list)
                && listing.value.summary.balance == listing.value.summary.income - listing.value.summary.expense
    {
      if session.None? {
        return Unauthorized, None;
      }
      var uid := session.value.userId;
      var owned := OwnedTxs(transactions, uid);
      var txs := SortNewestFirst(owned);
      var income := SumKind(owned, Income);
      var expense := SumKind(owned, Expense);
      var balance := income - expense;

      var list: seq<Tx> := [];
      for i := 0 to |txs|
        invariant list == txs[..i]
      {
        var tx := txs[i];
        list := list + [Tx(tx.id, tx.kind, tx.amount, tx.description, tx.timestamp)];
      }
      assert list == txs[..|txs|] == txs;
      SameElements(list, owned);
      SummarizePermutation(owned, list);
      status, listing := OK, Some(Listing(list, Summary(income, expense, balance)));
    }

    /** POST /api/transactions. `now` is the server clock's timestamp. */
    method AddTransaction(kind: Option<string>, amount: AmountField, description: Option<string>, now: int) returns (status: int)
      requires Valid()
      modifies this`transactions, this`nextTxId
      ensures Valid()
      ensures session.None? ==> status == Unauthorized
      ensures session.Some? && amount.Missing? ==> status == ServerError
      ensures session.Some? && amount.Unparsable? ==> status == BadRequest
      ensures session.Some? && amount.Number? && (kind.None? || description.None?) ==> status == ServerError
      ensures status == OK <==> session.Some? && amount.Number? && kind.Some? && description.Some?
      ensures status != OK ==> transactions == old(transactions) && nextTxId == old(nextTxId)
      ensures status == OK ==>
                transactions == old(transactions)
                  + [Row(session.value.userId, Tx(old(nextTxId), kind.value, amount.value, description.value, now))]
                && nextTxId == old(nextTxId) + 1
    {
      if session.None? {
        return Unauthorized;
      }
      match amount
      case Missing =>
        return ServerError;
      case Unparsable =>
        return BadRequest;
      case Number(value) =>
        if kind.None? || description.None? {
          // NOT NULL constraint of the type or description column
          return ServerError;
        }
        var row := Row(session.value.userId, Tx(nextTxId, kind.value, value, description.value, now));
        transactions := transactions + [row];
        nextTxId := nextTxId + 1;
        status := OK;
    }

    /** DELETE /api/transactions/<id>: removes the row with that id only if it
        belongs to the caller; succeeds even when nothing matched. */
    method DeleteTransaction(id: nat) returns (status: int)
      requires Valid()
      modifies this`transactions
      ensures Valid()
      ensures session.None? ==> status == Unauthorized && transactions == old(transactions)
      ensures session.Some? ==> status == OK && transactions == WithoutTx(old(transactions), id, session.value.userId)
      ensures forall r :: r in transactions <==>
                r in old(transactions) && !(session.Some? && r.tx.id == id && r.owner == session.value.userId)
    {
      if session.None? {
        return Unauthorized;
      }
      var uid := session.value.userId;
      FilterKeepsIdsUnique(transactions, (r: Row) => !(r.tx.id == id && r.owner == uid));
      transactions := WithoutTx(transactions, id, uid);
      status := OK;
    }

    /** POST /api/reset_data: removes every row of the caller and no other. */
    method ResetData() returns (status: int)
      requires Valid()
      modifies this`transactions
      ensures Valid()
      ensures session.None? ==> status == Unauthorized && transactions == old(transactions)
      ensures session.Some? ==> status == OK && transactions == WithoutOwner(old(transactions), session.value.userId)
      ensures forall r :: r in transactions <==> r in old(transactions) && !(session.Some? && r.owner == session.value.userId)
    {
      if session.None? {
        return Unauthorized;
      }
      var uid := session.value.userId;
      FilterKeepsIdsUnique(transactions, (r: Row) => r.owner != uid);
      transactions := WithoutOwner(transactions, uid);
      status := OK;
    }
  }
}
