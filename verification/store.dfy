/** The `Store` interface of the expense tracker, modelled as an in-memory
    ledger with the semantics its PostgreSQL queries pin down.

    Driver, connection and scan failures are not part of this module: the
    handlers receive them as explicit inputs. What remains are the failures
    the queries themselves decide: an UPDATE or DELETE that affects no row, and
    a single-row SELECT that finds none.
 */
module Store {
  import opened Domain
  import opened Seqs

  /** Why a store call failed: the queried row does not exist, or the database
      call itself failed (the latter is an input of the handlers). */
  datatype StoreError = NotFound | Fault

  /** The Go `(value, error)` pair of a store call. */
  datatype Result<T> = Ok(value: T) | Err(error: StoreError)

  /** The two tables, expenses in insertion order, and the next value of the
      expenses' serial id sequence. Deleted ids are never handed out again. */
  datatype Ledger = Ledger(expenses: seq<Expense>, users: map<int, User>, nextId: int)

  /** What `CreateExpense` hands back: the stored row and the new ledger. */
  datatype Inserted = Inserted(expense: Expense, ledger: Ledger)

  /** No two expense rows share an id. */
  predicate DistinctIds(es: seq<Expense>) {
    forall i, j :: 0 <= i < j < |es| ==> es[i].id != es[j].id
  }

  /** The ledger's invariant: ids are positive, distinct and below the next
      serial value, and every user row is filed under its own id. */
  ghost predicate Valid(l: Ledger) {
    && l.nextId >= 1
    && (forall e :: e in l.expenses ==> 1 <= e.id < l.nextId)
    && DistinctIds(l.expenses)
    && (forall k :: k in l.users ==> l.users[k].id == k)
  }

  /** `WHERE user_id = u` */
  function OwnedBy(u: int): Expense -> bool {
    (e: Expense) => e.userId == u
  }

  /** `date >= ws AND date < ws + 7 days` */
  function InWeek(ws: int): Expense -> bool {
    (e: Expense) => ws <= e.date < ws + 7
  }

  /** Both conditions of the weekly-total query. */
  function OwnedInWeek(u: int, ws: int): Expense -> bool {
    (e: Expense) => e.userId == u && ws <= e.date < ws + 7
  }

  /** `WHERE id <> id` — the rows a DELETE by id leaves behind. */
  function IdOtherThan(id: int): Expense -> bool {
    (e: Expense) => e.id != id
  }

  /** `SUM(amount)` over the rows, with `COALESCE(…, 0)` for no rows. */
  function SumAmounts(es: seq<Expense>): (r: int)
    ensures es == [] ==> r == 0
    ensures (forall e :: e in es ==> e.amount >= 0) ==> r >= 0
    ensures (forall e :: e in es ==> e.amount >= 0) ==> forall e :: e in es ==> e.amount <= r
  {
    assert forall i :: 0 <= i < |es| ==> es[i] in es;
    SumUpTo(es, |es|)
  }

  /** The sum over the first `n` rows. */
  function SumUpTo(es: seq<Expense>, n: nat): (r: int)
    requires n <= |es|
    ensures (forall i :: 0 <= i < n ==> es[i].amount >= 0) ==> r >= 0
    ensures (forall i :: 0 <= i < n ==> es[i].amount >= 0) ==> forall i :: 0 <= i < n ==> es[i].amount <= r
    decreases n
  {
    if n == 0 then 0 else SumUpTo(es, n - 1) + es[n - 1].amount
  }

  /** INSERT … RETURNING id: the row is stored with the next serial id; every
      other field is stored as given. The id the caller put in `e` is ignored. */
  function CreateExpense(l: Ledger, e: Expense): (r: Inserted)
    ensures r.expense.id == l.nextId
    ensures && r.expense.userId == e.userId && r.expense.amount == e.amount
            && r.expense.date == e.date && r.expense.category == e.category
    ensures r.ledger.expenses == l.expenses + [r.expense]
    ensures r.ledger.users == l.users
    ensures r.ledger.nextId > l.nextId
  {
    var created := e.(id := l.nextId);
    Inserted(created, l.(expenses := l.expenses + [created], nextId := l.nextId + 1))
  }

  /** SELECT … WHERE user_id = u: exactly the user's rows, in table order.
      No rows gives the empty sequence, not a failure. */
  function ListExpenses(l: Ledger, u: int): (r: seq<Expense>)
    ensures forall e :: e in r <==> e in l.expenses && e.userId == u
    ensures forall e :: multiset(r)[e] == if e.userId == u then multiset(l.expenses)[e] else 0
    ensures (forall e :: e in l.expenses ==> e.userId != u) ==> r == []
  {
    var r := Filter(l.expenses, OwnedBy(u));
    FilterMembers(l.expenses, OwnedBy(u));
    FilterCounts(l.expenses, OwnedBy(u));
    assert r != [] ==> r[0] in r;
    r
  }

  /** UPDATE users SET weekly_spending_limit = n WHERE id = u: fails when no
      row is affected; otherwise only that user's limit changes. */
  function SetUserWeeklyLimit(l: Ledger, u: int, n: int): (r: Result<Ledger>)
    ensures r.Err? <==> u !in l.users
    ensures r.Err? ==> r.error == NotFound
    ensures r.Ok? ==> r.value.expenses == l.expenses && r.value.nextId == l.nextId
    ensures r.Ok? ==> r.value.users.Keys == l.users.Keys
    ensures r.Ok? ==> forall k :: k in l.users && k != u ==> r.value.users[k] == l.users[k]
    ensures r.Ok? ==> r.value.users[u].weeklyLimit == n
    ensures r.Ok? ==> r.value.users[u] == l.users[u].(weeklyLimit := n)
  {
    if u in l.users then Ok(l.(users := l.users[u := l.users[u].(weeklyLimit := n)])) else Err(NotFound)
  }

  /** SELECT weekly_spending_limit FROM users WHERE id = u: fails when the
      user does not exist. */
  function GetUserWeeklyLimit(l: Ledger, u: int): (r: Result<int>)
    ensures r.Err? <==> u !in l.users
    ensures r.Err? ==> r.error == NotFound
    ensures r.Ok? ==> r.value == l.users[u].weeklyLimit
  {
    if u in l.users then Ok(l.users[u].weeklyLimit) else Err(NotFound)
  }

  /** SELECT … FROM users WHERE email = $1. When several rows share the email
      the query returns one of them unspecified; this ledger returns the one
      filed under the smallest id. */
  function GetUserByEmail(l: Ledger, email: string): (r: Result<User>)
    ensures r.Err? <==> forall k :: k in l.users ==> l.users[k].email != email
    ensures r.Err? ==> r.error == NotFound
    ensures r.Ok? ==> r.value.email == email && exists k :: k in l.users && l.users[k] == r.value
  {
    var keys := set k | k in l.users && l.users[k].email == email;
    assert forall k :: k in l.users && l.users[k].email == email ==> k in keys;
    if keys == {} then Err(NotFound)
    else
      LeastExists(keys);
      var k :| IsLeast(k, keys);
      Ok(l.users[k])
  }

  /** A set other than the empty one has an element. */
  lemma HasElement(s: set<int>)
    requires s != {}
    ensures exists y :: y in s
  {
    if forall y :: y !in s {
      assert false;
    }
  }

  /** `m` is the least element of `s`. */
  predicate IsLeast(m: int, s: set<int>) {
    m in s && forall x :: x in s ==> m <= x
  }

  /** A non-empty finite set of integers has a least element. */
  lemma {:induction false} LeastExists(s: set<int>)
    requires s != {}
    ensures exists m :: IsLeast(m, s)
    decreases |s|
  {
    HasElement(s);
    var y :| y in s;
    var rest := s - {y};
    assert forall x :: x in s ==> x == y || x in rest;
    if rest == {} {
      assert IsLeast(y, s);
    } else {
      LeastExists(rest);
      var m :| IsLeast(m, rest);
      if y < m {
        assert IsLeast(y, s);
      } else {
        assert IsLeast(m, s);
      }
    }
  }

  /** DELETE FROM expenses WHERE id = id: fails when no row is affected;
      otherwise exactly the rows with that id disappear and nothing else
      changes. */
  function DeleteExpense(l: Ledger, id: int): (r: Result<Ledger>)
    ensures r.Err? <==> forall e :: e in l.expenses ==> e.id != id
    ensures r.Err? ==> r.error == NotFound
    ensures r.Ok? ==> r.value.users == l.users && r.value.nextId == l.nextId
    ensures r.Ok? ==> r.value.expenses == Filter(l.expenses, IdOtherThan(id))
    ensures r.Ok? ==> forall e :: e in r.value.expenses <==> e in l.expenses && e.id != id
  {
    if exists e :: e in l.expenses && e.id == id then
      FilterMembers(l.expenses, IdOtherThan(id));
      Ok(l.(expenses := Filter(l.expenses, IdOtherThan(id))))
    else
      Err(NotFound)
  }

  /** SELECT COALESCE(SUM(amount), 0) FROM expenses WHERE user_id = u AND the
      date lies in the week starting on day `ws`. */
  function GetWeeklyExpenses(l: Ledger, u: int, ws: int): (r: int)
    ensures (forall e :: e in l.expenses ==> !(e.userId == u && ws <= e.date < ws + 7)) ==> r == 0
    ensures (forall e :: e in l.expenses ==> e.amount >= 0) ==> r >= 0
  {
    var selected := Filter(l.expenses, OwnedInWeek(u, ws));
    FilterMembers(l.expenses, OwnedInWeek(u, ws));
    assert selected != [] ==> selected[0] in selected;
    SumAmounts(selected)
  }

  /** Selecting rows keeps their ids distinct. */
  lemma {:induction false} FilterKeepsDistinctIds(es: seq<Expense>, p: Expense -> bool)
    ensures DistinctIds(es) ==> DistinctIds(Filter(es, p))
    decreases |es|
  {
    if es != [] && DistinctIds(es) {
      var prefix, last := es[..|es| - 1], es[|es| - 1];
      assert es == prefix + [last];
      FilterKeepsDistinctIds(prefix, p);
      FilterMembers(prefix, p);
      FilterAppend(prefix, last, p);
      var kept := Filter(prefix, p);
      forall x | x in kept
        ensures x.id != last.id
      {
        var i :| 0 <= i < |prefix| && prefix[i] == x;
        assert es[i] == x;
      }
    }
  }

  /** When ids are distinct and one row carries `id`, deleting by `id` drops
      exactly one row. */
  lemma {:induction false} FilterDropsOne(es: seq<Expense>, id: int)
    requires exists e :: e in es && e.id == id
    ensures DistinctIds(es) ==> |Filter(es, IdOtherThan(id))| == |es| - 1
    decreases |es|
  {
    if !DistinctIds(es) {
      return;
    }
    var prefix, last := es[..|es| - 1], es[|es| - 1];
    assert es == prefix + [last];
    FilterAppend(prefix, last, IdOtherThan(id));
    if last.id == id {
      forall i | 0 <= i < |prefix|
        ensures IdOtherThan(id)(prefix[i])
      {
        assert es[i] == prefix[i];
      }
      FilterKeepsAll(prefix, IdOtherThan(id));
    } else {
      var e :| e in es && e.id == id;
      assert e in prefix;
      FilterDropsOne(prefix, id);
    }
  }
}
