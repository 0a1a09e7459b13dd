/** How the ledger operations relate to one another: what a list, a delete, a
    limit read or a weekly total sees after an insert, a delete or an update. */
module StoreProperties {
  import opened Domain
  import opened Seqs
  import opened Store

  /** An insert keeps the ledger valid, and the id it hands out is not yet
      taken. */
  lemma CreateKeepsValid(l: Ledger, e: Expense)
    requires Valid(l)
    ensures Valid(CreateExpense(l, e).ledger)
    ensures forall x :: x in l.expenses ==> x.id != CreateExpense(l, e).expense.id
  {
    assert forall i :: 0 <= i < |l.expenses| ==> l.expenses[i] in l.expenses;
  }

  /** A delete keeps the ledger valid, and on a valid ledger it removes
      exactly one row. */
  lemma DeleteKeepsValid(l: Ledger, id: int)
    requires Valid(l)
    ensures DeleteExpense(l, id).Ok? ==>
              Valid(DeleteExpense(l, id).value) && |DeleteExpense(l, id).value.expenses| == |l.expenses| - 1
  {
    if DeleteExpense(l, id).Ok? {
      FilterKeepsDistinctIds(l.expenses, IdOtherThan(id));
      FilterDropsOne(l.expenses, id);
    }
  }

  /** The sum over a sequence grows by the appended amount. */
  lemma SumAmountsAppend(es: seq<Expense>, x: Expense)
    ensures SumAmounts(es + [x]) == SumAmounts(es) + x.amount
  {
    SumUpToPrefix(es, [x], |es|);
    assert (es + [x])[|es|] == x;
  }

  /** The sum over a prefix does not look past it. */
  lemma {:induction false} SumUpToPrefix(es: seq<Expense>, more: seq<Expense>, n: nat)
    requires n <= |es|
    ensures SumUpTo(es + more, n) == SumUpTo(es, n)
    decreases n
  {
    if n > 0 {
      SumUpToPrefix(es, more, n - 1);
      assert (es + more)[n - 1] == es[n - 1];
    }
  }

  /** After an insert, listing the owner's expenses gives the old list with
      the stored row appended; other users' lists are unchanged. On a valid
      ledger the new row appears exactly once, with the caller's fields. */
  lemma CreateThenList(l: Ledger, e: Expense, u: int)
    ensures var ins := CreateExpense(l, e);
            ListExpenses(ins.ledger, u) == ListExpenses(l, u) + (if e.userId == u then [ins.expense] else [])
    ensures var ins := CreateExpense(l, e);
            Valid(l) && e.userId == u ==>
              && multiset(ListExpenses(ins.ledger, u))[ins.expense] == 1
              && ins.expense == e.(id := l.nextId)
  {
    var ins := CreateExpense(l, e);
    FilterAppend(l.expenses, ins.expense, OwnedBy(u));
    if Valid(l) && e.userId == u {
      CreateKeepsValid(l, e);
      assert ins.expense !in ListExpenses(l, u);
      assert multiset(ListExpenses(l, u))[ins.expense] == 0;
    }
  }

  /** Deleting the row an insert just stored undoes the insert, except that
      the serial sequence has moved on. */
  lemma CreateThenDelete(l: Ledger, e: Expense)
    requires Valid(l)
    ensures var ins := CreateExpense(l, e);
            DeleteExpense(ins.ledger, ins.expense.id) == Ok(l.(nextId := ins.ledger.nextId))
  {
    var ins := CreateExpense(l, e);
    CreateKeepsValid(l, e);
    var p := IdOtherThan(ins.expense.id);
    FilterAppend(l.expenses, ins.expense, p);
    forall i | 0 <= i < |l.expenses|
      ensures p(l.expenses[i])
    {
      assert l.expenses[i] in l.expenses;
    }
    FilterKeepsAll(l.expenses, p);
    assert ins.expense in ins.ledger.expenses;
  }

  /** After setting a user's limit, reading it back gives the new value and
      every other user's limit reads as before; setting the limit of an
      unknown user fails and reading it fails too. */
  lemma SetThenGet(l: Ledger, u: int, n: int, v: int)
    ensures var r := SetUserWeeklyLimit(l, u, n);
            && (r.Ok? ==> GetUserWeeklyLimit(r.value, u) == Ok(n))
            && (r.Ok? && v != u ==> GetUserWeeklyLimit(r.value, v) == GetUserWeeklyLimit(l, v))
            && (r.Err? <==> GetUserWeeklyLimit(l, u).Err?)
  {
  }

  /** The weekly total is the sum of the amounts of the user's listed
      expenses that fall in the week. */
  lemma WeeklyTotalOfListed(l: Ledger, u: int, ws: int)
    ensures GetWeeklyExpenses(l, u, ws) == SumAmounts(Filter(ListExpenses(l, u), InWeek(ws)))
  {
    FilterOfFilter(l.expenses, OwnedBy(u), InWeek(ws), OwnedInWeek(u, ws));
  }

  /** An insert raises the owner's weekly total by the new amount when the
      new row's date is in the week, and leaves every other total alone. */
  lemma CreateAddsToWeeklyTotal(l: Ledger, e: Expense, u: int, ws: int)
    ensures GetWeeklyExpenses(CreateExpense(l, e).ledger, u, ws)
            == GetWeeklyExpenses(l, u, ws) + (if e.userId == u && ws <= e.date < ws + 7 then e.amount else 0)
  {
    var ins := CreateExpense(l, e);
    var p := OwnedInWeek(u, ws);
    FilterAppend(l.expenses, ins.expense, p);
    if p(ins.expense) {
      SumAmountsAppend(Filter(l.expenses, p), ins.expense);
    }
  }

  /** Without its last row, a sequence of distinct ids still has distinct
      ids, none of them the last row's. */
  lemma DistinctPrefix(es: seq<Expense>)
    requires es != [] && DistinctIds(es)
    ensures DistinctIds(es[..|es| - 1])
    ensures forall x :: x in es[..|es| - 1] ==> x.id != es[|es| - 1].id
  {
    var prefix := es[..|es| - 1];
    forall x | x in prefix
      ensures x.id != es[|es| - 1].id
    {
      var i :| 0 <= i < |prefix| && prefix[i] == x;
      assert es[i] == x;
    }
  }

  /** On distinct ids, dropping a stored row by its id subtracts its amount
      from the sum. */
  lemma {:induction false} SumWithoutRow(es: seq<Expense>, d: Expense)
    requires DistinctIds(es) && d in es
    ensures SumAmounts(Filter(es, IdOtherThan(d.id))) == SumAmounts(es) - d.amount
    decreases |es|
  {
    var prefix, last := es[..|es| - 1], es[|es| - 1];
    assert es == prefix + [last];
    DistinctPrefix(es);
    FilterAppend(prefix, last, IdOtherThan(d.id));
    SumAmountsAppend(prefix, last);
    if last == d {
      FilterKeepsAll(prefix, IdOtherThan(d.id));
    } else {
      assert last.id != d.id by {
        var i :| 0 <= i < |es| && es[i] == d;
        assert i < |prefix|;
      }
      assert d in prefix;
      SumWithoutRow(prefix, d);
      SumAmountsAppend(Filter(prefix, IdOtherThan(d.id)), last);
    }
  }

  /** A delete lowers the owner's weekly total by the deleted amount when the
      deleted row's date is in the week, and leaves every other total alone. */
  lemma DeleteSubtractsFromWeeklyTotal(l: Ledger, d: Expense, u: int, ws: int)
    requires Valid(l)
    requires d in l.expenses
    ensures DeleteExpense(l, d.id).Ok?
    ensures GetWeeklyExpenses(DeleteExpense(l, d.id).value, u, ws)
            == GetWeeklyExpenses(l, u, ws) - (if d.userId == u && ws <= d.date < ws + 7 then d.amount else 0)
  {
    var week, other := OwnedInWeek(u, ws), IdOtherThan(d.id);
    var both := (e: Expense) => other(e) && week(e);
    FilterOfFilter(l.expenses, other, week, both);
    FilterOfFilter(l.expenses, week, other, both);
    var selected := Filter(l.expenses, week);
    FilterMembers(l.expenses, week);
    FilterKeepsDistinctIds(l.expenses, week);
    if week(d) {
      SumWithoutRow(selected, d);
    } else {
      forall i | 0 <= i < |selected|
        ensures other(selected[i])
      {
        var j :| 0 <= j < |l.expenses| && l.expenses[j] == selected[i];
        var k :| 0 <= k < |l.expenses| && l.expenses[k] == d;
        assert j != k;
      }
      FilterKeepsAll(selected, other);
    }
  }
}
