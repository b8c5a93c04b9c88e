/** The debt table of apps/main.py: a dictionary from a user's id to the
    amount that user owes, grown by `/borrow` and read by `/interest` and
    `/total`. */
module Debts {
  import opened Options

  /** A chat user's numeric id (`message.author.id`). */
  type UserId = nat

  /** The `debts` dictionary. Amounts are exact reals where apps/main.py
      uses Python floats. */
  type Table = map<UserId, real>

  /** What `user` owes before a borrow is added: the stored amount, or the
      0 the borrow branch inserts for a user without an entry. */
  function Owed(debts: Table, user: UserId): real {
    if user in debts then debts[user] else 0.0
  }

  /** The table after `user` borrows `amount`: the entry is created at 0
      when missing and then increased by `amount`. No sign check is made. */
  function AfterBorrow(debts: Table, user: UserId, amount: real): (after: Table)
    ensures after.Keys == debts.Keys + {user}
    ensures after[user] - Owed(debts, user) == amount
    ensures forall u :: u in debts && u != user ==> after[u] == debts[u]
  {
    debts[user := Owed(debts, user) + amount]
  }

  /** The `/total` query: the stored debt, or None ("no debt") when the
      user has no entry. */
  function Total(debts: Table, user: UserId): (r: Option<real>)
    ensures r.Some? <==> user in debts
    ensures r.Some? ==> r.value == debts[user]
  {
    if user in debts then Some(debts[user]) else None
  }

  /** What a borrow starts from is what `/total` reports, or 0 when it
      reports no debt. */
  lemma OwedIsTotal(debts: Table, user: UserId)
    ensures Total(debts, user).Some? ==> Owed(debts, user) == Total(debts, user).value
    ensures Total(debts, user).None? ==> Owed(debts, user) == 0.0
  {
  }

  /** `debt * (rate / 100)`: the interest on `debt` at `rate` percent. */
  function InterestAt(debt: real, rate: real): (interest: real)
    ensures rate == 0.0 ==> interest == 0.0
    ensures rate == 100.0 ==> interest == debt
  {
    debt * (rate / 100.0)
  }

  /** The `/interest` query: the interest at `rate` percent on the debt
      that `/total` reports, or None ("no debt") when the user has no
      entry. */
  function Interest(debts: Table, user: UserId, rate: real): (r: Option<real>)
    ensures r.Some? <==> Total(debts, user).Some?
    ensures r.Some? ==> r.value == InterestAt(Total(debts, user).value, rate)
  {
    if user in debts then Some(InterestAt(debts[user], rate)) else None
  }

  /** The sum of a sequence of amounts. */
  function Sum(amounts: seq<real>): real {
    if amounts == [] then 0.0 else Sum(amounts[..|amounts| - 1]) + amounts[|amounts| - 1]
  }

  /** The table after `user` borrows each of `amounts` in turn. */
  function AfterBorrows(debts: Table, user: UserId, amounts: seq<real>): Table {
    if amounts == [] then debts
    else AfterBorrow(AfterBorrows(debts, user, amounts[..|amounts| - 1]), user, amounts[|amounts| - 1])
  }

  /** A user's first borrow creates the entry holding exactly the amount. */
  lemma FirstBorrowCreatesEntry(debts: Table, user: UserId, amount: real)
    requires user !in debts
    ensures Total(AfterBorrow(debts, user, amount), user) == Some(amount)
  {
  }

  /** A borrow changes nobody's debt but the borrower's, and creates no
      other entry. */
  lemma BorrowTouchesOnlyBorrower(debts: Table, user: UserId, amount: real, other: UserId)
    requires other != user
    ensures Total(AfterBorrow(debts, user, amount), other) == Total(debts, other)
  {
  }

  /** No sign check: a negative amount lowers the debt, which can then
      fall below zero. */
  lemma NegativeBorrowLowersDebt(debts: Table, user: UserId, amount: real)
    requires amount < 0.0
    ensures AfterBorrow(debts, user, amount)[user] < Owed(debts, user)
    ensures user !in debts ==> AfterBorrow(debts, user, amount)[user] < 0.0
  {
  }

  /** After any sequence of borrows by one user, that user owes what they
      owed before plus the sum of the amounts, and every other user's entry
      is as it was. */
  lemma {:induction false} BorrowsAccumulate(debts: Table, user: UserId, amounts: seq<real>)
    ensures Owed(AfterBorrows(debts, user, amounts), user) == Owed(debts, user) + Sum(amounts)
    ensures amounts != [] ==> user in AfterBorrows(debts, user, amounts)
    ensures forall u :: u != user ==> Total(AfterBorrows(debts, user, amounts), u) == Total(debts, u)
  {
    if amounts != [] {
      var init := amounts[..|amounts| - 1];
      BorrowsAccumulate(debts, user, init);
      forall u | u != user
        ensures Total(AfterBorrows(debts, user, amounts), u) == Total(debts, u)
      {
        BorrowTouchesOnlyBorrower(AfterBorrows(debts, user, init), user, amounts[|amounts| - 1], u);
      }
    }
  }

  /** Starting without an entry, a user's debt after borrowing each of a
      non-empty sequence of amounts is exactly their sum. */
  lemma {:induction false} FreshDebtIsSumOfBorrows(debts: Table, user: UserId, amounts: seq<real>)
    requires user !in debts && amounts != []
    ensures Total(AfterBorrows(debts, user, amounts), user) == Some(Sum(amounts))
  {
    BorrowsAccumulate(debts, user, amounts);
  }

  /** At a rate of 100 the interest is the whole debt; a user without an
      entry gets "no debt" from both queries. */
  lemma InterestAtFullRate(debts: Table, user: UserId)
    ensures Interest(debts, user, 100.0) == Total(debts, user)
  {
  }

  /** The debt table, updated in place by the `/borrow` branch. */
  class Ledger {
    var debts: Table

    /** The empty table the program starts with. */
    constructor ()
      ensures debts == map[]
    {
      debts := map[];
    }

    /** The `/borrow` update: insert 0 when the user has no entry, then
        add the amount; returns the new total. */
    method Borrow(user: UserId, amount: real) returns (total: real)
      modifies this
      ensures debts == AfterBorrow(old(debts), user, amount)
      ensures total == debts[user] && total == Owed(old(debts), user) + amount
    {
      if user !in debts {
        debts := debts[user := 0.0];
      }
      debts := debts[user := debts[user] + amount];
      total := debts[user];
    }
  }
}
