# Debt table of the Interest-Collection bot

A Dafny model of the chat bot in `apps/main.py`. The bot keeps one piece of
state, the dictionary `debts` from a user's id to the amount that user owes,
and answers three commands in its `on_message` handler:

- `/borrow <amount>` creates the author's entry at 0 when it is missing and
  adds the amount to it (no sign check), replying with the new total;
- `/interest <rate>` quotes `debt * (rate / 100)` on the author's debt, or
  "no debt" when the author has no entry;
- `/total` reports the author's debt, or "no debt".

`$hello` is answered with a greeting. Messages written by the bot itself are
ignored. A command is chosen by testing the prefix of the raw message text;
the argument is the second whitespace-separated word (`split()[1]`) passed
to `float`. A missing word (IndexError) or a word `float` rejects
(ValueError) produces the command's usage reply and changes nothing.

The model covers all of the bot's state and all of `on_message`: the
author check, the four prefix tests, the argument extraction, the three
table operations and the order in which the tests run. It leaves out the
chat connection around them and the rounding of Python floats (see
"Left out").

Files:

- `options.dfy` — `Options.Option`.
- `text.dfy` — module `Text`: Python's `str.split()` (with Python's set of
  whitespace characters), `str.startswith`, `split()[1]`, and the lemmas
  that splitting undoes joining and ignores what follows a space.
- `debts.dfy` — module `Debts`: the table as a `map<UserId, real>`, the
  borrow update as a function on it, the two read-only queries, lemmas about
  them, and the class `Ledger` whose method `Borrow` updates the table in
  place as lines 28-30 do.
- `handler.dfy` — module `Handler`: the command selection, the argument
  extraction, `Step` (the reply and the new table for one message, as a
  function), `OnMessage` (the handler as a method that runs the four prefix
  tests one after another, proved equal to `Step`), the methods
  `HandleBorrow`, `HandleInterest` and `HandleTotal` for the bodies of the
  three command tests (the first updates the ledger through
  `Ledger.Borrow`), and lemmas about `Step` and about runs of messages.

## Model

| member | source | states |
|---|---|---|
| `Text.Split` | apps/main.py:27 | every word of `split()` is non-empty and free of whitespace; the result is empty exactly when the text is all whitespace |
| `Text.IsSpaceIsWhitespace` | apps/main.py:27 | the separators of `split()` are exactly the listed Unicode whitespace characters |
| `Text.SplitConcat` | apps/main.py:27 | splitting text whose second part starts with whitespace is splitting each part: no word straddles whitespace |
| `Text.SplitJoin` | apps/main.py:27 | splitting words joined by single spaces gives back exactly those words |
| `Text.SecondWord` | apps/main.py:27 | `split()[1]` exists exactly when the text has at least two words, and it is a whitespace-free word |
| `Text.SecondWordOfJoin` | apps/main.py:27 | the argument of joined words is the second of them |
| `Text.SecondWordIgnoresTail` | apps/main.py:27 | appending a space and any text to a message of two or more words leaves its second word unchanged |
| `Text.StartsWithBeforeSpace` | apps/main.py:25 | a whitespace-free prefix matches text followed by a space and more exactly when it matches the text alone |
| `Text.StartsWithAgrees` | apps/main.py:22-46 | `startswith` holds exactly when the text is at least as long as the prefix and agrees with it position by position |
| `Debts.AfterBorrow` | apps/main.py:28-30 | after a borrow the keys are the old keys plus the borrower, the borrower's entry grew by exactly the amount from its old value or 0, every other entry is unchanged |
| `Debts.OwedIsTotal` | apps/main.py:28-29 | the amount a borrow adds to is the stored debt `/total` reports, or 0 for a user without an entry |
| `Debts.FirstBorrowCreatesEntry` | apps/main.py:28-30 | a first borrow creates an entry holding exactly the amount |
| `Debts.BorrowTouchesOnlyBorrower` | apps/main.py:30 | a borrow leaves every other user's entry, and its presence or absence, as it was |
| `Debts.NegativeBorrowLowersDebt` | apps/main.py:27-30 | without a sign check a negative amount lowers the debt, below zero for a user without an entry |
| `Debts.BorrowsAccumulate` | apps/main.py:28-30 | after any sequence of borrows by one user, that user owes the old amount plus the sum of the amounts, and no other user's entry changed |
| `Debts.FreshDebtIsSumOfBorrows` | apps/main.py:28-30 | a user who had no entry owes exactly the sum of a non-empty sequence of borrowed amounts |
| `Debts.Total` | apps/main.py:47-50 | the total is present exactly when the user has an entry, and is then the stored debt |
| `Debts.InterestAt` | apps/main.py:39 | the interest at rate 0 is 0 and at rate 100 is the whole debt |
| `Debts.Interest` | apps/main.py:38-42 | the interest is present exactly when the total is, and is then the interest at the rate on the debt `/total` reports |
| `Debts.InterestAtFullRate` | apps/main.py:38-39 | the interest query at rate 100 answers exactly what the total query answers, "no debt" included |
| `Debts.Ledger.constructor` | apps/main.py:15 | the table starts empty |
| `Debts.Ledger.Borrow` | apps/main.py:28-30 | the in-place update leaves the table equal to `AfterBorrow` of the old table and returns the new total |
| `Handler.PrefixesExclusive` | apps/main.py:22-46 | no message starts with two of `$hello`, `/borrow`, `/interest`, `/total`, so at most one branch runs |
| `Handler.CommandOf` | apps/main.py:22-46 | each command is selected exactly when the text starts with its prefix |
| `Handler.NumericArgumentIsSecondWord` | apps/main.py:27 | there is no number when the text has fewer than two words; otherwise it is what the second word parses to |
| `Handler.BorrowOutcome` | apps/main.py:25-33 | a borrow without a number leaves the table unchanged and answers only with the usage reply; with a number it applies `AfterBorrow` and answers with the amount and the borrower's new total |
| `Handler.InterestOutcome` | apps/main.py:35-44 | the interest branch never changes the table; without a number it answers with the usage reply, otherwise with "no debt" for an author without an entry and with `InterestAt` of the stored debt for one with an entry |
| `Handler.TotalOutcome` | apps/main.py:46-50 | the total branch never changes the table and answers with the stored debt, or "no debt" when `Total` has none |
| `Handler.Step` | apps/main.py:17-50 | the bot's own messages change nothing and get no reply; at most one reply is sent; the table changes only for a `/borrow` with a number, and then only by adding it to the author's debt |
| `Handler.OnMessage` | apps/main.py:17-50 | the handler, running the four prefix tests in sequence and updating the ledger in place, sends the replies and leaves the table `Step` describes |
| `Handler.HandleBorrow` | apps/main.py:26-33 | the body of the `/borrow` test sends the reply and leaves the ledger holding the table `BorrowOutcome` describes |
| `Handler.HandleInterest` | apps/main.py:36-44 | the body of the `/interest` test sends the reply `InterestOutcome` describes |
| `Handler.HandleTotal` | apps/main.py:47-50 | the body of the `/total` test sends the reply `TotalOutcome` describes |
| `Handler.ReplayOwed` | apps/main.py:17-50 | after any run of messages a user owes the old amount plus the sum of their own well-formed `/borrow` amounts, and has an entry exactly when they had one or made such a borrow |
| `Handler.StepOwed` | apps/main.py:17-50 | one message is the author's own `/borrow` with a number, and then applies that borrow, or leaves what that user owes and whether they have an entry as it was |
| `Handler.MalformedArgumentChangesNothing` | apps/main.py:26-44 | a `/borrow` or `/interest` without a parsable second word leaves the table unchanged and only sends the usage reply |
| `Handler.InterestUsageBeforeNoDebt` | apps/main.py:36-44 | `/interest` parses the rate before looking the author up: a malformed rate gets the usage reply even without a debt, a good one gets "no debt" |
| `Handler.QueriesOnlyRead` | apps/main.py:35-50 | `/interest` and `/total` leave the table unchanged and, for an author with an entry, quote the stored debt or the interest on it |
| `Handler.LeadingWhitespaceIsNoCommand` | apps/main.py:22-46 | text starting with whitespace selects no command, changes nothing and gets no reply |
| `Handler.CommandIgnoresTail` | apps/main.py:22-46 | what follows a space does not change the command a message selects |
| `Handler.ArgumentIgnoresTail` | apps/main.py:27 | what follows the second word does not change the parsed argument |
| `Handler.SameCommandSameOutcome` | apps/main.py:17-50 | two messages that select the same command and parse to the same argument have the same outcome |
| `Handler.TrailingTextIgnored` | apps/main.py:25-37 | words after the second do not change a message's outcome |
| `Handler.BorrowByPrefix` | apps/main.py:25-30 | a first word that merely starts with `/borrow` is a borrow of whatever the second word parses to |
| `Handler.BorrowXIsBorrow` | apps/main.py:25-30 | `/borrowX 5` adds 5 to the author's debt |

## Left out

- The chat connection: the client, its intents, `client.run`, the token read with `dotenv`, and every `channel.send`. Replies are abstract values (`Handler.Reply`); their Japanese wording and formatting are not modelled.
- `server_thread` from the `server` module (a health-check web server); `server` is not part of this model.
- Python `float`: amounts and rates are exact `real`s, so rounding, `inf` and `nan` are not modelled. `float()` itself is the parameter `parse` of `Handler.NumericArgument`, `Handler.Step` and `Handler.OnMessage`; `None` stands for its ValueError. Which strings it accepts is left to that parameter.
- The int `0` that line 29 stores: line 30 adds the float amount to it before anything reads the entry, so a stored debt is always a float and the model's real 0 gives the same result.
- The comparison `message.author == client.user` compares user objects; the model compares user ids.
- Asynchronous scheduling: each message is handled to completion before the next. The sends are the only awaits, and each comes after its branch's table update.
