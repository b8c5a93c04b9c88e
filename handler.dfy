/** The message handler `on_message` of apps/main.py: it ignores the bot's
    own messages, recognises a command by the prefix of the message text,
    takes the command's argument from the message's second word, and
    updates or queries the debt table. Each reply is an abstract value; the
    wording and the sending over the chat connection are not modelled. */
module Handler {
  import opened Options
  import opened Text
  import opened Debts

  const HELLO: string := "$hello"
  const BORROW: string := "/borrow"
  const INTEREST: string := "/interest"
  const TOTAL: string := "/total"

  /** What the handler sends back to the channel. */
  datatype Reply =
    | Greeting                              // reply to `$hello`
    | Borrowed(amount: real, total: real)   // borrow recorded, with the new total
    | BorrowUsage                           // `/borrow` without a number
    | MonthlyInterest(interest: real)       // interest quoted on the current debt
    | InterestUsage                         // `/interest` without a number
    | TotalDebt(total: real)                // the current debt
    | NoDebt                                // the author has no entry

  /** The command a message's prefix selects. */
  datatype Command = GreetCommand | BorrowCommand | InterestCommand | TotalCommand | NoCommand

  /** A message as the handler sees it: its author and its text. */
  datatype Message = Message(author: UserId, content: string)

  /** What handling one message produces: the replies sent and the table. */
  datatype Outcome = Outcome(replies: seq<Reply>, debts: Table)

  /** No message starts with two of the four command prefixes: they differ
      in their first or second character. */
  lemma PrefixesExclusive(content: string)
    ensures StartsWith(content, HELLO) ==>
              !StartsWith(content, BORROW) && !StartsWith(content, INTEREST) && !StartsWith(content, TOTAL)
    ensures StartsWith(content, BORROW) ==> !StartsWith(content, INTEREST) && !StartsWith(content, TOTAL)
    ensures StartsWith(content, INTEREST) ==> !StartsWith(content, TOTAL)
  {
    if StartsWith(content, HELLO) {
      assert content[0] == '$';
    }
    if StartsWith(content, BORROW) {
      assert content[0] == '/' && content[1] == 'b';
    }
    if StartsWith(content, INTEREST) {
      assert content[0] == '/' && content[1] == 'i';
    }
    if StartsWith(content, TOTAL) {
      assert content[0] == '/' && content[1] == 't';
    }
  }

  /** The command prefixes hold no whitespace. */
  lemma PrefixesAreTokens()
    ensures IsToken(HELLO) && IsToken(BORROW) && IsToken(INTEREST) && IsToken(TOTAL)
  {
  }

  /** The command selected by prefix. The four prefixes exclude each other,
      so the handler's four independent prefix tests select at most one. */
  function CommandOf(content: string): (c: Command)
    ensures c == GreetCommand <==> StartsWith(content, HELLO)
    ensures c == BorrowCommand <==> StartsWith(content, BORROW)
    ensures c == InterestCommand <==> StartsWith(content, INTEREST)
    ensures c == TotalCommand <==> StartsWith(content, TOTAL)
  {
    PrefixesExclusive(content);
    if StartsWith(content, HELLO) then GreetCommand
    else if StartsWith(content, BORROW) then BorrowCommand
    else if StartsWith(content, INTEREST) then InterestCommand
    else if StartsWith(content, TOTAL) then TotalCommand
    else NoCommand
  }

  /** `float(content.split()[1])`, with None for the IndexError of a missing
      second word and for the ValueError of a word `parse` rejects. */
  function NumericArgument(content: string, parse: string -> Option<real>): (r: Option<real>)
  {
    match SecondWord(content)
    case None => None
    case Some(word) => parse(word)
  }

  /** The argument is the second word of the split message, parsed; a
      message of fewer than two words has none. */
  lemma NumericArgumentIsSecondWord(content: string, parse: string -> Option<real>)
    ensures |Split(content)| < 2 ==> NumericArgument(content, parse) == None
    ensures |Split(content)| >= 2 ==> NumericArgument(content, parse) == parse(Split(content)[1])
  {
  }

  /** The `/borrow` branch, given the parsed argument: the amount is added
      to the author's debt, or the usage reply is sent when there is no
      number to add. */
  function BorrowOutcome(debts: Table, author: UserId, amount: Option<real>): (o: Outcome)
    ensures amount.None? ==> o.debts == debts
    ensures amount.Some? ==> o.debts == AfterBorrow(debts, author, amount.value)
    ensures |o.replies| == 1
    ensures amount.None? <==> o.replies == [BorrowUsage]
    ensures amount.Some? ==> o.replies == [Borrowed(amount.value, o.debts[author])]
  {
    match amount
    case None => Outcome([BorrowUsage], debts)
    case Some(value) =>
      var after := AfterBorrow(debts, author, value);
      Outcome([Borrowed(value, after[author])], after)
  }

  /** The `/interest` branch, given the parsed argument: the rate is
      checked first, then the author's debt is looked up. */
  function InterestOutcome(debts: Table, author: UserId, rate: Option<real>): (o: Outcome)
    ensures o.debts == debts && |o.replies| == 1
    ensures rate.None? <==> o.replies == [InterestUsage]
    ensures rate.Some? && author !in debts ==> o.replies == [NoDebt]
    ensures rate.Some? && author in debts ==>
              o.replies == [MonthlyInterest(InterestAt(debts[author], rate.value))]
  {
    match rate
    case None => Outcome([InterestUsage], debts)
    case Some(r) =>
      match Interest(debts, author, r)
      case None => Outcome([NoDebt], debts)
      case Some(interest) => Outcome([MonthlyInterest(interest)], debts)
  }

  /** The `/total` branch: the author's debt, whatever follows the command. */
  function TotalOutcome(debts: Table, author: UserId): (o: Outcome)
    ensures o.debts == debts && |o.replies| == 1
    ensures Total(debts, author).None? ==> o.replies == [NoDebt]
    ensures Total(debts, author).Some? ==> o.replies == [TotalDebt(Total(debts, author).value)]
  {
    match Total(debts, author)
    case None => Outcome([NoDebt], debts)
    case Some(total) => Outcome([TotalDebt(total)], debts)
  }

  /** The reply and the new table for one message from `author`, where
      `bot` is the bot's own user. Only a `/borrow` with a number changes
      the table, and only by adding that number to the author's debt. */
  function Step(debts: Table, bot: UserId, author: UserId, content: string, parse: string -> Option<real>): (o: Outcome)
    ensures author == bot ==> o == Outcome([], debts)
    ensures |o.replies| <= 1
    ensures o.debts != debts ==>
              && author != bot
              && StartsWith(content, BORROW)
              && NumericArgument(content, parse).Some?
              && o.debts == AfterBorrow(debts, author, NumericArgument(content, parse).value)
  {
    if author == bot then Outcome([], debts)
    else
      match CommandOf(content)
      case GreetCommand => Outcome([Greeting], debts)
      case BorrowCommand => BorrowOutcome(debts, author, NumericArgument(content, parse))
      case InterestCommand => InterestOutcome(debts, author, NumericArgument(content, parse))
      case TotalCommand => TotalOutcome(debts, author)
      case NoCommand => Outcome([], debts)
  }

  /** `on_message`: the four prefix tests run one after another, as in
      apps/main.py, and the `/borrow` branch updates the ledger in place. */
  method OnMessage(ledger: Ledger, bot: UserId, author: UserId, content: string, parse: string -> Option<real>)
    returns (replies: seq<Reply>)
    modifies ledger
    ensures replies == Step(old(ledger.debts), bot, author, content, parse).replies
    ensures ledger.debts == Step(old(ledger.debts), bot, author, content, parse).debts
  {
    replies := [];
    if author == bot {
      return;
    }
    // `command` is never read: binding it brings CommandOf's contract, and
    // with it the exclusivity of the four prefixes, into the proof.
    ghost var command := CommandOf(content);
    if StartsWith(content, HELLO) {
      replies := replies + [Greeting];
    }
    if StartsWith(content, BORROW) {
      var reply := HandleBorrow(ledger, author, content, parse);
      replies := replies + [reply];
    }
    if StartsWith(content, INTEREST) {
      var reply := HandleInterest(ledger, author, content, parse);
      replies := replies + [reply];
    }
    if StartsWith(content, TOTAL) {
      var reply := HandleTotal(ledger, author);
      replies := replies + [reply];
    }
  }

  /** The body of the `/borrow` test: parse the amount, then add it to the
      author's debt in the ledger or answer with the usage text. */
  method HandleBorrow(ledger: Ledger, author: UserId, content: string, parse: string -> Option<real>)
    returns (reply: Reply)
    modifies ledger
    ensures [reply] == BorrowOutcome(old(ledger.debts), author, NumericArgument(content, parse)).replies
    ensures ledger.debts == BorrowOutcome(old(ledger.debts), author, NumericArgument(content, parse)).debts
  {
    var amount := NumericArgument(content, parse);
    if amount.None? {
      reply := BorrowUsage;
    } else {
      var total := ledger.Borrow(author, amount.value);
      reply := Borrowed(amount.value, total);
    }
  }

  /** The body of the `/interest` test: parse the rate, then quote the
      interest on the author's debt or report that there is none. */
  method HandleInterest(ledger: Ledger, author: UserId, content: string, parse: string -> Option<real>)
    returns (reply: Reply)
    ensures [reply] == InterestOutcome(ledger.debts, author, NumericArgument(content, parse)).replies
  {
    var rate := NumericArgument(content, parse);
    if rate.None? {
      reply := InterestUsage;
    } else if author in ledger.debts {
      reply := MonthlyInterest(InterestAt(ledger.debts[author], rate.value));
    } else {
      reply := NoDebt;
    }
  }

  /** The body of the `/total` test: the author's debt, or that there is none. */
  method HandleTotal(ledger: Ledger, author: UserId) returns (reply: Reply)
    ensures [reply] == TotalOutcome(ledger.debts, author).replies
  {
    if author in ledger.debts {
      reply := TotalDebt(ledger.debts[author]);
    } else {
      reply := NoDebt;
    }
  }

  /** The table after handling each message in turn. */
  function Replay(debts: Table, bot: UserId, messages: seq<Message>, parse: string -> Option<real>): Table {
    if messages == [] then debts
    else
      var last := messages[|messages| - 1];
      Step(Replay(debts, bot, messages[..|messages| - 1], parse), bot, last.author, last.content, parse).debts
  }

  /** The amounts of the `/borrow` messages with a number that `user`
      (other than the bot) sent, in order. */
  function BorrowedBy(bot: UserId, user: UserId, messages: seq<Message>, parse: string -> Option<real>): seq<real> {
    if messages == [] then []
    else
      var earlier := BorrowedBy(bot, user, messages[..|messages| - 1], parse);
      var last := messages[|messages| - 1];
      var amount := NumericArgument(last.content, parse);
      if last.author == user && user != bot && StartsWith(last.content, BORROW) && amount.Some?
      then earlier + [amount.value]
      else earlier
  }

  /** After any run of messages, a user owes what they owed before plus the
      sum of the amounts of their own well-formed `/borrow` messages; the
      user has an entry exactly when they had one before or made such a
      borrow. Queries, malformed borrows, other users' messages and the
      bot's own messages change nothing for them. */
  lemma {:induction false} ReplayOwed(debts: Table, bot: UserId, user: UserId, messages: seq<Message>, parse: string -> Option<real>)
    ensures Owed(Replay(debts, bot, messages, parse), user) == Owed(debts, user) + Sum(BorrowedBy(bot, user, messages, parse))
    ensures user in Replay(debts, bot, messages, parse) <==> user in debts || BorrowedBy(bot, user, messages, parse) != []
  {
    if messages != [] {
      var earlier := messages[..|messages| - 1];
      var last := messages[|messages| - 1];
      ReplayOwed(debts, bot, user, earlier, parse);
      var amounts := BorrowedBy(bot, user, earlier, parse);
      StepOwed(Replay(debts, bot, earlier, parse), bot, last.author, last.content, parse, user);
      var amount := NumericArgument(last.content, parse);
      if last.author == user && user != bot && StartsWith(last.content, BORROW) && amount.Some? {
        assert (amounts + [amount.value])[..|amounts|] == amounts;
      }
    }
  }

  /** One message changes what `user` owes only when it is their own
      `/borrow` with a number, and then it is that borrow; any other message
      leaves the user's debt and whether they have an entry as they were. */
  lemma StepOwed(debts: Table, bot: UserId, author: UserId, content: string, parse: string -> Option<real>, user: UserId)
    ensures author == user && user != bot && StartsWith(content, BORROW) && NumericArgument(content, parse).Some? ==>
              Step(debts, bot, author, content, parse).debts == AfterBorrow(debts, user, NumericArgument(content, parse).value)
    ensures !(author == user && user != bot && StartsWith(content, BORROW) && NumericArgument(content, parse).Some?) ==>
              && Owed(Step(debts, bot, author, content, parse).debts, user) == Owed(debts, user)
              && (user in Step(debts, bot, author, content, parse).debts <==> user in debts)
  {
    var o := Step(debts, bot, author, content, parse);
    var amount := NumericArgument(content, parse);
    if author == user && user != bot && StartsWith(content, BORROW) && amount.Some? {
      assert CommandOf(content) == BorrowCommand;
    } else if o.debts != debts {
      assert author != user;
      BorrowTouchesOnlyBorrower(debts, author, amount.value, user);
    }
  }

  /** A `/borrow` or `/interest` whose argument is missing or not a number
      leaves the table as it was and only answers with the usage reply. */
  lemma MalformedArgumentChangesNothing(debts: Table, bot: UserId, author: UserId, content: string, parse: string -> Option<real>)
    requires author != bot
    requires StartsWith(content, BORROW) || StartsWith(content, INTEREST)
    requires NumericArgument(content, parse) == None
    ensures Step(debts, bot, author, content, parse)
         == Outcome([if StartsWith(content, BORROW) then BorrowUsage else InterestUsage], debts)
  {
  }

  /** `/interest` parses the rate before it looks the author up: with a
      malformed rate the reply is the usage message even without a debt. */
  lemma InterestUsageBeforeNoDebt(debts: Table, bot: UserId, author: UserId, content: string, parse: string -> Option<real>)
    requires author != bot && author !in debts
    requires StartsWith(content, INTEREST)
    ensures Step(debts, bot, author, content, parse).replies
         == (if NumericArgument(content, parse).None? then [InterestUsage] else [NoDebt])
  {
  }

  /** `/interest` and `/total` only read: the table is unchanged, no entry
      is created for an author without one, and with an entry the replies
      quote the stored debt and the interest on it. */
  lemma QueriesOnlyRead(debts: Table, bot: UserId, author: UserId, content: string, parse: string -> Option<real>)
    requires author != bot
    requires StartsWith(content, INTEREST) || StartsWith(content, TOTAL)
    ensures Step(debts, bot, author, content, parse).debts == debts
    ensures StartsWith(content, TOTAL) && author in debts ==>
              Step(debts, bot, author, content, parse).replies == [TotalDebt(debts[author])]
    ensures StartsWith(content, INTEREST) && author in debts && NumericArgument(content, parse).Some? ==>
              Step(debts, bot, author, content, parse).replies
              == [MonthlyInterest(InterestAt(debts[author], NumericArgument(content, parse).value))]
  {
  }

  /** The prefix test looks at the raw text, not at its first word: text
      that starts with whitespace selects no command and changes nothing. */
  lemma LeadingWhitespaceIsNoCommand(debts: Table, bot: UserId, author: UserId, content: string, parse: string -> Option<real>)
    requires content != [] && IsSpace(content[0])
    ensures Step(debts, bot, author, content, parse) == Outcome([], debts)
  {
    assert CommandOf(content) == NoCommand;
  }

  /** The command a message selects does not depend on what follows a
      space in it, since no prefix contains a space. */
  lemma CommandIgnoresTail(content: string, tail: string)
    ensures CommandOf(content + " " + tail) == CommandOf(content)
  {
    PrefixesAreTokens();
    StartsWithBeforeSpace(content, tail, HELLO);
    StartsWithBeforeSpace(content, tail, BORROW);
    StartsWithBeforeSpace(content, tail, INTEREST);
    StartsWithBeforeSpace(content, tail, TOTAL);
  }

  /** Words after the second are ignored: appending text after a space to
      a message that already has two words does not change its outcome. */
  lemma TrailingTextIgnored(debts: Table, bot: UserId, author: UserId, content: string, tail: string, parse: string -> Option<real>)
    requires |Split(content)| >= 2
    ensures Step(debts, bot, author, content + " " + tail, parse) == Step(debts, bot, author, content, parse)
  {
    CommandIgnoresTail(content, tail);
    ArgumentIgnoresTail(content, tail, parse);
    SameCommandSameOutcome(debts, bot, author, content + " " + tail, content, parse);
  }

  lemma ArgumentIgnoresTail(content: string, tail: string, parse: string -> Option<real>)
    requires |Split(content)| >= 2
    ensures NumericArgument(content + " " + tail, parse) == NumericArgument(content, parse)
  {
    SecondWordIgnoresTail(content, tail);
  }

  /** A message's outcome depends on its text only through the command it
      selects and the number its second word parses to. */
  lemma SameCommandSameOutcome(debts: Table, bot: UserId, author: UserId, content1: string, content2: string, parse: string -> Option<real>)
    requires CommandOf(content1) == CommandOf(content2)
    requires NumericArgument(content1, parse) == NumericArgument(content2, parse)
    ensures Step(debts, bot, author, content1, parse) == Step(debts, bot, author, content2, parse)
  {
  }

  /** Dispatch is by prefix: a first word that merely starts with
      `/borrow` is a borrow, and its amount is the second word. */
  lemma BorrowByPrefix(debts: Table, bot: UserId, author: UserId, command: string, amountText: string, parse: string -> Option<real>)
    requires author != bot
    requires IsToken(command) && IsToken(amountText) && StartsWith(command, BORROW)
    ensures Step(debts, bot, author, command + " " + amountText, parse).debts
         == (match parse(amountText)
             case None => debts
             case Some(amount) => AfterBorrow(debts, author, amount))
  {
    var content := command + " " + amountText;
    CommandIgnoresTail(command, amountText);
    assert Join([command, amountText]) == content;
    SecondWordOfJoin([command, amountText]);
    assert NumericArgument(content, parse) == parse(amountText);
  }

  /** `/borrowX 5` is handled as a borrow of whatever `5` parses to. */
  lemma BorrowXIsBorrow(debts: Table, bot: UserId, author: UserId, parse: string -> Option<real>)
    requires author != bot
    requires parse("5") == Some(5.0)
    ensures Step(debts, bot, author, "/borrowX 5", parse).debts == AfterBorrow(debts, author, 5.0)
  {
    assert "/borrowX" + " " + "5" == "/borrowX 5";
    assert IsToken("/borrowX") && IsToken("5") && StartsWith("/borrowX", BORROW) by {
      PrefixesAreTokens();
    }
    BorrowByPrefix(debts, bot, author, "/borrowX", "5", parse);
  }
}
