/** The bot's SQLite store as an object over in-memory tables. Each table is
    a sequence of rows in rowid order, and each AUTOINCREMENT table keeps the
    id its next row will get. Every method states the whole new state. */
module Ledger {
  import opened Common
  import opened Decimal
  import opened LedgerRows

  /** The message of the `ValueError` raised when a conversion has no price. */
  const UsdPriceRequired := "usd_price must be provided for currency conversion"

  /** All of the store's state, to say "nothing else changes" in one line. */
  datatype Tables = Tables(users: seq<User>, settings: seq<Settings>, cards: seq<Card>,
                           categories: seq<Category>, transactions: seq<Transaction>, plans: seq<Plan>,
                           nextCardId: int, nextCategoryId: int, nextTransactionId: int, nextPlanId: int)

  /** The dictionary `get_balance_report` returns. */
  datatype Report = Report(income: real, expense: real, balance: real)

  /** The conversion's first loop: the UPDATE of each of the user's rows in
      the source currency. */
  method ConvertRows(rows: seq<Transaction>, userId: int, from: string, to: string, usd: real)
    returns (converted: seq<Transaction>)
    ensures converted == ConvertAll(rows, userId, from, to, usd)
  {
    converted := [];
    var i := 0;
    while i < |rows|
      invariant 0 <= i <= |rows|
      invariant |converted| == i
      invariant forall m :: 0 <= m < i ==> converted[m] == ConvertRow(rows[m], userId, from, to, usd)
    {
      converted := converted + [ConvertRow(rows[i], userId, from, to, usd)];
      i := i + 1;
    }
  }

  /** The conversion's inner loop: Σ of +amount for 'income' and −amount for
      any other type over the user's transactions on the card. */
  method CardTotal(rows: seq<Transaction>, cardId: int, userId: int) returns (total: real)
    ensures total == SignedSum(rows, cardId, userId, AllDates)
  {
    total := 0.0;
    var j := 0;
    while j < |rows|
      invariant 0 <= j <= |rows|
      invariant total == SignedSum(rows[..j], cardId, userId, AllDates)
    {
      var t := rows[j];
      if t.cardSourceId == Some(cardId) && t.userId == userId {
        if t.kind == "income" {
          total := total + t.amount;
        } else {
          total := total - t.amount;
        }
      }
      SignedSumAppend(rows[..j], t, cardId, userId, AllDates);
      assert rows[..j + 1] == rows[..j] + [t];
      j := j + 1;
    }
    assert rows[..|rows|] == rows;
  }

  /** The conversion's outer loop: each of the user's cards gets its total
      rounded to 5 places (dollar) or to a whole number (otherwise). */
  method RebalanceCards(table: seq<Card>, rows: seq<Transaction>, userId: int, to: string) returns (newCards: seq<Card>)
    ensures |newCards| == |table|
    ensures forall k :: 0 <= k < |table| ==> newCards[k] == Rebalanced(table[k], rows, userId, to)
  {
    newCards := [];
    var k := 0;
    while k < |table|
      invariant 0 <= k <= |table|
      invariant |newCards| == k
      invariant forall m :: 0 <= m < k ==> newCards[m] == Rebalanced(table[m], rows, userId, to)
    {
      var card := table[k];
      if card.userId == userId {
        var total := CardTotal(rows, card.id, userId);
        var balance := if to == "dollar" then Quantize(total, Scale5) else RoundHalfEven(total) as real;
        card := card.(balance := balance);
      }
      newCards := newCards + [card];
      k := k + 1;
    }
  }

  /** The per-card loop of `get_card_source_balances_in_range`: one range
      row per card, in card order. */
  method RangeRows(mine: seq<Card>, ts: seq<Transaction>, userId: int, w: Window) returns (rows: seq<CardRange>)
    ensures |rows| == |mine|
    ensures forall k :: 0 <= k < |rows| ==> rows[k] == RangeRow(mine[k], ts, userId, w)
  {
    rows := [];
    var k := 0;
    while k < |mine|
      invariant 0 <= k <= |mine|
      invariant |rows| == k
      invariant forall m :: 0 <= m < k ==> rows[m] == RangeRow(mine[m], ts, userId, w)
    {
      rows := rows + [RangeRow(mine[k], ts, userId, w)];
      k := k + 1;
    }
  }

  class Database {
    var users: seq<User>
    var settings: seq<Settings>
    var cards: seq<Card>
    var categories: seq<Category>
    var transactions: seq<Transaction>
    var plans: seq<Plan>
    var nextCardId: int
    var nextCategoryId: int
    var nextTransactionId: int
    var nextPlanId: int

    ghost function State(): Tables
      reads this
    {
      Tables(users, settings, cards, categories, transactions, plans,
             nextCardId, nextCategoryId, nextTransactionId, nextPlanId)
    }

    /** The primary keys: one users row and one settings row per user, and
        positive ids in increasing order below the next AUTOINCREMENT id. */
    ghost predicate Valid()
      reads this
    {
      && UniqueUsers(users) && UniqueSettings(settings)
      && nextCardId > 0 && nextCategoryId > 0 && nextTransactionId > 0 && nextPlanId > 0
      && KeysBelow(cards, CardId, nextCardId) && IncreasingBy(cards, CardId)
      && KeysBelow(categories, CategoryId, nextCategoryId) && IncreasingBy(categories, CategoryId)
      && KeysBelow(transactions, TransactionId, nextTransactionId) && IncreasingBy(transactions, TransactionId)
      && KeysBelow(plans, PlanId, nextPlanId) && IncreasingBy(plans, PlanId)
    }

    /** A fresh database: every table empty, every id sequence at 1. */
    constructor()
      ensures Valid()
      ensures State() == Tables([], [], [], [], [], [], 1, 1, 1, 1)
    {
      users, settings, cards, categories, transactions, plans := [], [], [], [], [], [];
      nextCardId, nextCategoryId, nextTransactionId, nextPlanId := 1, 1, 1, 1;
    }

    // ------------------------------------------------------------ users

    /** `INSERT OR IGNORE`: a known user is left as is; a new one starts
        with language 'fa' and no menu message. */
    method AddUser(userId: int, username: Option<string>, fullName: string)
      requires Valid()
      modifies this
      ensures Valid()
      ensures Find(old(users), UserKey, userId).Some? ==> State() == old(State())
      ensures Find(old(users), UserKey, userId).None? ==>
        State() == old(State()).(users := old(users) + [User(userId, username, fullName, "fa", None)])
    {
      if Find(users, UserKey, userId).None? {
        users := users + [User(userId, username, fullName, "fa", None)];
      }
    }

    /** The user's language, or 'fa' for an unknown user. */
    method GetUserLanguage(userId: int) returns (language: string)
      ensures Find(users, UserKey, userId).None? ==> language == "fa"
      ensures Find(users, UserKey, userId).Some? ==>
        exists k :: 0 <= k < |users| && users[k].userId == userId && users[k].language == language
    {
      match Find(users, UserKey, userId)
      case None => language := "fa";
      case Some(k) => language := users[k].language;
    }

    /** `UPDATE users SET language`: no effect for an unknown user. */
    method SetUserLanguage(userId: int, language: string)
      requires Valid()
      modifies this
      ensures Valid()
      ensures |users| == |old(users)|
      ensures forall k :: 0 <= k < |users| ==>
        users[k] == if old(users)[k].userId == userId then old(users)[k].(language := language) else old(users)[k]
      ensures State() == old(State()).(users := users)
    {
      var us := users;
      users := seq(|us|, k requires 0 <= k < |us| =>
        if us[k].userId == userId then us[k].(language := language) else us[k]);
    }

    /** The stored menu message id; a stored 0 reads as None, like a missing one. */
    method GetLastMenuMessageId(userId: int) returns (id: Option<int>)
      ensures id.Some? ==> id.value != 0
      ensures match Find(users, UserKey, userId)
              case None => id.None?
              case Some(k) => id == if users[k].lastMenuMessageId == Some(0) then None else users[k].lastMenuMessageId
    {
      match Find(users, UserKey, userId)
      case None => id := None;
      case Some(k) =>
        var stored := users[k].lastMenuMessageId;
        id := if stored.Some? && stored.value != 0 then stored else None;
    }

    method SetLastMenuMessageId(userId: int, messageId: Option<int>)
      requires Valid()
      modifies this
      ensures Valid()
      ensures |users| == |old(users)|
      ensures forall k :: 0 <= k < |users| ==>
        users[k] == if old(users)[k].userId == userId then old(users)[k].(lastMenuMessageId := messageId) else old(users)[k]
      ensures State() == old(State()).(users := users)
    {
      var us := users;
      users := seq(|us|, k requires 0 <= k < |us| =>
        if us[k].userId == userId then us[k].(lastMenuMessageId := messageId) else us[k]);
    }

    // --------------------------------------------------------- settings

    /** The user's settings; a user without a row gets one with the column
        defaults ('toman', 'jalali'), which are returned. */
    method GetUserSettings(userId: int) returns (currency: string, calendarFormat: string)
      requires Valid()
      modifies this
      ensures Valid()
      ensures Find(old(settings), SettingsKey, userId).None? ==>
        currency == "toman" && calendarFormat == "jalali"
        && State() == old(State()).(settings := old(settings) + [Settings(userId, "toman", "jalali")])
      ensures Find(old(settings), SettingsKey, userId).Some? ==>
        Settings(userId, currency, calendarFormat) == old(settings)[Find(old(settings), SettingsKey, userId).value]
        && State() == old(State())
    {
      match Find(settings, SettingsKey, userId)
      case None =>
        settings := settings + [Settings(userId, "toman", "jalali")];
        currency, calendarFormat := "toman", "jalali";
      case Some(k) =>
        currency, calendarFormat := settings[k].currency, settings[k].calendarFormat;
    }

    /** Changes the currency column only (see `SetCurrencyTouchesOneColumn`). */
    method SetUserCurrency(userId: int, currency: string)
      requires Valid()
      modifies this
      ensures Valid()
      ensures State() == old(State()).(settings := UpsertCurrency(old(settings), userId, currency))
    {
      SetCurrencyTouchesOneColumn(settings, userId, currency);
      settings := UpsertCurrency(settings, userId, currency);
    }

    /** Changes the calendar column only (see `SetCalendarTouchesOneColumn`). */
    method SetUserCalendarFormat(userId: int, calendarFormat: string)
      requires Valid()
      modifies this
      ensures Valid()
      ensures State() == old(State()).(settings := UpsertCalendar(old(settings), userId, calendarFormat))
    {
      SetCalendarTouchesOneColumn(settings, userId, calendarFormat);
      settings := UpsertCalendar(settings, userId, calendarFormat);
    }

    // ------------------------------------------------------------ cards

    /** Inserts a card with balance 0 and returns its new id. */
    method AddCardSource(userId: int, name: string, cardNumber: Option<string>) returns (id: int)
      requires Valid()
      modifies this
      ensures Valid()
      ensures id == old(nextCardId)
      ensures forall k :: 0 <= k < |old(cards)| ==> old(cards)[k].id != id
      ensures State() == old(State()).(cards := old(cards) + [Card(id, userId, name, cardNumber, 0.0)],
                                       nextCardId := id + 1)
    {
      id := nextCardId;
      AppendKeepsKeys(cards, Card(id, userId, name, cardNumber, 0.0), CardId, nextCardId);
      cards := cards + [Card(id, userId, name, cardNumber, 0.0)];
      nextCardId := nextCardId + 1;
    }

    /** The user's cards. */
    method GetCardsSources(userId: int) returns (rows: seq<Card>)
      ensures forall c :: c in rows <==> c in cards && c.userId == userId
    {
      rows := Select(cards, CardOwner, userId);
    }

    /** The card with this id, or None. */
    method GetCardSource(cardSourceId: int) returns (card: Option<Card>)
      ensures card.Some? ==> card.value in cards && card.value.id == cardSourceId
      ensures card.None? ==> forall k :: 0 <= k < |cards| ==> cards[k].id != cardSourceId
    {
      match Find(cards, CardId, cardSourceId)
      case None => card := None;
      case Some(k) => card := Some(cards[k]);
    }

    /** Sets the name and the number of the card, each only when given. */
    method UpdateCardSource(cardSourceId: int, name: Option<string>, cardNumber: Option<string>)
      requires Valid()
      modifies this
      ensures Valid()
      ensures |cards| == |old(cards)|
      ensures forall k :: 0 <= k < |cards| ==>
        cards[k] == if old(cards)[k].id != cardSourceId then old(cards)[k]
                    else old(cards)[k].(name := if name.Some? then name.value else old(cards)[k].name,
                                        cardNumber := if cardNumber.Some? then cardNumber else old(cards)[k].cardNumber)
      ensures State() == old(State()).(cards := cards)
    {
      if name.Some? {
        var cs := cards;
        cs := seq(|cs|, k requires 0 <= k < |cs| =>
          if cs[k].id == cardSourceId then cs[k].(name := name.value) else cs[k]);
        SameKeysKeepsKeys(cards, cs, CardId, nextCardId);
        cards := cs;
      }
      if cardNumber.Some? {
        var cs := cards;
        cs := seq(|cs|, k requires 0 <= k < |cs| =>
          if cs[k].id == cardSourceId then cs[k].(cardNumber := cardNumber) else cs[k]);
        SameKeysKeepsKeys(cards, cs, CardId, nextCardId);
        cards := cs;
      }
    }

    /** Deletes the card; transactions that name it keep the dangling id. */
    method DeleteCardSource(cardSourceId: int)
      requires Valid()
      modifies this
      ensures Valid()
      ensures State() == old(State()).(cards := Delete(old(cards), CardId, cardSourceId))
    {
      DeleteKeepsIncreasing(cards, CardId, cardSourceId, CardId);
      DeleteKeepsKeysBelow(cards, CardId, cardSourceId, CardId, nextCardId);
      cards := Delete(cards, CardId, cardSourceId);
    }

    /** 'income' adds the amount to the card's balance, any other type
        subtracts it; no other card changes. */
    method UpdateCardBalance(cardSourceId: int, amount: real, kind: string)
      requires Valid()
      modifies this
      ensures Valid()
      ensures |cards| == |old(cards)|
      ensures forall k :: 0 <= k < |cards| ==>
        cards[k] == if old(cards)[k].id != cardSourceId then old(cards)[k]
                    else old(cards)[k].(balance := if kind == "income" then old(cards)[k].balance + amount
                                                   else old(cards)[k].balance - amount)
      ensures State() == old(State()).(cards := UpdateBalance(old(cards), cardSourceId, amount, kind))
    {
      SameKeysKeepsKeys(cards, UpdateBalance(cards, cardSourceId, amount, kind), CardId, nextCardId);
      cards := UpdateBalance(cards, cardSourceId, amount, kind);
    }

    // ----------------------------------------------------- transactions

    /** Appends one transaction row and, when a card is given, moves that
        card's balance; every user's balances stay in step with the ledger
        as long as the card belongs to the transaction's user. */
    method AddTransaction(userId: int, amount: real, currency: string, kind: string, category: string,
                          cardSourceId: Option<int>, date: string, note: Option<string>)
      requires Valid()
      modifies this
      ensures Valid()
      ensures var t := Transaction(old(nextTransactionId), userId, amount, currency, kind, category,
                                   cardSourceId, date, note);
              State() == old(State()).(transactions := old(transactions) + [t],
                                       cards := CardsAfterAdd(old(cards), t),
                                       nextTransactionId := old(nextTransactionId) + 1)
      ensures cardSourceId.None? ==> cards == old(cards)
      ensures forall u :: old(BalancesMatch(cards, transactions, u)) && CardBelongsTo(old(cards), cardSourceId, userId)
                          ==> BalancesMatch(cards, transactions, u)
    {
      var t := Transaction(nextTransactionId, userId, amount, currency, kind, category, cardSourceId, date, note);
      AppendKeepsKeys(transactions, t, TransactionId, nextTransactionId);
      transactions := transactions + [t];
      nextTransactionId := nextTransactionId + 1;
      if cardSourceId.Some? {
        UpdateCardBalance(cardSourceId.value, amount, kind);
      }
      forall u | old(BalancesMatch(cards, transactions, u)) && CardBelongsTo(old(cards), cardSourceId, userId)
        ensures BalancesMatch(cards, transactions, u)
      {
        AddTransactionKeepsBalances(old(cards), old(transactions), t, u);
      }
    }

    /** Converts the user's amounts from one currency to the other at the
        given price, then recomputes each of the user's card balances as the
        rounded signed sum of the user's transactions on it. */
    method ConvertUserCurrency(userId: int, from: string, to: string, usd: Option<real>) returns (error: Option<string>)
      requires Valid()
      modifies this
      ensures Valid()
      ensures from == to ==> error.None? && State() == old(State())
      ensures from != to && usd.None? ==> error == Some(UsdPriceRequired) && State() == old(State())
      ensures from != to && usd.Some? ==>
        && error.None?
        && transactions == ConvertAll(old(transactions), userId, from, to, usd.value)
        && |cards| == |old(cards)|
        && (forall k :: 0 <= k < |cards| ==> cards[k] == Rebalanced(old(cards)[k], transactions, userId, to))
        && State() == old(State()).(transactions := transactions, cards := cards)
      ensures from != to && usd.Some? && to == "toman"
              && (forall i :: 0 <= i < |transactions| && transactions[i].userId == userId ==> Whole(transactions[i].amount))
              ==> BalancesMatch(cards, transactions, userId)
    {
      if from == to {
        return None;
      }
      if usd.None? {
        return Some(UsdPriceRequired);
      }
      error := None;
      var price := usd.value;
      var converted := ConvertRows(transactions, userId, from, to, price);
      var newCards := RebalanceCards(cards, converted, userId, to);
      SameKeysKeepsKeys(transactions, converted, TransactionId, nextTransactionId);
      SameKeysKeepsKeys(cards, newCards, CardId, nextCardId);
      transactions := converted;
      cards := newCards;

      if to == "toman" && forall m :: 0 <= m < |converted| && converted[m].userId == userId ==> Whole(converted[m].amount) {
        TomanRebalanceIsExact(old(cards), converted, userId);
        assert newCards == seq(|old(cards)|, k requires 0 <= k < |old(cards)| => Rebalanced(old(cards)[k], converted, userId, "toman"));
      }
    }

    // ---------------------------------------------------------- reports

    /** Income and expense sums of the user within [start, end], and their
        difference; when those are the only types used it is the user's net. */
    method GetBalanceReport(userId: int, start: string, end: string) returns (report: Report)
      ensures report.income == KindSum(transactions, userId, Between(start, end), "income")
      ensures report.expense == KindSum(transactions, userId, Between(start, end), "expense")
      ensures report.balance == report.income - report.expense
      ensures (forall i :: 0 <= i < |transactions| && transactions[i].userId == userId
                           && InWindow(transactions[i].date, Between(start, end))
                           ==> transactions[i].kind == "income" || transactions[i].kind == "expense")
              ==> report.balance == UserNet(transactions, userId, Between(start, end))
    {
      var w := Between(start, end);
      var income := KindSum(transactions, userId, w, "income");
      var expense := KindSum(transactions, userId, w, "expense");
      if forall i :: 0 <= i < |transactions| && transactions[i].userId == userId && InWindow(transactions[i].date, w)
                     ==> transactions[i].kind == "income" || transactions[i].kind == "expense" {
        ReportBalanceIsNet(transactions, userId, w);
      }
      report := Report(income, expense, income - expense);
    }

    /** For each of the user's cards: its net change within [start, end],
        its current balance as the end balance, and start = end − net. */
    method GetCardSourceBalancesInRange(userId: int, start: string, end: string) returns (rows: seq<CardRange>)
      ensures var mine := Select(cards, CardOwner, userId);
              && |rows| == |mine|
              && forall k :: 0 <= k < |rows| ==>
                   && rows[k].id == mine[k].id && rows[k].endBalance == mine[k].balance
                   && rows[k].name == mine[k].name && rows[k].cardNumber == mine[k].cardNumber
                   && rows[k].netChange == SignedSum(transactions, mine[k].id, userId, Between(start, end))
                   && rows[k].startBalance + rows[k].netChange == rows[k].endBalance
    {
      var mine := Select(cards, CardOwner, userId);
      var w := Between(start, end);
      rows := RangeRows(mine, transactions, userId, w);
      forall k | 0 <= k < |rows|
        ensures rows[k].id == mine[k].id && rows[k].endBalance == mine[k].balance
        ensures rows[k].name == mine[k].name && rows[k].cardNumber == mine[k].cardNumber
        ensures rows[k].netChange == SignedSum(transactions, mine[k].id, userId, w)
        ensures rows[k].startBalance + rows[k].netChange == rows[k].endBalance
      {
        var r := RangeRow(mine[k], transactions, userId, w);
        assert rows[k] == r;
      }
    }

    // ------------------------------------------------------------ plans

    method AddPlan(userId: int, title: string, date: string, time: Option<string>)
      requires Valid()
      modifies this
      ensures Valid()
      ensures State() == old(State()).(plans := old(plans) + [Plan(old(nextPlanId), userId, title, date, time, false)],
                                       nextPlanId := old(nextPlanId) + 1)
    {
      AppendKeepsKeys(plans, Plan(nextPlanId, userId, title, date, time, false), PlanId, nextPlanId);
      plans := plans + [Plan(nextPlanId, userId, title, date, time, false)];
      nextPlanId := nextPlanId + 1;
    }

    /** The user's plans, filtered by date, else by range, else not at all. */
    method GetPlans(userId: int, date: Option<string>, start: Option<string>, end: Option<string>) returns (rows: seq<Plan>)
      ensures forall p :: p in rows <==> p in plans && p.userId == userId && PlanDateMatches(p, date, start, end)
    {
      rows := PlansOf(plans, userId, date, start, end);
      forall p | p in plans && p.userId == userId && PlanDateMatches(p, date, start, end) ensures p in rows {
        var k :| 0 <= k < |plans| && plans[k] == p;
      }
      forall p | p in rows ensures p.userId == userId && PlanDateMatches(p, date, start, end) {
        var k :| 0 <= k < |rows| && rows[k] == p;
      }
    }

    method MarkPlanDone(planId: int)
      requires Valid()
      modifies this
      ensures Valid()
      ensures |plans| == |old(plans)|
      ensures forall k :: 0 <= k < |plans| ==> plans[k].isDone == (old(plans)[k].isDone || old(plans)[k].id == planId)
      ensures State() == old(State()).(plans := MarkDone(old(plans), planId))
    {
      SameKeysKeepsKeys(plans, MarkDone(plans, planId), PlanId, nextPlanId);
      plans := MarkDone(plans, planId);
    }

    method DeletePlan(planId: int)
      requires Valid()
      modifies this
      ensures Valid()
      ensures State() == old(State()).(plans := Delete(old(plans), PlanId, planId))
    {
      DeleteKeepsIncreasing(plans, PlanId, planId, PlanId);
      DeleteKeepsKeysBelow(plans, PlanId, planId, PlanId, nextPlanId);
      plans := Delete(plans, PlanId, planId);
    }

    // ------------------------------------------------------- categories

    method GetCategories(userId: int, kind: Option<string>) returns (names: seq<string>)
      ensures forall n :: n in names <==> HasListed(categories, userId, kind, n)
    {
      names := CategoryNames(categories, userId, kind);
    }

    method AddCategory(userId: int, name: string, kind: string)
      requires Valid()
      modifies this
      ensures Valid()
      ensures State() == old(State()).(categories := old(categories) + [Category(old(nextCategoryId), userId, name, kind)],
                                       nextCategoryId := old(nextCategoryId) + 1)
    {
      AppendKeepsKeys(categories, Category(nextCategoryId, userId, name, kind), CategoryId, nextCategoryId);
      categories := categories + [Category(nextCategoryId, userId, name, kind)];
      nextCategoryId := nextCategoryId + 1;
    }

    /** Renames every matching row; reports whether any row matched. */
    method UpdateCategory(userId: int, oldName: string, newName: string, kind: string) returns (changed: bool)
      requires Valid()
      modifies this
      ensures Valid()
      ensures changed <==> exists k :: 0 <= k < |old(categories)| && CategoryMatches(old(categories)[k], userId, oldName, kind)
      ensures State() == old(State()).(categories := RenameCategories(old(categories), userId, oldName, newName, kind))
    {
      changed := AnyCategoryMatches(categories, userId, oldName, kind);
      SameKeysKeepsKeys(categories, RenameCategories(categories, userId, oldName, newName, kind), CategoryId, nextCategoryId);
      categories := RenameCategories(categories, userId, oldName, newName, kind);
    }

    /** Deletes every matching row; reports whether any row matched. */
    method DeleteCategory(userId: int, name: string, kind: string) returns (deleted: bool)
      requires Valid()
      modifies this
      ensures Valid()
      ensures deleted <==> exists k :: 0 <= k < |old(categories)| && CategoryMatches(old(categories)[k], userId, name, kind)
      ensures State() == old(State()).(categories := DeleteCategories(old(categories), userId, name, kind))
    {
      deleted := AnyCategoryMatches(categories, userId, name, kind);
      DeleteCategoriesKeepsIncreasing(categories, userId, name, kind);
      var rest := DeleteCategories(categories, userId, name, kind);
      forall i | 0 <= i < |rest| ensures 0 < rest[i].id < nextCategoryId {
        var j :| 0 <= j < |categories| && categories[j] == rest[i];
      }
      categories := rest;
    }

    // ----------------------------------------------------------- resets

    /** Zeroes the user's card balances and deletes the user's transactions
        and plans. */
    method ClearUserData(userId: int)
      requires Valid()
      modifies this
      ensures Valid()
      ensures State() == old(State()).(cards := ZeroBalances(old(cards), userId),
                                       transactions := Delete(old(transactions), TransactionOwner, userId),
                                       plans := Delete(old(plans), PlanOwner, userId))
      ensures BalancesMatch(cards, transactions, userId)
      ensures forall u :: u != userId && old(BalancesMatch(cards, transactions, u)) ==> BalancesMatch(cards, transactions, u)
    {
      ClearFinancialData(userId);
      ClearPlanningData(userId);
    }

    /** Zeroes the user's card balances and deletes the user's transactions. */
    method ClearFinancialData(userId: int)
      requires Valid()
      modifies this
      ensures Valid()
      ensures State() == old(State()).(cards := ZeroBalances(old(cards), userId),
                                       transactions := Delete(old(transactions), TransactionOwner, userId))
      ensures BalancesMatch(cards, transactions, userId)
      ensures forall u :: u != userId && old(BalancesMatch(cards, transactions, u)) ==> BalancesMatch(cards, transactions, u)
    {
      ClearKeepsBalances(cards, transactions, userId, userId);
      forall u | u != userId && BalancesMatch(cards, transactions, u)
        ensures BalancesMatch(ZeroBalances(cards, userId), Delete(transactions, TransactionOwner, userId), u)
      {
        ClearKeepsBalances(cards, transactions, userId, u);
      }
      SameKeysKeepsKeys(cards, ZeroBalances(cards, userId), CardId, nextCardId);
      DeleteKeepsIncreasing(transactions, TransactionOwner, userId, TransactionId);
      DeleteKeepsKeysBelow(transactions, TransactionOwner, userId, TransactionId, nextTransactionId);
      cards := ZeroBalances(cards, userId);
      transactions := Delete(transactions, TransactionOwner, userId);
    }

    /** Deletes the user's plans. */
    method ClearPlanningData(userId: int)
      requires Valid()
      modifies this
      ensures Valid()
      ensures State() == old(State()).(plans := Delete(old(plans), PlanOwner, userId))
    {
      DeleteKeepsIncreasing(plans, PlanOwner, userId, PlanId);
      DeleteKeepsKeysBelow(plans, PlanOwner, userId, PlanId, nextPlanId);
      plans := Delete(plans, PlanOwner, userId);
    }

    /** Deletes the user's cards. */
    method ClearCards(userId: int)
      requires Valid()
      modifies this
      ensures Valid()
      ensures State() == old(State()).(cards := Delete(old(cards), CardOwner, userId))
    {
      DeleteKeepsIncreasing(cards, CardOwner, userId, CardId);
      DeleteKeepsKeysBelow(cards, CardOwner, userId, CardId, nextCardId);
      cards := Delete(cards, CardOwner, userId);
    }
  }
}
