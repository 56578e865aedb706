/** The rows of the bot's SQLite tables (users, user_settings, cards_sources,
    categories, transactions, plans) and the pure functions over whole tables
    that the `Database` class in module Ledger is specified against: balance
    bookkeeping, currency conversion of a row, settings upserts, category
    renames and deletes, and the reports' sums. */
module LedgerRows {
  import opened Common
  import opened Decimal

  datatype User = User(userId: int, username: Option<string>, fullName: string,
                       language: string, lastMenuMessageId: Option<int>)
  datatype Settings = Settings(userId: int, currency: string, calendarFormat: string)
  datatype Card = Card(id: int, userId: int, name: string, cardNumber: Option<string>, balance: real)
  datatype Category = Category(id: int, userId: int, name: string, kind: string)
  datatype Transaction = Transaction(id: int, userId: int, amount: real, currency: string,
                                     kind: string, category: string, cardSourceId: Option<int>,
                                     date: string, note: Option<string>)
  datatype Plan = Plan(id: int, userId: int, title: string, date: string, time: Option<string>, isDone: bool)

  // Column accessors, used as keys for Find, Select and Delete.
  function UserKey(u: User): int { u.userId }
  function SettingsKey(s: Settings): int { s.userId }
  function CardId(c: Card): int { c.id }
  function CardOwner(c: Card): int { c.userId }
  function CategoryId(c: Category): int { c.id }
  function TransactionId(t: Transaction): int { t.id }
  function TransactionOwner(t: Transaction): int { t.userId }
  function PlanId(p: Plan): int { p.id }
  function PlanOwner(p: Plan): int { p.userId }

  /** No two rows share a user id (the PRIMARY KEY of users and user_settings). */
  ghost predicate UniqueUsers(users: seq<User>)
  {
    forall i, j :: 0 <= i < j < |users| ==> users[i].userId != users[j].userId
  }

  ghost predicate UniqueSettings(settings: seq<Settings>)
  {
    forall i, j :: 0 <= i < j < |settings| ==> settings[i].userId != settings[j].userId
  }

  /** Python truthiness of an optional text argument: `None` and `""` are false. */
  predicate Truthy(s: Option<string>)
  {
    s.Some? && s.value != ""
  }

  // --------------------------------------------------------- settings

  /** `INSERT ... ON CONFLICT(user_id) DO UPDATE SET currency = ...`: a new
      row takes the column default 'jalali' for the calendar. */
  function UpsertCurrency(settings: seq<Settings>, userId: int, currency: string): seq<Settings>
  {
    if Find(settings, SettingsKey, userId).Some? then
      seq(|settings|, k requires 0 <= k < |settings| =>
        if settings[k].userId == userId then settings[k].(currency := currency) else settings[k])
    else settings + [Settings(userId, currency, "jalali")]
  }

  /** The same upsert for `calendar_format`; a new row takes the default 'toman'. */
  function UpsertCalendar(settings: seq<Settings>, userId: int, calendarFormat: string): seq<Settings>
  {
    if Find(settings, SettingsKey, userId).Some? then
      seq(|settings|, k requires 0 <= k < |settings| =>
        if settings[k].userId == userId then settings[k].(calendarFormat := calendarFormat) else settings[k])
    else settings + [Settings(userId, "toman", calendarFormat)]
  }

  /** Setting the currency changes only that user's currency column: the
      user's calendar format is kept (or defaulted on a new row) and every
      other user's row is untouched. */
  lemma SetCurrencyTouchesOneColumn(settings: seq<Settings>, userId: int, currency: string)
    requires UniqueSettings(settings)
    ensures var r := UpsertCurrency(settings, userId, currency);
            && UniqueSettings(r)
            && Find(r, SettingsKey, userId).Some?
            && r[Find(r, SettingsKey, userId).value] ==
               Settings(userId, currency,
                        if Find(settings, SettingsKey, userId).Some?
                        then settings[Find(settings, SettingsKey, userId).value].calendarFormat else "jalali")
            && forall k :: 0 <= k < |settings| && settings[k].userId != userId ==> r[k] == settings[k]
  {
    var r := UpsertCurrency(settings, userId, currency);
    match Find(settings, SettingsKey, userId)
    case Some(k) =>
      assert r[k].userId == userId;
    case None =>
      assert r[|settings|].userId == userId;
  }

  /** Setting the calendar format changes only that user's calendar column. */
  lemma SetCalendarTouchesOneColumn(settings: seq<Settings>, userId: int, calendarFormat: string)
    requires UniqueSettings(settings)
    ensures var r := UpsertCalendar(settings, userId, calendarFormat);
            && UniqueSettings(r)
            && Find(r, SettingsKey, userId).Some?
            && r[Find(r, SettingsKey, userId).value] ==
               Settings(userId,
                        if Find(settings, SettingsKey, userId).Some?
                        then settings[Find(settings, SettingsKey, userId).value].currency else "toman",
                        calendarFormat)
            && forall k :: 0 <= k < |settings| && settings[k].userId != userId ==> r[k] == settings[k]
  {
    var r := UpsertCalendar(settings, userId, calendarFormat);
    match Find(settings, SettingsKey, userId)
    case Some(k) =>
      assert r[k].userId == userId;
    case None =>
      assert r[|settings|].userId == userId;
  }

  // ------------------------------------------------- card balances

  /** What a transaction of type `kind` does to a balance: 'income' adds
      the amount, every other type subtracts it. */
  function Signed(amount: real, kind: string): (r: real)
    ensures kind == "income" ==> r == amount
    ensures kind != "income" ==> r == -amount
  {
    if kind == "income" then amount else -amount
  }

  /** `UPDATE cards_sources SET balance = balance +/- ? WHERE id = ?`. */
  function UpdateBalance(cards: seq<Card>, cardId: int, amount: real, kind: string): (r: seq<Card>)
    ensures |r| == |cards|
  {
    seq(|cards|, k requires 0 <= k < |cards| =>
      if cards[k].id == cardId then cards[k].(balance := cards[k].balance + Signed(amount, kind)) else cards[k])
  }

  /** The dates a sum covers: every date, or `date BETWEEN start AND end`. */
  datatype Window = AllDates | Between(start: string, end: string)

  /** SQLite's ordering of TEXT values (code point by code point); on
      'YYYY-MM-DD' dates it is calendar order. */
  predicate TextLe(a: string, b: string)
  {
    a == [] || (b != [] && (a[0] < b[0] || (a[0] == b[0] && TextLe(a[1..], b[1..]))))
  }

  predicate InWindow(date: string, w: Window)
  {
    w.AllDates? || (TextLe(w.start, date) && TextLe(date, w.end))
  }

  /** The share of `t` in the net of card `cardId` for user `userId`. */
  function Contribution(t: Transaction, cardId: int, userId: int, w: Window): real
  {
    if t.cardSourceId == Some(cardId) && t.userId == userId && InWindow(t.date, w)
    then Signed(t.amount, t.kind) else 0.0
  }

  /** Σ +amount (income) / −amount (any other type) over the user's
      transactions on the card within the window. */
  function SignedSum(ts: seq<Transaction>, cardId: int, userId: int, w: Window): real
  {
    if ts == [] then 0.0 else Contribution(ts[0], cardId, userId, w) + SignedSum(ts[1..], cardId, userId, w)
  }

  lemma {:induction false} SignedSumConcat(a: seq<Transaction>, b: seq<Transaction>, cardId: int, userId: int, w: Window)
    ensures SignedSum(a + b, cardId, userId, w) == SignedSum(a, cardId, userId, w) + SignedSum(b, cardId, userId, w)
  {
    if a == [] {
      assert a + b == b;
    } else {
      assert (a + b)[1..] == a[1..] + b;
      SignedSumConcat(a[1..], b, cardId, userId, w);
    }
  }

  /** Adding one more row to the end of the scan adds its contribution. */
  lemma SignedSumAppend(ts: seq<Transaction>, t: Transaction, cardId: int, userId: int, w: Window)
    ensures SignedSum(ts + [t], cardId, userId, w) == SignedSum(ts, cardId, userId, w) + Contribution(t, cardId, userId, w)
  {
    SignedSumConcat(ts, [t], cardId, userId, w);
    assert [t][1..] == [];
  }

  /** A user without transactions has nothing on any card. */
  lemma {:induction false} SignedSumOfNoRows(ts: seq<Transaction>, cardId: int, userId: int, w: Window)
    requires forall i :: 0 <= i < |ts| ==> ts[i].userId != userId
    ensures SignedSum(ts, cardId, userId, w) == 0.0
  {
    if ts != [] {
      SignedSumOfNoRows(ts[1..], cardId, userId, w);
    }
  }

  /** Deleting one user's transactions does not change another user's sums. */
  lemma {:induction false} SignedSumAfterDelete(ts: seq<Transaction>, gone: int, cardId: int, userId: int, w: Window)
    requires gone != userId
    ensures SignedSum(Delete(ts, TransactionOwner, gone), cardId, userId, w) == SignedSum(ts, cardId, userId, w)
  {
    if ts != [] {
      SignedSumAfterDelete(ts[1..], gone, cardId, userId, w);
      var head := if TransactionOwner(ts[0]) != gone then [ts[0]] else [];
      SignedSumConcat(head, Delete(ts[1..], TransactionOwner, gone), cardId, userId, w);
      if head != [] {
        assert head[1..] == [];
      }
    }
  }

  /** A window that holds every one of the user's dates gives the whole sum. */
  lemma {:induction false} SignedSumWholeWindow(ts: seq<Transaction>, cardId: int, userId: int, w: Window)
    requires forall i :: 0 <= i < |ts| && ts[i].userId == userId ==> InWindow(ts[i].date, w)
    ensures SignedSum(ts, cardId, userId, w) == SignedSum(ts, cardId, userId, AllDates)
  {
    if ts != [] {
      SignedSumWholeWindow(ts[1..], cardId, userId, w);
    }
  }

  /** The bookkeeping invariant: every card of `userId` holds exactly the
      signed sum of that user's transactions on it. */
  ghost predicate BalancesMatch(cards: seq<Card>, ts: seq<Transaction>, userId: int)
  {
    forall k :: 0 <= k < |cards| && cards[k].userId == userId ==>
      cards[k].balance == SignedSum(ts, cards[k].id, userId, AllDates)
  }

  /** The cards after `add_transaction` has inserted `t`: a balance changes
      only when a card is given. */
  function CardsAfterAdd(cards: seq<Card>, t: Transaction): seq<Card>
  {
    if t.cardSourceId.Some? then UpdateBalance(cards, t.cardSourceId.value, t.amount, t.kind) else cards
  }

  /** The card a transaction names, if any, belongs to `userId`. */
  ghost predicate CardBelongsTo(cards: seq<Card>, cardSourceId: Option<int>, userId: int)
  {
    cardSourceId.Some? ==>
      forall k :: 0 <= k < |cards| && cards[k].id == cardSourceId.value ==> cards[k].userId == userId
  }

  /** Recording a transaction keeps every user's balances in step with the
      ledger, provided the card it names (if any) belongs to the same user. */
  lemma AddTransactionKeepsBalances(cards: seq<Card>, ts: seq<Transaction>, t: Transaction, userId: int)
    requires BalancesMatch(cards, ts, userId)
    requires CardBelongsTo(cards, t.cardSourceId, t.userId)
    ensures BalancesMatch(CardsAfterAdd(cards, t), ts + [t], userId)
  {
    var after := CardsAfterAdd(cards, t);
    forall k | 0 <= k < |after| && after[k].userId == userId
      ensures after[k].balance == SignedSum(ts + [t], after[k].id, userId, AllDates)
    {
      SignedSumAppend(ts, t, cards[k].id, userId, AllDates);
    }
  }

  /** A card of another user breaks the invariant: `add_transaction` does not
      check who owns the card it debits. */
  lemma ForeignCardBreaksBalances()
    ensures var cards := [Card(1, 7, "bank", None, 0.0)];
            var t := Transaction(1, 8, 5.0, "toman", "expense", "food", Some(1), "2025-01-15", None);
            && BalancesMatch(cards, [], 7)
            && !BalancesMatch(CardsAfterAdd(cards, t), [t], 7)
  {
    var cards := [Card(1, 7, "bank", None, 0.0)];
    var t := Transaction(1, 8, 5.0, "toman", "expense", "food", Some(1), "2025-01-15", None);
    assert SignedSum([t], 1, 7, AllDates) == 0.0 + SignedSum([t][1..], 1, 7, AllDates);
    assert [t][1..] == [];
    assert CardsAfterAdd(cards, t)[0].balance == -5.0;
  }

  /** `UPDATE cards_sources SET balance = 0 WHERE user_id = ?`. */
  function ZeroBalances(cards: seq<Card>, userId: int): (r: seq<Card>)
    ensures |r| == |cards|
  {
    seq(|cards|, k requires 0 <= k < |cards| =>
      if cards[k].userId == userId then cards[k].(balance := 0.0) else cards[k])
  }

  /** Clearing a user's financial data (zero their cards, delete their
      transactions) establishes the invariant for that user and keeps it for
      every other user. */
  lemma ClearKeepsBalances(cards: seq<Card>, ts: seq<Transaction>, cleared: int, userId: int)
    requires userId != cleared ==> BalancesMatch(cards, ts, userId)
    ensures BalancesMatch(ZeroBalances(cards, cleared), Delete(ts, TransactionOwner, cleared), userId)
  {
    var after := ZeroBalances(cards, cleared);
    var rest := Delete(ts, TransactionOwner, cleared);
    forall k | 0 <= k < |after| && after[k].userId == userId
      ensures after[k].balance == SignedSum(rest, after[k].id, userId, AllDates)
    {
      if userId == cleared {
        SignedSumOfNoRows(rest, after[k].id, userId, AllDates);
      } else {
        SignedSumAfterDelete(ts, cleared, after[k].id, userId, AllDates);
      }
    }
  }

  // ------------------------------------------------ currency conversion

  /** toman -> dollar for one amount: amount / usd rounded half-even to 16
      places, or 0 when the price is 0. */
  function TomanToDollar(amount: real, usd: real): (r: real)
    ensures usd == 0.0 ==> r == 0.0
    ensures usd != 0.0 ==> HasPlaces(r, Scale16)
    ensures usd != 0.0 ==>
      -(1.0 / 2.0) <= r * Scale16 as real - (amount / usd) * Scale16 as real <= 1.0 / 2.0
    ensures usd != 0.0 ==> TieToEven(r, amount / usd, Scale16)
  {
    if usd == 0.0 then 0.0 else Quantize(amount / usd, Scale16)
  }

  /** dollar -> toman for one amount: amount * usd rounded half-even to a whole number. */
  function DollarToToman(amount: real, usd: real): (r: real)
    ensures Whole(r)
    ensures -(1.0 / 2.0) <= r - amount * usd <= 1.0 / 2.0
    ensures TieToEven(r, amount * usd, 1)
  {
    RoundHalfEven(amount * usd) as real
  }

  /** One transaction row after the conversion's UPDATE: only this user's
      rows in the source currency, and only for the two known directions. */
  function ConvertRow(t: Transaction, userId: int, from: string, to: string, usd: real): (r: Transaction)
    ensures r.(amount := t.amount, currency := t.currency) == t
    ensures r != t ==> t.userId == userId && t.currency == from
    ensures t.userId == userId && t.currency == "toman" && from == "toman" && to == "dollar" ==>
      r.currency == "dollar" && r.amount == TomanToDollar(t.amount, usd)
    ensures t.userId == userId && t.currency == "dollar" && from == "dollar" && to == "toman" ==>
      r.currency == "toman" && r.amount == DollarToToman(t.amount, usd)
    ensures !((from == "toman" && to == "dollar") || (from == "dollar" && to == "toman")) ==> r == t
  {
    if t.userId != userId || t.currency != from then t
    else if from == "toman" && to == "dollar" then t.(amount := TomanToDollar(t.amount, usd), currency := "dollar")
    else if from == "dollar" && to == "toman" then t.(amount := DollarToToman(t.amount, usd), currency := "toman")
    else t
  }

  /** The transactions table after the conversion's UPDATE statements. */
  function ConvertAll(ts: seq<Transaction>, userId: int, from: string, to: string, usd: real): (r: seq<Transaction>)
    ensures |r| == |ts|
  {
    seq(|ts|, k requires 0 <= k < |ts| => ConvertRow(ts[k], userId, from, to, usd))
  }

  /** A recomputed balance: 5 places for dollars, whole units otherwise. */
  function RoundBalance(total: real, to: string): real
  {
    if to == "dollar" then Quantize(total, Scale5) else RoundHalfEven(total) as real
  }

  /** One card after the conversion has recomputed the user's balances. */
  function Rebalanced(c: Card, ts: seq<Transaction>, userId: int, to: string): Card
  {
    if c.userId == userId then c.(balance := RoundBalance(SignedSum(ts, c.id, userId, AllDates), to)) else c
  }

  /** Σ of whole amounts is whole. */
  lemma {:induction false} SignedSumOfWholeAmounts(ts: seq<Transaction>, cardId: int, userId: int, w: Window)
    requires forall i :: 0 <= i < |ts| && ts[i].userId == userId ==> Whole(ts[i].amount)
    ensures Whole(SignedSum(ts, cardId, userId, w))
  {
    if ts == [] {
      assert (0 as real).Floor == 0;
    } else {
      SignedSumOfWholeAmounts(ts[1..], cardId, userId, w);
      var t := ts[0];
      if t.cardSourceId == Some(cardId) && t.userId == userId && InWindow(t.date, w) {
        WholeArithmetic(t.amount, 0.0);
        WholeArithmetic(Signed(t.amount, t.kind), SignedSum(ts[1..], cardId, userId, w));
      } else {
        assert SignedSum(ts, cardId, userId, w) == SignedSum(ts[1..], cardId, userId, w);
      }
    }
  }

  /** A dollar -> toman conversion leaves whole amounts on the rows it touches. */
  lemma DollarToTomanRowsAreWhole(t: Transaction, userId: int, usd: real)
    requires t.userId == userId && (t.currency == "dollar" || Whole(t.amount))
    ensures Whole(ConvertRow(t, userId, "dollar", "toman", usd).amount)
  {
  }

  /** When every one of the user's amounts is whole (all of them tomans after
      a dollar -> toman conversion), the recomputed balances are the exact
      signed sums: the invariant holds again after the conversion. */
  lemma TomanRebalanceIsExact(cards: seq<Card>, ts: seq<Transaction>, userId: int)
    requires forall i :: 0 <= i < |ts| && ts[i].userId == userId ==> Whole(ts[i].amount)
    ensures BalancesMatch(seq(|cards|, k requires 0 <= k < |cards| => Rebalanced(cards[k], ts, userId, "toman")), ts, userId)
  {
    forall k | 0 <= k < |cards| && cards[k].userId == userId
      ensures RoundBalance(SignedSum(ts, cards[k].id, userId, AllDates), "toman") == SignedSum(ts, cards[k].id, userId, AllDates)
    {
      var total := SignedSum(ts, cards[k].id, userId, AllDates);
      SignedSumOfWholeAmounts(ts, cards[k].id, userId, AllDates);
      RoundHalfEvenOfInteger(total.Floor);
      assert total == total.Floor as real;
    }
  }

  // ------------------------------------------------------------ reports

  /** Σ amount over the user's transactions of type `kind` within the window
      (`SUM(amount) ... GROUP BY type`). */
  function KindSum(ts: seq<Transaction>, userId: int, w: Window, kind: string): real
  {
    if ts == [] then 0.0
    else (if ts[0].userId == userId && InWindow(ts[0].date, w) && ts[0].kind == kind then ts[0].amount else 0.0)
         + KindSum(ts[1..], userId, w, kind)
  }

  /** Σ of the signed amounts over all of the user's transactions in the window. */
  function UserNet(ts: seq<Transaction>, userId: int, w: Window): real
  {
    if ts == [] then 0.0
    else (if ts[0].userId == userId && InWindow(ts[0].date, w) then Signed(ts[0].amount, ts[0].kind) else 0.0)
         + UserNet(ts[1..], userId, w)
  }

  /** The report's balance (income − expense) is the user's signed net,
      as long as every type in the window is 'income' or 'expense'. */
  lemma {:induction false} ReportBalanceIsNet(ts: seq<Transaction>, userId: int, w: Window)
    requires forall i :: 0 <= i < |ts| && ts[i].userId == userId && InWindow(ts[i].date, w) ==>
               ts[i].kind == "income" || ts[i].kind == "expense"
    ensures KindSum(ts, userId, w, "income") - KindSum(ts, userId, w, "expense") == UserNet(ts, userId, w)
  {
    if ts != [] {
      ReportBalanceIsNet(ts[1..], userId, w);
    }
  }

  /** One row of `get_card_source_balances_in_range`. */
  datatype CardRange = CardRange(id: int, name: string, cardNumber: Option<string>,
                                 startBalance: real, endBalance: real, netChange: real)

  function RangeRow(c: Card, ts: seq<Transaction>, userId: int, w: Window): (r: CardRange)
    ensures r.startBalance + r.netChange == r.endBalance
    ensures r.endBalance == c.balance
  {
    var net := SignedSum(ts, c.id, userId, w);
    CardRange(c.id, c.name, c.cardNumber, c.balance - net, c.balance, net)
  }

  /** While balances match the ledger, a range that covers all of the
      user's dates starts every card at zero. */
  lemma WholeRangeStartsAtZero(c: Card, cards: seq<Card>, ts: seq<Transaction>, userId: int, w: Window)
    requires c in cards && c.userId == userId && BalancesMatch(cards, ts, userId)
    requires forall i :: 0 <= i < |ts| && ts[i].userId == userId ==> InWindow(ts[i].date, w)
    ensures RangeRow(c, ts, userId, w).startBalance == 0.0
  {
    SignedSumWholeWindow(ts, c.id, userId, w);
  }

  // --------------------------------------------------------- categories

  predicate CategoryMatches(c: Category, userId: int, name: string, kind: string)
  {
    c.userId == userId && c.name == name && c.kind == kind
  }

  /** `UPDATE categories SET name = new WHERE user_id, name = old, type`. */
  function RenameCategories(cats: seq<Category>, userId: int, oldName: string, newName: string, kind: string): (r: seq<Category>)
    ensures |r| == |cats|
  {
    seq(|cats|, k requires 0 <= k < |cats| =>
      if CategoryMatches(cats[k], userId, oldName, kind) then cats[k].(name := newName) else cats[k])
  }

  /** `DELETE FROM categories WHERE user_id, name, type`. */
  function DeleteCategories(cats: seq<Category>, userId: int, name: string, kind: string): (r: seq<Category>)
    ensures |r| <= |cats|
    ensures forall i :: 0 <= i < |r| ==> r[i] in cats && !CategoryMatches(r[i], userId, name, kind)
    ensures forall i :: 0 <= i < |cats| && !CategoryMatches(cats[i], userId, name, kind) ==> cats[i] in r
    ensures |r| == |cats| <==> forall i :: 0 <= i < |cats| ==> !CategoryMatches(cats[i], userId, name, kind)
  {
    if cats == [] then []
    else (if CategoryMatches(cats[0], userId, name, kind) then [] else [cats[0]])
         + DeleteCategories(cats[1..], userId, name, kind)
  }

  lemma {:induction false} DeleteCategoriesKeepsIncreasing(cats: seq<Category>, userId: int, name: string, kind: string)
    requires IncreasingBy(cats, CategoryId)
    ensures IncreasingBy(DeleteCategories(cats, userId, name, kind), CategoryId)
  {
    if cats != [] {
      IncreasingTail(cats, CategoryId);
      DeleteCategoriesKeepsIncreasing(cats[1..], userId, name, kind);
      var rest := DeleteCategories(cats[1..], userId, name, kind);
      if !CategoryMatches(cats[0], userId, name, kind) {
        forall m | 0 <= m < |rest| ensures CategoryId(cats[0]) < CategoryId(rest[m]) {
          var k :| 0 <= k < |cats[1..]| && cats[1..][k] == rest[m];
          assert rest[m] == cats[k + 1];
        }
        ConsIncreasing(cats[0], rest, CategoryId);
      }
    }
  }

  /** Row `c` is listed by a category query for `userId` and `kind`. */
  predicate Listed(c: Category, userId: int, kind: Option<string>)
  {
    c.userId == userId && (Truthy(kind) ==> c.kind == kind.value)
  }

  /** Some listed row of `cats` is called `name`. */
  ghost predicate HasListed(cats: seq<Category>, userId: int, kind: Option<string>, name: string)
  {
    exists i :: 0 <= i < |cats| && Listed(cats[i], userId, kind) && cats[i].name == name
  }

  lemma HasListedCons(cats: seq<Category>, userId: int, kind: Option<string>, name: string)
    requires cats != []
    ensures HasListed(cats, userId, kind, name) <==>
      (Listed(cats[0], userId, kind) && cats[0].name == name) || HasListed(cats[1..], userId, kind, name)
  {
    if HasListed(cats[1..], userId, kind, name) {
      var i :| 0 <= i < |cats[1..]| && Listed(cats[1..][i], userId, kind) && cats[1..][i].name == name;
      assert cats[i + 1] == cats[1..][i];
    }
    if HasListed(cats, userId, kind, name) && !(Listed(cats[0], userId, kind) && cats[0].name == name) {
      var i :| 0 <= i < |cats| && Listed(cats[i], userId, kind) && cats[i].name == name;
      assert cats[1..][i - 1] == cats[i];
    }
  }

  /** `cursor.rowcount > 0` after an UPDATE or DELETE on categories. */
  function AnyCategoryMatches(cats: seq<Category>, userId: int, name: string, kind: string): (b: bool)
    ensures b <==> exists k :: 0 <= k < |cats| && CategoryMatches(cats[k], userId, name, kind)
  {
    if cats == [] then false
    else if CategoryMatches(cats[0], userId, name, kind) then true
    else
      var b := AnyCategoryMatches(cats[1..], userId, name, kind);
      assert b ==> exists k :: 0 <= k < |cats| && CategoryMatches(cats[k], userId, name, kind) by {
        if b {
          var k :| 0 <= k < |cats[1..]| && CategoryMatches(cats[1..][k], userId, name, kind);
          assert cats[k + 1] == cats[1..][k];
        }
      }
      assert !b ==> forall k :: 1 <= k < |cats| ==> !CategoryMatches(cats[k], userId, name, kind) by {
        if !b {
          forall k | 1 <= k < |cats| ensures !CategoryMatches(cats[k], userId, name, kind) {
            assert cats[k] == cats[1..][k - 1];
          }
        }
      }
      b
  }

  /** `SELECT name FROM categories WHERE user_id = ? [AND type = ?]`: the
      type filter applies only when the type argument is truthy. */
  function CategoryNames(cats: seq<Category>, userId: int, kind: Option<string>): (r: seq<string>)
    ensures forall n :: n in r <==> HasListed(cats, userId, kind, n)
  {
    if cats == [] then []
    else
      var rest := CategoryNames(cats[1..], userId, kind);
      assert forall n :: HasListed(cats, userId, kind, n) <==>
        (Listed(cats[0], userId, kind) && cats[0].name == n) || HasListed(cats[1..], userId, kind, n) by {
        forall n ensures HasListed(cats, userId, kind, n) <==>
          (Listed(cats[0], userId, kind) && cats[0].name == n) || HasListed(cats[1..], userId, kind, n) {
          HasListedCons(cats, userId, kind, n);
        }
      }
      (if Listed(cats[0], userId, kind) then [cats[0].name] else []) + rest
  }

  // -------------------------------------------------------------- plans

  /** The date filter of `get_plans`: an exact date when one is given,
      else a range when both ends are given, else none. */
  predicate PlanDateMatches(p: Plan, date: Option<string>, start: Option<string>, end: Option<string>)
  {
    if Truthy(date) then p.date == date.value
    else if Truthy(start) && Truthy(end) then InWindow(p.date, Between(start.value, end.value))
    else true
  }

  /** `SELECT * FROM plans WHERE user_id = ? [AND date = ? | AND date BETWEEN ? AND ?]`. */
  function PlansOf(plans: seq<Plan>, userId: int, date: Option<string>, start: Option<string>, end: Option<string>): (r: seq<Plan>)
    ensures forall i :: 0 <= i < |r| ==> r[i] in plans && r[i].userId == userId
    ensures Truthy(date) ==> forall i :: 0 <= i < |r| ==> r[i].date == date.value
    ensures !Truthy(date) && Truthy(start) && Truthy(end) ==>
      forall i :: 0 <= i < |r| ==> InWindow(r[i].date, Between(start.value, end.value))
    ensures forall i :: 0 <= i < |plans| && plans[i].userId == userId && PlanDateMatches(plans[i], date, start, end)
                        ==> plans[i] in r
  {
    if plans == [] then []
    else
      var p := plans[0];
      var keep := p.userId == userId && PlanDateMatches(p, date, start, end);
      (if keep then [p] else []) + PlansOf(plans[1..], userId, date, start, end)
  }

  /** `UPDATE plans SET is_done = 1 WHERE id = ?`. */
  function MarkDone(plans: seq<Plan>, planId: int): (r: seq<Plan>)
    ensures |r| == |plans|
  {
    seq(|plans|, k requires 0 <= k < |plans| => if plans[k].id == planId then plans[k].(isDone := true) else plans[k])
  }
}
