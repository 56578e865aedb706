# FinPlanBot core in Dafny

FinPlanBot is a Telegram bot for personal finance and day planning. Users
record income and expenses on cards, convert their ledger between tomans
and dollars, and keep dated plans. Free text goes to a Gemini model that
replies with a JSON action. This project models the bot's core and proves
properties of it:

- **Ledger** (`ledger_rows.dfy`, `ledger.dfy`). The SQLite store is the
  class `Ledger.Database`. Its fields are in-memory tables: sequences of
  rows in rowid order plus the next AUTOINCREMENT ids. Every method states
  the whole new state through `State()` and keeps `Valid()`: unique user
  rows, and increasing ids below the next id. The pure table functions it
  is specified against are in `LedgerRows`. The main invariant, proved
  across `add_transaction`, `clear_user_data` and `clear_financial_data`,
  is `BalancesMatch`:
  every card of a user holds the signed sum of that user's transactions
  on it.
- **Currency conversion**. Amounts are exact `real`s. Python's
  `Decimal.quantize(..., ROUND_HALF_EVEN)` is `Decimal.RoundHalfEven` and
  `Decimal.Quantize` (`decimal.dfy`). The three loops of
  `convert_user_currency` are the methods `Ledger.ConvertRows`,
  `Ledger.CardTotal` and `Ledger.RebalanceCards`.
- **Chat logic** (`chat.dfy`). Persian digit normalisation, reading the
  amount a user typed, dispatching a parsed AI result, classifying quota
  errors, and reading plan ids from buttons.
- **Wizards** (`wizard.dfy`). The two step-by-step dialogues are the class
  `Wizard.Conversation`: a step and a data map per user. Its handlers call
  the `Database` methods.
- **Reply cleaner** (`ai_parser.dfy`). The Markdown fence stripping of
  `parse_message` and its single fallback value.
- **Configuration** (`config.dfy`). The API-key list, admin-id parsing,
  the `int()`/`float()` conversions of the numeric variables and the
  start-up validation, over an environment given as a map.
- **Dollar price** (`dollar_price.dfy`). Extracting a thousands-grouped
  number from the price page. The once-a-day cache is the class
  `DollarPrice.PriceCache`, whose cache file is a field.
- **Helpers**. `text.dfy` holds the Python string operations the code
  uses: `strip`, `find`, `replace`, `split`, `lower`, `str(int)`, and
  `int` on digits. `json.dfy` holds the values `json.loads` produces, and
  `common.dfy` the table helpers.

Inputs that come from the outside world are parameters:

- the text of a message or a button;
- today's and tomorrow's dates;
- the page the price request returns (None when it raised);
- the result of `json.loads` (None when it raised);
- the environment map.

## Model

| member | source | states |
|---|---|---|
| Ledger.Database.constructor | database.py:10-13 | A new store has empty tables and every id sequence at 1 |
| Ledger.Database.AddUser | database.py:115-118 | INSERT OR IGNORE: a known user leaves the state unchanged; a new one is appended with language 'fa' and no menu message |
| Ledger.Database.GetUserLanguage | database.py:120-124 | The stored language of the user, or 'fa' when there is no row |
| Ledger.Database.SetUserLanguage | database.py:126-129 | Only the language of that user's row changes; an unknown user changes nothing |
| Ledger.Database.GetLastMenuMessageId | database.py:131-135 | The stored id, with a stored 0 or NULL read as None; never returns Some(0) |
| Ledger.Database.SetLastMenuMessageId | database.py:137-140 | Only that user's last_menu_message_id changes |
| Ledger.Database.GetUserSettings | database.py:143-152 | No row: a row with ('toman','jalali') is inserted and returned. Otherwise the row's values are returned and nothing changes |
| Ledger.Database.SetUserCurrency | database.py:154-166 | The settings table becomes the currency upsert; nothing else changes |
| Ledger.Database.SetUserCalendarFormat | database.py:168-180 | The settings table becomes the calendar upsert; nothing else changes |
| LedgerRows.SetCurrencyTouchesOneColumn | database.py:157-165 | After the upsert the user has exactly one row with the new currency and the old (or default 'jalali') calendar; other users' rows are untouched |
| LedgerRows.SetCalendarTouchesOneColumn | database.py:171-179 | After the upsert the user has exactly one row with the new calendar and the old (or default 'toman') currency; other users' rows are untouched |
| Ledger.Database.AddCardSource | database.py:183-190 | Appends a card with balance 0 under a fresh id, which it returns |
| Ledger.Database.GetCardsSources | database.py:192-200 | Exactly the user's cards |
| Ledger.Database.GetCardSource | database.py:202-210 | The card with that id, or None when no card has it |
| Ledger.Database.UpdateCardSource | database.py:212-218 | Name and number change only on that card, each only when given |
| Ledger.Database.DeleteCardSource | database.py:220-223 | Removes the card with that id; nothing else changes |
| LedgerRows.Signed | database.py:227-230 | 'income' counts +amount, every other type −amount |
| Ledger.Database.UpdateCardBalance | database.py:225-231 | The card's balance gains amount for 'income' and loses it otherwise; no other card or table changes |
| Ledger.Database.AddTransaction | database.py:234-247 | Appends exactly one row with the given fields and the next id. Card balances change only when a card is given. Every user's balances stay equal to their ledger sums when the card belongs to the transaction's user |
| LedgerRows.AddTransactionKeepsBalances | database.py:234-247 | Recording a transaction on the user's own card (or on none) keeps BalancesMatch |
| LedgerRows.ForeignCardBreaksBalances | database.py:244-245 | A transaction naming another user's card breaks that user's BalancesMatch: the owner of the card is never checked |
| Ledger.Database.ConvertUserCurrency | database.py:249-318 | Same currencies: nothing changes. No price: the ValueError message is returned before any row is touched. Otherwise the transactions become ConvertAll and each of the user's cards becomes its rounded signed sum |
| LedgerRows.TomanToDollar | database.py:273-278 | Price 0 gives 0; otherwise the result has 16 decimal places and is within half a unit of the 16th place of amount/price, and a tie goes to the even last digit |
| LedgerRows.DollarToToman | database.py:286-287 | A whole number within 1/2 of amount×price; a tie goes to the even number |
| LedgerRows.ConvertRow | database.py:269-289 | Only the user's rows in the source currency change, and only amount and currency. Toman→dollar and dollar→toman use the two roundings; any other pair changes nothing |
| Ledger.ConvertRows | database.py:269-289 | The loop's result is ConvertAll of the rows |
| Ledger.CardTotal | database.py:295-303 | The accumulated total is the signed sum of the user's transactions on the card |
| Ledger.RebalanceCards | database.py:292-313 | Each of the user's cards gets its total rounded to 5 places (dollar) or to a whole number (any other target); other cards are kept |
| LedgerRows.TomanRebalanceIsExact | database.py:310-313 | When all of the user's amounts are whole, the recomputed toman balances equal the signed sums (BalancesMatch holds again) |
| LedgerRows.DollarToTomanRowsAreWhole | database.py:287-289 | A dollar→toman conversion leaves a whole amount on every row it touches |
| LedgerRows.SignedSumOfWholeAmounts | database.py:296-303 | A signed sum of whole amounts is whole |
| Decimal.RoundHalfEven | database.py:287 | The nearest integer, ties to the even one |
| Decimal.RoundHalfEvenUnique | database.py:287 | Any integer within 1/2 and even on ties is that rounding |
| Decimal.Quantize | database.py:278 | The result has at most the scale's places and is within half a unit of the last place; a tie goes to the even last digit |
| Decimal.QuantizeExact | database.py:308 | A value that already has those places is not changed |
| Ledger.Database.GetBalanceReport | database.py:360-380 | Income and expense are the sums of the user's 'income' and 'expense' rows in the range; balance = income − expense, which is the signed net when those are the only types |
| LedgerRows.ReportBalanceIsNet | database.py:376-380 | Income sum − expense sum equals the user's signed net when every type in the window is 'income' or 'expense' |
| Ledger.Database.GetCardSourceBalancesInRange | database.py:382-416 | One row per card of the user, with that card's id, name and number: end = current balance, net = signed sum in the range, start + net = end |
| Ledger.RangeRows | database.py:395-414 | The loop yields one range row per card, in order |
| LedgerRows.RangeRow | database.py:400-414 | start + net = end, and end is the card's balance |
| LedgerRows.WholeRangeStartsAtZero | database.py:403-405 | While balances match the ledger, a range covering all the user's dates gives start balance 0 |
| LedgerRows.SignedSumWholeWindow | database.py:389 | A window holding every date of the user gives the unfiltered sum |
| Ledger.Database.AddPlan | database.py:419-424 | Appends one plan with the next id, not done |
| Ledger.Database.GetPlans | database.py:426-434 | Exactly the user's plans that match the date, else the range, else all of them |
| LedgerRows.PlansOf | database.py:426-434 | Every returned plan is the user's and matches the active filter; every matching plan is returned |
| Ledger.Database.MarkPlanDone | database.py:436-438 | Only the plan with that id becomes done; all other flags keep their value |
| Ledger.Database.DeletePlan | database.py:440-442 | Removes the plan with that id; nothing else changes |
| Ledger.Database.GetCategories | database.py:445-450 | A name is returned iff one of the user's rows has it (of that type when the type is truthy) |
| LedgerRows.CategoryNames | database.py:445-450 | Membership iff a listed row has that name |
| Ledger.Database.AddCategory | database.py:452-454 | Appends one category row with the next id |
| Ledger.Database.UpdateCategory | database.py:456-464 | Renames every matching row; returns true iff some row matched |
| LedgerRows.AnyCategoryMatches | database.py:464 | rowcount > 0 iff some row matches user, name and type |
| Ledger.Database.DeleteCategory | database.py:466-473 | Deletes exactly the matching rows; returns true iff some row matched |
| LedgerRows.DeleteCategories | database.py:468-471 | The result holds exactly the non-matching rows and is shorter iff some row matched |
| LedgerRows.DeleteCategoriesKeepsIncreasing | database.py:468-471 | Deleting rows keeps the ids increasing |
| Ledger.Database.ClearUserData | database.py:475-481 | The user's balances become 0, and their transactions and plans go; other users' rows are untouched. BalancesMatch holds for the user and is kept for everyone else |
| Ledger.Database.ClearFinancialData | database.py:483-488 | As ClearUserData, but plans are kept |
| LedgerRows.ClearKeepsBalances | database.py:483-488 | Zeroing a user's cards and deleting their rows makes BalancesMatch hold for them and keeps it for every other user |
| LedgerRows.SignedSumAfterDelete | database.py:487 | Deleting one user's transactions leaves every other user's sums unchanged |
| LedgerRows.SignedSumOfNoRows | database.py:486-487 | A user without transactions has sum 0 on every card |
| Ledger.Database.ClearPlanningData | database.py:490-493 | Deletes exactly the user's plans |
| Ledger.Database.ClearCards | database.py:495-498 | Deletes exactly the user's cards |
| Common.DeleteKeepsIncreasing | database.py:440-442 | Deleting rows keeps the ids increasing (the primary-key invariant) |
| Chat.FaToEn | main.py:184-188 | The length is kept |
| Chat.FaToEnDigits | main.py:184-188 | Each ۰–۹ becomes the ASCII digit of the same value; every other character is unchanged; no Persian digit is left |
| Chat.FaToEnIdempotent | main.py:184-188 | Normalising twice is normalising once |
| Chat.FirstDigit | main.py:202 | The first ASCII digit at or after `from`, or None when there is none |
| Chat.ExtractAmountFindsDigits | main.py:199-205 | An amount is found iff the message holds an ASCII or a Persian digit |
| Chat.ExtractAmountOfDecimal | main.py:199-207 | A number written in digits reads back as itself |
| Wizard.Conversation.constructor | main.py:27-38 | A new conversation is idle with no data |
| Wizard.Conversation.Clear | main.py:267 | state.clear(): the step is idle and the data is empty |
| Wizard.Conversation.StartAddTransaction | main.py:192-194 | Moves to waiting_for_amount; the data is kept |
| Wizard.Conversation.ProcessAmount | main.py:198-215 | Accepts iff an amount is found. Then it stores it and moves to waiting_for_type; otherwise step and data are unchanged |
| Wizard.ChosenType | main.py:219 | 'expense' iff the data is "type_expense"; otherwise 'income' |
| Wizard.DefaultCategories | main.py:225-228 | 5 defaults for expense and 4 for income, each list ending in "سایر" |
| Wizard.Conversation.ProcessType | main.py:218-234 | Stores the type and moves to waiting_for_category. A user with no categories of that type gets the defaults added in order, with fresh ids, and offered. Otherwise exactly their names are offered and the store is unchanged |
| Wizard.OfferCategories | main.py:222-232 | The same offer, and the store changes, as ProcessType |
| Wizard.AddCategories | main.py:229-230 | The loop appends one category row per name, in order, with consecutive ids |
| Wizard.CategoryRows | main.py:229-230 | Row i is (firstId + i, user, names[i], type) |
| Wizard.Conversation.ProcessCategory | main.py:238-244 | Stores the category (every "cat_" removed) and today's date; the step stays waiting_for_category |
| Wizard.CategoryAsWrittenLosesMarker | main.py:232-239 | A category whose own name holds "cat_" is not read back: "cat_cat_x" gives "x" |
| Wizard.CategoryFromCallback | main.py:232 | Removing only the "cat_" prefix inverts the button data |
| Wizard.CategoryRoundTrip | main.py:232-239 | The prefix-only reading returns every name unchanged |
| Wizard.CategoryReadingsAgree | main.py:232-239 | For names without "cat_", the code's reading returns the name |
| Wizard.Conversation.ConfirmTransactionAsWritten | main.py:263-267 | The first missing key, read in the order amount, type, category, date, raises KeyError. With all four values, the 5-argument call raises TypeError, so nothing is recorded and the session is not cleared |
| Wizard.Conversation.ConfirmTransaction | main.py:263-267 | Records iff the four values are present: one transaction with those values and the session cleared. Otherwise nothing changes |
| Wizard.Conversation.StartAddPlan | main.py:294-296 | Moves to waiting_for_title; the data is kept |
| Wizard.Conversation.ProcessPlanTitle | main.py:300-310 | Stores the title and moves to waiting_for_date |
| Wizard.Conversation.ProcessPlanDate | main.py:313-323 | Stores tomorrow for "pdate_tomorrow", else the data with "pdate_" removed; moves to waiting_for_time |
| Wizard.Conversation.ProcessPlanTime | main.py:328-343 | Stores the time (None for the button), appends one plan with the stored title and date, and clears the session |
| Chat.Dispatch | main.py:407-441 | Records a transaction iff action/section are add_transaction/finance, and a plan iff add_plan/planning, with the fixed defaults for missing keys. Anything else is not understood; a non-dict raises AttributeError |
| Chat.DispatchKeepsGivenFields | main.py:408-427 | Keys present in the result win over the defaults |
| Chat.FallbackIsNotUnderstood | main.py:437-441 | The parser's fallback value gets the not-understood reply |
| Chat.ClassifyError | main.py:445-455 | Quota reply iff the message holds "429" or, lower-cased, "quota" |
| Chat.LowerKeeps429 | main.py:445 | Lower-casing neither creates nor removes "429" |
| Chat.ClassifyIgnoresCase | main.py:445 | The classification is the same for the lower-cased message |
| Text.ParseInt | main.py:381 | `int` succeeds exactly when the stripped text is one or more ASCII digits with an optional leading `+` or `-`; a negative result comes only from a leading `-` |
| Text.SignedDecimalRoundTrip | config.py:40 | `int(str(n)) == n` for every integer n, negative ones included |
| Text.PlusSignReadsSame | config.py:40 | A leading `+` reads the same number as no sign |
| Text.ReadsDigits | config.py:40 | A text of ASCII digits alone reads as the number it spells |
| Chat.PlanIdRoundTrip | main.py:381-389 | A button's data `prefix + str(id)` reads back as id |
| Wizard.DonePlan | main.py:380-382 | Marks the parsed plan done; data `int` rejects changes nothing |
| Wizard.DelPlan | main.py:388-390 | Deletes the parsed plan; data `int` rejects changes nothing |
| Text.Strip | ai_parser.py:61 | The result is a contiguous infix of the text, and only whitespace is cut from each end; no leading or trailing whitespace remains |
| Text.StripIdempotent | ai_parser.py:61 | Stripping twice is stripping once |
| Text.FindFrom | ai_parser.py:64 | The first occurrence at or after `from`, or None when there is none |
| Text.RemoveAll | main.py:239 | Never longer; a text without the pattern is unchanged |
| Text.RemoveAllWhenAbsent | main.py:239 | When `find` finds no occurrence, `replace` returns the text unchanged |
| Text.RemoveAllAtFirst | main.py:239 | When `find` gives the first occurrence at i, the result is the text before i followed by the removal applied to what follows the occurrence |
| Text.RemoveAllAtStart | main.py:239 | A text that starts with the pattern loses it and the removal goes on after it |
| Text.RemoveAllAfterPrefix | main.py:381 | Removing a marker from marker + text returns text when text does not hold the marker |
| Text.Without | main.py:199 | Exactly the characters other than `c` remain |
| Text.Split | config.py:30 | At least one piece; no piece holds the separator |
| Text.JoinSplit | config.py:30 | Joining the pieces gives the text back |
| Text.SplitJoin | config.py:30 | Splitting joined separator-free pieces gives the pieces back |
| Text.DigitRunLength | main.py:202 | The run is all digits and maximal |
| Text.DecimalRoundTrip | config.py:30 | int(str(n)) == n |
| Text.AsciiLower | main.py:445 | Same length; each ASCII capital lowered, every other character kept |
| AiParser.CleanStripsFirst | ai_parser.py:61 | Surrounding whitespace of the reply never matters |
| AiParser.FenceBody | ai_parser.py:63-64 | The infix after the opening fence, ending at the next fence or at the end of the text, with no fence starting inside it |
| AiParser.Unfence | ai_parser.py:63-68 | The fence body minus a leading "json" tag, else minus one leading newline, else unchanged; no fence remains |
| AiParser.FencedReplyHoldsNoFence | ai_parser.py:63-70 | A fenced reply gives the unfenced body with no fence left; the trailing-fence rule never fires after it |
| AiParser.TrailingFenceIsCut | ai_parser.py:69-70 | A reply that only ends with a fence loses 3 characters and is stripped again |
| AiParser.UnfencedReplyIsStripped | ai_parser.py:61-72 | Without fences the reply reaches json.loads only stripped |
| AiParser.ClosingFenceIsFirst | ai_parser.py:64 | In "```json<body>```", split's second piece ends at the closing fence |
| AiParser.JsonFenceRoundTrip | ai_parser.py:61-72 | A fence-free body without a trailing backtick, wrapped as "```json<body>```", is recovered exactly; the tag and a newline are never both dropped |
| AiParser.ParseMessage | ai_parser.py:61-75 | The loaded value, or exactly {"action": "fallback_to_buttons"} when there is no reply text or it does not decode |
| Config.SetValues | config.py:13-26 | At most one value per name; v is a value iff some set name holds it |
| Config.SetValuesInOrder | config.py:13-26 | Each set key lands at the position given by the number of set keys before it: index order, unset skipped, empty kept |
| Config.NoKeysWhenNoneSet | config.py:13-26 | No key variable set gives an empty list |
| Config.AdminPieces | config.py:30 | At most one id per piece |
| Config.AdminPiecesConcat | config.py:30 | Pieces are read independently and in order |
| Config.DroppedPieces | config.py:30 | Empty, blank and signed pieces give no id |
| Config.DefaultAdmin | config.py:29-30 | With ADMIN_IDS unset the ids are [452131035] |
| Config.AdminIdsRoundTrip | config.py:30 | Ids joined by commas read back in order, with duplicates |
| Config.Validate | config.py:58-63 | No error iff token non-empty, keys and admins present. Otherwise the first failing check's message, in source order |
| Config.IntTextIsFloatText | config.py:40-52 | Every text `int()` accepts, `float()` accepts too |
| Config.Outcomes | config.py:40-52 | One entry per numeric variable, in source order, saying whether its conversion succeeds |
| Config.FirstFailure | config.py:40-52 | The first failing position: every earlier one succeeds, and None only when all succeed |
| Config.IntegersConvert | config.py:40-52 | With no conversion failing, each of the six integer variables converts |
| Config.UnsetReadsFallback | config.py:40-52 | An unset variable reads as its fallback ('5', '3', '3', '10', '30', '30') |
| Config.FallbacksConvert | config.py:40-52 | With none of the numeric variables set, no conversion raises |
| Config.ReadSettings | config.py:8-55 | The loaded token, key list and admin ids are what was read |
| Config.Validated | config.py:58-63 | Past the conversions, loading succeeds iff the token is set and non-empty and there are keys and admins |
| Config.Load | config.py:8-63 | The first failing `int()`/`float()` conversion, in source order, gives its ValueError before any validation. Otherwise it loads iff the token is set and non-empty and there are keys and admins |
| Config.LoadedValues | config.py:33-55 | A loaded configuration holds what `int()` makes of each integer variable's text (or fallback), and the text variables or their fallbacks |
| Config.MalformedNumberBeforeValidation | config.py:40-59 | A malformed BOT_START_MAX_RETRIES ends loading with int()'s ValueError even when the token is missing too |
| DollarPrice.GroupCount | dollarprice.py:25 | The groups fit in the text; there is at least one iff a ",ddd" starts there |
| DollarPrice.GroupCountIsGreedy | dollarprice.py:25 | The `+` repetition is greedy: a ",ddd" group starts at every counted position and none right after the last one |
| DollarPrice.SearchFrom | dollarprice.py:25 | The leftmost match at or after `from`, or None when there is none |
| DollarPrice.ExtractPrice | dollarprice.py:25-27 | None iff no position matches `\d{1,3}(?:,\d{3})+` |
| DollarPrice.GroupedNumberIsRead | dollarprice.py:25-27 | Lead digits and ",ddd" groups after a digit-free prefix give the value of the digits with the commas removed |
| DollarPrice.FirstMatchWins | dollarprice.py:25-27 | The leftmost match gives the price |
| DollarPrice.MatchDigits | dollarprice.py:27 | A match without its commas is all digits, so `int` accepts it |
| DollarPrice.NoCommaNoPrice | dollarprice.py:25 | A page without a comma (e.g. "135000") gives no price |
| DollarPrice.FetchUsdPrice | dollarprice.py:20-31 | None when the request raised |
| DollarPrice.CacheStep | dollarprice.py:34-60 | A same-day entry returns its price with the file unchanged. An undecodable file raises. A miss with a failed fetch returns 135000 with the file unchanged; a successful fetch writes {date, price} and returns it |
| DollarPrice.FetchedPriceIsReused | dollarprice.py:38-60 | After a successful fetch, later calls that day return the same price without fetching |
| DollarPrice.FailedFetchIsRetried | dollarprice.py:47-50 | A failed fetch returns 135000 and leaves no entry for today |
| DollarPrice.PriceCache.GetUsdPrice | dollarprice.py:34-60 | Outcome and new cache file are CacheStep of the old file |
| DollarPrice.PriceCache.constructor | dollarprice.py:7 | The cache starts with the given file |

## Left out

- Telegram and aiogram plumbing is not modelled: keyboards, message edits, polling, restart, and which handler wins when several filters match. Each handler is modelled on its own.
- `finance_main` (main.py:83-87) does not clear the FSM state, although the cancel button of the confirm step leads to it. The model follows the code: nothing clears the session there.
- `waiting_for_date` and `waiting_for_note` are declared (main.py:31-32) but no handler enters them; `Conversation.Valid` excludes them.
- The Gemini call, the prompt and `json.loads` are left out. The parse result is an `Option<Json>` parameter of `AiParser.ParseMessage`.
- The AI path's commit (main.py:414) passes 6 arguments to `add_transaction`, so it raises `TypeError` and the handler gives the generic error reply. `Chat.Dispatch` stops at the decision and does not model that call.
- SQLite details are left out: schema creation and migrations, `created_at` and every `ORDER BY`, `strftime`, the admin statistics and the monthly report (database.py:15-112, 320-358, 500-589). Query results keep table order.
- Floats are left out: the REAL columns, `float()` on stored balances (database.py:309) and `float(nums[0])` (main.py:207). Amounts are exact reals and the amount typed is a natural number.
- The 50-digit Decimal context (database.py:7) is left out; division is exact before rounding.
- I/O is not modelled: HTTP, the cache file's reads and writes and its JSON encoding, and `load_dotenv`/`os.getenv`. They are parameters (`response`, `env`, `today`) and the `PriceCache.file` field.
- Concurrency and the async handlers are not modelled.
- Atomicity is not modelled: there is no rollback around `add_transaction`, and `convert_user_currency` has its own rollback. Each method is one atomic step.
- Unicode digits are not modelled. Python's `\d`, `str.isdigit()` and `int()` accept non-ASCII digits (and `int` accepts underscores); the model reads ASCII digits only, after `fa_to_en` for Persian ones.
- Text.ParseInt: `int()` on texts with `_` separators or non-ASCII digits is not modelled; those give None.
- Config.Load: `float()` values are not stored, only whether the conversion succeeds. `float()` also accepts `_` between digits and non-ASCII digits, which the model rejects. The ValueError message quotes the text with plain single quotes; Python's `repr` escaping is not modelled.
- Text.AsciiLower: lowers ASCII capitals only. Python's `str.lower()` also lowers non-ASCII letters, and some of them change length ('İ' becomes two characters).
- Non-text messages are not modelled: the handlers take a `string`. In Python `message.text` is None for a photo or sticker, so `process_amount` raises AttributeError (main.py:199) and `process_plan_title` stores a None title (main.py:301).
- Config.AdminPieces: `isdigit()` accepts characters such as superscript digits on which `int()` raises at import; the model reads ASCII digits only.
- Key rotation and a rule-based fallback extractor do not exist in the code and are not modelled; `GEMINI_API_KEY`, which ai_parser.py:3 imports, is not defined by config.py.
- Ledger.Database.GetBalanceReport: the code assigns every non-'income' group to `expense`, so with other types the last such group wins in GROUP BY order. The model sums the 'expense' rows, which is the same when only 'income' and 'expense' are used.
- Ledger.Database.GetCardSourceBalancesInRange: rows are in card order, not `ORDER BY cs.name`.
- Ledger.Database.GetCardsSources: the result is the user's cards as a set; `ORDER BY created_at DESC` is not modelled.
- The remaining SELECT helpers (`get_transactions_in_range`, `get_monthly_report`, `get_current_month_balance`, `get_all_users`, `get_user_stats`) are outside the modelled core.

## Findings

| source | as written | input that shows it | evidently intended | confidence | as-written member | corrected member |
|---|---|---|---|---|---|---|
| main.py:265 | `db.add_transaction(user_id, amount, type, category, date)` passes 5 positional arguments to a method that needs 7 (database.py:234), so it raises TypeError: `card_source_id` and `date` are missing, and type/category/date land in currency/type/category | amount "100", type_expense, cat_غذا, so the summary with its confirm button is shown; then add_transaction from an earlier finance menu (state waiting_for_amount, data kept); then that summary's confirm button. In waiting_for_category the click would go to process_category, which is registered first | the four values recorded as one transaction and the session cleared | high, not executed | Wizard.Conversation.ConfirmTransactionAsWritten | Wizard.Conversation.ConfirmTransaction |
