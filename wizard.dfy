/** The bot's two step-by-step dialogues, one `Conversation` per user: the
    transaction wizard (amount, type, category, confirm) and the plan
    wizard (title, date, time). Each handler moves the conversation's step
    and its data map as the corresponding aiogram handler does; the ones
    that touch the store call the `Database` methods. */
module Wizard {
  import opened Common
  import opened Text
  import opened LedgerRows
  import opened Ledger
  import Chat

  /** The FSM states; `WaitingForDate` and `WaitingForNote` are declared by
      the transaction group but no handler ever enters them. */
  datatype Step =
    | Idle
    | WaitingForAmount | WaitingForType | WaitingForCategory | WaitingForDate | WaitingForNote
    | PlanWaitingForTitle | PlanWaitingForDate | PlanWaitingForTime

  /** A value stored with `state.update_data`. */
  datatype Value = Number(n: nat) | Str(s: string) | NoneValue

  const ExpenseDefaults: seq<string> := ["غذا", "حمل و نقل", "اجاره", "تفریح", "سایر"]
  const IncomeDefaults: seq<string> := ["حقوق", "پاداش", "سرمایه\U{200C}گذاری", "سایر"]

  /** The type a type button selects: only "type_expense" means expense. */
  function ChosenType(callbackData: string): (kind: string)
    ensures kind == "expense" <==> callbackData == "type_expense"
    ensures kind != "expense" ==> kind == "income"
  {
    if callbackData == "type_expense" then "expense" else "income"
  }

  /** The categories a new user is offered for a type. */
  function DefaultCategories(kind: string): (names: seq<string>)
    ensures kind == "expense" ==> |names| == 5
    ensures kind != "expense" ==> |names| == 4
    ensures names[|names| - 1] == Chat.OtherCategory
  {
    if kind == "expense" then ExpenseDefaults else IncomeDefaults
  }

  /** The rows `add_category` inserts for `names`, ids counting up from `firstId`. */
  function CategoryRows(userId: int, names: seq<string>, kind: string, firstId: int): (rows: seq<Category>)
    ensures |rows| == |names|
    ensures forall i :: 0 <= i < |rows| ==> rows[i] == Category(firstId + i, userId, names[i], kind)
  {
    seq(|names|, i requires 0 <= i < |names| => Category(firstId + i, userId, names[i], kind))
  }

  /** The category `process_category` reads from a "cat_..." button: every
      "cat_" in the callback data is removed. */
  function CategoryAsWritten(callbackData: string): string
  {
    RemoveAll(callbackData, "cat_")
  }

  /** A category whose name itself holds "cat_" is not read back. */
  lemma CategoryAsWrittenLosesMarker()
    ensures CategoryAsWritten("cat_" + "cat_x") == "x"
  {
    var s := "cat_" + "cat_x";
    assert s[0..4] == "cat_" && s[4..] == "cat_x";
    RemoveAllAtStart(s, "cat_");
    assert "cat_x"[0..4] == "cat_" && "cat_x"[4..] == "x";
    RemoveAllAtStart("cat_x", "cat_");
    assert RemoveAll("x", "cat_") == "x";
  }

  /** The category a "cat_" button was made for: the prefix alone removed. */
  function CategoryFromCallback(callbackData: string): (name: string)
    ensures StartsWith(callbackData, "cat_") ==> "cat_" + name == callbackData
  {
    if StartsWith(callbackData, "cat_") then callbackData[4..] else callbackData
  }

  /** Every name survives the round trip through its button. */
  lemma CategoryRoundTrip(name: string)
    ensures CategoryFromCallback("cat_" + name) == name
  {
    assert ("cat_" + name)[..4] == "cat_";
  }

  /** The two readings agree on every name without "cat_" in it. */
  lemma CategoryReadingsAgree(name: string)
    requires !Contains(name, "cat_")
    ensures CategoryAsWritten("cat_" + name) == CategoryFromCallback("cat_" + name) == name
  {
    RemoveAllAfterPrefix("cat_", name);
    CategoryRoundTrip(name);
  }

  /** How the time step is answered: the skip button or a text message. */
  datatype TimeAnswer = Skipped | Typed(text: string)

  /** What the as-written confirm handler raises. */
  datatype Failure = KeyMissing(key: string) | Arity(message: string)

  const ConfirmArityMessage :=
    "Database.add_transaction() missing 2 required positional arguments: 'card_source_id' and 'date'"

  class Conversation {
    var step: Step
    var data: map<string, Value>

    /** Each key holds the kind of value its handler stores, and every step
        has the data the handlers before it stored. */
    ghost predicate Valid()
      reads this
    {
      && ("amount" in data ==> data["amount"].Number?)
      && ("type" in data ==> data["type"].Str?)
      && ("category" in data ==> data["category"].Str?)
      && ("date" in data ==> data["date"].Str?)
      && ("title" in data ==> data["title"].Str?)
      && ("time" in data ==> !data["time"].Number?)
      && (step == WaitingForType ==> "amount" in data)
      && (step == WaitingForCategory ==> "amount" in data && "type" in data)
      && (step == PlanWaitingForDate ==> "title" in data)
      && (step == PlanWaitingForTime ==> "title" in data && "date" in data)
      && step != WaitingForDate && step != WaitingForNote
    }

    constructor()
      ensures Valid() && step == Idle && data == map[]
    {
      step := Idle;
      data := map[];
    }

    /** `state.clear()`. */
    method Clear()
      modifies this
      ensures Valid() && step == Idle && data == map[]
    {
      step := Idle;
      data := map[];
    }

    // ----------------------------------------------- transaction wizard

    /** The "add_transaction" button: asks for the amount. Data left over
        from an abandoned dialogue is kept. */
    method StartAddTransaction()
      requires Valid()
      modifies this
      ensures Valid() && step == WaitingForAmount && data == old(data)
    {
      step := WaitingForAmount;
    }

    /** Reads the amount; a message without digits changes nothing. */
    method ProcessAmount(text: string) returns (accepted: bool)
      requires Valid() && step == WaitingForAmount
      modifies this
      ensures Valid()
      ensures accepted <==> Chat.ExtractAmount(text).Some?
      ensures !accepted ==> step == old(step) && data == old(data)
      ensures accepted ==> step == WaitingForType && data == old(data)["amount" := Number(Chat.ExtractAmount(text).value)]
    {
      match Chat.ExtractAmount(text)
      case None =>
        accepted := false;
      case Some(n) =>
        data := data["amount" := Number(n)];
        step := WaitingForType;
        accepted := true;
    }

    /** Stores the chosen type and offers the user's categories of that
        type; a user with none gets the defaults added, in order. */
    method ProcessType(callbackData: string, userId: int, db: Database) returns (offered: seq<string>)
      requires Valid() && step == WaitingForType && db.Valid()
      modifies this, db
      ensures Valid() && db.Valid()
      ensures var kind := ChosenType(callbackData);
        && step == WaitingForCategory && data == old(data)["type" := Str(kind)]
        && ((forall n :: !HasListed(old(db.categories), userId, Some(kind), n)) ==>
              && offered == DefaultCategories(kind)
              && db.State() == old(db.State()).(categories := old(db.categories) + CategoryRows(userId, offered, kind, old(db.nextCategoryId)),
                                                nextCategoryId := old(db.nextCategoryId) + |offered|))
        && ((exists n :: HasListed(old(db.categories), userId, Some(kind), n)) ==>
              && (forall n :: n in offered <==> HasListed(old(db.categories), userId, Some(kind), n))
              && db.State() == old(db.State()))
    {
      var kind := ChosenType(callbackData);
      data := data["type" := Str(kind)];
      offered := OfferCategories(db, userId, kind);
      step := WaitingForCategory;
    }

    /** Stores the category read from the button and today's date; the step
        stays where it is until the user confirms. */
    method ProcessCategory(callbackData: string, today: string)
      requires Valid() && step == WaitingForCategory
      modifies this
      ensures Valid()
      ensures step == old(step)
      ensures data == old(data)["category" := Str(CategoryAsWritten(callbackData))]["date" := Str(today)]
    {
      data := data["category" := Str(CategoryAsWritten(callbackData))];
      data := data["date" := Str(today)];
    }

    /** The confirm button as written: it reads the four values (a missing
        one raises `KeyError`) and then calls `add_transaction` with five
        positional arguments, which raises `TypeError` before the session is
        cleared. Nothing changes. */
    method ConfirmTransactionAsWritten() returns (raised: Failure)
      ensures unchanged(this)
      ensures "amount" !in data ==> raised == KeyMissing("amount")
      ensures "amount" in data && "type" !in data ==> raised == KeyMissing("type")
      ensures "amount" in data && "type" in data && "category" !in data ==> raised == KeyMissing("category")
      ensures "amount" in data && "type" in data && "category" in data && "date" !in data ==> raised == KeyMissing("date")
      ensures "amount" in data && "type" in data && "category" in data && "date" in data ==>
        raised == Arity(ConfirmArityMessage)
    {
      if "amount" !in data {
        raised := KeyMissing("amount");
      } else if "type" !in data {
        raised := KeyMissing("type");
      } else if "category" !in data {
        raised := KeyMissing("category");
      } else if "date" !in data {
        raised := KeyMissing("date");
      } else {
        raised := Arity(ConfirmArityMessage);
      }
    }

    /** The confirm button as intended: the four values are recorded as one
        transaction (in the currency and on the card the call names) and
        the session is cleared. With a value missing it raises `KeyError`
        and nothing changes. */
    method ConfirmTransaction(userId: int, currency: string, cardSourceId: Option<int>, db: Database) returns (recorded: bool)
      requires Valid() && db.Valid()
      modifies this, db
      ensures Valid() && db.Valid()
      ensures recorded <==> "amount" in old(data) && "type" in old(data) && "category" in old(data) && "date" in old(data)
      ensures !recorded ==> step == old(step) && data == old(data) && db.State() == old(db.State())
      ensures recorded ==>
        && step == Idle && data == map[]
        && var t := Transaction(old(db.nextTransactionId), userId, old(data)["amount"].n as real, currency,
                                old(data)["type"].s, old(data)["category"].s, cardSourceId, old(data)["date"].s, None);
           db.State() == old(db.State()).(transactions := old(db.transactions) + [t],
                                          cards := CardsAfterAdd(old(db.cards), t),
                                          nextTransactionId := old(db.nextTransactionId) + 1)
    {
      if "amount" in data && "type" in data && "category" in data && "date" in data {
        db.AddTransaction(userId, data["amount"].n as real, currency, data["type"].s, data["category"].s,
                          cardSourceId, data["date"].s, None);
        Clear();
        recorded := true;
      } else {
        recorded := false;
      }
    }

    // ------------------------------------------------------ plan wizard

    /** The "add_plan" button: asks for the title. */
    method StartAddPlan()
      requires Valid()
      modifies this
      ensures Valid() && step == PlanWaitingForTitle && data == old(data)
    {
      step := PlanWaitingForTitle;
    }

    method ProcessPlanTitle(text: string)
      requires Valid() && step == PlanWaitingForTitle
      modifies this
      ensures Valid()
      ensures step == PlanWaitingForDate && data == old(data)["title" := Str(text)]
    {
      data := data["title" := Str(text)];
      step := PlanWaitingForDate;
    }

    /** "pdate_tomorrow" stands for tomorrow's date; any other button
        carries its date after the "pdate_" marker. */
    method ProcessPlanDate(callbackData: string, tomorrow: string)
      requires Valid() && step == PlanWaitingForDate
      modifies this
      ensures Valid()
      ensures step == PlanWaitingForTime
      ensures callbackData == "pdate_tomorrow" ==> data == old(data)["date" := Str(tomorrow)]
      ensures callbackData != "pdate_tomorrow" ==> data == old(data)["date" := Str(RemoveAll(callbackData, "pdate_"))]
    {
      var date := if callbackData == "pdate_tomorrow" then tomorrow else RemoveAll(callbackData, "pdate_");
      data := data["date" := Str(date)];
      step := PlanWaitingForTime;
    }

    /** Stores the time (None for the skip button), records the plan and
        clears the session. */
    method ProcessPlanTime(answer: TimeAnswer, userId: int, db: Database)
      requires Valid() && step == PlanWaitingForTime && db.Valid()
      modifies this, db
      ensures Valid() && db.Valid()
      ensures step == Idle && data == map[]
      ensures var time := if answer.Skipped? then None else Some(answer.text);
        db.State() == old(db.State()).(plans := old(db.plans) + [Plan(old(db.nextPlanId), userId, old(data)["title"].s,
                                                                      old(data)["date"].s, time, false)],
                                       nextPlanId := old(db.nextPlanId) + 1)
    {
      var time := if answer.Skipped? then None else Some(answer.text);
      data := data["time" := if answer.Skipped? then NoneValue else Str(answer.text)];
      db.AddPlan(userId, data["title"].s, data["date"].s, time);
      Clear();
    }
  }

  /** The categories `process_type` offers: the user's own of that type,
      or the defaults, added first, when there are none. */
  method OfferCategories(db: Database, userId: int, kind: string) returns (offered: seq<string>)
    requires db.Valid()
    modifies db
    ensures db.Valid()
    ensures (forall n :: !HasListed(old(db.categories), userId, Some(kind), n)) ==>
              && offered == DefaultCategories(kind)
              && db.State() == old(db.State()).(categories := old(db.categories) + CategoryRows(userId, offered, kind, old(db.nextCategoryId)),
                                                nextCategoryId := old(db.nextCategoryId) + |offered|)
    ensures (exists n :: HasListed(old(db.categories), userId, Some(kind), n)) ==>
              && (forall n :: n in offered <==> HasListed(old(db.categories), userId, Some(kind), n))
              && db.State() == old(db.State())
  {
    offered := db.GetCategories(userId, Some(kind));
    if offered == [] {
      offered := DefaultCategories(kind);
      AddCategories(db, userId, offered, kind);
    } else {
      assert offered[0] in offered;
    }
  }

  /** `for cat in names: db.add_category(user_id, cat, type)`. */
  method AddCategories(db: Database, userId: int, names: seq<string>, kind: string)
    requires db.Valid()
    modifies db
    ensures db.Valid()
    ensures db.State() == old(db.State()).(categories := old(db.categories) + CategoryRows(userId, names, kind, old(db.nextCategoryId)),
                                           nextCategoryId := old(db.nextCategoryId) + |names|)
  {
    var i := 0;
    while i < |names|
      invariant 0 <= i <= |names|
      invariant db.Valid()
      invariant db.State() == old(db.State()).(categories := old(db.categories) + CategoryRows(userId, names[..i], kind, old(db.nextCategoryId)),
                                               nextCategoryId := old(db.nextCategoryId) + i)
    {
      db.AddCategory(userId, names[i], kind);
      assert names[..i + 1] == names[..i] + [names[i]];
      assert CategoryRows(userId, names[..i + 1], kind, old(db.nextCategoryId))
          == CategoryRows(userId, names[..i], kind, old(db.nextCategoryId)) + [Category(old(db.nextCategoryId) + i, userId, names[i], kind)];
      i := i + 1;
    }
    assert names[..|names|] == names;
  }

  // ------------------------------------------------------ plan buttons

  /** A "done_plan_<id>" button: marks the plan done. Data that `int`
      rejects raises `ValueError` and nothing changes. */
  method DonePlan(callbackData: string, db: Database) returns (planId: Option<int>)
    requires db.Valid()
    modifies db
    ensures db.Valid()
    ensures planId == Chat.ParsePlanId(callbackData, "done_plan_")
    ensures planId.None? ==> db.State() == old(db.State())
    ensures planId.Some? ==> db.State() == old(db.State()).(plans := MarkDone(old(db.plans), planId.value))
  {
    planId := Chat.ParsePlanId(callbackData, "done_plan_");
    if planId.Some? {
      db.MarkPlanDone(planId.value);
    }
  }

  /** A "del_plan_<id>" button: deletes the plan. */
  method DelPlan(callbackData: string, db: Database) returns (planId: Option<int>)
    requires db.Valid()
    modifies db
    ensures db.Valid()
    ensures planId == Chat.ParsePlanId(callbackData, "del_plan_")
    ensures planId.None? ==> db.State() == old(db.State())
    ensures planId.Some? ==> db.State() == old(db.State()).(plans := Delete(old(db.plans), PlanId, planId.value))
  {
    planId := Chat.ParsePlanId(callbackData, "del_plan_");
    if planId.Some? {
      db.DeletePlan(planId.value);
    }
  }
}
