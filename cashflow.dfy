/**
 * The cash-flow tool: a ledger of transactions and a list of categories. Category names are
 * lower-cased; a transaction's category reuses the id of an existing category of that name, else
 * a new category is added; updates and deletions act on the first transaction matching both the
 * transaction id and the user id. Amounts are reals, dates are seconds, date parsing is a
 * parameter, and the clock readings used for new ids are parameters.
 */
module CashFlow {
  import opened Wrappers
  import opened Text
  import opened Json

  datatype Category = Category(id: string, name: string)

  datatype Transaction = Transaction(
    id: string, userId: string, kind: string, amount: real, currency: string,
    category: Category, description: string, date: int)

  /** The figures `get_analytics` reports; `balance` is income minus expense. */
  datatype Analytics = Analytics(
    totalIncome: real, totalExpense: real, balance: real,
    incomeByCategory: map<string, real>, expenseByCategory: map<string, real>, transactionCount: nat)

  /**
   * What the tool answers. Every answer is a text in the tool; the model tells an error text
   * ("Error: ...") from a confirmation, and keeps the JSON renderings as values.
   */
  datatype Answer =
    | Done(text: string)
    | Refused(error: string)
    | TransactionList(transactions: seq<Transaction>)
    | CategoryList(categories: seq<Category>)
    | Report(analytics: Analytics)
    | Panicked

  /** `parseDate`: RFC 3339, else a YYYY-MM-DD day; `None` when neither reads. */
  type ParseDate = string -> Option<int>

  const Currencies: set<string> := {"IDR", "USD", "EUR", "JPY", "GBP"}

  const UserRequired := "Error: user_id is required"

  /** The user id a handler requires: present, a string, and non-empty. */
  function UserOf(params: Json): (r: Option<string>)
    ensures r.Some? ==> r.value != "" && StringField(params, "user_id") == r
    ensures r.None? ==> StringField(params, "user_id").None? || StringField(params, "user_id") == Some("")
  {
    match StringField(params, "user_id")
    case Some(u) => if u == "" then None else Some(u)
    case None => None
  }

  /** The validated fields of a transaction, in the order the handlers check them. */
  datatype Fields = Fields(kind: string, amount: real, currency: string, date: int, categoryName: string)

  /**
   * The validation shared by adding and updating: the type is income or expense, the amount is
   * positive, the currency (IDR when absent) is one of five, the date reads, and the category
   * has a non-empty name, which is lower-cased.
   */
  function ReadFields(t: Json, parseDate: ParseDate): (r: Result<Fields, string>)
    ensures r.Ok? ==> r.value.kind in {"income", "expense"} && r.value.amount > 0.0 && r.value.currency in Currencies
    ensures r.Ok? ==> r.value.categoryName != "" && r.value.categoryName == ToLower(r.value.categoryName)
    ensures StringField(t, "type").None? || StringField(t, "type").value !in {"income", "expense"} ==>
      r == Err("Error: invalid transaction type")
  {
    var kind := StringField(t, "type");
    var amount := NumberField(t, "amount");
    var currency := StringField(t, "currency").GetOr("IDR");
    var dateStr := StringField(t, "date");
    if kind.None? || (kind.value != "income" && kind.value != "expense") then Err("Error: invalid transaction type")
    else if amount.None? || amount.value <= 0.0 then Err("Error: transaction amount must be greater than 0")
    else if currency !in Currencies then Err("Error: invalid currency")
    else if dateStr.None? then Err("Error: invalid date format")
    else if parseDate(dateStr.value).None? then Err("Error: invalid date format: " + dateStr.value)
    else if ObjectField(t, "category").None? then Err("Error: invalid category data")
    else
      var name := StringField(ObjectField(t, "category").value, "name");
      if name.None? || name.value == "" then Err("Error: category name cannot be empty")
      else
        LowerIsIdempotent(name.value);
        Ok(Fields(kind.value, amount.value, currency, parseDate(dateStr.value).value, ToLower(name.value)))
  }

  /** Lower-casing twice is lower-casing once, and keeps a non-empty name non-empty. */
  lemma LowerIsIdempotent(s: string)
    ensures ToLower(ToLower(s)) == ToLower(s) && |ToLower(s)| == |s|
  {
  }

  /** The first transaction with this id belonging to this user, if any. */
  function FirstTransaction(ts: seq<Transaction>, id: string, userId: string): (r: Option<nat>)
    ensures r.Some? ==> r.value < |ts| && ts[r.value].id == id && ts[r.value].userId == userId
    ensures r.Some? ==> forall j | 0 <= j < r.value :: !(ts[j].id == id && ts[j].userId == userId)
    ensures r.None? ==> forall j | 0 <= j < |ts| :: !(ts[j].id == id && ts[j].userId == userId)
  {
    if |ts| == 0 then None
    else if ts[0].id == id && ts[0].userId == userId then Some(0)
    else match FirstTransaction(ts[1..], id, userId)
      case None => None
      case Some(i) => Some(i + 1)
  }

  /** The first category with this name, if any. */
  function FirstCategory(cs: seq<Category>, name: string): (r: Option<nat>)
    ensures r.Some? ==> r.value < |cs| && cs[r.value].name == name
    ensures r.Some? ==> forall j | 0 <= j < r.value :: cs[j].name != name
    ensures r.None? ==> forall j | 0 <= j < |cs| :: cs[j].name != name
  {
    if |cs| == 0 then None
    else if cs[0].name == name then Some(0)
    else match FirstCategory(cs[1..], name)
      case None => None
      case Some(i) => Some(i + 1)
  }

  /** A transaction the queries select: the user's, dated from `start` to `end` inclusive. */
  predicate InPeriod(t: Transaction, userId: string, start: int, end: int) {
    t.userId == userId && start <= t.date <= end
  }

  function Selected(ts: seq<Transaction>, userId: string, start: int, end: int): (r: seq<Transaction>)
    ensures |r| <= |ts|
  {
    if ts == [] then []
    else
      var last := ts[|ts| - 1];
      Selected(ts[..|ts| - 1], userId, start, end) + (if InPeriod(last, userId, start, end) then [last] else [])
  }

  /** The queries select exactly the user's transactions in the period. */
  lemma {:induction false} SelectedMeaning(ts: seq<Transaction>, userId: string, start: int, end: int, t: Transaction)
    ensures t in Selected(ts, userId, start, end) <==> t in ts && InPeriod(t, userId, start, end)
  {
    if ts != [] {
      SelectedMeaning(ts[..|ts| - 1], userId, start, end, t);
      assert ts == ts[..|ts| - 1] + [ts[|ts| - 1]];
    }
  }

  /** Adds an amount to a per-category total. */
  function Credit(m: map<string, real>, name: string, amount: real): map<string, real> {
    m[name := (if name in m then m[name] else 0.0) + amount]
  }

  /** The running figures of `get_analytics` over a list; everything that is not income counts as expense. */
  function Tally(ts: seq<Transaction>): (a: Analytics)
    ensures a.transactionCount == |ts| && a.balance == a.totalIncome - a.totalExpense
  {
    if ts == [] then Analytics(0.0, 0.0, 0.0, map[], map[], 0)
    else
      var a := Tally(ts[..|ts| - 1]);
      var t := ts[|ts| - 1];
      if t.kind == "income" then
        Analytics(a.totalIncome + t.amount, a.totalExpense, a.totalIncome + t.amount - a.totalExpense,
                  Credit(a.incomeByCategory, t.category.name, t.amount), a.expenseByCategory, a.transactionCount + 1)
      else
        Analytics(a.totalIncome, a.totalExpense + t.amount, a.totalIncome - (a.totalExpense + t.amount),
                  a.incomeByCategory, Credit(a.expenseByCategory, t.category.name, t.amount), a.transactionCount + 1)
  }

  /** The sum of the amounts of one kind (`income`, or anything else as expense). */
  function Total(ts: seq<Transaction>, income: bool): real {
    if ts == [] then 0.0
    else Total(ts[..|ts| - 1], income) + (if (ts[|ts| - 1].kind == "income") == income then ts[|ts| - 1].amount else 0.0)
  }

  /** The totals are the sums of income and of expense, and only categories that occur get an entry. */
  lemma {:induction false} TallyTotals(ts: seq<Transaction>)
    ensures Tally(ts).totalIncome == Total(ts, true) && Tally(ts).totalExpense == Total(ts, false)
    ensures forall name | name in Tally(ts).incomeByCategory ::
      exists k | 0 <= k < |ts| :: ts[k].kind == "income" && ts[k].category.name == name
    ensures forall name | name in Tally(ts).expenseByCategory ::
      exists k | 0 <= k < |ts| :: ts[k].kind != "income" && ts[k].category.name == name
  {
    if ts != [] {
      var init := ts[..|ts| - 1];
      TallyTotals(init);
      forall name | name in Tally(ts).incomeByCategory
        ensures exists k | 0 <= k < |ts| :: ts[k].kind == "income" && ts[k].category.name == name
      {
        if name in Tally(init).incomeByCategory {
          var k :| 0 <= k < |init| && init[k].kind == "income" && init[k].category.name == name;
          assert ts[k] == init[k];
        } else {
          assert ts[|ts| - 1].kind == "income" && ts[|ts| - 1].category.name == name;
        }
      }
      forall name | name in Tally(ts).expenseByCategory
        ensures exists k | 0 <= k < |ts| :: ts[k].kind != "income" && ts[k].category.name == name
      {
        if name in Tally(init).expenseByCategory {
          var k :| 0 <= k < |init| && init[k].kind != "income" && init[k].category.name == name;
          assert ts[k] == init[k];
        } else {
          assert ts[|ts| - 1].kind != "income" && ts[|ts| - 1].category.name == name;
        }
      }
    }
  }

  function Stamp(prefix: string, now: int): string {
    prefix + IntToString(now)
  }

  /** An add request: the user, the transaction object, and its validated fields. */
  function AddRequest(params: Json, parseDate: ParseDate): (r: Result<(string, Json, Fields), string>)
    ensures UserOf(params).None? ==> r == Err(UserRequired)
    ensures r.Ok? ==> UserOf(params) == Some(r.value.0) && ObjectField(params, "transaction") == Some(r.value.1)
                      && ReadFields(r.value.1, parseDate) == Ok(r.value.2)
  {
    if UserOf(params).None? then Err(UserRequired)
    else if ObjectField(params, "transaction").None? then Err("Error: invalid transaction data")
    else match ReadFields(ObjectField(params, "transaction").value, parseDate)
      case Err(e) => Err(e)
      case Ok(f) => Ok((UserOf(params).value, ObjectField(params, "transaction").value, f))
  }

  /** An update request: the user, the transaction id, the transaction object, and its validated fields. */
  function UpdateRequest(params: Json, parseDate: ParseDate): (r: Result<(string, string, Json, Fields), string>)
    ensures UserOf(params).None? ==> r == Err(UserRequired)
    ensures r.Ok? ==> UserOf(params) == Some(r.value.0) && StringField(params, "transaction_id") == Some(r.value.1)
                      && ObjectField(params, "transaction") == Some(r.value.2)
                      && ReadFields(r.value.2, parseDate) == Ok(r.value.3)
  {
    if UserOf(params).None? then Err(UserRequired)
    else if StringField(params, "transaction_id").None? then Err("Error: transaction ID not found")
    else if ObjectField(params, "transaction").None? then Err("Error: invalid transaction data")
    else match ReadFields(ObjectField(params, "transaction").value, parseDate)
      case Err(e) => Err(e)
      case Ok(f) => Ok((UserOf(params).value, StringField(params, "transaction_id").value, ObjectField(params, "transaction").value, f))
  }

  /** A delete request: the user and the transaction id. */
  function DeleteRequest(params: Json): (r: Result<(string, string), string>)
    ensures r.Ok? <==> UserOf(params).Some? && StringField(params, "transaction_id").Some?
  {
    if UserOf(params).None? then Err(UserRequired)
    else if StringField(params, "transaction_id").None? then Err("Error: transaction ID not found")
    else Ok((UserOf(params).value, StringField(params, "transaction_id").value))
  }

  /**
   * The period both queries read: the user, then the date range object, whose `start` and `end`
   * must be strings (otherwise the handler crashes) that parse as dates.
   */
  function Period(params: Json, parseDate: ParseDate): (r: Result<(string, int, int), Answer>)
    ensures r.Err? ==> r.error.Refused? || r.error.Panicked?
    ensures r.Ok? ==> UserOf(params) == Some(r.value.0)
  {
    if UserOf(params).None? then Err(Refused(UserRequired))
    else if ObjectField(params, "date_range").None? then Err(Refused("Error: invalid date range"))
    else
      var range := ObjectField(params, "date_range").value;
      if StringField(range, "start").None? then Err(Panicked)
      else if parseDate(StringField(range, "start").value).None? then
        Err(Refused("Error: invalid start date format: invalid date format: " + StringField(range, "start").value))
      else if StringField(range, "end").None? then Err(Panicked)
      else if parseDate(StringField(range, "end").value).None? then
        Err(Refused("Error: invalid end date format: invalid date format: " + StringField(range, "end").value))
      else Ok((UserOf(params).value, parseDate(StringField(range, "start").value).value,
               parseDate(StringField(range, "end").value).value))
  }

  /** An add-category request: the lower-cased non-empty name and the given id ("" when none). */
  function CategoryRequest(params: Json): (r: Result<(string, string), string>)
    ensures r.Ok? ==> r.value.0 != "" && r.value.0 == ToLower(r.value.0)
    ensures r.Ok? ==> ObjectField(params, "category").Some?
                      && StringField(ObjectField(params, "category").value, "name").Some?
                      && r.value.0 == ToLower(StringField(ObjectField(params, "category").value, "name").value)
  {
    if ObjectField(params, "category").None? then Err("Error: invalid category data")
    else
      var data := ObjectField(params, "category").value;
      var name := StringField(data, "name");
      if name.None? || name.value == "" then Err("Error: category name cannot be empty")
      else
        LowerIsIdempotent(name.value);
        Ok((ToLower(name.value), StringField(data, "id").GetOr("")))
  }

  /** The category a transaction gets: the existing one of its name, else a new one with a clock-made id. */
  function CategoryFor(categories: seq<Category>, name: string, catTime: int): (c: Category)
    ensures c.name == name
    ensures FirstCategory(categories, name).Some? ==> c in categories
  {
    match FirstCategory(categories, name)
    case Some(j) => categories[j]
    case None => Category(Stamp("cat_", catTime), name)
  }

  /** The categories after a transaction gets its category: unchanged, or one appended. */
  function CategoriesAfter(categories: seq<Category>, name: string, catTime: int): (r: seq<Category>)
    ensures FirstCategory(categories, name).Some? ==> r == categories
    ensures FirstCategory(categories, name).None? ==> r == categories + [CategoryFor(categories, name, catTime)]
  {
    if FirstCategory(categories, name).Some? then categories else categories + [CategoryFor(categories, name, catTime)]
  }

  const WritingActions: set<string> := {"add_transaction", "update_transaction", "delete_transaction", "add_category"}
  const QueryActions: set<string> := {"get_transactions", "get_analytics", "get_categories"}

  /** No two categories share a name. */
  predicate DistinctNames(cs: seq<Category>) {
    forall i, j | 0 <= i < j < |cs| :: cs[i].name != cs[j].name
  }

  /** Giving a transaction its category never makes two categories share a name. */
  lemma CategoriesStayDistinct(cs: seq<Category>, name: string, catTime: int)
    requires DistinctNames(cs)
    ensures DistinctNames(CategoriesAfter(cs, name, catTime))
  {
    if FirstCategory(cs, name).None? {
      NewNameKeepsDistinct(cs, CategoryFor(cs, name, catTime));
    }
  }

  /** Appending a category whose name is new (as `add_category` does) keeps names distinct. */
  lemma NewNameKeepsDistinct(cs: seq<Category>, c: Category)
    requires DistinctNames(cs) && FirstCategory(cs, c.name).None?
    ensures DistinctNames(cs + [c])
  {
    var r := cs + [c];
    forall i, j | 0 <= i < j < |r| ensures r[i].name != r[j].name {
      if j == |cs| {
        assert r[i] == cs[i];
      }
    }
  }

  /** The balance is the income total less the expense total. */
  lemma BalanceIsIncomeLessExpense(ts: seq<Transaction>)
    ensures Tally(ts).balance == Total(ts, true) - Total(ts, false)
  {
    TallyTotals(ts);
  }

  /* ---------------- the writing actions, as effects on the data ---------------- */

  /** `add_transaction`: the ledger, the categories and the answer afterwards. */
  function AddEffect(ts: seq<Transaction>, cs: seq<Category>, params: Json, parseDate: ParseDate, trxTime: int, catTime: int)
    : (seq<Transaction>, seq<Category>, Answer)
  {
    match AddRequest(params, parseDate)
    case Err(e) => (ts, cs, Refused(e))
    case Ok(request) =>
      var (user, data, f) := request;
      match StringField(data, "description")
      case None => (ts, cs, Panicked)
      case Some(description) =>
        (ts + [Transaction(Stamp("trx_", trxTime), user, f.kind, f.amount, f.currency,
                           CategoryFor(cs, f.categoryName, catTime), description, f.date)],
         CategoriesAfter(cs, f.categoryName, catTime),
         Done("Transaction added successfully with ID: " + Stamp("trx_", trxTime)))
  }

  /** `update_transaction`: the ledger, the categories and the answer afterwards. */
  function UpdateEffect(ts: seq<Transaction>, cs: seq<Category>, params: Json, parseDate: ParseDate, catTime: int)
    : (seq<Transaction>, seq<Category>, Answer)
  {
    match UpdateRequest(params, parseDate)
    case Err(e) => (ts, cs, Refused(e))
    case Ok(request) =>
      var (user, id, data, f) := request;
      match FirstTransaction(ts, id, user)
      case None => (ts, cs, Refused("Error: transaction not found"))
      case Some(i) =>
        match StringField(data, "description")
        case None => (ts, cs, Panicked)
        case Some(description) =>
          (ts[i := Transaction(id, user, f.kind, f.amount, f.currency, CategoryFor(cs, f.categoryName, catTime), description, f.date)],
           CategoriesAfter(cs, f.categoryName, catTime),
           Done("Transaction updated successfully with ID: " + id))
  }

  /** `delete_transaction`: the ledger, the categories and the answer afterwards. */
  function DeleteEffect(ts: seq<Transaction>, cs: seq<Category>, params: Json): (seq<Transaction>, seq<Category>, Answer) {
    match DeleteRequest(params)
    case Err(e) => (ts, cs, Refused(e))
    case Ok(request) =>
      var (user, id) := request;
      match FirstTransaction(ts, id, user)
      case None => (ts, cs, Refused("Error: transaction not found"))
      case Some(i) => (ts[..i] + ts[i + 1..], cs, Done("Transaction deleted successfully"))
  }

  /** `add_category`: the ledger, the categories and the answer afterwards. */
  function CategoryEffect(ts: seq<Transaction>, cs: seq<Category>, params: Json, now: int): (seq<Transaction>, seq<Category>, Answer) {
    match CategoryRequest(params)
    case Err(e) => (ts, cs, Refused(e))
    case Ok(request) =>
      var (name, given) := request;
      if FirstCategory(cs, name).Some? then (ts, cs, Refused("Error: category with this name already exists"))
      else (ts, cs + [Category(if given == "" then Stamp("cat_", now) else given, name)], Done("Category added successfully"))
  }

  /** None of the writing actions makes two categories share a name. */
  lemma WritesKeepNamesDistinct(ts: seq<Transaction>, cs: seq<Category>, params: Json, parseDate: ParseDate,
                                trxTime: int, catTime: int)
    requires DistinctNames(cs)
    ensures DistinctNames(AddEffect(ts, cs, params, parseDate, trxTime, catTime).1)
    ensures DistinctNames(UpdateEffect(ts, cs, params, parseDate, catTime).1)
    ensures DistinctNames(DeleteEffect(ts, cs, params).1)
    ensures DistinctNames(CategoryEffect(ts, cs, params, catTime).1)
  {
    var add := AddRequest(params, parseDate);
    if add.Ok? {
      CategoriesStayDistinct(cs, add.value.2.categoryName, catTime);
    }
    var update := UpdateRequest(params, parseDate);
    if update.Ok? {
      CategoriesStayDistinct(cs, update.value.3.categoryName, catTime);
    }
    var category := CategoryRequest(params);
    if category.Ok? && FirstCategory(cs, category.value.0).None? {
      var (name, given) := category.value;
      NewNameKeepsDistinct(cs, Category(if given == "" then Stamp("cat_", catTime) else given, name));
    }
  }

  /** The cash-flow data file. */
  class CashFlowTool {
    var transactions: seq<Transaction>
    var categories: seq<Category>

    constructor()
      ensures transactions == [] && categories == []
    {
      transactions := [];
      categories := [];
    }

    /** The category-name scan of the handlers. */
    method FindCategory(name: string) returns (r: Option<nat>)
      ensures r == FirstCategory(categories, name)
    {
      for k := 0 to |categories|
        invariant forall j | 0 <= j < k :: categories[j].name != name
      {
        if categories[k].name == name {
          FirstCategoryIsFirst(categories, name, k);
          return Some(k);
        }
      }
      return None;
    }

    /** Gives a transaction its category, adding the category when its name is new. */
    method AssignCategory(name: string, catTime: int) returns (c: Category)
      modifies this
      ensures transactions == old(transactions)
      ensures c == CategoryFor(old(categories), name, catTime)
      ensures categories == CategoriesAfter(old(categories), name, catTime)
    {
      var existing := FindCategory(name);
      if existing.Some? {
        c := categories[existing.value];
      } else {
        c := Category(Stamp("cat_", catTime), name);
        categories := categories + [c];
      }
    }

    /**
     * `handleAddTransaction`: appends one transaction for the user, whose category is the existing
     * one of that name or a new one; `trxTime` and `catTime` are the clock readings for the new
     * ids. A description that is not a string crashes.
     */
    method AddTransaction(params: Json, parseDate: ParseDate, trxTime: int, catTime: int) returns (a: Answer)
      modifies this
      ensures (transactions, categories, a) == AddEffect(old(transactions), old(categories), params, parseDate, trxTime, catTime)
      ensures AddRequest(params, parseDate).Err? ==>
        a == Refused(AddRequest(params, parseDate).error) && unchanged(this)
      ensures AddRequest(params, parseDate).Ok? ==>
        var (user, data, f) := AddRequest(params, parseDate).value;
        match StringField(data, "description")
        case None => a == Panicked && unchanged(this)
        case Some(description) =>
          a == Done("Transaction added successfully with ID: " + Stamp("trx_", trxTime))
          && transactions == old(transactions) + [Transaction(Stamp("trx_", trxTime), user, f.kind, f.amount, f.currency,
                                                              CategoryFor(old(categories), f.categoryName, catTime), description, f.date)]
          && categories == CategoriesAfter(old(categories), f.categoryName, catTime)
    {
      var request := AddRequest(params, parseDate);
      if request.Err? { return Refused(request.error); }
      var (user, data, f) := request.value;
      var description := StringField(data, "description");
      if description.None? { return Panicked; }
      var category := AssignCategory(f.categoryName, catTime);
      var trxId := Stamp("trx_", trxTime);
      transactions := transactions + [Transaction(trxId, user, f.kind, f.amount, f.currency, category, description.value, f.date)];
      return Done("Transaction added successfully with ID: " + trxId);
    }

    /** The scan for the first transaction with this id and user. */
    method FindTransaction(id: string, userId: string) returns (r: Option<nat>)
      ensures r == FirstTransaction(transactions, id, userId)
    {
      for k := 0 to |transactions|
        invariant forall j | 0 <= j < k :: !(transactions[j].id == id && transactions[j].userId == userId)
      {
        if transactions[k].id == id && transactions[k].userId == userId {
          FirstTransactionIsFirst(transactions, id, userId, k);
          return Some(k);
        }
      }
      return None;
    }

    /**
     * `handleUpdateTransaction`: rewrites the first transaction with this id and user (keeping its
     * id and user), with the category of that name or a new one; without such a transaction,
     * "transaction not found" and no change. The description is read only once a match is found.
     */
    method UpdateTransaction(params: Json, parseDate: ParseDate, catTime: int) returns (a: Answer)
      modifies this
      ensures (transactions, categories, a) == UpdateEffect(old(transactions), old(categories), params, parseDate, catTime)
      ensures UpdateRequest(params, parseDate).Err? ==>
        a == Refused(UpdateRequest(params, parseDate).error) && unchanged(this)
      ensures UpdateRequest(params, parseDate).Ok? ==>
        var (user, id, data, f) := UpdateRequest(params, parseDate).value;
        match FirstTransaction(old(transactions), id, user)
        case None => a == Refused("Error: transaction not found") && unchanged(this)
        case Some(i) =>
          match StringField(data, "description")
          case None => a == Panicked && unchanged(this)
          case Some(description) =>
            a == Done("Transaction updated successfully with ID: " + id)
            && transactions == old(transactions)[i := Transaction(id, user, f.kind, f.amount, f.currency,
                                                                  CategoryFor(old(categories), f.categoryName, catTime), description, f.date)]
            && categories == CategoriesAfter(old(categories), f.categoryName, catTime)
    {
      var request := UpdateRequest(params, parseDate);
      if request.Err? { return Refused(request.error); }
      var (user, id, data, f) := request.value;
      var found := FindTransaction(id, user);
      if found.None? { return Refused("Error: transaction not found"); }
      var description := StringField(data, "description");
      if description.None? { return Panicked; }
      var category := AssignCategory(f.categoryName, catTime);
      transactions := transactions[found.value := Transaction(id, user, f.kind, f.amount, f.currency, category, description.value, f.date)];
      return Done("Transaction updated successfully with ID: " + id);
    }

    /** `handleDeleteTransaction`: removes the first transaction with this id and user, keeping the others in order. */
    method DeleteTransaction(params: Json) returns (a: Answer)
      modifies this
      ensures (transactions, categories, a) == DeleteEffect(old(transactions), old(categories), params)
      ensures categories == old(categories)
      ensures DeleteRequest(params).Err? ==> a == Refused(DeleteRequest(params).error) && transactions == old(transactions)
      ensures DeleteRequest(params).Ok? ==>
        var (user, id) := DeleteRequest(params).value;
        match FirstTransaction(old(transactions), id, user)
        case None => a == Refused("Error: transaction not found") && transactions == old(transactions)
        case Some(i) => a == Done("Transaction deleted successfully") && transactions == old(transactions)[..i] + old(transactions)[i + 1..]
    {
      var request := DeleteRequest(params);
      if request.Err? { return Refused(request.error); }
      var (user, id) := request.value;
      var found := FindTransaction(id, user);
      if found.None? { return Refused("Error: transaction not found"); }
      transactions := transactions[..found.value] + transactions[found.value + 1..];
      return Done("Transaction deleted successfully");
    }

    /** The user's transactions dated within the period, in ledger order. */
    method Select(userId: string, start: int, end: int) returns (r: seq<Transaction>)
      ensures r == Selected(transactions, userId, start, end)
    {
      r := [];
      for k := 0 to |transactions|
        invariant r == Selected(transactions[..k], userId, start, end)
      {
        assert transactions[..k + 1][..k] == transactions[..k];
        var t := transactions[k];
        if t.userId == userId && start <= t.date && t.date <= end {
          r := r + [t];
        }
      }
      assert transactions[..|transactions|] == transactions;
    }

    /** `handleGetTransactions`: the user's transactions dated within the period. */
    method GetTransactions(params: Json, parseDate: ParseDate) returns (a: Answer)
      ensures Period(params, parseDate).Err? ==> a == Period(params, parseDate).error
      ensures Period(params, parseDate).Ok? ==>
        var (user, start, end) := Period(params, parseDate).value;
        a == TransactionList(Selected(transactions, user, start, end))
    {
      var period := Period(params, parseDate);
      if period.Err? { return period.error; }
      var (user, start, end) := period.value;
      var chosen := Select(user, start, end);
      return TransactionList(chosen);
    }

    /** `handleGetAnalytics`: the figures of the user's transactions dated within the period. */
    method GetAnalytics(params: Json, parseDate: ParseDate) returns (a: Answer)
      ensures Period(params, parseDate).Err? ==> a == Period(params, parseDate).error
      ensures Period(params, parseDate).Ok? ==>
        var (user, start, end) := Period(params, parseDate).value;
        a == Report(Tally(Selected(transactions, user, start, end)))
    {
      var period := Period(params, parseDate);
      if period.Err? { return period.error; }
      var (user, start, end) := period.value;
      var totalIncome, totalExpense := 0.0, 0.0;
      var incomeByCategory: map<string, real> := map[];
      var expenseByCategory: map<string, real> := map[];
      var transactionCount := 0;
      ghost var chosen: seq<Transaction> := [];
      for k := 0 to |transactions|
        invariant chosen == Selected(transactions[..k], user, start, end)
        invariant Tally(chosen) == Analytics(totalIncome, totalExpense, totalIncome - totalExpense,
                                             incomeByCategory, expenseByCategory, transactionCount)
      {
        assert transactions[..k + 1][..k] == transactions[..k];
        var t := transactions[k];
        if t.userId == user && start <= t.date && t.date <= end {
          assert (chosen + [t])[..|chosen|] == chosen;
          chosen := chosen + [t];
          transactionCount := transactionCount + 1;
          if t.kind == "income" {
            totalIncome := totalIncome + t.amount;
            incomeByCategory := Credit(incomeByCategory, t.category.name, t.amount);
          } else {
            totalExpense := totalExpense + t.amount;
            expenseByCategory := Credit(expenseByCategory, t.category.name, t.amount);
          }
        }
      }
      assert transactions[..|transactions|] == transactions;
      return Report(Analytics(totalIncome, totalExpense, totalIncome - totalExpense, incomeByCategory, expenseByCategory, transactionCount));
    }

    /**
     * `handleAddCategory`: a non-empty name, lower-cased, not already present; the given id, else
     * one made from the clock.
     */
    method AddCategory(params: Json, now: int) returns (a: Answer)
      modifies this
      ensures (transactions, categories, a) == CategoryEffect(old(transactions), old(categories), params, now)
      ensures transactions == old(transactions)
      ensures CategoryRequest(params).Err? ==> a == Refused(CategoryRequest(params).error) && categories == old(categories)
      ensures CategoryRequest(params).Ok? ==>
        var (name, given) := CategoryRequest(params).value;
        if FirstCategory(old(categories), name).Some? then
          a == Refused("Error: category with this name already exists") && categories == old(categories)
        else
          a == Done("Category added successfully")
          && categories == old(categories) + [Category(if given == "" then Stamp("cat_", now) else given, name)]
    {
      var request := CategoryRequest(params);
      if request.Err? { return Refused(request.error); }
      var (name, given) := request.value;
      var existing := FindCategory(name);
      if existing.Some? { return Refused("Error: category with this name already exists"); }
      var id := if given == "" then Stamp("cat_", now) else given;
      categories := categories + [Category(id, name)];
      return Done("Category added successfully");
    }

    /** `handleGetCategories`: every category. */
    method GetCategories() returns (a: Answer)
      ensures a == CategoryList(categories)
    {
      return CategoryList(categories);
    }

    /**
     * `CallTool`: decodes the arguments and dispatches on the action. Only the four writing actions
     * change the data, each as its handler does; the queries answer from it as their handlers do.
     */
    method CallTool(arguments: string, decode: string -> Result<Json, string>, parseDate: ParseDate, trxTime: int, catTime: int)
      returns (a: Answer)
      modifies this
      ensures decode(arguments).Err? ==>
        a == Refused("Error parsing arguments: " + decode(arguments).error) && unchanged(this)
      ensures decode(arguments).Ok? && StringField(decode(arguments).value, "action").None? ==>
        a == Refused("Error: action not found") && unchanged(this)
      ensures decode(arguments).Ok? && StringField(decode(arguments).value, "action").Some? ==>
        var params := decode(arguments).value;
        var action := StringField(params, "action").value;
        (action !in WritingActions ==> unchanged(this))
        && (action !in WritingActions + QueryActions ==> a == Refused("Error: invalid action: " + action))
        && (action == "get_categories" ==> a == CategoryList(categories))
        && (action in {"get_transactions", "get_analytics"} && Period(params, parseDate).Err? ==> a == Period(params, parseDate).error)
        && (action in {"get_transactions", "get_analytics"} && Period(params, parseDate).Ok? ==>
              var (user, start, end) := Period(params, parseDate).value;
              var chosen := Selected(transactions, user, start, end);
              a == if action == "get_transactions" then TransactionList(chosen) else Report(Tally(chosen)))
      ensures decode(arguments).Ok? && StringField(decode(arguments).value, "action").Some? ==>
        var params := decode(arguments).value;
        var action := StringField(params, "action").value;
        var before := (old(transactions), old(categories));
        (action == "add_transaction" ==>
           (transactions, categories, a) == AddEffect(before.0, before.1, params, parseDate, trxTime, catTime))
        && (action == "update_transaction" ==>
           (transactions, categories, a) == UpdateEffect(before.0, before.1, params, parseDate, catTime))
        && (action == "delete_transaction" ==>
           (transactions, categories, a) == DeleteEffect(before.0, before.1, params))
        && (action == "add_category" ==>
           (transactions, categories, a) == CategoryEffect(before.0, before.1, params, catTime))
    {
      var parsed := decode(arguments);
      if parsed.Err? { return Refused("Error parsing arguments: " + parsed.error); }
      var params := parsed.value;
      var action := StringField(params, "action");
      if action.None? { return Refused("Error: action not found"); }
      match action.value
      case "add_transaction" => a := AddTransaction(params, parseDate, trxTime, catTime);
      case "get_transactions" => a := GetTransactions(params, parseDate);
      case "update_transaction" => a := UpdateTransaction(params, parseDate, catTime);
      case "delete_transaction" => a := DeleteTransaction(params);
      case "get_analytics" => a := GetAnalytics(params, parseDate);
      case "add_category" => a := AddCategory(params, catTime);
      case "get_categories" => a := GetCategories();
      case _ => a := Refused("Error: invalid action: " + action.value);
    }
  }

  /** The first category of a name is the one a left-to-right scan stops at. */
  lemma FirstCategoryIsFirst(cs: seq<Category>, name: string, k: nat)
    requires k < |cs| && cs[k].name == name && forall j | 0 <= j < k :: cs[j].name != name
    ensures FirstCategory(cs, name) == Some(k)
  {
    var r := FirstCategory(cs, name);
    assert r.Some?;
    assert !(r.value < k) && !(k < r.value);
  }

  /** The first matching transaction is the one a left-to-right scan stops at. */
  lemma FirstTransactionIsFirst(ts: seq<Transaction>, id: string, userId: string, k: nat)
    requires k < |ts| && ts[k].id == id && ts[k].userId == userId
    requires forall j | 0 <= j < k :: !(ts[j].id == id && ts[j].userId == userId)
    ensures FirstTransaction(ts, id, userId) == Some(k)
  {
    var r := FirstTransaction(ts, id, userId);
    assert r.Some?;
    assert !(r.value < k) && !(k < r.value);
  }
}
