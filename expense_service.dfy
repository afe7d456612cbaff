/** Services/Implementations/ExpenseService.cs: recording, editing and
    deleting daily expenses, the category list and the expense queries. */
module ExpenseService {
  import opened Wrappers
  import opened Calendar
  import opened Models
  import opened Seqs
  import opened Sorting
  import opened Text
  import opened Data

  /** The category an added expense is stored under: a blank category
      becomes "General", any other is kept as given. */
  function StoredCategory(category: string): (r: string)
    ensures !IsBlank(r)
    ensures IsBlank(category) ==> r == DefaultCategory
    ensures !IsBlank(category) ==> r == category
  {
    if IsBlank(category) then
      assert DefaultCategory[0] == 'G';
      DefaultCategory
    else category
  }

  /** The expense as stored by an add: the given expense with a fresh key,
      created now, under its stored category; every other field as passed. */
  function NewExpense(spents: seq<DailySpent>, expense: DailySpent, now: DateTime): (r: DailySpent)
    ensures r.spentId !in Map(spents, SpentKey)
    ensures r == expense.(spentId := r.spentId, createdAt := now, category := StoredCategory(expense.category))
  {
    expense.(spentId := NextKey(spents, SpentKey), createdAt := now, category := StoredCategory(expense.category))
  }

  /** `AddExpenseAsync`. */
  method AddExpense(db: AppDbContext, expense: DailySpent, now: DateTime) returns (r: Result<DailySpent, ServiceError>)
    requires db.Valid()
    modifies db
    ensures db.Valid()
    ensures db.clients == old(db.clients) && db.orders == old(db.orders) && db.payments == old(db.payments)
    ensures expense.amount <= 0 ==> r == Err(NonPositiveAmount("Expense")) && db.dailySpents == old(db.dailySpents)
    ensures expense.amount > 0 ==>
      r == Ok(NewExpense(old(db.dailySpents), expense, now)) && db.dailySpents == old(db.dailySpents) + [r.value]
  {
    if expense.amount <= 0 {
      return Err(NonPositiveAmount("Expense"));
    }
    var stored := NewExpense(db.dailySpents, expense, now);
    AppendFreshKeepsUnique(db.dailySpents, SpentKey, stored);
    db.dailySpents := db.dailySpents + [stored];
    r := Ok(stored);
  }

  /** The tracked expense after an edit: description, amount, category and
      date come from the edit; id, spender and creation time stay. */
  function ApplyExpenseEdit(existing: DailySpent, edit: DailySpent, now: DateTime): (r: DailySpent)
    ensures r.spentId == existing.spentId && r.spentBy == existing.spentBy && r.createdAt == existing.createdAt
    ensures r.description == edit.description && r.amount == edit.amount
    ensures r.category == edit.category && r.spentDate == edit.spentDate && r.updatedAt == Some(now)
  {
    existing.(description := edit.description, amount := edit.amount, category := edit.category,
              spentDate := edit.spentDate, updatedAt := Some(now))
  }

  /** `UpdateExpenseAsync`: no amount check and no category default. */
  method UpdateExpense(db: AppDbContext, expense: DailySpent, now: DateTime) returns (r: Result<DailySpent, ServiceError>)
    requires db.Valid()
    modifies db
    ensures db.Valid()
    ensures db.clients == old(db.clients) && db.orders == old(db.orders) && db.payments == old(db.payments)
    ensures match IndexOfKey(old(db.dailySpents), SpentKey, expense.spentId)
      case None => r == Err(NotFound("Expense", expense.spentId)) && db.dailySpents == old(db.dailySpents)
      case Some(k) =>
        && r == Ok(ApplyExpenseEdit(old(db.dailySpents)[k], expense, now))
        && db.dailySpents == old(db.dailySpents)[k := r.value]
  {
    var found := IndexOfKey(db.dailySpents, SpentKey, expense.spentId);
    if found.None? {
      return Err(NotFound("Expense", expense.spentId));
    }
    var k := found.value;
    var edited := ApplyExpenseEdit(db.dailySpents[k], expense, now);
    ReplaceKeepsUnique(db.dailySpents, SpentKey, k, edited);
    db.dailySpents := db.dailySpents[k := edited];
    r := Ok(edited);
  }

  /** `DeleteExpenseAsync`: removes exactly the expense with that id. */
  method DeleteExpense(db: AppDbContext, spentId: int) returns (r: Result<(), ServiceError>)
    requires db.Valid()
    modifies db
    ensures db.Valid()
    ensures db.clients == old(db.clients) && db.orders == old(db.orders) && db.payments == old(db.payments)
    ensures match IndexOfKey(old(db.dailySpents), SpentKey, spentId)
      case None => r == Err(NotFound("Expense", spentId)) && db.dailySpents == old(db.dailySpents)
      case Some(k) => r == Ok(()) && db.dailySpents == RemoveAt(old(db.dailySpents), k)
    ensures forall e :: e in db.dailySpents <==> e in old(db.dailySpents) && e.spentId != spentId
  {
    var found := IndexOfKey(db.dailySpents, SpentKey, spentId);
    if found.None? {
      return Err(NotFound("Expense", spentId));
    }
    var k := found.value;
    RemoveKeepsUnique(db.dailySpents, SpentKey, k);
    RemovedExpenseMembers(db.dailySpents, k);
    db.dailySpents := RemoveAt(db.dailySpents, k);
    r := Ok(());
  }

  lemma RemovedExpenseMembers(spents: seq<DailySpent>, k: nat)
    requires UniqueKeys(spents, SpentKey) && k < |spents|
    ensures forall e :: e in RemoveAt(spents, k) <==> e in spents && e.spentId != spents[k].spentId
  {
    forall e | e in RemoveAt(spents, k) ensures e in spents && e.spentId != spents[k].spentId {
      RemoveAtMembers(spents, k, e);
    }
    forall j | 0 <= j < |spents| && spents[j].spentId != spents[k].spentId
      ensures spents[j] in RemoveAt(spents, k)
    {
      RemoveAtKeeps(spents, k, j);
    }
  }

  function SpentDate(e: DailySpent): DateTime { e.spentDate }

  /** Expenses sorted newest first (`OrderByDescending(e => e.SpentDate)`). */
  function NewestFirst(spents: seq<DailySpent>): (r: seq<DailySpent>)
    ensures multiset(r) == multiset(spents)
    ensures forall e :: e in r <==> e in spents
    ensures forall i, j :: 0 <= i < j < |r| ==> Le(r[j].spentDate, r[i].spentDate)
  {
    OrderingsAreTotalPreorders();
    var r := SortBy(spents, SpentDate, Ge);
    assert forall e :: e in r <==> e in multiset(spents);
    r
  }

  /** `GetAllExpensesAsync`: every expense, newest first. */
  function GetAllExpenses(spents: seq<DailySpent>): (r: seq<DailySpent>)
    ensures multiset(r) == multiset(spents)
    ensures forall i, j :: 0 <= i < j < |r| ==> Le(r[j].spentDate, r[i].spentDate)
  {
    NewestFirst(spents)
  }

  /** `GetCategoriesAsync`: each category in use once, in ascending
      ordinal order. */
  function GetCategories(spents: seq<DailySpent>): (r: seq<string>)
    ensures forall c :: c in r <==> exists e :: e in spents && e.category == c
    ensures forall i, j :: 0 <= i < j < |r| ==> OrdinalLe(r[i], r[j]) && r[i] != r[j]
  {
    CategoriesInUse(spents);
    Ascending(Distinct(Map(spents, Category)))
  }

  /** The categories column lists exactly the categories in use. */
  lemma CategoriesInUse(spents: seq<DailySpent>)
    ensures forall c :: c in Map(spents, Category) <==> exists e :: e in spents && e.category == c
  {
    forall c | c in Map(spents, Category) ensures exists e :: e in spents && e.category == c {
      var i :| 0 <= i < |Map(spents, Category)| && Map(spents, Category)[i] == c;
      assert spents[i] in spents;
    }
    forall c | exists e :: e in spents && e.category == c ensures c in Map(spents, Category) {
      var e :| e in spents && e.category == c;
      var i :| 0 <= i < |spents| && spents[i] == e;
      assert Map(spents, Category)[i] == c;
    }
  }

  /** Distinct strings in ascending ordinal order (`OrderBy(c => c)`). */
  function Ascending(s: seq<string>): (r: seq<string>)
    requires NoDuplicates(s)
    ensures forall c :: c in r <==> c in s
    ensures forall i, j :: 0 <= i < j < |r| ==> OrdinalLe(r[i], r[j]) && r[i] != r[j]
  {
    OrdinalLeIsTotalPreorder();
    var r := SortBy(s, (c: string) => c, OrdinalLe);
    PermutationKeepsNoDuplicates(s, r);
    assert forall c :: c in r <==> c in multiset(s);
    r
  }

  /** Whether an expense is dated in the given calendar month. */
  predicate SpentIn(e: DailySpent, year: int, month: int) {
    e.spentDate.year == year && e.spentDate.month == month
  }

  /** `GetExpensesByMonthAsync`: exactly the month's expenses, newest first. */
  function GetExpensesByMonth(spents: seq<DailySpent>, year: int, month: int): (r: seq<DailySpent>)
    ensures multiset(r) == multiset(Filter(spents, (e: DailySpent) => SpentIn(e, year, month)))
    ensures forall e :: e in r <==> e in spents && SpentIn(e, year, month)
    ensures forall i, j :: 0 <= i < j < |r| ==> Le(r[j].spentDate, r[i].spentDate)
  {
    NewestFirst(Filter(spents, (e: DailySpent) => SpentIn(e, year, month)))
  }

  function Amount(e: DailySpent): int { e.amount }

  /** `GetTotalExpenseByMonthAsync`: the sum over the month's expense
      listing, and zero for a month without expenses. */
  function GetTotalExpenseByMonth(spents: seq<DailySpent>, year: int, month: int): (total: int)
    ensures total == Sum(GetExpensesByMonth(spents, year, month), Amount)
    ensures (forall e :: e in spents ==> !SpentIn(e, year, month)) ==> total == 0
  {
    var inMonth := Filter(spents, (e: DailySpent) => SpentIn(e, year, month));
    SumOfPermutation(inMonth, GetExpensesByMonth(spents, year, month), Amount);
    if forall e :: e in spents ==> !SpentIn(e, year, month) then
      FilterNone(spents, (e: DailySpent) => SpentIn(e, year, month));
      Sum(inMonth, Amount)
    else Sum(inMonth, Amount)
  }

  /** An added expense counts towards the total of the month it is dated in
      and of no other month. */
  lemma AddedExpenseCountsInItsMonth(spents: seq<DailySpent>, expense: DailySpent, now: DateTime, year: int, month: int)
    ensures GetTotalExpenseByMonth(spents + [NewExpense(spents, expense, now)], year, month)
         == GetTotalExpenseByMonth(spents, year, month) + (if SpentIn(expense, year, month) then expense.amount else 0)
  {
    FilteredSumAppend(spents, NewExpense(spents, expense, now), (e: DailySpent) => SpentIn(e, year, month), Amount);
  }

  /** `GetExpensesByCategoryAsync`, as written: exactly the expenses whose
      category matches in the query's comparison (the column lower-cased by
      SQLite, the search by .NET), newest first. */
  function GetExpensesByCategory(spents: seq<DailySpent>, category: string): (r: seq<DailySpent>)
    ensures multiset(r) == multiset(Filter(spents, (e: DailySpent) => LowerMatches(e.category, category)))
    ensures forall e :: e in r <==> e in spents && LowerMatches(e.category, category)
    ensures forall i, j :: 0 <= i < j < |r| ==> Le(r[j].spentDate, r[i].spentDate)
  {
    NewestFirst(Filter(spents, (e: DailySpent) => LowerMatches(e.category, category)))
  }

  /** The category search as evidently intended: exactly the expenses whose
      category equals `category` ignoring case on both sides, newest first. */
  function GetExpensesByCategoryIgnoringCase(spents: seq<DailySpent>, category: string): (r: seq<DailySpent>)
    ensures multiset(r) == multiset(Filter(spents, (e: DailySpent) => EqualsIgnoreCase(e.category, category)))
    ensures forall e :: e in r <==> e in spents && EqualsIgnoreCase(e.category, category)
    ensures forall i, j :: 0 <= i < j < |r| ==> Le(r[j].spentDate, r[i].spentDate)
  {
    NewestFirst(Filter(spents, (e: DailySpent) => EqualsIgnoreCase(e.category, category)))
  }

  /** The search as written finds only expenses the intended search finds,
      and finds every one whose category has no accented capital. */
  lemma CategorySearchWithinIntended(spents: seq<DailySpent>, category: string)
    ensures forall e :: e in GetExpensesByCategory(spents, category) ==> e in GetExpensesByCategoryIgnoringCase(spents, category)
    ensures forall e :: e in GetExpensesByCategoryIgnoringCase(spents, category) && NoAccentedCapitals(e.category) ==>
                          e in GetExpensesByCategory(spents, category)
  {
    forall e | e in GetExpensesByCategory(spents, category)
      ensures e in GetExpensesByCategoryIgnoringCase(spents, category)
    {
      LowerMatchesSound(e.category, category);
    }
    forall e | e in GetExpensesByCategoryIgnoringCase(spents, category) && NoAccentedCapitals(e.category)
      ensures e in GetExpensesByCategory(spents, category)
    {
      LowerMatchesExact(e.category, category);
    }
  }

  /** An expense filed under "ÉPICERIE" is not found by a search for
      "ÉPICERIE", though the intended search finds it. */
  lemma CategorySearchMissesAccentedCapital(e: DailySpent)
    requires e.category == "\U{00C9}PICERIE"
    ensures e !in GetExpensesByCategory([e], e.category)
    ensures e in GetExpensesByCategoryIgnoringCase([e], e.category)
  {
    AccentedCapitalMissesItself(e.category);
    assert e in [e];
  }

  /** A blank category given to an add is found again under "general" in
      any letter case. */
  lemma BlankCategoryFiledUnderGeneral(spents: seq<DailySpent>, expense: DailySpent, now: DateTime)
    requires IsBlank(expense.category)
    ensures NewExpense(spents, expense, now) in GetExpensesByCategory(spents + [NewExpense(spents, expense, now)], "general")
  {
    GeneralMatches();
    assert NewExpense(spents, expense, now) in spents + [NewExpense(spents, expense, now)];
  }

  lemma GeneralMatches()
    ensures LowerMatches(DefaultCategory, "general")
  {
    assert ToLowerAscii(DefaultCategory) == "general";
    assert ToLowerLatin1("general") == "general";
  }
}
