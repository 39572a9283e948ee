/** internal/db/todo.go: the SQL text and the parameter list of every
    statement the task store sends to the database, and the store itself.
    Running the statements and scanning rows is not modelled: the database's
    answer to a statement is an arbitrary function of the statements sent
    before it and of the statement itself. */
module TodoDb {
  import opened Wrappers
  import opened Strings
  import opened Strconv
  import opened Types

  /** The columns of table `todo` that statements assign or filter on. */
  datatype Column = UserId | Id | Task | Category | Priority | Done | CompletedAt

  function Name(c: Column): string
  {
    match c
    case UserId => "user_id"
    case Id => "id"
    case Task => "task"
    case Category => "category"
    case Priority => "priority"
    case Done => "done"
    case CompletedAt => "completed_at"
  }

  /** A value bound to a `?` placeholder. */
  datatype Param = IntParam(n: int64) | TextParam(s: string) | TimeParam(unix: int)

  /** `column = ?` together with the value bound to its placeholder. */
  datatype Clause = Clause(column: Column, value: Param)

  /** The statements of the task store, by what they do rather than by their
      text: the assignments of an INSERT or UPDATE, the equality filters of
      the WHERE part, and whether a SELECT keeps only open tasks. */
  datatype Query =
    | Insert(sets: seq<Clause>)
    | Update(sets: seq<Clause>, filter: seq<Clause>)
    | Select(filter: seq<Clause>, openOnly: bool)
    | Delete(filter: seq<Clause>)

  /** What database/sql receives: the SQL text and the arguments. */
  datatype Statement = Statement(sql: string, args: seq<Param>)

  const InsertHead := "INSERT todo SET "
  const UpdateHead := "UPDATE todo SET "
  // split into pieces only to keep the solver's string reasoning cheap
  const SelectColumns := "id, task, category, " + "priority, created_at, " + "completed_at"
  const SelectHead := "SELECT " + SelectColumns + " FROM todo WHERE "
  const DeleteHead := "DELETE FROM todo WHERE "
  const OpenOnly := " AND NOT done"

  /** `column = ?` */
  function Assign(c: Column): string
  {
    Name(c) + " = ?"
  }

  function Assignments(cs: seq<Clause>): (r: seq<string>)
    ensures |r| == |cs|
    ensures forall k :: 0 <= k < |cs| ==> r[k] == Assign(cs[k].column)
  {
    seq(|cs|, k requires 0 <= k < |cs| => Assign(cs[k].column))
  }

  function Args(cs: seq<Clause>): (r: seq<Param>)
    ensures |r| == |cs|
    ensures forall k :: 0 <= k < |cs| ==> r[k] == cs[k].value
  {
    seq(|cs|, k requires 0 <= k < |cs| => cs[k].value)
  }

  /** The text the source writes for each kind of statement. */
  function Render(q: Query): Statement
  {
    match q
    case Insert(sets) =>
      Statement(InsertHead + Join(Assignments(sets), ", "), Args(sets))
    case Update(sets, filter) =>
      Statement(UpdateHead + Join(Assignments(sets), ", ") + " WHERE " + Join(Assignments(filter), " AND "),
                Args(sets) + Args(filter))
    case Select(filter, openOnly) =>
      Statement(SelectHead + Join(Assignments(filter), " AND ") + (if openOnly then OpenOnly else ""),
                Args(filter))
    case Delete(filter) =>
      Statement(DeleteHead + Join(Assignments(filter), " AND "), Args(filter))
  }

  lemma {:induction false} NoPlaceholders(s: string)
    requires '?' !in s
    ensures Placeholders(s) == 0
  {
    PlaceholdersAbsent(s);
  }

  lemma SelectColumnsPlain()
    ensures Placeholders(SelectColumns) == 0
  {
    NoPlaceholders("id, task, category, ");
    NoPlaceholders("priority, created_at, ");
    NoPlaceholders("completed_at");
    PlaceholdersAppend("id, task, category, ", "priority, created_at, ");
    PlaceholdersAppend("id, task, category, " + "priority, created_at, ", "completed_at");
  }

  lemma SelectHeadPlain()
    ensures Placeholders(SelectHead) == 0
  {
    SelectColumnsPlain();
    NoPlaceholders("SELECT ");
    NoPlaceholders(" FROM todo WHERE ");
    PlaceholdersAppend("SELECT ", SelectColumns);
    PlaceholdersAppend("SELECT " + SelectColumns, " FROM todo WHERE ");
  }

  lemma HeadsPlain()
    ensures Placeholders(InsertHead) == 0 && Placeholders(UpdateHead) == 0 && Placeholders(DeleteHead) == 0
  {
    NoPlaceholders(InsertHead);
    NoPlaceholders(UpdateHead);
    NoPlaceholders(DeleteHead);
  }

  /** The fixed parts of the statements hold no placeholder. */
  lemma FixedTexts()
    ensures Placeholders(InsertHead) == 0 && Placeholders(UpdateHead) == 0
    ensures Placeholders(SelectHead) == 0 && Placeholders(DeleteHead) == 0
    ensures Placeholders(OpenOnly) == 0 && Placeholders("") == 0
    ensures Placeholders(", ") == 0 && Placeholders(" AND ") == 0 && Placeholders(" WHERE ") == 0
  {
    HeadsPlain();
    SelectHeadPlain();
    NoPlaceholders(OpenOnly);
    NoPlaceholders(", ");
    NoPlaceholders(" AND ");
    NoPlaceholders(" WHERE ");
  }

  /** `column = ?` holds one placeholder. */
  lemma AssignmentPlaceholder(c: Column)
    ensures Placeholders(Assign(c)) == 1
  {
    NoPlaceholders(Name(c));
    NoPlaceholders(" = ");
    assert Name(c) + " = ?" == Name(c) + " = " + "?";
    PlaceholdersAppend(Name(c), " = ");
    PlaceholdersAppend(Name(c) + " = ", "?");
  }

  /** Joined assignments hold one placeholder per clause. */
  lemma {:induction false} JoinPlaceholders(cs: seq<Clause>, sep: string)
    requires Placeholders(sep) == 0
    ensures Placeholders(Join(Assignments(cs), sep)) == |cs|
  {
    if |cs| == 1 {
      AssignmentPlaceholder(cs[0].column);
    } else if |cs| > 1 {
      var init := cs[..|cs| - 1];
      var items := Assignments(cs);
      assert items[..|cs| - 1] == Assignments(init);
      JoinPlaceholders(init, sep);
      AssignmentPlaceholder(cs[|cs| - 1].column);
      PlaceholdersAppend(Join(Assignments(init), sep), sep);
      PlaceholdersAppend(Join(Assignments(init), sep) + sep, items[|cs| - 1]);
    }
  }

  /** Every rendered statement binds exactly as many arguments as its text
      has placeholders. */
  lemma RenderPlaceholders(q: Query)
    ensures Placeholders(Render(q).sql) == |Render(q).args|
  {
    FixedTexts();
    match q
    case Insert(sets) =>
      JoinPlaceholders(sets, ", ");
      PlaceholdersAppend(InsertHead, Join(Assignments(sets), ", "));
    case Update(sets, filter) =>
      var s := Join(Assignments(sets), ", ");
      var f := Join(Assignments(filter), " AND ");
      JoinPlaceholders(sets, ", ");
      JoinPlaceholders(filter, " AND ");
      PlaceholdersAppend(UpdateHead, s);
      PlaceholdersAppend(UpdateHead + s, " WHERE ");
      PlaceholdersAppend(UpdateHead + s + " WHERE ", f);
    case Select(filter, openOnly) =>
      var f := Join(Assignments(filter), " AND ");
      JoinPlaceholders(filter, " AND ");
      PlaceholdersAppend(SelectHead, f);
      PlaceholdersAppend(SelectHead + f, if openOnly then OpenOnly else "");
    case Delete(filter) =>
      JoinPlaceholders(filter, " AND ");
      PlaceholdersAppend(DeleteHead, Join(Assignments(filter), " AND "));
  }

  /** Joining one more assignment appends the separator and `column = ?`. */
  lemma JoinAssignmentsSnoc(cs: seq<Clause>, c: Clause, sep: string)
    requires cs != []
    ensures Join(Assignments(cs + [c]), sep) == Join(Assignments(cs), sep) + sep + Assign(c.column)
  {
    assert Assignments(cs + [c])[..|cs|] == Assignments(cs);
  }

  lemma ArgsSnoc(cs: seq<Clause>, c: Clause)
    ensures Args(cs + [c]) == Args(cs) + [c.value]
  {
  }

  /** One step of UpdateTodo: one more `column = ?` text and its value. */
  lemma AppendClause(qs: seq<string>, params: seq<Param>, done: seq<Clause>, c: Clause)
    requires qs == Assignments(done) && params == Args(done)
    ensures qs + [Assign(c.column)] == Assignments(done + [c]) && params + [c.value] == Args(done + [c])
  {
  }

  /** Two clauses joined. */
  lemma JoinAssignmentsPair(a: Clause, b: Clause, sep: string)
    ensures Join(Assignments([a, b]), sep) == Assign(a.column) + sep + Assign(b.column)
  {
    assert Assignments([a, b])[..1] == [Assign(a.column)];
  }

  // ---------------------------------------------------------------------
  // The statements of the task store, as queries.

  /** The order in which the source writes the columns of a statement. */
  function Rank(c: Column): nat
  {
    match c
    case UserId => 0
    case Task => 1
    case Category => 2
    case Priority => 3
    case Done => 4
    case CompletedAt => 5
    case Id => 6
  }

  /** The clauses follow the fixed column order, each column at most once. */
  ghost predicate InOrder(cs: seq<Clause>)
  {
    forall i, j :: 0 <= i < j < |cs| ==> Rank(cs[i].column) < Rank(cs[j].column)
  }

  /** Every clause of `cs` comes before column rank `n`. */
  ghost predicate Before(cs: seq<Clause>, n: nat)
  {
    forall k :: 0 <= k < |cs| ==> Rank(cs[k].column) < n
  }

  function Columns(cs: seq<Clause>): (r: seq<Column>)
    ensures |r| == |cs| && forall k :: 0 <= k < |cs| ==> r[k] == cs[k].column
  {
    seq(|cs|, k requires 0 <= k < |cs| => cs[k].column)
  }

  /** `user_id = <owner>` */
  function Owner(userID: int64): Clause
  {
    Clause(UserId, IntParam(userID))
  }

  /** A query touches only rows of `userID`: an INSERT writes it as the
      owner, every other statement keeps it among the conjuncts of its WHERE
      part, and an UPDATE never assigns the owner column. */
  ghost predicate OwnedBy(q: Query, userID: int64)
  {
    match q
    case Insert(sets) => Owner(userID) in sets
    case Update(sets, filter) => Owner(userID) in filter && UserId !in Columns(sets)
    case Select(filter, _) => Owner(userID) in filter
    case Delete(filter) => Owner(userID) in filter
  }

  /** The clause `c` when `present`, nothing otherwise. */
  function Optional(present: bool, c: Clause): seq<Clause>
  {
    if present then [c] else []
  }

  /** Appending an optional clause of a later column keeps the order. */
  lemma OptionalInOrder(cs: seq<Clause>, present: bool, c: Clause)
    requires InOrder(cs) && Before(cs, Rank(c.column))
    ensures InOrder(cs + Optional(present, c)) && Before(cs + Optional(present, c), Rank(c.column) + 1)
  {
  }

  /** Whether a request supplies a value for a column: a text column when it
      is non-empty, the done flag and the completion time when it is done. */
  predicate Supplied(v: TodoFields, c: Column)
  {
    match c
    case Task => v.task != ""
    case Category => v.category != ""
    case Priority => v.priority != ""
    case Done => v.done
    case CompletedAt => v.done
    case _ => false
  }

  /** Every assignment UpdateTodo can write. */
  function UpdateCandidates(v: TodoFields, now: int): seq<Clause>
  {
    [Clause(Task, TextParam(v.task)), Clause(Category, TextParam(v.category)),
     Clause(Priority, TextParam(v.priority)), Clause(Done, IntParam(1)), Clause(CompletedAt, TimeParam(now))]
  }

  /** The optional assignments CreateTodo can write. */
  function CreateCandidates(v: TodoFields): seq<Clause>
  {
    [Clause(Category, TextParam(v.category)), Clause(Priority, TextParam(v.priority))]
  }

  /** The assignments of CreateTodo: owner and task always, then the category
      and the priority each only when non-empty, in that order. */
  function CreateClauses(userID: int64, v: TodoFields): seq<Clause>
  {
    [Owner(userID), Clause(Task, TextParam(v.task))]
      + Optional(v.category != "", Clause(Category, TextParam(v.category)))
      + Optional(v.priority != "", Clause(Priority, TextParam(v.priority)))
  }

  /** The SET list of UpdateTodo: the supplied texts in the fixed order; a
      done request adds both `done = 1` and `completed_at = now`. */
  function UpdateClauses(v: TodoFields, now: int): seq<Clause>
  {
    Optional(v.task != "", Clause(Task, TextParam(v.task)))
      + Optional(v.category != "", Clause(Category, TextParam(v.category)))
      + Optional(v.priority != "", Clause(Priority, TextParam(v.priority)))
      + Optional(v.done, Clause(Done, IntParam(1)))
      + Optional(v.done, Clause(CompletedAt, TimeParam(now)))
  }

  /** CreateTodo always writes the owner and the task first, then exactly
      the category and priority clauses that are supplied. */
  lemma CreateClausesMembers(userID: int64, v: TodoFields)
    ensures var cs := CreateClauses(userID, v);
      && |cs| >= 2 && cs[0] == Owner(userID) && cs[1] == Clause(Task, TextParam(v.task))
      && (forall c :: c in cs[2..] <==> c in CreateCandidates(v) && Supplied(v, c.column))
  {
    var cs := CreateClauses(userID, v);
    assert cs[2..] == Optional(v.category != "", Clause(Category, TextParam(v.category)))
                      + Optional(v.priority != "", Clause(Priority, TextParam(v.priority)));
  }

  /** The assignments of CreateTodo follow the column order. */
  lemma CreateClausesOrdered(userID: int64, v: TodoFields)
    ensures InOrder(CreateClauses(userID, v))
  {
  }

  /** The SET list of UpdateTodo follows the column order. */
  lemma UpdateClausesOrdered(v: TodoFields, now: int)
    ensures InOrder(UpdateClauses(v, now))
  {
    var t := Optional(v.task != "", Clause(Task, TextParam(v.task)));
    var tc := t + Optional(v.category != "", Clause(Category, TextParam(v.category)));
    var tcp := tc + Optional(v.priority != "", Clause(Priority, TextParam(v.priority)));
    var tcpd := tcp + Optional(v.done, Clause(Done, IntParam(1)));
    OptionalInOrder([], v.task != "", Clause(Task, TextParam(v.task)));
    assert [] + t == t;
    OptionalInOrder(t, v.category != "", Clause(Category, TextParam(v.category)));
    OptionalInOrder(tc, v.priority != "", Clause(Priority, TextParam(v.priority)));
    OptionalInOrder(tcp, v.done, Clause(Done, IntParam(1)));
    OptionalInOrder(tcpd, v.done, Clause(CompletedAt, TimeParam(now)));
  }

  /** UpdateTodo writes exactly the supplied candidates, and neither the
      owner nor the id column. */
  lemma UpdateClausesMembers(v: TodoFields, now: int)
    ensures var cs := UpdateClauses(v, now);
      && (forall c :: c in cs <==> c in UpdateCandidates(v, now) && Supplied(v, c.column))
      && UserId !in Columns(cs) && Id !in Columns(cs)
  {
    var cs := UpdateClauses(v, now);
    forall c | c in cs
      ensures c in UpdateCandidates(v, now) && Supplied(v, c.column) && c.column != UserId && c.column != Id
    {
    }
  }

  /** The SET list of UpdateTodo is empty exactly for the zero request, so a
      zero request would be sent as the malformed `UPDATE todo SET  WHERE`. */
  lemma UpdateEmptyIffZero(v: TodoFields, now: int)
    ensures UpdateClauses(v, now) == [] <==> v == ZeroFields
  {
  }

  function CreateQuery(userID: int64, v: TodoFields): Query
  {
    Insert(CreateClauses(userID, v))
  }

  function UpdateQuery(userID: int64, todoID: int64, v: TodoFields, now: int): Query
  {
    Update(UpdateClauses(v, now), [Clause(Id, IntParam(todoID)), Owner(userID)])
  }

  function ListQuery(userID: int64, all: bool): Query
  {
    Select([Owner(userID)], !all)
  }

  function GetQuery(userID: int64, todoID: int64): Query
  {
    Select([Owner(userID), Clause(Id, IntParam(todoID))], false)
  }

  function DeleteQuery(userID: int64, todoID: int64): Query
  {
    Delete([Owner(userID), Clause(Id, IntParam(todoID))])
  }

  /** Every statement of the store is confined to the rows of the user it
      is given; the task id, when there is one, is an additional filter. */
  lemma QueriesOwned(userID: int64, todoID: int64, v: TodoFields, now: int, all: bool)
    ensures OwnedBy(CreateQuery(userID, v), userID)
    ensures OwnedBy(UpdateQuery(userID, todoID, v, now), userID)
    ensures OwnedBy(ListQuery(userID, all), userID)
    ensures OwnedBy(GetQuery(userID, todoID), userID)
    ensures OwnedBy(DeleteQuery(userID, todoID), userID)
    ensures Clause(Id, IntParam(todoID)) in UpdateQuery(userID, todoID, v, now).filter
    ensures Clause(Id, IntParam(todoID)) in GetQuery(userID, todoID).filter
    ensures Clause(Id, IntParam(todoID)) in DeleteQuery(userID, todoID).filter
  {
    UpdateClausesMembers(v, now);
    assert CreateQuery(userID, v).sets[0] == Owner(userID);
  }

  // ---------------------------------------------------------------------
  // Building the statements, as the store's methods do.

  /** The statement of todoStore.CreateTodo. */
  method CreateTodoStatement(userID: int64, tr: TodoRequest) returns (st: Statement)
    ensures st == Render(CreateQuery(userID, tr.Fields()))
    ensures Placeholders(st.sql) == |st.args|
  {
    ghost var v := tr.Fields();
    ghost var done := [Owner(userID), Clause(Task, TextParam(tr.task))];
    var query := InsertHead + Assign(UserId) + ", " + Assign(Task);
    var params := [IntParam(userID), TextParam(tr.task)];
    InsertStart(done[0], done[1]);

    if tr.category != "" {
      AppendAssignment(query, done, Clause(Category, TextParam(tr.category)));
      ArgsSnoc(done, Clause(Category, TextParam(tr.category)));
      done := done + [Clause(Category, TextParam(tr.category))];
      query := query + ", " + Assign(Category);
      params := params + [TextParam(tr.category)];
    }

    if tr.priority != "" {
      AppendAssignment(query, done, Clause(Priority, TextParam(tr.priority)));
      ArgsSnoc(done, Clause(Priority, TextParam(tr.priority)));
      done := done + [Clause(Priority, TextParam(tr.priority))];
      query := query + ", " + Assign(Priority);
      params := params + [TextParam(tr.priority)];
    }

    assert query == InsertHead + Join(Assignments(done), ", ") && params == Args(done);
    assert done == CreateClauses(userID, v);
    st := Statement(query, params);
    RenderPlaceholders(CreateQuery(userID, v));
  }

  /** The pieces spell the source's opening text of the INSERT. */
  lemma InsertStartText()
    ensures InsertHead + Assign(UserId) + ", " + Assign(Task) == "INSERT todo SET user_id = ?, task = ?"
  {
  }

  lemma InsertStart(a: Clause, b: Clause)
    ensures InsertHead + Assign(a.column) + ", " + Assign(b.column) == InsertHead + Join(Assignments([a, b]), ", ")
    ensures Args([a, b]) == [a.value, b.value]
  {
    JoinAssignmentsPair(a, b, ", ");
  }

  /** One step of CreateTodo: appending `, column = ?` to the text of the
      clauses so far gives the text of one more clause. */
  lemma AppendAssignment(query: string, done: seq<Clause>, c: Clause)
    requires done != [] && query == InsertHead + Join(Assignments(done), ", ")
    ensures query + ", " + Assign(c.column) == InsertHead + Join(Assignments(done + [c]), ", ")
  {
    JoinAssignmentsSnoc(done, c, ", ");
  }

  /** The WHERE part of UpdateTodo: the task, then its owner. */
  lemma UpdateFilterText(todoID: int64, userID: int64)
    ensures Join(Assignments([Clause(Id, IntParam(todoID)), Owner(userID)]), " AND ")
            == Assign(Id) + " AND " + Assign(UserId)
    ensures Args([Clause(Id, IntParam(todoID)), Owner(userID)]) == [IntParam(todoID), IntParam(userID)]
  {
    JoinAssignmentsPair(Clause(Id, IntParam(todoID)), Owner(userID), " AND ");
  }

  /** The pieces spell the source's WHERE part of the UPDATE. */
  lemma UpdateTailText()
    ensures " WHERE " + Assign(Id) + " AND " + Assign(UserId) == " WHERE id = ? AND user_id = ?"
  {
  }

  /** The SET list of todoStore.UpdateTodo and its values, appended one
      supplied column at a time; `now` stands for the UTC clock reading the
      source takes for `completed_at`. */
  method UpdateAssignments(tr: TodoRequest, now: int) returns (qs: seq<string>, params: seq<Param>)
    ensures qs == Assignments(UpdateClauses(tr.Fields(), now))
    ensures params == Args(UpdateClauses(tr.Fields(), now))
  {
    ghost var v := tr.Fields();
    ghost var done: seq<Clause> := [];
    qs := [];
    params := [];

    if tr.task != "" {
      AppendClause(qs, params, done, Clause(Task, TextParam(tr.task)));
      done := done + [Clause(Task, TextParam(tr.task))];
      qs := qs + [Assign(Task)];
      params := params + [TextParam(tr.task)];
    }
    assert done == Optional(v.task != "", Clause(Task, TextParam(v.task)));
    ghost var soFar := done;

    if tr.category != "" {
      AppendClause(qs, params, done, Clause(Category, TextParam(tr.category)));
      done := done + [Clause(Category, TextParam(tr.category))];
      qs := qs + [Assign(Category)];
      params := params + [TextParam(tr.category)];
    }
    assert done == soFar + Optional(v.category != "", Clause(Category, TextParam(v.category)));
    soFar := done;

    if tr.priority != "" {
      AppendClause(qs, params, done, Clause(Priority, TextParam(tr.priority)));
      done := done + [Clause(Priority, TextParam(tr.priority))];
      qs := qs + [Assign(Priority)];
      params := params + [TextParam(tr.priority)];
    }
    assert done == soFar + Optional(v.priority != "", Clause(Priority, TextParam(v.priority)));
    soFar := done;

    if tr.done {
      AppendClause(qs, params, done, Clause(Done, IntParam(1)));
      done := done + [Clause(Done, IntParam(1))];
      qs := qs + [Assign(Done)];
      params := params + [IntParam(1)];

      AppendClause(qs, params, done, Clause(CompletedAt, TimeParam(now)));
      done := done + [Clause(CompletedAt, TimeParam(now))];
      qs := qs + [Assign(CompletedAt)];
      params := params + [TimeParam(now)];
    }
    assert done == soFar + Optional(v.done, Clause(Done, IntParam(1))) + Optional(v.done, Clause(CompletedAt, TimeParam(now)));
  }

  /** The statement of todoStore.UpdateTodo: the SET list, then the task id
      and the owner for `WHERE id = ? AND user_id = ?`. */
  method UpdateTodoStatement(userID: int64, todoID: int64, tr: TodoRequest, now: int) returns (st: Statement)
    ensures st == Render(UpdateQuery(userID, todoID, tr.Fields(), now))
    ensures Placeholders(st.sql) == |st.args|
  {
    var qs, params := UpdateAssignments(tr, now);
    UpdateFilterText(todoID, userID);
    params := params + [IntParam(todoID), IntParam(userID)];
    st := Statement(UpdateHead + Join(qs, ", ") + " WHERE " + (Assign(Id) + " AND " + Assign(UserId)), params);
    RenderPlaceholders(UpdateQuery(userID, todoID, tr.Fields(), now));
  }

  /** The statement of todoStore.ListTodos. */
  method ListTodosStatement(userID: int64, all: bool) returns (st: Statement)
    ensures st == Render(ListQuery(userID, all))
    ensures Placeholders(st.sql) == |st.args|
  {
    var query := SelectHead + Assign(UserId);

    if !all {
      query := query + OpenOnly;
    }

    st := Statement(query, [IntParam(userID)]);
    RenderPlaceholders(ListQuery(userID, all));
  }

  /** The fixed statement of todoStore.GetTodo. */
  function GetTodoStatement(userID: int64, todoID: int64): (st: Statement)
    ensures st == Render(GetQuery(userID, todoID))
    ensures Placeholders(st.sql) == |st.args|
  {
    var q := GetQuery(userID, todoID);
    JoinAssignmentsPair(q.filter[0], q.filter[1], " AND ");
    RenderPlaceholders(q);
    Statement(SelectHead + (Assign(UserId) + " AND " + Assign(Id)), [IntParam(userID), IntParam(todoID)])
  }

  /** The fixed statement of todoStore.DeleteTodo. */
  function DeleteTodoStatement(userID: int64, todoID: int64): (st: Statement)
    ensures st == Render(DeleteQuery(userID, todoID))
    ensures Placeholders(st.sql) == |st.args|
  {
    var q := DeleteQuery(userID, todoID);
    JoinAssignmentsPair(q.filter[0], q.filter[1], " AND ");
    RenderPlaceholders(q);
    Statement(DeleteHead + (Assign(UserId) + " AND " + Assign(Id)), [IntParam(userID), IntParam(todoID)])
  }

  /** The column list of the SELECTs of ListTodos and GetTodo. */
  lemma SelectColumnsText()
    ensures SelectColumns == "id, task, category, priority, created_at, completed_at"
  {
  }

  /** The pieces spell the source's SELECT texts of ListTodos, before the
      optional `AND NOT done`, and of GetTodo. */
  lemma SelectTexts()
    ensures SelectHead + Assign(UserId)
            == "SELECT " + "id, task, category, priority, created_at, completed_at" + " FROM todo WHERE user_id = ?"
    ensures SelectHead + (Assign(UserId) + " AND " + Assign(Id))
            == "SELECT " + "id, task, category, priority, created_at, completed_at" + " FROM todo WHERE user_id = ? AND id = ?"
  {
    SelectColumnsText();
    assert " FROM todo WHERE " + Assign(UserId) == " FROM todo WHERE user_id = ?";
    assert " FROM todo WHERE " + (Assign(UserId) + " AND " + Assign(Id)) == " FROM todo WHERE user_id = ? AND id = ?";
  }

  /** The pieces spell the source's DELETE text. */
  lemma DeleteText()
    ensures DeleteHead + (Assign(UserId) + " AND " + Assign(Id)) == "DELETE FROM todo WHERE user_id = ? AND id = ?"
  {
  }

  // ---------------------------------------------------------------------
  // The store.

  /** What GetTodo makes of the rows of its SELECT: the first row, if any. */
  function FirstRow(rows: Result<seq<TodoResponse>, string>): (r: Result<Option<TodoResponse>, string>)
    ensures r.Failure? <==> rows.Failure?
    ensures rows.Failure? ==> r.error == rows.error
    ensures rows.Success? ==> (r.value.None? <==> rows.value == [])
    ensures rows.Success? && rows.value != [] ==> r.value == Some(rows.value[0])
  {
    match rows
    case Failure(e) => Failure(e)
    case Success(ts) => if ts == [] then Success(None) else Success(Some(ts[0]))
  }

  /** todoStore. `executed` is every statement sent to the database, in
      order; `rows` and `exec` are the database's answers to a query and to
      a command, given what was executed before. */
  class TodoStore {
    var executed: seq<Statement>
    const rows: (seq<Statement>, Statement) -> Result<seq<TodoResponse>, string>
    const exec: (seq<Statement>, Statement) -> Option<string>

    constructor (rows: (seq<Statement>, Statement) -> Result<seq<TodoResponse>, string>,
                 exec: (seq<Statement>, Statement) -> Option<string>)
      ensures executed == [] && this.rows == rows && this.exec == exec
    {
      executed := [];
      this.rows := rows;
      this.exec := exec;
    }

    /** todoStore.ListTodos */
    method ListTodos(userID: int64, all: bool) returns (r: Result<seq<TodoResponse>, string>)
      modifies this
      ensures executed == old(executed) + [Render(ListQuery(userID, all))]
      ensures r == rows(old(executed), Render(ListQuery(userID, all)))
    {
      var st := ListTodosStatement(userID, all);
      r := rows(executed, st);
      executed := executed + [st];
    }

    /** todoStore.GetTodo: the first row, or none. */
    method GetTodo(userID: int64, todoID: int64) returns (r: Result<Option<TodoResponse>, string>)
      modifies this
      ensures executed == old(executed) + [Render(GetQuery(userID, todoID))]
      ensures r == FirstRow(rows(old(executed), Render(GetQuery(userID, todoID))))
    {
      var st := GetTodoStatement(userID, todoID);
      var answer := rows(executed, st);
      executed := executed + [st];
      match answer
      case Failure(e) =>
        return Failure(e);
      case Success(ts) =>
        if ts != [] {
          return Success(Some(ts[0]));
        }
        return Success(None);
    }

    /** todoStore.CreateTodo */
    method CreateTodo(userID: int64, tr: TodoRequest) returns (err: Option<string>)
      modifies this
      ensures executed == old(executed) + [Render(CreateQuery(userID, tr.Fields()))]
      ensures err == exec(old(executed), Render(CreateQuery(userID, tr.Fields())))
    {
      var st := CreateTodoStatement(userID, tr);
      err := exec(executed, st);
      executed := executed + [st];
    }

    /** todoStore.UpdateTodo, at clock reading `now`. */
    method UpdateTodo(userID: int64, todoID: int64, tr: TodoRequest, now: int) returns (err: Option<string>)
      modifies this
      ensures executed == old(executed) + [Render(UpdateQuery(userID, todoID, tr.Fields(), now))]
      ensures err == exec(old(executed), Render(UpdateQuery(userID, todoID, tr.Fields(), now)))
    {
      var st := UpdateTodoStatement(userID, todoID, tr, now);
      err := exec(executed, st);
      executed := executed + [st];
    }

    /** todoStore.DeleteTodo */
    method DeleteTodo(userID: int64, todoID: int64) returns (err: Option<string>)
      modifies this
      ensures executed == old(executed) + [Render(DeleteQuery(userID, todoID))]
      ensures err == exec(old(executed), Render(DeleteQuery(userID, todoID)))
    {
      var st := DeleteTodoStatement(userID, todoID);
      err := exec(executed, st);
      executed := executed + [st];
    }
  }
}
