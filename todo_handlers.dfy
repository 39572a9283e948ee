/** internal/service_echo/todo.go: the task handlers behind IsAuthorized.
    Each runs its guards in a fixed order and then makes at most one call to
    the task store, always for the user of the request's security context.
    `body` is the outcome of binding the JSON request body. */
module TodoHandlers {
  import opened Wrappers
  import opened Strconv
  import opened Types
  import opened Http
  import opened TodoDb

  function InvalidId(s: string): string
  {
    "invalid id given " + s
  }

  const EmptyBody := "empty body is not supported"

  /** getID: the `id` path parameter as a base-10 int64. */
  function GetID(s: string): (r: Result<int64, string>)
    ensures r.Success? <==> IsDecimal(s) && MinInt64 <= DecimalValue(s) <= MaxInt64
    ensures r.Success? ==> r.value as int == DecimalValue(s)
    ensures r.Failure? ==> r.error == InvalidId(s)
  {
    match ParseInt64(s)
    case None => Failure(InvalidId(s))
    case Some(id) => Success(id)
  }

  /** Every id is reachable: the decimal form of an id is read back as it. */
  lemma GetIDRoundTrip(id: int64)
    ensures GetID(FormatInt64(id)) == Success(id)
  {
    FormatParseRoundTrip(id);
  }

  /** The reply to a store command: its error passed up, or 200 with null. */
  function Done(err: Option<string>): (r: Reply)
    ensures r.Ok? <==> err.None?
    ensures err.Some? ==> r == Fail(Raw(err.value))
  {
    match err
    case None => Ok(Null)
    case Some(e) => Fail(Raw(e))
  }

  /** createTodo: bind, validate (normalising the case of category and
      priority), then store the validated request for the caller. */
  method CreateTodo(c: Context, store: TodoStore, body: Result<TodoFields, string>) returns (reply: Reply)
    requires c.security.Some?
    modifies store
    ensures body.Failure? ==> reply == Fail(BadRequest(body.error)) && store.executed == old(store.executed)
    ensures body.Success? && Validated(body.value).err.Some? ==>
              reply == Fail(BadRequest(Validated(body.value).err.value)) && store.executed == old(store.executed)
    ensures body.Success? && Validated(body.value).err.None? ==>
              var st := Render(CreateQuery(c.security.value.userID, Validated(body.value).fields));
              store.executed == old(store.executed) + [st] && reply == Done(store.exec(old(store.executed), st))
  {
    var sc := c.security.value;

    if body.Failure? {
      return Fail(BadRequest(body.error));
    }
    var req := new TodoRequest(body.value);

    var err := req.Validate();
    if err.Some? {
      return Fail(BadRequest(err.value));
    }

    err := store.CreateTodo(sc.userID, req);
    if err.Some? {
      return Fail(Raw(err.value));
    }
    return Ok(Null);
  }

  /** getTodo: the caller's task with the id of the path, or null. */
  method GetTodo(c: Context, store: TodoStore) returns (reply: Reply)
    requires c.security.Some?
    modifies store
    ensures GetID(c.idParam).Failure? ==>
              reply == Fail(BadRequest(GetID(c.idParam).error)) && store.executed == old(store.executed)
    ensures GetID(c.idParam).Success? ==>
              var st := Render(GetQuery(c.security.value.userID, GetID(c.idParam).value));
              && store.executed == old(store.executed) + [st]
              && reply == match FirstRow(store.rows(old(store.executed), st))
                          case Failure(e) => Fail(Raw(e))
                          case Success(todo) => Ok(One(todo))
  {
    var sc := c.security.value;

    var todoID := GetID(c.idParam);
    if todoID.Failure? {
      return Fail(BadRequest(todoID.error));
    }

    var todo := store.GetTodo(sc.userID, todoID.value);
    if todo.Failure? {
      return Fail(Raw(todo.error));
    }
    return Ok(One(todo.value));
  }

  /** listTodos: the caller's tasks, all of them exactly when the query
      parameter `all` is the text "true", the open ones otherwise. */
  method ListTodos(c: Context, store: TodoStore) returns (reply: Reply)
    requires c.security.Some?
    modifies store
    ensures var st := Render(ListQuery(c.security.value.userID, c.allParam == "true"));
            && store.executed == old(store.executed) + [st]
            && reply == match store.rows(old(store.executed), st)
                        case Failure(e) => Fail(Raw(e))
                        case Success(todos) => Ok(Many(todos))
  {
    var sc := c.security.value;
    var all := c.allParam == "true";

    var todos := store.ListTodos(sc.userID, all);
    if todos.Failure? {
      return Fail(Raw(todos.error));
    }
    return Ok(Many(todos.value));
  }

  /** updateTodo at clock reading `now`: the id is checked first, then the
      body, which must not be the zero request; the body is not validated. */
  method UpdateTodo(c: Context, store: TodoStore, body: Result<TodoFields, string>, now: int) returns (reply: Reply)
    requires c.security.Some?
    modifies store
    ensures GetID(c.idParam).Failure? ==>
              reply == Fail(BadRequest(GetID(c.idParam).error)) && store.executed == old(store.executed)
    ensures GetID(c.idParam).Success? && body.Failure? ==>
              reply == Fail(BadRequest(body.error)) && store.executed == old(store.executed)
    ensures GetID(c.idParam).Success? && body.Success? && body.value == ZeroFields ==>
              reply == Fail(BadRequest(EmptyBody)) && store.executed == old(store.executed)
    ensures GetID(c.idParam).Success? && body.Success? && body.value != ZeroFields ==>
              var st := Render(UpdateQuery(c.security.value.userID, GetID(c.idParam).value, body.value, now));
              store.executed == old(store.executed) + [st] && reply == Done(store.exec(old(store.executed), st))
  {
    var sc := c.security.value;

    var todoID := GetID(c.idParam);
    if todoID.Failure? {
      return Fail(BadRequest(todoID.error));
    }

    if body.Failure? {
      return Fail(BadRequest(body.error));
    }
    var req := new TodoRequest(body.value);

    if req.IsZero() {
      return Fail(BadRequest(EmptyBody));
    }

    var err := store.UpdateTodo(sc.userID, todoID.value, req, now);
    if err.Some? {
      return Fail(Raw(err.value));
    }
    return Ok(Null);
  }

  /** deleteTodo: delete the caller's task with the id of the path. */
  method DeleteTodo(c: Context, store: TodoStore) returns (reply: Reply)
    requires c.security.Some?
    modifies store
    ensures GetID(c.idParam).Failure? ==>
              reply == Fail(BadRequest(GetID(c.idParam).error)) && store.executed == old(store.executed)
    ensures GetID(c.idParam).Success? ==>
              var st := Render(DeleteQuery(c.security.value.userID, GetID(c.idParam).value));
              store.executed == old(store.executed) + [st] && reply == Done(store.exec(old(store.executed), st))
  {
    var sc := c.security.value;

    var todoID := GetID(c.idParam);
    if todoID.Failure? {
      return Fail(BadRequest(todoID.error));
    }

    var err := store.DeleteTodo(sc.userID, todoID.value);
    if err.Some? {
      return Fail(Raw(err.value));
    }
    return Ok(Null);
  }
}
