/** pkg/types.go: the request and response records of the service, the
    validation of a task request (which normalises its case in place) and of
    a user record. */
module Types {
  import opened Wrappers
  import opened Strings
  import opened Strconv

  /** The field values of a TodoRequest. */
  datatype TodoFields = TodoFields(task: string, done: bool, category: string, priority: string)

  /** The zero value of TodoRequest: what binding an empty JSON body yields. */
  const ZeroFields := TodoFields("", false, "", "")

  const Categories: seq<string> := ["work", "home"]
  const Priorities: seq<string> := ["low", "medium", "high"]

  const TaskRequired := "inadequate input parameters. Required field: task"

  function UnknownCategory(original: string): string
  {
    "unknown category value: " + original
  }

  function UnknownPriority(original: string): string
  {
    "unknown priority value: " + original
  }

  /** The outcome of TodoRequest.Validate: the error it returns and the field
      values it leaves behind. */
  datatype Validation = Validation(err: Option<string>, fields: TodoFields)

  /** What TodoRequest.Validate does to a request with field values `v`. */
  function Validated(v: TodoFields): (r: Validation)
    // the task and the done flag are never touched
    ensures r.fields.task == v.task && r.fields.done == v.done
    // an empty task is refused before anything is lower-cased
    ensures v.task == "" ==> r == Validation(Some(TaskRequired), v)
    // otherwise the category is lower-cased in place ...
    ensures v.task != "" ==> r.fields.category == ToLower(v.category)
    // ... and the priority only once the category has been accepted
    ensures r.fields.priority
            == if v.task != "" && ToLower(v.category) in Categories then ToLower(v.priority) else v.priority
    // an unknown category is reported with its value as the client sent it
    ensures v.task != "" && ToLower(v.category) !in Categories ==> r.err == Some(UnknownCategory(v.category))
    ensures v.task != "" && ToLower(v.category) in Categories && ToLower(v.priority) !in Priorities
            ==> r.err == Some(UnknownPriority(v.priority))
    // accepted exactly when the task is set and both lower-cased values are known
    ensures r.err.None?
            <==> v.task != "" && ToLower(v.category) in Categories && ToLower(v.priority) in Priorities
    ensures r.err.None? ==> r.fields.category in Categories && r.fields.priority in Priorities
  {
    if v.task == "" then Validation(Some(TaskRequired), v)
    else
      var category := ToLower(v.category);
      if category !in Categories then Validation(Some(UnknownCategory(v.category)), v.(category := category))
      else
        var priority := ToLower(v.priority);
        if priority !in Priorities then
          Validation(Some(UnknownPriority(v.priority)), v.(category := category, priority := priority))
        else Validation(None, v.(category := category, priority := priority))
  }

  /** A request that passed validation passes again, unchanged. */
  lemma ValidateIdempotent(v: TodoFields)
    requires Validated(v).err.None?
    ensures Validated(Validated(v).fields) == Validated(v)
  {
    LowerIdempotent(v.category);
    LowerIdempotent(v.priority);
  }

  /** The categories accepted are exactly the case variants of "work" and
      "home": every character of the value sent is the expected lower-case
      letter or its upper-case form, in any mix. */
  lemma CategoryCaseInsensitive(c: string, word: string)
    requires word in Categories
    ensures ToLower(c) == word
            <==> |c| == |word| && forall k :: 0 <= k < |c| ==> c[k] == word[k] || c[k] == (word[k] as int - 32) as char
  {
  }

  /** pkg.TodoRequest. Validate updates the category and priority in place. */
  class TodoRequest {
    var task: string
    var done: bool
    var category: string
    var priority: string

    function Fields(): TodoFields
      reads this
    {
      TodoFields(task, done, category, priority)
    }

    constructor (v: TodoFields)
      ensures Fields() == v
    {
      task, done, category, priority := v.task, v.done, v.category, v.priority;
    }

    /** TodoRequest.IsZero: the request is the zero value. */
    function IsZero(): (z: bool)
      reads this
      ensures z <==> Fields() == ZeroFields
    {
      task == "" && priority == "" && category == "" && done == false
    }

    /** TodoRequest.Validate. */
    method Validate() returns (err: Option<string>)
      modifies this
      ensures Validation(err, Fields()) == Validated(old(Fields()))
    {
      if task == "" {
        return Some(TaskRequired);
      }

      var original := category;
      category := ToLower(category);
      if category !in Categories {
        return Some(UnknownCategory(original));
      }

      var pr := priority;
      priority := ToLower(priority);
      if priority !in Priorities {
        return Some(UnknownPriority(pr));
      }
      return None;
    }
  }

  /** pkg.TodoResponse, as the database returns it (times are Unix seconds). */
  datatype TodoResponse = TodoResponse(
    id: int64, task: string, category: string, priority: string,
    createdAt: Option<int>, completedAt: Option<int>)

  /** pkg.User (the creation and update times are left out). */
  datatype User = User(email: string, username: string, password: string)
  {
    /** User.Validate: refused exactly when a required field is empty. */
    function Validate(): (r: Option<string>)
      ensures r.Some? <==> email == "" || username == "" || password == ""
      ensures r.Some? ==> r.value == "inadequate input parameters. Required email, username, password"
    {
      if "" in [email, password, username] then
        Some("inadequate input parameters. Required email, username, password")
      else None
    }
  }

  /** pkg.MsgResp */
  datatype MsgResp = MsgResp(message: string)

  /** pkg.Token */
  datatype Token = Token(tokenType: string, expiresIn: int, jwtToken: string)
}
