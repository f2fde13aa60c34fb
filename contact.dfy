/**
 * The contact message endpoint (pages/api/contact.js): the method check, the input
 * validation, then the database steps, each outcome mapped to a status and a message.
 * The environment variable and the database's answers are inputs; the steps taken
 * against the database are returned as a trace.
 */
module Contact {
  import opened Wrappers
  import opened JsStrings

  /** A request: its method and the three body fields, `None` when missing. */
  datatype Request = Request(httpMethod: string, email: Option<string>, name: Option<string>, message: Option<string>)

  /** What the outside world answers: `MONGODB_URI`, whether connecting succeeds, and the inserted id (`None`: the insert throws). */
  datatype Environment = Environment(connectionString: Option<string>, connects: bool, insertedId: Option<string>)

  /** The stored message; `id` is set once the insert has returned. */
  datatype StoredMessage = StoredMessage(email: string, name: string, message: string, createdAt: string, id: Option<string>)

  datatype DbStep = Connect(uri: string) | InsertOne(database: string, collection: string, document: StoredMessage) | Close

  /** The status code and the JSON body `{ message, data? }`. */
  datatype Response = Response(status: nat, message: string, data: Option<StoredMessage>)

  const DatabaseName := "BlogMessages"
  const CollectionName := "messages"

  /** A field that is missing or only whitespace. */
  predicate Blank(field: Option<string>) {
    field.None? || IsBlank(field.value)
  }

  /** The rejection condition of the handler. */
  predicate InvalidInput(req: Request) {
    req.email.None? || req.email.value == "" || '@' !in req.email.value
    || Blank(req.name) || Blank(req.message)
  }

  /** A field is blank exactly when it fails `!x || x.trim() === ""`. */
  lemma BlankIsEmptyAfterTrim(field: Option<string>)
    ensures Blank(field) <==> field.None? || field.value == "" || Trim(field.value) == ""
  {
    if field.Some? {
      TrimEmptyIffBlank(field.value);
    }
  }

  /** Input is accepted exactly when the email holds an "@" and the name and message are non-empty after `trim`. */
  lemma AcceptedInput(req: Request)
    ensures !InvalidInput(req) <==>
              (req.email.Some? && '@' in req.email.value
               && req.name.Some? && req.name.value != "" && Trim(req.name.value) != ""
               && req.message.Some? && req.message.value != "" && Trim(req.message.value) != "")
  {
    BlankIsEmptyAfterTrim(req.name);
    BlankIsEmptyAfterTrim(req.message);
  }

  /** `!connectionString`: missing or empty. */
  predicate HasConnectionString(env: Environment) {
    env.connectionString.Some? && env.connectionString.value != ""
  }

  /** The message a valid request stores, created at `now` (an ISO time string). */
  function NewMessage(req: Request, now: string): (m: StoredMessage)
    requires !InvalidInput(req)
    ensures m.email == req.email.value && m.name == req.name.value && m.message == req.message.value
    ensures m.createdAt == now && m.id.None?
  {
    StoredMessage(req.email.value, req.name.value, req.message.value, now, None)
  }

  /** The status a request gets, as a decision table over the request and the environment. */
  function Outcome(req: Request, env: Environment): (status: nat) {
    if req.httpMethod != "POST" then 405
    else if InvalidInput(req) then 422
    else if !HasConnectionString(env) || !env.connects || env.insertedId.None? then 500
    else 201
  }

  /**
   * `handler(req, res)`. Beyond the case-by-case answers: nothing touches the database
   * before the input is validated, a connected client is always closed, and only a 201
   * carries data, echoing the submitted fields.
   */
  method Handle(req: Request, env: Environment, now: string) returns (res: Response, trace: seq<DbStep>)
    ensures req.httpMethod != "POST" ==> res == Response(405, "Method not allowed", None) && trace == []
    ensures req.httpMethod == "POST" && InvalidInput(req) ==> res == Response(422, "Invalid input.", None) && trace == []
    ensures req.httpMethod == "POST" && !InvalidInput(req) && !HasConnectionString(env) ==>
              res == Response(500, "Database connection string is missing.", None) && trace == []
    ensures req.httpMethod == "POST" && !InvalidInput(req) && HasConnectionString(env) && !env.connects ==>
              res == Response(500, "Could not connect to database.", None)
              && trace == [Connect(env.connectionString.value)]
    ensures req.httpMethod == "POST" && !InvalidInput(req) && HasConnectionString(env) && env.connects ==>
              trace == [Connect(env.connectionString.value),
                        InsertOne(DatabaseName, CollectionName, NewMessage(req, now)), Close]
    ensures req.httpMethod == "POST" && !InvalidInput(req) && HasConnectionString(env) && env.connects
            && env.insertedId.None? ==>
              res == Response(500, "Storing message failed!", None)
    ensures req.httpMethod == "POST" && !InvalidInput(req) && HasConnectionString(env) && env.connects
            && env.insertedId.Some? ==>
              res == Response(201, "Successfully stored message!",
                              Some(NewMessage(req, now).(id := env.insertedId)))
    ensures res.status == Outcome(req, env)
    ensures trace != [] ==> req.httpMethod == "POST" && !InvalidInput(req) && HasConnectionString(env)
                            && trace[0] == Connect(env.connectionString.value)
    ensures |trace| > 1 ==> trace[|trace| - 1] == Close
    ensures res.status == 201 ==>
              res.data.Some? && res.data.value.email == req.email.value && res.data.value.name == req.name.value
              && res.data.value.message == req.message.value && res.data.value.createdAt == now
              && res.data.value.id == env.insertedId
    ensures res.status != 201 ==> res.data.None?
  {
    trace := [];
    if req.httpMethod == "POST" {
      if InvalidInput(req) {
        res := Response(422, "Invalid input.", None);
        return;
      }
      var newMessage := NewMessage(req, now);
      if !HasConnectionString(env) {
        res := Response(500, "Database connection string is missing.", None);
        return;
      }
      var connectionString := env.connectionString.value;
      trace := [Connect(connectionString)];
      if !env.connects {
        res := Response(500, "Could not connect to database.", None);
        return;
      }
      trace := [Connect(connectionString), InsertOne(DatabaseName, CollectionName, newMessage)];
      if env.insertedId.None? {
        trace := trace + [Close];
        res := Response(500, "Storing message failed!", None);
        return;
      }
      newMessage := newMessage.(id := env.insertedId);
      trace := trace + [Close];
      res := Response(201, "Successfully stored message!", Some(newMessage));
    } else {
      res := Response(405, "Method not allowed", None);
    }
  }
}
