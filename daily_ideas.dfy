/** The `get-daily-idea` serverless handler: a 24-hour cache of one shared
    "idea of the day" in the `daily_ideas` table. The clock, the idea
    generator and the database's failures are parameters of the handler. */
module DailyIdeas {
  import opened Domain

  /** Row ids come from an identity column, which starts at 1. */
  type IdeaId = x: nat | x > 0 witness 1

  datatype Status = Available | Sold

  /** A row of `daily_ideas`. */
  datatype DailyIdeaRow = DailyIdeaRow(
    id: IdeaId, generatedAt: int, data: IdeaData, status: Status, purchasedBy: Option<UserId>)

  datatype HttpMethod = Get | Post | Options | OtherMethod

  /** A JSON value, as far as JavaScript truthiness is concerned. */
  datatype JsonValue = Undefined | Null | Bool(b: bool) | Number(n: int) | Text(s: string) | Array | Object

  /** JavaScript truthiness: `false`, `0`, `""`, `null` and `undefined` are falsy. */
  predicate Truthy(v: JsonValue)
  {
    match v
    case Undefined => false
    case Null => false
    case Bool(b) => b
    case Number(n) => n != 0
    case Text(s) => s != ""
    case Array => true
    case Object => true
  }

  /** What `req.json()` yields: no JSON at all, the JSON value `null`, an
      object (with the value of its `forceNew` property, `Undefined` when
      absent), or another JSON value, none of which has a `forceNew`. */
  datatype Body = Unparsable | NullBody | ObjectBody(forceNew: JsonValue) | OtherBody

  datatype Request = Request(verb: HttpMethod, body: Body)

  datatype Generation = Generated(data: IdeaData) | GenerationFailed(message: string)

  datatype Response = Preflight | Served(id: IdeaId, data: IdeaData) | ServerError(message: string)
  {
    function HttpStatus(): int
    {
      match this
      case Preflight => 200
      case Served(_, _) => 200
      case ServerError(_) => 500
    }
  }

  const DayMillis: int := 24 * 60 * 60 * 1000

  const FetchErrorMessage: string := "Failed to fetch daily idea from database."
  const InsertErrorMessage: string := "Failed to save new daily idea."

  /** The error body the handler's catch block builds from a message. */
  function ErrorResponse(message: string): Response
  {
    ServerError("Failed to get daily idea: " + message)
  }

  /** The `forceNew` flag: `None` when reading it throws (a POST whose body is
      the JSON `null`), otherwise whether the cache is bypassed. An
      unparsable body counts as `{}`. */
  function ParseForceNew(req: Request): (r: Option<bool>)
    ensures r.None? <==> req.verb == Post && req.body == NullBody
    ensures r == Some(true) <==> req.verb == Post && req.body.ObjectBody? && Truthy(req.body.forceNew)
  {
    if req.verb != Post then Some(false)
    else match req.body
      case Unparsable => Some(false)
      case NullBody => None
      case ObjectBody(f) => Some(Truthy(f))
      case OtherBody => Some(false)
  }

  /** The index of the row the query `status = 'available' order by
      generated_at desc limit 1` returns, if any. Rows with equal timestamps
      are returned in an order the database leaves open; here the last
      inserted one wins. */
  function LatestAvailable(rows: seq<DailyIdeaRow>): (r: Option<nat>)
    ensures r.None? <==> forall j :: 0 <= j < |rows| ==> rows[j].status != Available
    ensures r.Some? ==> r.value < |rows| && rows[r.value].status == Available
    ensures r.Some? ==> forall j :: 0 <= j < |rows| && rows[j].status == Available ==>
                          rows[j].generatedAt <= rows[r.value].generatedAt
  {
    if rows == [] then None
    else
      var k := |rows| - 1;
      var before := LatestAvailable(rows[..k]);
      if rows[k].status == Available && (before.None? || rows[before.value].generatedAt <= rows[k].generatedAt)
      then Some(k)
      else before
  }

  /** Served from the cache iff the row is strictly younger than 24 hours
      (a row dated in the future is fresh). */
  predicate IsFresh(generatedAt: int, now: int)
  {
    now - generatedAt < DayMillis
  }

  /** What the handler decides before it calls the generator. */
  datatype Decision = AnswerPreflight | Fail(message: string) | Hit(index: nat) | Miss

  /** The decision over the table as it is when the request arrives;
      `fetchFault` is a database error other than "no rows" (PGRST116). */
  function Decide(req: Request, rows: seq<DailyIdeaRow>, now: int, fetchFault: bool): (d: Decision)
    ensures d == AnswerPreflight <==> req.verb == Options
    ensures d.Hit? <==> req.verb != Options && ParseForceNew(req) == Some(false) && !fetchFault
                        && LatestAvailable(rows).Some?
                        && IsFresh(rows[LatestAvailable(rows).value].generatedAt, now)
    ensures d.Hit? ==> d.index < |rows| && d.index == LatestAvailable(rows).value
    ensures ParseForceNew(req) == Some(true) && req.verb != Options ==> d == Miss
    ensures d.Fail? ==> req.verb != Options &&
                        (ParseForceNew(req).None? || (ParseForceNew(req) == Some(false) && fetchFault))
    ensures req.verb != Options && ParseForceNew(req).None? ==> d.Fail?
    ensures req.verb != Options && ParseForceNew(req) == Some(false) && fetchFault ==> d == Fail(FetchErrorMessage)
  {
    if req.verb == Options then AnswerPreflight
    else match ParseForceNew(req)
      case None => Fail("Cannot read properties of null (reading 'forceNew')")
      case Some(true) => Miss
      case Some(false) =>
        if fetchFault then Fail(FetchErrorMessage)
        else match LatestAvailable(rows)
          case None => Miss
          case Some(i) => if IsFresh(rows[i].generatedAt, now) then Hit(i) else Miss
  }

  /** The `daily_ideas` table. Ids are assigned by the database; `nextId`
      stands for its id source and is above every id in the table. */
  class DailyIdeasTable {
    var rows: seq<DailyIdeaRow>
    var nextId: IdeaId

    ghost predicate Valid()
      reads this
    {
      forall i :: 0 <= i < |rows| ==> rows[i].id < nextId
    }

    constructor ()
      ensures Valid() && rows == [] && nextId == 1
    {
      rows := [];
      nextId := 1;
    }

    /** `insert({ idea_data, status: 'available' }).select('id, idea_data')`:
        appends one row stamped `now` and returns its fresh id. */
    method Insert(data: IdeaData, now: int) returns (id: IdeaId)
      requires Valid()
      modifies this
      ensures Valid()
      ensures id == old(nextId) && nextId == old(nextId) + 1
      ensures rows == old(rows) + [DailyIdeaRow(id, now, data, Available, None)]
      ensures forall i :: 0 <= i < |old(rows)| ==> old(rows)[i].id != id
    {
      id := nextId;
      rows := rows + [DailyIdeaRow(id, now, data, Available, None)];
      nextId := nextId + 1;
    }

    /** The handler. `now` is the clock in milliseconds, `generation` the
        outcome of invoking `generate-idea`, `fetchFault` a failure of the
        select other than "no rows", `insertFault` a failure of the insert. */
    method GetDailyIdea(req: Request, now: int, fetchFault: bool, generation: Generation, insertFault: bool)
      returns (resp: Response)
      requires Valid()
      modifies this
      ensures Valid()
      ensures var d := Decide(req, old(rows), now, fetchFault);
        match d
        case AnswerPreflight => resp == Preflight && rows == old(rows)
        case Fail(msg) => resp == ErrorResponse(msg) && rows == old(rows)
        case Hit(i) =>
          resp == Served(old(rows)[i].id, old(rows)[i].data) && rows == old(rows)
        case Miss =>
          match generation
          case GenerationFailed(msg) => resp == ErrorResponse(msg) && rows == old(rows)
          case Generated(data) =>
            if insertFault then resp == ErrorResponse(InsertErrorMessage) && rows == old(rows)
            else resp == Served(old(nextId), data) && resp.id !in IdsOf(old(rows))
                 && rows == old(rows) + [DailyIdeaRow(old(nextId), now, data, Available, None)]
    {
      if req.verb == Options {
        return Preflight;
      }
      var forceNew := false;
      if req.verb == Post {
        match req.body {
          case Unparsable =>
          case NullBody =>
            return ErrorResponse("Cannot read properties of null (reading 'forceNew')");
          case ObjectBody(f) =>
            forceNew := Truthy(f);
          case OtherBody =>
        }
      }

      var ideaToReturn: Option<Response> := None;
      if !forceNew {
        if fetchFault {
          return ErrorResponse(FetchErrorMessage);
        }
        var latest := LatestAvailable(rows);
        if latest.Some? {
          var row := rows[latest.value];
          if now - row.generatedAt < DayMillis {
            ideaToReturn := Some(Served(row.id, row.data));
          }
        }
      }

      if ideaToReturn.None? {
        match generation {
          case GenerationFailed(msg) =>
            return ErrorResponse(msg);
          case Generated(data) =>
            if insertFault {
              return ErrorResponse(InsertErrorMessage);
            }
            var id := Insert(data, now);
            ideaToReturn := Some(Served(id, data));
        }
      }
      resp := ideaToReturn.value;
    }
  }

  function IdsOf(rows: seq<DailyIdeaRow>): set<IdeaId>
  {
    set i | 0 <= i < |rows| :: rows[i].id
  }

  /** A row inserted no earlier than every other row becomes the one the
      cache query returns. */
  lemma {:induction false} InsertedRowIsLatest(rows: seq<DailyIdeaRow>, row: DailyIdeaRow)
    requires row.status == Available
    requires forall j :: 0 <= j < |rows| ==> rows[j].generatedAt <= row.generatedAt
    ensures LatestAvailable(rows + [row]) == Some(|rows|)
  {
    assert (rows + [row])[..|rows|] == rows;
  }

  /** Idempotence within the window: after a miss inserted a row at `t`, a
      later plain request at `t2 < t + 24h` is served that row, provided the
      clock did not run backwards for the rows already there. */
  lemma ServedAgainWithinWindow(rows: seq<DailyIdeaRow>, row: DailyIdeaRow, req: Request, t2: int)
    requires row.status == Available
    requires forall j :: 0 <= j < |rows| ==> rows[j].generatedAt <= row.generatedAt
    requires req.verb != Options && ParseForceNew(req) == Some(false)
    requires row.generatedAt <= t2 < row.generatedAt + DayMillis
    ensures Decide(req, rows + [row], t2, false) == Hit(|rows|)
  {
    InsertedRowIsLatest(rows, row);
  }

  /** After a day has passed, the same row is no longer served. */
  lemma ExpiresAfterOneDay(rows: seq<DailyIdeaRow>, req: Request, now: int)
    requires req.verb != Options && ParseForceNew(req) == Some(false)
    requires LatestAvailable(rows).Some?
    requires now >= rows[LatestAvailable(rows).value].generatedAt + DayMillis
    ensures Decide(req, rows, now, false) == Miss
  {
  }
}
