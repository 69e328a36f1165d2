/** The HTTP endpoint: one request, identified by its verb, its decoded
    JSON body and its query string, becomes at most one call on a fresh
    Pflanzen object and a `{success, message, data}` envelope. */
module Api {
  import opened Wrappers
  import opened Text
  import opened Php
  import opened Sql
  import opened PlantStore

  /** The JSON object the endpoint echoes; data is null except for GET. */
  datatype Response = Response(success: bool, message: string, data: Option<seq<Row>>)

  const InitialMessage := "Ungültige Anfrage"
  const MissingFields := "Fehlende erforderliche Felder"
  const MissingId := "Fehlende Pflanzen-ID"
  const Unsupported := "Methode nicht unterstützt"
  const Created := "Pflanze erfolgreich erstellt"
  const CreateFailed := "Fehler beim Erstellen der Pflanze"
  const Updated := "Pflanze erfolgreich aktualisiert"
  const UpdateFailed := "Fehler beim Aktualisieren" + " oder keine Änderungen"
  const Deleted := "Pflanze erfolgreich gelöscht"
  const DeleteFailed := "Pflanze nicht gefunden" + " oder Fehler beim Löschen"
  const FoundSuffix := " Pflanzen gefunden"

  /** The response the endpoint starts from before looking at the verb. */
  const Initial := Response(false, InitialMessage, None)

  /** A call on the store, with its arguments as the endpoint converts them. */
  datatype StoreCall =
    | ReadAll
    | CreatePlant(name: string, kaufdatum: string, standort: string, bewaesserung: int, gegossen: Option<string>)
    | UpdatePlant(id: int, fields: map<string, Value>)
    | DeletePlant(id: int)

  /** What the verb switch decides: leave without output, answer with an
      error message, or call the store. */
  datatype Route = Exit | Reject(message: string) | Call(call: StoreCall)

  /** The dispatch decision. The body is the decoded JSON object (a body that
      is not an object is the empty map) and the query the `$_GET` array. */
  function RouteRequest(verb: string, input: map<string, Value>, query: map<string, string>, rt: Runtime): (r: Route)
    ensures r.Exit? <==> verb == "OPTIONS"
    ensures r.Reject? ==> r.message in {MissingFields, MissingId, Unsupported}
    ensures r.Reject? && r.message == Unsupported <==> verb !in {"OPTIONS", "GET", "POST", "PUT", "DELETE"}
    ensures r == Call(ReadAll) <==> verb == "GET"
    ensures r.Call? && r.call.CreatePlant? <==>
      verb == "POST" && IsSet(input, "name") && IsSet(input, "kaufdatum") && IsSet(input, "standort")
      && IsSet(input, "bewaesserung_in_tage")
    ensures r.Call? && r.call.UpdatePlant? <==> verb == "PUT" && IsSet(input, "id")
    ensures r.Call? && r.call.DeletePlant? <==> verb == "DELETE" && "id" in query
    ensures r == Reject(MissingId) <==> (verb == "PUT" && !IsSet(input, "id")) || (verb == "DELETE" && "id" !in query)
    ensures r.Call? && r.call.CreatePlant? ==>
      && IsSet(input, "name") && IsSet(input, "kaufdatum") && IsSet(input, "standort")
      && IsSet(input, "bewaesserung_in_tage")
      && r.call.name == ToPhpString(input["name"])
      && r.call.kaufdatum == ToPhpString(input["kaufdatum"])
      && r.call.standort == ToPhpString(input["standort"])
      && r.call.bewaesserung == IntCast(input["bewaesserung_in_tage"], rt)
      && r.call.gegossen == (if IsSet(input, "gegossen") then Some(ToPhpString(input["gegossen"])) else None)
    ensures r.Call? && r.call.UpdatePlant? ==>
      IsSet(input, "id") && r.call.id == IntCast(input["id"], rt) && r.call.fields == input - {"id"}
    ensures r.Call? && r.call.DeletePlant? ==> "id" in query && r.call.id == rt.leadingInt(query["id"])
  {
    if verb == "OPTIONS" then Exit
    else if verb == "GET" then Call(ReadAll)
    else if verb == "POST" then
      if IsSet(input, "name") && IsSet(input, "kaufdatum") && IsSet(input, "standort")
         && IsSet(input, "bewaesserung_in_tage") then
        Call(CreatePlant(ToPhpString(input["name"]), ToPhpString(input["kaufdatum"]), ToPhpString(input["standort"]),
                         IntCast(input["bewaesserung_in_tage"], rt),
                         if IsSet(input, "gegossen") then Some(ToPhpString(input["gegossen"])) else None))
      else Reject(MissingFields)
    else if verb == "PUT" then
      if IsSet(input, "id") then Call(UpdatePlant(IntCast(input["id"], rt), input - {"id"}))
      else Reject(MissingId)
    else if verb == "DELETE" then
      if "id" in query then Call(DeletePlant(rt.leadingInt(query["id"])))
      else Reject(MissingId)
    else Reject(Unsupported)
  }

  /** The statements a store call sends over a fresh connection. */
  function Traffic(rt: Runtime, call: StoreCall): seq<Statement>
  {
    match call
    case ReadAll => [ReadStatement]
    case CreatePlant(name, kaufdatum, standort, bewaesserung, gegossen) =>
      Sent(PlanCreate(name, kaufdatum, standort, bewaesserung, gegossen, rt))
    case UpdatePlant(id, fields) => Sent(PlanUpdate(id, fields, rt))
    case DeletePlant(id) => [DeleteStatement(id)]
  }

  /** The envelope for a store call, given the database the request meets. */
  function Reply(db: Database, rt: Runtime, call: StoreCall): (r: Response)
    ensures r.data.Some? <==> call.ReadAll?
    ensures call.ReadAll? ==> r.success && r.data == Some(ReadRows(db, []))
  {
    match call
    case ReadAll =>
      var rows := ReadRows(db, []);
      Response(true, NatToString(|rows|) + FoundSuffix, Some(rows))
    case CreatePlant(name, kaufdatum, standort, bewaesserung, gegossen) =>
      var ok := CreateSucceeds(db, rt, [], name, kaufdatum, standort, bewaesserung, gegossen);
      Response(ok, if ok then Created else CreateFailed, None)
    case UpdatePlant(id, fields) =>
      var ok := UpdateSucceeds(db, rt, [], id, fields);
      Response(ok, if ok then Updated else UpdateFailed, None)
    case DeletePlant(id) =>
      var ok := DeleteSucceeds(db, [], id);
      Response(ok, if ok then Deleted else DeleteFailed, None)
  }

  /** What a request gets back: nothing for OPTIONS, otherwise the error
      envelope or the store call's envelope. */
  function Answer(db: Database, rt: Runtime, verb: string, input: map<string, Value>, query: map<string, string>): (r: Option<Response>)
    ensures r.None? <==> verb == "OPTIONS"
    ensures r.Some? && r.value.success ==> RouteRequest(verb, input, query, rt).Call?
  {
    match RouteRequest(verb, input, query, rt)
    case Exit => None
    case Reject(message) => Some(Initial.(message := message))
    case Call(call) => Some(Reply(db, rt, call))
  }

  /** The statements a request sends. */
  function RequestTraffic(rt: Runtime, verb: string, input: map<string, Value>, query: map<string, string>): seq<Statement>
  {
    match RouteRequest(verb, input, query, rt)
    case Call(call) => Traffic(rt, call)
    case _ => []
  }

  /** One run of the endpoint against the database as the request finds it.
      None stands for the OPTIONS exit, which prints nothing. */
  method Handle(db: Database, rt: Runtime, verb: string, input: map<string, Value>, query: map<string, string>)
    returns (response: Option<Response>, sent: seq<Statement>)
    ensures response == Answer(db, rt, verb, input, query)
    ensures sent == RequestTraffic(rt, verb, input, query)
  {
    if verb == "OPTIONS" {
      return None, [];
    }
    var pflanzen := new Pflanzen(db, rt);
    var body := input;
    var r := Initial;
    if verb == "GET" {
      var data := pflanzen.Read();
      r := Response(true, NatToString(|data|) + FoundSuffix, Some(data));
    } else if verb == "POST" {
      if IsSet(body, "name") && IsSet(body, "kaufdatum") && IsSet(body, "standort")
         && IsSet(body, "bewaesserung_in_tage") {
        var gegossen := if IsSet(body, "gegossen") then Some(ToPhpString(body["gegossen"])) else None;
        var result := pflanzen.Create(ToPhpString(body["name"]), ToPhpString(body["kaufdatum"]),
                                      ToPhpString(body["standort"]), IntCast(body["bewaesserung_in_tage"], rt), gegossen);
        r := Response(result, if result then Created else CreateFailed, None);
      } else {
        r := r.(message := MissingFields);
      }
    } else if verb == "PUT" {
      if IsSet(body, "id") {
        var id := IntCast(body["id"], rt);
        body := body - {"id"};
        var result := pflanzen.Update(id, body);
        r := Response(result, if result then Updated else UpdateFailed, None);
      } else {
        r := r.(message := MissingId);
      }
    } else if verb == "DELETE" {
      if "id" in query {
        var id := rt.leadingInt(query["id"]);
        var result := pflanzen.Delete(id);
        r := Response(result, if result then Deleted else DeleteFailed, None);
      } else {
        r := r.(message := MissingId);
      }
    } else {
      r := r.(message := Unsupported);
    }
    return Some(r), pflanzen.issued;
  }

  // ---------------------------------------------------------------------
  // Properties of the endpoint

  /** No answer keeps the initial message: every branch of the switch
      overwrites it, so 'Ungültige Anfrage' is never sent. */
  lemma NeverInitialMessage(db: Database, rt: Runtime, verb: string, input: map<string, Value>, query: map<string, string>)
    ensures var a := Answer(db, rt, verb, input, query);
      a.Some? ==> a.value.message != InitialMessage
  {
    var a := Answer(db, rt, verb, input, query);
    if a.Some? {
      var m := a.value.message;
      assert InitialMessage[0] == 'U';
      match RouteRequest(verb, input, query, rt)
      case Reject(message) =>
        assert m[0] != 'U';
      case Call(call) =>
        if call.ReadAll? {
          assert m[|m| - 1] == 'n' by {
            EndsWith(NatToString(|ReadRows(db, [])|), FoundSuffix);
          }
          assert InitialMessage[|InitialMessage| - 1] == 'e';
        } else {
          assert m[0] in {'P', 'F'};
        }
    }
  }

  lemma EndsWith(a: string, b: string)
    requires |b| > 0
    ensures (a + b)[|a + b| - 1] == b[|b| - 1]
  {
  }

  /** Only a store call can report success, and then only the one the verb
      names: POST, PUT and DELETE echo the store's boolean with null data, GET
      always succeeds with the rows it read. */
  lemma SuccessComesFromStore(db: Database, rt: Runtime, verb: string, input: map<string, Value>, query: map<string, string>)
    ensures var a := Answer(db, rt, verb, input, query);
      && (a.Some? && a.value.success ==> RouteRequest(verb, input, query, rt).Call?)
      && (a.Some? && a.value.data.Some? <==> verb == "GET")
      && (verb == "GET" ==> a == Some(Response(true, NatToString(|ReadRows(db, [])|) + FoundSuffix, Some(ReadRows(db, [])))))
      && (verb == "PUT" && a.value.success ==>
           var call := RouteRequest(verb, input, query, rt).call;
           UpdateSucceeds(db, rt, [], call.id, input) && RequestTraffic(rt, verb, input, query) != [])
      && (verb == "DELETE" && a.value.success ==> "id" in query && DeleteSucceeds(db, [], rt.leadingInt(query["id"])))
  {
    if verb == "PUT" && IsSet(input, "id") {
      var call := RouteRequest(verb, input, query, rt).call;
      PlanUpdateIgnoresId(call.id, input, rt);
    }
  }

  /** For POST, PUT and DELETE the envelope's success is the store method's
      own result, for the arguments the endpoint passes it. */
  lemma SuccessIsStoreResult(db: Database, rt: Runtime, verb: string, input: map<string, Value>, query: map<string, string>)
    ensures var a := Answer(db, rt, verb, input, query);
      && (verb == "POST" && IsSet(input, "name") && IsSet(input, "kaufdatum") && IsSet(input, "standort")
          && IsSet(input, "bewaesserung_in_tage") ==>
            a.Some? && a.value.success == CreateSucceeds(db, rt, [], ToPhpString(input["name"]),
              ToPhpString(input["kaufdatum"]), ToPhpString(input["standort"]),
              IntCast(input["bewaesserung_in_tage"], rt),
              if IsSet(input, "gegossen") then Some(ToPhpString(input["gegossen"])) else None))
      && (verb == "PUT" && IsSet(input, "id") ==>
            a.Some? && a.value.success == UpdateSucceeds(db, rt, [], IntCast(input["id"], rt), input))
      && (verb == "DELETE" && "id" in query ==>
            a.Some? && a.value.success == DeleteSucceeds(db, [], rt.leadingInt(query["id"])))
  {
    if verb == "PUT" && IsSet(input, "id") {
      PlanUpdateIgnoresId(IntCast(input["id"], rt), input, rt);
    }
  }

  /** The message of a write tells success from failure: the success texts
      and the failure texts are distinct. */
  lemma MessageTellsOutcome(db: Database, rt: Runtime, verb: string, input: map<string, Value>, query: map<string, string>)
    requires verb in {"POST", "PUT", "DELETE"}
    ensures var a := Answer(db, rt, verb, input, query);
      a.Some? && (a.value.success <==> a.value.message in {Created, Updated, Deleted})
  {
    FailuresStartWithF();
    SuccessesStartWithP();
    DeleteFailedIsNoSuccess();
  }

  /** The error messages start with 'F' ("Fehl..."). */
  lemma FailuresStartWithF()
    ensures MissingFields[0] == 'F' && MissingId[0] == 'F'
    ensures CreateFailed[0] == 'F' && UpdateFailed[0] == 'F'
  {
  }

  /** The success messages start with 'P' ("Pflanze ..."). */
  lemma SuccessesStartWithP()
    ensures Created[0] == 'P' && Updated[0] == 'P' && Deleted[0] == 'P'
  {
  }

  /** "Pflanze nicht gefunden ..." differs from every "Pflanze erfolgreich ...". */
  lemma DeleteFailedIsNoSuccess()
    ensures DeleteFailed[8] == 'n' && Created[8] == 'e' && Updated[8] == 'e' && Deleted[8] == 'e'
  {
  }

  /** The GET message starts with the row count in decimal, and the count
      reads back from it. */
  lemma CountReadsBack(db: Database, rt: Runtime, input: map<string, Value>, query: map<string, string>)
    ensures var a := Answer(db, rt, "GET", input, query);
      var n := |a.value.data.value|;
      var digits := NatToString(n);
      && a.value.message == digits + FoundSuffix
      && AllDigits(digits)
      && ParseDigits(digits) == n
  {
    var n := |ReadRows(db, [])|;
    NatToStringRoundTrip(n);
  }

  /** Stripping `id` from a PUT body changes nothing about the statement:
      `id` is no column, so the body with or without it plans the same
      update, and `id` is never a SET field. */
  lemma PutBodyIdIsNoField(rt: Runtime, input: map<string, Value>, query: map<string, string>)
    requires IsSet(input, "id")
    ensures var call := RouteRequest("PUT", input, query, rt).call;
      && "id" !in call.fields
      && PlanUpdate(call.id, call.fields, rt) == PlanUpdate(call.id, input, rt)
      && (PlanUpdate(call.id, input, rt).Success? ==> forall c :: c in RequestedColumns(call.fields) ==> ColumnName(c) != "id")
  {
    var call := RouteRequest("PUT", input, query, rt).call;
    PlanUpdateIgnoresId(call.id, input, rt);
    forall c: Column ensures ColumnName(c) != "id" {
      ColumnNameIsIdent(c);
    }
  }

  /** DELETE looks only at the query string: two requests with the same query
      and any bodies are answered alike and send the same statements. */
  lemma DeleteIgnoresBody(db: Database, rt: Runtime, input1: map<string, Value>, input2: map<string, Value>,
                          query: map<string, string>)
    ensures Answer(db, rt, "DELETE", input1, query) == Answer(db, rt, "DELETE", input2, query)
    ensures RequestTraffic(rt, "DELETE", input1, query) == RequestTraffic(rt, "DELETE", input2, query)
  {
  }
}
