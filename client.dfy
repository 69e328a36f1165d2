/** The browser side: how the plant form becomes a request body, which of
    add or update it chooses, and what the table shows. Inputs are the raw
    `value` strings of the form's fields. */
module Client {
  import opened Wrappers
  import opened Text
  import opened Php
  import opened PlantStore
  import opened Api

  // ---------------------------------------------------------------------
  // String.prototype.trim

  /** WhiteSpace and LineTerminator of ECMAScript, the characters trim removes. */
  predicate IsJsWhitespace(c: char)
  {
    c == '\t' || c == '\n' || c == '\U{B}' || c == '\U{C}' || c == '\r' || c == ' '
    || c == '\U{A0}' || c == '\U{1680}' || ('\U{2000}' <= c <= '\U{200A}')
    || c == '\U{2028}' || c == '\U{2029}' || c == '\U{202F}' || c == '\U{205F}'
    || c == '\U{3000}' || c == '\U{FEFF}'
  }

  predicate AllWhitespace(s: string)
  {
    forall i :: 0 <= i < |s| ==> IsJsWhitespace(s[i])
  }

  /** The first position at or after i that does not hold whitespace. */
  function SkipLeading(s: string, i: nat): (k: nat)
    requires i <= |s|
    ensures i <= k <= |s|
    ensures forall m :: i <= m < k ==> IsJsWhitespace(s[m])
    ensures k < |s| ==> !IsJsWhitespace(s[k])
    decreases |s| - i
  {
    if i < |s| && IsJsWhitespace(s[i]) then SkipLeading(s, i + 1) else i
  }

  /** The end of the last character before j, and not before lo, that is
      not whitespace; lo when there is none. */
  function SkipTrailing(s: string, lo: nat, j: nat): (k: nat)
    requires lo <= j <= |s|
    ensures lo <= k <= j
    ensures forall m :: k <= m < j ==> IsJsWhitespace(s[m])
    ensures k > lo ==> !IsJsWhitespace(s[k - 1])
  {
    if j > lo && IsJsWhitespace(s[j - 1]) then SkipTrailing(s, lo, j - 1) else j
  }

  /** `s.trim()`: an infix of s whose ends are not whitespace and outside of
      which s is all whitespace; it is empty exactly when s is all whitespace. */
  function Trim(s: string): (r: string)
    ensures exists i, j ::
      (0 <= i <= j <= |s| && r == s[i..j]
       && (forall m :: 0 <= m < i ==> IsJsWhitespace(s[m]))
       && (forall m :: j <= m < |s| ==> IsJsWhitespace(s[m])))
    ensures r != [] ==> !IsJsWhitespace(r[0]) && !IsJsWhitespace(r[|r| - 1])
    ensures r == [] <==> AllWhitespace(s)
  {
    var i := SkipLeading(s, 0);
    var j := SkipTrailing(s, i, |s|);
    assert i < j ==> s[i..j][0] == s[i] && s[i..j][j - i - 1] == s[j - 1];
    s[i..j]
  }

  /** Trimming twice is trimming once. */
  lemma TrimIdempotent(s: string)
    ensures Trim(Trim(s)) == Trim(s)
  {
    var r := Trim(s);
    assert SkipLeading(r, 0) == 0;
    assert SkipTrailing(r, 0, |r|) == |r|;
    assert r[0..|r|] == r;
  }

  // ---------------------------------------------------------------------
  // The datetime-local value

  /** `s.replace(a, b)` with a one-character string pattern: only the first
      occurrence of a is replaced. */
  function ReplaceFirst(s: string, a: char, b: char): (r: string)
    ensures |r| == |s|
    ensures forall i :: 0 <= i < |s| ==> r[i] == if s[i] == a && a !in s[..i] then b else s[i]
  {
    if s == [] then []
    else if s[0] == a then [b] + s[1..]
    else
      var rest := ReplaceFirst(s[1..], a, b);
      assert forall i :: 1 <= i < |s| ==> s[1..][..i - 1] == s[1..i];
      [s[0]] + rest
  }

  /** The gegossen payload: null for an empty input, otherwise the input
      with its first 'T' made a space and ":00" seconds appended. */
  function GegossenPayload(input: string): (r: Option<string>)
    ensures r.None? <==> input == []
    ensures r.Some? ==> |r.value| == |input| + 3 && r.value[|input|..] == ":00"
    ensures r.Some? ==> r.value[..|input|] == ReplaceFirst(input, 'T', ' ')
  {
    if input == [] then None else Some(ReplaceFirst(input, 'T', ' ') + ":00")
  }

  /** The value a `datetime-local` input holds for a minute: YYYY-MM-DDTHH:MM. */
  function LocalInput(d: DateTime): string
  {
    FormatDate(d) + "T" + Clock(d)
  }

  /** HH:MM of a time. */
  function Clock(d: DateTime): string
  {
    Pad(d.hour, 2) + ":" + Pad(d.minute, 2)
  }

  /** A picked minute becomes exactly the 'Y-m-d H:i:s' text the backend
      writes for that minute, and it reads back as that time. */
  lemma PayloadOfLocalInput(d: DateTime)
    requires d.second == 0
    ensures GegossenPayload(LocalInput(d)) == Some(FormatDateTime(d))
    ensures ParseDateTime(GegossenPayload(LocalInput(d)).value) == Some(d)
  {
    DateHasNoT(d);
    ReplaceFirstAt(FormatDate(d), Clock(d), 'T', ' ');
    DateTimeText(d);
    FormatDateTimeRoundTrip(d);
  }

  lemma DateTimeText(d: DateTime)
    requires d.second == 0
    ensures FormatDateTime(d) == FormatDate(d) + [' '] + Clock(d) + ":00"
  {
    PadZero(2);
    var date, h, m := FormatDate(d), Pad(d.hour, 2), Pad(d.minute, 2);
    assert Pad(d.second, 2) == "00";
    calc {
      FormatDateTime(d);
      date + " " + h + ":" + m + ":" + "00";
      { assert date + " " + h + ":" + m == date + [' '] + (h + ":" + m); }
      date + [' '] + (h + ":" + m) + ":" + "00";
      { assert ":" + "00" == ":00"; }
      date + [' '] + Clock(d) + ":00";
    }
  }

  lemma DateHasNoT(d: DateTime)
    ensures 'T' !in FormatDate(d)
  {
    var date := FormatDate(d);
    assert date == Pad(d.year, 4) + "-" + Pad(d.month, 2) + "-" + Pad(d.day, 2);
    assert forall k :: 0 <= k < 4 ==> IsDigit(date[k]);
    assert forall k :: 5 <= k < 7 ==> IsDigit(date[k]);
    assert forall k :: 8 <= k < 10 ==> IsDigit(date[k]);
  }

  /** Replacing the first a where the first a follows a prefix free of it. */
  lemma ReplaceFirstAt(head: string, tail: string, a: char, b: char)
    requires a !in head
    ensures ReplaceFirst(head + [a] + tail, a, b) == head + [b] + tail
  {
    var s := head + [a] + tail;
    var r := ReplaceFirst(s, a, b);
    forall i | 0 <= i < |s| ensures r[i] == (head + [b] + tail)[i] {
      if i < |head| {
        assert s[i] == head[i];
        assert s[i] != a;
      } else if i == |head| {
        assert s[..i] == head;
      } else {
        assert s[..i][|head|] == a;
      }
    }
  }

  lemma PadZero(width: nat)
    ensures Pad(0, width) == seq(width, _ => '0')
  {
    if width > 0 {
      PadZero(width - 1);
    }
  }

  // ---------------------------------------------------------------------
  // The submit handler

  /** The raw values of the form's fields, the hidden id first. */
  datatype Form = Form(id: string, name: string, kaufdatum: string, standort: string,
                       bewaesserung: string, gegossen: string)

  /** The object the handler sends: a plant without id and timestamps. */
  datatype PlantData = PlantData(name: string, kaufdatum: string, standort: string,
                                 bewaesserungInTage: int, gegossen: Option<string>)

  /** What a submit does: nothing but an error message, add, or update. */
  datatype Submission = Invalid | Add(data: PlantData) | Edit(id: int, data: PlantData)

  /** The hidden id, `value ? parseInt(value) : 0`; None is NaN.
      parseInt stands for the global parseInt, None being NaN. */
  function HiddenId(value: string, parseInt: string -> Option<int>): (r: Option<int>)
    ensures r.Some? && r.value != 0 <==> value != [] && parseInt(value).Some? && parseInt(value).value != 0
  {
    if value == [] then Some(0) else parseInt(value)
  }

  /** The decision the submit handler takes for a form. */
  function Submit(form: Form, parseInt: string -> Option<int>): (r: Submission)
    ensures r.Invalid? <==>
      AllWhitespace(form.name) || AllWhitespace(form.kaufdatum) || AllWhitespace(form.standort)
      || parseInt(form.bewaesserung).None?
    ensures !r.Invalid? ==>
      && r.data.name == Trim(form.name) && r.data.kaufdatum == Trim(form.kaufdatum)
      && r.data.standort == Trim(form.standort)
      && Some(r.data.bewaesserungInTage) == parseInt(form.bewaesserung)
      && r.data.gegossen == GegossenPayload(form.gegossen)
    ensures r.Edit? <==>
      !r.Invalid? && form.id != [] && parseInt(form.id).Some? && parseInt(form.id).value != 0
    ensures r.Edit? ==> Some(r.id) == parseInt(form.id) && r.id != 0
  {
    var id := HiddenId(form.id, parseInt);
    var name := Trim(form.name);
    var kaufdatum := Trim(form.kaufdatum);
    var standort := Trim(form.standort);
    var interval := parseInt(form.bewaesserung);
    var gegossen := GegossenPayload(form.gegossen);
    if name == [] || kaufdatum == [] || standort == [] || interval.None? then Invalid
    else
      var data := PlantData(name, kaufdatum, standort, interval.value, gegossen);
      if id.Some? && id.value != 0 then Edit(id.value, data) else Add(data)
  }

  /** `JSON.stringify(plantData)` as the backend decodes it. */
  function AddBody(p: PlantData): (body: map<string, Value>)
    ensures body.Keys == {"name", "kaufdatum", "standort", "bewaesserung_in_tage", "gegossen"}
  {
    map["name" := Str(p.name), "kaufdatum" := Str(p.kaufdatum), "standort" := Str(p.standort),
        "bewaesserung_in_tage" := Int(p.bewaesserungInTage),
        "gegossen" := if p.gegossen.Some? then Str(p.gegossen.value) else Null]
  }

  /** `JSON.stringify({ id, ...plantData })`: the same fields plus the id. */
  function UpdateBody(id: int, p: PlantData): (body: map<string, Value>)
    ensures body.Keys == AddBody(p).Keys + {"id"}
  {
    AddBody(p)["id" := Int(id)]
  }

  /** The payload carries neither id nor the timestamps; the update body
      adds the id and nothing else. */
  lemma PayloadKeys(id: int, p: PlantData)
    ensures "id" !in AddBody(p) && "created_at" !in AddBody(p) && "updated_at" !in AddBody(p)
    ensures UpdateBody(id, p) - {"id"} == AddBody(p)
    ensures UpdateBody(id, p)["id"] == Int(id)
  {
    assert "id" !in AddBody(p).Keys;
  }

  /** An add reaches create with the payload's fields unchanged by the
      endpoint: the strings as sent, the interval as the number sent, and
      gegossen as sent or null. */
  lemma AddReachesCreate(p: PlantData, query: map<string, string>, rt: Runtime)
    ensures RouteRequest("POST", AddBody(p), query, rt)
      == Call(CreatePlant(p.name, p.kaufdatum, p.standort, p.bewaesserungInTage, p.gegossen))
  {
    var body := AddBody(p);
    assert IsSet(body, "name") && IsSet(body, "kaufdatum") && IsSet(body, "standort");
    assert IsSet(body, "bewaesserung_in_tage") && IntCast(body["bewaesserung_in_tage"], rt) == p.bewaesserungInTage;
    assert IsSet(body, "gegossen") <==> p.gegossen.Some?;
  }

  /** An edit reaches update for its id with the payload as the fields, and
      that payload names all five columns: every save of the form rewrites
      every column, and a null gegossen clears the stored time. */
  lemma EditReachesUpdate(id: int, p: PlantData, query: map<string, string>, rt: Runtime)
    ensures RouteRequest("PUT", UpdateBody(id, p), query, rt) == Call(UpdatePlant(id, AddBody(p)))
    ensures RequestedColumns(AddBody(p)) == Columns
    ensures p.gegossen.None? ==> AddBody(p)[ColumnName(Gegossen)] == Null
  {
    var body := UpdateBody(id, p);
    PayloadKeys(id, p);
    assert IsSet(body, "id") && IntCast(body["id"], rt) == id;
    AddBodyRequestsAll(p);
  }

  /** The add body sets every column, so an update with it writes them all. */
  lemma AddBodyRequestsAll(p: PlantData)
    ensures RequestedColumns(AddBody(p)) == Columns
  {
    var body := AddBody(p);
    forall c: Column ensures Requested(body, c) {
      assert ColumnName(c) in body.Keys;
    }
    AllKept(Columns, body);
  }

  /** The predicate every column satisfies for a body that names them all. */
  predicate RequestsAll(body: map<string, Value>)
  {
    forall c: Column :: Requested(body, c)
  }

  lemma {:induction false} AllKept(cols: seq<Column>, body: map<string, Value>)
    requires RequestsAll(body)
    ensures Keep(cols, body) == cols
  {
    if cols != [] {
      var init := cols[..|cols| - 1];
      var last := cols[|cols| - 1];
      assert cols == init + [last];
      AllKept(init, body);
      KeepLast(cols, body);
      assert Keep(cols, body) == init + [last];
    }
  }

  lemma KeepLast(cols: seq<Column>, body: map<string, Value>)
    requires cols != [] && RequestsAll(body)
    ensures Keep(cols, body) == Keep(cols[..|cols| - 1], body) + [cols[|cols| - 1]]
  {
    assert Requested(body, cols[|cols| - 1]);
  }

  // ---------------------------------------------------------------------
  // The table

  const NoPlants := "Keine Pflanzen gefunden." + " Fügen Sie eine neue Pflanze hinzu!"

  /** JavaScript truthiness of a decoded JSON scalar. */
  predicate JsTruthy(v: Value)
  {
    match v
    case Null => false
    case Bool(b) => b
    case Int(i) => i != 0
    case Str(s) => s != []
  }

  /** A value as a template literal prints it. */
  function JsText(v: Value): string
  {
    match v
    case Null => "null"
    case Bool(b) => if b then "true" else "false"
    case Int(i) => IntToString(i)
    case Str(s) => s
  }

  /** A field of a row as `${plant.field}` prints it. */
  function Cell(plant: Row, key: string): string
  {
    if key in plant then JsText(plant[key]) else "undefined"
  }

  /** `${plant.gegossen || 'N/A'}`: a missing, null or empty time reads N/A. */
  function GegossenCell(plant: Row): (s: string)
    ensures "gegossen" !in plant || plant["gegossen"] == Null || plant["gegossen"] == Str("") ==> s == "N/A"
    ensures "gegossen" in plant && plant["gegossen"].Str? && plant["gegossen"] != Str("") ==> s == plant["gegossen"].s
  {
    if "gegossen" in plant && JsTruthy(plant["gegossen"]) then JsText(plant["gegossen"]) else "N/A"
  }

  /** The six data cells of a table row. */
  function RowCells(plant: Row): (r: seq<string>)
    ensures |r| == 6 && r[5] == GegossenCell(plant)
    ensures r[1] == Cell(plant, "name") && r[4] == Cell(plant, "bewaesserung_in_tage")
  {
    [Cell(plant, "id"), Cell(plant, "name"), Cell(plant, "kaufdatum"), Cell(plant, "standort"),
     Cell(plant, "bewaesserung_in_tage"), GegossenCell(plant)]
  }

  /** renderPlantsTable: the rows it inserts, one per plant in list order,
      and the message it shows, the "no plants" text exactly for an empty list. */
  method RenderPlantsTable(plants: seq<Row>) returns (rows: seq<seq<string>>, message: Option<string>)
    ensures plants == [] <==> rows == []
    ensures message == Some(NoPlants) <==> plants == []
    ensures message.None? <==> plants != []
    ensures |rows| == |plants|
    ensures forall i :: 0 <= i < |plants| ==> rows[i] == RowCells(plants[i]) && rows[i][5] == GegossenCell(plants[i])
  {
    rows := [];
    if |plants| == 0 {
      message := Some(NoPlants);
      return;
    }
    message := None;
    var k := 0;
    while k < |plants|
      invariant 0 <= k <= |plants|
      invariant |rows| == k
      invariant forall i :: 0 <= i < k ==> rows[i] == RowCells(plants[i])
    {
      rows := rows + [RowCells(plants[k])];
      k := k + 1;
    }
  }
}
