/** The data-access class of the backend (backend/Pflanzen.php): a plant
    record held in an object, and the create, read, update and delete
    operations that turn calls into prepared statements for the database. */
module PlantStore {
  import opened Wrappers
  import opened Text
  import opened Php
  import opened Sql

  /** The columns of table `pflanzen` that update and create write. */
  datatype Column = Name | Kaufdatum | Standort | BewaesserungInTage | Gegossen

  /** The order in which update considers the columns. */
  const Columns: seq<Column> := [Name, Kaufdatum, Standort, BewaesserungInTage, Gegossen]

  function ColumnName(c: Column): string
  {
    match c
    case Name => "name"
    case Kaufdatum => "kaufdatum"
    case Standort => "standort"
    case BewaesserungInTage => "bewaesserung_in_tage"
    case Gegossen => "gegossen"
  }

  /** Position of a column in Columns. */
  function Rank(c: Column): (k: nat)
    ensures k < |Columns| && Columns[k] == c
  {
    match c
    case Name => 0
    case Kaufdatum => 1
    case Standort => 2
    case BewaesserungInTage => 3
    case Gegossen => 4
  }

  function Placeholder(c: Column): string { ":" + ColumnName(c) }

  /** The SET clause for one column, `name = :name`. */
  function SetClause(c: Column): string { ColumnName(c) + " = " + Placeholder(c) }

  function Clauses(cols: seq<Column>): (r: seq<string>)
    ensures |r| == |cols|
  {
    seq(|cols|, i requires 0 <= i < |cols| => SetClause(cols[i]))
  }

  function PlaceholderSet(cols: seq<Column>): set<string>
  {
    set c | c in cols :: Placeholder(c)
  }

  lemma ColumnNameIsIdent(c: Column)
    ensures IsIdent(ColumnName(c))
  {
  }

  lemma PlaceholderInjective(c: Column, c': Column)
    requires Placeholder(c) == Placeholder(c')
    ensures c == c'
  {
    assert Placeholder(c)[1..] == ColumnName(c) && Placeholder(c')[1..] == ColumnName(c');
  }

  /** Whether update writes column c: isset() for four columns, and
      array_key_exists() for gegossen, so that an explicit null counts. */
  predicate Requested(data: map<string, Value>, c: Column)
  {
    if c == Gegossen then ColumnName(c) in data else IsSet(data, ColumnName(c))
  }

  predicate Ordered(cols: seq<Column>)
  {
    forall i, j :: 0 <= i < j < |cols| ==> Rank(cols[i]) < Rank(cols[j])
  }

  /** The columns of cols that data requests, in the order of cols. */
  function Keep(cols: seq<Column>, data: map<string, Value>): (r: seq<Column>)
    ensures forall c :: c in r <==> c in cols && Requested(data, c)
    ensures |r| <= |cols|
  {
    if cols == [] then []
    else
      var init := cols[..|cols| - 1];
      var last := cols[|cols| - 1];
      assert forall c :: c in cols <==> c in init || c == last;
      Keep(init, data) + (if Requested(data, last) then [last] else [])
  }

  lemma {:induction false} KeepOrdered(cols: seq<Column>, data: map<string, Value>)
    requires Ordered(cols)
    ensures Ordered(Keep(cols, data))
    decreases |cols|
  {
    if cols != [] {
      var init := cols[..|cols| - 1];
      var last := cols[|cols| - 1];
      KeepOrdered(init, data);
      forall x | x in Keep(init, data) ensures Rank(x) < Rank(last) {
        var k :| 0 <= k < |init| && init[k] == x;
        assert cols[k] == x;
      }
    }
  }

  lemma InColumns(c: Column)
    ensures c in Columns
  {
    assert Columns[Rank(c)] == c;
  }

  /** The columns an update with `data` writes, in SET-clause order. */
  function RequestedColumns(data: map<string, Value>): (r: seq<Column>)
    ensures forall c :: c in r <==> Requested(data, c)
    ensures Ordered(r)
  {
    assert Ordered(Columns);
    assert forall c :: c in Columns by {
      forall c ensures c in Columns { InColumns(c); }
    }
    KeepOrdered(Columns, data);
    Keep(Columns, data)
  }

  /** Why create or update returns false without running a statement. */
  datatype Rejection = BadKaufdatum | BadGegossen | NothingToUpdate

  /** The value update binds to a requested column's placeholder. */
  function Bind(c: Column, v: Value, rt: Runtime): (r: Result<Value, Rejection>)
    ensures r.Failure? ==> (c == Kaufdatum && r.error == BadKaufdatum) || (c == Gegossen && r.error == BadGegossen)
    ensures c == Gegossen && (v == Null || v == Str("")) ==> r == Success(Null)
    ensures r.Success? && c == Kaufdatum ==> r.value.Str? && |r.value.s| == 10
  {
    match c
    case Name => Success(v)
    case Standort => Success(v)
    case BewaesserungInTage => Success(Int(IntCast(v, rt)))
    case Kaufdatum =>
      (match rt.parseDate(ToPhpString(v))
       case None => Failure(BadKaufdatum)
       case Some(d) => Success(Str(FormatDate(d))))
    case Gegossen =>
      if v == Null || v == Str("") then Success(Null)
      else
        (match rt.parseDate(ToPhpString(v))
         case None => Failure(BadGegossen)
         case Some(d) => Success(Str(FormatDateTime(d))))
  }

  /** Column c is requested and its value cannot be bound. */
  predicate Fails(data: map<string, Value>, rt: Runtime, c: Column)
  {
    Requested(data, c) && Bind(c, data[ColumnName(c)], rt).Failure?
  }

  /** SET clauses and parameters gathered so far. */
  datatype Draft = Draft(clauses: seq<string>, params: map<string, Value>)

  /** The clauses and parameters update gathers after considering the
      columns of cols in order, or the rejection that stops it. */
  function Assemble(id: int, data: map<string, Value>, rt: Runtime, cols: seq<Column>): (r: Result<Draft, Rejection>)
    ensures r.Success? ==> ":id" in r.value.params && r.value.params[":id"] == Int(id) && |r.value.clauses| <= |cols|
    ensures r.Failure? ==> r.error != NothingToUpdate
  {
    if cols == [] then Success(Draft([], map[":id" := Int(id)]))
    else
      var c := cols[|cols| - 1];
      match Assemble(id, data, rt, cols[..|cols| - 1])
      case Failure(e) => Failure(e)
      case Success(draft) =>
        if !Requested(data, c) then Success(draft)
        else
          match Bind(c, data[ColumnName(c)], rt)
          case Failure(e) => Failure(e)
          case Success(v) => Success(Draft(draft.clauses + [SetClause(c)], draft.params[Placeholder(c) := v]))
  }

  function UpdateSql(clauses: seq<string>): string
  {
    "UPDATE pflanzen SET " + Join(", ", clauses) + " WHERE id = :id"
  }

  /** The statement `update($id, $data)` runs, or why it runs none. */
  function PlanUpdate(id: int, data: map<string, Value>, rt: Runtime): (r: Result<Statement, Rejection>)
    ensures r.Success? ==> ":id" in r.value.params && r.value.params[":id"] == Int(id)
    ensures r.Failure? && r.error == NothingToUpdate ==> Assemble(id, data, rt, Columns).Success?
  {
    match Assemble(id, data, rt, Columns)
    case Failure(e) => Failure(e)
    case Success(draft) =>
      if draft.clauses == [] then Failure(NothingToUpdate)
      else Success(Statement(UpdateSql(draft.clauses), draft.params))
  }

  // ---------------------------------------------------------------------
  // What an update plan contains

  /** A draft that holds exactly the clauses and bindings of the columns kept,
      in order, next to `:id`. */
  predicate DraftOf(draft: Draft, kept: seq<Column>, id: int, data: map<string, Value>, rt: Runtime)
  {
    && draft.clauses == Clauses(kept)
    && draft.params.Keys == {":id"} + PlaceholderSet(kept)
    && draft.params[":id"] == Int(id)
    && forall c :: c in kept ==>
         && ColumnName(c) in data && Placeholder(c) in draft.params
         && Bind(c, data[ColumnName(c)], rt).Success? && draft.params[Placeholder(c)] == Bind(c, data[ColumnName(c)], rt).value
  }

  lemma {:induction false} AssembleShape(id: int, data: map<string, Value>, rt: Runtime, cols: seq<Column>)
    requires Assemble(id, data, rt, cols).Success?
    ensures var draft := Assemble(id, data, rt, cols).value;
      && draft.clauses == Clauses(Keep(cols, data))
      && draft.params.Keys == {":id"} + PlaceholderSet(Keep(cols, data))
      && draft.params[":id"] == Int(id)
      && forall c :: c in Keep(cols, data) ==>
           Bind(c, data[ColumnName(c)], rt).Success? && draft.params[Placeholder(c)] == Bind(c, data[ColumnName(c)], rt).value
    decreases |cols|
  {
    if cols != [] {
      var init := cols[..|cols| - 1];
      var c := cols[|cols| - 1];
      AssembleShape(id, data, rt, init);
      var before := Assemble(id, data, rt, init).value;
      var kept := Keep(init, data);
      assert DraftOf(before, kept, id, data, rt);
      if Requested(data, c) {
        assert Keep(cols, data) == kept + [c];
        var v := Bind(c, data[ColumnName(c)], rt).value;
        DraftStep(before, kept, c, v, id, data, rt);
        assert DraftOf(Assemble(id, data, rt, cols).value, Keep(cols, data), id, data, rt);
      } else {
        assert Keep(cols, data) == kept;
      }
    }
  }

  /** Adding one requested column's clause and binding keeps a draft exact. */
  lemma DraftStep(before: Draft, kept: seq<Column>, c: Column, v: Value, id: int, data: map<string, Value>, rt: Runtime)
    requires DraftOf(before, kept, id, data, rt)
    requires ColumnName(c) in data && Bind(c, data[ColumnName(c)], rt) == Success(v)
    ensures DraftOf(Draft(before.clauses + [SetClause(c)], before.params[Placeholder(c) := v]), kept + [c], id, data, rt)
  {
    var params := before.params[Placeholder(c) := v];
    ClausesAppend(kept, c);
    PlaceholderSetAppend(kept, c);
    IdIsNoPlaceholder(c);
    forall c' | c' in kept + [c]
      ensures ColumnName(c') in data && Placeholder(c') in params
      ensures Bind(c', data[ColumnName(c')], rt).Success? && params[Placeholder(c')] == Bind(c', data[ColumnName(c')], rt).value
    {
      if c' != c {
        assert c' in kept;
        if Placeholder(c') == Placeholder(c) { PlaceholderInjective(c', c); }
      }
    }
  }

  lemma ClausesAppend(kept: seq<Column>, c: Column)
    ensures Clauses(kept + [c]) == Clauses(kept) + [SetClause(c)]
  {
    assert forall i :: 0 <= i < |kept| ==> (kept + [c])[i] == kept[i];
  }

  lemma PlaceholderSetAppend(kept: seq<Column>, c: Column)
    ensures PlaceholderSet(kept + [c]) == PlaceholderSet(kept) + {Placeholder(c)}
  {
    assert forall x :: x in kept + [c] <==> x in kept || x == c;
  }

  lemma IdIsNoPlaceholder(c: Column)
    ensures ":id" != Placeholder(c)
  {
    assert ":id"[1..] == "id" && Placeholder(c)[1..] == ColumnName(c);
  }

  lemma {:induction false} AssembleFailure(id: int, data: map<string, Value>, rt: Runtime, cols: seq<Column>)
    ensures Assemble(id, data, rt, cols).Failure? <==> exists i :: 0 <= i < |cols| && Fails(data, rt, cols[i])
    ensures Assemble(id, data, rt, cols).Failure? ==>
      exists i :: 0 <= i < |cols| && Fails(data, rt, cols[i])
        && Bind(cols[i], data[ColumnName(cols[i])], rt).error == Assemble(id, data, rt, cols).error
        && forall j :: 0 <= j < i ==> !Fails(data, rt, cols[j])
    decreases |cols|
  {
    if cols != [] {
      var init := cols[..|cols| - 1];
      var n := |cols| - 1;
      AssembleFailure(id, data, rt, init);
      assert forall j :: 0 <= j < n ==> cols[j] == init[j];
      if Assemble(id, data, rt, init).Failure? {
        var i :| 0 <= i < |init| && Fails(data, rt, init[i])
          && Bind(init[i], data[ColumnName(init[i])], rt).error == Assemble(id, data, rt, init).error
          && forall j :: 0 <= j < i ==> !Fails(data, rt, init[j]);
        assert cols[i] == init[i];
      } else if Fails(data, rt, cols[n]) {
        assert forall j :: 0 <= j < n ==> !Fails(data, rt, cols[j]);
      } else {
        forall i | 0 <= i < |cols| ensures !Fails(data, rt, cols[i]) {
          if i < n { assert cols[i] == init[i]; }
        }
      }
    }
  }

  /** Only the two date columns can make an update fail. */
  lemma FailingColumns(data: map<string, Value>, rt: Runtime, c: Column)
    requires Fails(data, rt, c)
    ensures c == Kaufdatum ==> Bind(c, data[ColumnName(c)], rt).error == BadKaufdatum
    ensures c == Gegossen ==> Bind(c, data[ColumnName(c)], rt).error == BadGegossen
    ensures c == Kaufdatum || c == Gegossen
  {
  }

  /** update issues a statement exactly when some known column is requested
      and neither date column fails to parse; otherwise it says why not, the
      purchase date being checked before the watering time. */
  lemma PlanUpdateOutcome(id: int, data: map<string, Value>, rt: Runtime)
    ensures PlanUpdate(id, data, rt).Success? <==>
      RequestedColumns(data) != [] && !Fails(data, rt, Kaufdatum) && !Fails(data, rt, Gegossen)
    ensures Fails(data, rt, Kaufdatum) ==> PlanUpdate(id, data, rt) == Failure(BadKaufdatum)
    ensures !Fails(data, rt, Kaufdatum) && Fails(data, rt, Gegossen) ==> PlanUpdate(id, data, rt) == Failure(BadGegossen)
    ensures RequestedColumns(data) == [] ==> PlanUpdate(id, data, rt) == Failure(NothingToUpdate)
  {
    AssembleFailure(id, data, rt, Columns);
    var a := Assemble(id, data, rt, Columns);
    if a.Failure? {
      var i :| 0 <= i < |Columns| && Fails(data, rt, Columns[i])
        && Bind(Columns[i], data[ColumnName(Columns[i])], rt).error == a.error
        && forall j :: 0 <= j < i ==> !Fails(data, rt, Columns[j]);
      FailingColumns(data, rt, Columns[i]);
      if Fails(data, rt, Kaufdatum) {
        assert Columns[1] == Kaufdatum;
        assert i == 1;
      }
    } else {
      AssembleShape(id, data, rt, Columns);
      assert !Fails(data, rt, Columns[1]) && !Fails(data, rt, Columns[4]);
    }
  }

  /** A statement update issues binds `:id` to the id, binds one
      placeholder per requested column and no other, lists the SET clauses
      in the fixed column order, and uses every placeholder it binds. */
  lemma PlanUpdateStatement(id: int, data: map<string, Value>, rt: Runtime)
    requires PlanUpdate(id, data, rt).Success?
    ensures var st := PlanUpdate(id, data, rt).value;
      && st.sql == UpdateSql(Clauses(RequestedColumns(data)))
      && st.params.Keys == {":id"} + PlaceholderSet(RequestedColumns(data))
      && st.params[":id"] == Int(id)
      && (forall c :: Requested(data, c) ==>
           Bind(c, data[ColumnName(c)], rt).Success?
           && st.params[Placeholder(c)] == Bind(c, data[ColumnName(c)], rt).value)
      && WellBound(st)
  {
    AssembleShape(id, data, rt, Columns);
    var cols := RequestedColumns(data);
    UpdateSqlPlaceholders(cols);
  }

  /** `col = :col` holds the one placeholder `:col`. */
  lemma AssignmentPlaceholders(name: string)
    requires IsIdent(name)
    ensures Placeholders(name + " = " + (":" + name)) == {":" + name}
  {
    var lhs := name + " = ";
    forall i | 0 <= i < |lhs| ensures lhs[i] != ':' {
      if i < |name| { assert IsIdentChar(name[i]); }
    }
    PlaceholdersSkip(lhs, ":" + name);
    PlaceholderAlone(name);
  }

  lemma ClauseAlone(c: Column)
    ensures Placeholders(SetClause(c)) == {Placeholder(c)}
  {
    ColumnNameIsIdent(c);
    AssignmentPlaceholders(ColumnName(c));
  }

  lemma {:induction false} ClausePlaceholders(cols: seq<Column>)
    ensures PlaceholdersOfAll(Clauses(cols)) == PlaceholderSet(cols)
    decreases |cols|
  {
    if cols != [] {
      var c := cols[0];
      ClausePlaceholders(cols[1..]);
      assert Clauses(cols)[1..] == Clauses(cols[1..]);
      ClauseAlone(c);
      assert Clauses(cols)[0] == SetClause(c);
      assert PlaceholderSet(cols) == {Placeholder(c)} + PlaceholderSet(cols[1..]) by {
        assert forall c' :: c' in cols <==> c' == c || c' in cols[1..];
      }
    }
  }

  lemma UpdateSqlPlaceholders(cols: seq<Column>)
    ensures Placeholders(UpdateSql(Clauses(cols))) == {":id"} + PlaceholderSet(cols)
  {
    var joined := Join(", ", Clauses(cols));
    JoinPlaceholders(Clauses(cols));
    ClausePlaceholders(cols);
    var sql := "UPDATE pflanzen SET " + joined + " WHERE id = " + ":" + "id";
    FramedPlaceholders("UPDATE pflanzen SET ", joined, " WHERE id = ", "id");
    assert ":" + "id" == ":id";
    assert Placeholders(sql) == Placeholders(joined) + {":id"};
    assert Placeholders(joined) == PlaceholderSet(cols);
    assert UpdateSql(Clauses(cols)) == sql;
  }

  /** Two requests that agree on the five column keys. */
  predicate SameColumnEntries(d1: map<string, Value>, d2: map<string, Value>)
  {
    forall c: Column ::
      (ColumnName(c) in d1 <==> ColumnName(c) in d2)
      && (ColumnName(c) in d1 ==> d1[ColumnName(c)] == d2[ColumnName(c)])
  }

  lemma {:induction false} AssembleSameColumnEntries(id: int, d1: map<string, Value>, d2: map<string, Value>, rt: Runtime, cols: seq<Column>)
    requires SameColumnEntries(d1, d2)
    ensures Assemble(id, d1, rt, cols) == Assemble(id, d2, rt, cols)
    decreases |cols|
  {
    if cols != [] {
      var c := cols[|cols| - 1];
      AssembleSameColumnEntries(id, d1, d2, rt, cols[..|cols| - 1]);
      assert Requested(d1, c) == Requested(d2, c);
    }
  }

  /** Keys other than the five columns never influence an update. */
  lemma PlanUpdateIgnoresOtherKeys(id: int, d1: map<string, Value>, d2: map<string, Value>, rt: Runtime)
    requires SameColumnEntries(d1, d2)
    ensures PlanUpdate(id, d1, rt) == PlanUpdate(id, d2, rt)
  {
    AssembleSameColumnEntries(id, d1, d2, rt, Columns);
  }

  /** In particular an `id` key in the data is not an update field. */
  lemma PlanUpdateIgnoresId(id: int, data: map<string, Value>, rt: Runtime)
    ensures PlanUpdate(id, data - {"id"}, rt) == PlanUpdate(id, data, rt)
  {
    forall c: Column ensures ColumnName(c) != "id" {
      ColumnNameIsIdent(c);
    }
    PlanUpdateIgnoresOtherKeys(id, data - {"id"}, data, rt);
  }

  /** What update binds for the columns it converts: the purchase date as
      'Y-m-d', the interval through (int), and the watering time as
      'Y-m-d H:i:s', or null when the request clears it with null or ''. */
  lemma PlanUpdateBindings(id: int, data: map<string, Value>, rt: Runtime)
    requires PlanUpdate(id, data, rt).Success?
    ensures var p := PlanUpdate(id, data, rt).value.params;
      && (IsSet(data, "name") ==> ":name" in p && p[":name"] == data["name"])
      && (IsSet(data, "standort") ==> ":standort" in p && p[":standort"] == data["standort"])
      && (IsSet(data, "bewaesserung_in_tage") ==>
            (":bewaesserung_in_tage" in p && p[":bewaesserung_in_tage"] == Int(IntCast(data["bewaesserung_in_tage"], rt))))
      && (IsSet(data, "kaufdatum") ==>
            var parsed := rt.parseDate(ToPhpString(data["kaufdatum"]));
            parsed.Some? && ":kaufdatum" in p && p[":kaufdatum"] == Str(FormatDate(parsed.value)))
      && ("gegossen" in data && (data["gegossen"] == Null || data["gegossen"] == Str("")) ==>
            ":gegossen" in p && p[":gegossen"] == Null)
      && ("gegossen" in data && data["gegossen"] != Null && data["gegossen"] != Str("") ==>
            var parsed := rt.parseDate(ToPhpString(data["gegossen"]));
            parsed.Some? && ":gegossen" in p && p[":gegossen"] == Str(FormatDateTime(parsed.value)))
  {
    NameBinding(id, data, rt);
    StandortBinding(id, data, rt);
    BewaesserungBinding(id, data, rt);
    KaufdatumBinding(id, data, rt);
    GegossenBinding(id, data, rt);
  }

  lemma NameBinding(id: int, data: map<string, Value>, rt: Runtime)
    requires PlanUpdate(id, data, rt).Success?
    ensures var p := PlanUpdate(id, data, rt).value.params;
      IsSet(data, "name") ==> ":name" in p && p[":name"] == data["name"]
  {
    if IsSet(data, "name") {
      BoundValue(id, data, rt, Name);
      NamePlaceholder();
    }
  }

  lemma StandortBinding(id: int, data: map<string, Value>, rt: Runtime)
    requires PlanUpdate(id, data, rt).Success?
    ensures var p := PlanUpdate(id, data, rt).value.params;
      IsSet(data, "standort") ==> ":standort" in p && p[":standort"] == data["standort"]
  {
    if IsSet(data, "standort") {
      BoundValue(id, data, rt, Standort);
      StandortPlaceholder();
    }
  }

  lemma BewaesserungBinding(id: int, data: map<string, Value>, rt: Runtime)
    requires PlanUpdate(id, data, rt).Success?
    ensures var p := PlanUpdate(id, data, rt).value.params;
      IsSet(data, "bewaesserung_in_tage") ==>
        ":bewaesserung_in_tage" in p && p[":bewaesserung_in_tage"] == Int(IntCast(data["bewaesserung_in_tage"], rt))
  {
    if IsSet(data, "bewaesserung_in_tage") {
      BoundValue(id, data, rt, BewaesserungInTage);
      BewaesserungPlaceholder();
    }
  }

  lemma KaufdatumBinding(id: int, data: map<string, Value>, rt: Runtime)
    requires PlanUpdate(id, data, rt).Success?
    ensures var p := PlanUpdate(id, data, rt).value.params;
      IsSet(data, "kaufdatum") ==>
        var parsed := rt.parseDate(ToPhpString(data["kaufdatum"]));
        parsed.Some? && ":kaufdatum" in p && p[":kaufdatum"] == Str(FormatDate(parsed.value))
  {
    if IsSet(data, "kaufdatum") {
      BoundValue(id, data, rt, Kaufdatum);
      KaufdatumPlaceholder();
    }
  }

  lemma GegossenBinding(id: int, data: map<string, Value>, rt: Runtime)
    requires PlanUpdate(id, data, rt).Success?
    ensures var p := PlanUpdate(id, data, rt).value.params;
      && ("gegossen" in data && (data["gegossen"] == Null || data["gegossen"] == Str("")) ==>
            ":gegossen" in p && p[":gegossen"] == Null)
      && ("gegossen" in data && data["gegossen"] != Null && data["gegossen"] != Str("") ==>
            var parsed := rt.parseDate(ToPhpString(data["gegossen"]));
            parsed.Some? && ":gegossen" in p && p[":gegossen"] == Str(FormatDateTime(parsed.value)))
  {
    if "gegossen" in data {
      BoundValue(id, data, rt, Gegossen);
      GegossenPlaceholder();
    }
  }

  lemma BoundValue(id: int, data: map<string, Value>, rt: Runtime, c: Column)
    requires PlanUpdate(id, data, rt).Success? && Requested(data, c)
    ensures var p := PlanUpdate(id, data, rt).value.params;
      && Bind(c, data[ColumnName(c)], rt).Success?
      && Placeholder(c) in p && p[Placeholder(c)] == Bind(c, data[ColumnName(c)], rt).value
  {
    PlanUpdateStatement(id, data, rt);
    assert c in RequestedColumns(data);
  }

  // ---------------------------------------------------------------------
  // create, read and delete

  /** PHP truthiness of a ?string: null, '' and '0' are false. */
  predicate Truthy(s: Option<string>)
  {
    s.Some? && s.value != "" && s.value != "0"
  }

  function PlaceholderList(cols: seq<Column>): (r: seq<string>)
    ensures |r| == |cols|
  {
    seq(|cols|, i requires 0 <= i < |cols| => Placeholder(cols[i]))
  }

  function NameList(cols: seq<Column>): (r: seq<string>)
    ensures |r| == |cols|
  {
    seq(|cols|, i requires 0 <= i < |cols| => ColumnName(cols[i]))
  }

  /** `INSERT INTO pflanzen (name, ..., gegossen)`, a line break and the
      indentation of the source text, then `VALUES (`. */
  const InsertHead := "INSERT INTO pflanzen (" + Join(", ", NameList(Columns)) + ")\n                VALUES ("

  /** The INSERT statement of create, one placeholder per column. */
  const InsertSql := InsertHead + Join(", ", PlaceholderList(Columns)) + ")"

  lemma {:induction false} PlaceholderListPlaceholders(cols: seq<Column>)
    ensures PlaceholdersOfAll(PlaceholderList(cols)) == PlaceholderSet(cols)
    decreases |cols|
  {
    if cols != [] {
      var c := cols[0];
      PlaceholderListPlaceholders(cols[1..]);
      assert PlaceholderList(cols)[1..] == PlaceholderList(cols[1..]);
      ColumnNameIsIdent(c);
      PlaceholderAlone(ColumnName(c));
      assert PlaceholderList(cols)[0] == Placeholder(c);
      assert PlaceholderSet(cols) == {Placeholder(c)} + PlaceholderSet(cols[1..]) by {
        assert forall c' :: c' in cols <==> c' == c || c' in cols[1..];
      }
    }
  }

  lemma InsertHeadColonFree()
    ensures ColonFree(InsertHead)
  {
    forall i | 0 <= i < |NameList(Columns)| ensures ColonFree(NameList(Columns)[i]) {
      ColumnNameIsIdent(Columns[i]);
    }
    JoinColonFree(", ", NameList(Columns));
    var a, b, c := "INSERT INTO pflanzen (", Join(", ", NameList(Columns)), ")\n                VALUES (";
    assert ColonFree(a) && ColonFree(c);
    assert InsertHead == a + b + c;
  }

  lemma AllPlaceholders()
    ensures PlaceholderSet(Columns) == {":name", ":kaufdatum", ":standort", ":bewaesserung_in_tage", ":gegossen"}
  {
    assert Placeholder(Name) == ":name" && Placeholder(Kaufdatum) == ":kaufdatum";
    assert Placeholder(Standort) == ":standort" && Placeholder(Gegossen) == ":gegossen";
    assert Placeholder(BewaesserungInTage) == ":bewaesserung_in_tage";
    forall c ensures c in Columns { InColumns(c); }
  }

  lemma InsertSqlPlaceholders()
    ensures Placeholders(InsertSql) == {":name", ":kaufdatum", ":standort", ":bewaesserung_in_tage", ":gegossen"}
  {
    var values := Join(", ", PlaceholderList(Columns));
    assert Placeholders(values) == PlaceholderSet(Columns) by {
      JoinPlaceholders(PlaceholderList(Columns));
      PlaceholderListPlaceholders(Columns);
    }
    InsertHeadColonFree();
    EnclosedPlaceholders(InsertHead, values, ")");
    AllPlaceholders();
  }

  /** The statement `create(...)` runs, or why it runs none. */
  function PlanCreate(name: string, kaufdatum: string, standort: string, bewaesserung: int,
                      gegossen: Option<string>, rt: Runtime): (r: Result<Statement, Rejection>)
    ensures r.Success? <==> rt.parseDate(kaufdatum).Some? && (Truthy(gegossen) ==> rt.parseDate(gegossen.value).Some?)
    ensures r.Failure? ==> r.error == if rt.parseDate(kaufdatum).None? then BadKaufdatum else BadGegossen
    ensures r.Success? ==> r.value.sql == InsertSql && WellBound(r.value)
  {
    match rt.parseDate(kaufdatum)
    case None => Failure(BadKaufdatum)
    case Some(k) =>
      if Truthy(gegossen) && rt.parseDate(gegossen.value).None? then Failure(BadGegossen)
      else
        var g := if Truthy(gegossen) then Str(FormatDateTime(rt.parseDate(gegossen.value).value)) else Null;
        var params := InsertParams(Str(name), Str(FormatDate(k)), Str(standort), Int(bewaesserung), g);
        InsertSqlPlaceholders();
        Success(Statement(InsertSql, params))
  }

  /** The parameter map of create: one entry per column placeholder. */
  function InsertParams(name: Value, kaufdatum: Value, standort: Value, bewaesserung: Value, gegossen: Value)
    : (p: map<string, Value>)
    ensures p.Keys == {":name", ":kaufdatum", ":standort", ":bewaesserung_in_tage", ":gegossen"}
  {
    map[":name" := name, ":kaufdatum" := kaufdatum, ":standort" := standort,
        ":bewaesserung_in_tage" := bewaesserung, ":gegossen" := gegossen]
  }

  /** What create binds: the strings and the interval as given, the purchase
      date as a 'Y-m-d' text, and the watering time as a 'Y-m-d H:i:s' text
      that reads back as the parsed time, or null when the string is falsy. */
  lemma PlanCreateBindings(name: string, kaufdatum: string, standort: string, bewaesserung: int,
                           gegossen: Option<string>, rt: Runtime)
    requires PlanCreate(name, kaufdatum, standort, bewaesserung, gegossen, rt).Success?
    ensures var p := PlanCreate(name, kaufdatum, standort, bewaesserung, gegossen, rt).value.params;
      && p.Keys == {":name", ":kaufdatum", ":standort", ":bewaesserung_in_tage", ":gegossen"}
      && p[":name"] == Str(name) && p[":standort"] == Str(standort) && p[":bewaesserung_in_tage"] == Int(bewaesserung)
      && p[":kaufdatum"] == Str(FormatDate(rt.parseDate(kaufdatum).value))
      && (p[":gegossen"] == Null <==> !Truthy(gegossen))
      && (Truthy(gegossen) ==> p[":gegossen"].Str? && ParseDateTime(p[":gegossen"].s) == rt.parseDate(gegossen.value))
  {
    if Truthy(gegossen) {
      FormatDateTimeRoundTrip(rt.parseDate(gegossen.value).value);
    }
  }

  /** The query of read: every row, newest id first. */
  const ReadStatement := Statement("SELECT * FROM pflanzen ORDER BY id DESC", map[])

  /** The text of delete's query up to its one placeholder. */
  const DeleteHead := "DELETE FROM pflanzen WHERE id = "

  function DeleteStatement(id: int): Statement
  {
    Statement(DeleteHead + ":id", map[":id" := Int(id)])
  }

  lemma ReadWellBound()
    ensures WellBound(ReadStatement)
  {
    var select := "SELECT * FROM pflanzen ORDER BY id DESC";
    assert ColonFree(select);
    PlaceholdersSkip(select, []);
    assert select + [] == select;
  }

  lemma DeleteWellBound(id: int)
    ensures WellBound(DeleteStatement(id))
  {
    assert ColonFree(DeleteHead);
    PlaceholdersSkip(DeleteHead, ":id");
    PlaceholderAlone("id");
    assert ":" + "id" == ":id";
  }

  // ---------------------------------------------------------------------
  // What each operation reports, given the database's answer

  /** The statements an operation sends: its planned statement, if any. */
  function Sent(plan: Result<Statement, Rejection>): seq<Statement>
  {
    if plan.Success? then [plan.value] else []
  }

  /** create reports success when execute() returned true. */
  predicate CreateSucceeds(db: Database, rt: Runtime, history: seq<Statement>, name: string, kaufdatum: string,
                           standort: string, bewaesserung: int, gegossen: Option<string>)
  {
    var plan := PlanCreate(name, kaufdatum, standort, bewaesserung, gegossen, rt);
    plan.Success? && var e := db(history, plan.value); e.Executed? && e.result
  }

  /** update reports success when execute() returned true and a row changed. */
  predicate UpdateSucceeds(db: Database, rt: Runtime, history: seq<Statement>, id: int, data: map<string, Value>)
  {
    var plan := PlanUpdate(id, data, rt);
    plan.Success? && var e := db(history, plan.value); e.Executed? && e.result && e.rowCount > 0
  }

  /** delete reports success when a row was removed. */
  predicate DeleteSucceeds(db: Database, history: seq<Statement>, id: int)
  {
    var e := db(history, DeleteStatement(id)); e.Executed? && e.rowCount > 0
  }

  /** The rows read returns: none when the query raised. */
  function ReadRows(db: Database, history: seq<Statement>): seq<Row>
  {
    match db(history, ReadStatement)
    case Raised => []
    case Executed(_, _, _, rows) => rows
  }

  /** An update that runs no statement reports failure whatever the
      database holds; one that runs a statement reports success exactly when
      the database says a row was affected. */
  lemma UpdateSucceedsOnlyWithStatement(db: Database, rt: Runtime, history: seq<Statement>, id: int, data: map<string, Value>)
    ensures RequestedColumns(data) == [] ==> !UpdateSucceeds(db, rt, history, id, data)
    ensures UpdateSucceeds(db, rt, history, id, data) ==>
      !Fails(data, rt, Kaufdatum) && !Fails(data, rt, Gegossen) && db(history, PlanUpdate(id, data, rt).value).rowCount > 0
  {
    PlanUpdateOutcome(id, data, rt);
  }

  // ---------------------------------------------------------------------
  // The object

  /** A plant record with the connection it was created with. */
  class Pflanzen {
    var id: int
    var name: string
    var kaufdatum: Option<DateTime>
    var standort: string
    var bewaesserungInTage: int
    var gegossen: Option<DateTime>
    /** Statements this object has sent over its connection, oldest first. */
    var issued: seq<Statement>
    /** The connection handed out by the database singleton. */
    const db: Database
    const runtime: Runtime

    constructor (db: Database, runtime: Runtime, id: int := 0, name: string := "", kaufdatum: Option<DateTime> := None,
                 standort: string := "", bewaesserungInTage: int := 0, gegossen: Option<DateTime> := None)
      ensures this.db == db && this.runtime == runtime
      ensures this.id == id && this.name == name && this.kaufdatum == kaufdatum
      ensures this.standort == standort && this.bewaesserungInTage == bewaesserungInTage && this.gegossen == gegossen
      ensures issued == []
    {
      this.db := db;
      this.runtime := runtime;
      this.id := id;
      this.name := name;
      this.kaufdatum := kaufdatum;
      this.standort := standort;
      this.bewaesserungInTage := bewaesserungInTage;
      this.gegossen := gegossen;
      issued := [];
    }

    /** The purchase date as 'Y-m-d', or null: the date of the stored
        DateTime with its time of day dropped. */
    function GetKaufdatum(): (r: Option<string>)
      reads this
      ensures r.Some? <==> kaufdatum.Some?
      ensures r.Some? ==>
        (|r.value| == 10
         && ParseDateTime(r.value + " 00:00:00") == Some(kaufdatum.value.(hour := 0, minute := 0, second := 0)))
    {
      if kaufdatum.Some? then
        var d := kaufdatum.value;
        var midnight: DateTime := d.(hour := 0, minute := 0, second := 0);
        assert FormatDateTime(midnight) == FormatDate(d) + " 00:00:00";
        FormatDateTimeRoundTrip(midnight);
        Some(FormatDate(d))
      else None
    }

    /** The watering time as 'Y-m-d H:i:s', or null; it reads back as the
        stored DateTime. */
    function GetGegossen(): (r: Option<string>)
      reads this
      ensures r.Some? <==> gegossen.Some?
      ensures r.Some? ==> ParseDateTime(r.value) == gegossen
    {
      if gegossen.Some? then
        FormatDateTimeRoundTrip(gegossen.value);
        Some(FormatDateTime(gegossen.value))
      else None
    }

    method SetId(id: int)
      modifies this`id
      ensures this.id == id
    {
      this.id := id;
    }

    method SetName(name: string)
      modifies this`name
      ensures this.name == name
    {
      this.name := name;
    }

    method SetKaufdatum(kaufdatum: Option<DateTime>)
      modifies this`kaufdatum
      ensures this.kaufdatum == kaufdatum
    {
      this.kaufdatum := kaufdatum;
    }

    method SetStandort(standort: string)
      modifies this`standort
      ensures this.standort == standort
    {
      this.standort := standort;
    }

    method SetBewaesserungInTage(bewaesserungInTage: int)
      modifies this`bewaesserungInTage
      ensures this.bewaesserungInTage == bewaesserungInTage
    {
      this.bewaesserungInTage := bewaesserungInTage;
    }

    method SetGegossen(gegossen: Option<DateTime>)
      modifies this`gegossen
      ensures this.gegossen == gegossen
    {
      this.gegossen := gegossen;
    }

    /** Inserts a plant; on success the object takes the new row's id. */
    method Create(name: string, kaufdatumStr: string, standort: string, bewaesserung: int, gegossenStr: Option<string>)
      returns (ok: bool)
      modifies this`issued, this`id
      ensures var plan := PlanCreate(name, kaufdatumStr, standort, bewaesserung, gegossenStr, runtime);
        issued == old(issued) + Sent(plan)
      ensures ok == CreateSucceeds(db, runtime, old(issued), name, kaufdatumStr, standort, bewaesserung, gegossenStr)
      ensures id == if ok then db(old(issued), PlanCreate(name, kaufdatumStr, standort, bewaesserung, gegossenStr, runtime).value).lastInsertId
                    else old(id)
    {
      var kaufdatumObj := runtime.parseDate(kaufdatumStr);
      if kaufdatumObj.None? {
        return false;
      }
      var gegossenObj: Option<DateTime> := None;
      if Truthy(gegossenStr) {
        gegossenObj := runtime.parseDate(gegossenStr.value);
        if gegossenObj.None? {
          return false;
        }
      }
      var stmt := Statement(InsertSql, map[
        ":name" := Str(name),
        ":kaufdatum" := Str(FormatDate(kaufdatumObj.value)),
        ":standort" := Str(standort),
        ":bewaesserung_in_tage" := Int(bewaesserung),
        ":gegossen" := if gegossenObj.Some? then Str(FormatDateTime(gegossenObj.value)) else Null]);
      var outcome := db(issued, stmt);
      issued := issued + [stmt];
      if outcome.Executed? && outcome.result {
        id := outcome.lastInsertId;
        return true;
      }
      return false;
    }

    /** All rows, newest id first, or none when the query raises. */
    method Read() returns (rows: seq<Row>)
      modifies this`issued
      ensures issued == old(issued) + [ReadStatement]
      ensures rows == ReadRows(db, old(issued))
    {
      var outcome := db(issued, ReadStatement);
      issued := issued + [ReadStatement];
      if outcome.Raised? {
        return [];
      }
      return outcome.rows;
    }

    /** Writes the requested columns of the row with the given id. */
    method Update(id: int, data: map<string, Value>) returns (ok: bool)
      modifies this`issued
      ensures issued == old(issued) + Sent(PlanUpdate(id, data, runtime))
      ensures ok == UpdateSucceeds(db, runtime, old(issued), id, data)
    {
      var setClauses, params, rejected := GatherAssignments(id, data, runtime);
      if rejected.Some? {
        return false;
      }
      if |setClauses| == 0 {
        return false;
      }

      var stmt := Statement("UPDATE pflanzen SET " + Join(", ", setClauses) + " WHERE id = :id", params);
      var outcome := db(issued, stmt);
      issued := issued + [stmt];
      ok := outcome.Executed? && outcome.result && outcome.rowCount > 0;
    }

    /** Removes the row with the given id. */
    method Delete(id: int) returns (ok: bool)
      modifies this`issued
      ensures issued == old(issued) + [DeleteStatement(id)]
      ensures ok == DeleteSucceeds(db, old(issued), id)
    {
      var stmt := DeleteStatement(id);
      var outcome := db(issued, stmt);
      issued := issued + [stmt];
      if outcome.Raised? {
        return false;
      }
      return outcome.rowCount > 0;
    }
  }

  /** The first half of update: the SET clauses and the parameter map,
      column by column, or the rejection of a date that does not parse. */
  method GatherAssignments(id: int, data: map<string, Value>, runtime: Runtime)
    returns (setClauses: seq<string>, params: map<string, Value>, rejected: Option<Rejection>)
    ensures rejected.None? ==> Assemble(id, data, runtime, Columns) == Success(Draft(setClauses, params))
    ensures rejected.Some? ==> Assemble(id, data, runtime, Columns) == Failure(rejected.value)
  {
    setClauses := [];
    params := map[":id" := Int(id)];
    rejected := None;
    ghost var before := Draft(setClauses, params);

    if IsSet(data, "name") {
      setClauses := setClauses + ["name = :name"];
      params := params[":name" := data["name"]];
    }
    NameStep(id, data, runtime);
    before := Draft(setClauses, params);
    if IsSet(data, "kaufdatum") {
      setClauses := setClauses + ["kaufdatum = :kaufdatum"];
      var kaufdatumObj := runtime.parseDate(ToPhpString(data["kaufdatum"]));
      if kaufdatumObj.None? {
        KaufdatumStep(id, data, runtime, before);
        return setClauses, params, Some(BadKaufdatum);
      }
      params := params[":kaufdatum" := Str(FormatDate(kaufdatumObj.value))];
    }
    KaufdatumStep(id, data, runtime, before);
    before := Draft(setClauses, params);
    if IsSet(data, "standort") {
      setClauses := setClauses + ["standort = :standort"];
      params := params[":standort" := data["standort"]];
    }
    StandortStep(id, data, runtime, before);
    before := Draft(setClauses, params);
    if IsSet(data, "bewaesserung_in_tage") {
      setClauses := setClauses + ["bewaesserung_in_tage = :bewaesserung_in_tage"];
      params := params[":bewaesserung_in_tage" := Int(IntCast(data["bewaesserung_in_tage"], runtime))];
    }
    BewaesserungStep(id, data, runtime, before);
    before := Draft(setClauses, params);
    if "gegossen" in data {
      setClauses := setClauses + ["gegossen = :gegossen"];
      if data["gegossen"] == Null || data["gegossen"] == Str("") {
        params := params[":gegossen" := Null];
      } else {
        var gegossenObj := runtime.parseDate(ToPhpString(data["gegossen"]));
        if gegossenObj.None? {
          GegossenStep(id, data, runtime, before);
          return setClauses, params, Some(BadGegossen);
        }
        params := params[":gegossen" := Str(FormatDateTime(gegossenObj.value))];
      }
    }
    GegossenStep(id, data, runtime, before);
  }

  // Each block of update, stated with its literal texts against Assemble.

  lemma NameStep(id: int, data: map<string, Value>, rt: Runtime)
    ensures Assemble(id, data, rt, Columns[..1]) ==
      var draft := Draft([], map[":id" := Int(id)]);
      if IsSet(data, "name") then Success(Draft(draft.clauses + ["name = :name"], draft.params[":name" := data["name"]]))
      else Success(draft)
  {
    AssembleStep(id, data, rt, 1);
    assert Columns[..0] == [];
    NameClause();
    NamePlaceholder();
  }

  lemma KaufdatumStep(id: int, data: map<string, Value>, rt: Runtime, draft: Draft)
    requires Assemble(id, data, rt, Columns[..1]) == Success(draft)
    ensures !IsSet(data, "kaufdatum") ==> Assemble(id, data, rt, Columns[..2]) == Success(draft)
    ensures IsSet(data, "kaufdatum") ==>
      match rt.parseDate(ToPhpString(data["kaufdatum"]))
      case None => Assemble(id, data, rt, Columns) == Failure(BadKaufdatum)
      case Some(d) => (Assemble(id, data, rt, Columns[..2]) ==
        Success(Draft(draft.clauses + ["kaufdatum = :kaufdatum"], draft.params[":kaufdatum" := Str(FormatDate(d))])))
  {
    AssembleStep(id, data, rt, 2);
    KaufdatumClause();
    KaufdatumPlaceholder();
    if IsSet(data, "kaufdatum") && rt.parseDate(ToPhpString(data["kaufdatum"])).None? {
      AssembleStopsAtFailure(id, data, rt, Columns, 2);
    }
  }

  lemma StandortStep(id: int, data: map<string, Value>, rt: Runtime, draft: Draft)
    requires Assemble(id, data, rt, Columns[..2]) == Success(draft)
    ensures Assemble(id, data, rt, Columns[..3]) ==
      if IsSet(data, "standort") then
        Success(Draft(draft.clauses + ["standort = :standort"], draft.params[":standort" := data["standort"]]))
      else Success(draft)
  {
    AssembleStep(id, data, rt, 3);
    StandortClause();
    StandortPlaceholder();
  }

  lemma BewaesserungStep(id: int, data: map<string, Value>, rt: Runtime, draft: Draft)
    requires Assemble(id, data, rt, Columns[..3]) == Success(draft)
    ensures Assemble(id, data, rt, Columns[..4]) ==
      if IsSet(data, "bewaesserung_in_tage") then
        Success(Draft(draft.clauses + ["bewaesserung_in_tage = :bewaesserung_in_tage"],
                      draft.params[":bewaesserung_in_tage" := Int(IntCast(data["bewaesserung_in_tage"], rt))]))
      else Success(draft)
  {
    AssembleStep(id, data, rt, 4);
    BewaesserungClause();
    BewaesserungPlaceholder();
  }

  lemma GegossenStep(id: int, data: map<string, Value>, rt: Runtime, draft: Draft)
    requires Assemble(id, data, rt, Columns[..4]) == Success(draft)
    ensures "gegossen" !in data ==> Assemble(id, data, rt, Columns) == Success(draft)
    ensures "gegossen" in data && (data["gegossen"] == Null || data["gegossen"] == Str("")) ==>
      Assemble(id, data, rt, Columns) == Success(Draft(draft.clauses + ["gegossen = :gegossen"], draft.params[":gegossen" := Null]))
    ensures "gegossen" in data && data["gegossen"] != Null && data["gegossen"] != Str("") ==>
      match rt.parseDate(ToPhpString(data["gegossen"]))
      case None => Assemble(id, data, rt, Columns) == Failure(BadGegossen)
      case Some(d) => (Assemble(id, data, rt, Columns) ==
        Success(Draft(draft.clauses + ["gegossen = :gegossen"], draft.params[":gegossen" := Str(FormatDateTime(d))])))
  {
    AssembleStep(id, data, rt, 5);
    assert Columns[..5] == Columns;
    GegossenClause();
    GegossenPlaceholder();
  }

  /** Once a prefix of the columns is rejected, the whole update is. */
  lemma {:induction false} AssembleStopsAtFailure(id: int, data: map<string, Value>, rt: Runtime, cols: seq<Column>, k: nat)
    requires k <= |cols| && Assemble(id, data, rt, cols[..k]).Failure?
    ensures Assemble(id, data, rt, cols) == Assemble(id, data, rt, cols[..k])
    decreases |cols| - k
  {
    if k < |cols| {
      assert cols[..k + 1][..k] == cols[..k];
      AssembleStopsAtFailure(id, data, rt, cols, k + 1);
    } else {
      assert cols[..k] == cols;
    }
  }

  /** One more column considered: Assemble over the first k columns, spelled
      out with the literal texts of that column's clause and placeholder. */
  lemma AssembleStep(id: int, data: map<string, Value>, rt: Runtime, k: nat)
    requires 0 < k <= |Columns|
    ensures var c := Columns[k - 1];
      Assemble(id, data, rt, Columns[..k]) ==
        match Assemble(id, data, rt, Columns[..k - 1])
        case Failure(e) => Failure(e)
        case Success(draft) =>
          if !Requested(data, c) then Success(draft)
          else
            match Bind(c, data[ColumnName(c)], rt)
            case Failure(e) => Failure(e)
            case Success(v) => Success(Draft(draft.clauses + [SetClause(c)], draft.params[Placeholder(c) := v]))
  {
    assert Columns[..k][..k - 1] == Columns[..k - 1];
    assert Columns[..k][k - 1] == Columns[k - 1];
  }

  // The literal texts update writes for each column, one fact per lemma.

  lemma NameClause()
    ensures SetClause(Name) == "name = :name"
  {
  }

  lemma NamePlaceholder()
    ensures Placeholder(Name) == ":name"
  {
  }

  lemma KaufdatumClause()
    ensures SetClause(Kaufdatum) == "kaufdatum = :kaufdatum"
  {
  }

  lemma KaufdatumPlaceholder()
    ensures Placeholder(Kaufdatum) == ":kaufdatum"
  {
  }

  lemma StandortClause()
    ensures SetClause(Standort) == "standort = :standort"
  {
  }

  lemma StandortPlaceholder()
    ensures Placeholder(Standort) == ":standort"
  {
  }

  lemma BewaesserungClause()
    ensures SetClause(BewaesserungInTage) == "bewaesserung_in_tage = :bewaesserung_in_tage"
  {
  }

  lemma BewaesserungPlaceholder()
    ensures Placeholder(BewaesserungInTage) == ":bewaesserung_in_tage"
  {
  }

  lemma GegossenClause()
    ensures SetClause(Gegossen) == "gegossen = :gegossen"
  {
  }

  lemma GegossenPlaceholder()
    ensures Placeholder(Gegossen) == ":gegossen"
  {
  }
}
