# Plant-watering app: a verified model of its decision logic

The application keeps a table of house plants (`pflanzen`). Each plant has a
name, a purchase date (`kaufdatum`), a location (`standort`), a watering
interval in days (`bewaesserung_in_tage`) and the time it was last watered
(`gegossen`), and the table is edited through a small REST endpoint. Three
pieces of it carry the logic modelled here:

- **The store class `Pflanzen`** (backend/Pflanzen.php) is an object with
  mutable fields, setters, and CRUD methods over a PDO connection. Its
  `update` builds a partial `UPDATE` statement one column at a time:
  - one `col = :col` clause per field the request sets, in a fixed column
    order;
  - a parameter map that always binds `:id`;
  - special treatment of `gegossen`, whose explicit null or empty string
    clears the field;
  - early rejection of unparseable dates and of empty updates.
- **The endpoint** (backend/api.php) maps an HTTP verb, a decoded JSON body
  and a query string to one call on the store. It then wraps the outcome in
  a `{success, message, data}` envelope.
- **The browser form** (frontend/main.ts) reacts to a submit as follows:
  - it trims the text fields;
  - it turns the `datetime-local` value into `YYYY-MM-DD HH:MM:SS`;
  - it refuses incomplete input;
  - it chooses between add and update by the hidden id.

  The table renderer shows a notice for an empty list and `N/A` for a plant
  that was never watered.

The Dafny modules follow these files:

| module | file | content |
|---|---|---|
| `Wrappers` | wrappers.dfy | `Option`, `Result` |
| `Text` | text.dfy | decimal digits, zero padding, `implode` |
| `Php` | php.dfy | JSON scalars, `isset`, `(int)` and string conversion, the `Y-m-d` and `Y-m-d H:i:s` formats and a reference reader for them |
| `Sql` | sql.dfy | prepared statements, the database as an oracle, PDO's named-placeholder scanner |
| `PlantStore` | plant_store.dfy | the class `Pflanzen` and the specification functions `PlanUpdate` and `PlanCreate` its methods are proved against |
| `Api` | api.dfy | the verb switch `RouteRequest` and the handler method `Handle` |
| `Client` | client.dfy | `trim`, the first-`T` replacement, the submit decision, request bodies, table rendering |

The database is a function from the statements already sent on the
connection and the next statement to an execution outcome. That outcome
(`Execution`) is either a `PDOException` or carries the result flag, the
row count, the last insert id and the fetched rows. Each `Pflanzen` object
records the statements it sent in its `issued` field, so every CRUD method
states both its return value and the statement it sent.

The following library behaviour is left to oracle parameters:

- `new DateTime(s)` is `Runtime.parseDate`, where None means that the
  constructor throws;
- `(int)` applied to a string is `Runtime.leadingInt`;
- JavaScript `parseInt` is a `string -> Option<int>` parameter, where None
  stands for NaN.

Two behaviours of the code are easy to miss:

- `create` decides on `gegossen` by PHP truthiness. The string `"0"` is
  therefore stored as null just like the empty string, whereas `update`
  clears the field only for null or `''`.
- A DELETE takes its id with `(int)` from the query string even when that
  string is not a number (`(int)"abc"` is 0).

## Model

| member | source | states |
|---|---|---|
| PlantStore.Pflanzen.constructor | backend/Pflanzen.php:14-23 | every field takes the given argument, or its default of 0, `''` or null; the object has sent no statements yet |
| PlantStore.Pflanzen.GetKaufdatum | backend/Pflanzen.php:36-39 | null exactly when no purchase date is held; otherwise a 10-character `Y-m-d` text that reads back to the held date at midnight |
| PlantStore.Pflanzen.GetGegossen | backend/Pflanzen.php:51-54 | null exactly when no watering time is held; otherwise a `Y-m-d H:i:s` text that reads back to the held time |
| PlantStore.Pflanzen.SetId | backend/Pflanzen.php:57-60 | the id becomes the argument; no other field changes |
| PlantStore.Pflanzen.SetName | backend/Pflanzen.php:62-65 | the name becomes the argument; no other field changes |
| PlantStore.Pflanzen.SetKaufdatum | backend/Pflanzen.php:67-70 | the purchase date becomes the argument, null included; no other field changes |
| PlantStore.Pflanzen.SetStandort | backend/Pflanzen.php:72-75 | the location becomes the argument; no other field changes |
| PlantStore.Pflanzen.SetBewaesserungInTage | backend/Pflanzen.php:77-80 | the interval becomes the argument; no other field changes |
| PlantStore.Pflanzen.SetGegossen | backend/Pflanzen.php:82-85 | the watering time becomes the argument, null included; no other field changes |
| PlantStore.Pflanzen.Create | backend/Pflanzen.php:90-120 | sends the INSERT exactly when both dates parse; returns true iff the statement executed with a true result; on success the id becomes the last insert id, otherwise it is unchanged |
| PlantStore.PlanCreate | backend/Pflanzen.php:92-107 | succeeds iff the purchase date parses and a truthy watering time parses; a failure names the first date that did not parse; on success the SQL is the five-column INSERT and every placeholder in it is bound |
| PlantStore.InsertParams | backend/Pflanzen.php:101-107 | the INSERT binds exactly the five column placeholders |
| PlantStore.PlanCreateBindings | backend/Pflanzen.php:98-106 | name, location and interval are bound unchanged; the purchase date is bound as the `Y-m-d` form of the parsed date; the watering time is bound as null iff it is falsy, and otherwise as a `Y-m-d H:i:s` text that reads back to the parsed time |
| PlantStore.InsertSqlPlaceholders | backend/Pflanzen.php:92-93 | the INSERT text contains exactly the placeholders of the five columns |
| PlantStore.Pflanzen.Read | backend/Pflanzen.php:123-134 | sends `SELECT * FROM pflanzen ORDER BY id DESC` and returns the fetched rows, or `[]` when the statement throws |
| PlantStore.ReadWellBound | backend/Pflanzen.php:125 | the read statement has no placeholder and binds nothing |
| PlantStore.Pflanzen.Update | backend/Pflanzen.php:137-195 | sends a statement exactly when the update plan succeeds; returns true iff that statement executed, its result was true and it affected more than 0 rows |
| PlantStore.GatherAssignments | backend/Pflanzen.php:140-179 | the clauses and parameters it accumulates in place are the update plan's draft, or the rejection the plan reports |
| PlantStore.NameStep | backend/Pflanzen.php:143-146 | a set `name` appends `name = :name` and binds `:name` to the value as given; an unset `name` changes nothing |
| PlantStore.KaufdatumStep | backend/Pflanzen.php:147-156 | a set `kaufdatum` that does not parse rejects the whole update; one that parses appends its clause and binds its `Y-m-d` form |
| PlantStore.StandortStep | backend/Pflanzen.php:157-160 | a set `standort` appends its clause and binds the value as given |
| PlantStore.BewaesserungStep | backend/Pflanzen.php:161-164 | a set interval appends its clause and binds its `(int)` cast |
| PlantStore.GegossenStep | backend/Pflanzen.php:166-179 | a present `gegossen` that is null or `''` appends its clause bound to null; any other present value parses, giving a `Y-m-d H:i:s` binding, or rejects the update; an absent key changes nothing |
| PlantStore.RequestedColumns | backend/Pflanzen.php:143-179 | a column requests a clause iff its key is set, or for `gegossen` merely present; the requested columns come in the fixed order name, kaufdatum, standort, bewaesserung_in_tage, gegossen |
| PlantStore.AssembleShape | backend/Pflanzen.php:140-179 | a successful draft has one clause per requested column in column order, binds `:id` to the id, and binds exactly the requested placeholders, each to its converted value |
| PlantStore.AssembleFailure | backend/Pflanzen.php:147-177 | the draft fails iff some column fails to convert, and the reported error is that of the first such column |
| PlantStore.FailingColumns | backend/Pflanzen.php:149-177 | only the two date columns can fail, with their own error |
| PlantStore.PlanUpdateOutcome | backend/Pflanzen.php:143-183 | the plan succeeds iff some column is requested and neither date fails; a bad purchase date wins over a bad watering time, which wins over an empty update |
| PlantStore.PlanUpdateStatement | backend/Pflanzen.php:140-185 | the SQL is `UPDATE pflanzen SET` + the joined clauses + ` WHERE id = :id`; the parameters are `:id` plus exactly the requested placeholders; every placeholder in the SQL is bound |
| PlantStore.Bind | backend/Pflanzen.php:143-178 | only a date column can fail to bind, with its own error; an explicit null or `''` watering time binds null; a bound purchase date is a 10-character text |
| PlantStore.Assemble | backend/Pflanzen.php:140-179 | a successful draft keeps `:id` bound to the id and has at most one clause per column considered; a rejection is always a date error |
| PlantStore.PlanUpdate | backend/Pflanzen.php:137-185 | a planned statement always binds `:id` to the given id; "nothing to update" is reported only when no date failed |
| PlantStore.UpdateSqlPlaceholders | backend/Pflanzen.php:185 | the placeholders of the UPDATE text are `:id` and those of the clauses |
| PlantStore.PlanUpdateBindings | backend/Pflanzen.php:143-179 | each column's parameter holds the converted value: name and location unchanged, the interval cast to int, dates in their formats, an explicit null or `''` watering time as null |
| PlantStore.NameBinding | backend/Pflanzen.php:143-146 | a set name is bound unchanged |
| PlantStore.StandortBinding | backend/Pflanzen.php:157-160 | a set location is bound unchanged |
| PlantStore.BewaesserungBinding | backend/Pflanzen.php:161-164 | a set interval is bound as its `(int)` cast |
| PlantStore.KaufdatumBinding | backend/Pflanzen.php:147-156 | a set purchase date parsed and is bound in `Y-m-d` form |
| PlantStore.GegossenBinding | backend/Pflanzen.php:166-179 | a null or `''` watering time is bound as null; any other one parsed and is bound in `Y-m-d H:i:s` form |
| PlantStore.PlanUpdateIgnoresOtherKeys | backend/Pflanzen.php:143-179 | two bodies that agree on the five column keys plan the same update, whatever else they hold |
| PlantStore.PlanUpdateIgnoresId | backend/Pflanzen.php:143-179 | removing `id` from the body does not change the plan |
| PlantStore.UpdateSucceedsOnlyWithStatement | backend/Pflanzen.php:181-190 | an update with no requested column never succeeds; a successful update had both dates parse and affected more than 0 rows |
| PlantStore.Pflanzen.Delete | backend/Pflanzen.php:198-209 | sends `DELETE FROM pflanzen WHERE id = :id` with `:id` bound; returns true iff it executed and affected more than 0 rows |
| PlantStore.DeleteWellBound | backend/Pflanzen.php:200-203 | the DELETE's only placeholder `:id` is the only parameter bound |
| PlantStore.KeepOrdered | backend/Pflanzen.php:143-179 | keeping the requested columns preserves column order |
| Php.ToPhpString | backend/api.php:41-45 | a string argument passes unchanged and an integer becomes its decimal text |
| Php.IntCast | backend/api.php:44 | `(int)` keeps an integer and turns null into 0 |
| Php.FormatDate | backend/Pflanzen.php:103 | the `Y-m-d` text has 10 characters, dashes at positions 4 and 7 and digits elsewhere |
| Php.FormatDateTime | backend/Pflanzen.php:53 | the `Y-m-d H:i:s` text has 19 characters and starts with the `Y-m-d` text |
| Php.FormatDateTimeRoundTrip | backend/Pflanzen.php:173 | reading back a formatted time gives the same time |
| Php.ParseDateTimeCanonical | backend/Pflanzen.php:173 | every accepted `Y-m-d H:i:s` text is the format of what it reads, so the format is one to one |
| Text.NatToStringRoundTrip | backend/api.php:33 | the decimal text of a count consists of digits and reads back to the count |
| Api.RouteRequest | backend/api.php:28-92 | OPTIONS exits; GET reads; POST creates iff the four required fields are set, else "Fehlende erforderliche Felder"; PUT updates iff `id` is set, else "Fehlende Pflanzen-ID"; DELETE deletes iff the query has `id`, else "Fehlende Pflanzen-ID"; every other verb gets "Methode nicht unterstützt"; create receives the three strings as PHP converts them, the `(int)` interval and the watering time or null (`?? null`); update receives `(int)$input['id']` and the body without `id`; delete receives `(int)$_GET['id']` |
| Api.Handle | backend/api.php:10-92 | the handler's response and the statements its store sent are those of the routing decision and the store's outcome; OPTIONS gives no response and sends nothing |
| Api.Reply | backend/api.php:29-87 | data is non-null exactly for the read call, which always succeeds and carries the fetched rows |
| Api.Answer | backend/api.php:25-92 | there is no answer exactly for OPTIONS; a successful answer comes from a store call |
| Api.NeverInitialMessage | backend/api.php:25 | no answered request carries the initial message 'Ungültige Anfrage' |
| Api.SuccessComesFromStore | backend/api.php:29-87 | success requires a store call; data is non-null iff the verb is GET, which answers the fetched rows with `count + ' Pflanzen gefunden'`; a successful PUT had a successful update and sent a statement; a successful DELETE had a query id and a delete that affected rows |
| Api.SuccessIsStoreResult | backend/api.php:38-87 | for POST, PUT and DELETE that reach the store, `success` equals the result of create, update or delete called with the arguments the endpoint derives from the body or query |
| Api.MessageTellsOutcome | backend/api.php:38-87 | for POST, PUT and DELETE, success holds iff the message is one of the three success messages |
| Api.CountReadsBack | backend/api.php:33 | the GET message is the row count in decimal followed by ' Pflanzen gefunden', and the count reads back from it |
| Api.PutBodyIdIsNoField | backend/api.php:59-63 | the body passed to update has no `id`, plans the same update as the body with it, and `id` is never a SET column |
| Api.DeleteIgnoresBody | backend/api.php:74-87 | DELETE answers and sends the same whatever the body holds |
| Client.Trim | frontend/main.ts:241-243 | the result is the input minus a whitespace prefix and suffix, begins and ends with a non-whitespace character, and is empty iff the input is all whitespace |
| Client.TrimIdempotent | frontend/main.ts:241-243 | trimming twice equals trimming once |
| Client.ReplaceFirst | frontend/main.ts:246 | only the first occurrence of the character is replaced; every other position keeps its character |
| Client.GegossenPayload | frontend/main.ts:246 | null iff the input is empty; otherwise the input with its first `T` made a space, followed by `:00` |
| Client.PayloadOfLocalInput | frontend/main.ts:246 | a `datetime-local` value becomes the backend's `Y-m-d H:i:s` form of the same time, which reads back to it |
| Client.HiddenId | frontend/main.ts:240 | the hidden id is a nonzero number exactly when the field is nonempty and parses to a nonzero integer |
| Client.Submit | frontend/main.ts:237-268 | refused iff a trimmed required field is empty or the interval is NaN; otherwise the payload holds the trimmed fields, the parsed interval and the converted watering time; it is an update iff the hidden id is nonempty, parses and is nonzero, with that id |
| Client.AddBody | frontend/main.ts:253-259 | the add body holds exactly the five column keys |
| Client.UpdateBody | frontend/main.ts:194 | the PUT body holds the payload keys plus `id` |
| Client.PayloadKeys | frontend/main.ts:253-259 | the payload has no `id`, `created_at` or `updated_at`; the PUT body minus `id` is the add body and binds `id` to the edited id |
| Client.AddReachesCreate | backend/api.php:38-46 | an add body passes the POST check and reaches create with the payload's own values |
| Client.EditReachesUpdate | backend/api.php:58-63 | an edit body reaches update with the edited id and the payload, and requests all five columns; an empty watering time clears the field |
| Client.GegossenCell | frontend/main.ts:106 | a missing, null or empty watering time renders as `N/A`; a non-empty text renders as itself |
| Client.RowCells | frontend/main.ts:99-106 | a row has six data cells, the name second, the interval fifth and the watering time last by the `N/A` rule |
| Client.RenderPlantsTable | frontend/main.ts:87-107 | no rows and the "no plants" message exactly for an empty list; otherwise one row of cells per plant in list order and no message |

## Left out

- SQL semantics. The effect of a statement on the table, the row order of
  `ORDER BY id DESC`, `rowCount` and `lastInsertId` are outcomes of the
  database oracle. Each request meets the database as it then is, and the
  model does not relate successive requests.
- Date parsing. `new DateTime(...)` accepts open-ended, timezone-dependent
  input, so it is an oracle, and so is `(int)` on strings. The formats the
  backend writes are modelled exactly for years 0 to 9999.
- JSON decoding and the request body:
  - `json_decode`, `json_encode`, headers, `file_get_contents` and `echo`
    are not modelled;
  - a body that is not a JSON object is treated as the empty map;
  - floats, arrays and nested objects in a body are not modelled.
- PHP type errors, such as an array passed where a string is expected, are
  not modelled.
- The `catch (Exception $e)` at backend/api.php:93-99 is not modelled. The
  store methods catch their own exceptions, and type errors are out of
  scope.
- backend/api.php:2 requires only Singleton_database.php, so `new
  Pflanzen()` at line 18 would not find the class. The model dispatches to
  the class as intended.
- The test call at backend/Pflanzen.php:213-215 runs an update of plant 1 on
  every inclusion. It is a side effect, not behaviour of the class, and is
  not modelled.
- backend/Singleton_database.php is not part of this model (connection
  setup only).
- Outside the submit handler and the two table rules, frontend/main.ts is
  not modelled: fetch, async handling, timers, DOM updates, event wiring
  and `populateFormForEdit`.
- `getId`, `getName`, `getStandort` and `getBewaesserungInTage` return a
  field unchanged. The model reads the fields directly instead of defining
  these getters.
- `error_log` output is not modelled.
- Client.GegossenCell: the contract covers missing, null and string values.
  A numeric or boolean watering time follows JavaScript's `||` in the body
  but is not restated in the contract.
- Client.Submit: `parseInt` is an oracle, so leading-digit parsing and the
  radix are not modelled.
- Client.Trim: whitespace is ECMAScript's WhiteSpace and LineTerminator set
  as individual UTF-16 code units. Surrogate pairs are not considered.
