/** The three document schemas (users, uploaded files, history entries), the
    decoded spreadsheet rows a file record carries, and the identity token
    payload. */
module Models {
  import opened Common

  /** A spreadsheet cell as the spreadsheet codec hands it over. */
  datatype Cell = Null | Text(s: string) | Number(n: int) | Boolean(b: bool)

  /** One decoded row: column name to cell, in the order `Object.keys`
      enumerates them. A JavaScript object has each key once (the codec
      renames repeated headers), which `DistinctKeys` states; the
      operations here do not need it. */
  datatype Row = Row(fields: seq<(string, Cell)>)

  /** No column name occurs twice in the row. */
  predicate DistinctKeys(row: Row) {
    forall i, j :: 0 <= i < j < |row.fields| ==> row.fields[i].0 != row.fields[j].0
  }

  /** The column names of a row (`Object.keys(row)`). */
  function Keys(row: Row): (ks: seq<string>)
    ensures |ks| == |row.fields|
    ensures forall i :: 0 <= i < |ks| ==> ks[i] == row.fields[i].0
  {
    seq(|row.fields|, i requires 0 <= i < |row.fields| => row.fields[i].0)
  }

  /** `row[key]`: the cell stored under `key`, or None when the row has no
      such column (JavaScript `undefined`). */
  function Lookup(row: Row, key: string): (c: Option<Cell>)
    ensures c.None? <==> key !in Keys(row)
    ensures c.Some? ==> (key, c.value) in row.fields
    decreases |row.fields|
  {
    if row.fields == [] then None
    else if row.fields[0].0 == key then Some(row.fields[0].1)
    else
      var rest := Lookup(Row(row.fields[1..]), key);
      assert Keys(row) == [row.fields[0].0] + Keys(Row(row.fields[1..]));
      rest
  }

  /** In a row whose keys are distinct, looking up the i-th key finds the
      i-th cell. */
  lemma {:induction false} LookupAt(row: Row, i: nat)
    requires DistinctKeys(row) && i < |row.fields|
    ensures Lookup(row, row.fields[i].0) == Some(row.fields[i].1)
    decreases i
  {
    if i > 0 {
      var tail := Row(row.fields[1..]);
      assert tail.fields[i - 1] == row.fields[i];
      LookupAt(tail, i - 1);
    }
  }

  /** Free-form JSON payloads: request bodies and history details. */
  datatype Json =
    | JNull
    | JBool(b: bool)
    | JNumber(n: int)
    | JString(s: string)
    | JArray(items: seq<Json>)
    | JObject(members: seq<(string, Json)>)

  /** Mongoose's `minimize` on the members of object `j` from index `i`
      on: a member whose value is an object is minimized in turn and
      dropped when nothing is left of it; every other member is kept as it
      is, in order. Arrays are not entered. */
  function MinimizedFrom(j: Json, i: nat): (r: seq<(string, Json)>)
    requires j.JObject? && i <= |j.members|
    ensures |r| <= |j.members| - i
    ensures forall k :: i <= k < |j.members| && !j.members[k].1.JObject? ==> j.members[k] in r
    decreases j, |j.members| - i
  {
    if i == |j.members| then []
    else
      var rest := MinimizedFrom(j, i + 1);
      var v := j.members[i].1;
      assert j.members[i] in j.members;
      if v.JObject? then
        var m := MinimizedFrom(v, 0);
        if m == [] then rest else [(j.members[i].0, JObject(m))] + rest
      else [j.members[i]] + rest
  }

  /** No object inside `j`, at any depth through objects, is empty. */
  predicate Minimal(j: Json)
    decreases j
  {
    j.JObject? ==>
      forall m :: m in j.members ==> m.1.JObject? ==> m.1.members != [] && Minimal(m.1)
  }

  /** Minimizing leaves no empty object behind. */
  lemma {:induction false} MinimizedIsMinimal(j: Json, i: nat)
    requires j.JObject? && i <= |j.members|
    ensures Minimal(JObject(MinimizedFrom(j, i)))
    decreases j, |j.members| - i
  {
    if i < |j.members| {
      MinimizedIsMinimal(j, i + 1);
      var v := j.members[i].1;
      assert j.members[i] in j.members;
      if v.JObject? {
        MinimizedIsMinimal(v, 0);
      }
    }
  }

  /** An object with no empty object inside is stored as it is: minimizing
      is idempotent. */
  lemma {:induction false} MinimizedKeepsMinimal(j: Json, i: nat)
    requires j.JObject? && i <= |j.members| && Minimal(j)
    ensures MinimizedFrom(j, i) == j.members[i..]
    decreases j, |j.members| - i
  {
    if i < |j.members| {
      MinimizedKeepsMinimal(j, i + 1);
      var v := j.members[i].1;
      assert j.members[i] in j.members;
      if v.JObject? {
        MinimizedKeepsMinimal(v, 0);
        assert JObject(v.members[0..]) == v;
      }
      assert j.members[i..] == [j.members[i]] + j.members[i + 1..];
    }
  }

  /** What a history document keeps of its `details` on save: an object is
      minimized and, when nothing is left of it, the path is not stored at
      all; any other value is stored as given. */
  function StoredDetails(d: Option<Json>): (r: Option<Json>)
    ensures d.None? ==> r.None?
    ensures d.Some? && !d.value.JObject? ==> r == d
    ensures d == Some(JObject([])) ==> r.None?
    ensures r.Some? && r.value.JObject? ==> r.value.members != [] && Minimal(r.value)
    ensures d.Some? && d.value.JObject? && d.value.members != [] && Minimal(d.value) ==> r == d
  {
    match d
    case Some(JObject(ms)) =>
      MinimizedIsMinimal(d.value, 0);
      assert Minimal(d.value) ==> MinimizedFrom(d.value, 0) == ms by {
        if Minimal(d.value) {
          MinimizedKeepsMinimal(d.value, 0);
          assert ms[0..] == ms;
        }
      }
      var m := MinimizedFrom(d.value, 0);
      if m == [] then None else Some(JObject(m))
    case _ => d
  }

  /** A user document (models/User.js). `createdAt`/`updatedAt` are the
      schema's automatic timestamps. */
  datatype User = User(id: Id, name: string, email: string, password: string,
                       isAdmin: bool, createdAt: int, updatedAt: int)

  /** An uploaded-file document (models/File.js). */
  datatype FileDoc = FileDoc(id: Id, filename: string, filepath: string,
                             fileMimeType: string, data: seq<Row>, uploadedBy: Id,
                             uploadDate: int, createdAt: int, updatedAt: int)

  /** A history document (models/History.js); `userId` is an optional
      reference and `details` free-form. */
  datatype HistoryEntry = HistoryEntry(userId: Option<Id>, action: string,
                                       timestamp: int, details: Option<Json>)

  /** The required string fields of UserSchema are present (a required
      string rejects ""). */
  predicate UserSchemaOk(u: User) {
    u.name != "" && u.email != "" && u.password != ""
  }

  /** `new User({name, email, password, isAdmin})` saved at time `now`:
      `isAdmin` takes the schema default when the caller leaves it out, and
      both timestamps are the creation time. */
  function NewUser(id: Id, name: string, email: string, password: string,
                   isAdmin: Option<bool>, now: int): (u: User)
    ensures u.id == id && u.name == name && u.email == email && u.password == password
    ensures isAdmin.None? ==> !u.isAdmin
    ensures isAdmin.Some? ==> u.isAdmin == isAdmin.value
    ensures u.createdAt == now && u.updatedAt == now
  {
    User(id, name, email, password,
         match isAdmin case Some(b) => b case None => false,
         now, now)
  }

  /** A value handed to a history write as the user reference: nothing
      (undefined or null), a document id, or some other string such as
      "anonymous". */
  datatype UserRef = Absent | Ref(id: Id) | Label(text: string)

  /** The ObjectId cast HistorySchema applies to `userId`: a document id or
      nothing is accepted; any other string is a cast error. */
  function CastUserId(v: UserRef): (r: Result<Option<Id>>)
    ensures r.Err? <==> v.Label?
    ensures v.Ref? ==> r == Ok(Some(v.id))
    ensures v.Absent? ==> r == Ok(None)
  {
    match v
    case Absent => Ok(None)
    case Ref(id) => Ok(Some(id))
    case Label(s) => Err("Cast to ObjectId failed for value \"" + s + "\" at path \"userId\"")
  }

  /** The claims signed into a login token. */
  datatype TokenPayload = TokenPayload(id: Id, isAdmin: bool, username: string)

  /** A verified token: the signed claims plus issue and expiry times
      (seconds since the epoch). */
  datatype Claims = Claims(id: Id, isAdmin: bool, username: string, iat: int, exp: int)
}
