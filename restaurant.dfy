/**
 * The restaurant endpoints: the admin check guarding creation and updates,
 * the owner credential check, and the reads that strip the owner's password.
 * A restaurant is a row of named attributes (see Types.RestaurantRow).
 */
module Restaurants {
  import opened Wrappers
  import opened Types
  import opened Store
  import opened Text

  // ----- the admin check -----

  /** The two spellings of the header the admin check reads. */
  datatype Headers = Headers(authorization: Option<string>, lowerAuthorization: Option<string>)

  /** `headers.Authorization || headers.authorization`: an empty first spelling falls through too. */
  function AuthHeader(h: Headers): (r: Option<string>)
    ensures Present(h.authorization) ==> r == h.authorization
    ensures !Present(h.authorization) ==> r == h.lowerAuthorization
  {
    if Present(h.authorization) then h.authorization else h.lowerAuthorization
  }

  /** `s.replace(pat, '')` for a string pattern: only the first occurrence goes. */
  function RemoveFirst(s: string, pat: string): (r: string)
    requires pat != []
    ensures |r| == |s| || |r| == |s| - |pat|
    decreases |s|
  {
    if |s| < |pat| then s
    else if s[..|pat|] == pat then s[|pat|..]
    else [s[0]] + RemoveFirst(s[1..], pat)
  }

  /** A header of the form "Basic <token>" gives the token. */
  lemma RemoveFirstPrefix(pat: string, rest: string)
    requires pat != []
    ensures RemoveFirst(pat + rest, pat) == rest
  {
    assert (pat + rest)[..|pat|] == pat;
  }

  predicate OccursAt(s: string, pat: string, i: nat) {
    i + |pat| <= |s| && s[i..i + |pat|] == pat
  }

  /** A string with no occurrence of the pattern is left as it is. */
  lemma {:induction false} RemoveFirstAbsent(s: string, pat: string)
    requires pat != []
    requires forall i: nat :: !OccursAt(s, pat, i)
    ensures RemoveFirst(s, pat) == s
    decreases |s|
  {
    if |s| >= |pat| {
      assert !OccursAt(s, pat, 0);
      forall i: nat
        ensures !OccursAt(s[1..], pat, i)
      {
        if i + |pat| <= |s[1..]| {
          assert s[1..][i..i + |pat|] == s[i + 1..i + 1 + |pat|];
          assert !OccursAt(s, pat, i + 1);
        }
      }
      RemoveFirstAbsent(s[1..], pat);
    }
  }

  const AdminUser: string := "admin@bell.com"
  const AdminPassword: string := "admin123"

  /** `const [username, password] = credentials.split(':')` compared with the fixed pair. */
  predicate AdminPair(credentials: string) {
    var parts := Split(credentials, ':');
    parts[0] == AdminUser && |parts| >= 2 && parts[1] == AdminPassword
  }

  /**
   * isValidAdmin. `base64Decode` stands for `Buffer.from(_, 'base64').toString()`.
   */
  function IsValidAdmin(h: Headers, base64Decode: string -> string): (ok: bool)
    ensures !Present(h.authorization) && !Present(h.lowerAuthorization) ==> !ok
    ensures ok <==> Present(AuthHeader(h)) && AdminPair(base64Decode(RemoveFirst(AuthHeader(h).value, "Basic ")))
  {
    var header := AuthHeader(h);
    Present(header) && AdminPair(base64Decode(RemoveFirst(header.value, "Basic ")))
  }

  /**
   * The decoded credentials pass exactly when they are "admin@bell.com:admin123",
   * possibly followed by more ':'-separated fields, which the destructuring ignores.
   */
  lemma AdminPairMeaning(c: string)
    ensures AdminPair(c) <==> c == AdminUser + ":" + AdminPassword || AdminUser + ":" + AdminPassword + ":" <= c
  {
    if AdminPair(c) {
      AdminPairShape(c);
    }
    if c == AdminUser + ":" + AdminPassword || AdminUser + ":" + AdminPassword + ":" <= c {
      AdminTextPairs(c);
    }
  }

  lemma AdminPairShape(c: string)
    requires AdminPair(c)
    ensures c == AdminUser + ":" + AdminPassword || AdminUser + ":" + AdminPassword + ":" <= c
  {
    var parts := Split(c, ':');
    SplitShape(c, ':');
    var b :| c == parts[0] + [':'] + b && Split(b, ':') == parts[1..];
    if |Split(b, ':')| == 1 {
      SplitJoin(b, ':');
      assert b == AdminPassword;
    } else {
      SplitShape(b, ':');
      var b2 :| b == AdminPassword + [':'] + b2 && Split(b2, ':') == Split(b, ':')[1..];
      assert c == AdminUser + ":" + AdminPassword + ":" + b2;
    }
  }

  lemma AdminTextPairs(c: string)
    requires c == AdminUser + ":" + AdminPassword || AdminUser + ":" + AdminPassword + ":" <= c
    ensures AdminPair(c)
  {
    assert ':' !in AdminUser && ':' !in AdminPassword;
    if c == AdminUser + ":" + AdminPassword {
      SplitAtFirst(AdminUser, ':', AdminPassword);
      SplitNoSep(AdminPassword, ':');
    } else {
      var rest := c[24..];
      assert c == AdminUser + [':'] + (AdminPassword + [':'] + rest);
      SplitAtFirst(AdminUser, ':', AdminPassword + [':'] + rest);
      SplitAtFirst(AdminPassword, ':', rest);
    }
  }

  // ----- views without the password -----

  /** An attribute of an item, or none when the item lacks it (`item.name` is undefined). */
  function Lookup(attrs: map<string, JsValue>, name: string): (r: Option<JsValue>)
    ensures r.Some? <==> name in attrs
    ensures r.Some? ==> r.value == attrs[name]
  {
    if name in attrs then Some(attrs[name]) else None
  }

  /** What a handler answers about one restaurant: its attributes and categories. */
  datatype RestaurantView = RestaurantView(attrs: map<string, JsValue>, categories: Option<seq<Category>>)

  datatype RestaurantPayload = Restaurant(view: RestaurantView) | Message(text: string)
                             | Verified(message: string, restaurant: RestaurantView)

  /** `const { ownerPassword, ...rest } = item`. */
  function WithoutPassword(row: RestaurantRow): (v: RestaurantView)
    ensures "ownerPassword" !in v.attrs
    ensures v.attrs.Keys == row.attrs.Keys - {"ownerPassword"}
    ensures forall k :: k in v.attrs ==> v.attrs[k] == row.attrs[k]
    ensures v.categories == row.categories
  {
    RestaurantView(row.attrs - {"ownerPassword"}, row.categories)
  }

  const Unauthorized: Problem := Problem(401, "Unauthorized")
  const ServerError: Problem := Problem(500, "Internal server error")
  const RestaurantIdRequired: Problem := Problem(400, "Restaurant ID is required")
  const BodyRequired: Problem := Problem(400, "Request body is required")
  const NotFound: Problem := Problem(404, "Restaurant not found")

  /** getRestaurant. */
  function GetRestaurant(table: RestaurantTable, restaurantId: Option<string>): (r: Reply<RestaurantPayload>)
    reads table
    ensures !Present(restaurantId) ==> r == Failure(RestaurantIdRequired)
    ensures Present(restaurantId) && restaurantId.value !in table.rows ==> r == Failure(NotFound)
    ensures r.Answer? ==> r.status == 200 && r.value.Restaurant? && "ownerPassword" !in r.value.view.attrs
    ensures r.Answer? <==> Present(restaurantId) && restaurantId.value in table.rows
    ensures r.Answer? ==> r.value == Restaurant(WithoutPassword(table.rows[restaurantId.value]))
  {
    if !Present(restaurantId) then Failure(RestaurantIdRequired)
    else match table.Get(restaurantId.value)
      case None => Failure(NotFound)
      case Some(row) => Answer(200, Restaurant(WithoutPassword(row)))
  }

  // ----- creation -----

  /** The fields createRestaurant reads from its body. */
  datatype CreateBody = CreateBody(restaurantId: Option<string>, restaurantName: Option<string>,
                                   ownerEmail: Option<string>, ownerPassword: Option<string>)

  const UpperHexDigits: string := "0123456789ABCDEF"

  /** generateActivationCode: four random bytes in upper-case hexadecimal. */
  function ActivationCode(random: seq<byte>): (code: string)
    requires |random| == 4
    ensures |code| == 8
    ensures forall i :: 0 <= i < 8 ==> code[i] in UpperHexDigits
  {
    var lower := BytesHex(random);
    assert forall i :: 0 <= i < |lower| ==> lower[i] in HexDigits;
    Upper(lower)
  }

  /** The row createRestaurant stores. */
  function NewRestaurant(id: string, name: string, email: string, password: string, code: string, now: string): RestaurantRow {
    RestaurantRow(map["restaurantId" := JsString(id), "restaurantName" := JsString(name),
                      "ownerEmail" := JsString(email), "ownerPassword" := JsString(password),
                      "activationCode" := JsString(code), "status" := JsString("active"),
                      "createdAt" := JsString(now), "updatedAt" := JsString(now)], None)
  }

  predicate AllPresent(b: CreateBody) {
    Present(b.restaurantId) && Present(b.restaurantName) && Present(b.ownerEmail) && Present(b.ownerPassword)
  }

  /** createRestaurant: admin only, every field given, and the id not yet taken. */
  method CreateRestaurant(table: RestaurantTable, h: Headers, base64Decode: string -> string, body: Body<CreateBody>,
                          random: seq<byte>, now: string) returns (reply: Reply<RestaurantPayload>)
    requires |random| == 4
    modifies table
    ensures !IsValidAdmin(h, base64Decode) ==> reply == Failure(Unauthorized)
    ensures IsValidAdmin(h, base64Decode) && body.NoBody? ==> reply == Failure(BodyRequired)
    ensures IsValidAdmin(h, base64Decode) && body.InvalidJson? ==> reply == Failure(ServerError)
    ensures IsValidAdmin(h, base64Decode) && body.Json? && !AllPresent(body.value) ==>
      reply == Failure(Problem(400, "All fields are required"))
    ensures IsValidAdmin(h, base64Decode) && body.Json? && AllPresent(body.value)
            && body.value.restaurantId.value in old(table.rows) ==>
      reply == Failure(Problem(409, "Restaurant ID already exists"))
    ensures reply.Failure? ==> table.rows == old(table.rows)
    ensures reply.Answer? <==> IsValidAdmin(h, base64Decode) && body.Json? && AllPresent(body.value)
                               && body.value.restaurantId.value !in old(table.rows)
    ensures reply.Answer? ==>
      var b := body.value;
      var row := NewRestaurant(b.restaurantId.value, b.restaurantName.value, b.ownerEmail.value,
                               b.ownerPassword.value, ActivationCode(random), now);
      table.rows == old(table.rows)[b.restaurantId.value := row]
      && reply == Answer(201, Restaurant(WithoutPassword(row)))
  {
    if !IsValidAdmin(h, base64Decode) {
      return Failure(Unauthorized);
    }
    match body
    case NoBody => return Failure(BodyRequired);
    case InvalidJson => return Failure(ServerError);
    case Json(b) =>
      if !AllPresent(b) {
        return Failure(Problem(400, "All fields are required"));
      }
      var existing := table.Get(b.restaurantId.value);
      if existing.Some? {
        return Failure(Problem(409, "Restaurant ID already exists"));
      }
      var row := NewRestaurant(b.restaurantId.value, b.restaurantName.value, b.ownerEmail.value,
                               b.ownerPassword.value, ActivationCode(random), now);
      table.Put(b.restaurantId.value, row);
      reply := Answer(201, Restaurant(WithoutPassword(row)));
  }

  /** A created restaurant is active, has an 8-character upper-case hex code, and its answer hides the password. */
  lemma CreatedRestaurant(id: string, name: string, email: string, password: string, random: seq<byte>, now: string)
    requires |random| == 4
    ensures var row := NewRestaurant(id, name, email, password, ActivationCode(random), now);
      row.attrs["status"] == JsString("active")
      && row.attrs["ownerPassword"] == JsString(password)
      && row.attrs["activationCode"].JsString?
      && |row.attrs["activationCode"].s| == 8
      && (forall i :: 0 <= i < 8 ==> row.attrs["activationCode"].s[i] in UpperHexDigits)
      && "ownerPassword" !in WithoutPassword(row).attrs
      && WithoutPassword(row).attrs["ownerEmail"] == JsString(email)
  {
  }

  // ----- updates -----

  /** An entry of the update body, in `Object.entries` order. */
  type Entry = (string, JsValue)

  /** The builder skips the key attribute and undefined values. */
  predicate Kept(e: Entry) {
    e.0 != "restaurantId" && !e.1.JsUndefined?
  }

  function AttrName(i: nat): string {
    "#attr" + NatToString(i)
  }

  function ValueName(i: nat): string {
    ":val" + NatToString(i)
  }

  function Clause(i: nat): string {
    AttrName(i) + " = " + ValueName(i)
  }

  const UpdatedAtClause: string := "#updatedAt = :updatedAt"

  /** The clauses for the first n entries. */
  function Clauses(entries: seq<Entry>, n: nat): seq<string>
    requires n <= |entries|
  {
    if n == 0 then []
    else Clauses(entries, n - 1) + (if Kept(entries[n - 1]) then [Clause(n - 1)] else [])
  }

  /** The attribute-name placeholders for the first n entries. */
  function Names(entries: seq<Entry>, n: nat): map<string, string>
    requires n <= |entries|
  {
    if n == 0 then map[]
    else if Kept(entries[n - 1]) then Names(entries, n - 1)[AttrName(n - 1) := entries[n - 1].0]
    else Names(entries, n - 1)
  }

  /** The value placeholders for the first n entries. */
  function Values(entries: seq<Entry>, n: nat): map<string, JsValue>
    requires n <= |entries|
  {
    if n == 0 then map[]
    else if Kept(entries[n - 1]) then Values(entries, n - 1)[ValueName(n - 1) := entries[n - 1].1]
    else Values(entries, n - 1)
  }

  /** The update builder's loop: one clause and two placeholders per kept entry, then updatedAt. */
  method BuildUpdate(entries: seq<Entry>, now: string)
    returns (expression: seq<string>, names: map<string, string>, values: map<string, JsValue>)
    ensures expression == Clauses(entries, |entries|) + [UpdatedAtClause]
    ensures names == Names(entries, |entries|)["#updatedAt" := "updatedAt"]
    ensures values == Values(entries, |entries|)[":updatedAt" := JsString(now)]
  {
    expression, names, values := [], map[], map[];
    var index := 0;
    while index < |entries|
      invariant 0 <= index <= |entries|
      invariant expression == Clauses(entries, index)
      invariant names == Names(entries, index)
      invariant values == Values(entries, index)
    {
      var (key, value) := entries[index];
      if key != "restaurantId" && !value.JsUndefined? {
        var attrName := AttrName(index);
        var attrValue := ValueName(index);
        expression := expression + [attrName + " = " + attrValue];
        names := names[attrName := key];
        values := values[attrValue := value];
      }
      index := index + 1;
    }
    expression := expression + [UpdatedAtClause];
    names := names["#updatedAt" := "updatedAt"];
    values := values[":updatedAt" := JsString(now)];
  }

  /** Different positions get different placeholders. */
  lemma AttrNameInjective(i: nat, j: nat)
    requires AttrName(i) == AttrName(j) || ValueName(i) == ValueName(j)
    ensures i == j
  {
    assert NatToString(i) == AttrName(i)[5..] && NatToString(j) == AttrName(j)[5..];
    assert NatToString(i) == ValueName(i)[4..] && NatToString(j) == ValueName(j)[4..];
    IntToStringInjective(i, j);
  }

  /**
   * Entry i (of the first n) is kept exactly when its placeholders are
   * defined, and then they name its key and its value.
   */
  lemma {:induction false} PlaceholdersMeaning(entries: seq<Entry>, n: nat, i: nat)
    requires i < n <= |entries|
    ensures AttrName(i) in Names(entries, n) <==> Kept(entries[i])
    ensures ValueName(i) in Values(entries, n) <==> Kept(entries[i])
    ensures Kept(entries[i]) ==> Names(entries, n)[AttrName(i)] == entries[i].0
                                 && Values(entries, n)[ValueName(i)] == entries[i].1
    decreases n
  {
    if i < n - 1 {
      PlaceholdersMeaning(entries, n - 1, i);
      if AttrName(n - 1) == AttrName(i) || ValueName(n - 1) == ValueName(i) {
        AttrNameInjective(n - 1, i);
      }
    } else {
      PlaceholdersAbove(entries, n - 1, i);
    }
  }

  /** The first n entries define no placeholder of a later position. */
  lemma {:induction false} PlaceholdersAbove(entries: seq<Entry>, n: nat, i: nat)
    requires n <= i && n <= |entries|
    ensures AttrName(i) !in Names(entries, n) && ValueName(i) !in Values(entries, n)
    decreases n
  {
    if n > 0 {
      PlaceholdersAbove(entries, n - 1, i);
      if AttrName(n - 1) == AttrName(i) || ValueName(n - 1) == ValueName(i) {
        AttrNameInjective(n - 1, i);
      }
    }
  }

  /** Entry i has a clause exactly when it is kept. */
  lemma {:induction false} ClausesMeaning(entries: seq<Entry>, n: nat, i: nat)
    requires i < n <= |entries|
    ensures Clause(i) in Clauses(entries, n) <==> Kept(entries[i])
    decreases n
  {
    if i < n - 1 {
      ClausesMeaning(entries, n - 1, i);
      if Kept(entries[n - 1]) && Clause(n - 1) == Clause(i) {
        assert AttrName(n - 1) == Clause(n - 1)[..|AttrName(n - 1)|];
        ClauseNamesPosition(n - 1, i);
      }
    } else {
      ClausesBelow(entries, n - 1, i);
    }
  }

  lemma ClauseNamesPosition(i: nat, j: nat)
    requires Clause(i) == Clause(j)
    ensures i == j
  {
    var a, b := NatToString(i), NatToString(j);
    assert |Clause(i)| == 12 + 2 * |a| && |Clause(j)| == 12 + 2 * |b|;
    assert a == Clause(i)[5..5 + |a|];
    assert b == Clause(j)[5..5 + |b|];
    IntToStringInjective(i, j);
  }

  lemma {:induction false} ClausesBelow(entries: seq<Entry>, n: nat, i: nat)
    requires n <= i && n <= |entries|
    ensures Clause(i) !in Clauses(entries, n)
    decreases n
  {
    if n > 0 {
      ClausesBelow(entries, n - 1, i);
      if Clause(n - 1) == Clause(i) {
        ClauseNamesPosition(n - 1, i);
      }
    }
  }

  /** updatedAt's clause is never one of the entries' clauses: it comes once, and last. */
  lemma UpdatedAtLast(entries: seq<Entry>)
    ensures UpdatedAtClause !in Clauses(entries, |entries|)
  {
    UpdatedAtNotAClause(entries, |entries|);
  }

  lemma {:induction false} UpdatedAtNotAClause(entries: seq<Entry>, n: nat)
    requires n <= |entries|
    ensures UpdatedAtClause !in Clauses(entries, n)
    decreases n
  {
    if n > 0 {
      UpdatedAtNotAClause(entries, n - 1);
      assert Clause(n - 1)[1] == 'a';
    }
  }

  /** The attribute values after the SET of the first n entries. */
  function Assigned(attrs: map<string, JsValue>, entries: seq<Entry>, n: nat): map<string, JsValue>
    requires n <= |entries|
  {
    if n == 0 then attrs
    else if Kept(entries[n - 1]) then Assigned(attrs, entries, n - 1)[entries[n - 1].0 := entries[n - 1].1]
    else Assigned(attrs, entries, n - 1)
  }

  /** The whole SET: every kept entry, then updatedAt. */
  function UpdatedAttrs(attrs: map<string, JsValue>, entries: seq<Entry>, now: string): map<string, JsValue> {
    Assigned(attrs, entries, |entries|)["updatedAt" := JsString(now)]
  }

  predicate DistinctKeys(entries: seq<Entry>) {
    forall i, j :: 0 <= i < j < |entries| ==> entries[i].0 != entries[j].0
  }

  /**
   * With the distinct keys of an object, each kept entry's value is stored
   * under its key, the key attribute is never written, and every other
   * attribute keeps its value.
   */
  lemma {:induction false} AssignedMeaning(attrs: map<string, JsValue>, entries: seq<Entry>, n: nat, k: string)
    requires n <= |entries| && DistinctKeys(entries)
    ensures (exists i :: 0 <= i < n && entries[i].0 == k && Kept(entries[i])) ==>
      forall i :: 0 <= i < n && entries[i].0 == k ==> k in Assigned(attrs, entries, n) && Assigned(attrs, entries, n)[k] == entries[i].1
    ensures (forall i :: 0 <= i < n && entries[i].0 == k ==> !Kept(entries[i])) ==>
      (k in Assigned(attrs, entries, n) <==> k in attrs) && (k in attrs ==> Assigned(attrs, entries, n)[k] == attrs[k])
    decreases n
  {
    if n > 0 {
      AssignedMeaning(attrs, entries, n - 1, k);
    }
  }

  /** The key attribute is never among the written ones. */
  lemma KeyUntouched(attrs: map<string, JsValue>, entries: seq<Entry>, now: string)
    requires DistinctKeys(entries)
    ensures ("restaurantId" in UpdatedAttrs(attrs, entries, now) <==> "restaurantId" in attrs)
    ensures "restaurantId" in attrs ==> UpdatedAttrs(attrs, entries, now)["restaurantId"] == attrs["restaurantId"]
  {
    AssignedMeaning(attrs, entries, |entries|, "restaurantId");
  }

  /** A kept entry named updatedAt makes two paths of the SET overlap, which the store refuses. */
  predicate Overlaps(entries: seq<Entry>) {
    exists i :: 0 <= i < |entries| && Kept(entries[i]) && entries[i].0 == "updatedAt"
  }

  lemma {:induction false} NamesValues(entries: seq<Entry>, n: nat)
    requires n <= |entries|
    ensures "updatedAt" in Names(entries, n).Values <==>
      exists i :: 0 <= i < n && Kept(entries[i]) && entries[i].0 == "updatedAt"
    decreases n
  {
    if n > 0 {
      NamesValues(entries, n - 1);
      var m := Names(entries, n - 1);
      if Kept(entries[n - 1]) {
        var a := AttrName(n - 1);
        PlaceholdersAbove(entries, n - 1, n - 1);
        MapUpdateValues(m, a, entries[n - 1].0);
      }
    }
  }

  lemma MapUpdateValues(m: map<string, string>, k: string, v: string)
    requires k !in m
    ensures m[k := v].Values == m.Values + {v}
  {
    forall x | x in m.Values + {v}
      ensures x in m[k := v].Values
    {
      if x != v {
        var y :| y in m && m[y] == x;
        assert m[k := v][y] == x;
      } else {
        assert m[k := v][k] == v;
      }
    }
  }

  /** updateRestaurant: an update that creates the row when it is missing. */
  method UpdateRestaurant(table: RestaurantTable, h: Headers, base64Decode: string -> string, restaurantId: Option<string>,
                          body: Body<seq<Entry>>, now: string) returns (reply: Reply<RestaurantPayload>)
    modifies table
    ensures !IsValidAdmin(h, base64Decode) ==> reply == Failure(Unauthorized)
    ensures IsValidAdmin(h, base64Decode) && !Present(restaurantId) ==> reply == Failure(RestaurantIdRequired)
    ensures IsValidAdmin(h, base64Decode) && Present(restaurantId) && body.NoBody? ==> reply == Failure(BodyRequired)
    ensures IsValidAdmin(h, base64Decode) && Present(restaurantId) && (body.InvalidJson? || (body.Json? && Overlaps(body.value))) ==>
      reply == Failure(ServerError)
    ensures reply.Failure? ==> table.rows == old(table.rows)
    ensures reply.Answer? <==> IsValidAdmin(h, base64Decode) && Present(restaurantId) && body.Json? && !Overlaps(body.value)
    ensures reply.Answer? ==>
      var id := restaurantId.value;
      var row := if id in old(table.rows) then old(table.rows)[id] else KeyRow(id);
      reply == Answer(200, Message("Restaurant updated successfully"))
      && table.rows == old(table.rows)[id := row.(attrs := UpdatedAttrs(row.attrs, body.value, now))]
  {
    if !IsValidAdmin(h, base64Decode) {
      return Failure(Unauthorized);
    }
    if !Present(restaurantId) {
      return Failure(RestaurantIdRequired);
    }
    match body
    case NoBody => return Failure(BodyRequired);
    case InvalidJson => return Failure(ServerError);
    case Json(entries) =>
      var expression, names, values := BuildUpdate(entries, now);
      NamesValues(entries, |entries|);
      if "updatedAt" in Names(entries, |entries|).Values {
        return Failure(ServerError);
      }
      table.Upsert(restaurantId.value, (row: RestaurantRow) => row.(attrs := UpdatedAttrs(row.attrs, entries, now)));
      reply := Answer(200, Message("Restaurant updated successfully"));
  }

  // ----- owner credentials -----

  /** The fields verifyOwnerCredentials reads from its body. */
  datatype CredentialsBody = CredentialsBody(restaurantId: Option<string>, email: Option<string>, password: Option<string>)

  /** verifyOwnerCredentials: each check in turn, the first failing one answering. */
  function VerifyOwnerCredentials(table: RestaurantTable, body: Body<CredentialsBody>): (r: Reply<RestaurantPayload>)
    reads table
    ensures body.NoBody? ==> r == Failure(BodyRequired)
    ensures body.InvalidJson? ==> r == Failure(ServerError)
    ensures r.Answer? ==> r.status == 200 && r.value.Verified? && "ownerPassword" !in r.value.restaurant.attrs
    ensures r.Answer? ==>
      body.Json? && Present(body.value.restaurantId) && body.value.restaurantId.value in table.rows
      && r.value == Verified("Credentials verified", WithoutPassword(table.rows[body.value.restaurantId.value]))
  {
    match body
    case NoBody => Failure(BodyRequired)
    case InvalidJson => Failure(ServerError)
    case Json(b) =>
      if !Present(b.restaurantId) || !Present(b.email) || !Present(b.password) then
        Failure(Problem(400, "Restaurant ID, email, and password are required"))
      else match table.Get(b.restaurantId.value)
        case None => Failure(NotFound)
        case Some(row) =>
          if Lookup(row.attrs, "ownerEmail") != Some(JsString(b.email.value))
             || Lookup(row.attrs, "ownerPassword") != Some(JsString(b.password.value)) then
            Failure(Problem(401, "Invalid credentials"))
          else if Lookup(row.attrs, "status") != Some(JsString("active")) then Failure(Problem(403, "Restaurant is not active"))
          else Answer(200, Verified("Credentials verified", WithoutPassword(row)))
  }

  /** The order of the checks: missing fields, unknown restaurant, wrong credentials, inactive, accepted. */
  lemma CredentialsOrder(table: RestaurantTable, b: CredentialsBody)
    ensures var r := VerifyOwnerCredentials(table, Json(b));
      var known := Present(b.restaurantId) && b.restaurantId.value in table.rows;
      var row := if known then table.rows[b.restaurantId.value] else KeyRow("");
      var matches := known && Present(b.email) && Present(b.password) && Lookup(row.attrs, "ownerEmail") == Some(JsString(b.email.value))
                           && Lookup(row.attrs, "ownerPassword") == Some(JsString(b.password.value));
      (!Present(b.restaurantId) || !Present(b.email) || !Present(b.password) ==> r.Status() == 400)
      && (Present(b.restaurantId) && Present(b.email) && Present(b.password) ==>
            (!known ==> r == Failure(NotFound))
            && (known && !matches ==> r == Failure(Problem(401, "Invalid credentials")))
            && (matches && Lookup(row.attrs, "status") != Some(JsString("active")) ==> r.Status() == 403)
            && (r.Answer? <==> matches && Lookup(row.attrs, "status") == Some(JsString("active"))))
  {
  }
}
