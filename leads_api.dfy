/**
 * The saved-leads endpoint (app/api/leads/route.ts): who may call it, the POST
 * limits and row sanitiser, and the PATCH update builder.
 *
 * The signed-in user (Clerk's `auth()`) is the `userId` parameter; the request
 * body is the parsed JSON value; database calls are abstract: a POST reports
 * whether the user's rows were deleted and which rows it inserted, a PATCH the
 * update record it sends, and whether the database call failed is a parameter.
 * A TypeError thrown while reading the body (a property of null) reaches the
 * framework, which answers 500.
 */
module LeadsApi {
  import opened Js

  const MaxLeads: int := 5000
  const MaxPayloadBytes: int := 2 * 1024 * 1024

  /** `if (!userId)`: no user, or an empty id, is turned away. */
  predicate SignedIn(userId: Option<string>)
  {
    userId.Some? && userId.value != ""
  }

  /** One row handed to the insert. */
  datatype Row = Row(
    userId: string,
    name: string,
    phone: string,
    dob: Value,
    age: Value,
    state: Value,
    status: Value,
    notes: Value,
    vmCount: Value)

  /** A POST's reply status, whether it deleted the user's leads, and the rows it inserted. */
  datatype PostResult = PostResult(status: int, deletedAll: bool, inserted: seq<Row>)

  /** A string with something other than white space in it. */
  predicate NonBlankString(v: Value)
  {
    v.Str? && Trim(v.s) != ""
  }

  /** The filter's test: `name` and `phone` are strings that are not blank. */
  predicate Usable(l: Value)
  {
    l.Obj? && NonBlankString(Get(l.fields, "name")) && NonBlankString(Get(l.fields, "phone"))
  }

  /**
   * `leads.filter(...)`, keeping the usable objects' fields; None when an element
   * is null or undefined, whose `name` cannot be read.
   */
  function Kept(leads: seq<Value>): Option<seq<map<string, Value>>>
  {
    if leads == [] then Some([])
    else if leads[0] == Null || leads[0] == Undefined then None
    else
      match Kept(leads[1..])
      case None => None
      case Some(rest) => Some(if Usable(leads[0]) then [leads[0].fields] + rest else rest)
  }

  /** The filter keeps its input's order: it works piece by piece over a concatenation. */
  lemma {:induction false} KeptConcat(a: seq<Value>, b: seq<Value>)
    ensures Kept(a + b) == if Kept(a).Some? && Kept(b).Some? then Some(Kept(a).value + Kept(b).value) else None
  {
    if a == [] {
      assert a + b == b;
      assert Kept(b).Some? ==> [] + Kept(b).value == Kept(b).value;
    } else {
      assert (a + b)[0] == a[0] && (a + b)[1..] == a[1..] + b;
      KeptConcat(a[1..], b);
      if a[0] == Null || a[0] == Undefined {
        assert Kept(a) == None && Kept(a + b) == None;
      } else if Kept(a[1..]).None? || Kept(b).None? {
        assert Kept(a[1..] + b) == None;
        assert Kept(a + b) == None;
      } else {
        var rest := Kept(a[1..]).value;
        assert Kept(a + b) == Some(if Usable(a[0]) then [a[0].fields] + (rest + Kept(b).value) else rest + Kept(b).value);
        assert Kept(a) == Some(if Usable(a[0]) then [a[0].fields] + rest else rest);
        if Usable(a[0]) {
          assert [a[0].fields] + rest + Kept(b).value == [a[0].fields] + (rest + Kept(b).value);
        }
      }
    }
  }

  /**
   * The filter throws exactly when an element is null or undefined; otherwise it
   * keeps precisely the usable elements.
   */
  lemma {:induction false} KeptMembers(leads: seq<Value>)
    ensures Kept(leads).None? <==> Null in leads || Undefined in leads
    ensures Kept(leads).Some? ==> |Kept(leads).value| <= |leads|
    ensures Kept(leads).Some? ==> forall f :: f in Kept(leads).value <==> Obj(f) in leads && Usable(Obj(f))
    ensures Kept(leads).Some? ==> AllUsable(Kept(leads).value)
  {
    if leads != [] {
      KeptMembers(leads[1..]);
      assert forall v :: v in leads <==> v == leads[0] || v in leads[1..];
    }
  }

  /** `(v || "").slice(0, n)`: None where the truthy value has no `slice` (it is neither a string nor an array). */
  function SliceOr(v: Value, n: nat): (r: Option<Value>)
    ensures !Truthy(v) ==> r == Some(Str(""))
    ensures v.Str? && v.s != "" ==> r == Some(Str(Take(v.s, n)))
  {
    if !Truthy(v) then Some(Str(""))
    else match v
      case Str(s) => Some(Str(Take(s, n)))
      case Arr(items) => Some(Arr(Take(items, n)))
      case _ => None
  }

  /** A string or array value of at most `n` elements. */
  predicate Within(v: Value, n: nat)
  {
    (v.Str? && |v.s| <= n) || (v.Arr? && |v.items| <= n)
  }

  /** Kept leads: `name` and `phone` are non-blank strings. */
  predicate AllUsable(kept: seq<map<string, Value>>)
  {
    forall f | f in kept :: NonBlankString(Get(f, "name")) && NonBlankString(Get(f, "phone"))
  }

  /** The row built from one kept lead; None where `slice` throws. */
  function RowOf(userId: string, f: map<string, Value>): Option<Row>
    requires NonBlankString(Get(f, "name")) && NonBlankString(Get(f, "phone"))
  {
    var dob := SliceOr(Get(f, "dob"), 20);
    var state := SliceOr(Get(f, "state"), 5);
    var notes := SliceOr(Get(f, "notes"), 2000);
    var age := Get(f, "age");
    var status := Get(f, "status");
    var vmCount := Get(f, "vmCount");
    if dob.None? || state.None? || notes.None? then None
    else Some(Row(userId, Take(Get(f, "name").s, 200), Take(Get(f, "phone").s, 30), dob.value,
                  if age == Null || age == Undefined then Null else age,
                  state.value,
                  if Truthy(status) then status else Str("NEW LEAD"),
                  notes.value,
                  if Truthy(vmCount) then vmCount else Num(0)))
  }

  /**
   * Every row respects the column limits (name 200, phone 30, dob 20, state 5,
   * notes 2000), belongs to the caller, and has the defaults where the lead had
   * nothing: status "NEW LEAD", vmCount 0, age null, and empty text.
   */
  lemma RowOfFacts(userId: string, f: map<string, Value>)
    requires NonBlankString(Get(f, "name")) && NonBlankString(Get(f, "phone"))
    ensures RowOf(userId, f).None? <==>
      exists k | k in {"dob", "state", "notes"} :: Truthy(Get(f, k)) && !Get(f, k).Str? && !Get(f, k).Arr?
    ensures RowOf(userId, f).Some? ==> var r := RowOf(userId, f).value;
      && r.userId == userId
      && |r.name| <= 200 && StartsWith(Get(f, "name").s, r.name)
      && |r.phone| <= 30 && StartsWith(Get(f, "phone").s, r.phone)
      && Within(r.dob, 20) && Within(r.state, 5) && Within(r.notes, 2000)
      && Truthy(r.status) && (!Truthy(Get(f, "status")) ==> r.status == Str("NEW LEAD"))
      && (Truthy(r.vmCount) || r.vmCount == Num(0)) && (!Truthy(Get(f, "vmCount")) ==> r.vmCount == Num(0))
      && (Get(f, "age") in {Null, Undefined} ==> r.age == Null)
      && (Get(f, "age") == Num(0) ==> r.age == Num(0))
      && (!Truthy(Get(f, "dob")) ==> r.dob == Str(""))
  {
    var dobV, stateV, notesV := Get(f, "dob"), Get(f, "state"), Get(f, "notes");
    if RowOf(userId, f).None? {
      if SliceOr(dobV, 20).None? {
        assert "dob" in {"dob", "state", "notes"};
      } else if SliceOr(stateV, 5).None? {
        assert "state" in {"dob", "state", "notes"};
      } else {
        assert "notes" in {"dob", "state", "notes"};
      }
    }
  }

  /** Building each kept lead's row. */
  function RowAttempts(userId: string, kept: seq<map<string, Value>>): (r: seq<Option<Row>>)
    requires AllUsable(kept)
    ensures |r| == |kept| && forall i | 0 <= i < |kept| :: r[i] == RowOf(userId, kept[i])
  {
    seq(|kept|, i requires 0 <= i < |kept| => RowOf(userId, kept[i]))
  }

  /** `kept.map(...)`: the rows, or None where building one throws. */
  function Rows(userId: string, kept: seq<map<string, Value>>): Option<seq<Row>>
    requires AllUsable(kept)
  {
    AllSome(RowAttempts(userId, kept))
  }

  /** The rows are the kept leads' rows, one for one and in order. */
  lemma RowsOneForOne(userId: string, kept: seq<map<string, Value>>)
    requires AllUsable(kept)
    ensures Rows(userId, kept).Some? <==> forall i | 0 <= i < |kept| :: RowOf(userId, kept[i]).Some?
    ensures Rows(userId, kept).Some? ==>
      |Rows(userId, kept).value| == |kept|
      && forall i | 0 <= i < |kept| :: Rows(userId, kept).value[i] == RowOf(userId, kept[i]).value
  {
    AllSomeFacts(RowAttempts(userId, kept));
  }

  /** The `Content-Length` test: a header whose integer prefix exceeds 2 MiB. */
  predicate TooLarge(contentLength: Option<string>)
  {
    contentLength.Some? && contentLength.value != ""
    && ParseInt(contentLength.value).Some? && ParseInt(contentLength.value).value > MaxPayloadBytes
  }

  /** POST: replace the user's saved leads with the uploaded ones. */
  function Post(userId: Option<string>, contentLength: Option<string>, body: Value, insertOk: bool): PostResult
  {
    if !SignedIn(userId) then PostResult(401, false, [])
    else if TooLarge(contentLength) then PostResult(413, false, [])
    else match Prop(body, "leads")
      case None => PostResult(500, false, [])
      case Some(leads) =>
        if !leads.Arr? || |leads.items| == 0 then PostResult(400, false, [])
        else if |leads.items| > MaxLeads then PostResult(400, false, [])
        else match Kept(leads.items)
          case None => PostResult(500, true, [])
          case Some(kept) =>
            KeptMembers(leads.items);
            match Rows(userId.value, kept)
            case None => PostResult(500, true, [])
            case Some(rows) =>
              if rows == [] then PostResult(400, true, [])
              else if insertOk then PostResult(200, true, rows)
              else PostResult(500, true, [])
  }

  /** The saved leads of every user after a POST by `userId`. */
  function StoreAfter(store: seq<Row>, userId: string, res: PostResult): seq<Row>
  {
    if !res.deletedAll then store
    else Others(store, userId) + res.inserted
  }

  /** The rows of users other than `userId`. */
  function Others(store: seq<Row>, userId: string): (r: seq<Row>)
    ensures forall x :: x in r <==> x in store && x.userId != userId
  {
    if store == [] then []
    else if store[0].userId == userId then Others(store[1..], userId)
    else [store[0]] + Others(store[1..], userId)
  }

  /**
   * The refusals before the delete touch nothing; once the request passes the
   * limits the user's old leads are gone, even when no uploaded lead survives the
   * filter; a successful POST stores exactly the sanitised rows, in upload order.
   */
  lemma PostFacts(userId: Option<string>, contentLength: Option<string>, body: Value, insertOk: bool, store: seq<Row>)
    ensures var res := Post(userId, contentLength, body, insertOk);
      && (!SignedIn(userId) ==> res.status == 401 && !res.deletedAll)
      && (SignedIn(userId) && TooLarge(contentLength) ==> res.status == 413 && !res.deletedAll)
      && (SignedIn(userId) && !res.deletedAll ==> StoreAfter(store, userId.value, res) == store && res.inserted == [])
      && (res.deletedAll ==>
           (&& SignedIn(userId)
            && forall x | x in StoreAfter(store, userId.value, res) :: x.userId == userId.value ==> x in res.inserted))
      && (res.status == 200 <==> res.inserted != [])
      && (res.status == 200 ==>
           (&& insertOk && res.deletedAll
            && exists leads :: (&& Prop(body, "leads") == Some(Arr(leads)) && 0 < |leads| <= MaxLeads
                                && Kept(leads).Some? && AllUsable(Kept(leads).value) && Rows(userId.value, Kept(leads).value) == Some(res.inserted))))
  {
    var res := Post(userId, contentLength, body, insertOk);
    if res.status == 200 {
      var leads := Prop(body, "leads").value.items;
      assert Prop(body, "leads") == Some(Arr(leads));
      KeptMembers(leads);
    }
  }

  /** A request that passes the limits but carries no usable lead empties the user's saved leads. */
  lemma NoValidLeadsStillDeletes(userId: string, body: Value, insertOk: bool, store: seq<Row>)
    requires SignedIn(Some(userId))
    requires body == Obj(map["leads" := Arr([Obj(map["name" := Str("  "), "phone" := Str("555")])])])
    ensures Post(Some(userId), None, body, insertOk).status == 400
    ensures forall x | x in StoreAfter(store, userId, Post(Some(userId), None, body, insertOk)) :: x.userId != userId
  {
    var l := Obj(map["name" := Str("  "), "phone" := Str("555")]);
    assert Trim("  ") == "" by {
      assert Blank("  ");
      TrimEmptyIffBlank("  ");
    }
    assert !Usable(l);
    assert Kept([l]) == Some([]);
  }

  /** PATCH's `vm_count`: `Math.max(0, Math.min(Number(v) || 0, 99))`. */
  function ClampVm(v: Value): (r: int)
    ensures 0 <= r <= 99
    ensures NumberOf(v).Some? && 0 <= NumberOf(v).value <= 99 ==> r == NumberOf(v).value
    ensures NumberOf(v).None? ==> r == 0
  {
    var n := match NumberOf(v) case Some(x) => x case None => 0;
    if n < 0 then 0 else if n > 99 then 99 else n
  }

  /** PATCH: the reply status and the update record sent for the lead, if any. */
  datatype PatchResult = PatchResult(status: int, leadId: int, updates: map<string, Value>)

  /** The update record has `updated_at`, and a field for each key the request supplied. */
  predicate UpdatesFor(updates: map<string, Value>, req: map<string, Value>, now: string)
  {
    && updates.Keys <= {"updated_at", "status", "vm_count", "notes"}
    && "updated_at" in updates && updates["updated_at"] == Str(now)
    && ("status" in updates <==> Get(req, "status") != Undefined)
    && ("status" in updates ==> updates["status"] == Str(Take(ToStr(Get(req, "status")), 50)))
    && ("vm_count" in updates <==> Get(req, "vm_count") != Undefined)
    && ("vm_count" in updates ==> updates["vm_count"] == Num(ClampVm(Get(req, "vm_count"))))
    && ("notes" in updates <==> Get(req, "notes") != Undefined)
    && ("notes" in updates ==> updates["notes"] == Str(Take(ToStr(Get(req, "notes")), 2000)))
  }

  /**
   * PATCH: check the id, then fill the update record field by field. The reply is
   * 401 without a user, 400 unless the id is a non-zero number, otherwise the
   * database's answer; the status text is cut to 50 characters, the notes to 2000,
   * and vm_count is clamped to 0..99.
   */
  method Patch(userId: Option<string>, body: Value, now: string, dbOk: bool) returns (res: PatchResult)
    ensures !SignedIn(userId) ==> res.status == 401 && res.updates == map[]
    ensures SignedIn(userId) && body in {Null, Undefined} ==> res.status == 500 && res.updates == map[]
    ensures SignedIn(userId) && body.Obj? ==>
      var id := Get(body.fields, "id");
      && (res.status == 400 <==> !id.Num? || id.n == 0)
      && (res.status != 400 ==> res.leadId == id.n && UpdatesFor(res.updates, body.fields, now)
                                && res.status == (if dbOk then 200 else 500))
    ensures res.status == 200 ==> res.updates != map[]
  {
    if !SignedIn(userId) {
      return PatchResult(401, 0, map[]);
    }
    if body == Null || body == Undefined {
      return PatchResult(500, 0, map[]);
    }
    var req := if body.Obj? then body.fields else map[];
    var id := Get(req, "id");
    if !Truthy(id) || !id.Num? {
      return PatchResult(400, 0, map[]);
    }
    var updates: map<string, Value> := map["updated_at" := Str(now)];
    var status := Get(req, "status");
    if status != Undefined {
      updates := updates["status" := Str(Take(ToStr(status), 50))];
    }
    var vmCount := Get(req, "vm_count");
    if vmCount != Undefined {
      updates := updates["vm_count" := Num(ClampVm(vmCount))];
    }
    var notes := Get(req, "notes");
    if notes != Undefined {
      updates := updates["notes" := Str(Take(ToStr(notes), 2000))];
    }
    res := PatchResult(if dbOk then 200 else 500, id.n, updates);
  }

  /** GET: the user's leads in creation order; only the status is modelled. */
  function GetStatus(userId: Option<string>, dbOk: bool): int
  {
    if !SignedIn(userId) then 401 else if dbOk then 200 else 500
  }

  /** DELETE: remove all the user's leads; the status and whether the delete was sent. */
  function Delete(userId: Option<string>, dbOk: bool): (int, bool)
  {
    if !SignedIn(userId) then (401, false) else (if dbOk then 200 else 500, true)
  }

  /** Every handler answers 401, and touches nothing, when no user is signed in. */
  lemma AuthGate(userId: Option<string>, contentLength: Option<string>, body: Value, ok: bool)
    requires !SignedIn(userId)
    ensures GetStatus(userId, ok) == 401
    ensures Post(userId, contentLength, body, ok) == PostResult(401, false, [])
    ensures Delete(userId, ok) == (401, false)
  {
  }
}
