/**
 * The saved-script endpoint (app/api/scripts/route.ts): GET returns the stored
 * sections and PUT validates, cleans and stores new ones. The user is the
 * `userId` parameter and the stored `script_json` is a value passed in or
 * returned; the length of `JSON.stringify(sections)` is the abstract
 * `serialisedSize`, and whether the database call failed is a parameter.
 */
module ScriptsApi {
  import opened Js
  import opened Types
  import LeadsApi

  const MaxSections: int := 50
  const MaxBodyBytes: int := 100 * 1024

  /** `String(v || "").slice(0, n)`. */
  function CleanText(v: Value, n: nat): (r: string)
    ensures |r| <= n
    ensures !Truthy(v) ==> r == ""
    ensures v.Str? ==> r == Take(v.s, n)
  {
    Take(if Truthy(v) then ToStr(v) else "", n)
  }

  /** One cleaned section; None where `s.id` cannot be read (null or undefined). */
  function CleanSection(s: Value): Option<ScriptSection>
  {
    if s == Null || s == Undefined then None
    else
      var f := if s.Obj? then s.fields else map[];
      Some(ScriptSection(CleanText(Get(f, "id"), 100), CleanText(Get(f, "title"), 200), CleanText(Get(f, "body"), 50000)))
  }

  /** Cleaning each element. */
  function CleanAttempts(items: seq<Value>): (r: seq<Option<ScriptSection>>)
    ensures |r| == |items| && forall i | 0 <= i < |items| :: r[i] == CleanSection(items[i])
  {
    seq(|items|, i requires 0 <= i < |items| => CleanSection(items[i]))
  }

  /** A section as it is stored and sent back. */
  function SectionValue(s: ScriptSection): Value
  {
    Obj(map["id" := Str(s.id), "title" := Str(s.title), "body" := Str(s.body)])
  }

  /** A reply, and the sections written to the user's record when PUT writes. */
  datatype PutResult = PutResult(status: int, stored: Option<seq<ScriptSection>>)

  /** PUT: the checks in their order, then the cleaned list is written. */
  function Put(userId: Option<string>, body: Value, serialisedSize: nat, dbOk: bool): PutResult
  {
    if !LeadsApi.SignedIn(userId) then PutResult(401, None)
    else match Prop(body, "sections")
      case None => PutResult(500, None)
      case Some(sections) =>
        if !sections.Arr? then PutResult(400, None)
        else if |sections.items| > MaxSections then PutResult(400, None)
        else if serialisedSize > MaxBodyBytes then PutResult(413, None)
        else match AllSome(CleanAttempts(sections.items))
          case None => PutResult(500, None)
          case Some(cleaned) => PutResult(if dbOk then 200 else 500, Some(cleaned))
  }

  /**
   * Nothing is written without a user, for a non-array, for more than 50
   * sections or beyond 100 KiB; what is written has one cleaned section per
   * input section, in order, within the 100/200/50000 limits, with "" for every
   * missing or falsy field.
   */
  lemma PutFacts(userId: Option<string>, body: Value, serialisedSize: nat, dbOk: bool)
    ensures var r := Put(userId, body, serialisedSize, dbOk);
      && (!LeadsApi.SignedIn(userId) ==> r == PutResult(401, None))
      && (r.status in {400, 401, 413} ==> r.stored.None?)
      && (r.status == 413 ==> serialisedSize > MaxBodyBytes)
      && (r.stored.Some? ==>
           (&& serialisedSize <= MaxBodyBytes
            && exists items ::
                 && Prop(body, "sections") == Some(Arr(items)) && |items| <= MaxSections
                 && |r.stored.value| == |items|
                 && forall i | 0 <= i < |items| ::
                      && CleanSection(items[i]) == Some(r.stored.value[i])
                      && |r.stored.value[i].id| <= 100 && |r.stored.value[i].title| <= 200
                      && |r.stored.value[i].body| <= 50000))
  {
    var r := Put(userId, body, serialisedSize, dbOk);
    if r.stored.Some? {
      var items := Prop(body, "sections").value.items;
      AllSomeFacts(CleanAttempts(items));
      assert Prop(body, "sections") == Some(Arr(items));
    }
  }

  /** Missing fields become empty text: an empty object is an empty section. */
  lemma CleanEmptyObject()
    ensures CleanSection(Obj(map[])) == Some(ScriptSection("", "", ""))
  {
  }

  /** A section within the limits. */
  predicate Clean(s: ScriptSection)
  {
    |s.id| <= 100 && |s.title| <= 200 && |s.body| <= 50000
  }

  /** Cleaning a stored section again gives it back: saving a loaded script changes nothing. */
  lemma CleanStoredSection(s: ScriptSection)
    requires Clean(s)
    ensures CleanSection(SectionValue(s)) == Some(s)
  {
    var f := map["id" := Str(s.id), "title" := Str(s.title), "body" := Str(s.body)];
    assert Get(f, "id") == Str(s.id) && Get(f, "title") == Str(s.title) && Get(f, "body") == Str(s.body);
  }

  /** Every cleaned section is within the limits. */
  lemma CleanedIsClean(v: Value)
    requires CleanSection(v).Some?
    ensures Clean(CleanSection(v).value)
  {
  }

  /** The value GET returns for the stored list. */
  function StoredValue(sections: seq<ScriptSection>): Value
  {
    Arr(seq(|sections|, i requires 0 <= i < |sections| => SectionValue(sections[i])))
  }

  /** Cleaning a stored list gives it back, section for section. */
  lemma CleanStoredList(stored: seq<ScriptSection>)
    requires forall i | 0 <= i < |stored| :: Clean(stored[i])
    ensures AllSome(CleanAttempts(StoredValue(stored).items)) == Some(stored)
  {
    var attempts := CleanAttempts(StoredValue(stored).items);
    forall i | 0 <= i < |stored|
      ensures attempts[i] == Some(stored[i])
    {
      CleanStoredSection(stored[i]);
    }
    AllSomeFacts(attempts);
    assert AllSome(attempts).value == stored;
  }

  /**
   * Putting back what GET returns, once PUT has stored it, stores the same list
   * again, provided its serialised form is within the size limit.
   */
  lemma PutIsIdempotent(userId: Option<string>, body: Value, serialisedSize: nat, resentSize: nat)
    requires Put(userId, body, serialisedSize, true).status == 200
    requires resentSize <= MaxBodyBytes
    ensures var stored := Put(userId, body, serialisedSize, true).stored.value;
      Put(userId, Obj(map["sections" := StoredValue(stored)]), resentSize, true) == PutResult(200, Some(stored))
  {
    var stored := Put(userId, body, serialisedSize, true).stored.value;
    StoredIsClean(userId, body, serialisedSize);
    PutStored(userId, stored, resentSize);
  }

  /** What PUT stores is within the limits. */
  lemma StoredIsClean(userId: Option<string>, body: Value, serialisedSize: nat)
    requires Put(userId, body, serialisedSize, true).status == 200
    ensures LeadsApi.SignedIn(userId)
    ensures var stored := Put(userId, body, serialisedSize, true).stored.value;
      |stored| <= MaxSections && forall i | 0 <= i < |stored| :: Clean(stored[i])
  {
    PutFacts(userId, body, serialisedSize, true);
  }

  /** Sending back a list within the limits stores that same list. */
  lemma PutStored(userId: Option<string>, stored: seq<ScriptSection>, resentSize: nat)
    requires LeadsApi.SignedIn(userId) && resentSize <= MaxBodyBytes && |stored| <= MaxSections
    requires forall i | 0 <= i < |stored| :: Clean(stored[i])
    ensures Put(userId, Obj(map["sections" := StoredValue(stored)]), resentSize, true) == PutResult(200, Some(stored))
  {
    var body := Obj(map["sections" := StoredValue(stored)]);
    assert Prop(body, "sections") == Some(StoredValue(stored));
    CleanStoredList(stored);
  }

  /** GET: 401 without a user, 500 on a database error, else `script_json ?? []`. */
  function GetScript(userId: Option<string>, dbOk: bool, scriptJson: Value): (int, Value)
  {
    if !LeadsApi.SignedIn(userId) then (401, Undefined)
    else if !dbOk then (500, Undefined)
    else (200, if scriptJson == Null || scriptJson == Undefined then Arr([]) else scriptJson)
  }

  /** A user who never saved a script gets an empty list; a saved one comes back as stored. */
  lemma GetScriptFacts(userId: Option<string>, scriptJson: Value, sections: seq<ScriptSection>)
    requires LeadsApi.SignedIn(userId)
    ensures scriptJson in {Null, Undefined} ==> GetScript(userId, true, scriptJson) == (200, Arr([]))
    ensures GetScript(userId, true, StoredValue(sections)) == (200, StoredValue(sections))
    ensures !LeadsApi.SignedIn(None) && GetScript(None, true, scriptJson).0 == 401
  {
  }
}
