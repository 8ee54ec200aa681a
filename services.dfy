/**
 * The data-access layer of src/firebase/services.ts over an abstract
 * Firestore: the documents under `portfolio/admin` are a map from
 * collection name to collection. The calls that reach the network take a
 * `fault` parameter (`Some(message)` when the call fails), the date parser
 * is `stamp` (`None` for an invalid date), `Number(...)` is `number`, and
 * the id a new document receives is `newId`.
 */
module Services {
  import opened Wrappers
  import opened Documents
  import opened JsString
  import opened Seqs

  /** The `portfolio/admin` document and its sub-collections. */
  datatype Db = Db(admin: Option<Doc>, collections: map<string, Collection>)

  /** The documents of one sub-collection; a missing one is empty. */
  function Col(db: Db, name: string): Collection {
    if name in db.collections then db.collections[name] else map[]
  }

  /** `addDoc`: stores `d` under `id`. */
  function AddDoc(db: Db, name: string, id: string, d: Doc): (r: Db)
    ensures Col(r, name) == Col(db, name)[id := d]
    ensures forall n :: n != name ==> Col(r, n) == Col(db, n)
    ensures r.admin == db.admin
  {
    db.(collections := db.collections[name := Col(db, name)[id := d]])
  }

  /** `updateDoc` on an existing document: the given top-level fields replace the stored ones. */
  function UpdateDoc(db: Db, name: string, id: string, fields: Doc): (r: Db)
    requires id in Col(db, name)
    ensures Col(r, name) == Col(db, name)[id := Col(db, name)[id] + fields]
    ensures forall n :: n != name ==> Col(r, n) == Col(db, n)
    ensures r.admin == db.admin
  {
    db.(collections := db.collections[name := Col(db, name)[id := Col(db, name)[id] + fields]])
  }

  /** `deleteDoc`: removes the document, whether or not it exists. */
  function DeleteDoc(db: Db, name: string, id: string): (r: Db)
    ensures Col(r, name) == Col(db, name) - {id}
    ensures forall n :: n != name ==> Col(r, n) == Col(db, n)
    ensures r.admin == db.admin
  {
    db.(collections := db.collections[name := Col(db, name) - {id}])
  }

  // ---------------------------------------------------------------------
  // Comma-separated lists
  // ---------------------------------------------------------------------

  /** `pieces.map(s => s.trim())`. */
  function TrimAll(pieces: seq<string>): (r: seq<string>)
    ensures |r| == |pieces|
  {
    seq(|pieces|, i requires 0 <= i < |pieces| => Trim(pieces[i]))
  }

  predicate NonEmpty(s: string) {
    s != ""
  }

  function NonEmptyFilter(): string -> bool {
    (s: string) => NonEmpty(s)
  }

  /** A list item as the admin forms expect: trimmed, non-empty, comma-free. */
  predicate ListItem(x: string) {
    Trimmed(x) && x != "" && ',' !in x
  }

  /** `s.split(",").map(x => x.trim()).filter(x => x !== "")`. */
  function ShapeList(s: string): (r: seq<string>)
    ensures forall i :: 0 <= i < |r| ==> ListItem(r[i])
  {
    var pieces := Split(s, ',');
    var trimmed := TrimAll(pieces);
    var r := Filter(trimmed, NonEmptyFilter());
    forall i | 0 <= i < |r| ensures ListItem(r[i]) {
      FilterMembership(trimmed, NonEmptyFilter(), r[i]);
      var j :| 0 <= j < |trimmed| && trimmed[j] == r[i];
      assert ',' !in pieces[j];
      TrimKeepsOut(pieces[j], ',');
    }
    r
  }

  lemma TrimAllConcat(a: seq<string>, b: seq<string>)
    ensures TrimAll(a + b) == TrimAll(a) + TrimAll(b)
  {
    var l := TrimAll(a + b);
    var r := TrimAll(a) + TrimAll(b);
    forall i | 0 <= i < |a + b| ensures l[i] == r[i] {
      if i < |a| {
        assert (a + b)[i] == a[i];
      } else {
        assert (a + b)[i] == b[i - |a|];
      }
    }
  }

  /** The entries before a comma come first, in order, then those after it. */
  lemma ShapeListAtComma(a: string, b: string)
    requires ',' !in a
    ensures ShapeList(a + [','] + b) == ShapeList(a) + ShapeList(b)
  {
    SplitAtSeparator(a, ',', b);
    SplitNoSeparator(a, ',');
    TrimAllConcat([a], Split(b, ','));
    FilterConcat(TrimAll([a]), TrimAll(Split(b, ',')), NonEmptyFilter());
  }

  /** A space after a comma never reaches an entry. */
  lemma ShapeListSpaceFront(s: string)
    ensures ShapeList(" " + s) == ShapeList(s)
  {
    var pieces := Split(s, ',');
    SplitConsChar(' ', s, ',');
    TrimSpaceFront(pieces[0]);
    assert [' '] + s == " " + s;
    var spaced := [" " + pieces[0]] + pieces[1..];
    assert Split(" " + s, ',') == spaced;
    TrimAllConcat([" " + pieces[0]], pieces[1..]);
    TrimAllConcat([pieces[0]], pieces[1..]);
    assert [pieces[0]] + pieces[1..] == pieces;
  }

  /** A single well-formed item shapes to itself. */
  lemma ShapeListSingle(x: string)
    requires ListItem(x)
    ensures ShapeList(x) == [x]
  {
    SplitNoSeparator(x, ',');
    assert TrimAll([x]) == [x];
  }

  /** The `", "`-join of two or more items: the first, a comma, then a space and the rest. */
  lemma JoinAtComma(xs: seq<string>)
    requires |xs| >= 2
    ensures Join(xs, ", ") == xs[0] + [','] + (" " + Join(xs[1..], ", "))
  {
  }

  /**
   * Shaping the `", "`-join of well-formed items, as the project form shows
   * a stored stack for editing, gives the items back.
   */
  lemma {:induction false} ShapeListJoin(xs: seq<string>)
    requires forall i :: 0 <= i < |xs| ==> ListItem(xs[i])
    ensures ShapeList(Join(xs, ", ")) == xs
  {
    if xs == [] {
      assert Split("", ',') == [""];
    } else if |xs| == 1 {
      ShapeListSingle(xs[0]);
    } else {
      var rest := Join(xs[1..], ", ");
      assert ListItem(xs[0]);
      assert forall i :: 0 <= i < |xs[1..]| ==> ListItem(xs[1..][i]) by {
        forall i | 0 <= i < |xs[1..]| ensures ListItem(xs[1..][i]) {
          assert xs[1..][i] == xs[i + 1];
        }
      }
      calc {
        ShapeList(Join(xs, ", "));
        { JoinAtComma(xs); }
        ShapeList(xs[0] + [','] + (" " + rest));
        { ShapeListAtComma(xs[0], " " + rest); }
        ShapeList(xs[0]) + ShapeList(" " + rest);
        { ShapeListSpaceFront(rest); }
        ShapeList(xs[0]) + ShapeList(rest);
        { ShapeListJoin(xs[1..]); ShapeListSingle(xs[0]); }
        [xs[0]] + xs[1..];
      }
    }
  }

  // ---------------------------------------------------------------------
  // Replies and errors
  // ---------------------------------------------------------------------

  /** `{ <flag>: ok, message }`. */
  function Outcome(flag: string, ok: bool, message: string): (o: Doc)
    requires flag != "message"
    ensures o.Keys == {flag, "message"}
    ensures flag in o && o[flag] == Bool(ok) && "message" in o && o["message"] == Str(message)
  {
    map[flag := Bool(ok), "message" := Str(message)]
  }

  /** The failure object of `addItem`, whose flag is spelt "sucess". */
  function AddFailure(message: string): (o: Doc)
    ensures "success" !in o && "sucess" in o && o["sucess"] == Bool(false)
  {
    Outcome("sucess", false, message)
  }

  /** V8's message for `v.split(...)` on something that is not a string. */
  function SplitTypeError(expr: string, v: Option<Value>): string {
    match v
    case None => "Cannot read properties of undefined (reading 'split')"
    case Some(Null) => "Cannot read properties of null (reading 'split')"
    case Some(_) => expr + ".split is not a function"
  }

  /** Firestore's message for `Timestamp.fromDate` of an invalid date. */
  const InvalidDateText: string := "Timestamp seconds out of range: NaN"

  /** Firestore's message for `updateDoc` on a document that does not exist. */
  const NoDocumentText: string := "No document to update"

  /** `Timestamp.fromDate(new Date(v))` for a form field. */
  function DateOf(v: Option<Value>, stamp: string -> Option<int>): Option<int> {
    if v.Some? && v.value.Str? then stamp(v.value.str) else None
  }

  // ---------------------------------------------------------------------
  // addItem
  // ---------------------------------------------------------------------

  /** What `addItem` resolves to: the new document's reference, `undefined`, or the failure object. */
  datatype AddResult = DocRef(id: string) | Undefined | Plain(obj: Doc)

  const AddCollections: set<string> := {"projects", "skills", "qualifications", "experiences"}

  /** The `addDoc` call and its `catch`. */
  function Write(db: Db, name: string, id: string, d: Doc, fault: Option<string>): (Db, AddResult) {
    if fault.Some? then (db, Plain(AddFailure(fault.value)))
    else (AddDoc(db, name, id, d), DocRef(id))
  }

  /** The project document `addItem` writes: `data` with the date as a timestamp and the stack as a list. */
  function ProjectDoc(data: Doc, stamp: string -> Option<int>): Result<Doc> {
    var stackField := Get(data, "stack");
    if !(stackField.Some? && stackField.value.Str?) then Err(SplitTypeError("data.stack", stackField))
    else
      var stack := ShapeList(stackField.value.str);
      var date := DateOf(Get(data, "date"), stamp);
      if date.None? then Err(InvalidDateText)
      else Ok(data["date" := Stamp(date.value)]["stack" := StrList(stack)])
  }

  /** The experience or qualification document `addItem` writes: both dates as timestamps. */
  function DatedDoc(data: Doc, stamp: string -> Option<int>): (r: Result<Doc>)
    ensures r.Ok? <==> DateOf(Get(data, "ending_date"), stamp).Some? && DateOf(Get(data, "starting_date"), stamp).Some?
    ensures r.Err? ==> r.message == InvalidDateText
    ensures r.Ok? ==> r.value.Keys == data.Keys + {"ending_date", "starting_date"}
    ensures r.Ok? ==> r.value["ending_date"] == Stamp(DateOf(Get(data, "ending_date"), stamp).value)
    ensures r.Ok? ==> r.value["starting_date"] == Stamp(DateOf(Get(data, "starting_date"), stamp).value)
    ensures r.Ok? ==> forall k :: k in data && k != "ending_date" && k != "starting_date" ==> r.value[k] == data[k]
  {
    var ending := DateOf(Get(data, "ending_date"), stamp);
    var starting := DateOf(Get(data, "starting_date"), stamp);
    if ending.None? || starting.None? then Err(InvalidDateText)
    else Ok(data["ending_date" := Stamp(ending.value)]["starting_date" := Stamp(starting.value)])
  }

  /** `addItem(collectionName, data)`: the database afterwards and what the call resolves to. */
  function AddItem(db: Db, name: string, data: Doc, stamp: string -> Option<int>,
                   number: Option<Value> -> Value, newId: string, fault: Option<string>): (r: (Db, AddResult))
    ensures name !in AddCollections <==> r.1.Undefined?
    ensures r.1.Undefined? ==> r.0 == db
    ensures r.1.Plain? ==> r.0 == db && "success" !in r.1.obj && "sucess" in r.1.obj && r.1.obj["sucess"] == Bool(false)
    ensures r.1.DocRef? ==> fault.None? && r.1.id == newId && newId in Col(r.0, name)
    ensures r.1.DocRef? ==> forall n :: n != name ==> Col(r.0, n) == Col(db, n)
    ensures r.0.admin == db.admin
    ensures r.1.DocRef? <==>
      fault.None? && (name == "skills"
                      || (name == "projects" && ProjectDoc(data, stamp).Ok?)
                      || ((name == "qualifications" || name == "experiences") && DatedDoc(data, stamp).Ok?))
  {
    if name == "projects" then
      match ProjectDoc(data, stamp)
      case Err(m) => (db, Plain(AddFailure(m)))
      case Ok(d) => Write(db, name, newId, d, fault)
    else if name == "skills" then
      Write(db, name, newId, data["order" := number(Get(data, "order"))], fault)
    else if name == "qualifications" || name == "experiences" then
      match DatedDoc(data, stamp)
      case Err(m) => (db, Plain(AddFailure(m)))
      case Ok(d) => Write(db, name, newId, d, fault)
    else (db, Undefined)
  }

  /** The project document keeps every field of `data` except the shaped stack and the converted date. */
  lemma ProjectDocFields(data: Doc, stamp: string -> Option<int>, s: string, date: string)
    requires Get(data, "stack") == Some(Str(s)) && Get(data, "date") == Some(Str(date)) && stamp(date).Some?
    ensures ProjectDoc(data, stamp) == Ok(data["date" := Stamp(stamp(date).value)]["stack" := StrList(ShapeList(s))])
  {
    assert DateOf(Get(data, "date"), stamp) == stamp(date);
  }

  lemma AddProjectWrites(db: Db, data: Doc, stamp: string -> Option<int>, number: Option<Value> -> Value, newId: string)
    requires ProjectDoc(data, stamp).Ok?
    ensures AddItem(db, "projects", data, stamp, number, newId, None) == Write(db, "projects", newId, ProjectDoc(data, stamp).value, None)
  {
  }

  /** A project is stored with its stack shaped into a list and its date as a timestamp. */
  lemma AddProjectStored(db: Db, data: Doc, stamp: string -> Option<int>, number: Option<Value> -> Value, newId: string, s: string, date: string)
    requires Get(data, "stack") == Some(Str(s)) && Get(data, "date") == Some(Str(date)) && stamp(date).Some?
    ensures var r := AddItem(db, "projects", data, stamp, number, newId, None);
      r.1 == DocRef(newId)
      && Col(r.0, "projects") == Col(db, "projects")[newId := data["date" := Stamp(stamp(date).value)]["stack" := StrList(ShapeList(s))]]
      && r.0.admin == db.admin
  {
    var d := data["date" := Stamp(stamp(date).value)]["stack" := StrList(ShapeList(s))];
    ProjectDocFields(data, stamp, s, date);
    AddProjectWrites(db, data, stamp, number, newId);
    var r := AddItem(db, "projects", data, stamp, number, newId, None);
    assert r == (AddDoc(db, "projects", newId, d), DocRef(newId));
    assert Col(r.0, "projects") == Col(db, "projects")[newId := d];
  }

  /** A project whose stack is not a string is refused before anything is written. */
  lemma AddProjectNeedsTextStack(db: Db, data: Doc, stamp: string -> Option<int>, number: Option<Value> -> Value, newId: string, fault: Option<string>)
    requires !(Get(data, "stack").Some? && Get(data, "stack").value.Str?)
    ensures AddItem(db, "projects", data, stamp, number, newId, fault)
         == (db, Plain(AddFailure(SplitTypeError("data.stack", Get(data, "stack")))))
  {
  }

  /** A skill is stored as sent, with its order passed through `Number`; only a rejected write stores nothing. */
  lemma AddSkillStored(db: Db, data: Doc, stamp: string -> Option<int>, number: Option<Value> -> Value, newId: string, fault: Option<string>)
    ensures var r := AddItem(db, "skills", data, stamp, number, newId, fault);
      && (fault.None? ==> r.1 == DocRef(newId)
                          && Col(r.0, "skills") == Col(db, "skills")[newId := data["order" := number(Get(data, "order"))]]
                          && r.0.admin == db.admin)
      && (fault.Some? ==> r == (db, Plain(AddFailure(fault.value))))
  {
    var r := AddItem(db, "skills", data, stamp, number, newId, fault);
    assert r == Write(db, "skills", newId, data["order" := number(Get(data, "order"))], fault);
  }

  /** An experience or qualification is stored with both dates as timestamps; an invalid date stores nothing. */
  lemma AddDatedStored(db: Db, name: string, data: Doc, stamp: string -> Option<int>, number: Option<Value> -> Value,
                       newId: string, fault: Option<string>)
    requires name == "qualifications" || name == "experiences"
    ensures var r := AddItem(db, name, data, stamp, number, newId, fault);
      && (DatedDoc(data, stamp).Err? ==> r == (db, Plain(AddFailure(InvalidDateText))))
      && (DatedDoc(data, stamp).Ok? && fault.Some? ==> r == (db, Plain(AddFailure(fault.value))))
      && (DatedDoc(data, stamp).Ok? && fault.None? ==>
            r.1 == DocRef(newId)
            && Col(r.0, name) == Col(db, name)[newId := DatedDoc(data, stamp).value]
            && r.0.admin == db.admin
            && Col(r.0, name)[newId]["ending_date"] == Stamp(DateOf(Get(data, "ending_date"), stamp).value)
            && Col(r.0, name)[newId]["starting_date"] == Stamp(DateOf(Get(data, "starting_date"), stamp).value))
  {
    var r := AddItem(db, name, data, stamp, number, newId, fault);
    if DatedDoc(data, stamp).Ok? {
      assert r == Write(db, name, newId, DatedDoc(data, stamp).value, fault);
    }
  }

  // ---------------------------------------------------------------------
  // deleteItem
  // ---------------------------------------------------------------------

  /** The noun in `deleteItem`'s success message. */
  function DeleteLabel(name: string): (noun: string)
    ensures noun == "Project" <==> name == "projects"
    ensures noun == "Skill" <==> name == "skills"
    ensures noun == "Experience" <==> name == "experiences"
    ensures name !in {"projects", "skills", "experiences"} <==> noun == "Education/Qualification"
  {
    if name == "projects" then "Project"
    else if name == "skills" then "Skill"
    else if name == "experiences" then "Experience"
    else "Education/Qualification"
  }

  /** `deleteItem(collectionName, id)`. */
  function DeleteItem(db: Db, name: string, id: string, fault: Option<string>): (r: (Db, Doc))
    ensures fault.None? ==> id !in Col(r.0, name) && r.1 == Outcome("success", true, DeleteLabel(name) + " Deleted Successfully")
    ensures fault.None? ==> Col(r.0, name) == Col(db, name) - {id} && r.0.admin == db.admin
    ensures fault.None? ==> forall n :: n != name ==> Col(r.0, n) == Col(db, n)
    ensures fault.Some? ==> r == (db, Outcome("success", false, fault.value))
  {
    if fault.Some? then (db, Outcome("success", false, fault.value))
    else (DeleteDoc(db, name, id), Outcome("success", true, DeleteLabel(name) + " Deleted Successfully"))
  }

  /** Deleting a message reports it as an education entry. */
  lemma DeleteMessageLabel(db: Db, id: string)
    ensures DeleteItem(db, "messages", id, None).1 == Outcome("success", true, "Education/Qualification" + " Deleted Successfully")
  {
    assert "messages"[0] != "projects"[0];
    assert DeleteLabel("messages") == "Education/Qualification";
  }

  // ---------------------------------------------------------------------
  // updates
  // ---------------------------------------------------------------------

  /** The reply says `success: true`. */
  predicate Succeeded(reply: Doc) {
    "success" in reply && reply["success"] == Bool(true)
  }

  /** The stored document `id` of collection `name` has `key` set to `v`. */
  predicate Stored(db: Db, name: string, id: string, key: string, v: Value) {
    id in Col(db, name) && key in Col(db, name)[id] && Col(db, name)[id][key] == v
  }

  /** What an update call does: reject outright, or resolve with a database and a reply. */
  datatype Update = Rejected | Resolved(db: Db, reply: Doc)

  /** An `updateDoc` inside `try`: a missing document or a failed call gives the failure reply. */
  function TryUpdate(db: Db, name: string, id: string, fields: Doc, fault: Option<string>, done: string): (r: Update)
    ensures r.Resolved?
    ensures Succeeded(r.reply) <==> id in Col(db, name) && fault.None?
    ensures Succeeded(r.reply) ==> id in Col(db, name) && r.db == UpdateDoc(db, name, id, fields) && r.reply == Outcome("success", true, done)
    ensures !Succeeded(r.reply) ==> r.db == db
  {
    if id !in Col(db, name) then Resolved(db, Outcome("success", false, NoDocumentText))
    else if fault.Some? then Resolved(db, Outcome("success", false, fault.value))
    else Resolved(UpdateDoc(db, name, id, fields), Outcome("success", true, done))
  }

  datatype ProjectUrlForm = ProjectUrlForm(image: string, imagePublicId: string, code: string, demo: string)

  datatype ProjectForm = ProjectForm(
    title: string, description: string, url: ProjectUrlForm, date: string, stack: string, version: string)

  /** The fields `updateProject` writes. */
  function ProjectFields(form: ProjectForm, date: int): (fields: Doc)
    ensures "stack" in fields && fields["stack"] == StrList(ShapeList(form.stack))
    ensures "date" in fields && fields["date"] == Stamp(date)
  {
    map[
      "title" := Str(form.title),
      "description" := Str(form.description),
      "version" := Str(form.version),
      "url" := Obj(map[
        "image" := Str(form.url.image),
        "image_public_id" := Str(form.url.imagePublicId),
        "code" := Str(form.url.code),
        "demo" := Str(form.url.demo)]),
      "date" := Stamp(date),
      "stack" := StrList(ShapeList(form.stack))]
  }

  /** `updateProject(formData, projectID)`: a null id throws before the `try`. */
  function UpdateProject(db: Db, form: ProjectForm, projectId: Option<string>, stamp: string -> Option<int>, fault: Option<string>): (r: Update)
    ensures projectId.None? <==> r.Rejected?
    ensures r.Resolved? && stamp(form.date).None? ==> r == Resolved(db, Outcome("success", false, InvalidDateText))
    ensures r.Resolved? ==>
      (Succeeded(r.reply) <==> projectId.value in Col(db, "projects") && stamp(form.date).Some? && fault.None?)
    ensures r.Resolved? && !Succeeded(r.reply) ==> r.db == db
    ensures r.Resolved? && Succeeded(r.reply) ==>
      (projectId.value in Col(db, "projects") && stamp(form.date).Some?
       && r.db == UpdateDoc(db, "projects", projectId.value, ProjectFields(form, stamp(form.date).value)))
  {
    if projectId.None? then Rejected
    else
      var date := stamp(form.date);
      if date.None? then Resolved(db, Outcome("success", false, InvalidDateText))
      else TryUpdate(db, "projects", projectId.value, ProjectFields(form, date.value), fault, "Project updated successfully.")
  }

  /** After a successful project update the stored stack is the shaped list and the date a timestamp. */
  lemma UpdateProjectStored(db: Db, form: ProjectForm, projectId: Option<string>, stamp: string -> Option<int>, fault: Option<string>)
    requires UpdateProject(db, form, projectId, stamp, fault).Resolved?
    requires Succeeded(UpdateProject(db, form, projectId, stamp, fault).reply)
    ensures var r := UpdateProject(db, form, projectId, stamp, fault);
      Stored(r.db, "projects", projectId.value, "stack", StrList(ShapeList(form.stack)))
      && Stored(r.db, "projects", projectId.value, "date", Stamp(stamp(form.date).value))
  {
  }

  /** `updateSkill(formData, skillID)`. */
  function UpdateSkill(db: Db, form: Doc, skillId: Option<string>, fault: Option<string>): (r: Update)
    ensures r.Resolved?
    ensures skillId.None? || skillId == Some("") ==> r == Resolved(db, Outcome("success", false, "Skill Id Not Found"))
    ensures Succeeded(r.reply) <==> skillId.Some? && skillId.value != "" && skillId.value in Col(db, "skills") && fault.None?
    ensures Succeeded(r.reply) ==>
      (skillId.Some? && skillId.value in Col(db, "skills") && r.db == UpdateDoc(db, "skills", skillId.value, form))
    ensures !Succeeded(r.reply) ==> r.db == db
  {
    if skillId.None? || skillId.value == "" then Resolved(db, Outcome("success", false, "Skill Id Not Found"))
    else TryUpdate(db, "skills", skillId.value, form, fault, "Skill updated successfully.")
  }

  /** The fields `updateExperience` writes, with `skills` a comma-separated string. */
  function ExperienceFields(form: Doc, stamp: string -> Option<int>): (r: Result<Doc>)
    ensures r.Ok? <==> DatedDoc(form, stamp).Ok? && Get(form, "skills").Some? && Get(form, "skills").value.Str?
    ensures r.Ok? ==> r.value == DatedDoc(form, stamp).value["skills" := StrList(ShapeList(Get(form, "skills").value.str))]
  {
    match DatedDoc(form, stamp)
    case Err(m) => Err(m)
    case Ok(d) =>
      var skills := Get(form, "skills");
      if skills.Some? && skills.value.Str? then Ok(d["skills" := StrList(ShapeList(skills.value.str))])
      else Err(SplitTypeError("formData.skills", skills))
  }

  /** `updateExperience(formData, experienceId)` as written. */
  function UpdateExperience(db: Db, form: Doc, id: string, stamp: string -> Option<int>, fault: Option<string>): (r: Update)
    ensures r.Resolved?
    ensures ExperienceFields(form, stamp).Err? ==> r == Resolved(db, Outcome("success", false, ExperienceFields(form, stamp).message))
    ensures Succeeded(r.reply) <==> ExperienceFields(form, stamp).Ok? && id in Col(db, "experiences") && fault.None?
    ensures Succeeded(r.reply) ==>
      (ExperienceFields(form, stamp).Ok? && id in Col(db, "experiences")
       && r.db == UpdateDoc(db, "experiences", id, ExperienceFields(form, stamp).value))
    ensures !Succeeded(r.reply) ==> r.db == db
  {
    match ExperienceFields(form, stamp)
    case Err(m) => Resolved(db, Outcome("success", false, m))
    case Ok(fields) => TryUpdate(db, "experiences", id, fields, fault, "Experience updated successfully.")
  }

  /**
   * The edit form sends `skills` already split into a list, so the call
   * always fails and nothing is written.
   */
  lemma EditedExperienceNeverSaved(db: Db, form: Doc, id: string, stamp: string -> Option<int>, fault: Option<string>, skills: seq<string>)
    requires Get(form, "skills") == Some(StrList(skills))
    ensures UpdateExperience(db, form, id, stamp, fault).db == db
    ensures !Succeeded(UpdateExperience(db, form, id, stamp, fault).reply)
  {
  }

  /** The skills to store: a comma-separated string is shaped, a list from the form is kept. */
  function SkillsToStore(skills: Option<Value>): Result<seq<string>> {
    if skills.Some? && skills.value.Str? then Ok(ShapeList(skills.value.str))
    else if skills.Some? && skills.value.StrList? then Ok(skills.value.items)
    else Err(SplitTypeError("formData.skills", skills))
  }

  /** `updateExperience` accepting the list the edit form sends. */
  function UpdateExperienceFixed(db: Db, form: Doc, id: string, stamp: string -> Option<int>, fault: Option<string>): (r: Update)
    ensures r.Resolved?
    ensures Succeeded(r.reply) <==>
      DatedDoc(form, stamp).Ok? && SkillsToStore(Get(form, "skills")).Ok? && id in Col(db, "experiences") && fault.None?
    ensures Succeeded(r.reply) ==>
      (DatedDoc(form, stamp).Ok? && SkillsToStore(Get(form, "skills")).Ok? && id in Col(db, "experiences")
       && r.db == UpdateDoc(db, "experiences", id,
                            DatedDoc(form, stamp).value["skills" := StrList(SkillsToStore(Get(form, "skills")).value)]))
    ensures !Succeeded(r.reply) ==> r.db == db
  {
    match DatedDoc(form, stamp)
    case Err(m) => Resolved(db, Outcome("success", false, m))
    case Ok(d) =>
      match SkillsToStore(Get(form, "skills"))
      case Err(m) => Resolved(db, Outcome("success", false, m))
      case Ok(skills) => TryUpdate(db, "experiences", id, d["skills" := StrList(skills)], fault, "Experience updated successfully.")
  }

  /** With the fix, the edit form's list is stored when the dates are valid and the entry exists. */
  lemma EditedExperienceSaved(db: Db, form: Doc, id: string, stamp: string -> Option<int>, skills: seq<string>)
    requires Get(form, "skills") == Some(StrList(skills))
    requires DatedDoc(form, stamp).Ok? && id in Col(db, "experiences")
    ensures var r := UpdateExperienceFixed(db, form, id, stamp, None);
      Succeeded(r.reply) && Stored(r.db, "experiences", id, "skills", StrList(skills))
  {
  }

  /** For a comma-separated string the fix changes nothing. */
  lemma FixedAgreesOnText(db: Db, form: Doc, id: string, stamp: string -> Option<int>, fault: Option<string>, s: string)
    requires Get(form, "skills") == Some(Str(s))
    ensures UpdateExperienceFixed(db, form, id, stamp, fault) == UpdateExperience(db, form, id, stamp, fault)
  {
  }

  /** `updateEducation(formData, qualificationId)`. */
  function UpdateEducation(db: Db, form: Doc, id: string, stamp: string -> Option<int>, fault: Option<string>): (r: Update)
    ensures r.Resolved?
    ensures Succeeded(r.reply) <==> DatedDoc(form, stamp).Ok? && id in Col(db, "qualifications") && fault.None?
    ensures Succeeded(r.reply) ==>
      forall k :: k in form && k != "ending_date" && k != "starting_date" ==> Stored(r.db, "qualifications", id, k, form[k])
    ensures Succeeded(r.reply) ==>
      (DatedDoc(form, stamp).Ok?
       && Stored(r.db, "qualifications", id, "ending_date", DatedDoc(form, stamp).value["ending_date"])
       && Stored(r.db, "qualifications", id, "starting_date", DatedDoc(form, stamp).value["starting_date"]))
    ensures Succeeded(r.reply) ==>
      (DatedDoc(form, stamp).Ok? && id in Col(db, "qualifications")
       && r.db == UpdateDoc(db, "qualifications", id, DatedDoc(form, stamp).value))
    ensures !Succeeded(r.reply) ==> r.db == db
  {
    match DatedDoc(form, stamp)
    case Err(m) => Resolved(db, Outcome("success", false, m))
    case Ok(d) => TryUpdate(db, "qualifications", id, d, fault, "Education updated successfully.")
  }

  // ---------------------------------------------------------------------
  // fetching
  // ---------------------------------------------------------------------

  /** Timestamps become ISO text (`iso` stands for `toDate().toISOString()`); other values stay. */
  function SerializeValue(v: Value, iso: int -> string): Value {
    if v.Stamp? then Str(iso(v.millis)) else v
  }

  function Serialized(d: Doc, iso: int -> string): (r: Doc)
    ensures r.Keys == d.Keys
    ensures forall k :: k in d && !d[k].Stamp? ==> r[k] == d[k]
    ensures forall k :: k in d && d[k].Stamp? ==> r[k] == Str(iso(d[k].millis))
  {
    map k | k in d :: SerializeValue(d[k], iso)
  }

  /** `{ _id: doc.id, ...serializedData }`. */
  function Tagged(id: string, d: Doc, iso: int -> string): Doc {
    map["_id" := Str(id)] + Serialized(d, iso)
  }

  /** The timestamp loop over the keys of one document, updating a copy in place. */
  method SerializeStamps(d: Doc, iso: int -> string) returns (serialized: Doc)
    ensures serialized == Serialized(d, iso)
  {
    serialized := d;
    var keys := d.Keys;
    while keys != {}
      invariant keys <= d.Keys && serialized.Keys == d.Keys
      invariant forall k :: k in keys ==> serialized[k] == d[k]
      invariant forall k :: k in d.Keys - keys ==> serialized[k] == SerializeValue(d[k], iso)
      decreases keys
    {
      var key :| key in keys;
      var value := serialized[key];
      if value.Stamp? {
        serialized := serialized[key := Str(iso(value.millis))];
      }
      keys := keys - {key};
    }
  }

  /** `fetchCollection(collectionName)` over the snapshot's documents, in snapshot order. */
  method FetchCollection(name: string, docs: seq<(string, Doc)>, iso: int -> string) returns (r: Result<seq<Doc>>)
    ensures docs == [] ==> r == Err("No documents found in collection: " + name)
    ensures docs != [] ==> r.Ok? && |r.value| == |docs|
    ensures docs != [] ==> forall i :: 0 <= i < |docs| ==> r.value[i] == Tagged(docs[i].0, docs[i].1, iso)
  {
    if docs == [] {
      return Err("No documents found in collection: " + name);
    }
    var items: seq<Doc> := [];
    var i := 0;
    while i < |docs|
      invariant 0 <= i <= |docs| && |items| == i
      invariant forall j :: 0 <= j < i ==> items[j] == Tagged(docs[j].0, docs[j].1, iso)
    {
      var serializedData := SerializeStamps(docs[i].1, iso);
      items := items + [map["_id" := Str(docs[i].0)] + serializedData];
      i := i + 1;
    }
    return Ok(items);
  }

  /** Every item carries `_id`: the document id, unless the stored data has its own `_id`, which wins. */
  lemma TaggedId(id: string, d: Doc, iso: int -> string)
    ensures "_id" in Tagged(id, d, iso)
    ensures "_id" !in d ==> Tagged(id, d, iso)["_id"] == Str(id)
    ensures "_id" in d ==> Tagged(id, d, iso)["_id"] == SerializeValue(d["_id"], iso)
  {
  }

  /** Tagging adds only `_id` and changes only timestamp values. */
  lemma TaggedFields(id: string, d: Doc, iso: int -> string)
    ensures Tagged(id, d, iso).Keys == d.Keys + {"_id"}
    ensures forall k :: k in d && !d[k].Stamp? ==> Tagged(id, d, iso)[k] == d[k]
  {
  }

  /** `fetchAdminDocument()`: `{ _id: "admin", ...data.about }`, or an error when the document is missing. */
  function FetchAdminDocument(admin: Option<Doc>): (r: Result<Doc>)
    ensures admin.None? <==> r == Err("Admin document does not exist.")
    ensures r.Ok? ==> "_id" in r.value
    ensures r.Ok? ==>
      (!(Get(admin.value, "about").Some? && Get(admin.value, "about").value.Obj? && "_id" in admin.value["about"].fields)
       ==> r.value["_id"] == Str("admin"))
    ensures r.Ok? ==> forall k :: k in r.value ==>
      k == "_id" || (Get(admin.value, "about").Some? && Get(admin.value, "about").value.Obj? && k in admin.value["about"].fields)
    ensures r.Ok? && Get(admin.value, "about").Some? && Get(admin.value, "about").value.Obj? ==>
      forall k :: k in admin.value["about"].fields ==> k in r.value && r.value[k] == admin.value["about"].fields[k]
  {
    if admin.None? then Err("Admin document does not exist.")
    else
      var about := Get(admin.value, "about");
      var fields := if about.Some? && about.value.Obj? then about.value.fields else map[];
      Ok(map["_id" := Str("admin")] + fields)
  }
}
