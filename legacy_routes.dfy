// The route handlers of the legacy content server: each reads a JSON
// document through the safe read of the persistence layer, changes it and
// writes it back through the safe write. Every failure inside a handler,
// a missing document included, is caught there and answered with a
// bare 500; the fallbacks for an empty document apply only to a file that
// holds a falsy JSON value such as `null`.
module LegacyRoutes {
  import opened Wrappers
  import opened Strings
  import opened JsValue
  import opened Http
  import opened DocumentStore

  const WorkFile := "data/work.json"
  const FaqFile := "data/faq.json"
  const ProcessFile := "data/process.json"
  const StoryFile := "data/story.json"
  const LocationsFile := "data/locations.json"
  const ContactFile := "data/contact.json"

  // ---- Answers ----

  const ServerError := Reply(500, Obj(map["error" := Str("Server error")]))
  const Done := Reply(200, Obj(map["success" := Bool(true)]))
  const NoProcess := Reply(404, Obj(map["error" := Str("Process data not found")]))
  const NoStep := Reply(404, Obj(map["error" := Str("Process step not found")]))

  function StepAdded(step: Value): Reply
  {
    Reply(200, Obj(map["success" := Bool(true), "step" := step]))
  }

  /** What `res.json(data || fallback)` sends for the work document, the
      FAQ list and the other documents. */
  const WorkFallback := Obj(map["banner" := Obj(map[]), "projects" := Arr([])])
  const FaqFallback := Arr([])
  const EmptyDocument := Obj(map[])

  /** The answer of a handler and the files after it. */
  datatype Served = Served(reply: Reply, files: map<string, Entry>)

  /** `await writeJsonFile(path, data)` followed by `reply`; a failed write
      is caught and answered with a 500, and the backup it may have made
      stays. */
  function Saved(files: map<string, Entry>, path: string, data: Value, reply: Reply): Served
  {
    var w := Write(files, path, data);
    Served(if w.result.Ok? then reply else ServerError, w.files)
  }

  // ---- Items and ids ----

  /** `{ ...body, id }`: the body's own properties with the id set last, so
      that it overrides any id the client sent. */
  function WithId(body: Value, id: int): (r: Value)
    ensures r.Obj? && "id" in r.fields && r.fields["id"] == Num(id as real)
    ensures forall k :: k in r.fields <==> k == "id" || k in Spread(body)
    ensures forall k :: k in Spread(body) && k != "id" ==> r.fields[k] == Spread(body)[k]
  {
    Obj(Spread(body)["id" := Num(id as real)])
  }

  /** `item.id === id` where `id` comes from parseInt; `None` is NaN, which
      equals nothing. */
  predicate SameId(item: Value, id: Option<int>)
  {
    id.Some? && Prop(item, "id") == Some(Num(id.value as real))
  }

  /** `items.filter(item => item.id !== id)`, for items none of which is
      `null`. */
  function Keep(items: seq<Value>, id: Option<int>): (r: seq<Value>)
    ensures forall x :: x in r <==> x in items && !SameId(x, id)
    ensures |r| <= |items|
    ensures (forall j :: 0 <= j < |items| ==> !SameId(items[j], id)) ==> r == items
  {
    if items == [] then []
    else
      assert items == [items[0]] + items[1..];
      (if SameId(items[0], id) then [] else [items[0]]) + Keep(items[1..], id)
  }

  /** The filter keeps the relative order: filtering a concatenation
      filters each part. */
  lemma {:induction false} KeepAppend(a: seq<Value>, b: seq<Value>, id: Option<int>)
    ensures Keep(a + b, id) == Keep(a, id) + Keep(b, id)
  {
    if a != [] {
      assert (a + b)[1..] == a[1..] + b;
      KeepAppend(a[1..], b, id);
    } else {
      assert a + b == b;
    }
  }

  /** How many items the filter removes. */
  function Matching(items: seq<Value>, id: Option<int>): nat
  {
    if items == [] then 0 else (if SameId(items[0], id) then 1 else 0) + Matching(items[1..], id)
  }

  lemma {:induction false} KeepCount(items: seq<Value>, id: Option<int>)
    ensures |Keep(items, id)| + Matching(items, id) == |items|
  {
    if items != [] {
      KeepCount(items[1..], id);
    }
  }

  /** `list.filter(...)` on a stored value: `None` where it throws, for a
      value that is not an array or an array holding `null` (reading
      `null.id` is a TypeError). */
  function KeepOthers(list: Value, id: Option<int>): Option<seq<Value>>
  {
    if list.Arr? && Null !in list.items then Some(Keep(list.items, id)) else None
  }

  /** No item before index `j` is `null` or has the id. */
  predicate NoneBefore(items: seq<Value>, id: Option<int>, j: nat)
    requires j <= |items|
  {
    forall k :: 0 <= k < j ==> items[k] != Null && !SameId(items[k], id)
  }

  /** The outcome of `items.findIndex(item => item.id === id)`. */
  datatype Search = At(index: nat) | Missing | Throws

  function FindStep(items: seq<Value>, id: Option<int>): (r: Search)
    ensures r.At? ==> r.index < |items| && SameId(items[r.index], id) && NoneBefore(items, id, r.index)
    ensures r.Missing? ==> NoneBefore(items, id, |items|)
    ensures r.Throws? ==> exists j :: 0 <= j < |items| && items[j] == Null && NoneBefore(items, id, j)
  {
    if items == [] then Missing
    else if items[0] == Null then
      assert NoneBefore(items, id, 0);
      Throws
    else if SameId(items[0], id) then At(0)
    else
      var rest := FindStep(items[1..], id);
      ShiftNoneBefore(items, id);
      match rest
      case At(i) => At(i + 1)
      case Missing => Missing
      case Throws =>
        var j :| 0 <= j < |items| - 1 && items[1..][j] == Null && NoneBefore(items[1..], id, j);
        assert items[j + 1] == Null && NoneBefore(items, id, j + 1);
        Throws
  }

  lemma ShiftNoneBefore(items: seq<Value>, id: Option<int>)
    requires items != [] && items[0] != Null && !SameId(items[0], id)
    ensures forall j :: 0 <= j <= |items| - 1 ==> (NoneBefore(items[1..], id, j) ==> NoneBefore(items, id, j + 1))
  {
    forall j | 0 <= j <= |items| - 1 && NoneBefore(items[1..], id, j)
      ensures NoneBefore(items, id, j + 1)
    {
      forall k | 0 <= k < j + 1
        ensures items[k] != Null && !SameId(items[k], id)
      {
        if k > 0 {
          assert items[k] == items[1..][k - 1];
        }
      }
    }
  }

  /** findIndex answers the first match: the result is exactly the least
      index holding the id, when no `null` comes before it. */
  lemma FindStepFirst(items: seq<Value>, id: Option<int>, i: nat)
    requires i < |items| && SameId(items[i], id) && NoneBefore(items, id, i)
    ensures FindStep(items, id) == At(i)
  {
  }

  // ---- The handlers, as functions of the files ----

  /** `GET`: the stored document, or the fallback when it is falsy. */
  function Fetch(files: map<string, Entry>, path: string, fallback: Value): (r: Reply)
    ensures r.status == 500 <==> Read(files, path).Err?
  {
    match Read(files, path)
    case Err(_) => ServerError
    case Ok(v) => Reply(200, if Truthy(v) then v else fallback)
  }

  /** `{ ...body, updatedAt }`. */
  function Stamped(body: Value, stamp: string): (r: Value)
    ensures r.Obj? && "updatedAt" in r.fields && r.fields["updatedAt"] == Str(stamp)
    ensures forall k :: k in r.fields <==> k == "updatedAt" || k in Spread(body)
    ensures forall k :: k in Spread(body) && k != "updatedAt" ==> r.fields[k] == Spread(body)[k]
  {
    Obj(Spread(body)["updatedAt" := Str(stamp)])
  }

  /** `PUT /api/work` stores the body as it is; the process, story,
      locations and contact PUTs store it with `updatedAt`. */
  function Replace(files: map<string, Entry>, path: string, data: Value): Served
  {
    Saved(files, path, data, Done)
  }

  /** What `readJsonFile(...) || { projects: [] }` gives for a falsy work
      document. */
  const NoProjects := Obj(map["projects" := Arr([])])

  function WorkOrDefault(v: Value): Value
  {
    if Truthy(v) then v else NoProjects
  }

  /** `POST /api/work`. */
  function AddProject(files: map<string, Entry>, body: Value, now: nat): Served
  {
    match Read(files, WorkFile)
    case Err(_) => Served(ServerError, files)
    case Ok(v) => PushProject(files, WorkOrDefault(v), body, now)
  }

  /** `data.projects.push(newProject)` and the write; the push throws
      unless the projects are an array. */
  function PushProject(files: map<string, Entry>, data: Value, body: Value, now: nat): Served
  {
    var projects := Prop(data, "projects");
    if projects.Some? && projects.value.Arr? then
      var item := WithId(body, now);
      Saved(files, WorkFile, Obj(data.fields["projects" := Arr(projects.value.items + [item])]), Reply(200, item))
    else Served(ServerError, files)
  }

  /** `DELETE /api/work/:id`: nothing is written when the document or its
      projects are falsy, and the answer is a success either way. */
  function RemoveProject(files: map<string, Entry>, idParam: string): Served
  {
    match Read(files, WorkFile)
    case Err(_) => Served(ServerError, files)
    case Ok(data) =>
      var projects := Prop(data, "projects");
      if !Truthy(data) || projects.None? || !Truthy(projects.value) then Served(Done, files)
      else match KeepOthers(projects.value, ParseInt(idParam))
        case None => Served(ServerError, files)
        case Some(kept) => Saved(files, WorkFile, Obj(data.fields["projects" := Arr(kept)]), Done)
  }

  /** `POST /api/faq`: the FAQ document is a bare array. */
  function AddFaqItem(files: map<string, Entry>, body: Value, now: nat): Served
  {
    match Read(files, FaqFile)
    case Err(_) => Served(ServerError, files)
    case Ok(v) =>
      var list := if Truthy(v) then v else Arr([]);
      if list.Arr? then
        var item := WithId(body, now);
        Saved(files, FaqFile, Arr(list.items + [item]), Reply(200, item))
      else Served(ServerError, files)
  }

  /** `DELETE /api/faq/:id`: the filtered list is written back whether or
      not anything matched. */
  function RemoveFaqItem(files: map<string, Entry>, idParam: string): Served
  {
    match Read(files, FaqFile)
    case Err(_) => Served(ServerError, files)
    case Ok(v) =>
      match KeepOthers(if Truthy(v) then v else Arr([]), ParseInt(idParam))
      case None => Served(ServerError, files)
      case Some(kept) => Saved(files, FaqFile, Arr(kept), Done)
  }

  /** The new step: the body with the server id and the next order. */
  function NewStep(body: Value, now: nat, order: nat): (r: Value)
    ensures r.Obj? && "id" in r.fields && r.fields["id"] == Num(now as real)
    ensures "order" in r.fields && r.fields["order"] == Num(order as real)
    ensures forall k :: k in r.fields <==> k in {"id", "order"} || k in Spread(body)
    ensures forall k :: k in Spread(body) && k !in {"id", "order"} ==> r.fields[k] == Spread(body)[k]
  {
    Obj(Spread(body)["id" := Num(now as real)]["order" := Num(order as real)])
  }

  /** The process document with new steps and `updatedAt`, written back. */
  function StoreSteps(files: map<string, Entry>, m: map<string, Value>, steps: seq<Value>, stamp: string, reply: Reply): Served
  {
    Saved(files, ProcessFile, Obj(m["processSteps" := Arr(steps)]["updatedAt" := Str(stamp)]), reply)
  }

  /** `POST /api/process/steps`. A stored array takes the step's properties
      on the array object, which JSON.stringify does not write, so the file
      is rewritten unchanged; any other truthy non-object fails at `push`. */
  function AddStep(files: map<string, Entry>, body: Value, now: nat, stamp: string): Served
  {
    match Read(files, ProcessFile)
    case Err(_) => Served(ServerError, files)
    case Ok(data) =>
      if !Truthy(data) then Served(NoProcess, files)
      else if data.Obj? then PushStep(files, data.fields, StepList(data.fields), body, now, stamp)
      else if data.Arr? then Saved(files, ProcessFile, data, StepAdded(NewStep(body, now, 1)))
      else Served(ServerError, files)
  }

  /** `data.processSteps || []`. */
  function StepList(m: map<string, Value>): Value
  {
    if "processSteps" in m && Truthy(m["processSteps"]) then m["processSteps"] else Arr([])
  }

  /** The new step numbered after the current ones, pushed and written;
      the push throws unless the list is an array. */
  function PushStep(files: map<string, Entry>, m: map<string, Value>, list: Value, body: Value, now: nat, stamp: string): Served
  {
    if list.Arr? then
      var step := NewStep(body, now, |list.items| + 1);
      StoreSteps(files, m, list.items + [step], stamp, StepAdded(step))
    else Served(ServerError, files)
  }

  /** `PUT /api/process/steps/:stepId`. */
  function UpdateStep(files: map<string, Entry>, body: Value, stepParam: string, stamp: string): Served
  {
    match Read(files, ProcessFile)
    case Err(_) => Served(ServerError, files)
    case Ok(data) =>
      var steps := Prop(data, "processSteps");
      if !Truthy(data) then Served(NoProcess, files)
      else if steps.None? || !steps.value.Arr? then Served(ServerError, files)
      else ReplaceStep(files, data.fields, steps.value.items, body, ParseInt(stepParam), stamp)
  }

  /** `findIndex`, then the step at the index replaced and written. */
  function ReplaceStep(files: map<string, Entry>, m: map<string, Value>, steps: seq<Value>, body: Value, id: Option<int>,
                       stamp: string): Served
  {
    match FindStep(steps, id)
    case Throws => Served(ServerError, files)
    case Missing => Served(NoStep, files)
    case At(i) => StoreSteps(files, m, steps[i := WithId(body, id.value)], stamp, Done)
  }

  /** `DELETE /api/process/steps/:stepId`: no check that anything matched. */
  function RemoveStep(files: map<string, Entry>, stepParam: string, stamp: string): Served
  {
    match Read(files, ProcessFile)
    case Err(_) => Served(ServerError, files)
    case Ok(data) =>
      var steps := Prop(data, "processSteps");
      if !Truthy(data) then Served(NoProcess, files)
      else if steps.None? then Served(ServerError, files)
      else match KeepOthers(steps.value, ParseInt(stepParam))
        case None => Served(ServerError, files)
        case Some(kept) =>
          StoreSteps(files, data.fields, kept, stamp, Done)
  }

  // ---- What the handlers promise ----

  /** The properties `{...v}` copies from a JSON value are JSON values. */
  lemma SpreadJson(v: Value)
    requires IsJson(v)
    ensures forall k :: k in Spread(v) ==> IsJson(Spread(v)[k])
  {
    if v.Arr? {
      forall k | k in Spread(v) ensures IsJson(Spread(v)[k]) {
        var i :| 0 <= i < |v.items| && k == NatText(i);
        assert Spread(v)[k] == v.items[i];
      }
    }
  }

  lemma WithIdJson(body: Value, id: int)
    requires IsJson(body)
    ensures IsJson(WithId(body, id))
  {
    SpreadJson(body);
  }

  lemma StampedJson(body: Value, stamp: string)
    requires IsJson(body)
    ensures IsJson(Stamped(body, stamp))
  {
    SpreadJson(body);
  }

  /** A JSON value written to a writable path is stored and reads back as
      it is. */
  lemma WriteJson(files: map<string, Entry>, path: string, v: Value)
    requires IsJson(v) && Writable(files, path)
    ensures Write(files, path, v).result == Ok(true)
    ensures Read(Write(files, path, v).files, path) == Ok(v)
  {
    NoBigIntInJson(v);
  }

  /** A missing document makes every handler that reads it answer the bare
      500 and change nothing: the `|| default` and `if (!data)` fallbacks
      are never reached. */
  lemma MissingDocumentFails(files: map<string, Entry>, body: Value, now: nat, param: string, stamp: string)
    ensures WorkFile !in files ==>
              Fetch(files, WorkFile, WorkFallback) == ServerError
              && AddProject(files, body, now) == Served(ServerError, files)
              && RemoveProject(files, param) == Served(ServerError, files)
    ensures FaqFile !in files ==>
              Fetch(files, FaqFile, FaqFallback) == ServerError
              && AddFaqItem(files, body, now) == Served(ServerError, files)
              && RemoveFaqItem(files, param) == Served(ServerError, files)
    ensures ProcessFile !in files ==>
              Fetch(files, ProcessFile, EmptyDocument) == ServerError
              && AddStep(files, body, now, stamp) == Served(ServerError, files)
              && UpdateStep(files, body, param, stamp) == Served(ServerError, files)
              && RemoveStep(files, param, stamp) == Served(ServerError, files)
  {
  }

  /** A readable document is served as stored when it is truthy and
      replaced by the fallback when it is falsy, such as `null`. */
  lemma FetchServesStored(files: map<string, Entry>, path: string, fallback: Value, v: Value)
    requires path in files && files[path] == JsonText(v)
    ensures Truthy(v) ==> Fetch(files, path, fallback) == Reply(200, v)
    ensures !Truthy(v) ==> Fetch(files, path, fallback) == Reply(200, fallback)
  {
  }

  /** Pushing onto the projects of a JSON work document stores the
      document with the new project last. */
  lemma PushProjectStores(files: map<string, Entry>, data: Value, body: Value, now: nat, projects: seq<Value>)
    requires IsJson(data) && IsJson(body) && Writable(files, WorkFile)
    requires data.Obj? && "projects" in data.fields && data.fields["projects"] == Arr(projects)
    ensures PushProject(files, data, body, now).reply == Reply(200, WithId(body, now))
    ensures Read(PushProject(files, data, body, now).files, WorkFile)
              == Ok(Obj(data.fields["projects" := Arr(projects + [WithId(body, now)])]))
  {
    var item := WithId(body, now);
    WithIdJson(body, now);
    assert IsJson(Arr(projects));
    assert IsJson(Arr(projects + [item])) by {
      forall i | 0 <= i < |projects + [item]| ensures IsJson((projects + [item])[i]) {
        if i < |projects| { assert (projects + [item])[i] == projects[i]; }
      }
    }
    WriteJson(files, WorkFile, Obj(data.fields["projects" := Arr(projects + [item])]));
  }

  /** `POST /api/work` appends the new project at the end, with the
      server's id in place of any id the client sent, and answers it; a
      falsy work document counts as `{ projects: [] }`. */
  lemma AddProjectAppends(files: map<string, Entry>, body: Value, now: nat, v: Value, projects: seq<Value>)
    requires ValidFiles(files) && IsJson(body) && Writable(files, WorkFile)
    requires WorkFile in files && files[WorkFile] == JsonText(v)
    requires WorkOrDefault(v).Obj? && "projects" in WorkOrDefault(v).fields
    requires WorkOrDefault(v).fields["projects"] == Arr(projects)
    ensures AddProject(files, body, now).reply == Reply(200, WithId(body, now))
    ensures Read(AddProject(files, body, now).files, WorkFile)
              == Ok(Obj(WorkOrDefault(v).fields["projects" := Arr(projects + [WithId(body, now)])]))
  {
    assert IsJson(v);
    PushProjectStores(files, WorkOrDefault(v), body, now, projects);
  }

  /** `DELETE /api/work/:id` keeps exactly the projects without the parsed
      id, in their order, and answers success whether or not any matched. */
  lemma RemoveProjectFilters(files: map<string, Entry>, param: string, m: map<string, Value>, projects: seq<Value>)
    requires ValidFiles(files) && Writable(files, WorkFile)
    requires WorkFile in files && files[WorkFile] == JsonText(Obj(m))
    requires "projects" in m && m["projects"] == Arr(projects) && Null !in projects
    ensures RemoveProject(files, param).reply == Done
    ensures Read(RemoveProject(files, param).files, WorkFile)
              == Ok(Obj(m["projects" := Arr(Keep(projects, ParseInt(param)))]))
  {
    var kept := Keep(projects, ParseInt(param));
    assert IsJson(Obj(m));
    assert IsJson(Arr(projects));
    assert IsJson(Arr(kept)) by {
      forall i | 0 <= i < |kept| ensures IsJson(kept[i]) {
        assert kept[i] in projects;
      }
    }
    WriteJson(files, WorkFile, Obj(m["projects" := Arr(kept)]));
  }

  /** A falsy work document or projects list is left alone, with success. */
  lemma RemoveProjectFromNothing(files: map<string, Entry>, param: string, v: Value)
    requires WorkFile in files && files[WorkFile] == JsonText(v)
    requires !Truthy(v) || Prop(v, "projects").None? || !Truthy(Prop(v, "projects").value)
    ensures RemoveProject(files, param) == Served(Done, files)
  {
  }

  /** `POST /api/faq` appends to the bare array. */
  lemma AddFaqItemAppends(files: map<string, Entry>, body: Value, now: nat, items: seq<Value>)
    requires ValidFiles(files) && IsJson(body) && Writable(files, FaqFile)
    requires FaqFile in files && files[FaqFile] == JsonText(Arr(items))
    ensures AddFaqItem(files, body, now).reply == Reply(200, WithId(body, now))
    ensures Read(AddFaqItem(files, body, now).files, FaqFile) == Ok(Arr(items + [WithId(body, now)]))
  {
    var item := WithId(body, now);
    WithIdJson(body, now);
    assert IsJson(Arr(items));
    assert IsJson(Arr(items + [item])) by {
      forall i | 0 <= i < |items + [item]| ensures IsJson((items + [item])[i]) {
        if i < |items| { assert (items + [item])[i] == items[i]; }
      }
    }
    WriteJson(files, FaqFile, Arr(items + [item]));
  }

  /** `DELETE /api/faq/:id` writes the filtered list back even when no
      item matched, so the previous list is copied to the backup. */
  lemma RemoveFaqItemRewrites(files: map<string, Entry>, param: string, items: seq<Value>)
    requires ValidFiles(files) && Writable(files, FaqFile)
    requires FaqFile in files && files[FaqFile] == JsonText(Arr(items)) && Null !in items
    ensures RemoveFaqItem(files, param).reply == Done
    ensures Read(RemoveFaqItem(files, param).files, FaqFile) == Ok(Arr(Keep(items, ParseInt(param))))
    ensures Writable(files, BackupPath(FaqFile)) ==>
              Read(RemoveFaqItem(files, param).files, BackupPath(FaqFile)) == Ok(Arr(items))
  {
    var kept := Keep(items, ParseInt(param));
    assert IsJson(Arr(items));
    assert IsJson(Arr(kept)) by {
      forall i | 0 <= i < |kept| ensures IsJson(kept[i]) {
        assert kept[i] in items;
      }
    }
    WriteJson(files, FaqFile, Arr(kept));
  }

  lemma NewStepJson(body: Value, now: nat, order: nat)
    requires IsJson(body)
    ensures IsJson(NewStep(body, now, order))
  {
    SpreadJson(body);
  }

  /** The whole-document PUTs store the body's properties with `updatedAt`
      set to the time of the request. */
  lemma ReplaceStamped(files: map<string, Entry>, path: string, body: Value, stamp: string)
    requires IsJson(body) && Writable(files, path)
    ensures Replace(files, path, Stamped(body, stamp)).reply == Done
    ensures Read(Replace(files, path, Stamped(body, stamp)).files, path) == Ok(Stamped(body, stamp))
  {
    StampedJson(body, stamp);
    WriteJson(files, path, Stamped(body, stamp));
  }

  /** `PUT /api/work` stores the body unchanged. */
  lemma ReplaceWork(files: map<string, Entry>, body: Value)
    requires IsJson(body) && Writable(files, WorkFile)
    ensures Replace(files, WorkFile, body).reply == Done
    ensures Read(Replace(files, WorkFile, body).files, WorkFile) == Ok(body)
  {
    WriteJson(files, WorkFile, body);
  }

  /** Writing JSON steps into a JSON process document stores them with
      the stamp. */
  lemma StoreStepsStores(files: map<string, Entry>, m: map<string, Value>, steps: seq<Value>, stamp: string, reply: Reply)
    requires IsJson(Obj(m)) && Writable(files, ProcessFile)
    requires forall i :: 0 <= i < |steps| ==> IsJson(steps[i])
    ensures StoreSteps(files, m, steps, stamp, reply).reply == reply
    ensures Read(StoreSteps(files, m, steps, stamp, reply).files, ProcessFile)
              == Ok(Obj(m["processSteps" := Arr(steps)]["updatedAt" := Str(stamp)]))
  {
    assert IsJson(Arr(steps));
    WriteJson(files, ProcessFile, Obj(m["processSteps" := Arr(steps)]["updatedAt" := Str(stamp)]));
  }

  /** A new step is numbered one past the current step count, or 1 when
      there are no steps, and is appended; the document is stamped. */
  lemma AddStepNumbers(files: map<string, Entry>, body: Value, now: nat, stamp: string, m: map<string, Value>, steps: seq<Value>)
    requires ValidFiles(files) && IsJson(body) && Writable(files, ProcessFile)
    requires ProcessFile in files && files[ProcessFile] == JsonText(Obj(m))
    requires StepList(m) == Arr(steps)
    ensures AddStep(files, body, now, stamp).reply == StepAdded(NewStep(body, now, |steps| + 1))
    ensures Read(AddStep(files, body, now, stamp).files, ProcessFile)
              == Ok(Obj(m["processSteps" := Arr(steps + [NewStep(body, now, |steps| + 1)])]["updatedAt" := Str(stamp)]))
  {
    var step := NewStep(body, now, |steps| + 1);
    AddStepIsStore(files, body, now, stamp, m, steps);
    NewStepJson(body, now, |steps| + 1);
    assert IsJson(Obj(m));
    StepListJson(m, steps);
    AppendJson(steps, step);
    StoreStepsStores(files, m, steps + [step], stamp, StepAdded(step));
  }

  lemma StepListJson(m: map<string, Value>, steps: seq<Value>)
    requires IsJson(Obj(m)) && StepList(m) == Arr(steps)
    ensures forall i :: 0 <= i < |steps| ==> IsJson(steps[i])
  {
    if "processSteps" in m && Truthy(m["processSteps"]) {
      assert IsJson(m["processSteps"]);
    }
  }

  lemma AppendJson(items: seq<Value>, x: Value)
    requires forall i :: 0 <= i < |items| ==> IsJson(items[i])
    requires IsJson(x)
    ensures forall i :: 0 <= i < |items + [x]| ==> IsJson((items + [x])[i])
  {
    forall i | 0 <= i < |items + [x]| ensures IsJson((items + [x])[i]) {
      if i < |items| { assert (items + [x])[i] == items[i]; }
    }
  }

  lemma AddStepIsStore(files: map<string, Entry>, body: Value, now: nat, stamp: string, m: map<string, Value>, steps: seq<Value>)
    requires ProcessFile in files && files[ProcessFile] == JsonText(Obj(m))
    requires StepList(m) == Arr(steps)
    ensures AddStep(files, body, now, stamp)
              == StoreSteps(files, m, steps + [NewStep(body, now, |steps| + 1)], stamp, StepAdded(NewStep(body, now, |steps| + 1)))
  {
  }

  /** An unknown step id is answered with 404 and nothing is written. */
  lemma UpdateUnknownStep(files: map<string, Entry>, body: Value, param: string, stamp: string, m: map<string, Value>, steps: seq<Value>)
    requires ProcessFile in files && files[ProcessFile] == JsonText(Obj(m))
    requires "processSteps" in m && m["processSteps"] == Arr(steps)
    requires Null !in steps
    requires forall j :: 0 <= j < |steps| ==> !SameId(steps[j], ParseInt(param))
    ensures UpdateStep(files, body, param, stamp) == Served(NoStep, files)
  {
  }

  /** A known step id replaces the first step with that id by the body with
      the id, leaves every other step as it was and stamps the document. */
  lemma UpdateKnownStep(files: map<string, Entry>, body: Value, param: string, stamp: string, m: map<string, Value>,
                        steps: seq<Value>, i: nat)
    requires ValidFiles(files) && IsJson(body) && Writable(files, ProcessFile)
    requires ProcessFile in files && files[ProcessFile] == JsonText(Obj(m))
    requires "processSteps" in m && m["processSteps"] == Arr(steps)
    requires i < |steps| && SameId(steps[i], ParseInt(param)) && NoneBefore(steps, ParseInt(param), i)
    ensures UpdateStep(files, body, param, stamp).reply == Done
    ensures Read(UpdateStep(files, body, param, stamp).files, ProcessFile)
              == Ok(Obj(m["processSteps" := Arr(steps[i := WithId(body, ParseInt(param).value)])]["updatedAt" := Str(stamp)]))
  {
    UpdateStepIsStore(files, body, param, stamp, m, steps, i);
    var step := WithId(body, ParseInt(param).value);
    WithIdJson(body, ParseInt(param).value);
    assert IsJson(Obj(m));
    assert IsJson(m["processSteps"]);
    var updated := steps[i := step];
    assert forall j :: 0 <= j < |updated| ==> IsJson(updated[j]) by {
      forall j | 0 <= j < |updated| ensures IsJson(updated[j]) {
        if j != i { assert updated[j] == steps[j]; }
      }
    }
    StoreStepsStores(files, m, updated, stamp, Done);
  }

  lemma UpdateStepIsStore(files: map<string, Entry>, body: Value, param: string, stamp: string, m: map<string, Value>,
                          steps: seq<Value>, i: nat)
    requires ProcessFile in files && files[ProcessFile] == JsonText(Obj(m))
    requires "processSteps" in m && m["processSteps"] == Arr(steps)
    requires i < |steps| && SameId(steps[i], ParseInt(param)) && NoneBefore(steps, ParseInt(param), i)
    ensures UpdateStep(files, body, param, stamp)
              == StoreSteps(files, m, steps[i := WithId(body, ParseInt(param).value)], stamp, Done)
  {
    FindStepFirst(steps, ParseInt(param), i);
    assert Truthy(Obj(m));
  }

  /** Deleting a step keeps the steps without the id, with no not-found
      check, and stamps the document. */
  lemma RemoveStepFilters(files: map<string, Entry>, param: string, stamp: string, m: map<string, Value>, steps: seq<Value>)
    requires ValidFiles(files) && Writable(files, ProcessFile)
    requires ProcessFile in files && files[ProcessFile] == JsonText(Obj(m))
    requires "processSteps" in m && m["processSteps"] == Arr(steps) && Null !in steps
    ensures RemoveStep(files, param, stamp).reply == Done
    ensures Read(RemoveStep(files, param, stamp).files, ProcessFile)
              == Ok(Obj(m["processSteps" := Arr(Keep(steps, ParseInt(param)))]["updatedAt" := Str(stamp)]))
  {
    var kept := Keep(steps, ParseInt(param));
    assert IsJson(Obj(m));
    assert IsJson(m["processSteps"]);
    assert forall i :: 0 <= i < |kept| ==> IsJson(kept[i]) by {
      forall i | 0 <= i < |kept| ensures IsJson(kept[i]) {
        assert kept[i] in steps;
      }
    }
    StoreStepsStores(files, m, kept, stamp, Done);
  }

  /** No step handler writes when the process document is falsy. */
  lemma FalsyProcessNotFound(files: map<string, Entry>, body: Value, now: nat, param: string, stamp: string, v: Value)
    requires ProcessFile in files && files[ProcessFile] == JsonText(v) && !Truthy(v)
    ensures AddStep(files, body, now, stamp) == Served(NoProcess, files)
    ensures UpdateStep(files, body, param, stamp) == Served(NoProcess, files)
    ensures RemoveStep(files, param, stamp) == Served(NoProcess, files)
  {
  }

  // ---- The server ----

  /** The legacy server over its data directory. Every handler reads the
      document it needs, changes a local copy and writes it back; a failed
      read, a throwing array operation or a failed write ends in the bare
      500. */
  class ContentServer {
    const disk: Disk

    constructor (disk: Disk)
      ensures this.disk == disk
    {
      this.disk := disk;
    }

    /** The GET handlers: `res.json(data || fallback)`. */
    method GetDocument(path: string, fallback: Value) returns (r: Reply)
      requires disk.Valid()
      ensures r == Fetch(disk.files, path, fallback)
    {
      var data := disk.SafeRead(path);
      if data.Err? {
        return ServerError;
      }
      r := Reply(200, if Truthy(data.value) then data.value else fallback);
    }

    /** `PUT /api/work`. */
    method PutWork(body: Value) returns (r: Reply)
      requires disk.Valid()
      modifies disk
      ensures disk.Valid()
      ensures Served(r, disk.files) == Replace(old(disk.files), WorkFile, body)
    {
      var saved := disk.SafeWrite(WorkFile, body);
      r := if saved.Ok? then Done else ServerError;
    }

    /** `PUT /api/process/:id`, `/api/story/:id`, `/api/locations/:id` and
        `/api/contact/:id`. */
    method PutDocument(path: string, body: Value, stamp: string) returns (r: Reply)
      requires disk.Valid()
      modifies disk
      ensures disk.Valid()
      ensures Served(r, disk.files) == Replace(old(disk.files), path, Stamped(body, stamp))
    {
      var updated := Obj(Spread(body)["updatedAt" := Str(stamp)]);
      var saved := disk.SafeWrite(path, updated);
      r := if saved.Ok? then Done else ServerError;
    }

    /** `POST /api/work`. */
    method PostWork(body: Value, now: nat) returns (r: Reply)
      requires disk.Valid()
      modifies disk
      ensures disk.Valid()
      ensures Served(r, disk.files) == AddProject(old(disk.files), body, now)
    {
      var read := disk.SafeRead(WorkFile);
      if read.Err? {
        return ServerError;
      }
      var data := if Truthy(read.value) then read.value else NoProjects;
      var projects := Prop(data, "projects");
      if !(projects.Some? && projects.value.Arr?) {
        return ServerError;
      }
      var item := Obj(Spread(body)["id" := Num(now as real)]);
      data := Obj(data.fields["projects" := Arr(projects.value.items + [item])]);
      var saved := disk.SafeWrite(WorkFile, data);
      r := if saved.Ok? then Reply(200, item) else ServerError;
    }

    /** `DELETE /api/work/:id`. */
    method DeleteWork(idParam: string) returns (r: Reply)
      requires disk.Valid()
      modifies disk
      ensures disk.Valid()
      ensures Served(r, disk.files) == RemoveProject(old(disk.files), idParam)
    {
      var read := disk.SafeRead(WorkFile);
      if read.Err? {
        return ServerError;
      }
      var data := read.value;
      var projects := Prop(data, "projects");
      if Truthy(data) && projects.Some? && Truthy(projects.value) {
        var kept := KeepOthers(projects.value, ParseInt(idParam));
        if kept.None? {
          return ServerError;
        }
        data := Obj(data.fields["projects" := Arr(kept.value)]);
        var saved := disk.SafeWrite(WorkFile, data);
        if saved.Err? {
          return ServerError;
        }
      }
      r := Done;
    }

    /** `POST /api/faq`. */
    method PostFaq(body: Value, now: nat) returns (r: Reply)
      requires disk.Valid()
      modifies disk
      ensures disk.Valid()
      ensures Served(r, disk.files) == AddFaqItem(old(disk.files), body, now)
    {
      var read := disk.SafeRead(FaqFile);
      if read.Err? {
        return ServerError;
      }
      var data := if Truthy(read.value) then read.value else Arr([]);
      if !data.Arr? {
        return ServerError;
      }
      var item := Obj(Spread(body)["id" := Num(now as real)]);
      var saved := disk.SafeWrite(FaqFile, Arr(data.items + [item]));
      r := if saved.Ok? then Reply(200, item) else ServerError;
    }

    /** `DELETE /api/faq/:id`. */
    method DeleteFaq(idParam: string) returns (r: Reply)
      requires disk.Valid()
      modifies disk
      ensures disk.Valid()
      ensures Served(r, disk.files) == RemoveFaqItem(old(disk.files), idParam)
    {
      var read := disk.SafeRead(FaqFile);
      if read.Err? {
        return ServerError;
      }
      var data := if Truthy(read.value) then read.value else Arr([]);
      var kept := KeepOthers(data, ParseInt(idParam));
      if kept.None? {
        return ServerError;
      }
      var saved := disk.SafeWrite(FaqFile, Arr(kept.value));
      r := if saved.Ok? then Done else ServerError;
    }

    /** `POST /api/process/steps`. */
    method PostStep(body: Value, now: nat, stamp: string) returns (r: Reply)
      requires disk.Valid()
      modifies disk
      ensures disk.Valid()
      ensures Served(r, disk.files) == AddStep(old(disk.files), body, now, stamp)
    {
      var read := disk.SafeRead(ProcessFile);
      if read.Err? {
        return ServerError;
      }
      var data := read.value;
      if !Truthy(data) {
        return NoProcess;
      }
      if data.Obj? {
        var list := StepList(data.fields);
        if !list.Arr? {
          return ServerError;
        }
        var step := NewStep(body, now, |list.items| + 1);
        data := Obj(data.fields["processSteps" := Arr(list.items + [step])]["updatedAt" := Str(stamp)]);
        var saved := disk.SafeWrite(ProcessFile, data);
        r := if saved.Ok? then StepAdded(step) else ServerError;
      } else if data.Arr? {
        var saved := disk.SafeWrite(ProcessFile, data);
        r := if saved.Ok? then StepAdded(NewStep(body, now, 1)) else ServerError;
      } else {
        r := ServerError;
      }
    }

    /** `PUT /api/process/steps/:stepId`. */
    method PutStep(body: Value, stepParam: string, stamp: string) returns (r: Reply)
      requires disk.Valid()
      modifies disk
      ensures disk.Valid()
      ensures Served(r, disk.files) == UpdateStep(old(disk.files), body, stepParam, stamp)
    {
      var read := disk.SafeRead(ProcessFile);
      if read.Err? {
        return ServerError;
      }
      var data := read.value;
      if !Truthy(data) {
        return NoProcess;
      }
      var steps := Prop(data, "processSteps");
      if steps.None? || !steps.value.Arr? {
        return ServerError;
      }
      var id := ParseInt(stepParam);
      var found := FindStep(steps.value.items, id);
      if found.Throws? {
        return ServerError;
      }
      if found.Missing? {
        return NoStep;
      }
      var updated := steps.value.items[found.index := Obj(Spread(body)["id" := Num(id.value as real)])];
      data := Obj(data.fields["processSteps" := Arr(updated)]["updatedAt" := Str(stamp)]);
      var saved := disk.SafeWrite(ProcessFile, data);
      r := if saved.Ok? then Done else ServerError;
    }

    /** `DELETE /api/process/steps/:stepId`. */
    method DeleteStep(stepParam: string, stamp: string) returns (r: Reply)
      requires disk.Valid()
      modifies disk
      ensures disk.Valid()
      ensures Served(r, disk.files) == RemoveStep(old(disk.files), stepParam, stamp)
    {
      var read := disk.SafeRead(ProcessFile);
      if read.Err? {
        return ServerError;
      }
      var data := read.value;
      if !Truthy(data) {
        return NoProcess;
      }
      var steps := Prop(data, "processSteps");
      if steps.None? {
        return ServerError;
      }
      var kept := KeepOthers(steps.value, ParseInt(stepParam));
      if kept.None? {
        return ServerError;
      }
      data := Obj(data.fields["processSteps" := Arr(kept.value)]["updatedAt" := Str(stamp)]);
      var saved := disk.SafeWrite(ProcessFile, data);
      r := if saved.Ok? then Done else ServerError;
    }
  }
}
