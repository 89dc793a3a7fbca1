/**
 * The project store: the `projects` list, the `currentProject` slot, the
 * payloads it sends, and the two-phase create/update flow that uploads one
 * image per file before the project record is finalised.
 */
module Projects {
  import opened Wrappers
  import opened Js
  import opened Http
  import opened RecordCache

  /** A request the store issues, in the order it issues them. */
  datatype Request =
    | PostProject(body: Object)
    | PostImage(projectId: Id, file: nat)      // file: its position among the chosen files
    | PutProject(projectId: Id, body: Object)

  const CreateKeys: set<string> :=
    {"title", "description", "authorId", "categoryId", "targetAmount", "collectedAmount", "imageIds"}
  const UpdateKeys: set<string> := {"title", "description", "categoryId", "targetAmount", "imageIds"}

  /** The body of `POST /projects`, with the source's defaults for falsy
      fields. */
  function CreateProjectPayload(form: Object): (p: Object)
    ensures p.Keys == CreateKeys
    ensures p["title"] == Get(form, "title") && p["description"] == Get(form, "description")
    ensures p["authorId"] == Get(form, "authorId")
    ensures p["categoryId"] == Or(Get(form, "categoryId"), Null)
    ensures p["targetAmount"] == Or(Get(form, "targetAmount"), Null)
    ensures p["collectedAmount"] == Or(Get(form, "collectedAmount"), Num(0.0))
    ensures p["imageIds"] == Or(Get(form, "imageIds"), IdList([]))
  {
    map[
      "title" := Get(form, "title"),
      "description" := Get(form, "description"),
      "authorId" := Get(form, "authorId"),
      "categoryId" := Or(Get(form, "categoryId"), Null),
      "targetAmount" := Or(Get(form, "targetAmount"), Null),
      "collectedAmount" := Or(Get(form, "collectedAmount"), Num(0.0)),
      "imageIds" := Or(Get(form, "imageIds"), IdList([]))
    ]
  }

  /** The defaults in words: a falsy category or target goes out as `null`,
      a falsy collected amount as 0, and `imageIds` is always an array's
      worth of truthy value. */
  lemma CreatePayloadDefaults(form: Object)
    ensures var p := CreateProjectPayload(form);
            && (Truthy(p["categoryId"]) || p["categoryId"] == Null)
            && (Truthy(p["targetAmount"]) || p["targetAmount"] == Null)
            && (Truthy(p["collectedAmount"]) || p["collectedAmount"] == Num(0.0))
            && Truthy(p["imageIds"])
            && (!Truthy(Get(form, "categoryId")) ==> p["categoryId"] == Null)
  {
  }

  /** The body of `PUT /projects/:id` in `updateProject`: the freshly
      uploaded ids if there are any, else the form's ids or `[]`; the
      author only when it is truthy; never `collectedAmount`. */
  function UpdateProjectPayload(form: Object, uploaded: seq<Id>): (p: Object)
    ensures p.Keys == UpdateKeys + (if Truthy(Get(form, "authorId")) then {"authorId"} else {})
    ensures "collectedAmount" !in p
    ensures |uploaded| > 0 ==> p["imageIds"] == IdList(uploaded)
    ensures |uploaded| == 0 ==> p["imageIds"] == Or(Get(form, "imageIds"), IdList([]))
    ensures "authorId" in p ==> p["authorId"] == Get(form, "authorId")
    ensures p["categoryId"] == Or(Get(form, "categoryId"), Null)
    ensures p["targetAmount"] == Or(Get(form, "targetAmount"), Null)
    ensures p["title"] == Get(form, "title") && p["description"] == Get(form, "description")
  {
    var p := map[
      "title" := Get(form, "title"),
      "description" := Get(form, "description"),
      "categoryId" := Or(Get(form, "categoryId"), Null),
      "targetAmount" := Or(Get(form, "targetAmount"), Null),
      "imageIds" := if |uploaded| > 0 then IdList(uploaded) else Or(Get(form, "imageIds"), IdList([]))
    ];
    if Truthy(Get(form, "authorId")) then p["authorId" := Get(form, "authorId")] else p
  }

  /** The upload requests for the first `n` files of project `projectId`. */
  function ImageRequests(projectId: Id, n: nat): (rs: seq<Request>)
    ensures |rs| == n
    ensures forall i :: 0 <= i < n ==> rs[i] == PostImage(projectId, i)
  {
    seq(n, (i: nat) => PostImage(projectId, i))
  }

  predicate AllUploaded(uploads: seq<Response<Id>>)
  {
    forall i :: 0 <= i < |uploads| ==> uploads[i].Ok?
  }

  /** The ids the server assigned, one per file, in file order. */
  function UploadedIds(uploads: seq<Response<Id>>): (ids: seq<Id>)
    requires AllUploaded(uploads)
    ensures |ids| == |uploads|
    ensures forall i :: 0 <= i < |ids| ==> ids[i] == uploads[i].payload
  {
    seq(|uploads|, i requires 0 <= i < |uploads| && AllUploaded(uploads) => uploads[i].payload)
  }

  /** The upload loop: one `POST /images` per file, awaited in order, each
      returned id pushed onto `imageIds`. The first failed upload ends the
      loop; `attempted` counts the requests issued. */
  method UploadImages(uploads: seq<Response<Id>>) returns (r: Response<seq<Id>>, attempted: nat)
    ensures attempted <= |uploads|
    ensures r.Ok? <==> AllUploaded(uploads)
    ensures r.Ok? ==> attempted == |uploads| && r.payload == UploadedIds(uploads)
    ensures r.Err? ==> 0 < attempted && uploads[attempted - 1] == Err(r.message) &&
                       forall i :: 0 <= i < attempted - 1 ==> uploads[i].Ok?
  {
    var imageIds: seq<Id> := [];
    var i := 0;
    while i < |uploads|
      invariant 0 <= i <= |uploads|
      invariant |imageIds| == i
      invariant forall j :: 0 <= j < i ==> uploads[j].Ok? && imageIds[j] == uploads[j].payload
    {
      var response := uploads[i];
      if response.Err? {
        return Err(response.message), i + 1;
      }
      imageIds := imageIds + [response.payload];
      i := i + 1;
    }
    r, attempted := Ok(imageIds), i;
  }

  class ProjectStore {
    var projects: seq<Record>
    var currentProject: Option<Record>

    constructor ()
      ensures projects == [] && currentProject == None
    {
      projects := [];
      currentProject := None;
    }

    /** `getAllProjects`: the list becomes the server's. */
    method GetAllProjects(response: Response<seq<Record>>) returns (r: Result<seq<Record>>)
      modifies this
      ensures currentProject == old(currentProject)
      ensures response.Ok? ==> r == Success(response.payload) && projects == response.payload
      ensures response.Err? ==> r == Failure(DefaultMessage(Operation.LoadProjects)) && projects == old(projects)
    {
      if response.Ok? {
        projects := response.payload;
        r := Success(response.payload);
      } else {
        r := Failure(DefaultMessage(Operation.LoadProjects));
      }
    }

    /** `getProjectById`: the record becomes `currentProject`; the list stays. */
    method GetProjectById(id: Id, response: Response<Record>) returns (r: Result<Record>)
      modifies this
      ensures projects == old(projects)
      ensures response.Ok? ==> r == Success(response.payload) && currentProject == Some(response.payload)
      ensures response.Err? ==> r == Failure(DefaultMessage(Operation.LoadProject)) &&
                                currentProject == old(currentProject)
    {
      if response.Ok? {
        currentProject := Some(response.payload);
        r := Success(response.payload);
      } else {
        r := Failure(DefaultMessage(Operation.LoadProject));
      }
    }

    /** `createProject(form, files)`. `created` answers the `POST
        /projects`, `uploads` the image uploads (one per file) and
        `finalised` the `PUT` that attaches the image ids. Without files the
        created project is pushed once; with files the list only has the
        entry with the new id replaced, so the new project is never added. */
    method CreateProject(form: Object, created: Response<Record>, uploads: seq<Response<Id>>,
                         finalised: Response<Record>)
      returns (r: Result<Record>, sent: seq<Request>)
      modifies this
      ensures currentProject == old(currentProject)
      ensures |sent| > 0 && sent[0] == PostProject(CreateProjectPayload(form))
      ensures created.Err? ==>
                sent == [PostProject(CreateProjectPayload(form))] &&
                r == Failure(ErrorFor(created.message, Operation.CreateProject)) &&
                projects == old(projects)
      ensures created.Ok? && |uploads| == 0 ==>
                sent == [PostProject(CreateProjectPayload(form))] &&
                r == Success(created.payload) &&
                projects == old(projects) + [created.payload]
      ensures created.Ok? && |uploads| > 0 && !AllUploaded(uploads) ==>
                r.Failure? && projects == old(projects) &&
                exists n :: 0 < n <= |uploads| && uploads[n - 1].Err? &&
                  (forall i :: 0 <= i < n - 1 ==> uploads[i].Ok?) &&
                  r == Failure(ErrorFor(uploads[n - 1].message, Operation.CreateProject)) &&
                  sent == [PostProject(CreateProjectPayload(form))] + ImageRequests(created.payload.id, n)
      ensures created.Ok? && |uploads| > 0 && AllUploaded(uploads) ==>
                var body := CreateProjectPayload(form)["imageIds" := IdList(UploadedIds(uploads))];
                sent == [PostProject(CreateProjectPayload(form))] +
                        ImageRequests(created.payload.id, |uploads|) +
                        [PutProject(created.payload.id, body)] &&
                (finalised.Ok? ==>
                   r == Success(finalised.payload) &&
                   projects == ReplaceFirst(old(projects), created.payload.id, finalised.payload)) &&
                (finalised.Err? ==>
                   r == Failure(ErrorFor(finalised.message, Operation.CreateProject)) &&
                   projects == old(projects))
    {
      var payload := CreateProjectPayload(form);
      sent := [PostProject(payload)];
      if created.Err? {
        return Failure(ErrorFor(created.message, Operation.CreateProject)), sent;
      }
      var project := created.payload;
      if |uploads| > 0 {
        var ids, attempted := UploadImages(uploads);
        sent := sent + ImageRequests(project.id, attempted);
        if ids.Err? {
          return Failure(ErrorFor(ids.message, Operation.CreateProject)), sent;
        }
        if |ids.payload| > 0 {
          var body := payload["imageIds" := IdList(ids.payload)];
          sent := sent + [PutProject(project.id, body)];
          if finalised.Err? {
            return Failure(ErrorFor(finalised.message, Operation.CreateProject)), sent;
          }
          var index := FindIndex(projects, project.id);
          if index != -1 {
            projects := projects[index := finalised.payload];
          }
          return Success(finalised.payload), sent;
        }
      }
      projects := projects + [project];
      r := Success(project);
    }

    /** `updateProject(projectId, form, files)`: uploads every file, then
        sends the update payload and replaces the first entry with that id.
        Every failure throws the fixed message. */
    method UpdateProject(projectId: Id, form: Object, uploads: seq<Response<Id>>, response: Response<Record>)
      returns (r: Result<Record>, sent: seq<Request>)
      modifies this
      ensures currentProject == old(currentProject)
      ensures !AllUploaded(uploads) ==>
                r == Failure(DefaultMessage(Operation.UpdateProject)) && projects == old(projects) &&
                exists n :: 0 < n <= |uploads| && uploads[n - 1].Err? &&
                  (forall i :: 0 <= i < n - 1 ==> uploads[i].Ok?) &&
                  sent == ImageRequests(projectId, n)
      ensures AllUploaded(uploads) ==>
                sent == ImageRequests(projectId, |uploads|) +
                        [PutProject(projectId, UpdateProjectPayload(form, UploadedIds(uploads)))] &&
                (response.Ok? ==>
                   r == Success(response.payload) &&
                   projects == ReplaceFirst(old(projects), projectId, response.payload)) &&
                (response.Err? ==>
                   r == Failure(DefaultMessage(Operation.UpdateProject)) && projects == old(projects))
    {
      var ids, attempted := UploadImages(uploads);
      sent := ImageRequests(projectId, attempted);
      if ids.Err? {
        return Failure(DefaultMessage(Operation.UpdateProject)), sent;
      }
      sent := sent + [PutProject(projectId, UpdateProjectPayload(form, ids.payload))];
      if response.Err? {
        return Failure(DefaultMessage(Operation.UpdateProject)), sent;
      }
      var index := FindIndex(projects, projectId);
      if index != -1 {
        projects := projects[index := response.payload];
      }
      r := Success(response.payload);
    }

    /** `deleteProject`: only the request; neither the list nor
        `currentProject` is touched, so a deleted project stays listed. */
    method DeleteProject(id: Id, response: Response<()>) returns (r: Result<()>)
      ensures response.Ok? ==> r == Success(())
      ensures response.Err? ==> r == Failure(DefaultMessage(Operation.DeleteProject))
    {
      if response.Ok? {
        r := Success(());
      } else {
        r := Failure(DefaultMessage(Operation.DeleteProject));
      }
    }

    /** `verifyProject`: the first list entry with that id and, if it is
        that project, `currentProject` take the server's record. */
    method VerifyProject(projectId: Id, response: Response<Record>) returns (r: Result<Record>)
      modifies this
      ensures response.Ok? ==> r == Success(response.payload) &&
                               projects == ReplaceFirst(old(projects), projectId, response.payload) &&
                               (if old(currentProject).Some? && old(currentProject).value.id == projectId
                                then currentProject == Some(response.payload)
                                else currentProject == old(currentProject))
      ensures response.Err? ==> r == Failure(ErrorFor(response.message, Operation.VerifyProject)) &&
                                projects == old(projects) && currentProject == old(currentProject)
    {
      if response.Ok? {
        var index := FindIndex(projects, projectId);
        if index != -1 {
          projects := projects[index := response.payload];
        }
        if currentProject.Some? && currentProject.value.id == projectId {
          currentProject := Some(response.payload);
        }
        r := Success(response.payload);
      } else {
        r := Failure(ErrorFor(response.message, Operation.VerifyProject));
      }
    }
  }
}
