/** The lab records the orchestrator stores under the state key "labs", and their
    round trip through JSON: `asdict(lab)` on the way in, `Lab(**...)` and
    `Project(**...)` on the way out (appwrite_lab/_orchestrator.py). */
module LabModel {
  import opened Wrappers
  import opened StateStore

  /** A project inside a lab; any field may be None. */
  datatype Project = Project(projectId: Option<string>, projectName: Option<string>, apiKey: Option<string>)

  /** A deployed lab with the fields the orchestrator reads and writes. */
  datatype Lab = Lab(
    name: string,
    version: string,
    url: string,
    adminEmail: string,
    adminPassword: string,
    projects: map<string, Project>)

  function OptToJson(o: Option<string>): Json
  {
    if o.Some? then JStr(o.value) else JNull
  }

  function OptFromJson(j: Json): Option<Option<string>>
  {
    match j
    case JNull => Some(None)
    case JStr(s) => Some(Some(s))
    case _ => None
  }

  const ProjectKeys: set<string> := {"project_id", "project_name", "api_key"}
  const LabKeys: set<string> := {"name", "version", "url", "admin_email", "admin_password", "projects"}

  /** `asdict` of a Project. */
  function ProjectToJson(p: Project): (j: Json)
    ensures j.JObj? && j.fields.Keys == ProjectKeys
  {
    JObj(map["project_id" := OptToJson(p.projectId), "project_name" := OptToJson(p.projectName),
             "api_key" := OptToJson(p.apiKey)])
  }

  /** `Project(**d)`: exactly the three fields, each a string or null. */
  function ProjectFromJson(j: Json): Option<Project>
  {
    if j.JObj? && j.fields.Keys == ProjectKeys then
      var id := OptFromJson(j.fields["project_id"]);
      var name := OptFromJson(j.fields["project_name"]);
      var key := OptFromJson(j.fields["api_key"]);
      if id.Some? && name.Some? && key.Some? then Some(Project(id.value, name.value, key.value)) else None
    else None
  }

  function ProjectsToJson(ps: map<string, Project>): (m: map<string, Json>)
    ensures m.Keys == ps.Keys
  {
    map k | k in ps :: ProjectToJson(ps[k])
  }

  /** `{key: Project(**project) for key, project in projects.items()}`. */
  function ProjectsFromJson(m: map<string, Json>): (r: Option<map<string, Project>>)
    ensures r.Some? ==> r.value.Keys == m.Keys
  {
    if forall k | k in m :: ProjectFromJson(m[k]).Some? then Some(map k | k in m :: ProjectFromJson(m[k]).value)
    else None
  }

  /** `asdict(lab)`, nested projects included. */
  function LabToJson(l: Lab): (j: Json)
    ensures j.JObj? && j.fields.Keys == LabKeys
  {
    JObj(map[
      "name" := JStr(l.name), "version" := JStr(l.version), "url" := JStr(l.url),
      "admin_email" := JStr(l.adminEmail), "admin_password" := JStr(l.adminPassword),
      "projects" := JObj(ProjectsToJson(l.projects))])
  }

  /** `Lab(**{**lab, "projects": _projects})`: None when the stored dictionary does not
      have exactly the fields of a lab (Python raises TypeError). A missing "projects"
      entry reads as no projects, as `lab.get("projects", {})` does, but `Lab(**...)`
      then still needs the other five. */
  function LabFromJson(j: Json): Option<Lab>
  {
    if !j.JObj? then None
    else
      var f := j.fields;
      var projects := if "projects" in f then f["projects"] else JObj(map[]);
      if !projects.JObj? then None
      else
        var ps := ProjectsFromJson(projects.fields);
        if ps.Some? && (f.Keys + {"projects"}) == LabKeys
          && f["name"].JStr? && f["version"].JStr? && f["url"].JStr?
          && f["admin_email"].JStr? && f["admin_password"].JStr?
        then Some(Lab(f["name"].s, f["version"].s, f["url"].s, f["admin_email"].s, f["admin_password"].s, ps.value))
        else None
  }

  lemma ProjectRoundTrip(p: Project)
    ensures ProjectFromJson(ProjectToJson(p)) == Some(p)
  {
  }

  /** The projects dictionary reads back as it was stored. */
  lemma ProjectsRoundTrip(ps: map<string, Project>)
    ensures ProjectsFromJson(ProjectsToJson(ps)) == Some(ps)
  {
    var m := ProjectsToJson(ps);
    forall k | k in m ensures ProjectFromJson(m[k]) == Some(ps[k]) {
      ProjectRoundTrip(ps[k]);
    }
    assert forall k | k in m :: ProjectFromJson(m[k]).Some?;
    var back := map k | k in m :: ProjectFromJson(m[k]).value;
    assert ProjectsFromJson(m) == Some(back);
    forall k | k in ps ensures k in back && back[k] == ps[k] {
      assert ProjectFromJson(m[k]) == Some(ps[k]);
    }
    assert back.Keys == ps.Keys;
    assert back == ps;
  }

  /** What `asdict` stores, `Lab(**...)` reads back unchanged. */
  lemma LabRoundTrip(l: Lab)
    ensures LabFromJson(LabToJson(l)) == Some(l)
  {
    ProjectsRoundTrip(l.projects);
    var f := LabToJson(l).fields;
    assert f["projects"] == JObj(ProjectsToJson(l.projects));
    assert f.Keys + {"projects"} == LabKeys;
  }

  /** Two labs with the same stored form are the same lab. */
  lemma LabToJsonInjective(a: Lab, b: Lab)
    requires LabToJson(a) == LabToJson(b)
    ensures a == b
  {
    LabRoundTrip(a);
    LabRoundTrip(b);
  }

  /** The exception `get_lab` lets escape when the stored data is not shaped as expected. */
  datatype LookupError =
    | LabsNotADict    // `state.get("labs", {})` is not a dict: AttributeError on `.get`
    | LabNotADict     // the stored lab is truthy but not a dict: AttributeError on `.get`
    | LabFieldsWrong  // `Project(**...)` or `Lab(**...)` raises TypeError

  /** `state.get("labs", {})` where a dict is expected: None when the stored value is not one. */
  function StoredLabs(data: map<string, Json>): (r: Option<map<string, Json>>)
    ensures "labs" !in data ==> r == Some(map[])
    ensures "labs" in data ==> (r.Some? <==> data["labs"].JObj?)
    ensures "labs" in data && data["labs"].JObj? ==> r == Some(data["labs"].fields)
  {
    if "labs" !in data then Some(map[])
    else if data["labs"].JObj? then Some(data["labs"].fields)
    else None
  }

  /** `ServiceOrchestrator.get_lab`: None when no truthy record is stored under `name`,
      else the record read back as a Lab. */
  function GetLab(data: map<string, Json>, name: string): (r: Result<Option<Lab>, LookupError>)
    ensures r == Ok(None) <==> StoredLabs(data).Some? && (name !in StoredLabs(data).value || Falsy(StoredLabs(data).value[name]))
    ensures r.Ok? && r.value.Some? ==>
      && StoredLabs(data).Some? && name in StoredLabs(data).value
      && LabFromJson(StoredLabs(data).value[name]) == r.value
    ensures r == Err(LabsNotADict) <==> StoredLabs(data).None?
    ensures StoredLabs(data).Some? ==>
      var labs := StoredLabs(data).value;
      && (r == Err(LabNotADict) <==> name in labs && !Falsy(labs[name]) && !labs[name].JObj?)
      && (r == Err(LabFieldsWrong) <==> name in labs && !Falsy(labs[name]) && labs[name].JObj? && LabFromJson(labs[name]).None?)
      && (r.Ok? && r.value.Some? <==> name in labs && !Falsy(labs[name]) && LabFromJson(labs[name]).Some?)
  {
    match StoredLabs(data)
    case None => Err(LabsNotADict)
    case Some(labs) =>
      if name !in labs || Falsy(labs[name]) then Ok(None)
      else if !labs[name].JObj? then Err(LabNotADict)
      else
        match LabFromJson(labs[name])
        case None => Err(LabFieldsWrong)
        case Some(l) => Ok(Some(l))
  }

  /** After a lab is stored under its name, `get_lab` returns it. */
  lemma GetLabAfterStore(data: map<string, Json>, labs: map<string, Json>, name: string, l: Lab)
    requires StoredLabs(data) == Some(labs)
    ensures GetLab(data["labs" := JObj(labs[name := LabToJson(l)])], name) == Ok(Some(l))
  {
    LabRoundTrip(l);
    assert "name" in LabToJson(l).fields;
  }

  /** Storing one lab leaves what `get_lab` returns for every other name unchanged. */
  lemma GetLabOthersAfterStore(data: map<string, Json>, labs: map<string, Json>, name: string, l: Lab, other: string)
    requires StoredLabs(data) == Some(labs) && other != name
    ensures GetLab(data["labs" := JObj(labs[name := LabToJson(l)])], other) == GetLab(data, other)
  {
  }

  /** After a lab's entry is popped, `get_lab` finds nothing under that name, and every
      other name reads as before. */
  lemma GetLabAfterRemove(data: map<string, Json>, labs: map<string, Json>, name: string, other: string)
    requires StoredLabs(data) == Some(labs)
    ensures GetLab(data["labs" := JObj(labs - {name})], name) == Ok(None)
    ensures other != name ==> GetLab(data["labs" := JObj(labs - {name})], other) == GetLab(data, other)
  {
  }
}
