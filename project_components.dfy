/**
 * The components of one project: the REST resources for listing, creating and deleting them,
 * and the client-side cache of each project's components by id that those calls keep up to date.
 */
module ProjectComponents {
  import opened Wrappers
  import opened Text
  import Json
  import Query

  /** A component as the server returns it and as the library hands it out. */
  datatype ProjectComponent = ProjectComponent(id: string, name: string)

  /** One project's cached components, by id (`JiraEntityDictionary`). */
  type ComponentMap = map<string, ProjectComponent>

  /** The component cache: project key to that project's components. */
  type Cache = map<string, ComponentMap>

  /** Every cached component sits under its own id. */
  ghost predicate Coherent(cache: Cache)
  {
    forall p :: p in cache ==> forall id :: id in cache[p] ==> cache[p][id].id == id
  }

  /** The components by id; of several with one id, the first listed is kept. */
  function EntityDictionary(cs: seq<ProjectComponent>): (m: ComponentMap)
    ensures forall id :: id in m ==> m[id].id == id
    ensures forall i :: 0 <= i < |cs| ==> cs[i].id in m
  {
    if cs == [] then map[]
    else
      var rest := EntityDictionary(cs[1..]);
      assert forall i :: 1 <= i < |cs| ==> cs[i] == cs[1..][i - 1];
      rest[cs[0].id := cs[0]]
  }

  /** An id maps to the first listed component with that id. */
  lemma {:induction false} EntityDictionaryFirstWins(cs: seq<ProjectComponent>, i: nat)
    requires i < |cs|
    requires forall j :: 0 <= j < i ==> cs[j].id != cs[i].id
    ensures EntityDictionary(cs)[cs[i].id] == cs[i]
  {
    if i > 0 {
      EntityDictionaryFirstWins(cs[1..], i - 1);
    }
  }

  /** Every component in the dictionary was listed. */
  lemma {:induction false} EntityDictionaryOnlyListed(cs: seq<ProjectComponent>, id: string)
    requires id in EntityDictionary(cs)
    ensures EntityDictionary(cs)[id] in cs
  {
    if cs[0].id != id {
      EntityDictionaryOnlyListed(cs[1..], id);
    }
  }

  /** After listing: the project's entry is added when missing; an existing one is not replaced. */
  function CacheAfterGet(cache: Cache, key: string, listed: seq<ProjectComponent>): (r: Cache)
    ensures r.Keys == cache.Keys + {key}
    ensures key in cache ==> r == cache
    ensures key !in cache ==> r[key] == EntityDictionary(listed)
    ensures forall p :: p in cache ==> r[p] == cache[p]
  {
    if key in cache then cache else cache[key := EntityDictionary(listed)]
  }

  /**
   * After creating `c`: a missing project entry becomes one holding exactly `c`; an existing one
   * gains `c` only when its id is not yet there; other projects are untouched.
   */
  function CacheAfterAdd(cache: Cache, key: string, c: ProjectComponent): (r: Cache)
    ensures r.Keys == cache.Keys + {key}
    ensures key !in cache ==> r[key] == map[c.id := c]
    ensures key in cache && c.id in cache[key] ==> r == cache
    ensures key in cache && c.id !in cache[key] ==> r[key] == cache[key][c.id := c]
    ensures forall p :: p in cache && p != key ==> r[p] == cache[p]
  {
    if key !in cache then cache[key := map[c.id := c]]
    else if c.id in cache[key] then cache
    else cache[key := cache[key][c.id := c]]
  }

  /** After deleting `id`: removed from the project's entry when both exist, otherwise no change. */
  function CacheAfterDelete(cache: Cache, key: string, id: string): (r: Cache)
    ensures r.Keys == cache.Keys
    ensures !(key in cache && id in cache[key]) ==> r == cache
    ensures key in cache && id in cache[key] ==> r[key] == cache[key] - {id}
    ensures forall p :: p in cache && p != key ==> r[p] == cache[p]
  {
    if key in cache && id in cache[key] then cache[key := cache[key] - {id}] else cache
  }

  /** Every cache update keeps each component under its own id. */
  lemma UpdatesKeepCoherent(cache: Cache, key: string, listed: seq<ProjectComponent>, c: ProjectComponent, id: string)
    requires Coherent(cache)
    ensures Coherent(CacheAfterGet(cache, key, listed))
    ensures Coherent(CacheAfterAdd(cache, key, c))
    ensures Coherent(CacheAfterDelete(cache, key, id))
  {
  }

  /** Listing again, whatever the server says, does not change a cached entry. */
  lemma GetIsIdempotent(cache: Cache, key: string, first: seq<ProjectComponent>, second: seq<ProjectComponent>)
    ensures CacheAfterGet(CacheAfterGet(cache, key, first), key, second) == CacheAfterGet(cache, key, first)
  {
  }

  /** Recording the same created component twice is recording it once. */
  lemma AddIsIdempotent(cache: Cache, key: string, c: ProjectComponent)
    ensures CacheAfterAdd(CacheAfterAdd(cache, key, c), key, c) == CacheAfterAdd(cache, key, c)
  {
  }

  /** Deleting a component just created leaves its project's entry as before (empty if new). */
  lemma AddThenDelete(cache: Cache, key: string, c: ProjectComponent)
    requires key in cache ==> c.id !in cache[key]
    ensures var r := CacheAfterDelete(CacheAfterAdd(cache, key, c), key, c.id);
      r.Keys == cache.Keys + {key}
      && r[key] == (if key in cache then cache[key] else map[])
      && forall p :: p in cache && p != key ==> r[p] == cache[p]
  {
    if key in cache {
      assert cache[key][c.id := c] - {c.id} == cache[key];
    } else {
      assert map[c.id := c] - {c.id} == map[];
    }
  }

  /** `rest/api/2/project/{key}/components`. */
  function ListResource(projectKey: string): string
  {
    "rest/api/2/project/" + projectKey + "/components"
  }

  const CreateComponentResource := "/rest/api/2/component"

  /** The creation request body: the serialized creation info with `project` set to the key. */
  function CreationBody(info: seq<(string, Json.Json)>, projectKey: string): (body: seq<(string, Json.Json)>)
    ensures Json.Member(body, "project") == Some(Json.JString(projectKey))
  {
    Json.SetMember(info, "project", Json.JString(projectKey))
  }

  /** The body keeps every other member of the creation info as serialized. */
  lemma CreationBodyKeepsInfo(info: seq<(string, Json.Json)>, projectKey: string, other: string)
    requires other != "project"
    ensures Json.Member(CreationBody(info, projectKey), other) == Json.Member(info, other)
  {
    Json.SetMemberKeepsOthers(info, "project", Json.JString(projectKey), other);
  }

  /** The body keeps the creation info's member order; a `project` member it lacked goes last. */
  lemma CreationBodyKeys(info: seq<(string, Json.Json)>, projectKey: string)
    ensures Json.Keys(CreationBody(info, projectKey))
         == if "project" in Json.Keys(info) then Json.Keys(info) else Json.Keys(info) + ["project"]
  {
    Json.SetMemberKeys(info, "project", Json.JString(projectKey));
  }

  function ComponentPath(id: string): string
  {
    "/rest/api/2/component/" + id
  }

  /**
   * The DELETE resource: the component's path and a `?`, then `moveIssuesTo=` and the escaped
   * replacement only when one is given and non-empty.
   */
  function DeleteResource(id: string, moveIssuesTo: Option<string>, escape: string -> string): string
  {
    ComponentPath(id) + "?"
    + (if moveIssuesTo.Some? && moveIssuesTo.value != "" then "moveIssuesTo=" + escape(moveIssuesTo.value) else "")
  }

  /** The query parameters a DELETE resource carries. */
  function DeleteParameters(moveIssuesTo: Option<string>, escape: string -> string): (ps: seq<Query.Parameter>)
    ensures |ps| <= 1
    ensures ps == [] <==> moveIssuesTo.None? || moveIssuesTo.value == ""
  {
    if moveIssuesTo.Some? && moveIssuesTo.value != "" then [("moveIssuesTo", escape(moveIssuesTo.value))] else []
  }

  /** The DELETE resource parses back into the component's path and exactly those parameters. */
  lemma DeleteResourceParameters(id: string, moveIssuesTo: Option<string>, escape: string -> string)
    requires '?' !in id
    requires moveIssuesTo.Some? ==> '&' !in escape(moveIssuesTo.value)
    ensures Query.ParseResource(DeleteResource(id, moveIssuesTo, escape))
         == (ComponentPath(id), DeleteParameters(moveIssuesTo, escape))
  {
    var ps := DeleteParameters(moveIssuesTo, escape);
    assert DeleteResource(id, moveIssuesTo, escape) == Query.Resource(ComponentPath(id), ps);
    assert '?' !in "/rest/api/2/component/";
    Query.ParseResourceRoundTrip(ComponentPath(id), ps);
  }

  /** Thrown by `First` when no listed component has the name. */
  datatype ComponentError = NoComponentNamed(name: string)

  /** The first listed component whose name equals `name` up to case. */
  function FindByName(listed: seq<ProjectComponent>, fold: char -> char, name: string): (r: Result<ProjectComponent, ComponentError>)
    ensures r.Failure? <==> forall j :: 0 <= j < |listed| ==> !EqualsIgnoreCase(fold, listed[j].name, name)
    ensures r.Failure? ==> r.error == NoComponentNamed(name)
    ensures r.Success? ==> exists i :: 0 <= i < |listed| && listed[i] == r.value
                                       && EqualsIgnoreCase(fold, r.value.name, name)
                                       && forall j :: 0 <= j < i ==> !EqualsIgnoreCase(fold, listed[j].name, name)
  {
    var k := FirstIndex(listed, (c: ProjectComponent) => EqualsIgnoreCase(fold, c.name, name));
    if k.None? then Failure(NoComponentNamed(name)) else Success(listed[k.value])
  }

  /** The client's cache (only its component part is modelled). */
  class JiraCache {
    var components: Cache

    constructor ()
      ensures components == map[]
    {
      components := map[];
    }
  }

  /** A project's editable components resource (`ProjectComponentsEditableResource`). */
  class ProjectComponentsEditableResource {
    const projectKey: string
    const cache: JiraCache
    const fold: char -> char

    constructor (projectKey: string, cache: JiraCache, fold: char -> char)
      ensures this.projectKey == projectKey && this.cache == cache && this.fold == fold
    {
      this.projectKey, this.cache, this.fold := projectKey, cache, fold;
    }

    /** `GetAsync`: the resource requested; `listed` is the server's answer, returned as is. */
    method GetAsync(listed: seq<ProjectComponent>) returns (resource: string, r: seq<ProjectComponent>)
      modifies cache
      ensures resource == ListResource(projectKey) && r == listed
      ensures cache.components == CacheAfterGet(old(cache.components), projectKey, listed)
      ensures old(Coherent(cache.components)) ==> Coherent(cache.components)
    {
      ghost var before := cache.components;
      resource := ListResource(projectKey);
      if projectKey !in cache.components {
        cache.components := cache.components[projectKey := EntityDictionary(listed)];
      }
      if Coherent(before) {
        UpdatesKeepCoherent(before, projectKey, listed, ProjectComponent("", ""), "");
      }
      r := listed;
    }

    /** `AddAsync`: the request sent; `created` is the server's answer. */
    method AddAsync(info: seq<(string, Json.Json)>, created: ProjectComponent)
      returns (resource: string, body: seq<(string, Json.Json)>, r: ProjectComponent)
      modifies cache
      ensures resource == CreateComponentResource && body == CreationBody(info, projectKey) && r == created
      ensures cache.components == CacheAfterAdd(old(cache.components), projectKey, created)
      ensures old(Coherent(cache.components)) ==> Coherent(cache.components)
    {
      ghost var before := cache.components;
      resource := CreateComponentResource;
      body := CreationBody(info, projectKey);
      if projectKey !in cache.components {
        cache.components := cache.components[projectKey := map[created.id := created]];
      } else if created.id !in cache.components[projectKey] {
        var entry := cache.components[projectKey];
        cache.components := cache.components[projectKey := entry[created.id := created]];
      }
      if Coherent(before) {
        UpdatesKeepCoherent(before, projectKey, [], created, "");
      }
      r := created;
    }

    /**
     * `DeleteAsync`: the DELETE resource for the first listed component with the name; with no
     * such component the call fails before any request and the cache is untouched. The outcome
     * of the request itself is never looked at: the entry is evicted and the call succeeds.
     */
    method DeleteAsync(name: string, moveIssuesTo: Option<string>, listed: seq<ProjectComponent>, escape: string -> string)
      returns (r: Result<string, ComponentError>)
      modifies cache
      ensures FindByName(listed, fold, name).Failure? ==>
                r == Failure(NoComponentNamed(name)) && cache.components == old(cache.components)
      ensures FindByName(listed, fold, name).Success? ==>
                var c := FindByName(listed, fold, name).value;
                r == Success(DeleteResource(c.id, moveIssuesTo, escape))
                && cache.components == CacheAfterDelete(old(cache.components), projectKey, c.id)
      ensures old(Coherent(cache.components)) ==> Coherent(cache.components)
    {
      ghost var before := cache.components;
      var found := FindByName(listed, fold, name);
      if found.Failure? {
        return Failure(found.error);
      }
      var c := found.value;
      r := Success(DeleteResource(c.id, moveIssuesTo, escape));
      if projectKey in cache.components && c.id in cache.components[projectKey] {
        var entry := cache.components[projectKey];
        cache.components := cache.components[projectKey := entry - {c.id}];
      }
      if Coherent(before) {
        UpdatesKeepCoherent(before, projectKey, [], c, c.id);
      }
    }
  }
}
