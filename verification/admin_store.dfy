/** The admin store: one state record shared by every admin page, the
    session gate in front of it, the browser storage it is loaded from and
    written back to, and the operations that change it. Each operation is a
    pure function from the old state to the new one. */
module AdminStore {
  import opened Optional
  import Text
  import Collection
  import Projects
  import AgricultureProjects
  import PropertyRequests
  import MarketTrends

  const AdminEmail := "admin@bunian.com"
  const AdminPassword := "bunian2024"

  /** The storage keys the store reads and writes. */
  const AuthKey := "adminAuth"
  const ProjectsKey := "adminProjects"
  const RequestsKey := "adminRequests"
  const TrendsKey := "adminTrends"
  const AgriKey := "adminAgriProjects"

  /** The browser's key-value storage. */
  type Storage = map<string, string>

  datatype State = State(
    isAuthenticated: bool,
    projects: seq<Projects.Project>,
    requests: seq<PropertyRequests.Request>,
    trends: MarketTrends.Trend,
    agriProjects: seq<AgricultureProjects.AgriProject>)

  /** The state the store starts from when nothing is stored. */
  const Seeded := State(false, Projects.Fixture, PropertyRequests.Fixture,
    MarketTrends.Fixture, AgricultureProjects.Fixture)

  // ---------------------------------------------------------------------
  // Loading and saving

  /** `JSON.stringify` and `JSON.parse` for one stored value; `decode`
      returns `None` where `JSON.parse` throws. */
  datatype Codec<!T> = Codec(encode: T -> string, decode: string -> Option<T>)

  /** The codec reads back what it writes for `x`, and what it writes is not
      the empty string (`JSON.stringify` of an array or object never is). */
  predicate RoundTrips<T(==)>(c: Codec<T>, x: T) {
    c.decode(c.encode(x)) == Some(x) && c.encode(x) != ""
  }

  datatype Codecs = Codecs(
    projects: Codec<seq<Projects.Project>>,
    requests: Codec<seq<PropertyRequests.Request>>,
    trends: Codec<MarketTrends.Trend>,
    agri: Codec<seq<AgricultureProjects.AgriProject>>)

  /** The session flag as the store reads it: exactly the string "true"
      under the auth key. */
  predicate StoredAuth(store: Storage) {
    AuthKey in store && store[AuthKey] == "true"
  }

  /** `saved ? JSON.parse(saved) : fixture`: an absent or empty value (both
      falsy) gives the fixture; any other value is parsed, and a value that
      does not parse is an uncaught error naming the key. */
  function Load<T>(store: Storage, key: string, decode: string -> Option<T>, fixture: T): (r: Result<T, string>)
    ensures r.Failure? <==> key in store && store[key] != "" && decode(store[key]).None?
    ensures r.Failure? ==> r.error == key
    ensures r.Success? ==>
      r.value == (if key in store && store[key] != "" then decode(store[key]).value else fixture)
  {
    if key !in store || store[key] == "" then Success(fixture)
    else
      match decode(store[key])
      case Some(v) => Success(v)
      case None => Failure(key)
  }

  /** The provider's initial state: the session flag, then the four
      collections in declaration order; the first value that does not parse
      aborts the whole initialisation. */
  function Init(store: Storage, c: Codecs): (r: Result<State, string>)
    ensures r.Success? ==> r.value.isAuthenticated == StoredAuth(store)
    ensures r.Failure? ==> r.error in {ProjectsKey, RequestsKey, TrendsKey, AgriKey}
    ensures r.Failure? ==> r.error in store && store[r.error] != ""
    ensures r.Success? <==>
      && Load(store, ProjectsKey, c.projects.decode, Projects.Fixture).Success?
      && Load(store, RequestsKey, c.requests.decode, PropertyRequests.Fixture).Success?
      && Load(store, TrendsKey, c.trends.decode, MarketTrends.Fixture).Success?
      && Load(store, AgriKey, c.agri.decode, AgricultureProjects.Fixture).Success?
    ensures r.Success? ==>
      && r.value.projects == Load(store, ProjectsKey, c.projects.decode, Projects.Fixture).value
      && r.value.requests == Load(store, RequestsKey, c.requests.decode, PropertyRequests.Fixture).value
      && r.value.trends == Load(store, TrendsKey, c.trends.decode, MarketTrends.Fixture).value
      && r.value.agriProjects == Load(store, AgriKey, c.agri.decode, AgricultureProjects.Fixture).value
  {
    var ps := Load(store, ProjectsKey, c.projects.decode, Projects.Fixture);
    var rs := Load(store, RequestsKey, c.requests.decode, PropertyRequests.Fixture);
    var ts := Load(store, TrendsKey, c.trends.decode, MarketTrends.Fixture);
    var ags := Load(store, AgriKey, c.agri.decode, AgricultureProjects.Fixture);
    if ps.Failure? then Failure(ps.error)
    else if rs.Failure? then Failure(rs.error)
    else if ts.Failure? then Failure(ts.error)
    else if ags.Failure? then Failure(ags.error)
    else Success(State(StoredAuth(store), ps.value, rs.value, ts.value, ags.value))
  }

  /** With nothing stored, the store starts signed out with the fixtures. */
  lemma InitEmpty(c: Codecs)
    ensures Init(map[], c) == Success(Seeded)
  {
  }

  /** The effect that writes each collection back after it changes: every
      collection key holds the encoding of the current value; the auth key
      and any other key are left alone. */
  function Save(store: Storage, s: State, c: Codecs): (r: Storage)
    ensures r.Keys == store.Keys + {ProjectsKey, RequestsKey, TrendsKey, AgriKey}
    ensures forall k | k in store && k !in {ProjectsKey, RequestsKey, TrendsKey, AgriKey} :: r[k] == store[k]
    ensures r[ProjectsKey] == c.projects.encode(s.projects)
    ensures r[RequestsKey] == c.requests.encode(s.requests)
    ensures r[TrendsKey] == c.trends.encode(s.trends)
    ensures r[AgriKey] == c.agri.encode(s.agriProjects)
  {
    store[ProjectsKey := c.projects.encode(s.projects)]
      [RequestsKey := c.requests.encode(s.requests)]
      [TrendsKey := c.trends.encode(s.trends)]
      [AgriKey := c.agri.encode(s.agriProjects)]
  }

  /** A state and the storage behind it agree: the collections are written
      out and the session flag is the stored one. */
  datatype Session = Session(state: State, storage: Storage)

  predicate Synced(sess: Session, c: Codecs) {
    && sess.storage == Save(sess.storage, sess.state, c)
    && sess.state.isAuthenticated == StoredAuth(sess.storage)
  }

  /** Every collection of `s` survives its codec's round trip. */
  predicate Encodable(s: State, c: Codecs) {
    && RoundTrips(c.projects, s.projects)
    && RoundTrips(c.requests, s.requests)
    && RoundTrips(c.trends, s.trends)
    && RoundTrips(c.agri, s.agriProjects)
  }

  /** After a change the effects write the new state out. */
  function Commit(sess: Session, s: State, c: Codecs): (r: Session)
    ensures r.state == s
    ensures r.storage.Keys == sess.storage.Keys + {ProjectsKey, RequestsKey, TrendsKey, AgriKey}
    ensures s.isAuthenticated == sess.state.isAuthenticated && Synced(sess, c) ==> Synced(r, c)
  {
    Session(s, Save(sess.storage, s, c))
  }

  /** Reloading the page rebuilds exactly the state that was saved, provided
      the codecs read back what they write. */
  lemma {:induction false} Reload(sess: Session, c: Codecs)
    requires Synced(sess, c)
    requires Encodable(sess.state, c)
    ensures Init(sess.storage, c) == Success(sess.state)
  {
    var st := sess.storage;
    var s := sess.state;
    assert st[ProjectsKey] == c.projects.encode(s.projects);
    assert st[RequestsKey] == c.requests.encode(s.requests);
    assert st[TrendsKey] == c.trends.encode(s.trends);
    assert st[AgriKey] == c.agri.encode(s.agriProjects);
  }

  /** Mounting the provider: initialise, then run the write-back effects. */
  function Mount(store: Storage, c: Codecs): (r: Result<Session, string>)
    ensures r.Success? ==> Synced(r.value, c)
    ensures r.Success? <==> Init(store, c).Success?
    ensures r.Success? ==> r.value.state == Init(store, c).value
    ensures r.Success? ==> r.value.storage == Save(store, r.value.state, c)
  {
    match Init(store, c)
    case Success(s) => Success(Session(s, Save(store, s, c)))
    case Failure(e) => Failure(e)
  }

  /** Reloading right after a mount rebuilds the mounted state, provided the
      codecs read back what the mount wrote. */
  lemma MountThenReload(store: Storage, c: Codecs)
    requires Init(store, c).Success?
    requires Encodable(Init(store, c).value, c)
    ensures Mount(store, c).Success?
    ensures Init(Mount(store, c).value.storage, c) == Success(Mount(store, c).value.state)
  {
    Reload(Mount(store, c).value, c);
  }

  // ---------------------------------------------------------------------
  // The session gate

  datatype LoginResult = LoginResult(ok: bool, session: Session)

  /** `login(email, password)`: succeeds exactly on the fixed credential
      pair, then sets the flag in memory and in storage; otherwise nothing
      changes. */
  function Login(sess: Session, email: string, password: string): (r: LoginResult)
    ensures r.ok <==> email == AdminEmail && password == AdminPassword
    ensures r.ok ==> r.session.state.isAuthenticated && StoredAuth(r.session.storage)
    ensures !r.ok ==> r.session == sess
    ensures r.ok ==> r.session.storage == sess.storage[AuthKey := "true"]
    ensures r.session.state == sess.state.(isAuthenticated := r.session.state.isAuthenticated)
  {
    if email == AdminEmail && password == AdminPassword then
      LoginResult(true, Session(sess.state.(isAuthenticated := true), sess.storage[AuthKey := "true"]))
    else
      LoginResult(false, sess)
  }

  /** `logout()`: clears the flag in memory and removes it from storage,
      whatever it was before. */
  function Logout(sess: Session): (r: Session)
    ensures !r.state.isAuthenticated && !StoredAuth(r.storage)
    ensures r.state == sess.state.(isAuthenticated := false)
    ensures AuthKey !in r.storage
    ensures r.storage == sess.storage - {AuthKey}
  {
    Session(sess.state.(isAuthenticated := false), sess.storage - {AuthKey})
  }

  /** Signing in and out keeps memory and storage in agreement, so a reload
      after a successful login is still signed in and a reload after logout
      is signed out. */
  lemma GateKeepsSync(sess: Session, c: Codecs, email: string, password: string)
    requires Synced(sess, c)
    ensures Synced(Login(sess, email, password).session, c)
    ensures Synced(Logout(sess), c)
  {
    var r := Login(sess, email, password).session;
    if r != sess {
      assert r.storage == Save(r.storage, r.state, c);
    }
    var o := Logout(sess);
    assert o.storage == Save(o.storage, o.state, c);
  }

  /** A reload after a successful login is signed in. */
  lemma LoginSurvivesReload(sess: Session, c: Codecs)
    requires Synced(sess, c)
    requires Encodable(sess.state, c)
    ensures Init(Login(sess, AdminEmail, AdminPassword).session.storage, c).Success?
    ensures Init(Login(sess, AdminEmail, AdminPassword).session.storage, c).value.isAuthenticated
  {
    var r := Login(sess, AdminEmail, AdminPassword).session;
    GateKeepsSync(sess, c, AdminEmail, AdminPassword);
    assert Encodable(r.state, c);
    Reload(r, c);
  }

  /** From a signed-out session no other credential pair signs in. */
  lemma WrongCredentialsStayOut(sess: Session, email: string, password: string)
    requires !sess.state.isAuthenticated
    requires email != AdminEmail || password != AdminPassword
    ensures !Login(sess, email, password).ok
    ensures !Login(sess, email, password).session.state.isAuthenticated
  {
  }

  // ---------------------------------------------------------------------
  // Real-estate projects

  /** `addProject(project)`: the record, with the id `Date.now().toString()`
      written over whatever id it had, appended at the end. */
  function AddProject(s: State, p: Projects.Project, now: nat): (r: State)
    ensures |r.projects| == |s.projects| + 1
    ensures r.projects[..|s.projects|] == s.projects
    ensures r.projects[|s.projects|] == p.(id := Text.Decimal(now))
    ensures r.(projects := s.projects) == s
  {
    s.(projects := s.projects + [p.(id := Text.Decimal(now))])
  }

  /** `updateProject(id, updates)`: every project with that id gets
      `updates` merged over it; the others, the order and the rest of the
      state are unchanged. */
  function UpdateProject(s: State, id: string, u: Projects.ProjectPatch): (r: State)
    ensures |r.projects| == |s.projects|
    ensures forall i :: 0 <= i < |s.projects| && s.projects[i].id == id ==>
      r.projects[i] == Projects.Merge(s.projects[i], u)
    ensures forall i :: 0 <= i < |s.projects| && s.projects[i].id != id ==>
      r.projects[i] == s.projects[i]
    ensures r.(projects := s.projects) == s
  {
    s.(projects := Collection.UpdateById(s.projects, Projects.IdOf, id, Projects.Merger(u)))
  }

  /** `deleteProject(id)`: no project with that id is left, every other one
      stays, and nothing is added. */
  function DeleteProject(s: State, id: string): (r: State)
    ensures forall i :: 0 <= i < |r.projects| ==> r.projects[i].id != id && r.projects[i] in s.projects
    ensures forall p | p in s.projects && p.id != id :: p in r.projects
    ensures r.(projects := s.projects) == s
  {
    s.(projects := Collection.DeleteById(s.projects, Projects.IdOf, id))
  }

  /** Updating or deleting an id no project has changes nothing. */
  lemma ProjectMissingId(s: State, id: string, u: Projects.ProjectPatch)
    requires forall i :: 0 <= i < |s.projects| ==> s.projects[i].id != id
    ensures UpdateProject(s, id, u) == s
    ensures DeleteProject(s, id) == s
  {
    Collection.UpdateMissing(s.projects, Projects.IdOf, id, Projects.Merger(u));
    Collection.DeleteMissing(s.projects, Projects.IdOf, id);
  }

  /** The empty update is the identity, and applying an update twice is
      applying it once. */
  lemma UpdateProjectLaws(s: State, id: string, u: Projects.ProjectPatch)
    ensures UpdateProject(s, id, Projects.NoChanges) == s
    ensures UpdateProject(UpdateProject(s, id, u), id, u) == UpdateProject(s, id, u)
  {
    var ps := s.projects;
    forall i | 0 <= i < |ps| ensures Projects.Merge(ps[i], Projects.NoChanges) == ps[i] {
      Projects.MergeLaws(ps[i], ps[i], Projects.NoChanges);
    }
    forall p | p in ps ensures Projects.Merger(u)(Projects.Merger(u)(p)) == Projects.Merger(u)(p) {
      Projects.MergeLaws(p, p, u);
    }
    Collection.UpdateIdempotent(ps, Projects.IdOf, id, Projects.Merger(u));
  }

  /** Deleting is idempotent, keeps ids unique, and in a
      collection with unique ids removes exactly one record when the id is
      present. */
  lemma DeleteProjectLaws(s: State, id: string)
    ensures DeleteProject(DeleteProject(s, id), id) == DeleteProject(s, id)
    ensures Collection.UniqueIds(s.projects, Projects.IdOf) ==>
      Collection.UniqueIds(DeleteProject(s, id).projects, Projects.IdOf)
    ensures Collection.UniqueIds(s.projects, Projects.IdOf) && !Collection.Fresh(s.projects, Projects.IdOf, id) ==>
      |DeleteProject(s, id).projects| == |s.projects| - 1
  {
    Collection.DeleteIdempotent(s.projects, Projects.IdOf, id);
    if Collection.UniqueIds(s.projects, Projects.IdOf) {
      Collection.DeleteKeepsUnique(s.projects, Projects.IdOf, id);
      if !Collection.Fresh(s.projects, Projects.IdOf, id) {
        Collection.DeletePresentUnique(s.projects, Projects.IdOf, id);
      }
    }
  }

  /** Deleting keeps the surviving projects in their order, duplicates
      included: deleting from a list split in two is deleting from each part
      and joining the results. */
  lemma DeleteProjectKeepsOrder(s: State, id: string, ps: seq<Projects.Project>, qs: seq<Projects.Project>)
    requires s.projects == ps + qs
    ensures DeleteProject(s, id).projects ==
      DeleteProject(s.(projects := ps), id).projects + DeleteProject(s.(projects := qs), id).projects
  {
    Collection.DeleteKeepsOrder(ps, qs, Projects.IdOf, id);
  }

  /** Adding under a fresh id keeps ids unique, and an update that does not
      touch `id` keeps them unique too. */
  lemma ProjectIdsStayUnique(s: State, p: Projects.Project, now: nat, id: string, u: Projects.ProjectPatch)
    requires Collection.UniqueIds(s.projects, Projects.IdOf)
    ensures Collection.Fresh(s.projects, Projects.IdOf, Text.Decimal(now)) ==>
      Collection.UniqueIds(AddProject(s, p, now).projects, Projects.IdOf)
    ensures u.id.None? ==> Collection.UniqueIds(UpdateProject(s, id, u).projects, Projects.IdOf)
  {
    if Collection.Fresh(s.projects, Projects.IdOf, Text.Decimal(now)) {
      Collection.AppendFreshKeepsUnique(s.projects, Projects.IdOf, p.(id := Text.Decimal(now)));
    }
    if u.id.None? {
      Collection.UpdateKeepsIds(s.projects, Projects.IdOf, id, Projects.Merger(u));
    }
  }

  /** Add, then update the new record, then delete it: the state is the one
      before the add, as long as the new id was fresh and the update does not
      change the id. */
  lemma ProjectRoundTrip(s: State, p: Projects.Project, now: nat, u: Projects.ProjectPatch)
    requires Collection.Fresh(s.projects, Projects.IdOf, Text.Decimal(now))
    requires u.id.None?
    ensures DeleteProject(UpdateProject(AddProject(s, p, now), Text.Decimal(now), u), Text.Decimal(now)) == s
  {
    var q := p.(id := Text.Decimal(now));
    Collection.AppendUpdateDelete(s.projects, Projects.IdOf, q, Projects.Merger(u));
  }

  // ---------------------------------------------------------------------
  // Agriculture projects: the same three operations

  function AddAgriProject(s: State, p: AgricultureProjects.AgriProject, now: nat): (r: State)
    ensures |r.agriProjects| == |s.agriProjects| + 1
    ensures r.agriProjects[..|s.agriProjects|] == s.agriProjects
    ensures r.agriProjects[|s.agriProjects|] == p.(id := Text.Decimal(now))
    ensures r.(agriProjects := s.agriProjects) == s
  {
    s.(agriProjects := s.agriProjects + [p.(id := Text.Decimal(now))])
  }

  function UpdateAgriProject(s: State, id: string, u: AgricultureProjects.AgriPatch): (r: State)
    ensures |r.agriProjects| == |s.agriProjects|
    ensures forall i :: 0 <= i < |s.agriProjects| && s.agriProjects[i].id == id ==>
      r.agriProjects[i] == AgricultureProjects.Merge(s.agriProjects[i], u)
    ensures forall i :: 0 <= i < |s.agriProjects| && s.agriProjects[i].id != id ==>
      r.agriProjects[i] == s.agriProjects[i]
    ensures r.(agriProjects := s.agriProjects) == s
  {
    s.(agriProjects := Collection.UpdateById(s.agriProjects, AgricultureProjects.IdOf, id,
      AgricultureProjects.Merger(u)))
  }

  function DeleteAgriProject(s: State, id: string): (r: State)
    ensures forall i :: 0 <= i < |r.agriProjects| ==>
      r.agriProjects[i].id != id && r.agriProjects[i] in s.agriProjects
    ensures forall p | p in s.agriProjects && p.id != id :: p in r.agriProjects
    ensures r.(agriProjects := s.agriProjects) == s
  {
    s.(agriProjects := Collection.DeleteById(s.agriProjects, AgricultureProjects.IdOf, id))
  }

  /** The agriculture operations obey the project laws: a missing id is a
      no-op, the empty update is the identity, updates and deletes are
      idempotent. */
  lemma AgriLaws(s: State, id: string, u: AgricultureProjects.AgriPatch)
    ensures (forall i :: 0 <= i < |s.agriProjects| ==> s.agriProjects[i].id != id) ==>
      UpdateAgriProject(s, id, u) == s && DeleteAgriProject(s, id) == s
    ensures UpdateAgriProject(s, id, AgricultureProjects.NoChanges) == s
    ensures UpdateAgriProject(UpdateAgriProject(s, id, u), id, u) == UpdateAgriProject(s, id, u)
    ensures DeleteAgriProject(DeleteAgriProject(s, id), id) == DeleteAgriProject(s, id)
  {
    var ps := s.agriProjects;
    if forall i :: 0 <= i < |ps| ==> ps[i].id != id {
      Collection.UpdateMissing(ps, AgricultureProjects.IdOf, id, AgricultureProjects.Merger(u));
      Collection.DeleteMissing(ps, AgricultureProjects.IdOf, id);
    }
    forall i | 0 <= i < |ps|
      ensures AgricultureProjects.Merge(ps[i], AgricultureProjects.NoChanges) == ps[i]
    {
      AgricultureProjects.MergeLaws(ps[i], ps[i], AgricultureProjects.NoChanges);
    }
    forall p | p in ps
      ensures AgricultureProjects.Merger(u)(AgricultureProjects.Merger(u)(p)) == AgricultureProjects.Merger(u)(p)
    {
      AgricultureProjects.MergeLaws(p, p, u);
    }
    Collection.UpdateIdempotent(ps, AgricultureProjects.IdOf, id, AgricultureProjects.Merger(u));
    Collection.DeleteIdempotent(ps, AgricultureProjects.IdOf, id);
  }

  /** Deleting an agriculture project is idempotent through `AgriLaws`,
      keeps the survivors in order, keeps ids unique, and removes exactly one
      record when the id is present and ids are unique. */
  lemma AgriDeleteLaws(s: State, id: string, ps: seq<AgricultureProjects.AgriProject>,
                       qs: seq<AgricultureProjects.AgriProject>)
    requires s.agriProjects == ps + qs
    ensures DeleteAgriProject(s, id).agriProjects ==
      DeleteAgriProject(s.(agriProjects := ps), id).agriProjects +
      DeleteAgriProject(s.(agriProjects := qs), id).agriProjects
    ensures Collection.UniqueIds(s.agriProjects, AgricultureProjects.IdOf) ==>
      Collection.UniqueIds(DeleteAgriProject(s, id).agriProjects, AgricultureProjects.IdOf)
    ensures (Collection.UniqueIds(s.agriProjects, AgricultureProjects.IdOf) &&
             !Collection.Fresh(s.agriProjects, AgricultureProjects.IdOf, id)) ==>
      |DeleteAgriProject(s, id).agriProjects| == |s.agriProjects| - 1
  {
    Collection.DeleteKeepsOrder(ps, qs, AgricultureProjects.IdOf, id);
    if Collection.UniqueIds(s.agriProjects, AgricultureProjects.IdOf) {
      Collection.DeleteKeepsUnique(s.agriProjects, AgricultureProjects.IdOf, id);
      if !Collection.Fresh(s.agriProjects, AgricultureProjects.IdOf, id) {
        Collection.DeletePresentUnique(s.agriProjects, AgricultureProjects.IdOf, id);
      }
    }
  }

  /** Adding an agriculture project under a fresh id keeps ids unique, and an
      update that does not touch `id` keeps them unique too. */
  lemma AgriIdsStayUnique(s: State, p: AgricultureProjects.AgriProject, now: nat, id: string,
                          u: AgricultureProjects.AgriPatch)
    requires Collection.UniqueIds(s.agriProjects, AgricultureProjects.IdOf)
    ensures Collection.Fresh(s.agriProjects, AgricultureProjects.IdOf, Text.Decimal(now)) ==>
      Collection.UniqueIds(AddAgriProject(s, p, now).agriProjects, AgricultureProjects.IdOf)
    ensures u.id.None? ==>
      Collection.UniqueIds(UpdateAgriProject(s, id, u).agriProjects, AgricultureProjects.IdOf)
  {
    if Collection.Fresh(s.agriProjects, AgricultureProjects.IdOf, Text.Decimal(now)) {
      Collection.AppendFreshKeepsUnique(s.agriProjects, AgricultureProjects.IdOf, p.(id := Text.Decimal(now)));
    }
    if u.id.None? {
      Collection.UpdateKeepsIds(s.agriProjects, AgricultureProjects.IdOf, id, AgricultureProjects.Merger(u));
    }
  }

  /** The agriculture add-update-delete round trip. */
  lemma AgriRoundTrip(s: State, p: AgricultureProjects.AgriProject, now: nat, u: AgricultureProjects.AgriPatch)
    requires Collection.Fresh(s.agriProjects, AgricultureProjects.IdOf, Text.Decimal(now))
    requires u.id.None?
    ensures DeleteAgriProject(UpdateAgriProject(AddAgriProject(s, p, now), Text.Decimal(now), u), Text.Decimal(now)) == s
  {
    var q := p.(id := Text.Decimal(now));
    Collection.AppendUpdateDelete(s.agriProjects, AgricultureProjects.IdOf, q, AgricultureProjects.Merger(u));
  }

  // ---------------------------------------------------------------------
  // Property requests and market trends

  /** `updateRequestStatus(id, status)`: the requests with that id get the new
      status and keep every other field; the others are unchanged. */
  function UpdateRequestStatus(s: State, id: string, st: PropertyRequests.RequestStatus): (r: State)
    ensures |r.requests| == |s.requests|
    ensures forall i :: 0 <= i < |s.requests| && s.requests[i].id == id ==>
      r.requests[i] == s.requests[i].(status := st)
    ensures forall i :: 0 <= i < |s.requests| && s.requests[i].id != id ==>
      r.requests[i] == s.requests[i]
    ensures r.(requests := s.requests) == s
  {
    s.(requests := Collection.UpdateById(s.requests, PropertyRequests.IdOf, id,
      PropertyRequests.WithStatus(st)))
  }

  /** A missing id is a no-op, setting the same status twice is setting it
      once, and ids stay as they were. */
  lemma RequestStatusLaws(s: State, id: string, st: PropertyRequests.RequestStatus)
    ensures (forall i :: 0 <= i < |s.requests| ==> s.requests[i].id != id) ==> UpdateRequestStatus(s, id, st) == s
    ensures UpdateRequestStatus(UpdateRequestStatus(s, id, st), id, st) == UpdateRequestStatus(s, id, st)
    ensures Collection.Ids(UpdateRequestStatus(s, id, st).requests, PropertyRequests.IdOf) ==
      Collection.Ids(s.requests, PropertyRequests.IdOf)
  {
    var f := PropertyRequests.WithStatus(st);
    if forall i :: 0 <= i < |s.requests| ==> s.requests[i].id != id {
      Collection.UpdateMissing(s.requests, PropertyRequests.IdOf, id, f);
    }
    Collection.UpdateIdempotent(s.requests, PropertyRequests.IdOf, id, f);
    Collection.UpdateKeepsIds(s.requests, PropertyRequests.IdOf, id, f);
  }

  /** `updateTrends(updates)`: the supplied keys overwrite, the others are
      kept, and `lastUpdated` becomes the current month stamp even when the
      caller supplied one. */
  function UpdateTrends(s: State, u: MarketTrends.TrendPatch, stamp: string): (r: State)
    ensures r.trends == MarketTrends.Merge(s.trends, u.(lastUpdated := Some(stamp)))
    ensures r.(trends := s.trends) == s
  {
    s.(trends := MarketTrends.Merge(s.trends, u).(lastUpdated := stamp))
  }

  /** Changing only `mostRequestedType` changes only it and the stamp; the
      caller's own `lastUpdated` never matters; an update repeated with the
      same stamp is the update once. */
  lemma UpdateTrendsLaws(s: State, u: MarketTrends.TrendPatch, x: string, stamp: string, given: Option<string>)
    ensures UpdateTrends(s, MarketTrends.NoChanges.(mostRequestedType := Some(x)), stamp).trends ==
      s.trends.(mostRequestedType := x, lastUpdated := stamp)
    ensures UpdateTrends(s, u.(lastUpdated := given), stamp) == UpdateTrends(s, u, stamp)
    ensures UpdateTrends(UpdateTrends(s, u, stamp), u, stamp) == UpdateTrends(s, u, stamp)
  {
  }

  // ---------------------------------------------------------------------
  // Scenarios on the seeded state

  /** Any `Date.now()` beyond 6 gives an id that none of the fixture projects
      carries. */
  lemma NewIdFresh(now: nat)
    requires now > 6
    ensures Collection.Fresh(Projects.Fixture, Projects.IdOf, Text.Decimal(now))
  {
    Projects.FixtureIds();
    var ids := Collection.Ids(Projects.Fixture, Projects.IdOf);
    forall i | 0 <= i < |Projects.Fixture| ensures Projects.Fixture[i].id != Text.Decimal(now) {
      assert ids[i] == Projects.Fixture[i].id == Text.Decimal(i + 1);
      Text.DecimalInjective(now, i + 1);
    }
  }

  /** Adding to the six seeded projects gives seven with unique ids, the new
      one last; it is among the residential ones exactly when its category
      is residential. */
  lemma AddToSeeded(p: Projects.Project, now: nat)
    requires now > 6
    ensures |AddProject(Seeded, p, now).projects| == 7
    ensures Collection.UniqueIds(AddProject(Seeded, p, now).projects, Projects.IdOf)
    ensures p.(id := Text.Decimal(now)) in Projects.ByCategory(AddProject(Seeded, p, now).projects, Projects.Residential)
      <==> p.category == Projects.Residential
  {
    NewIdFresh(now);
    Projects.FixtureIds();
    ProjectIdsStayUnique(Seeded, p, now, "", Projects.NoChanges);
    var ps := AddProject(Seeded, p, now).projects;
    assert ps[6] == p.(id := Text.Decimal(now));
    assert p.(id := Text.Decimal(now)) in ps;
  }

  /** Marking seeded request "1" handled changes its status and nothing
      else. */
  lemma HandleSeededRequest()
    ensures UpdateRequestStatus(Seeded, "1", PropertyRequests.Handled).requests ==
      [PropertyRequests.Okafor.(status := PropertyRequests.Handled)] + PropertyRequests.Fixture[1..]
  {
    var rs := UpdateRequestStatus(Seeded, "1", PropertyRequests.Handled).requests;
    PropertyRequests.FixtureIds();
    var ids := Collection.Ids(PropertyRequests.Fixture, PropertyRequests.IdOf);
    assert ids[1] != "1" && ids[2] != "1" && ids[3] != "1";
  }
}
