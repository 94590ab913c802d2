/** Resolution of the active chat session in `chat_sessions.rs`: per-scope
    pointers kept in the settings table and repaired lazily when they are
    missing, stale or point at a session that no longer fits. */
module ChatSessions {
  import opened Prelude
  import opened RustStr

  datatype Scope = Global | Workspace

  /** A session row; `None` for the global scope. */
  datatype Session = Session(id: string, name: string, workspace: Option<string>, updatedAt: int)

  datatype Error = NotFound | Invalid | ForeignKey

  datatype Db = Db(settings: map<string, string>, sessions: seq<Session>, workspaces: set<string>)

  const SCOPE_KEY := "chat_scope"
  const WORKSPACE_KEY := "current_workspace_id"
  const POINTER_GLOBAL := "current_session_id_global"
  const POINTER_LEGACY := "current_session_id"

  function PointerWs(ws: string): string {
    "current_session_id_ws:" + ws
  }

  function PointerKey(ws: Option<string>): string {
    match ws
    case None => POINTER_GLOBAL
    case Some(w) => PointerWs(w)
  }

  function ScopeName(scope: Scope): string {
    match scope
    case Global => "global"
    case Workspace => "workspace"
  }

  // ---------- queries ----------

  function GetScope(db: Db): Scope {
    if SCOPE_KEY in db.settings && db.settings[SCOPE_KEY] == "workspace" then Workspace else Global
  }

  function CurrentWorkspace(db: Db): Option<string> {
    if WORKSPACE_KEY in db.settings && db.settings[WORKSPACE_KEY] != "" then Some(db.settings[WORKSPACE_KEY]) else None
  }

  /** The workspace whose session is wanted; `None` is the global scope, also
      when the workspace scope is active without a workspace. */
  function Target(db: Db): Option<string> {
    if GetScope(db).Workspace? then CurrentWorkspace(db) else None
  }

  function Find(sessions: seq<Session>, id: string): Option<Session> {
    if sessions == [] then None
    else if sessions[0].id == id then Some(sessions[0])
    else Find(sessions[1..], id)
  }

  /** The pointer, if it leads to a session of the wanted scope. */
  function ReadPointer(db: Db, ws: Option<string>): Option<string> {
    var key := PointerKey(ws);
    if key !in db.settings || db.settings[key] == "" then None
    else
      var row := Find(db.sessions, db.settings[key]);
      if row.Some? && row.value.workspace == ws then Some(db.settings[key]) else None
  }

  /** The most recently updated session of a scope. */
  function Newest(sessions: seq<Session>, ws: Option<string>): Option<Session> {
    if sessions == [] then None
    else
      var r := Newest(sessions[1..], ws);
      if sessions[0].workspace == ws && (r.None? || r.value.updatedAt <= sessions[0].updatedAt) then Some(sessions[0])
      else r
  }

  // ---------- operations, as functions of the tables ----------

  function Migrated(db: Db): Db {
    if POINTER_GLOBAL in db.settings then db
    else if POINTER_LEGACY in db.settings && db.settings[POINTER_LEGACY] != "" then
      db.(settings := db.settings[POINTER_GLOBAL := db.settings[POINTER_LEGACY]])
    else db
  }

  function Created(db: Db, name: string, ws: Option<string>, id: string, now: int): (Db, Result<string, Error>) {
    if Trim(name) == [] then (db, Err(Invalid))
    else if ws == Some("") then (db, Err(Invalid))
    else if ws.Some? && ws.value !in db.workspaces then (db, Err(ForeignKey))
    else (db.(sessions := db.sessions + [Session(id, name, ws, now)]), Ok(id))
  }

  function Pointed(db: Db, ws: Option<string>, x: string): Db {
    db.(settings := db.settings[PointerKey(ws) := x])
  }

  function Ensured(db0: Db, id: string, now: int): (Db, Result<string, Error>) {
    var db := Migrated(db0);
    var ws := Target(db);
    match ReadPointer(db, ws)
    case Some(current) => (db, Ok(current))
    case None =>
      match Newest(db.sessions, ws)
      case Some(s) => (Pointed(db, ws, s.id), Ok(s.id))
      case None =>
        var (db', r) := Created(db, "Main", ws, id, now);
        (if r.Ok? then Pointed(db', ws, r.value) else db', r)
  }

  function MadeCurrent(db: Db, id: string): (Db, Result<Session, Error>) {
    match Find(db.sessions, id)
    case None => (db, Err(NotFound))
    case Some(s) =>
      (db.(settings := db.settings[SCOPE_KEY := ScopeName(if s.workspace.None? then Global else Workspace)]
                                  [PointerKey(s.workspace) := id]),
       Ok(s))
  }

  // ---------- the store ----------

  class Store {
    var settings: map<string, string>
    var sessions: seq<Session>
    var workspaces: set<string>

    function Snapshot(): Db
      reads this
    {
      Db(settings, sessions, workspaces)
    }

    constructor ()
      ensures Snapshot() == Db(map[], [], {})
    {
      settings, sessions, workspaces := map[], [], {};
    }

    method SetSetting(key: string, value: string)
      modifies this`settings
      ensures settings == old(settings)[key := value]
    {
      settings := settings[key := value];
    }

    method MigrateLegacyPointer()
      modifies this`settings
      ensures Snapshot() == Migrated(old(Snapshot()))
      ensures settings == if POINTER_GLOBAL !in old(settings) && POINTER_LEGACY in old(settings)
                             && old(settings)[POINTER_LEGACY] != ""
                          then old(settings)[POINTER_GLOBAL := old(settings)[POINTER_LEGACY]] else old(settings)
    {
      if POINTER_GLOBAL in settings { return; }
      if POINTER_LEGACY in settings {
        var legacy := settings[POINTER_LEGACY];
        if legacy != "" { SetSetting(POINTER_GLOBAL, legacy); }
      }
    }

    method Create(name: string, ws: Option<string>, id: string, now: int) returns (r: Result<string, Error>)
      modifies this`sessions
      ensures (Snapshot(), r) == Created(old(Snapshot()), name, ws, id, now)
      ensures r == Err(Invalid) <==> (forall c <- name :: IsWhitespace(c)) || ws == Some("")
      ensures r == Err(ForeignKey) <==>
                (exists c <- name :: !IsWhitespace(c)) && ws.Some? && ws.value != "" && ws.value !in workspaces
      ensures r.Ok? ==> r.value == id && sessions == old(sessions) + [Session(id, name, ws, now)]
      ensures r.Err? ==> sessions == old(sessions)
    {
      TrimIsBlank(name);
      if Trim(name) == [] { return Err(Invalid); }
      if ws == Some("") { return Err(Invalid); }
      if ws.Some? && ws.value !in workspaces { return Err(ForeignKey); }
      sessions := sessions + [Session(id, name, ws, now)];
      r := Ok(id);
    }

    /** Picks, or creates, the right session for the active scope. */
    method EnsureCurrent(id: string, now: int) returns (r: Result<string, Error>)
      modifies this
      ensures (Snapshot(), r) == Ensured(old(Snapshot()), id, now)
    {
      MigrateLegacyPointer();
      var ws := Target(Snapshot());
      var key := PointerKey(ws);
      var pointed := ReadPointer(Snapshot(), ws);
      if pointed.Some? { return Ok(pointed.value); }
      var newest := Newest(sessions, ws);
      var chosen;
      if newest.Some? {
        chosen := newest.value.id;
      } else {
        r := Create("Main", ws, id, now);
        if r.Err? { return; }
        chosen := r.value;
      }
      SetSetting(key, chosen);
      r := Ok(chosen);
    }

    method Rename(id: string, name: string, now: int) returns (r: Result<(), Error>)
      modifies this`sessions
      ensures Snapshot() == Next(old(Snapshot()), Event.Rename(id, name, now))
      ensures r == Err(NotFound) <==> forall s <- old(sessions) :: s.id != id
      ensures |sessions| == |old(sessions)| && forall i | 0 <= i < |sessions| ::
                var s := old(sessions)[i];
                sessions[i] == if s.id == id then Session(id, name, s.workspace, now) else s
    {
      var found := exists s <- sessions :: s.id == id;
      sessions := Updated(sessions, id, Some(name), now);
      r := if found then Ok(()) else Err(NotFound);
    }

    method Touch(id: string, now: int)
      modifies this`sessions
      ensures Snapshot() == Next(old(Snapshot()), Event.Touch(id, now))
      ensures |sessions| == |old(sessions)| && forall i | 0 <= i < |sessions| ::
                var s := old(sessions)[i];
                sessions[i] == if s.id == id then Session(id, s.name, s.workspace, now) else s
    {
      sessions := Updated(sessions, id, None, now);
    }

    method Remove(id: string)
      modifies this`sessions
      ensures Snapshot() == Next(old(Snapshot()), DeleteSession(id))
      ensures forall s :: s in sessions <==> s in old(sessions) && s.id != id
    {
      KeepMembers(sessions, (s: Session) => s.id != id, "");
      sessions := Keep(sessions, (s: Session) => s.id != id);
    }

    method SetCurrent(id: string) returns (r: Result<Session, Error>)
      modifies this`settings
      ensures (Snapshot(), r) == MadeCurrent(old(Snapshot()), id)
      ensures r.Err? ==> r.error == NotFound && settings == old(settings) && Find(sessions, id).None?
      ensures r.Ok? ==>
                && Find(sessions, id) == Some(r.value)
                && var scope := if r.value.workspace.None? then "global" else "workspace";
                   settings == old(settings)[SCOPE_KEY := scope][PointerKey(r.value.workspace) := id]
    {
      var s := Find(sessions, id);
      if s.None? { return Err(NotFound); }
      if s.value.workspace.None? {
        SetSetting(SCOPE_KEY, ScopeName(Global));
        SetSetting(POINTER_GLOBAL, id);
      } else {
        SetSetting(SCOPE_KEY, ScopeName(Workspace));
        SetSetting(PointerWs(s.value.workspace.value), id);
      }
      r := Ok(s.value);
    }

    /** Changes the active scope only; its own pointer resolves the rest. */
    method SwitchScope(scope: Scope, id: string, now: int) returns (r: Result<string, Error>)
      modifies this
      ensures (Snapshot(), r) ==
              Ensured(old(Snapshot()).(settings := old(settings)[SCOPE_KEY := ScopeName(scope)]), id, now)
    {
      SetSetting(SCOPE_KEY, ScopeName(scope));
      r := EnsureCurrent(id, now);
    }
  }

  // ---------- keys ----------

  lemma KeysApart(ws: string)
    ensures PointerWs(ws) != SCOPE_KEY && PointerWs(ws) != WORKSPACE_KEY
    ensures PointerWs(ws) != POINTER_GLOBAL && PointerWs(ws) != POINTER_LEGACY
    ensures POINTER_GLOBAL != SCOPE_KEY && POINTER_GLOBAL != WORKSPACE_KEY && SCOPE_KEY != WORKSPACE_KEY
  {
    assert PointerWs(ws)[1] == 'u' && PointerWs(ws)[8] == 's' && PointerWs(ws)[19] == 'w';
    assert SCOPE_KEY[1] == 'h' && WORKSPACE_KEY[8] == 'w' && POINTER_GLOBAL[19] == 'g';
    assert |POINTER_LEGACY| == 18 && |PointerWs(ws)| >= 22;
    assert POINTER_GLOBAL[8] == 's' && |SCOPE_KEY| == 10 && |WORKSPACE_KEY| == 20;
  }

  /** Every scope has a pointer of its own. */
  lemma PointersApart(v: Option<string>, w: Option<string>)
    ensures PointerKey(v) == PointerKey(w) <==> v == w
    ensures PointerKey(v) != SCOPE_KEY && PointerKey(v) != WORKSPACE_KEY
  {
    KeysApart("");
    if v.Some? { KeysApart(v.value); }
    if w.Some? { KeysApart(w.value); }
    if v.Some? && w.Some? && PointerKey(v) == PointerKey(w) {
      assert PointerWs(v.value)[22..] == v.value && PointerWs(w.value)[22..] == w.value;
    }
  }

  // ---------- soundness ----------

  /** What the schema guarantees: ids are unique and not empty, and a scoped
      session's workspace exists and has a name. */
  ghost predicate Sound(db: Db) {
    && (forall i, j | 0 <= i < j < |db.sessions| :: db.sessions[i].id != db.sessions[j].id)
    && (forall s <- db.sessions :: s.id != "" && (s.workspace.Some? ==> s.workspace.value in db.workspaces))
    && "" !in db.workspaces
  }

  ghost predicate Fresh(db: Db, id: string) {
    id != "" && forall s <- db.sessions :: s.id != id
  }

  /** The session with this id exists and belongs to this scope. */
  predicate Fits(db: Db, id: string, ws: Option<string>) {
    var row := Find(db.sessions, id);
    row.Some? && row.value.workspace == ws
  }

  lemma {:induction false} FindFinds(sessions: seq<Session>, s: Session)
    requires s in sessions
    requires forall i, j | 0 <= i < j < |sessions| :: sessions[i].id != sessions[j].id
    ensures Find(sessions, s.id) == Some(s)
  {
    if sessions[0] != s {
      var k :| 0 <= k < |sessions| && sessions[k] == s;
      assert sessions[1..][k - 1] == s;
      FindFinds(sessions[1..], s);
    }
  }

  lemma {:induction false} FindIsThere(sessions: seq<Session>, id: string)
    ensures Find(sessions, id).Some? ==> Find(sessions, id).value in sessions && Find(sessions, id).value.id == id
    ensures Find(sessions, id).None? ==> forall s <- sessions :: s.id != id
  {
    if sessions != [] {
      FindIsThere(sessions[1..], id);
      assert sessions == [sessions[0]] + sessions[1..];
    }
  }

  lemma {:induction false} FindInLonger(sessions: seq<Session>, more: seq<Session>, id: string)
    ensures Find(sessions + more, id) == if Find(sessions, id).Some? then Find(sessions, id) else Find(more, id)
  {
    if sessions == [] {
      assert sessions + more == more;
    } else {
      assert (sessions + more)[1..] == sessions[1..] + more;
      FindInLonger(sessions[1..], more, id);
    }
  }

  /** The chosen session is of the scope and none of it is more recent. */
  lemma {:induction false} NewestIsNewest(sessions: seq<Session>, ws: Option<string>)
    ensures Newest(sessions, ws).Some? ==>
              var n := Newest(sessions, ws).value;
              && n in sessions && n.workspace == ws
              && forall s <- sessions :: s.workspace == ws ==> s.updatedAt <= n.updatedAt
    ensures Newest(sessions, ws).None? ==> forall s <- sessions :: s.workspace != ws
  {
    if sessions != [] {
      NewestIsNewest(sessions[1..], ws);
      assert sessions == [sessions[0]] + sessions[1..];
    }
  }

  lemma MigrationKeepsTarget(db: Db)
    ensures Target(Migrated(db)) == Target(db)
  {
    KeysApart("");
  }

  /** The scope is a workspace exactly when the settings name that scope and a workspace;
      anything else degrades to the global one. */
  lemma TargetIff(db: Db, w: string)
    ensures Target(db) == Some(w) <==>
              && "chat_scope" in db.settings && db.settings["chat_scope"] == "workspace"
              && "current_workspace_id" in db.settings && db.settings["current_workspace_id"] == w && w != ""
  {
  }

  lemma MainIsAName()
    ensures Trim("Main") != []
  {
    assert TrimStart("Main") == "Main" && TrimEnd("Main") == "Main";
  }

  lemma PointingWorks(db: Db, ws: Option<string>, x: string)
    requires x != "" && Fits(db, x, ws)
    ensures ReadPointer(Pointed(db, ws, x), ws) == Some(x) && Target(Pointed(db, ws, x)) == Target(db)
  {
    PointersApart(ws, ws);
  }

  lemma CreationWorks(db: Db, ws: Option<string>, id: string, now: int)
    requires Sound(db) && Fresh(db, id)
    ensures var (db', r) := Created(db, "Main", ws, id, now);
            && Sound(db') && Target(db') == Target(db)
            && (r.Ok? <==> ws.None? || ws.value in db.workspaces)
            && (r.Ok? ==> r.value == id && Fits(db', id, ws))
  {
    MainIsAName();
    FindInLonger(db.sessions, [Session(id, "Main", ws, now)], id);
    FindIsThere(db.sessions, id);
  }

  lemma {:induction false} NewestFits(db: Db, ws: Option<string>)
    requires Sound(db) && Newest(db.sessions, ws).Some?
    ensures var n := Newest(db.sessions, ws).value;
            n.id != "" && Fits(db, n.id, ws) && (ws.Some? ==> ws.value in db.workspaces)
  {
    NewestIsNewest(db.sessions, ws);
    FindFinds(db.sessions, Newest(db.sessions, ws).value);
  }

  /** The session returned lives in the resolved scope, its scope's pointer now
      leads to it, and the scope has not moved. It fails exactly when the active
      workspace does not exist. */
  lemma EnsureIsSound(db: Db, id: string, now: int)
    requires Sound(db) && Fresh(db, id)
    ensures var (db', r) := Ensured(db, id, now);
            && Sound(db') && Target(db') == Target(db)
            && (r.Ok? <==> Target(db).None? || Target(db).value in db.workspaces)
            && (r.Ok? ==> Fits(db', r.value, Target(db)) && ReadPointer(db', Target(db)) == Some(r.value))
  {
    MigrationKeepsTarget(db);
    var m := Migrated(db);
    var ws := Target(db);
    assert Sound(m) && Fresh(m, id);
    if ReadPointer(m, ws).Some? {
      FindIsThere(m.sessions, ReadPointer(m, ws).value);
    } else if Newest(m.sessions, ws).Some? {
      NewestFits(m, ws);
      PointingWorks(m, ws, Newest(m.sessions, ws).value.id);
    } else {
      CreationWorks(m, ws, id, now);
      var (c, r) := Created(m, "Main", ws, id, now);
      if r.Ok? { PointingWorks(c, ws, id); }
    }
  }

  /** Which session it is: the one pointed at; failing that a most recently updated
      one of the scope; and a new "Main" only when the scope has none. */
  lemma EnsureChooses(db: Db, id: string, now: int)
    requires Sound(db) && Fresh(db, id) && Ensured(db, id, now).1.Ok?
    ensures var ws := Target(db);
            var (db', r) := Ensured(db, id, now);
            match ReadPointer(Migrated(db), ws)
            case Some(x) => r.value == x && db' == Migrated(db)
            case None =>
              if exists s <- db.sessions :: s.workspace == ws then
                && db'.sessions == db.sessions
                && exists n <- db.sessions :: n.id == r.value && n.workspace == ws
                     && forall s <- db.sessions :: s.workspace == ws ==> s.updatedAt <= n.updatedAt
              else
                r.value == id && db'.sessions == db.sessions + [Session(id, "Main", ws, now)]
  {
    MigrationKeepsTarget(db);
    NewestIsNewest(db.sessions, Target(db));
  }

  /** A pointer from before scopes existed is honoured while no global one is set. */
  lemma LegacyPointerHonoured(db: Db, x: string, id: string, now: int)
    requires Sound(db) && Target(db).None? && POINTER_GLOBAL !in db.settings
    requires POINTER_LEGACY in db.settings && db.settings[POINTER_LEGACY] == x && x != ""
    ensures Ensured(db, id, now).1 == Ok(x) && Ensured(db, id, now).0.sessions == db.sessions <==> Fits(db, x, None)
  {
    MigrationKeepsTarget(db);
    if !Fits(db, x, None) && Newest(db.sessions, None).Some? {
      NewestFits(db, None);
    }
  }

  /** Resolving again changes nothing and gives the same session. */
  lemma EnsureIsIdempotent(db: Db, id: string, now: int, id2: string, now2: int)
    requires Sound(db) && Fresh(db, id)
    requires Ensured(db, id, now).1.Ok?
    ensures Ensured(Ensured(db, id, now).0, id2, now2) == Ensured(db, id, now)
  {
    EnsureIsSound(db, id, now);
    var (db', r) := Ensured(db, id, now);
    assert Migrated(db') == db' by {
      KeysApart("");
      if Target(db).Some? { KeysApart(Target(db).value); }
    }
  }

  /** Resolving one scope leaves every other setting alone, except that the legacy
      pointer may be adopted as the global one. */
  lemma EnsureTouchesOnePointer(db: Db, id: string, now: int, key: string)
    requires key != PointerKey(Target(db))
    requires key != POINTER_GLOBAL || POINTER_GLOBAL in db.settings
    ensures var s' := Ensured(db, id, now).0.settings;
            (key in s' <==> key in db.settings) && (key in s' ==> s'[key] == db.settings[key])
  {
    MigrationKeepsTarget(db);
  }

  // ---------- after choosing a session ----------

  /** After `set_current` the session is the active one exactly when it is global
      or belongs to the current workspace. */
  lemma SetCurrentTakesEffect(db: Db, x: string, id: string, now: int)
    requires Sound(db) && Fresh(db, id) && MadeCurrent(db, x).1.Ok?
    ensures var (db', s) := MadeCurrent(db, x);
            Ensured(db', id, now).1 == Ok(x) <==> s.value.workspace.None? || s.value.workspace == CurrentWorkspace(db)
  {
    var (db', r) := MadeCurrent(db, x);
    var s := r.value;
    FindIsThere(db.sessions, x);
    PointersApart(s.workspace, s.workspace);
    KeysApart("");
    assert Sound(db');
    assert CurrentWorkspace(db') == CurrentWorkspace(db);
    assert GetScope(db') == if s.workspace.None? then Global else Workspace;
    MigrationKeepsTarget(db');
    EnsureIsSound(db', id, now);
    if s.workspace.None? || s.workspace == CurrentWorkspace(db) {
      assert Target(db') == s.workspace;
      assert ReadPointer(Migrated(db'), s.workspace) == Some(x);
    } else if Ensured(db', id, now).1 == Ok(x) {
      OldRowsStay(db', id, now, x);
    }
  }

  lemma OldRowsStay(db: Db, id: string, now: int, x: string)
    ensures Find(db.sessions, x).Some? ==> Find(Ensured(db, id, now).0.sessions, x) == Find(db.sessions, x)
  {
    FindInLonger(db.sessions, [Session(id, "Main", Target(Migrated(db)), now)], x);
  }

  // ---------- whole runs ----------

  datatype Event =
    | Ensure(id: string, now: int)
    | SetScope(scope: Scope)
    | SetWorkspace(ws: string)
    | NewSession(name: string, workspace: Option<string>, id: string, now: int)
    | Rename(target: string, name: string, now: int)
    | Touch(target: string, now: int)
    | DeleteSession(target: string)
    | SetCurrentSession(target: string)
    | NewWorkspace(ws: string)
    | DeleteWorkspace(ws: string)

  function Updated(sessions: seq<Session>, id: string, name: Option<string>, now: int): seq<Session> {
    seq(|sessions|, i requires 0 <= i < |sessions| =>
      if sessions[i].id != id then sessions[i]
      else sessions[i].(updatedAt := now, name := if name.Some? then name.value else sessions[i].name))
  }

  function Keep(sessions: seq<Session>, p: Session -> bool): seq<Session> {
    if sessions == [] then []
    else if p(sessions[0]) then [sessions[0]] + Keep(sessions[1..], p)
    else Keep(sessions[1..], p)
  }

  predicate Possible(db: Db, e: Event) {
    match e
    case Ensure(id, _) => id != "" && Find(db.sessions, id).None?
    case NewSession(_, _, id, _) => id != "" && Find(db.sessions, id).None?
    case NewWorkspace(ws) => ws != ""
    case _ => true
  }

  function Next(db: Db, e: Event): Db {
    if !Possible(db, e) then db
    else
      match e
      case Ensure(id, now) => Ensured(db, id, now).0
      case SetScope(scope) => db.(settings := db.settings[SCOPE_KEY := ScopeName(scope)])
      case SetWorkspace(ws) => db.(settings := db.settings[WORKSPACE_KEY := ws])
      case NewSession(name, ws, id, now) => Created(db, name, ws, id, now).0
      case Rename(id, name, now) => db.(sessions := Updated(db.sessions, id, Some(name), now))
      case Touch(id, now) => db.(sessions := Updated(db.sessions, id, None, now))
      case DeleteSession(id) => db.(sessions := Keep(db.sessions, (s: Session) => s.id != id))
      case SetCurrentSession(id) => MadeCurrent(db, id).0
      case NewWorkspace(ws) => db.(workspaces := db.workspaces + {ws})
      case DeleteWorkspace(ws) =>
        db.(workspaces := db.workspaces - {ws}, sessions := Keep(db.sessions, (s: Session) => s.workspace != Some(ws)))
  }

  function Run(db: Db, es: seq<Event>): Db {
    if es == [] then db else Next(Run(db, es[..|es| - 1]), es[|es| - 1])
  }

  lemma {:induction false} KeepMembers(sessions: seq<Session>, p: Session -> bool, id: string)
    ensures forall s :: s in Keep(sessions, p) <==> s in sessions && p(s)
    ensures Find(sessions, id).Some? && p(Find(sessions, id).value) ==>
              Find(Keep(sessions, p), id) == Find(sessions, id)
  {
    if sessions != [] {
      KeepMembers(sessions[1..], p, id);
      assert sessions == [sessions[0]] + sessions[1..];
      if sessions[0].id != id && p(sessions[0]) { assert Keep(sessions, p)[1..] == Keep(sessions[1..], p); }
    }
  }

  ghost predicate DistinctIds(sessions: seq<Session>) {
    forall i, j | 0 <= i < j < |sessions| :: sessions[i].id != sessions[j].id
  }

  lemma {:induction false} KeepDistinct(sessions: seq<Session>, p: Session -> bool)
    requires DistinctIds(sessions)
    ensures DistinctIds(Keep(sessions, p))
  {
    if sessions != [] {
      KeepDistinct(sessions[1..], p);
      KeepMembers(sessions[1..], p, "");
      var rest := Keep(sessions[1..], p);
      forall j | 0 <= j < |rest| ensures rest[j].id != sessions[0].id {
        assert rest[j] in rest;
        var k :| 0 <= k < |sessions[1..]| && sessions[1..][k] == rest[j];
        assert sessions[k + 1] == rest[j];
      }
    }
  }

  lemma {:induction false} UpdatedFind(sessions: seq<Session>, id: string, name: Option<string>, now: int, x: string)
    ensures Find(Updated(sessions, id, name, now), x).Some? <==> Find(sessions, x).Some?
    ensures Find(sessions, x).Some? ==>
              Find(Updated(sessions, id, name, now), x).value.workspace == Find(sessions, x).value.workspace
  {
    if sessions != [] {
      assert Updated(sessions, id, name, now)[1..] == Updated(sessions[1..], id, name, now);
      UpdatedFind(sessions[1..], id, name, now, x);
    }
  }

  lemma StepSound(db: Db, e: Event)
    requires Sound(db)
    ensures Sound(Next(db, e))
  {
    if Possible(db, e) {
      match e
      case Ensure(id, now) =>
        FindIsThere(db.sessions, id);
        EnsureIsSound(db, id, now);
      case NewSession(name, ws, id, now) => FindIsThere(db.sessions, id);
      case DeleteSession(id) =>
        KeepDistinct(db.sessions, (s: Session) => s.id != id);
        KeepMembers(db.sessions, (s: Session) => s.id != id, "");
      case DeleteWorkspace(ws) =>
        KeepDistinct(db.sessions, (s: Session) => s.workspace != Some(ws));
        KeepMembers(db.sessions, (s: Session) => s.workspace != Some(ws), "");
      case Rename(id, name, now) => UpdatedSound(db, id, Some(name), now);
      case Touch(id, now) => UpdatedSound(db, id, None, now);
      case _ =>
    }
  }

  lemma UpdatedSound(db: Db, id: string, name: Option<string>, now: int)
    requires Sound(db)
    ensures Sound(db.(sessions := Updated(db.sessions, id, name, now)))
  {
    var u := Updated(db.sessions, id, name, now);
    forall s | s in u ensures s.id != "" && (s.workspace.Some? ==> s.workspace.value in db.workspaces) {
      var i :| 0 <= i < |u| && u[i] == s;
      assert db.sessions[i] in db.sessions;
    }
  }

  lemma {:induction false} RunSound(start: Db, es: seq<Event>)
    requires Sound(start)
    ensures Sound(Run(start, es))
  {
    if es != [] {
      RunSound(start, es[..|es| - 1]);
      StepSound(Run(start, es[..|es| - 1]), es[|es| - 1]);
    }
  }

  /** In every state reachable from any sound tables, those an older version left with a
      legacy pointer included: if the active workspace exists (or the scope is global),
      resolution returns a live session of the resolved scope. */
  lemma AlwaysResolves(start: Db, es: seq<Event>, id: string, now: int)
    requires Sound(start)
    ensures var db := Run(start, es);
            Fresh(db, id) && (Target(db).None? || Target(db).value in db.workspaces) ==>
              Ensured(db, id, now).1.Ok? && Fits(Ensured(db, id, now).0, Ensured(db, id, now).1.value, Target(db))
  {
    var db := Run(start, es);
    RunSound(start, es);
    if Fresh(db, id) { EnsureIsSound(db, id, now); }
  }

  /** A session of one workspace is chosen while another is current. */
  lemma SetCurrentMisses(id: string, now: int)
    requires id != "" && id != "s"
    ensures var db := Db(map[WORKSPACE_KEY := "v"], [Session("s", "Notes", Some("w"), 0)], {"v", "w"});
            && Sound(db) && Fresh(db, id) && MadeCurrent(db, "s").1.Ok?
            && Ensured(MadeCurrent(db, "s").0, id, now).1 == Ok(id)
  {
    var s := Session("s", "Notes", Some("w"), 0);
    var db := Db(map[WORKSPACE_KEY := "v"], [s], {"v", "w"});
    KeysApart("v");
    KeysApart("w");
    PointersApart(Some("v"), Some("w"));
    assert Find(db.sessions, "s") == Some(s);
    var db' := MadeCurrent(db, "s").0;
    MigrationKeepsTarget(db');
    assert CurrentWorkspace(db') == Some("v") && GetScope(db') == Workspace;
    assert Target(db') == Some("v");
    assert Newest(db'.sessions, Some("v")) == None;
    assert ReadPointer(Migrated(db'), Some("v")) == None;
    MainIsAName();
  }

  /** The events that may move the pointer of scope `ws` off session `x`. */
  predicate Disturbs(db: Db, e: Event, ws: Option<string>, x: string) {
    match e
    case DeleteSession(id) => id == x
    case DeleteWorkspace(w) => ws == Some(w)
    case SetCurrentSession(id) => id != x && Fits(db, id, ws)
    case _ => false
  }

  ghost predicate Undisturbed(db: Db, es: seq<Event>, ws: Option<string>, x: string) {
    forall k | 0 <= k < |es| :: !Disturbs(Run(db, es[..k]), es[k], ws, x)
  }

  lemma EnsureKeepsPointer(db: Db, ws: Option<string>, x: string, id: string, now: int)
    requires ReadPointer(db, ws) == Some(x)
    ensures ReadPointer(Ensured(db, id, now).0, ws) == Some(x)
  {
    PointersApart(ws, ws);
    PointersApart(ws, Target(db));
    MigrationKeepsTarget(db);
    OldRowsStay(db, id, now, x);
    assert ReadPointer(Migrated(db), ws) == Some(x);
  }

  lemma PointerStays(db: Db, e: Event, ws: Option<string>, x: string)
    requires ReadPointer(db, ws) == Some(x) && !Disturbs(db, e, ws, x)
    ensures ReadPointer(Next(db, e), ws) == Some(x)
  {
    PointersApart(ws, ws);
    if Possible(db, e) {
      match e
      case Ensure(id, now) => EnsureKeepsPointer(db, ws, x, id, now);
      case NewSession(name, w, id, now) => FindInLonger(db.sessions, [Session(id, name, w, now)], x);
      case Rename(id, name, now) => UpdatedFind(db.sessions, id, Some(name), now, x);
      case Touch(id, now) => UpdatedFind(db.sessions, id, None, now, x);
      case DeleteSession(id) =>
        FindIsThere(db.sessions, x);
        KeepMembers(db.sessions, (s: Session) => s.id != id, x);
      case DeleteWorkspace(w) => KeepMembers(db.sessions, (s: Session) => s.workspace != Some(w), x);
      case SetCurrentSession(id) =>
        if Find(db.sessions, id).Some? { PointersApart(ws, Find(db.sessions, id).value.workspace); }
      case _ =>
    }
  }

  /** Once resolved, a scope's session is the one found again whenever that scope
      is active, whatever happens elsewhere: other scopes resolved, switched to,
      filled or deleted, sessions renamed or touched. */
  lemma {:induction false} SwitchAwayAndBack(
    db: Db, es: seq<Event>, ws: Option<string>, x: string, id: string, now: int)
    requires ReadPointer(db, ws) == Some(x) && Undisturbed(db, es, ws, x)
    ensures ReadPointer(Run(db, es), ws) == Some(x)
    ensures Target(Run(db, es)) == ws ==> Ensured(Run(db, es), id, now).1 == Ok(x)
  {
    if es != [] {
      var init := es[..|es| - 1];
      forall k | 0 <= k < |init| ensures !Disturbs(Run(db, init[..k]), init[k], ws, x) {
        assert init[..k] == es[..k] && !Disturbs(Run(db, es[..k]), es[k], ws, x);
      }
      SwitchAwayAndBack(db, init, ws, x, id, now);
      assert !Disturbs(Run(db, init), es[|es| - 1], ws, x);
      PointerStays(Run(db, init), es[|es| - 1], ws, x);
    }
    var end := Run(db, es);
    MigrationKeepsTarget(end);
    if Target(end) == ws {
      PointersApart(ws, ws);
      KeysApart("");
      assert ReadPointer(Migrated(end), ws) == Some(x);
    }
  }
}
