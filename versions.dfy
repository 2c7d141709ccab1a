/**
  The in-memory version store: one session per key, each holding the ordered
  history of generated versions. Version ids count from 1 and are dense, so
  the version with id `k` of a session is its `k`-th entry. Rolling back never
  rewrites history; it appends a copy of an earlier version.
*/
module Versions {
  import opened Wrappers
  import opened Text

  /** The key of a session: a session id text, or JavaScript's `null`, which a `Map` accepts like any key. */
  datatype Key = Named(name: string) | NullKey

  /** The plan stored with a version: the planner's output document, or the marker of a modification request. */
  datatype Plan = Planned(document: string) | Modification(request: string)

  /** The fields a caller supplies to `addVersion`. */
  datatype Draft = Draft(code: string, plan: Plan, explanation: string, userPrompt: string, componentsUsed: seq<string>)

  datatype Version = Version(
    id: int,
    code: string,
    plan: Plan,
    explanation: string,
    userPrompt: string,
    componentsUsed: seq<string>,
    timestamp: string)

  /** The projection that `getVersions` lists. */
  datatype Summary = Summary(id: int, userPrompt: string, timestamp: string, componentsUsed: seq<string>)

  datatype Session = Session(versions: seq<Version>, createdAt: string)

  /** The version ids of a history are 1, 2, 3, … in order. */
  predicate DenseIds(vs: seq<Version>) {
    forall i :: 0 <= i < |vs| ==> vs[i].id == i + 1
  }

  function Summarise(v: Version): (s: Summary)
    ensures s.id == v.id && s.userPrompt == v.userPrompt
    ensures s.timestamp == v.timestamp && s.componentsUsed == v.componentsUsed
  {
    Summary(v.id, v.userPrompt, v.timestamp, v.componentsUsed)
  }

  /** `versions.map(summary)`. */
  function SummariseAll(vs: seq<Version>): (r: seq<Summary>)
    ensures |r| == |vs| && forall i :: 0 <= i < |vs| ==> r[i] == Summarise(vs[i])
  {
    if vs == [] then [] else [Summarise(vs[0])] + SummariseAll(vs[1..])
  }

  /** `versions.find(v => v.id === id)`: the first version with that id. */
  function FindById(vs: seq<Version>, id: int): (r: Option<Version>)
    ensures r.Some? ==> r.value in vs && r.value.id == id
    ensures r.None? <==> forall i :: 0 <= i < |vs| ==> vs[i].id != id
  {
    if vs == [] then None
    else if vs[0].id == id then Some(vs[0])
    else FindById(vs[1..], id)
  }

  /** In a dense history the version with id `id` exists exactly for `1 <= id <= |vs|`, and it is entry `id - 1`. */
  lemma {:induction false} FindInDenseHistory(vs: seq<Version>, id: int)
    requires DenseIds(vs)
    ensures FindById(vs, id).Some? <==> 1 <= id <= |vs|
    ensures FindById(vs, id).Some? ==> FindById(vs, id).value == vs[id - 1]
  {
    if 1 <= id <= |vs| {
      assert vs[id - 1].id == id;
      FindFirst(vs, id - 1);
    }
  }

  /** `find` returns the entry at `k` when it is the first one carrying its id. */
  lemma {:induction false} FindFirst(vs: seq<Version>, k: nat)
    requires k < |vs| && forall i :: 0 <= i < k ==> vs[i].id != vs[k].id
    ensures FindById(vs, vs[k].id) == Some(vs[k])
  {
    if k > 0 {
      assert vs[1..][k - 1] == vs[k];
      FindFirst(vs[1..], k - 1);
    }
  }

  /** The history stored under `key`, empty when it has no session. */
  function HistoryIn(sessions: map<Key, Session>, key: Key): seq<Version> {
    if key in sessions then sessions[key].versions else []
  }

  /**
    The session map after `v` is appended under `key`, the session being
    created and stamped `now` when it is missing. The history under `key`
    grows by exactly `v`; every other session is left as it was.
  */
  function WithVersion(sessions: map<Key, Session>, key: Key, v: Version, now: string): (r: map<Key, Session>)
    ensures key in r && r[key].versions == HistoryIn(sessions, key) + [v]
    ensures r[key].createdAt == if key in sessions then sessions[key].createdAt else now
    ensures forall k :: k != key ==> (k in r <==> k in sessions) && (k in sessions ==> r[k] == sessions[k])
  {
    var createdAt := if key in sessions then sessions[key].createdAt else now;
    sessions[key := Session(HistoryIn(sessions, key) + [v], createdAt)]
  }

  /** The version `addVersion` builds from a draft for a session holding `count` versions. */
  function NewVersion(count: nat, draft: Draft, now: string): (v: Version)
    ensures v.id == count + 1
    ensures v.code == draft.code && v.plan == draft.plan && v.explanation == draft.explanation
    ensures v.userPrompt == draft.userPrompt && v.componentsUsed == draft.componentsUsed
    ensures v.timestamp == now
  {
    Version(count + 1, draft.code, draft.plan, draft.explanation, draft.userPrompt, draft.componentsUsed, now)
  }

  /** The user prompt recorded for a rollback: `[Rollback] to v<id>`. */
  function RollbackPrompt(versionId: int): string {
    "[Rollback] to v" + IntToString(versionId)
  }

  /** The explanation recorded for a rollback: `Rolled back to version <id>: "<prompt>"`. */
  function RollbackExplanation(versionId: int, userPrompt: string): string {
    "Rolled back to version " + IntToString(versionId) + ": \"" + userPrompt + "\""
  }

  /** The draft of a rollback entry: the target's code, plan and components, with rollback texts. */
  function RollbackDraft(target: Version, versionId: int): (d: Draft)
    ensures d.code == target.code && d.plan == target.plan && d.componentsUsed == target.componentsUsed
    ensures d.userPrompt == RollbackPrompt(versionId)
    ensures d.explanation == RollbackExplanation(versionId, target.userPrompt)
  {
    Draft(target.code, target.plan, RollbackExplanation(versionId, target.userPrompt), RollbackPrompt(versionId), target.componentsUsed)
  }

  /** The process-wide session map. */
  class Store {
    var sessions: map<Key, Session>

    /** Every session's history is dense. */
    ghost predicate Valid()
      reads this
    {
      forall k :: k in sessions ==> DenseIds(sessions[k].versions)
    }

    /** The history of a key, empty when it has no session. */
    function History(key: Key): seq<Version>
      reads this
    {
      HistoryIn(sessions, key)
    }

    constructor ()
      ensures sessions == map[]
      ensures Valid()
    {
      sessions := map[];
    }

    /** `createSession`: an empty session stamped `now`, replacing any session under the same key. */
    method CreateSession(key: Key, now: string)
      requires Valid()
      modifies this
      ensures Valid()
      ensures sessions == old(sessions)[key := Session([], now)]
    {
      sessions := sessions[key := Session([], now)];
    }

    /**
      `addVersion`: creates the session if it is missing, then appends a
      version numbered one past the current count and returns it. No other
      session changes.
    */
    method AddVersion(key: Key, draft: Draft, now: string) returns (v: Version)
      requires Valid()
      modifies this
      ensures Valid()
      ensures v == NewVersion(|old(History(key))|, draft, now)
      ensures sessions == WithVersion(old(sessions), key, v, now)
      ensures GetLatestVersion(key) == Some(v) && GetVersion(key, v.id) == Some(v)
    {
      if key !in sessions {
        CreateSession(key, now);
      }
      var session := sessions[key];
      v := NewVersion(|session.versions|, draft, now);
      sessions := sessions[key := Session(session.versions + [v], session.createdAt)];
    }

    /** `getVersions`: the summaries of a session's versions in order, or none for an unknown key. */
    function GetVersions(key: Key): (r: seq<Summary>)
      reads this
      ensures key !in sessions ==> r == []
      ensures |r| == |History(key)|
      ensures forall i :: 0 <= i < |r| ==> r[i] == Summarise(History(key)[i])
    {
      if key !in sessions then [] else SummariseAll(sessions[key].versions)
    }

    /** `getVersion`: the version carrying `versionId`, or none. */
    function GetVersion(key: Key, versionId: int): (r: Option<Version>)
      reads this
      requires Valid()
      ensures r.Some? <==> 1 <= versionId <= |History(key)|
      ensures r.Some? ==> r.value == History(key)[versionId - 1] && r.value.id == versionId
    {
      if key !in sessions then None
      else
        var found := FindById(sessions[key].versions, versionId);
        FindInDenseHistory(sessions[key].versions, versionId);
        found
    }

    /** `getLatestVersion`: the last version, or none when the key is unknown or its history empty. */
    function GetLatestVersion(key: Key): (r: Option<Version>)
      reads this
      requires Valid()
      ensures r.None? <==> History(key) == []
      ensures r.Some? ==> r.value == History(key)[|History(key)| - 1] && r.value.id == |History(key)|
    {
      if key !in sessions || |sessions[key].versions| == 0 then None
      else Some(sessions[key].versions[|sessions[key].versions| - 1])
    }

    /**
      `rollbackToVersion`: when the version exists, appends a new version
      carrying its code, plan and components under rollback texts, and returns
      it; otherwise returns none and changes nothing.
    */
    method RollbackToVersion(key: Key, versionId: int, now: string) returns (r: Option<Version>)
      requires Valid()
      modifies this
      ensures Valid()
      ensures r.None? <==> !(1 <= versionId <= |old(History(key))|)
      ensures r.None? ==> sessions == old(sessions)
      ensures r.Some? ==>
        var target := old(History(key))[versionId - 1];
        && r.value == NewVersion(|old(History(key))|, RollbackDraft(target, versionId), now)
        && sessions == WithVersion(old(sessions), key, r.value, now)
    {
      var target := GetVersion(key, versionId);
      if target.None? {
        return None;
      }
      var v := AddVersion(key, RollbackDraft(target.value, versionId), now);
      r := Some(v);
    }
  }
}
