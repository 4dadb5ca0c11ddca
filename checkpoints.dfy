/** `src/lib/state/checkpoints.svelte.ts`: snapshots of a project, kept per
  * project id in a persisted record, and restoring one into the session.
  * The session (`src/lib/state/session.svelte.ts`, which is not part of
  * this model) is reduced to its list of projects, the active project id
  * and the project the `session.project` setter last received. */
module Checkpoints {
  import opened Wrappers

  /** A project as the checkpoints see it: its id and the rest of its
    * state, kept whole. */
  datatype Project = Project(id: string, state: string)

  /** `Checkpoint`: a uuid, the time it was taken, and the project. */
  datatype Checkpoint = Checkpoint(id: string, timestamp: string, projectState: Project)

  /** The parts of the session that checkpoints read and write. */
  datatype Session = Session(projects: seq<Project>, activeProjectId: string, project: Option<Project>)

  /** Whether `session.$.projects.find(p => p.id == projectId)` finds one. */
  predicate Known(projects: seq<Project>, projectId: string)
  {
    exists k :: 0 <= k < |projects| && projects[k].id == projectId
  }

  /** The index of the first project with that id, if any. */
  function FindProject(projects: seq<Project>, projectId: string): (r: Option<nat>)
    ensures r.Some? <==> Known(projects, projectId)
    ensures r.Some? ==> r.value < |projects| && projects[r.value].id == projectId
  {
    if projects == [] then None
    else if projects[0].id == projectId then Some(0)
    else
      var r := FindProject(projects[1..], projectId);
      if r.Some? then Some(r.value + 1) else None
  }

  /** `prev.filter(c => c.id != id)`. */
  function WithoutCheckpoint(list: seq<Checkpoint>, id: string): (r: seq<Checkpoint>)
    ensures forall c :: c in r <==> c in list && c.id != id
    ensures |r| <= |list|
  {
    if list == [] then []
    else (if list[0].id == id then [] else [list[0]]) + WithoutCheckpoint(list[1..], id)
  }

  /** The checkpoints of every project, and the session they act on. */
  class Checkpoints {
    var byProject: map<string, seq<Checkpoint>>
    var session: Session

    /** A store starting from `{}`, or from what storage held. */
    constructor(stored: map<string, seq<Checkpoint>>, session: Session)
      ensures byProject == stored && this.session == session
    {
      byProject := stored;
      this.session := session;
    }

    /** `for(projectId)`: the project's checkpoints, `[]` when it has none. */
    function For(projectId: string): seq<Checkpoint>
      reads this
    {
      if projectId in byProject then byProject[projectId] else []
    }

    /** `commit(projectId)`: a project the session does not know changes
      * nothing; otherwise one checkpoint of its current state, with the
      * given uuid and time, is appended to its list. */
    method Commit(projectId: string, id: string, timestamp: string)
      modifies this
      ensures session == old(session)
      ensures !Known(session.projects, projectId) ==> byProject == old(byProject)
      ensures Known(session.projects, projectId) ==>
        var project := session.projects[FindProject(session.projects, projectId).value];
        byProject == old(byProject)[projectId := old(For(projectId)) + [Checkpoint(id, timestamp, project)]]
      ensures Known(session.projects, projectId) ==>
        |For(projectId)| == |old(For(projectId))| + 1 && For(projectId)[..|old(For(projectId))|] == old(For(projectId))
        && For(projectId)[|old(For(projectId))|].projectState == session.projects[FindProject(session.projects, projectId).value]
      ensures forall p :: p != projectId ==> For(p) == old(For(p))
    {
      var found := FindProject(session.projects, projectId);
      if found.None? {
        return;
      }
      var project := session.projects[found.value];
      var prev := For(projectId);
      byProject := byProject[projectId := prev + [Checkpoint(id, timestamp, project)]];
    }

    /** `restore(projectId, checkpoint)`: for a known project the project
      * becomes active and the checkpoint's state is handed to the session. */
    method Restore(projectId: string, checkpoint: Checkpoint)
      modifies this
      ensures byProject == old(byProject)
      ensures !Known(old(session).projects, projectId) ==> session == old(session)
      ensures Known(old(session).projects, projectId) ==>
        session == old(session).(activeProjectId := projectId, project := Some(checkpoint.projectState))
    {
      if FindProject(session.projects, projectId).None? {
        return;
      }
      session := session.(activeProjectId := projectId);
      session := session.(project := Some(checkpoint.projectState));
    }

    /** `delete(projectId, checkpoint)`: every checkpoint with that id is
      * dropped from the project's list (which is created empty when the
      * project had none). */
    method Delete(projectId: string, checkpoint: Checkpoint)
      modifies this
      ensures session == old(session)
      ensures byProject == old(byProject)[projectId := WithoutCheckpoint(old(For(projectId)), checkpoint.id)]
    {
      var prev := For(projectId);
      byProject := byProject[projectId := WithoutCheckpoint(prev, checkpoint.id)];
    }
  }

  /** Deleting keeps the other checkpoints in their order, leaves none with
    * that id, and deleting again changes nothing. */
  lemma {:induction false} DeleteFacts(list: seq<Checkpoint>, id: string)
    ensures forall k :: 0 <= k < |WithoutCheckpoint(list, id)| ==> WithoutCheckpoint(list, id)[k].id != id
    ensures WithoutCheckpoint(WithoutCheckpoint(list, id), id) == WithoutCheckpoint(list, id)
    ensures IsSubsequence(WithoutCheckpoint(list, id), list)
  {
    var r := WithoutCheckpoint(list, id);
    assert forall k :: 0 <= k < |r| ==> r[k] in r;
    FreeUnchanged(r, id);
    KeptInOrder(list, id);
  }

  lemma {:induction false} FreeUnchanged(list: seq<Checkpoint>, id: string)
    requires forall k :: 0 <= k < |list| ==> list[k].id != id
    ensures WithoutCheckpoint(list, id) == list
  {
    if list != [] {
      FreeUnchanged(list[1..], id);
      assert list == [list[0]] + list[1..];
    }
  }

  /** `sub` is `s` with some elements dropped, the rest in order. */
  predicate IsSubsequence(sub: seq<Checkpoint>, s: seq<Checkpoint>)
    decreases |s|
  {
    if sub == [] then true
    else if s == [] then false
    else if sub[0] == s[0] then IsSubsequence(sub[1..], s[1..])
    else IsSubsequence(sub, s[1..])
  }

  lemma {:induction false} KeptInOrder(list: seq<Checkpoint>, id: string)
    ensures IsSubsequence(WithoutCheckpoint(list, id), list)
  {
    if list != [] {
      KeptInOrder(list[1..], id);
      if list[0].id != id {
        var r := WithoutCheckpoint(list, id);
        assert r[0] == list[0] && r[1..] == WithoutCheckpoint(list[1..], id);
      } else {
        var r := WithoutCheckpoint(list[1..], id);
        assert WithoutCheckpoint(list, id) == [] + r == r;
        assert r != [] ==> r[0] in r && r[0] != list[0];
      }
    }
  }
}
