/**
 * The per-module dependency index built by PmeDependencyCollector: for every
 * parsed project node, the union of its managed and direct dependency
 * references, minus those whose version still holds the '&' marker of a
 * failed interpolation, keyed by the node's (groupId, artifactId).
 */
module ProjectParser {

  import opened Wrappers
  import opened Refs

  /** The marker a version string keeps when interpolation did not complete. */
  const UnresolvedMarker: char := '&'

  /** The filter of collectDependencies drops exactly these references. */
  predicate IsUnresolved(ref: ArtifactRef) {
    UnresolvedMarker in ref.versionString
  }

  /** The coordinate of a project: its version plays no part. */
  function ToProjectRef(project: Project): ProjectRef {
    ProjectRef(project.groupId, project.artifactId)
  }

  /** The references of `refs` that survive the filter. */
  function Resolved(refs: set<ArtifactRef>): set<ArtifactRef> {
    set ref | ref in refs && !IsUnresolved(ref)
  }

  /** The set the collector stores for one project. */
  function DependencySet(project: Project): set<ArtifactRef> {
    Resolved(project.managedRefs) + Resolved(project.directRefs)
  }

  /**
   * The map after putting the dependency set of every project of `projects`,
   * in list order, into `m`; a later put under the same key replaces an earlier one.
   */
  function PutAll(m: map<ProjectRef, set<ArtifactRef>>, projects: seq<Project>): map<ProjectRef, set<ArtifactRef>>
    decreases |projects|
  {
    if projects == [] then m
    else
      var last := projects[|projects| - 1];
      PutAll(m, projects[..|projects| - 1])[ToProjectRef(last) := DependencySet(last)]
  }

  /** The index built from an empty map. */
  function Index(projects: seq<Project>): map<ProjectRef, set<ArtifactRef>> {
    PutAll(map[], projects)
  }

  /** The coordinates of the projects of a list. */
  function Coordinates(projects: seq<Project>): set<ProjectRef> {
    set i | 0 <= i < |projects| :: ToProjectRef(projects[i])
  }

  /** Position of the first project flagged as inheritance root, if any. */
  function FirstRootIndex(projects: seq<Project>): (r: Option<nat>)
    ensures r.Some? ==> r.value < |projects| && projects[r.value].isInheritanceRoot
    ensures r.Some? ==> forall j :: 0 <= j < r.value ==> !projects[j].isInheritanceRoot
    ensures r.None? <==> forall j :: 0 <= j < |projects| ==> !projects[j].isInheritanceRoot
  {
    if projects == [] then None
    else if projects[0].isInheritanceRoot then Some(0)
    else
      match FirstRootIndex(projects[1..])
      case None => None
      case Some(k) => Some(k + 1)
  }

  /** The filtered union does not depend on whether managed or direct references are added first. */
  lemma ManagedDirectOrderIrrelevant(collectTo: set<ArtifactRef>, managed: set<ArtifactRef>, direct: set<ArtifactRef>)
    ensures collectTo + Resolved(managed) + Resolved(direct) == collectTo + Resolved(direct) + Resolved(managed)
  {
  }

  /** Membership in a project's set: in one of the two maps and not unresolved. */
  lemma DependencySetMembers(project: Project, ref: ArtifactRef)
    ensures ref in DependencySet(project) <==>
              (ref in project.managedRefs || ref in project.directRefs) && !IsUnresolved(ref)
  {
  }

  /**
   * The coordinate ignores the version: giving one project another version
   * leaves the whole index unchanged.
   */
  lemma {:induction false} PutAllIgnoresVersion(m: map<ProjectRef, set<ArtifactRef>>, projects: seq<Project>, i: nat, version: string)
    requires i < |projects|
    ensures PutAll(m, projects[i := projects[i].(version := version)]) == PutAll(m, projects)
    decreases |projects|
  {
    var changed := projects[i := projects[i].(version := version)];
    var n := |projects| - 1;
    if i < n {
      assert changed[..n] == projects[..n][i := projects[i].(version := version)];
      PutAllIgnoresVersion(m, projects[..n], i, version);
    } else {
      assert changed[..n] == projects[..n];
    }
  }

  /** The keys after the puts are the old keys plus the coordinates of the projects. */
  lemma {:induction false} PutAllKeys(m: map<ProjectRef, set<ArtifactRef>>, projects: seq<Project>)
    ensures PutAll(m, projects).Keys == m.Keys + Coordinates(projects)
    decreases |projects|
  {
    if projects != [] {
      var n := |projects| - 1;
      var front := projects[..n];
      PutAllKeys(m, front);
      assert Coordinates(projects) == Coordinates(front) + {ToProjectRef(projects[n])} by {
        forall c | c in Coordinates(projects) ensures c in Coordinates(front) + {ToProjectRef(projects[n])} {
          var i :| 0 <= i < |projects| && c == ToProjectRef(projects[i]);
          if i < n { assert front[i] == projects[i]; }
        }
        forall c | c in Coordinates(front) ensures c in Coordinates(projects) {
          var i :| 0 <= i < |front| && c == ToProjectRef(front[i]);
          assert projects[i] == front[i];
        }
      }
    }
  }

  /** The keys of the index are exactly the coordinates of the parsed projects. */
  lemma IndexKeys(projects: seq<Project>)
    ensures Index(projects).Keys == Coordinates(projects)
  {
    PutAllKeys(map[], projects);
  }

  /**
   * The entry under a project's coordinate is that project's set when no later
   * project has the same coordinate: the last put wins.
   */
  lemma {:induction false} PutAllLastWins(m: map<ProjectRef, set<ArtifactRef>>, projects: seq<Project>, i: nat)
    requires i < |projects|
    requires forall j :: i < j < |projects| ==> ToProjectRef(projects[j]) != ToProjectRef(projects[i])
    ensures ToProjectRef(projects[i]) in PutAll(m, projects)
    ensures PutAll(m, projects)[ToProjectRef(projects[i])] == DependencySet(projects[i])
    decreases |projects|
  {
    var n := |projects| - 1;
    if i < n {
      var front := projects[..n];
      assert front[i] == projects[i];
      forall j | i < j < |front| ensures ToProjectRef(front[j]) != ToProjectRef(front[i]) {
        assert front[j] == projects[j];
      }
      PutAllLastWins(m, front, i);
    }
  }

  /** Every stored value is the set of some project with that coordinate. */
  lemma {:induction false} PutAllValues(m: map<ProjectRef, set<ArtifactRef>>, projects: seq<Project>, k: ProjectRef)
    requires k in PutAll(m, projects)
    ensures (k in m && PutAll(m, projects)[k] == m[k]) ||
            exists i :: 0 <= i < |projects| && ToProjectRef(projects[i]) == k &&
                        PutAll(m, projects)[k] == DependencySet(projects[i])
    decreases |projects|
  {
    if projects != [] {
      var n := |projects| - 1;
      var front := projects[..n];
      if k != ToProjectRef(projects[n]) {
        PutAllValues(m, front, k);
        if !(k in m && PutAll(m, projects)[k] == m[k]) {
          var i :| 0 <= i < |front| && ToProjectRef(front[i]) == k &&
                   PutAll(m, front)[k] == DependencySet(front[i]);
          assert projects[i] == front[i];
        }
      }
    }
  }

  /** No reference kept anywhere in the index has a version holding the '&' marker. */
  lemma NoUnresolvedInIndex(projects: seq<Project>, k: ProjectRef, ref: ArtifactRef)
    requires k in Index(projects) && ref in Index(projects)[k]
    ensures !IsUnresolved(ref)
  {
    PutAllValues(map[], projects, k);
  }

  /** With pairwise distinct coordinates the index has one entry per project. */
  lemma {:induction false} IndexSize(projects: seq<Project>)
    requires forall i, j :: 0 <= i < j < |projects| ==> ToProjectRef(projects[i]) != ToProjectRef(projects[j])
    ensures |Index(projects)| == |projects|
    decreases |projects|
  {
    if projects != [] {
      var n := |projects| - 1;
      var front := projects[..n];
      var k := ToProjectRef(projects[n]);
      forall i, j | 0 <= i < j < |front| ensures ToProjectRef(front[i]) != ToProjectRef(front[j]) {
        assert front[i] == projects[i] && front[j] == projects[j];
      }
      IndexSize(front);
      IndexKeys(front);
      forall i | 0 <= i < |front| ensures ToProjectRef(front[i]) != k {
        assert front[i] == projects[i];
      }
      var m := Index(front);
      assert k !in m.Keys;
      assert Index(projects) == m[k := DependencySet(projects[n])];
    }
  }

  /**
   * collectDependencies: add to `collectTo` every reference of the key set
   * `dependencies` whose version does not contain the marker.
   */
  method CollectDependencies(collectTo: set<ArtifactRef>, dependencies: set<ArtifactRef>) returns (collected: set<ArtifactRef>)
    ensures collectTo <= collected
    ensures collected == collectTo + Resolved(dependencies)
  {
    collected := collectTo;
    var rest := dependencies;
    while rest != {}
      invariant rest <= dependencies
      invariant collected == collectTo + Resolved(dependencies - rest)
      decreases rest
    {
      var ref :| ref in rest;
      if !IsUnresolved(ref) {
        collected := collected + {ref};
      }
      assert Resolved(dependencies - (rest - {ref})) ==
             Resolved(dependencies - rest) + (if IsUnresolved(ref) then {} else {ref});
      rest := rest - {ref};
    }
  }

  /** The ids of the profiles the selector returned, in their order (parseSettings). */
  function ProfileIds(profiles: seq<Profile>): seq<string> {
    seq(|profiles|, i requires 0 <= i < |profiles| => profiles[i].id)
  }

  /**
   * The tail of parseSettings: the effective settings keep their profiles and
   * their active profile ids become the ids of the selected profiles.
   */
  method ReplaceActiveProfiles(effectiveSettings: Settings, activeModelProfiles: seq<Profile>) returns (settings: Settings)
    ensures settings.profiles == effectiveSettings.profiles
    ensures |settings.activeProfiles| == |activeModelProfiles|
    ensures forall i :: 0 <= i < |activeModelProfiles| ==> settings.activeProfiles[i] == activeModelProfiles[i].id
    ensures settings.activeProfiles == ProfileIds(activeModelProfiles)
  {
    var activeProfiles: seq<string> := [];
    for k := 0 to |activeModelProfiles|
      invariant |activeProfiles| == k
      invariant forall i :: 0 <= i < k ==> activeProfiles[i] == activeModelProfiles[i].id
    {
      activeProfiles := activeProfiles + [activeModelProfiles[k].id];
    }
    settings := effectiveSettings.(activeProfiles := activeProfiles);
  }

  class PmeDependencyCollector {
    var projects: seq<Project>
    var projectsDependencies: map<ProjectRef, set<ArtifactRef>>
    var rootProjectRef: ProjectRef

    /** A root exists, the root coordinate is the first root's, and the index is built from the projects. */
    ghost predicate Valid()
      reads this
    {
      && FirstRootIndex(projects).Some?
      && rootProjectRef == ToProjectRef(projects[FirstRootIndex(projects).value])
      && projectsDependencies == Index(projects)
    }

    /** The constructor, which in the source runs only after a root has been found. */
    constructor (parsed: seq<Project>)
      requires FirstRootIndex(parsed).Some?
      ensures Valid()
      ensures projects == parsed
    {
      projects := parsed;
      projectsDependencies := map[];
      rootProjectRef := ToProjectRef(parsed[FirstRootIndex(parsed).value]);
      new;
      CollectProjectDependencies();
    }

    /**
     * Construction from the parser's project list; None stands for the
     * exception thrown by `get()` when no project is an inheritance root.
     */
    static method Create(parsed: seq<Project>) returns (r: Option<PmeDependencyCollector>)
      ensures r.None? <==> forall j :: 0 <= j < |parsed| ==> !parsed[j].isInheritanceRoot
      ensures r.Some? ==> fresh(r.value) && r.value.Valid() && r.value.projects == parsed
    {
      if FirstRootIndex(parsed).None? {
        return None;
      }
      var collector := new PmeDependencyCollector(parsed);
      return Some(collector);
    }

    /** collectProjectDependencies: one fresh set per project, put under its coordinate. */
    method CollectProjectDependencies()
      modifies this
      ensures projects == old(projects) && rootProjectRef == old(rootProjectRef)
      ensures projectsDependencies == PutAll(old(projectsDependencies), projects)
    {
      var i := 0;
      while i < |projects|
        invariant 0 <= i <= |projects|
        invariant projects == old(projects) && rootProjectRef == old(rootProjectRef)
        invariant projectsDependencies == PutAll(old(projectsDependencies), projects[..i])
      {
        var project := projects[i];
        var dependencies: set<ArtifactRef> := {};
        projectsDependencies := projectsDependencies[ToProjectRef(project) := dependencies];
        dependencies := CollectDependencies(dependencies, project.managedRefs);
        dependencies := CollectDependencies(dependencies, project.directRefs);
        // The map holds the very set that was just grown.
        projectsDependencies := projectsDependencies[ToProjectRef(project) := dependencies];
        assert dependencies == DependencySet(project);
        assert projects[..i + 1][..i] == projects[..i];
        assert projects[..i + 1][i] == project;
        i := i + 1;
      }
      assert projects[..i] == projects;
    }

    /** getAllProjectsDependencies: the whole index. */
    method GetAllProjectsDependencies() returns (all: map<ProjectRef, set<ArtifactRef>>)
      requires Valid()
      ensures all == Index(projects)
      ensures all.Keys == Coordinates(projects)
    {
      IndexKeys(projects);
      all := projectsDependencies;
    }

    /** getProjectDependencies: the set stored for (groupId, artifactId); None where the source returns null. */
    method GetProjectDependencies(groupId: string, artifactId: string) returns (r: Option<set<ArtifactRef>>)
      requires Valid()
      ensures r.Some? <==> exists i :: 0 <= i < |projects| && projects[i].groupId == groupId && projects[i].artifactId == artifactId
      ensures r.Some? ==> ProjectRef(groupId, artifactId) in Index(projects) && r.value == Index(projects)[ProjectRef(groupId, artifactId)]
      ensures r.Some? ==> forall ref :: ref in r.value ==> !IsUnresolved(ref)
    {
      var key := ProjectRef(groupId, artifactId);
      IndexKeys(projects);
      if key in projectsDependencies {
        forall ref | ref in projectsDependencies[key] ensures !IsUnresolved(ref) {
          NoUnresolvedInIndex(projects, key, ref);
        }
        assert key in Coordinates(projects);
        r := Some(projectsDependencies[key]);
      } else {
        r := None;
      }
    }

    /** getRootProjectDependencies: the set stored under the first root's coordinate. */
    method GetRootProjectDependencies() returns (r: set<ArtifactRef>)
      requires Valid()
      ensures var root := projects[FirstRootIndex(projects).value];
              ToProjectRef(root) in Index(projects) && r == Index(projects)[ToProjectRef(root)]
      ensures forall j :: (FirstRootIndex(projects).value <= j < |projects| &&
                           ToProjectRef(projects[j]) == rootProjectRef &&
                           forall j' :: j < j' < |projects| ==> ToProjectRef(projects[j']) != rootProjectRef)
                          ==> r == DependencySet(projects[j])
    {
      IndexKeys(projects);
      assert rootProjectRef in Coordinates(projects);
      forall j | FirstRootIndex(projects).value <= j < |projects| &&
                 ToProjectRef(projects[j]) == rootProjectRef &&
                 forall j' :: j < j' < |projects| ==> ToProjectRef(projects[j']) != rootProjectRef
        ensures projectsDependencies[rootProjectRef] == DependencySet(projects[j])
      {
        PutAllLastWins(map[], projects, j);
      }
      r := projectsDependencies[rootProjectRef];
    }
  }

}
