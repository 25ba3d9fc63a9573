/**
 * The identifiers and project records the collector and the report work on:
 * the project coordinate (a SimpleProjectRef), the artifact reference with its
 * version string, a parsed project node, and the settings profile records.
 */
module Refs {

  import opened Wrappers

  /** A project coordinate: groupId and artifactId, no version. */
  datatype ProjectRef = ProjectRef(groupId: string, artifactId: string)

  /** A dependency reference; two references are the same when all five parts agree. */
  datatype ArtifactRef = ArtifactRef(
    groupId: string,
    artifactId: string,
    versionString: string,
    classifier: Option<string>,
    artifactType: string)

  /**
   * One node of the reactor as the project parser hands it over.
   * `managedRefs` and `directRefs` are the key sets of the resolved
   * managed-dependency map and the resolved direct-dependency map.
   */
  datatype Project = Project(
    groupId: string,
    artifactId: string,
    version: string,
    isInheritanceRoot: bool,
    managedRefs: set<ArtifactRef>,
    directRefs: set<ArtifactRef>)

  /** A profile as the profile selector returns it; only its id is read. */
  datatype Profile = Profile(id: string)

  /** The effective settings: declared profiles and the active profile ids. */
  datatype Settings = Settings(profiles: seq<Profile>, activeProfiles: seq<string>)

}
