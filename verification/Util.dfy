/** Checks on objects that both the reconciler and the status reporter use. */
module Util {
  import opened Common
  import opened ApiTypes

  const RELEASE_VERSION_ANNOTATION := "release.openshift.io/version"

  predicate ReleaseVersionMatches(annotations: StringMap, version: string) {
    RELEASE_VERSION_ANNOTATION in Entries(annotations) && Entries(annotations)[RELEASE_VERSION_ANNOTATION] == version
  }

  predicate DeploymentUpdated(d: Deployment) {
    && d.status.observedGeneration >= d.meta.generation
    && d.status.updatedReplicas == d.status.replicas
    && d.status.availableReplicas != 0
  }
}
