/**
 The annotation that links a Job to the JobTemplate it was made from
 (pkg/common/common.go:16-20).
 */
module Annotations {
  const CREATED_BY_TEMPLATE := "createByJobTemplate"

  function Connection(namespace: string, name: string): string {
    namespace + "." + name
  }
}
