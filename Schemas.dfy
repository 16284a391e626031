/**
 * The method names the services share (the `SupportAIMethod` enumeration of
 * common/py_schemas/schemas.py, which is not part of this model; the two
 * values are the lower-case method names the endpoints are reached by).
 */
module Schemas {
  const Supportai := "supportai"
  const Graphrag := "graphrag"
}
