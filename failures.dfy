/** The errors the plugin's code can throw; each ends up in an ERROR log line. */
module Failures {

  datatype Failure =
    /** `JSON.parse` rejected the payload of a battery frame. */
    | ParseError(payload: string)
    /** An icon asset could not be read. */
    | AssetLoadError(asset: string)
    /** Binding the inbound socket failed during `init`. */
    | BindError
}
