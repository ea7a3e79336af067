/** The request attributes the image routes bind, each absent (`null`) or present. */
module Requests {
  import opened Wrappers

  datatype Attributes = Attributes(
    workspace: Option<string>,    // "workspace"
    datastore: Option<string>,    // "datastore"
    featureType: Option<string>,  // "featuretype"
    fid: Option<string>,          // "fid"
    attribute: Option<string>,    // "attribute"
    file: Option<string>,         // "file"
    format: Option<string>)       // "format"
}
