/** The intents the rest of the tool can ask a shell to carry out. */
module Postscripts {
  import opened Semver

  datatype Postscript =
    | Activate(path: string)
    | Deactivate(path: string)
    | ToolVersion(tool: string, version: Version)
}
