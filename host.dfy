/**
 * The WordPress and PHP runtime the loader talks to, as plain data: the set
 * of files that exist and one function per hook or helper it calls. Each
 * function receives exactly the arguments the loader passes, so whatever a
 * theme or plugin hooks in is covered by choosing the function.
 */
module Host {
  import opened Wrappers

  /** The data object handed to a template (a stdClass); the loader only forwards it. */
  datatype Payload = Payload(properties: map<string, string>)

  datatype Host = Host(
    /** The paths on which file_exists holds. */
    files: set<string>,
    /** locate_template($names, false, false): a theme file path, "" when none is found. */
    locateTemplate: seq<string> -> string,
    /** Filesystem::getPluginDirPath($path): the path resolved under the plugin directory. */
    pluginDirPath: string -> string,
    /** The 'tmploader_use_plugin' filter, given 'yes' and the theme lookup's result. */
    usePlugin: string -> string,
    /** The 'tmploader_template_engine_data' filter, given the data and the slug. */
    engineData: (Option<Payload>, string) -> Option<Payload>,
    /** The per-slug filter "tmploader_template_engine_data_{slug}", given the slug and the data. */
    slugData: (string, Option<Payload>) -> Option<Payload>,
    /** The 'tmploader_template_file_path' filter, given the path and the data. */
    filePathFilter: (string, Option<Payload>) -> string)
  {
    /** PHP's file_exists: never true of the empty path. */
    predicate FileExists(path: string) {
      path != "" && path in files
    }
  }

  /** PHP truthiness of a string: only "" and "0" are falsy. */
  predicate Truthy(s: string) {
    s != "" && s != "0"
  }
}
