/** The plugin's option object, as the dispatcher reads it and as it travels
    to the workers inside every job message. */
module Plugin {
  import opened Wrappers

  /** A source map travels as an opaque JSON value. */
  type SourceMap = string

  /** One entry of the minifier's own option object: copied through
      untouched, except for the `sourceMap` block the worker injects. */
  datatype OptionValue =
    | Setting(text: string)
    | SourceMapSetting(content: SourceMap, url: string)

  /** The option object handed to uglify-js / uglify-es. */
  type MinifyOptions = map<string, OptionValue>

  /** A regular expression, such as the default `test` pattern `/\.js$/i`. */
  datatype Pattern = Pattern(source: string, ignoreCase: bool)

  /** The fields of the plugin options the core reads; `None` is `undefined`. */
  datatype PluginOptions = PluginOptions(
    test: Option<Pattern>,
    cacheDir: Option<string>,
    sourceMap: Option<bool>,
    workerCount: Option<int>,
    uglifyJS: Option<MinifyOptions>,
    uglifyES: Option<MinifyOptions>)

  /** JavaScript's string conversion of a boolean, as in `source + flag`. */
  function BoolText(b: bool): (s: string)
    ensures b ==> s == "true"
    ensures !b ==> s == "false"
  {
    if b then "true" else "false"
  }
}
