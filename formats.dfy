/**
 * Format dispatch (`parseConfig` and `renderTemplate`): the lower-cased
 * extension of the specifier chooses a config parser or a template engine,
 * unknown config extensions try JSON and then YAML, unknown template
 * extensions use Handlebars, and every failure is rewrapped into one error
 * that names the file.
 *
 * The parsers and engines are third-party libraries; they are parameters
 * here, each a function from text (and, for engines, the parsed config of
 * type `V`) to a `Result`.
 */
module Formats {
  import opened Results
  import opened JsStrings
  import opened NodePath

  datatype ConfigFormat = Json | Json5 | Yaml | Toml | Xml | JsonThenYaml

  datatype TemplateEngine = Handlebars | Liquid | Ejs | Nunjucks

  /** The options the XML parser is constructed with. */
  datatype XmlOptions = XmlOptions(ignoreAttributes: bool, attributeNamePrefix: string, parseAttributeValue: bool)

  /** Attributes are kept, prefixed with `@_`, and their values parsed as numbers or booleans where they look like one. */
  const ConfigXmlOptions := XmlOptions(false, "@_", true)

  datatype ConfigParsers<V> = ConfigParsers(
    json: string -> Result<V>,
    json5: string -> Result<V>,
    yaml: string -> Result<V>,
    toml: string -> Result<V>,
    xml: (XmlOptions, string) -> Result<V>)

  datatype TemplateEngines<!V> = TemplateEngines(
    handlebars: (string, V) -> Result<string>,
    liquid: (string, V) -> Result<string>,
    ejs: (string, V) -> Result<string>,
    nunjucks: (string, V) -> Result<string>)

  /** The extension table for configs, as a registry: every extension not in it falls back to JSON then YAML. */
  const ConfigRegistry: map<string, ConfigFormat> :=
    map[".json" := Json, ".json5" := Json5, ".yml" := Yaml, ".yaml" := Yaml, ".toml" := Toml, ".xml" := Xml]

  /** The extension table for templates, as a registry: every extension not in it falls back to Handlebars. */
  const EngineRegistry: map<string, TemplateEngine> :=
    map[".hbs" := Handlebars, ".handlebars" := Handlebars, ".liquid" := Liquid, ".ejs" := Ejs, ".jinja" := Nunjucks, ".j2" := Nunjucks]

  /** `path.extname(path).toLowerCase()`: the key both `switch`es look at. */
  function DispatchKey(path: string): (key: string)
    ensures key == "" || key[0] == '.'
    ensures forall k :: 0 <= k < |key| ==> !('A' <= key[k] <= 'Z')
  {
    ToLower(ExtName(path))
  }

  /** The config `switch`: the registry's format for a listed key, the fallback exactly for the others. */
  function ConfigFormatOf(key: string): (f: ConfigFormat)
    ensures key in ConfigRegistry ==> f == ConfigRegistry[key]
    ensures f == JsonThenYaml <==> key !in ConfigRegistry
  {
    if key == ".json" then Json
    else if key == ".json5" then Json5
    else if key == ".yml" || key == ".yaml" then Yaml
    else if key == ".toml" then Toml
    else if key == ".xml" then Xml
    else JsonThenYaml
  }

  /** The template `switch`: the registry's engine for a listed key, Handlebars for the others. */
  function EngineOf(key: string): (e: TemplateEngine)
    ensures key in EngineRegistry ==> e == EngineRegistry[key]
    ensures key !in EngineRegistry ==> e == Handlebars
  {
    if key == ".hbs" || key == ".handlebars" then Handlebars
    else if key == ".liquid" then Liquid
    else if key == ".ejs" then Ejs
    else if key == ".jinja" || key == ".j2" then Nunjucks
    else Handlebars
  }

  /** The rows of the config `switch`, one per extension literal. */
  lemma ConfigSwitchTable(key: string)
    ensures key == ".json" ==> ConfigFormatOf(key) == Json
    ensures key == ".json5" ==> ConfigFormatOf(key) == Json5
    ensures key == ".yml" || key == ".yaml" ==> ConfigFormatOf(key) == Yaml
    ensures key == ".toml" ==> ConfigFormatOf(key) == Toml
    ensures key == ".xml" ==> ConfigFormatOf(key) == Xml
  {
  }

  /** The rows of the template `switch`, one per extension literal. */
  lemma EngineSwitchTable(key: string)
    ensures key == ".hbs" || key == ".handlebars" ==> EngineOf(key) == Handlebars
    ensures key == ".liquid" ==> EngineOf(key) == Liquid
    ensures key == ".ejs" ==> EngineOf(key) == Ejs
    ensures key == ".jinja" || key == ".j2" ==> EngineOf(key) == Nunjucks
  {
  }

  /**
   * The outcome of the parser a format selects. XML is parsed with the fixed
   * options; the fallback succeeds when JSON or YAML does, keeps the JSON
   * value when JSON succeeds, and otherwise is the YAML outcome.
   */
  function ParseAs<V>(parsers: ConfigParsers<V>, format: ConfigFormat, content: string): (r: Result<V>)
    ensures format == Xml ==> r == parsers.xml(ConfigXmlOptions, content)
    ensures format == JsonThenYaml ==> (r.Ok? <==> parsers.json(content).Ok? || parsers.yaml(content).Ok?)
    ensures format == JsonThenYaml && parsers.json(content).Ok? ==> r == parsers.json(content)
    ensures format == JsonThenYaml && parsers.json(content).Err? ==> r == parsers.yaml(content)
  {
    match format
    case Json => parsers.json(content)
    case Json5 => parsers.json5(content)
    case Yaml => parsers.yaml(content)
    case Toml => parsers.toml(content)
    case Xml => parsers.xml(ConfigXmlOptions, content)
    case JsonThenYaml =>
      var asJson := parsers.json(content);
      if asJson.Ok? then asJson else parsers.yaml(content)
  }

  const ConfigFailurePrefix := "Failed to parse config file "
  const TemplateFailurePrefix := "Failed to render template "

  /** The `catch` around the config parsers: a failure becomes one message naming the file. */
  function WrapConfigFailure<V>(path: string, outcome: Result<V>): (r: Result<V>)
    ensures outcome.Ok? ==> r == outcome
    ensures outcome.Err? ==> r.Err? && StartsWith(r.message, ConfigFailurePrefix + path + ": ")
    ensures outcome.Err? ==> r.message[|ConfigFailurePrefix + path + ": "|..] == outcome.message
  {
    match outcome
    case Ok(_) => outcome
    case Err(m) =>
      var message := ConfigFailurePrefix + path + ": " + m;
      assert message[..|ConfigFailurePrefix + path + ": "|] == ConfigFailurePrefix + path + ": ";
      Err(message)
  }

  /** The `catch` around the template engines: a failure becomes one message naming the template. */
  function WrapTemplateFailure(path: string, outcome: Result<string>): (r: Result<string>)
    ensures outcome.Ok? ==> r == outcome
    ensures outcome.Err? ==> r.Err? && StartsWith(r.message, TemplateFailurePrefix + path + ": ")
    ensures outcome.Err? ==> r.message[|TemplateFailurePrefix + path + ": "|..] == outcome.message
  {
    match outcome
    case Ok(_) => outcome
    case Err(m) =>
      var message := TemplateFailurePrefix + path + ": " + m;
      assert message[..|TemplateFailurePrefix + path + ": "|] == TemplateFailurePrefix + path + ": ";
      Err(message)
  }

  /**
   * `parseConfig(content, path)`, stated as the extension table it
   * implements: each row names the parser whose outcome, wrapped, is the
   * result.
   */
  function ParseConfig<V>(parsers: ConfigParsers<V>, content: string, path: string): (r: Result<V>)
    ensures DispatchKey(path) == ".json" ==> r == WrapConfigFailure(path, parsers.json(content))
    ensures DispatchKey(path) == ".json5" ==> r == WrapConfigFailure(path, parsers.json5(content))
    ensures DispatchKey(path) == ".yml" || DispatchKey(path) == ".yaml" ==> r == WrapConfigFailure(path, parsers.yaml(content))
    ensures DispatchKey(path) == ".toml" ==> r == WrapConfigFailure(path, parsers.toml(content))
    ensures DispatchKey(path) == ".xml" ==> r == WrapConfigFailure(path, parsers.xml(ConfigXmlOptions, content))
    ensures DispatchKey(path) !in ConfigRegistry ==>
      r == WrapConfigFailure(path, if parsers.json(content).Ok? then parsers.json(content) else parsers.yaml(content))
    ensures r.Err? ==> StartsWith(r.message, ConfigFailurePrefix + path + ": ")
  {
    var key := DispatchKey(path);
    ConfigSwitchTable(key);
    WrapConfigFailure(path, ParseAs(parsers, ConfigFormatOf(key), content))
  }

  /** The outcome of the engine an extension selects, before any wrapping. */
  function RenderWith<V>(engines: TemplateEngines<V>, engine: TemplateEngine, template: string, data: V): Result<string> {
    match engine
    case Handlebars => engines.handlebars(template, data)
    case Liquid => engines.liquid(template, data)
    case Ejs => engines.ejs(template, data)
    case Nunjucks => engines.nunjucks(template, data)
  }

  /** Each arm of the template `switch` calls its own engine only: replacing any other engine changes nothing. */
  lemma RenderWithOnlyItsEngine<V>(engines: TemplateEngines<V>, engine: TemplateEngine, template: string, data: V, other: (string, V) -> Result<string>)
    ensures engine != Handlebars ==> RenderWith(engines.(handlebars := other), engine, template, data) == RenderWith(engines, engine, template, data)
    ensures engine != Liquid ==> RenderWith(engines.(liquid := other), engine, template, data) == RenderWith(engines, engine, template, data)
    ensures engine != Ejs ==> RenderWith(engines.(ejs := other), engine, template, data) == RenderWith(engines, engine, template, data)
    ensures engine != Nunjucks ==> RenderWith(engines.(nunjucks := other), engine, template, data) == RenderWith(engines, engine, template, data)
  {
  }

  /**
   * `renderTemplate(template, path, data)` as evidently intended, stated as
   * the extension table it implements: every engine failure, Liquid's
   * included, is wrapped into one message naming the template.
   */
  function RenderTemplate<V>(engines: TemplateEngines<V>, template: string, path: string, data: V): (r: Result<string>)
    ensures DispatchKey(path) == ".hbs" || DispatchKey(path) == ".handlebars" || DispatchKey(path) !in EngineRegistry ==>
      r == WrapTemplateFailure(path, engines.handlebars(template, data))
    ensures DispatchKey(path) == ".liquid" ==> r == WrapTemplateFailure(path, engines.liquid(template, data))
    ensures DispatchKey(path) == ".ejs" ==> r == WrapTemplateFailure(path, engines.ejs(template, data))
    ensures DispatchKey(path) == ".jinja" || DispatchKey(path) == ".j2" ==> r == WrapTemplateFailure(path, engines.nunjucks(template, data))
    ensures r.Err? ==> StartsWith(r.message, TemplateFailurePrefix + path + ": ")
  {
    var key := DispatchKey(path);
    EngineSwitchTable(key);
    WrapTemplateFailure(path, RenderWith(engines, EngineOf(key), template, data))
  }

  /**
   * `renderTemplate` as written: the Liquid branch returns the promise of
   * `parseAndRender` from inside the `try` without awaiting it, so when that
   * promise rejects the `catch` never runs and the engine's own message
   * escapes unwrapped. The other engines fail synchronously and are wrapped.
   */
  function RenderTemplateAsWritten<V>(engines: TemplateEngines<V>, template: string, path: string, data: V): (r: Result<string>)
    ensures EngineOf(DispatchKey(path)) != Liquid ==> r == RenderTemplate(engines, template, path, data)
    ensures EngineOf(DispatchKey(path)) == Liquid ==> r == engines.liquid(template, data)
  {
    var engine := EngineOf(DispatchKey(path));
    if engine == Liquid then engines.liquid(template, data)
    else WrapTemplateFailure(path, RenderWith(engines, engine, template, data))
  }

  /** A failing Liquid render surfaces unwrapped as written, although every other failure carries the prefix. */
  lemma LiquidFailureEscapesWrapper<V>(engines: TemplateEngines<V>, template: string, path: string, data: V)
    requires DispatchKey(path) == ".liquid"
    requires engines.liquid(template, data).Err?
    ensures RenderTemplateAsWritten(engines, template, path, data) == engines.liquid(template, data)
    ensures RenderTemplate(engines, template, path, data) != RenderTemplateAsWritten(engines, template, path, data)
  {
    var m := engines.liquid(template, data).message;
    var r := RenderTemplate(engines, template, path, data);
    assert |r.message| == |TemplateFailurePrefix + path + ": "| + |m|;
  }

  /** Unknown config extension, JSON succeeds: the JSON value is the result and YAML is never consulted. */
  lemma FallbackKeepsJson<V>(parsers: ConfigParsers<V>, content: string, path: string, yaml: string -> Result<V>)
    requires DispatchKey(path) !in ConfigRegistry
    requires parsers.json(content).Ok?
    ensures ParseConfig(parsers, content, path) == parsers.json(content)
    ensures ParseConfig(parsers.(yaml := yaml), content, path) == ParseConfig(parsers, content, path)
  {
  }

  /** Unknown config extension, JSON fails: the result is the YAML outcome, and the JSON error never shows. */
  lemma FallbackYieldsYaml<V>(parsers: ConfigParsers<V>, content: string, path: string, json: string -> Result<V>)
    requires DispatchKey(path) !in ConfigRegistry
    requires parsers.json(content).Err? && json(content).Err?
    ensures ParseConfig(parsers, content, path) == WrapConfigFailure(path, parsers.yaml(content))
    ensures ParseConfig(parsers.(json := json), content, path) == ParseConfig(parsers, content, path)
  {
  }

  /**
   * An unknown config extension parses like `.json` when the content is
   * JSON, and like `.yaml` when it is not JSON but is YAML.
   */
  lemma FallbackAgreesWithExplicitFormats<V>(parsers: ConfigParsers<V>, content: string, path: string, jsonPath: string, yamlPath: string)
    requires DispatchKey(path) !in ConfigRegistry
    requires DispatchKey(jsonPath) == ".json" && DispatchKey(yamlPath) == ".yaml"
    ensures parsers.json(content).Ok? ==>
      ParseConfig(parsers, content, path) == ParseConfig(parsers, content, jsonPath)
    ensures parsers.json(content).Err? && parsers.yaml(content).Ok? ==>
      ParseConfig(parsers, content, path) == ParseConfig(parsers, content, yamlPath)
  {
  }

  /** An unknown template extension renders exactly as `.hbs` does, up to the path named in an error. */
  lemma UnknownTemplateRendersAsHandlebars<V>(engines: TemplateEngines<V>, template: string, data: V, path: string, hbsPath: string)
    requires DispatchKey(path) !in EngineRegistry
    requires DispatchKey(hbsPath) == ".hbs"
    ensures RenderTemplate(engines, template, path, data) == WrapTemplateFailure(path, engines.handlebars(template, data))
    ensures RenderTemplate(engines, template, hbsPath, data) == WrapTemplateFailure(hbsPath, engines.handlebars(template, data))
  {
  }

  /** The spelling of the extension's letters does not matter: `name.JSON` parses as `name.json` does, with or without directories. */
  lemma ConfigExtensionCaseIgnored<V>(parsers: ConfigParsers<V>, content: string, dir: string, stem: string, e1: string, e2: string)
    requires stem != "" && stem != "." && '/' !in stem
    requires '/' !in e1 && '.' !in e1 && '/' !in e2 && '.' !in e2
    requires ToLower(e1) == ToLower(e2)
    ensures var p1, p2 := dir + "/" + stem + "." + e1, dir + "/" + stem + "." + e2;
      ParseAs(parsers, ConfigFormatOf(DispatchKey(p1)), content) == ParseAs(parsers, ConfigFormatOf(DispatchKey(p2)), content)
    ensures var n1, n2 := stem + "." + e1, stem + "." + e2;
      ParseAs(parsers, ConfigFormatOf(DispatchKey(n1)), content) == ParseAs(parsers, ConfigFormatOf(DispatchKey(n2)), content)
  {
    SameLowerExtension(dir, stem, e1, e2);
  }

  /** The same for templates: `page.HBS` renders as `page.hbs` does, with or without directories. */
  lemma TemplateExtensionCaseIgnored<V>(engines: TemplateEngines<V>, template: string, data: V, dir: string, stem: string, e1: string, e2: string)
    requires stem != "" && stem != "." && '/' !in stem
    requires '/' !in e1 && '.' !in e1 && '/' !in e2 && '.' !in e2
    requires ToLower(e1) == ToLower(e2)
    ensures var p1, p2 := dir + "/" + stem + "." + e1, dir + "/" + stem + "." + e2;
      RenderWith(engines, EngineOf(DispatchKey(p1)), template, data) == RenderWith(engines, EngineOf(DispatchKey(p2)), template, data)
    ensures var n1, n2 := stem + "." + e1, stem + "." + e2;
      RenderWith(engines, EngineOf(DispatchKey(n1)), template, data) == RenderWith(engines, EngineOf(DispatchKey(n2)), template, data)
  {
    SameLowerExtension(dir, stem, e1, e2);
  }

  /** Two file names, bare or behind directories, whose extensions differ only in letter case have the same key. */
  lemma SameLowerExtension(dir: string, stem: string, e1: string, e2: string)
    requires stem != "" && stem != "." && '/' !in stem
    requires '/' !in e1 && '.' !in e1 && '/' !in e2 && '.' !in e2
    requires ToLower(e1) == ToLower(e2)
    ensures DispatchKey(dir + "/" + stem + "." + e1) == DispatchKey(dir + "/" + stem + "." + e2)
    ensures DispatchKey(stem + "." + e1) == DispatchKey(stem + "." + e2)
  {
    ExtNameOfPath(dir, stem, e1);
    ExtNameOfPath(dir, stem, e2);
    LowerOfDotted(e1, e2);
  }

  /** Prefixing the same `.` keeps two case variants case variants. */
  lemma LowerOfDotted(e1: string, e2: string)
    requires ToLower(e1) == ToLower(e2)
    ensures ToLower("." + e1) == ToLower("." + e2)
  {
    var d1, d2 := "." + e1, "." + e2;
    forall k | 0 <= k < |d1|
      ensures ToLower(d1)[k] == ToLower(d2)[k]
    {
      if k > 0 {
        assert d1[k] == e1[k - 1] && d2[k] == e2[k - 1];
        assert ToLower(e1)[k - 1] == ToLower(e2)[k - 1];
      }
    }
    assert ToLower(d1) == ToLower(d2);
  }

  /** `dir/stem.e` and the bare `stem.e` both have extension `.e`. */
  lemma ExtNameOfPath(dir: string, stem: string, e: string)
    requires stem != "" && stem != "." && '/' !in stem && '/' !in e && '.' !in e
    ensures ExtName(dir + "/" + stem + "." + e) == "." + e
    ensures ExtName(stem + "." + e) == "." + e
  {
    var name := stem + "." + e;
    assert dir + "/" + stem + "." + e == dir + "/" + name;
    assert '/' !in name by { assert name == stem + ("." + e); }
    NotDotDot(stem, e);
    ExtNameOfLastSegment(dir, name);
    ExtNameOfFileName(stem, e);
  }

  /**
   * The key of `stem.e` (bare or behind directories) is `.e` lower-cased; for
   * a lower-case `e` it is `.e` itself, so every key of the tables is reached.
   */
  lemma DispatchKeyOfFileName(dir: string, stem: string, e: string)
    requires stem != "" && stem != "." && '/' !in stem && '/' !in e && '.' !in e
    ensures DispatchKey(stem + "." + e) == ToLower("." + e)
    ensures DispatchKey(dir + "/" + stem + "." + e) == ToLower("." + e)
    ensures (forall k :: 0 <= k < |e| ==> !('A' <= e[k] <= 'Z')) ==>
      DispatchKey(stem + "." + e) == "." + e && DispatchKey(dir + "/" + stem + "." + e) == "." + e
  {
    ExtNameOfPath(dir, stem, e);
    if forall k :: 0 <= k < |e| ==> !('A' <= e[k] <= 'Z') {
      LowerCaseDotted(e);
    }
  }

  /** A `.` in front of a lower-case extension keeps it lower-case. */
  lemma LowerCaseDotted(e: string)
    requires forall k :: 0 <= k < |e| ==> !('A' <= e[k] <= 'Z')
    ensures ToLower("." + e) == "." + e
  {
    var d := "." + e;
    forall k | 0 <= k < |d|
      ensures !('A' <= d[k] <= 'Z')
    {
      if k > 0 { assert d[k] == e[k - 1]; }
    }
    ToLowerKeepsLowerCase(d);
  }

  /** `stem.e` is the parent-directory name `..` only for the stem `.` and an empty `e`. */
  lemma NotDotDot(stem: string, e: string)
    requires stem != "" && stem != "."
    ensures stem + "." + e != ".."
  {
    if |stem| == 1 && e == "" {
      assert stem == [stem[0]];
      assert (stem + "." + e)[0] == stem[0] != '.';
    }
  }
}
