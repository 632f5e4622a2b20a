# apparel — a verified model of source resolution and format dispatch

apparel is a command-line tool that fills a template with variables taken
from a configuration file. Both files are named by a *specifier*: a local
path, an `http://` or `https://` URL, or a shorthand repository reference
starting with `@`. The file extension chooses the config parser (JSON, JSON5,
YAML, TOML, XML, or "JSON, else YAML") and the template engine (Handlebars,
Liquid, EJS, Nunjucks, or Handlebars by default). Extensions are matched
without regard to case.

This project models the logic the tool owns, all of it in `src/index.js`:

- `getFileContent` classifies a specifier and builds the shorthand URL.
  `fetchFile` builds its failure message.
- `parseConfig` and `renderTemplate` dispatch on the extension, fall back
  for unknown extensions, and wrap every failure into one message.

Everything is pure. The network, the file system, the parsers and the
template engines are parameters of the functions that use them.

Files:

- `results.dfy` holds `Result`: a value, or a failure with a message.
- `js_strings.dfy` holds the JavaScript string operations used: `startsWith`,
  `split` and `join` on one character, `toLowerCase`, and the decimal form
  of a number.
- `node_path.dfy` holds Node's `path.extname`, modelled on its own after
  Node's rule for POSIX paths.
- `sources.dfy` holds classification, the shorthand URL, `fetchFile` and
  `getFileContent`.
- `formats.dfy` holds the extension tables, `parseConfig` and
  `renderTemplate`.

The help text and a comment in the source call the shorthand form
`@repo/file` (`src/index.js:39`, `src/index.js:128`), which reads as naming
the repository by the text after the `@`. The code does otherwise. It splits
the specifier on `/`, drops the whole first segment (`@` included) and takes
the *second* segment as the repository (`src/index.js:41`). So
`@scope/repo/dir/file.json` fetches
`https://raw.githubusercontent.com/n-p-x/repo/main/dir/file.json`, while
`@repo/file.json` fetches `.../n-p-x/file.json/main/`. The model follows the
code.

## Model

| member | source | states |
|---|---|---|
| `JsStrings.StartsWith` | src/index.js:40 | `s.startsWith(prefix)` holds exactly when `s` is `prefix` followed by the rest of `s` |
| `JsStrings.Join` | src/index.js:42 | `join('/')` of no pieces is empty; otherwise the first piece opens the result, followed by the separator when there is a second piece |
| `JsStrings.Split` | src/index.js:41 | `split('/')` yields at least one piece, and no piece contains the separator |
| `JsStrings.SplitThenJoin` | src/index.js:41-42 | joining the pieces of a split with the same separator gives back the original string |
| `JsStrings.JoinThenSplit` | src/index.js:41-42 | splitting a join of separator-free pieces gives back those pieces, so `split` and `join` are mutually inverse |
| `JsStrings.ToLower` | src/index.js:57 | lower-casing keeps the length, maps each character by itself, and leaves no upper-case ASCII letter |
| `JsStrings.ToLowerKeepsLowerCase` | src/index.js:57 | lower-casing a string with no upper-case letter, such as every table key, changes nothing |
| `JsStrings.Decimal` | src/index.js:33 | the status code's decimal digits in the template literal are a non-empty string of decimal digits with no leading zero |
| `JsStrings.DecimalRoundTrip` | src/index.js:33 | reading those digits back gives the status code |
| `NodePath.ExtName` | src/index.js:57 | an extension is empty, or a `.` followed by text with no `.` and no `/` |
| `NodePath.ExtNameIgnoresTrailingSlash` | src/index.js:57 | a trailing `/` does not change the extension |
| `NodePath.ExtNameOfLastSegment` | src/index.js:91 | only the last path segment decides the extension; the directories never matter |
| `NodePath.ExtNameOfFileName` | src/index.js:57 | the name `stem.e` has extension `.e` when `e` has no `.` or `/` |
| `NodePath.ExtNameWithoutDot` | src/index.js:57 | a last segment without a `.` has the empty extension, which falls to the default branch |
| `NodePath.ExtNameOfDotFile` | src/index.js:91 | a dot file such as `.env` has the empty extension |
| `Sources.IsHttpUrl` | src/index.js:48 | a specifier passing the `http://` or `https://` test starts with `http`, so never with `@` |
| `Sources.ShorthandUrl` | src/index.js:41-43 | every shorthand URL starts with `https://raw.githubusercontent.com/n-p-x/` |
| `Sources.Classify` | src/index.js:38-54 | `@` specifiers are remote via the shorthand URL, whatever follows. Other `http://` or `https://` specifiers are remote and unchanged. Everything else is local, with the same path. Every remote URL is an http(s) URL |
| `Sources.HttpUrlIsNotShorthand` | src/index.js:40-50 | an `http://` or `https://` specifier is fetched as given: the `@` test before it can never claim it |
| `Sources.ShorthandUrlWithPath` | src/index.js:41-43 | `first/repo/path` (with no `/` in `first` or `repo`) resolves to the base, then `repo/main/path`. The first segment never reaches the URL |
| `Sources.ShorthandUrlWithoutPath` | src/index.js:41-43 | `first/repo` resolves to the base, then `repo/main/`, with an empty path |
| `Sources.ShorthandUrlWithoutSlash` | src/index.js:41-43 | a specifier with no `/` resolves to the base, then `undefined/main/` |
| `Sources.ShorthandIgnoresFirstSegment` | src/index.js:41-43 | two specifiers that differ only in their first segment resolve to the same URL |
| `Sources.ShorthandSpecifierResolves` | src/index.js:40-44 | a specifier `@x/repo/path` is classified remote, with exactly the URL `https://raw.githubusercontent.com/n-p-x/repo/main/path` |
| `Sources.IsOkStatus` | src/index.js:32 | `response.ok` holds exactly for the 2xx statuses |
| `Sources.FetchFailure` | src/index.js:33 | the failure message starts `Failed to fetch <url>: `, ends with a space and the status text, and has room for exactly the status code's digits between them |
| `Sources.FetchFile` | src/index.js:30-36 | a rejected request propagates its own error. A response with status 200 to 299 yields its body. Any other response fails with exactly the message `Failed to fetch <url>: <status> <statusText>` |
| `Sources.FetchFailureCarriesStatus` | src/index.js:33 | the failure message can be read apart: the status in decimal right after `<url>: `, reading back to the status code, then a space, then the status text to the end |
| `Sources.GetFileContent` | src/index.js:38-54 | `@` specifiers fetch the shorthand URL. Other http(s) specifiers fetch themselves. Only the remaining specifiers are read from the file system, at the same path |
| `Sources.ShorthandNeverReadsLocally` | src/index.js:40-45 | the result for an `@` specifier does not depend on the file system at all |
| `Formats.DispatchKey` | src/index.js:57 | the key the switches look at is empty or starts with `.`, and holds no upper-case ASCII letter |
| `Formats.DispatchKeyOfFileName` | src/index.js:57 | the key of `stem.e`, bare or behind directories, is `.e` lower-cased, and `.e` itself when `e` is lower-case, so every table key is reachable |
| `Formats.ConfigFormatOf` | src/index.js:60-84 | the config `switch` agrees with the extension registry, and it selects the JSON-then-YAML fallback exactly for the keys outside the registry |
| `Formats.ConfigSwitchTable` | src/index.js:60-84 | the config `switch` selects JSON for `.json`, JSON5 for `.json5`, YAML for both `.yml` and `.yaml`, TOML for `.toml` and XML for `.xml` |
| `Formats.EngineOf` | src/index.js:94-115 | the template `switch` agrees with the engine registry, and every key outside the registry selects Handlebars |
| `Formats.EngineSwitchTable` | src/index.js:94-115 | the template `switch` selects Handlebars for both `.hbs` and `.handlebars`, Liquid for `.liquid`, EJS for `.ejs` and Nunjucks for both `.jinja` and `.j2` |
| `Formats.ParseAs` | src/index.js:61-83 | XML is parsed with the fixed options. The fallback succeeds exactly when JSON or YAML does; it keeps the JSON value when JSON succeeds, and otherwise is the YAML outcome |
| `Formats.RenderWithOnlyItsEngine` | src/index.js:94-115 | each arm of the template `switch` calls only its own engine: replacing any other engine leaves the outcome unchanged |
| `Formats.WrapConfigFailure` | src/index.js:85-87 | success passes through unchanged. A failure becomes `Failed to parse config file <path>: ` followed by the parser's own message |
| `Formats.WrapTemplateFailure` | src/index.js:116-118 | success passes through unchanged. A failure becomes `Failed to render template <path>: ` followed by the engine's own message |
| `Formats.ParseConfig` | src/index.js:56-88 | the full extension table. `.json`, `.json5`, `.toml` and `.xml` (with its fixed options) select their parser, and `.yml` and `.yaml` both select YAML. Any other extension gives the JSON outcome if it succeeds, else the YAML outcome. Every failure carries the config prefix and path |
| `Formats.RenderTemplate` | src/index.js:90-119 | the full extension table, as intended: `.hbs`, `.handlebars` and every unlisted extension select Handlebars; `.liquid` selects Liquid, `.ejs` EJS, and `.jinja` and `.j2` both select Nunjucks. Every failure carries the template prefix and path |
| `Formats.RenderTemplateAsWritten` | src/index.js:90-119 | as written: a Liquid outcome is returned unwrapped, and every other extension behaves as in `RenderTemplate` |
| `Formats.LiquidFailureEscapesWrapper` | src/index.js:100-102 | a failing Liquid render reaches the caller unwrapped as written, so it differs from the wrapped failure that was intended |
| `Formats.FallbackKeepsJson` | src/index.js:77-83 | unknown extension and JSON succeeds: the JSON value is the result, and replacing the YAML parser changes nothing |
| `Formats.FallbackYieldsYaml` | src/index.js:77-83 | unknown extension and JSON fails: the result is the wrapped YAML outcome, and the JSON error never shows |
| `Formats.FallbackAgreesWithExplicitFormats` | src/index.js:61-83 | an unknown extension parses exactly as `.json` when the content is JSON. It parses exactly as `.yaml` when the content is only YAML |
| `Formats.UnknownTemplateRendersAsHandlebars` | src/index.js:95-114 | an unknown template extension and `.hbs` both produce the wrapped Handlebars outcome for the same template and data |
| `Formats.ConfigExtensionCaseIgnored` | src/index.js:57 | two file names, bare or behind the same directories, whose extensions differ only in letter case pick the same parser with the same outcome |
| `Formats.TemplateExtensionCaseIgnored` | src/index.js:91 | two file names, bare or behind the same directories, whose extensions differ only in letter case pick the same engine with the same outcome |
| `Formats.SameLowerExtension` | src/index.js:57 | two file names, bare or behind the same directories, whose extensions differ only in letter case have the same key |

## Left out

- The HTTP request, `fs.readFile`, `fs.writeFile` and `process.stdout.write`
  are I/O. They are left out. The network and the file system are the
  `fetch` and `read` parameters of `GetFileContent`. A failure while reading
  a response body is not modelled.
- The JSON, JSON5, YAML, TOML and XML parsers and the Handlebars, Liquid,
  EJS and Nunjucks engines are third-party libraries. They are the function
  fields of `ConfigParsers` and `TemplateEngines`. Their behaviour, and the
  shape of the parsed config (the type parameter `V`), are not modelled.
- The process-wide engine setup at start-up is not modelled. That is the
  `repeat` helper, the helper library and Nunjucks' autoescape switch. It
  changes what the engines do, and the engines are parameters.
- The command-line wiring in `main` is not modelled: progress lines,
  `Error: ` reporting and exit status 1. Neither is `async` sequencing.
  The pipeline is a straight line of the modelled calls.
- `JsStrings.ToLower`: only ASCII letters are lower-cased. JavaScript's
  `toLowerCase` also maps other Unicode letters. Every extension in the
  tables is lower-case ASCII, and none contains `k`. So no Unicode mapping
  other than the ASCII one can make an extension match a table entry. The
  one non-ASCII letter whose lower-case form is ASCII is the Kelvin sign,
  which maps to `k`.
- `NodePath.ExtName` follows Node's POSIX rule. Windows separators (`\`) are
  not modelled.
- `Formats.RenderTemplateAsWritten`: every Liquid failure counts as a
  rejected promise. A failure that liquidjs raised synchronously would be
  wrapped; that case is not modelled.
- A value thrown without a `message` (not an `Error`) is not modelled. Every
  failure carries a string message.

## Findings

| source | as written | input that shows it | evidently intended | confidence | as-written member | corrected member |
|---|---|---|---|---|---|---|
| src/index.js:100-102 | in an `async` function, the Liquid branch returns `liquid.parseAndRender(...)` from inside `try` without `await`, so when that promise rejects the `catch` at 116-118 never runs | a `.liquid` template whose rendering fails, e.g. one containing `{% include 'missing' %}`: the error reaches `main` with liquidjs's own message, without `Failed to render template <path>: ` | every engine failure is wrapped with the template prefix and path, as the other branches are | medium (depends on liquidjs reporting the failure as a rejected promise); not executed | `Formats.RenderTemplateAsWritten`, `Formats.LiquidFailureEscapesWrapper` | `Formats.RenderTemplate` |
