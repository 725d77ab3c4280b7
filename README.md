# Screenshot assertion helpers, modelled in Dafny

This project models the decision logic inside `chai-extras.js`, the chai plugin that adds the
`matchImage` assertion to the UI test suite. That assertion saves a captured screenshot, finds the
baseline image, runs ImageMagick's `compare`, and after a match scans the page for dangerous links.
The model covers:

- **Image names** (`ImageNames`): `endsWith`, the default `.png` extension, and how `matchImage`
  builds the captured and baseline file names. The prefix defaults to the suite title. A falsy
  `compareAgainst` defaults to the prefixed image name. An explicit one is used without the prefix.
- **Screenshot paths** (`ScreenshotPaths`): the search for the baseline directory among the
  configured candidates, including the rewrite of a single configured directory into a list.
  The configuration is a `Config` class whose method updates that field in place. The expected and
  processed file paths are also modelled.
- **Comparison outcome** (`ImageComparison`): how the finished `compare` process is read. Status 127
  or an `ENOENT` launch error means the command was not found. Any other non-zero status means no
  match. Otherwise the `parseInt` of stdout followed by stderr decides: NaN is an output error, 0 is
  a match, anything else is a mismatch. The comparison threshold has no effect.
- **Rendering logs** (`PageLogs`): the indented "Rendering logs:" block of a failure report.
- **Dangerous links** (`DangerousLinks`): the in-page scan. It reports every anchor whose `href` has
  a `javascript:`, `vbscript:` or `data:` scheme, except `javascript:` snippets on the allow-list
  (each may have any number of trailing semicolons). Reports keep document order.
- **JavaScript primitives** (`JsStrings`): `String.prototype.substr`, and `parseInt` without a
  radix. `parseInt` skips ECMAScript whitespace, reads an optional sign, switches to hexadecimal
  after `0x`/`0X`, and takes the longest run of digits. `None` stands for NaN.

The model follows the code:

- When no candidate baseline directory exists, the loop leaves the **last** candidate's path in
  place.
- An empty candidate list leaves the directory `undefined`, so `path.join` throws. The model
  returns `None` for it.
- A `javascript:` URL whose body contains a line terminator fails the allow-list regular expression
  (`.` does not match line terminators). The model keeps this check, and `WhitelistIff` shows that
  it never changes the verdict.

The inputs the source gets from I/O are parameters:

- the `spawnSync` result record;
- the set of paths that are directories on disk;
- the suite title and base directory;
- the `store-in-ui-tests-repo` option and the UI tests directory;
- the page's console messages;
- the page's anchors, as (innerText, href) pairs in document order. An absent `href` is `None`.

## Model

| member | source | states |
|---|---|---|
| `JsStrings.Substr` | tests/lib/screenshot-testing/support/chai-extras.js:205 | `substr` with a negative start counts from the end, clamped at 0; the result is the slice of the string at that start whose length is the requested length clamped to what remains |
| `JsStrings.DigitRun` | tests/lib/screenshot-testing/support/chai-extras.js:127 | the digits `parseInt` reads are the longest digit prefix: a prefix, all digits, and followed by no further digit |
| `JsStrings.ParseDecimal` | tests/lib/screenshot-testing/support/chai-extras.js:127 | after any whitespace, the decimal rendering of every natural `n` parses back to `n`, whatever non-digit text follows (except an `x` after a lone `0`) |
| `JsStrings.ParseInt` | tests/lib/screenshot-testing/support/chai-extras.js:127 | a number is read only when a decimal digit follows the whitespace and the optional sign (a hex prefix starts with `0`); it is negative only after a `-` |
| `JsStrings.ParseNoDigits` | tests/lib/screenshot-testing/support/chai-extras.js:127-128 | output containing no decimal digit parses to NaN, whatever letters it holds |
| `ImageNames.EndsWith` | tests/lib/screenshot-testing/support/chai-extras.js:203-206 | `endsWith(s, needle)` holds exactly when `needle` is a suffix of `s`, compared character by character |
| `ImageNames.EndsWithEdgeCases` | tests/lib/screenshot-testing/support/chai-extras.js:203-206 | the empty needle ends every string; a needle longer than the string ends none |
| `ImageNames.AssumeFileIsImage` | tests/lib/screenshot-testing/support/chai-extras.js:196-201 | a name ending in `.png` or `.txt` is unchanged, any other gets `.png` appended, and the result always ends in `.png` or `.txt` |
| `ImageNames.AssumeFileIsImageIdempotent` | tests/lib/screenshot-testing/support/chai-extras.js:196-201 | normalising twice is normalising once, so the repeated calls at lines 45, 179 and 191 agree |
| `ImageNames.ToParams` | tests/lib/screenshot-testing/support/chai-extras.js:31-33 | a bare string argument becomes a parameter object with only `imageName` set |
| `ImageNames.ResolveNames` | tests/lib/screenshot-testing/support/chai-extras.js:35-46 | image name = normalised `prefix + "_" + imageName`, with the prefix defaulting to the suite title when falsy; a falsy `compareAgainst` gives the same name; an explicit one is normalised without the prefix; both names end in `.png` or `.txt` |
| `ScreenshotPaths.Candidates` | tests/lib/screenshot-testing/support/chai-extras.js:165-167 | a single configured directory is a one-element candidate list; a list is kept as it is |
| `ScreenshotPaths.FindExpectedScreenshotDir` | tests/lib/screenshot-testing/support/chai-extras.js:168-175 | no candidates gives no directory; otherwise the result is the joined path of the first existing candidate, or of the last candidate when none exists |
| `ScreenshotPaths.ExpectedDirChoiceUnique` | tests/lib/screenshot-testing/support/chai-extras.js:168-175 | those conditions determine the chosen directory uniquely |
| `ScreenshotPaths.Config.ExpectedScreenshotPath` | tests/lib/screenshot-testing/support/chai-extras.js:164-176 | the configuration's single directory is rewritten as a one-element list, nothing else in it changes, and the result is the choice above over the candidates |
| `ScreenshotPaths.Config.ExpectedFilePath` | tests/lib/screenshot-testing/support/chai-extras.js:178-182 | the expected file is the normalised name inside the chosen directory; it is absent (a thrown `path.join`) exactly when there is no candidate |
| `ScreenshotPaths.Config.ProcessedScreenshotDir` | tests/lib/screenshot-testing/support/chai-extras.js:185-186 | the processed directory is exactly the configured sub-directory under the UI tests directory when so configured, else under the suite's base directory |
| `ScreenshotPaths.Config.ProcessedFilePath` | tests/lib/screenshot-testing/support/chai-extras.js:184-194 | the processed file is the normalised name inside the processed directory; an already normalised name is used unchanged |
| `ImageComparison.IsCommandNotFound` | tests/lib/screenshot-testing/support/chai-extras.js:159-162 | status 127 always means the command was not found; otherwise only a launch error can mean it; without a launch error it is exactly status 127 |
| `ImageComparison.CompareImages` | tests/lib/screenshot-testing/support/chai-extras.js:119-162 | command-not-found exactly on status 127 or an `ENOENT` error; otherwise a non-zero status is a mismatch; otherwise NaN output is an output error carrying stdout+stderr; a match exactly when the parsed pixel error is 0 |
| `ImageComparison.ThresholdIgnored` | tests/lib/screenshot-testing/support/chai-extras.js:137-154 | the comparison threshold never changes the outcome |
| `ImageComparison.ReportedPixelCount` | tests/lib/screenshot-testing/support/chai-extras.js:126-135 | an exit-0 run that prints a count `n`, on either stream, matches exactly when `n` is 0 |
| `ImageComparison.NonNumericOutput` | tests/lib/screenshot-testing/support/chai-extras.js:126-130 | an exit-0 run whose output has no decimal digit is an output error, not a mismatch |
| `ImageComparison.ErrorTextIsUnparseable` | tests/lib/screenshot-testing/support/chai-extras.js:126-130 | an exit-0 run printing `compare: unable to open image` is an output error |
| `ImageComparison.FailureMessage` | tests/lib/screenshot-testing/support/chai-extras.js:119-130 | a finished comparison has no message; each of the two failures has one that starts by naming the command; the unparseable-output one ends with everything the tool printed |
| `PageLogs.IndentNewlines` | tests/lib/screenshot-testing/support/chai-extras.js:213 | re-indenting never shortens a message; its other properties are the lemmas below |
| `PageLogs.IndentNewlinesAppend` | tests/lib/screenshot-testing/support/chai-extras.js:213 | replacing line breaks distributes over concatenation |
| `PageLogs.IndentNewlinesAtBreak` | tests/lib/screenshot-testing/support/chai-extras.js:213 | every line break inside a message is followed by the continuation indent |
| `PageLogs.IndentNewlinesNoBreak` | tests/lib/screenshot-testing/support/chai-extras.js:213 | a message without line breaks is unchanged |
| `PageLogs.UnindentIndentNewlines` | tests/lib/screenshot-testing/support/chai-extras.js:213 | removing the indent after each line break recovers the original message |
| `PageLogs.PageLogsText` | tests/lib/screenshot-testing/support/chai-extras.js:208-218 | the block is empty exactly when there is no message |
| `PageLogs.TerminatedIsJoined` | tests/lib/screenshot-testing/support/chai-extras.js:212-215 | lines each followed by a line break, minus the last break, are the lines joined by line breaks |
| `PageLogs.GetPageLogsString` | tests/lib/screenshot-testing/support/chai-extras.js:208-218 | the accumulate-then-trim loop yields the header followed by the message lines joined by line breaks, or nothing when there are no messages |
| `PageLogs.PageLogsSingle` | tests/lib/screenshot-testing/support/chai-extras.js:211-215 | one message gives `"\n\n" + indent + "Rendering logs:\n" + indent + "  "` and the re-indented message |
| `PageLogs.PageLogsAppend` | tests/lib/screenshot-testing/support/chai-extras.js:212-215 | each further message adds one line break and its line |
| `PageLogs.PageLogsNoTrailingNewline` | tests/lib/screenshot-testing/support/chai-extras.js:213-215 | the block never ends with a line break |
| `DangerousLinks.StripTrailingSemicolons` | tests/lib/screenshot-testing/support/chai-extras.js:254 | the lazy capture of `(.*?);*$` is a prefix of the body, followed only by semicolons, and does not itself end with one |
| `DangerousLinks.JavaScriptCode` | tests/lib/screenshot-testing/support/chai-extras.js:254-259 | the regular expression matches only `javascript:` URLs, and matches every one whose body has no line terminator; the capture does not end in `;` |
| `DangerousLinks.JavaScriptCodeCapture` | tests/lib/screenshot-testing/support/chai-extras.js:254 | on a match the href is `javascript:`, the capture, and some number of semicolons |
| `DangerousLinks.CodeOfScriptWithSemicolons` | tests/lib/screenshot-testing/support/chai-extras.js:254 | a one-line body not ending in `;`, followed by any number of semicolons, is captured as that body |
| `DangerousLinks.ListedCodeShape` | tests/lib/screenshot-testing/support/chai-extras.js:247-252 | the allow-listed snippets hold no line terminator and do not end in `;` |
| `DangerousLinks.IsWhitelistedJavaScript` | tests/lib/screenshot-testing/support/chai-extras.js:246-261 | only a `javascript:` URL whose body, less its trailing semicolons, is on the list is accepted; a listed body with no semicolon is always accepted |
| `DangerousLinks.StripOfCodeWithSemicolons` | tests/lib/screenshot-testing/support/chai-extras.js:254 | stripping code that does not end in `;`, followed by `k` semicolons, gives back the code |
| `DangerousLinks.WhitelistedWithSemicolons` | tests/lib/screenshot-testing/support/chai-extras.js:246-261 | every allow-listed snippet with any number of trailing semicolons is accepted |
| `DangerousLinks.WhitelistedShape` | tests/lib/screenshot-testing/support/chai-extras.js:246-261 | only an allow-listed snippet followed by semicolons is accepted |
| `DangerousLinks.WhitelistIff` | tests/lib/screenshot-testing/support/chai-extras.js:246-261 | acceptance holds exactly when the href is `javascript:` + an allow-listed snippet + some semicolons |
| `DangerousLinks.HasScriptScheme` | tests/lib/screenshot-testing/support/chai-extras.js:236 | every `javascript:` URL has a script scheme; a flagged scheme starts the href with `j`, `v` or `d` and ends in a colon within its first 11 characters |
| `DangerousLinks.IsDangerous` | tests/lib/screenshot-testing/support/chai-extras.js:236 | a flagged anchor has an `href` with a script scheme; a `vbscript:` or `data:` `href` is always flagged |
| `DangerousLinks.Describe` | tests/lib/screenshot-testing/support/chai-extras.js:237 | the entry starts with the anchor's text and ends with its `href` and a closing `]` |
| `DangerousLinks.DangerousIff` | tests/lib/screenshot-testing/support/chai-extras.js:236 | an href is flagged exactly when it has a script scheme and is not an accepted snippet; `vbscript:` and `data:` URLs are always flagged |
| `DangerousLinks.DangerousLinkReport` | tests/lib/screenshot-testing/support/chai-extras.js:232-239 | the report has at most one entry per anchor |
| `DangerousLinks.CheckForDangerousLinks` | tests/lib/screenshot-testing/support/chai-extras.js:229-241 | the scan loop yields the report: one `innerText + " - [href = " + href + "]"` per flagged anchor, in document order |
| `DangerousLinks.ReportAppend` | tests/lib/screenshot-testing/support/chai-extras.js:232-239 | the report of a page in two parts is the first part's report followed by the second's |
| `DangerousLinks.ReportEntries` | tests/lib/screenshot-testing/support/chai-extras.js:232-239 | every entry describes a flagged anchor, and every flagged anchor has its entry |
| `DangerousLinks.ReportEmptyIff` | tests/lib/screenshot-testing/support/chai-extras.js:241-263 | the check passes (the list serialises to `"[]"`) exactly when no anchor is flagged |
| `DangerousLinks.ScriptCallIsDangerous` | tests/lib/screenshot-testing/support/chai-extras.js:236 | `javascript:alert(1)` is flagged |
| `DangerousLinks.VoidIsTolerated` | tests/lib/screenshot-testing/support/chai-extras.js:247-260 | `javascript:void(0)` is not flagged |
| `DangerousLinks.HistoryBackWithSemicolonIsTolerated` | tests/lib/screenshot-testing/support/chai-extras.js:247-260 | `javascript:window.history.back();` is not flagged |
| `DangerousLinks.MissingHrefIsSafe` | tests/lib/screenshot-testing/support/chai-extras.js:235-236 | an anchor without `href` (tested as the text "null") is never reported |

## Left out

- Process and file-system effects are inputs, not modelled: `spawnSync` (line 117), the file
  writes and directory creation (lines 53-60, 188-189), and the `fs.isFile` tests of the expected
  and processed files (lines 63, 82-83). Directory existence is a given set of paths.
- The chai plumbing is not modelled: `this.assert`, `chai.assert`, `AssertionError`, the
  `error.stack` rewrite, the try/catch that re-raises through `fail` (lines 62-104), and the
  failure report built from `page.url()` and `path.resolve` (lines 87-96). Only its log block,
  `getPageLogsString`, is modelled.
- The global state `app`, `config`, `options` and `uiTestsDir` is passed in as parameters or as
  the `Config` object. The missing-baseline list (line 64) is not modelled.
- Browser access is not modelled: `pageRenderer.webpage.evaluate`, `document.getElementsByTagName`,
  `innerText`, and the fallback that returns an in-page exception's message (lines 242-244).
- `JSON.stringify` is used only through the fact that the empty list serialises to `"[]"`.
- `ScreenshotPaths.PathJoin`: `path.join` and `path.resolve` are modelled as joining with `/`.
  Node's normalisation of `.`, `..` and repeated separators is not modelled.
- `JsStrings.ParseInt` reads into an unbounded integer. Floating-point rounding of very long digit
  runs is not modelled; it cannot turn a non-zero count into 0.
- The commented-out threshold comparison (lines 137-152) is not implemented in the source, and is
  not modelled either.
- `PageLogs.IndentNewlines` takes the pad literally. `String.prototype.replace` would expand `$$`,
  `$&`, `` $` `` and `$'` in its replacement text. These patterns are not modelled because the only
  indent passed is five spaces (line 90).
- JavaScript strings are UTF-16; the model uses sequences of Unicode scalar values.
