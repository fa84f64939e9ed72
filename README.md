# PDF-to-Game Factory, modelled in Dafny

The factory turns a PDF into an HTML learning game through five agents arranged
as a "diamond":

- The **extractor** converts the document to Markdown. It asks the model for a
  JSON summary of the first 8000 characters and attaches the whole Markdown
  under `full_markdown`.
- The **architect** designs a game structure.
- The **reviewer** returns an `(approved, feedback)` pair.
- The **refiner** rewrites the structure from that feedback.
- The **builder** renders the Jinja2 template `templates/<game_type>_game.html`
  with the structure. When the template is missing it raises a
  `FileNotFoundError` whose message lists the `.html` files that do exist.

Every model reply goes through `_extract_json`, which makes two regex deletion
passes (first "```json" and the whitespace after it, then "```" and the
whitespace after it), calls `strip()` and tries `json.loads` once. If decoding
fails, the result is `{}`.

`run_diamond_workflow` runs the extractor once. It then makes at most
`max_retries` attempts: the architect on the first, the refiner on each later
one. A non-empty structure is reviewed and an empty one is skipped. The loop
stops at the first approval, and the builder runs on whatever structure the last
attempt left. The setup script checks the Python version, copies the three
shipped templates into `templates/`, creates `.env` and `requirements.txt` when
they are absent, and prints a summary that decides whether the setup is
complete.

The project is organised as follows:

- `wrappers.dfy`: Option and Result.
- `json.dfy`: decoded JSON values, Python truthiness and `dict.get`.
- `collections.dfy`: general facts about sequences and sets.
- `text.dfy`: the pieces of `str` the code uses (`isspace`, `startswith`,
  `endswith`, `in`, `strip`).
- `fences.dfy`: `_extract_json`.
- `agents.dfy`: what the agents do with their replies.
- `diamond.dfy`: the retry loop, both as a specification function (`Run`) and as
  the `Factory` class whose methods record every agent call.
- `setup.dfy`: the setup script, with a `Workspace` class holding `templates/`
  and the current directory as file-name-to-content maps.

Five behaviours of the code are easy to miss:

- **Refiner result replaces the structure.** Line 367 of `STEM/app.py` assigns
  the refiner's result unconditionally. An attempt that yields `{}` therefore
  replaces the previous structure. An empty last
  attempt makes the builder run on `{}`, which falls back to the `matching`
  template (`Diamond.AttemptSource`, `Agents.TemplateFile`).
- **The summary always holds `full_markdown`.** The extractor stores the document under
  `full_markdown`. Because it always adds that key, the summary is never empty,
  and the `ValueError` at line 351 cannot be raised.
  `Diamond.Factory.RunDiamondWorkflow` still models that branch as `NoContent`.
- **Only the lowercase "```json" tag is deleted.** Any other language tag loses
  its backticks but keeps its word, e.g. "```python" leaves `python` in front of
  the JSON (`Fences.OtherTagKept`).
- **`game_structure` starts as `None`, and a failed decode returns `{}`.** The
  architect and refiner return the `{}` of a failed decode. It is falsy, so it
  is what skips the review.
- **Chat failures are not caught.** Only `JSONDecodeError` is caught
  (`STEM/app.py:340`). Two kinds of chat failure escape the loop:
  - an exception raised by a chat call (lines 162, 226, 262 and 291);
  - a reply whose content is `None`, which makes `re.sub` at line 334 raise
    `TypeError`.

  Either one aborts `run_diamond_workflow` without building anything. The model
  takes every reply to be a string, so it has no such path (see "Left out").

## Model

| member | source | states |
|---|---|---|
| Text.IsSpace | STEM/app.py:334-336 | `str.isspace()` and the regex class `\s`, over Python's whitespace code points. These include space, tab, newline and carriage return, but never a backtick or a lowercase letter. |
| Text.Contains | STEM/setup.py:87 | Python's `p in s`. The empty pattern occurs everywhere, and a pattern occurs only in a string at least as long. |
| JsonValue.FalsyValues | STEM/app.py:376 | Python's truthiness as `Truthy` computes it: the falsy values are exactly None, False, 0, "", [] and {}. |
| JsonValue.Get | STEM/app.py:269 | `dict.get(key, default)`: the value under the key when present, the default otherwise. |
| Text.TrimStart | STEM/app.py:334-336 | The result is a suffix of the input. Everything it drops is whitespace (the `\s` class). It does not start with whitespace. |
| Text.TrimEnd | STEM/app.py:336 | The result is a prefix of the input. Everything it drops is whitespace. It does not end with whitespace. |
| Text.Strip | STEM/app.py:336 | `strip()` leaves no whitespace at either end. |
| Text.StripIdempotent | STEM/app.py:336 | `strip()` applied twice is `strip()` applied once. |
| Text.StripContains | STEM/app.py:336 | `strip()` keeps a contiguous piece of its input, so any substring of the result is a substring of the input. |
| Text.ContainsAt | STEM/setup.py:87 | Python's `p in s` holds exactly when `p` occurs at some index of `s`. |
| Text.StripKeepsWord | STEM/app.py:336 | `strip()` keeps a leading non-space word at the front. |
| Fences.OpensFence | STEM/app.py:335 | The character-wise guard is exactly "the text starts with ```". |
| Fences.OpensJsonFence | STEM/app.py:334 | The character-wise guard is exactly "the text starts with ```json" (lowercase only). |
| Fences.ExtractJson | STEM/app.py:331-343 | `_extract_json` never fails as long as `json.loads` raises only `JSONDecodeError`. A failed decode of the cleaned text gives `{}`; otherwise the result is the decoded dict. |
| Fences.DropFencesLeavesNoFence | STEM/app.py:335 | After the second deletion pass no "```" remains anywhere in the text. |
| Fences.DropJsonFences | STEM/app.py:334 | `re.sub(r'```json\s*', '', text)`. It scans left to right, deletes each "```json" with the whitespace after it, resumes behind the match and copies every other character. The result is never longer than the input. |
| Fences.DropFences | STEM/app.py:335 | `re.sub(r'```\s*', '', text)`, scanned the same way. The result is never longer than the input. |
| Fences.StripFences | STEM/app.py:334-336 | The two passes followed by `strip()`. This text is what is handed to `json.loads`. It contains no "```" and has no whitespace at either end. |
| Fences.StripFencesIdempotent | STEM/app.py:334-336 | Cleaning an already cleaned reply changes nothing. |
| Fences.NoBacktickOnlyStrips | STEM/app.py:334-336 | For a reply without backticks, the cleaning is just `strip()`. |
| Fences.DropJsonFencesIdentity | STEM/app.py:334 | The first pass leaves a text containing no "```" unchanged. |
| Fences.DropFencesIdentity | STEM/app.py:335 | The second pass leaves a text containing no "```" unchanged. |
| Fences.DropJsonFencesPrefix | STEM/app.py:334 | A backtick-free prefix passes through the first pass unchanged, and the rest is processed on its own. |
| Fences.DropFencesPrefix | STEM/app.py:335 | A backtick-free prefix passes through the second pass unchanged, and the rest is processed on its own. |
| Fences.DropJsonFencesCopies | STEM/app.py:334 | A first character that does not open "```json" is copied to the output. |
| Fences.DropFencesCopies | STEM/app.py:335 | A first character that does not open "```" is copied to the output. |
| Fences.JsonOpeningDropped | STEM/app.py:334 | A "```json" is deleted together with all the whitespace after it, and scanning resumes behind it. |
| Fences.BareOpeningDropped | STEM/app.py:335 | A "```" is deleted together with all the whitespace after it, and scanning resumes behind it. |
| Fences.NoJsonFenceBeforeFence | STEM/app.py:334 | Appending the closing "```" to a text with no "```" in it creates no "```json". |
| Fences.DropJsonFencesNoJson | STEM/app.py:334 | The first pass leaves a text unchanged when it contains no "```json". |
| Fences.BackticksIntoFence | STEM/app.py:335 | A body with no "```" that runs into the closing fence as an opening "```" is one or two backticks. |
| Fences.ClosingFenceKept | STEM/app.py:334 | After a body with no "```" in it, the first pass leaves the closing "```" in place. |
| Fences.ClosingFenceDropped | STEM/app.py:335 | After a body with no "```" in it, the second pass deletes exactly the closing "```", also when the body ends in one or two backticks that run into it. |
| Fences.JsonBlockFirstPass | STEM/app.py:334 | The first pass turns a ```json block whose body has no "```" into its left-trimmed body followed by the closing fence. |
| Fences.BareOpeningKept | STEM/app.py:334 | The first pass leaves a bare ``` block intact when its body has no "```" and starts with neither a backtick nor `json`. |
| Fences.BareBlockSecondPass | STEM/app.py:335 | The second pass turns a bare ``` block whose body has no "```" into its left-trimmed body. |
| Fences.JsonFencedBlock | STEM/app.py:334-336 | A ```json block whose body has no "```" (single backticks are fine) reaches `json.loads` as `strip(body)`. |
| Fences.BareFencedBlock | STEM/app.py:334-336 | A bare ``` block whose body has no "```" and starts with neither a backtick nor `json` reaches `json.loads` as `strip(body)`. |
| Fences.OtherTagKept | STEM/app.py:334-336 | A tag other than `json` (```python, say), with no "```" in the block, loses its backticks, but the tag word stays at the front of the decoded text. |
| Fences.ExtractJsonSameText | STEM/app.py:331-343 | Two replies that clean to the same text extract to the same dict. |
| Fences.ExtractJsonFenced | STEM/app.py:331-343 | Wrapping a JSON text with no "```" in it in a ```json block does not change the extracted dict. |
| Agents.DocumentExcerpt | STEM/app.py:151 | The prompt embeds the prefix of the document of length `min(len, 8000)`. |
| Agents.Summarize | STEM/app.py:134-169 | A failed conversion is re-raised. Otherwise the summary is the parsed reply to the excerpt with `full_markdown` set to the whole Markdown. Every other parsed key is kept with its value, no key is invented, and the summary is never empty. |
| Agents.ReviewVerdict | STEM/app.py:268-269 | `approved` and `feedback` are the dict's values when present. Otherwise they are `False` and "No feedback provided". |
| Agents.Review | STEM/app.py:268-269 | The reviewer's verdict is that of the decoded reply. An undecodable reply is a rejection carrying the generic feedback, so the loop fails closed. |
| Agents.GameTypeText | STEM/app.py:305-306 | The game type is `matching` when `game_type` is absent. A string value is used as is; any other value is rendered by `str()`. |
| Agents.TemplateFile | STEM/app.py:305-306 | The template name always ends in `_game.html`. It is `<game_type>_game.html` when the game type is a string, and `matching_game.html` when no game type is given. |
| Agents.Lookup | STEM/app.py:309 | The template is absent exactly when no directory entry has its name. When present, its content is that of an entry with that name. |
| Agents.HtmlNames | STEM/app.py:311 | The listed names are exactly the directory entries ending in `.html`. |
| Agents.JoinQuoted | STEM/app.py:315 | The names of a printed list, each in quotes and separated by ", ". It is empty exactly for no names, and otherwise starts and ends with a quote. |
| Agents.ListRepr | STEM/app.py:315 | The printed list is the joined names between "[" and "]". |
| Agents.TemplatePath | STEM/app.py:306 | The template path is `templates/` followed by the template file name, so it ends in `_game.html`. |
| Agents.NotFoundMessage | STEM/app.py:312-318 | The error message starts with "Template not found: ", the path and a blank line. It then ends with "Available templates: " and the printed list of available templates, or with the hint when there is none. |
| Agents.JoinQuotedNames | STEM/app.py:315 | Every name of the list appears quoted in its printed form. |
| Agents.NotFoundMessageContents | STEM/app.py:312-318 | The error message names every available `.html` template, quoted as in the printed list. |
| Agents.Build | STEM/app.py:305-329 | The builder fails exactly when no entry is named `<game_type>_game.html`, and then carries the diagnostic message. Otherwise it renders that entry's content with the structure. |
| Diamond.Feedback | STEM/app.py:356-374 | The variable `feedback` is "" while nothing has been reviewed. |
| Diamond.RefinerCalls | STEM/app.py:365-367 | These are the refiner's arguments, one call for each attempt after the first: the previous structure and the current `feedback`. |
| Diamond.ReviewerCalls | STEM/app.py:369-374 | These are the structures handed to the reviewer, one for each reviewed attempt, so there are at most as many as attempts. |
| Diamond.NextRound | STEM/app.py:363-374 | The next attempt takes the architect's structure first and the next refiner reply afterwards. It is reviewed, by the next reviewer reply, exactly when the structure is non-empty. |
| Diamond.Run | STEM/app.py:354-383 | The attempts of one run, up to approval or to `max_retries`. There are never more than `max_retries`, and fewer only when the last one was approved. |
| Diamond.RoundsExtends | STEM/app.py:358-378 | Further attempts only extend the attempts made so far. |
| Diamond.RoundsEnd | STEM/app.py:358-378 | The loop never exceeds `max_retries` attempts, and it ends either at the bound or on an approval. |
| Diamond.RoundsStep | STEM/app.py:358-378 | Each attempt is made below the bound, after no approval, and is determined by the attempts before it. |
| Diamond.AttemptBounds | STEM/app.py:358-359 | With `max_retries >= 1`, a run makes between 1 and `max_retries` attempts. |
| Diamond.ApprovalStopsLoop | STEM/app.py:376-378 | An approved attempt is the last attempt. |
| Diamond.EarlyExitMeansApproved | STEM/app.py:358-378 | A run shorter than `max_retries` ended on an approval. |
| Diamond.NoApprovalUsesAllAttempts | STEM/app.py:358-382 | Without any approval, every one of the `max_retries` attempts is made. |
| Diamond.AttemptSource | STEM/app.py:363-374 | Attempt 1 takes the architect's structure and attempt k+1 the k-th refiner reply, assigned even when empty. Only a non-empty structure is reviewed, by the next reviewer reply. |
| Diamond.RunContinues | STEM/app.py:358-378 | A prefix of a run that is neither approved nor at the bound is followed by the next attempt. |
| Diamond.RunEnds | STEM/app.py:376-378 | A prefix of a run that is approved or at the bound is the whole run. |
| Diamond.RoundAppended | STEM/app.py:363-374 | One more attempt updates `feedback` only when reviewed. It adds a refiner call with the previous structure and feedback after the first attempt, and adds a reviewer call only for a non-empty structure. |
| Diamond.RefinerArguments | STEM/app.py:367 | The refiner call of attempt k+1 receives attempt k's structure and the latest feedback so far. |
| Diamond.EmptyAttemptKeepsFeedback | STEM/app.py:369-371 | An attempt with an empty structure leaves `feedback` unchanged. |
| Diamond.ReviewerSeesNonEmpty | STEM/app.py:369-374 | When exactly the non-empty structures are reviewed, the reviewer receives those structures, in order. |
| Diamond.ReviewerCallsOfRun | STEM/app.py:369-374 | In a run, the reviewer is called on exactly the non-empty structures, in order. |
| Diamond.AlwaysRejected | STEM/app.py:358-382 | A reviewer that never approves, with non-empty structures, gives `max_retries` attempts, `max_retries - 1` refiner calls and `max_retries` reviews. |
| Diamond.Outcome | STEM/app.py:385-387 | The workflow returns the builder's page, or the builder's `FileNotFoundError`. |
| Diamond.Factory.constructor | STEM/app.py:100-102 | The factory starts with empty call logs. The retry bound and the agents' behaviour are fixed for its lifetime. |
| Diamond.Factory.ExtractedNeverEmpty | STEM/app.py:168-169 | The extractor's summary always holds `full_markdown`, so the `ValueError` at line 351 cannot be raised. |
| Diamond.Factory.Extractor | STEM/app.py:129-171 | It returns the summary of the conversion result. |
| Diamond.Factory.Architect | STEM/app.py:173-233 | Its i-th call records its arguments and returns `_extract_json` of the i-th reply. |
| Diamond.Factory.Reviewer | STEM/app.py:235-269 | Its i-th call records the structure and returns the verdict projected from the i-th reply. |
| Diamond.Factory.Refiner | STEM/app.py:271-298 | Its i-th call records the structure and feedback and returns `_extract_json` of the i-th reply. |
| Diamond.Factory.Builder | STEM/app.py:300-329 | It records the structure and returns the builder's result over the template directory. |
| Diamond.Factory.OneAttempt | STEM/app.py:359-378 | One loop body makes exactly the next attempt that `Diamond.Run` describes, with the agent calls that attempt implies. |
| Diamond.Factory.RunDiamondWorkflow | STEM/app.py:345-387 | A failed conversion is re-raised with no agent called. Otherwise the workflow makes exactly the attempts of `Run`: one architect call, the refiner and reviewer calls `Run` implies, and one builder call on the last structure, whose result is returned. |
| Setup.PythonVersionOk | STEM/setup.py:19-27 | The version is accepted exactly when (major, minor) >= (3, 8) lexicographically. |
| Setup.PlaceAll | STEM/setup.py:50-63 | The loop over the names: a name already in `templates/` is found, one in the current directory is copied and moved, and any other is skipped. No existing name leaves `templates/`, and no more entries are recorded than there are names. |
| Setup.FoundNames | STEM/setup.py:55-57 | "Found" holds exactly the checked names already in `templates/`. |
| Setup.MovedNames | STEM/setup.py:58-61 | "Moved" holds exactly the checked names absent from `templates/` and present in the current directory. |
| Setup.PlaceAllSpec | STEM/setup.py:41-65 | The loop finds exactly the names already present and moves exactly the absent names the current directory has, in list order. It adds only the moved files, with their current-directory content. |
| Setup.TemplateClasses | STEM/setup.py:50-63 | Each checked name is found, moved or skipped, never both found and moved. |
| Setup.PlaceAllKeeps | STEM/setup.py:55-61 | An existing template is never overwritten, and every found or moved name is in `templates/` afterwards. |
| Setup.TemplateNamesDistinct | STEM/setup.py:46 | The three shipped template names are distinct. |
| Setup.TemplateNamesAreHtml | STEM/setup.py:46 | The three shipped template names end in `.html`. |
| Setup.EnvConfigured | STEM/setup.py:87 | The key counts as set exactly when `OPENAI_API_KEY=` occurs somewhere in the file and `your-api-key-here` occurs nowhere. |
| Setup.PlaceholderNotConfigured | STEM/setup.py:76-90 | The `.env` that setup writes contains the key assignment yet counts as not configured, so the next run reports it again. |
| Setup.HtmlFiles | STEM/setup.py:233-234 | The glob yields exactly the `templates/` files ending in `.html`. |
| Setup.Missing | STEM/setup.py:235 | The missing list holds, in order, exactly the shipped names not among the `.html` files. |
| Setup.NoneMissing | STEM/setup.py:235 | With no shipped name present, all three are missing, in order. |
| Setup.StatusOf | STEM/setup.py:232-240 | "found" is the number of `.html` files in `templates/`. The missing list holds exactly the shipped names absent from `templates/`, at most three. |
| Setup.PlacedNotMissing | STEM/setup.py:55-61 | A shipped name that was in `templates/` or in the current directory is not reported missing after placement. |
| Setup.NoneMissingCountsThree | STEM/setup.py:232-240 | An empty missing list means at least three `.html` files are counted. |
| Setup.CountIgnoresNames | STEM/setup.py:232-240 | "found" counts any `.html` files. Three stray ones give found == 3 ("All templates are in place") while all three shipped templates are missing. |
| Setup.PrintSummary | STEM/setup.py:144-198 | It reports "all in place" exactly when found == 3 and "none" exactly when found == 0, and otherwise the count and the missing list. The setup is complete exactly when found == 3, the key is configured and no package is missing. |
| Setup.Scaffolded | STEM/setup.py:71-114 | `.env` and `requirements.txt` exist afterwards. Existing files are unchanged, and a created file has the fixed content. No other file is added. |
| Setup.Workspace.constructor | STEM/setup.py:43-44 | The workspace is the state of `templates/` and of the current directory. A missing `templates/` holds no files. |
| Setup.Workspace.CreateTemplatesDirectory | STEM/setup.py:29-39 | `templates/` exists afterwards, with its content unchanged. The result says whether it already existed, which decides the message printed. The source returns the path in both branches and `main` ignores it. |
| Setup.Workspace.FindAndMoveTemplates | STEM/setup.py:41-65 | The `for` loop leaves `templates/` and the two returned lists exactly as `PlaceAll` describes. |
| Setup.Workspace.CheckEnvFile | STEM/setup.py:67-93 | A missing `.env` is written with the placeholder and reported unconfigured. Otherwise the file is untouched, and the result is whether the key is set and the placeholder is gone. |
| Setup.Workspace.CheckRequirements | STEM/setup.py:95-117 | A missing `requirements.txt` is written with the default list and reported absent. An existing one is left alone. |
| Setup.Workspace.PrepareTemplates | STEM/setup.py:210-214 | `templates/` exists, and its content is `PlaceAll` of the old content. |
| Setup.Workspace.PrepareFiles | STEM/setup.py:218-224 | The current directory becomes `Scaffolded` of the old one, and the env status is whether the old `.env` was configured. |
| Setup.Workspace.RunSetup | STEM/setup.py:200-243 | A rejected Python version changes nothing. Otherwise `templates/` and the current directory end as `PlaceAll` and `Scaffolded` describe, the template status is computed from the new `templates/`, and the summary's verdict follows `PrintSummary`. |

## Left out

- The Streamlit interface (`main` of `STEM/app.py`, the page styling, uploads and downloads) and all status messages. They are presentation only.
- Prompt text and the OpenAI client. Each agent's reply is a parameter, given by call number, and the extractor's reply is a function of its excerpt. The model therefore does not capture how the replies depend on the prompts (the summary, the structure, the feedback).
- `pymupdf4llm.to_markdown`, `json.loads`, `str()` of a JSON value and Jinja2 rendering. They are foreign library calls, supplied as parameters (the conversion result, `Decoder`, `format`, `render`).
- JSON values other than objects. `json.loads` returning a list or a scalar is narrowed to a decode failure, so the model carries on with `{}` where the source raises:
  - a reviewer reply such as `[1]` raises `AttributeError` at `STEM/app.py:269`, while the model gives `(False, "No feedback provided")`;
  - an extractor reply that is a list or a scalar fails at line 169, while the model gets a one-key summary;
  - a non-empty list or a truthy scalar from the architect or refiner passes the test at line 369 and is reviewed. That uses up a reviewer reply and sets `feedback`. It raises at the builder's `.get` (line 305) only when it is still the structure after the loop, because a later attempt replaces it. The model has `{}` instead, so it skips the review.
- JSON numbers are integers. The modelled decisions depend on numbers only through their truthiness. `render` and `format` receive the values as they are, but the model does not tell 1 apart from 1.0, which print differently at lines 306 and 327.
- Fences.ExtractJson: only a failed decode is modelled. `json.loads` can also raise `RecursionError` on deeply nested text, or a plain `ValueError` on an integer literal of more than 4300 digits. Both escape the `except json.JSONDecodeError` at line 340 and end `run_diamond_workflow`, which the model does not capture.
- Fences.BareFencedBlock: a body starting with a backtick is not covered. With a body such as "`json{}", the first pass finds "```json" at the second backtick of the opening fence, so the cleaned text is not `strip(body)`.
- Diamond.Replies: every chat call returns a string. An exception raised by `client.chat.completions.create` (lines 162, 226, 262, 291), or a `None` content that makes line 334 raise `TypeError`, is not modelled. In the source either one ends `run_diamond_workflow` without a build.
- `_setup_templates` and the temporary file holding the upload. The factory is given the listing of `templates/` directly.
- Setup's `check_dependencies`. It imports packages, so its result is a parameter of `RunSetup`.
- Printing, `sys.exit` and absolute paths in messages. `templates/` and the current directory are flat maps from file name to content.
- Agents.TemplatePath: a game type containing "/" or ".." makes `template_dir / f'{game_type}_game.html'` (lines 306 and 309) name a file outside `templates/` or in a subdirectory. The model instead looks the name up in the flat listing of `templates/`, so it reports such a template as missing.
- The order of `glob('*.html')`. It is taken as the listing order of the given entries.
- A directory named like a template, file permissions, and the failure modes of `shutil.copy` and `open`.
- Agents.Quoted: renders a name as Python's repr does only for names without quotes or backslashes. Repr escaping is not modelled.
- Diamond.Factory.RunDiamondWorkflow: takes `max_retries` as a constructor argument, where the source fixes it at 3. It requires at least 1, because with 0 the source passes `None` to the builder and crashes on `.get`.
- Diamond.Factory.Extractor: returns what the `Valid()` predicate ties to `Summarize`, not the result of a document conversion it makes itself.
