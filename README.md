# Narration annotator: request handling, prompt and fallback

This is a model of the web service's one endpoint, `POST /analyze`, in `app.py`. A client sends a manuscript and three optional settings:

- `creativity_level`;
- `narrator_style`;
- `book_description`.

The service then does four things:

1. It turns away a body that lacks a manuscript.
2. It fills in defaults for the missing settings.
3. It builds one long prompt string and sends it to a remote text-generation service.
4. It returns the parsed JSON reply, or a fixed one-segment "script" that carries the error message when the call or the parse fails.

Most of the prompt is literal text. The model keeps that text exactly as it is, as named constants in `Prompt`:

- `Intro`, `Rules`, `ManuscriptLead`, and the rest;
- the two instruction tables.

The proofs are about the parts that vary:

- where the style name and the level name go, and each one's instruction;
- when the book-context section is present, and what it contains;
- that the manuscript comes last, verbatim;
- the 400 branch and the fallback branch.

Files:

- `wrappers.dfy`: `Option`.
- `json.dfy`: JSON values. It also has `Outcome`, the result of the remote call followed by the JSON parse: `Parsed(value)` or `Failed(msg)`.
- `text.dfy`: where a piece occurs in a string (`At`), and how a concatenation of parts splits.
- `whitespace.dfy`: Python's `str.strip()` with Python's own `str.isspace` character set.
  - The function `Strip` is tied to an independent description, `StrippedAt`. That description says the removed ends are whitespace and the result neither starts nor ends with whitespace.
  - `StripUnique` shows the description is met only by `Strip`'s result.
- `prompt.dfy`: the prompt builder of `analyze_narration_text_with_gemini`.
  - `Template` holds the fixed text and the two tables. `Narration` is the service's own template.
  - `Render` is the f-string. `ContextSection` is the optional book-context section.
  - `Compose` fills the f-string with the section for a description.
  - `BuildPrompt` is `Compose` with `Narration`.
- `annotator.dfy`: the handler `analyze`.
  - `Validate` checks the body and fills in the defaults.
  - `Normalise` covers the `try`/`except` result of the analysis function.
  - `Respond` is the endpoint over any template. `Analyze` is `Respond` with `Narration`.

The remote call is a parameter `remote: string -> Outcome`. The endpoint's payload is tied to the outcome of that call on exactly the prompt built for the request.

Determinism is not stated as a separate lemma. `Compose` and `Respond` are functions, so equal inputs give equal prompts and equal responses by construction. Going the other way, `PromptDeterminesManuscript` shows that, with the settings fixed, the prompt determines the manuscript.

The handler checks only that the `text` key is present, not what it holds, so `"text": ""` goes through (`EmptyTextAccepted`).

The fallback's emoji is the two characters U+E05E U+4E2A. Those are the characters the source file holds at app.py:96.

## Model

| member | source | states |
|---|---|---|
| Whitespace.TrimStart | app.py:35 | the result is a suffix of the input, everything dropped is whitespace, and the result does not start with whitespace |
| Whitespace.TrimEnd | app.py:35 | the result is a prefix of the input, everything dropped is whitespace, and the result does not end with whitespace |
| Whitespace.Strip | app.py:35 | `book_description.strip()` is the slice of the description that starts after its leading whitespace |
| Whitespace.StripSpec | app.py:35 | `Strip` removes only whitespace, at both ends, and its result neither starts nor ends with whitespace |
| Whitespace.StripEmptyIff | app.py:35 | a string strips to `""` exactly when every character of it is whitespace |
| Whitespace.StripUnique | app.py:35 | any slice meeting the description of a strip is `Strip`'s result, so the description fixes the strip |
| Prompt.StyleInstruction | app.py:26-31 | the style lookup gives a non-empty instruction exactly for the four known styles, the table entry for a known one, and `""` for any other name |
| Prompt.CreativityInstruction | app.py:20-24 | the level lookup gives a non-empty instruction exactly for the three known levels, the table entry for a known one, and `""` for any other name |
| Prompt.DescribesIff | app.py:35 | `book_description and book_description.strip()` holds exactly when a description is given and has a character that is not whitespace |
| Prompt.ContextSection | app.py:34-40 | the section is empty exactly when the description is missing, empty or whitespace only; otherwise it opens with the section's lead (the `**BOOK CONTEXT:**` heading and its instruction), then holds the description in double quotes, untrimmed, and ends with the section's closing text, so that lead, quoted description and closing text are the whole section |
| Prompt.PersonaLine | app.py:43-48 | the prompt opens with the introduction; the style name as given comes next, then `**. `, the style's instruction and the creativity heading |
| Prompt.StyleInPrompt | app.py:48 | with the service's style table, the style name and its looked-up instruction are interpolated into the persona line |
| Prompt.GuidelineLine | app.py:51-52 | after the creativity heading come the level name as given, `**. `, the level's instruction and the line break before the context section |
| Prompt.LevelInPrompt | app.py:51 | with the service's creativity table, the level name and its looked-up instruction are interpolated into the creativity line |
| Prompt.ContextPlacement | app.py:52-53 | the context section is followed directly by the fixed rules; it starts at the offset where the creativity line ends |
| Prompt.SectionInserted | app.py:52 | the prompt with any context section is the prompt with an empty section, with the section inserted at the context offset |
| Prompt.ManuscriptLast | app.py:62-65 | the prompt ends with the manuscript lead-in, then the manuscript verbatim, then the closing text, and nothing follows |
| Prompt.SeparatorBeforeManuscript | app.py:62-64 | the service's manuscript lead-in ends with the `---` separator line |
| Prompt.ManuscriptDetermined | app.py:62-65 | with the settings and the section fixed, two manuscripts that give the same prompt are equal |
| Prompt.DescriptionInPrompt | app.py:39 | a description that counts appears in the prompt verbatim and untrimmed, inside double quotes, at the quote offset |
| Prompt.StrippedDescriptionInPrompt | app.py:35-39 | the description with its surrounding whitespace removed also appears in the prompt, inside the quotes |
| Prompt.DescriptionOnlyAddsContext | app.py:33-52 | the description changes the prompt only by inserting the context section; a missing, empty or whitespace-only description gives the same prompt as no description |
| Prompt.PromptDeterminesManuscript | app.py:18-65 | with the settings and the description fixed, the prompt determines the manuscript |
| Annotator.Display | app.py:48-51 | a null setting renders as `None`, as Python's `str(None)` does, and like `.get(None, "")` it adds no style or creativity instruction |
| Annotator.DescriptionOf | app.py:35 | a null description never gives a context section; a string one is passed on as given and gives a section exactly when it has a character that is not whitespace |
| Annotator.Validate | app.py:105-114 | the request is rejected exactly when the body is missing, empty or has no `text`; otherwise `text` is passed on as given, each missing setting defaults to `balanced`, `neutral storyteller` or `""`, and each present setting is passed on |
| Annotator.Fallback | app.py:92-97 | the fallback is a one-element list with exactly four keys: `type` `"normal"`, the fixed emoji, the fixed feedback sentence, and a `text` of the fixed lead followed by the error message |
| Annotator.FallbackDetailsOfFallback | app.py:93 | the error message can be read back from the fallback's text |
| Annotator.FallbackDetailsOnlyFallback | app.py:92-97 | any JSON value from which an error message can be read back is the fallback for that message |
| Annotator.FallbackInjective | app.py:93 | different error messages give different fallbacks |
| Annotator.Normalise | app.py:87-97 | a successful parse is returned unchanged; any failure becomes the fallback that carries its message |
| Annotator.FailureLooksLikeFallback | app.py:87-97 | a failure and a reply that parses to the same fallback reach the client identically |
| Annotator.Respond | app.py:104-118 | status 400 with `{"error": "No text provided"}` exactly for a rejected body; otherwise status 200 with the normalised outcome of the remote call on the prompt for the validated request |
| Annotator.EmptyTextAccepted | app.py:106-110 | a body whose `text` is `""` is accepted with status 200 |
| Annotator.DefaultsApplied | app.py:110-114 | a body with only `text` becomes the request with `balanced`, `neutral storyteller` and `""` |
| Annotator.DescriptionOnlyThroughContext | app.py:114-117 | for an accepted request, a missing, null, empty or whitespace-only description is sent the prompt of no description; any other description only inserts its context section |
| Annotator.ManuscriptEndsPrompt | app.py:62-65 | the manuscript of an accepted request ends the prompt it is sent, verbatim, between the lead-in and the closing text |
| Annotator.AcceptedAlwaysSucceeds | app.py:116-118 | an accepted request gets status 200 for every outcome of the remote call (a parsed reply or a caught exception); the payload is the parsed reply, or the fallback carrying the failure's message |

## Left out

- The Flask application, routing, `render_template` for `/`, `request.get_json` and `jsonify`. The body is an optional map, and the reply is a status with a JSON value.
- A request body that is JSON but not an object. In the source, a falsy one (`[]`, `""`, `0`, `false`) and a list or string without a `text` element or substring (`["a"]`, `"abc"`) get the same 400 reply. A list holding `"text"` or a string containing it (`"context"`) fails at `data['text']`, and a non-zero number or `true` fails in the `in` test; both give an internal error.
- Request values that are neither strings nor null, such as numbers, lists, objects or booleans. Their Python `str()` form is not modelled, and neither is the error path some of them take before the `try`: a truthy non-string `book_description` (`5`, `true`, `["x"]`, `{"a": 1}`) raises AttributeError at `.strip()` (app.py:35), and a list or object as `narrator_style` or `creativity_level` raises TypeError (unhashable key) in `.get` (app.py:48, 51). Such an accepted body gets an internal error, not 200.
- Key order in JSON objects, and JSON numbers other than integers.
- `load_dotenv` and the check for the API key at import time. These read the environment.
- Annotator.AcceptedAlwaysSucceeds: holds only for string or null settings (see the line above), and assumes the remote call returns or raises an `Exception`. The call has no timeout and can block, and a `BaseException` such as `KeyboardInterrupt` is not caught by `except Exception`; neither is modelled.
- The generation call: the model name, `GenerationConfig` (its temperature 0.7 is a float), the safety settings and `generate_content`. Together with `json.loads`, they are the parameter `remote`.
  - The model does not check that the reply has the segment shape, because the code does not.
- The `print` of the error in the `except` branch. It is output only.
- The text of an exception, `str(e)`. This is the `msg` of `Failed`, taken as given.
- ai_studio_code.py. It is a one-off script that lists the provider's models and prints them, so it is all remote I/O.
- Analyze and BuildPrompt carry no contract of their own. Every prompt and endpoint property is stated for an arbitrary `Template`, so it holds for `Narration` too. No proof expands the full literal text of the service's template.
- Prompt.StyleInPrompt and Prompt.LevelInPrompt take the service's table as a premise about the template, and do not restate it for `Narration`, for the same reason.
