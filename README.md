# Transcript gateway — a Dafny model

This project models the two pieces of logic in a small study-helper service:

- **The transcript service** (`main.py`): `extract_video_id` pulls the video id out of a
  YouTube link. `get_youtube_text` fetches the captions. It asks for the requested
  language first, and asks for English only if that call raises. It then joins the
  caption texts with single spaces. The `/getting_script` endpoint turns the text into
  a success body, or into a 400 carrying a fixed list of three possible reasons.
- **The gateway** (`backend/app.py`): `require_fields` validates that listed fields are
  present and truthy, and builds an exact error message. The four routes
  (`/getting_script_from_video`, `/summarize`, `/chat`, `/extract_main_points`) share one
  request pattern. A body whose `requests` is a list is processed item by item, giving
  one result per item, in order, each keeping its `id`, and forwarding only the items
  that pass validation. Any other object body is validated, and it is forwarded once
  only if it passes. A falsy body (`null`, `false`, `0`, `""`, `[]`) is read as `{}`.
  A truthy body that is not an object gets a 500, and so does a batch holding an item
  that is not an object.

Files:

- `Wrappers.dfy`: `Option`.
- `Strings.dfy`: the parts of Python's `str` that the code uses (`in`, `split` on
  one character, `join`, `split(c)[0]`, `split(c)[-1]`). It also proves
  that `split` and `join` undo each other.
- `Transcript.dfy`: `main.py` as pure functions. The caption provider is a parameter of
  type `(videoId, language) -> Option<seq<Entry>>`, where `None` stands for "the call
  raised". `GetYoutubeText` returns the text together with the list of provider calls it
  made. Call order, call count and the fallback can therefore be stated about a function.
- `Gateway.dfy`: `backend/app.py`. The validator is a pair of functions. The batch loop
  is a method with a `for` loop over the items. The single-request path and the route
  dispatch are methods. The downstream service is a parameter of type
  `(url, payload) -> Reply`. Ghost outputs record which items were forwarded and how
  many downstream calls were made.

Notes on the code:

- The requested language code is passed to the provider unchanged. There are at most
  two attempts. The first asks for `[lang]`. The second asks
  for `['en']` and happens only when the first raises. If the requested language is
  itself `en`, the same call is made again after that raise.
- Batch items are processed strictly in order. One non-object item aborts the whole
  batch with a 500, after the earlier valid items have already been forwarded.

## Model

| member | source | states |
|---|---|---|
| `Strings.Contains` | main.py:36 | `url` contains the text exactly when that text occurs at some offset of `url` |
| `Strings.Split` | main.py:37 | there is always at least one piece, and no piece contains the separator |
| `Strings.JoinSplit` | main.py:37 | putting the separator back between the pieces of `s.split(c)` gives `s` again |
| `Strings.SplitJoin` | main.py:37 | splitting a join of separator-free pieces gives back exactly those pieces, empty ones included |
| `Strings.FirstSegment` | main.py:37 | `s.split(c)[0]` is the longest prefix of `s` without `c`; it is shorter than `s` exactly when `c` occurs |
| `Strings.LastSegment` | main.py:37 | `s.split(c)[-1]` is the longest suffix of `s` without `c`; if it is not all of `s`, a `c` comes right before it |
| `Strings.AfterFirst` | main.py:38 | when `c` occurs, `s` is the part before the first `c`, then `c`, then this result; otherwise the result is empty |
| `Strings.JoinIsEmpty` | main.py:55 | a join with a non-empty separator is empty exactly when there are no parts, or one empty part |
| `Transcript.QueryOf` | main.py:38 | the query is what follows the first `?` before the fragment, so it never contains `#` |
| `Transcript.ParseQs` | main.py:39 | every parsed pair has a non-empty value, a name without `=` or `&`, and a value without `&` |
| `Transcript.ParseQsConcat` | main.py:39 | the pairs of `a&b` are the pairs of `a` followed by the pairs of `b` |
| `Transcript.ParseQsPair` | main.py:39 | a piece `name=value` with a non-empty value yields exactly that one pair |
| `Transcript.ParseQsDropped` | main.py:39 | a piece yields no pair exactly when nothing follows a first `=`: it has no `=`, or its value is blank |
| `Transcript.FirstValueSkip` | main.py:40 | pairs with other names placed in front do not change the first value of a name |
| `Transcript.FirstValue` | main.py:40 | `None` exactly when no pair has the name; otherwise the value of the first pair with that name |
| `Transcript.ExtractVideoId` | main.py:35-40 | with `youtu.be` anywhere, some id with neither `/` nor `?`: the last `/`-segment of the link cut before its first `?`; otherwise the first `v` value of the parsed query, so `None` exactly when the query has no `v` pair, and a non-empty value without `&` when it has one |
| `Transcript.ShortLinkId` | main.py:36-37 | a link `…youtu.be…/ID`, optionally followed by a `?query` without `/`, yields `ID` |
| `Transcript.WatchLinkId` | main.py:38-40 | a link `base?v=ID`, optionally followed by `&more`, yields a non-empty `ID` without `&`; this holds when `base` has no `?`, the link has no `#`, and it does not contain `youtu.be` |
| `Transcript.WatchLinkIdLater` | main.py:38-40 | under the same conditions, a link `base?front&v=ID`, optionally followed by `&more`, yields `ID` when no pair parsed from `front` is called `v`; this covers `watch?feature=share&v=ID` |
| `Transcript.BlankVSkipped` | main.py:39-40 | in `v=&v=ID` the blank `v` is dropped, so the first `v` value is `ID` |
| `Transcript.GetYoutubeText` | main.py:42-59 | no provider call when the id is missing or empty; the first call asks for the requested language; a second call, for `en`, happens exactly when the first raised; at most two calls; a text exactly when some call answered, and then it is the space-joined entry texts of the last call |
| `Transcript.FetchDependsOnlyOnCalls` | main.py:49-55 | two providers that agree on the calls made give the same run: nothing else is consulted |
| `Transcript.EnglishFallback` | main.py:49-68 | if the requested language raises and English answers with a non-blank transcript, the text is the English one, made with exactly two calls, and the endpoint still echoes the requested language |
| `Transcript.BothAttemptsFail` | main.py:49-81 | if both attempts raise, there is no text, and the endpoint gives the 400 with the fixed reasons |
| `Transcript.GetScript` | main.py:61-82 | success exactly when the text is present and non-empty; success echoes the link and the requested language; failure is status 400 with the fixed message and exactly three reasons |
| `Transcript.TranscriptTextEmpty` | main.py:55 | the joined text is empty exactly when there are no entries, or one entry with empty text |
| `Transcript.TranscriptTextSplits` | main.py:55 | for at least one entry, none of whose texts holds a space, splitting the transcript on spaces gives back the entry texts in provider order |
| `Transcript.GetScriptSucceeds` | main.py:44-69 | the endpoint succeeds exactly when the id is non-empty and the answering call returned a non-blank transcript; the answering call is the requested language, or else English |
| `Gateway.MissingFields` | backend/app.py:12 | a name is listed exactly when it is among the required fields and absent or falsy in the data |
| `Gateway.RequireFields` | backend/app.py:7-15 | valid exactly when every listed field maps to a truthy value; otherwise the message is `Missing required field(s): ` followed by the missing names joined by `, ` |
| `Gateway.MissingInOrder` | backend/app.py:12-14 | the missing names are an order-preserving subsequence of the required fields |
| `Gateway.SummarizeMissingText` | backend/app.py:66-71 | the batch item `{"id": 2}` sent to `/summarize` fails validation, so it is not forwarded; its result is exactly `{"id": 2, "error": "Missing required field(s): input_text"}` |
| `Gateway.Payload` | backend/app.py:33 | the forwarded payload holds exactly the required fields the item has, with the item's values |
| `Gateway.HandleItem` | backend/app.py:28-39 | the result keeps the item's `id`; an invalid item gets the validation message and is not forwarded; a valid item is forwarded with its payload; a non-200 reply gives `{id, error: text}` and a 200 reply gives `{id, response: body}` |
| `Gateway.ProcessBatch` | backend/app.py:25-41 | with all items objects: one result per item, in input order, each as `HandleItem` states; each item is forwarded exactly when it is valid; the first non-object item ends the batch with a 500 carrying Python's `AttributeError` text |
| `Gateway.ItemJson` | backend/app.py:30-39 | each result entry on the wire carries the item's `id` and exactly one of `error` or `response` |
| `Gateway.Body` | backend/app.py:41 | a batch answers `{"results": [...]}` with one entry per result, in order |
| `Gateway.BatchStatus` | backend/app.py:24-57 | a batch answers 200 whatever its items' downstream replies were, and 500 when an item is not an object |
| `Gateway.CountTrueZero` | backend/app.py:26-41 | the call count is zero exactly when no item was forwarded |
| `Gateway.NoValidItemNoCall` | backend/app.py:26-41 | a batch with no valid item makes no downstream call |
| `Gateway.ProcessSingle` | backend/app.py:43-54 | a validation failure is a 400 with the message and no downstream call; otherwise exactly one call; a non-200 status is passed on with the route's `error` label and the reply text as `details`; a 200 relays the body |
| `Gateway.SingleStatus` | backend/app.py:44-54 | a single request answers 400 on a validation failure, and otherwise with the downstream reply's own status code |
| `Gateway.Serve` | backend/app.py:20-57 | a falsy body counts as `{}`; a non-object body is a 500; batch mode exactly when `requests` is a list, and then the call count is the number of forwarded items; otherwise single mode; only batch mode yields `results` |

## Left out

- The three Groq-backed endpoints in `main.py` (`/summarize`, `/extract_main_points`, `/chat`). They interpolate the text into a fixed prompt and return the model's reply, which is a foreign call with nothing to check. The root endpoint is left out too.
- URL parsing is reduced to what matters for `v`. The query is the text after the first `?` and before the first `#`. It is split on `&`; pieces without `=` or with an empty value are dropped, as `keep_blank_values=False` does. Percent-decoding and `+`-to-space are not modelled, so a name written `%76` is not treated as `v`, and values come back undecoded. Also not modelled: stripping of leading control characters and spaces, removal of tab and newline characters, the `ValueError` urlsplit raises for a malformed IPv6 host or for a non-ASCII host whose NFKC normalisation contains `/`, `?`, `#`, `@` or `:` (`get_youtube_text` would turn either into `None`, where the model returns the `v` value), and the `;` separator of older Python versions.
- Caption entries carry only `text`. A provider entry without `text` would raise `KeyError`, and the service would return `None`. This case is not modelled.
- `print` logging, `load_dotenv` and the environment configuration, and the Groq client set-up.
- Request-body validation by the web frameworks is not modelled. This covers FastAPI's 422 for a body missing `input_link`/`language`, Flask's error for a body that is not JSON, and the `{"detail": …}` envelope FastAPI wraps around the 400.
- The catch-all `except Exception` → 500 of each gateway route is modelled only for its one trigger visible from the inputs: calling `.get` on a body or item that is not an object. Failures of `requests.post` itself (connection errors, timeouts) and a downstream body that is not valid JSON are outside the model. The downstream is a total function returning a status, a text and a decoded body.
- The caption provider and the downstream service are deterministic functions of their arguments. In the model, repeating an identical call cannot give a different answer. A repeated `en` call after an `en` failure therefore fails again, and identical payloads within one batch get identical replies. The real network calls could succeed on a retry or answer differently each time.
- JSON numbers are integers here. Floating-point values, and the truthiness of `0.0`, are not modelled.
- Gateway.ProcessBatch: a non-object item's 500 is stated; the per-item results computed before it are discarded, as in the code, and so are not stated.
