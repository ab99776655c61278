# Image agent core, modelled in Dafny

This project models the decision logic of a chat back end that can find and
generate images. It has three cooperating pieces:

- **The image agent** (`services/agent.py`). A fixed five-node graph runs over one
  mutable turn state.
  - `analyze_intent` asks the language model whether the user wants an image. It
    strips a Markdown fence from the reply before `json.loads`, and every failure
    means "no image".
  - `route_after_intent` sends the turn either through `search_image` and
    `generate_image` or through `normal_chat`.
  - `format_response` assembles the reply the user sees.
  - `run` walks the graph from `analyze_intent` to END.
- **The object-store adapter** (`services/minio_client.py`). A MinIO client is
  built lazily and makes sure its bucket exists.
  - It stores a downloaded image after three guards: a client exists, the status
    is below 400, and the content type starts with `image/`.
  - It stores raw bytes under `prefix/<uuid><extension>`.
  - It signs stored paths.
  - It sniffs extensions from URLs and maps extensions to content types.
- **The image tools** (`services/image_tools.py`). These decide how a search or
  generation provider's reply, plus the outcome of storing the image, becomes
  either no result or a success record.

Nothing outside the program's own logic is executed in the model. Every call
into the outside world is a parameter:
- the language model, `seq<Message> -> Option<string>`, where `None` means the call raised;
- `json.loads`, `string -> Option<Json>`;
- the search and generation providers, as payload-to-reply functions;
- the store-and-sign calls the tools make;
- each outcome of the MinIO SDK and of the HTTP download, as a datatype value;
- `uuid.uuid4()`, as a supplied fresh id.

Once these are fixed, a turn is fully determined.

Modules:
- `Text`: Python's `find`, slicing, `strip`, `startswith`, `lower` and `join` on `seq<char>`.
- `Json`: the parsed values and their truthiness.
- `Wrappers`: `Option`.
- `ImageTools`.
- `Storage`: the `MinioClient` class, specified by pure step functions on a `ClientState` value. The server is a `Store` holding a bucket set and an object map.
- `Agent`: the `AgentState` and `ImageAgent` classes. Each node method is specified by a pure step function on the `TurnState` value. `Run` is a loop over the `Node` enum, proved against the whole-turn function `Execute`.

`ImageGenerationTool.generate_image` has no degraded-success path. When storing
the generated image fails, it returns `None` (image_tools.py:142-153), exactly as
when the provider fails (`ImageTools.GenerateImage`, `ImageTools.NoDegradedSuccess`).

## Model

| member | source | states |
|---|---|---|
| `Text.Find` | services/agent.py:97-98 | `find` returns -1 exactly when `sub` occurs nowhere at or after `start`; otherwise it returns an occurrence at or after `start` with none before it |
| `Text.ContainsBounds` | services/agent.py:96-100 | Python's `sub in s`: "" is in every string, nothing longer than `s` is in it, and a string of the same length is in it only when equal |
| `Text.StartsWithOccurs` | services/minio_client.py:94 | `s.startswith(p)`: `p` occurs at index 0, and so is contained in `s` |
| `Text.ContainsIffFound` | services/agent.py:96-97 | `sub in s` holds exactly when `find` from 0 is non-negative |
| `Text.Slice` | services/agent.py:99 | Python slicing: in-range bounds give the plain subsequence, an end of -1 drops the last character, and a start at the length gives "" |
| `Text.Strip` | services/agent.py:92 | the result is the input with a whitespace-only prefix and suffix removed, and it has no outer whitespace left; so it is unchanged when the input has none, and empty for all-whitespace input |
| `Text.Lower` | services/minio_client.py:215 | same length; each ASCII capital becomes its own lower-case letter (code point + 32), and other characters are kept |
| `Text.Join` | services/agent.py:227 | `sep.join(parts)`: "" for no parts; otherwise it starts with the first part, and its length is the parts' total plus one separator per gap |
| `Text.JoinAppend` | services/agent.py:227 | joining two non-empty lists of parts is joining each and putting one separator between; with a single part joining to itself (`Text.JoinSingle`), this fixes every character of `sep.join` |
| `Text.JoinFront` | services/agent.py:227 | joining two or more parts starts with the first part and the separator |
| `Wrappers.Present` | services/image_tools.py:64 | truthiness of an optional string: false exactly for `None` and "" |
| `Wrappers.Show` | services/agent.py:214 | f-string rendering of an optional string: the string itself, or "None" |
| `Json.Truthy` | services/agent.py:108 | Python truthiness: a value is falsy exactly when it is `null`, `false`, zero, "", `[]` or `{}` |
| `Json.Get` | services/agent.py:107-109 | `dict.get`: the stored value when the key is present, otherwise the default |
| `ImageTools.SearchImage` | services/image_tools.py:21-81 | a result exists exactly when the provider (asked for `num` = 1) answered with a first image whose `imageUrl` is non-empty and storing it under "search-results" gave a non-empty path; the record then carries that URL, the path, the path's signature (possibly `None`), and title/source defaulting to "" |
| `ImageTools.AdapterStoresUnderPrefix` | services/minio_client.py:54-123 | the storage adapter's `upload_image_from_url`, whatever the server answers, only returns paths under the prefix it was given; so it meets the assumption of `SearchHitStoredUnderPrefix` |
| `ImageTools.SearchHitStoredUnderPrefix` | services/image_tools.py:59-64 | with a store that keeps its prefix, a found image's path lies under "search-results/" and its original URL is non-empty |
| `ImageTools.GenerationPayload` | services/image_tools.py:114-120 | the payload has `prompt` and `model` = "stable-diffusion", and it has `reference_image` (the URL) exactly when the reference URL is truthy |
| `ImageTools.GeneratedUrl` | services/image_tools.py:133 | `image_url` when it is truthy, otherwise `url` |
| `ImageTools.GenerateImage` | services/image_tools.py:92-157 | a result exists exactly when the provider replied, named a truthy image URL, and storing it under "generated-images" gave a non-empty path; the record is that path, its signature and the prompt echoed |
| `ImageTools.NoDegradedSuccess` | services/image_tools.py:135-153 | a generation whose image cannot be stored gives no result |
| `ImageTools.GenerateImageSimple` | services/image_tools.py:159-185 | always a success record, with the fixed placeholder path and URL and the prompt echoed |
| `ImageTools.SimpleIgnoresReference` | services/image_tools.py:159-185 | the placeholder result does not depend on the reference URL |
| `Storage.ExtensionFromUrl` | services/minio_client.py:193-204 | always one of .jpg/.png/.gif/.webp; a ".jpg" or ".jpeg" substring wins; each other extension is chosen exactly when it is the first of the chain to occur |
| `Storage.ContentType` | services/minio_client.py:206-215 | looks up the lower-cased extension; .jpg and .jpeg give image/jpeg, unknown extensions give image/jpeg, and the result always starts with "image/" |
| `Storage.LowerIdempotent` | services/minio_client.py:215 | lower-casing twice is lower-casing once |
| `Storage.ContentTypeIgnoresCase` | services/minio_client.py:215 | the content type of an extension equals that of its lower-cased form |
| `Storage.ObjectName` | services/minio_client.py:100 | the name starts with `prefix + "/"` and is followed by exactly the id and then the extension |
| `Storage.ObjectNamesDistinct` | services/minio_client.py:149 | equal-length ids that differ (or differing extensions) never give the same name under one prefix |
| `Storage.EnsureBucketStep` | services/minio_client.py:42-52 | with no client nothing happens; the bucket set gains the bucket exactly when there is a client and both `bucket_exists` and `make_bucket` complete (adding a bucket already there changes nothing), and is unchanged otherwise; objects and flags are untouched; `S3Error` is swallowed and any other exception propagates |
| `Storage.InitializeStep` | services/minio_client.py:22-40 | nothing changes once initialised; a failed build changes nothing; a client built in this call is kept even when the bucket check then raises; the bucket set gains the bucket exactly when the build and both bucket calls complete; initialisation succeeds exactly when the client is built and the bucket check raises nothing but `S3Error`; objects are untouched; the invariant `initialized ==> client` is kept |
| `Storage.InitializeIdempotent` | services/minio_client.py:24-25 | after a successful initialisation, any later call changes nothing |
| `Storage.InitializeRetries` | services/minio_client.py:27-40 | after a failed initialisation, the next call with a reachable server succeeds and the bucket exists |
| `Storage.Put` | services/minio_client.py:104-110 | the new object is stored under its key and every other object is kept |
| `Storage.DownloadAccepted` | services/minio_client.py:67-96 | a download is accepted only with a client, a response, a status below 400 and a present content type starting with "image/" (so the code's `or 'image/jpeg'` fallback never applies) |
| `Storage.UploadFromUrlStep` | services/minio_client.py:54-123 | a path is returned exactly when there is a client, the download answered, the status is below 400, the content type starts with "image/" and the put succeeded; the path is `prefix/<id><sniffed extension>`, and exactly that object is added; otherwise the state is only the initialised one |
| `Storage.UploadFromUrlAddsOne` | services/minio_client.py:88-113 | on success the object keys grow by exactly the returned name, which lies under the prefix and is stored with an image content type; on failure the objects are unchanged |
| `Storage.UploadFromBytesStep` | services/minio_client.py:125-163 | a path is returned exactly when there is a client and the put succeeded; the path is `prefix/<id><extension>`; the new state is the initialised one plus exactly that object, with the given bytes, length `len(data)` and the extension's content type; on failure the state is only the initialised one |
| `Storage.ImageUrlStep` | services/minio_client.py:165-191 | the answer is `None`, never an exception, when there is no client or signing raised; otherwise it is the signed URL |
| `Storage.MinioClient.constructor` | services/minio_client.py:17-20 | no client and not initialised |
| `Storage.MinioClient.EnsureBucketExists` | services/minio_client.py:42-52 | the client's new state and whether an exception escapes are those of `EnsureBucketStep` |
| `Storage.MinioClient.Initialize` | services/minio_client.py:22-40 | the new state is `InitializeStep` of the old one, and the invariant is kept |
| `Storage.MinioClient.UploadImageFromUrl` | services/minio_client.py:54-123 | the new state and the returned path are those of `UploadFromUrlStep`; the prefix defaults to "images" |
| `Storage.MinioClient.UploadImageFromBytes` | services/minio_client.py:125-163 | the new state and the returned path are those of `UploadFromBytesStep`; the prefix defaults to "images" and the extension to ".jpg" |
| `Storage.MinioClient.GetImageUrl` | services/minio_client.py:165-191 | the new state and the answer are those of `ImageUrlStep` |
| `Agent.FenceBody` | services/agent.py:97-99 | the stripped body after a fence: no longer than the reply and with no outer whitespace (which slice it is, is stated by `JsonFenceExtracted`, `JsonFenceUnclosed`, `BareFenceExtracted` and `BareFenceUnclosed`) |
| `Agent.ExtractJson` | services/agent.py:96-103 | the text handed to `json.loads` is never longer than the reply, and it is stripped whenever the reply holds a fence |
| `Agent.JsonFenceIsFence` | services/agent.py:96-100 | every "```json" occurrence is also a "```" occurrence |
| `Agent.NoFenceUnchanged` | services/agent.py:96-105 | a reply without any fence is handed to `json.loads` unchanged |
| `Agent.JsonFenceExtracted` | services/agent.py:96-99 | with a "```json" fence, the parsed text is the stripped slice from after the first "```json" to the next "```" |
| `Agent.JsonFenceUnclosed` | services/agent.py:97-99 | with an unclosed "```json" fence, the slice runs to the last character but one |
| `Agent.BareFenceExtracted` | services/agent.py:100-103 | with no "```json", the parsed text is the stripped slice between the first two "```" |
| `Agent.BareFenceUnclosed` | services/agent.py:100-103 | with an unclosed bare fence, the slice also drops the last character |
| `Agent.IntentPromptCarriesInput` | services/agent.py:78-88 | the intent prompt is the fixed head, the user input verbatim, then the fixed tail |
| `Agent.PromptsDetermineInput` | services/agent.py:78-153 | different user inputs give different intent prompts and different refinement prompts: the model always sees the input |
| `Agent.ParsedIntent` | services/agent.py:90-105 | a model call that raises gives no parse; a reply without a fence is parsed as its stripped text |
| `Agent.QueryOr` | services/agent.py:109 | the user input when `search_query` is missing, otherwise the given string |
| `Agent.AnalyzeIntentStep` | services/agent.py:73-116 | only the flag and the query change; the flag is set exactly when the reply parsed into an object whose `need_image` is truthy; the query is written only then |
| `Agent.IntentFailSafe` | services/agent.py:111-114 | a model call or parse that raises leaves "no image" and the query untouched |
| `Agent.RouteAfterIntent` | services/agent.py:118-122 | "search" exactly when the flag is set, "chat" exactly when it is not |
| `Agent.Successor` | services/agent.py:54-69 | every edge of the graph moves strictly closer to END |
| `Agent.Path` | services/agent.py:54-69 | each path starts at `analyze_intent`, follows the edges, ends at `format_response` and then END, and repeats no node; it passes `search_image` exactly when an image is wanted, and `normal_chat` exactly when not |
| `Agent.SearchImageStep` | services/agent.py:124-139 | only the reference changes, and it becomes the search tool's result (`None` standing for `{}`) |
| `Agent.RefinementPromptCarriesInput` | services/agent.py:147-153 | the refinement prompt is the fixed head, the user input verbatim, then the fixed tail |
| `Agent.GenerationPrompt` | services/agent.py:155-160 | the refined prompt is the model's reply stripped; a refinement call that raises falls back to the search query |
| `Agent.ReferenceUrl` | services/agent.py:165 | the reference's signed URL, or `None` when there is no reference |
| `Agent.GenerateImageStep` | services/agent.py:141-179 | only the generated image changes: it becomes the placeholder generation for the refined prompt and the reference URL |
| `Agent.LastN` | services/agent.py:190 | `history[-n:]`: the last `min(n, len)` messages, in order |
| `Agent.ChatContext` | services/agent.py:186-191 | the system instruction first, the user input last, and in between the last `min(5, len(history))` messages of the history in their order; 2 to 7 messages |
| `Agent.NormalChatStep` | services/agent.py:181-200 | only the response changes: the model's reply verbatim, or the fixed apology when the call raises |
| `Agent.TitleOr` | services/agent.py:212 | `get('title', default)`: a search hit's own title, the default for a record without one |
| `Agent.PromptOr` | services/agent.py:223 | `get('prompt', default)`: a generated record's prompt, the default for a record without one |
| `Agent.ReferenceParts` | services/agent.py:210-216 | two parts with a reference, one without |
| `Agent.GenerationParts` | services/agent.py:218-225 | three parts with a generated image, one without |
| `Agent.ResponseParts` | services/agent.py:208-225 | 2 to 5 parts, reference parts first; the first part is a "found" line exactly when there is a reference, and then it is the found prefix followed by the title (the default title for a record without one); it is the "not found" line exactly when there is none; the last part is the failure line exactly when nothing was generated; links and the prompt sit in their places |
| `Agent.FoundLineCarriesTitle` | services/agent.py:210-227 | with a search hit as the reference, the response begins with the found prefix, the hit's own title and a newline: the hit's own title is used, never the default |
| `Agent.ReferenceText` | services/agent.py:210-216 | the reference lines as text: the found line, a newline and the link line, or the single "not found" line |
| `Agent.GenerationText` | services/agent.py:218-225 | the generation lines as text: the success line, the link line and the prompt line separated by newlines, or the single failure line |
| `Agent.ResponseText` | services/agent.py:227 | the image reply is the reference text, a newline, then the generation text; so it ends with the prompt line after a generation and with the failure line otherwise |
| `Agent.FormatResponseStep` | services/agent.py:202-229 | on the chat branch the state is untouched; on the image branch only the response changes, to the parts joined by newlines |
| `Agent.Execute` | services/agent.py:254 | the whole turn from a node: it never changes the user input or the history, and from `format_response` on it keeps the image flag |
| `Agent.VisitedShape` | services/agent.py:254 | the nodes run from a node (`Visited`): that node first, END never among them, and no more than the node's rank, so every turn ends |
| `Agent.StepUnfolds` | services/agent.py:54-69 | entering the graph at a node runs that node, then continues at its successor |
| `Agent.TurnPath` | services/agent.py:54-69 | from any start state (in particular the one `run` builds), the turn visits exactly the path chosen by the intent, so each node runs at most once and the turn reaches END |
| `Agent.FormatResponseIsLast` | services/agent.py:69 | `format_response` is the last node before END |
| `Agent.ChatAndGenerateTails` | services/agent.py:67-69 | `normal_chat` and `generate_image` each lead straight to `format_response` and END, whatever the state |
| `Agent.SearchTail` | services/agent.py:66-69 | `search_image` leads to `generate_image`, then `format_response` and END, whatever the state |
| `Agent.ExecuteTails` | services/agent.py:57-69 | after `analyze_intent`, the chat branch is `format_response` after `normal_chat`, and the image branch is `format_response` after `generate_image` after `search_image` |
| `Agent.InitialState` | services/agent.py:243-251 | the state `run` starts from: the history and the input, no image wanted, an empty query and response, and no tool results |
| `Agent.ResultOf` | services/agent.py:256-261 | `run`'s result carries the final state's response, reference, generated image and flag |
| `Agent.ChatTurn` | services/agent.py:231-261 | on the chat branch the user gets the chat reply verbatim (or the apology), with no images and the query left "" |
| `Agent.ImageTurn` | services/agent.py:231-261 | on the image branch the result holds the search result, the placeholder generation from the refined prompt and the reference's URL, and the joined 4- or 5-part summary |
| `Agent.AgentState.constructor` | services/agent.py:243-251 | the initial state: the history, the input, no image, an empty query, empty results and an empty response |
| `Agent.ImageAgent.constructor` | services/agent.py:28-40 | the agent keeps the outside world it is given |
| `Agent.ImageAgent.AnalyzeIntent` | services/agent.py:73-116 | the shared state becomes `AnalyzeIntentStep` of the old one |
| `Agent.ImageAgent.SearchImage` | services/agent.py:124-139 | the shared state becomes `SearchImageStep` of the old one |
| `Agent.ImageAgent.GenerateImage` | services/agent.py:141-179 | the shared state becomes `GenerateImageStep` of the old one |
| `Agent.ImageAgent.NormalChat` | services/agent.py:181-200 | the shared state becomes `NormalChatStep` of the old one; the messages are built by extend/append |
| `Agent.ImageAgent.FormatResponse` | services/agent.py:202-229 | the shared state becomes `FormatResponseStep` of the old one; the parts are built by successive appends |
| `Agent.ImageAgent.RunNode` | services/agent.py:47-51 | running one node applies that node's step to the shared state |
| `Agent.ImageAgent.Run` | services/agent.py:231-261 | the result is the response, the images and the flag of the whole-turn function, and the nodes run are exactly `Visited` (so `TurnPath`, `ChatTurn` and `ImageTurn` describe `run`) |

## Left out

- The language model, `json.loads`, the HTTP clients and the MinIO SDK are parameters (oracles and outcome values), not implementations. The JSON grammar is not modelled.
- `async`/`await`, LangGraph's own scheduling, and `print` logging are not modelled. The graph is an explicit sequential transition function.
- `uuid.uuid4()` is a supplied fresh id. The expiry `timedelta` of signed URLs, the HTTP headers, redirects and timeouts are not modelled.
- `Agent.ImageAgent.constructor`: the `OPENAI_API_KEY` check that raises `ValueError`, and the model name and base URL, are not modelled.
- `Agent.AnalyzeIntentStep`: a `search_query` that is present but not a JSON string is stored as-is by the code. The model uses the user input instead, because the turn state holds a string.
- `Agent.ImageAgent.Run`: the code returns the raw `need_image` JSON value as `need_image_generation`. The model returns its truthiness, which is the only thing routing and formatting use.
- `ImageTools.SearchImage`: provider fields that are present but not strings (a `null` title, a non-list `images`) are not modelled. A missing field is `None`.
- `Text.Strip`: only the ASCII whitespace `str.strip()` removes (space, \t, \n, \v, \f, \r and 0x1c-0x1f) is handled. Non-ASCII whitespace such as U+0085, U+00A0 and the Unicode spaces is not.
- The constructor of `ImageGenerationTool` reads `settings.NANOBANBAN_API_KEY` (image_tools.py:88), which `core/config.py` does not define. Read as written, building the module-level `image_generation_tool` (image_tools.py:190), and so importing agent.py, would raise `AttributeError`. The constructor and its settings are not modelled; the tools are modelled as if constructed.
- `Text.Lower`: only ASCII letters are lower-cased, not Python's full Unicode `lower`.
- `Storage.ObjectNamesDistinct`: it is stated only for ids of equal length (as `uuid4` strings are). With ids of different lengths, an id and extension can collide.
- `Storage.MinioClient.GetImageUrl`: the object name is passed to the signing outcome but does not constrain it. The signed URL is an opaque outcome.
- The tools call the module-level `minio_client` singleton. In the model they see storage only through the `upload` and `sign` oracles, so the store's changes during a turn are not threaded through the agent model.
- The module-level singletons (`agent`, `image_search_tool`, `image_generation_tool`, `minio_client`) are not modelled as globals. The agent takes its outside world as a constructor argument.
- `core/security.py`, `core/config.py`, `schemas/`, `models/`, `init_db.py`, `routers/agent.py` and `main.py` are not part of this model. They hold password hashing and tokens, environment loading, declarative validation, ORM tables and web wiring.
