# sherlock, modelled in Dafny

sherlock is a local reverse proxy for LLM vendor APIs (Anthropic, OpenAI,
Gemini). It routes each request to its vendor by a path pattern, forwards it
upstream without hop-by-hop headers, and relays the answer back. On the side,
it normalises the JSON body into a telemetry event with a model name, a
message list and a token count. A terminal dashboard aggregates these events,
and an archive task writes each one to disk as Markdown and JSON.

This project models the deterministic logic around that I/O and proves what
the code promises about it:

- `common.dfy`: optional values, bytes, ASCII case mapping, substring search
  (with a reference definition it is proved equal to), joining, and decimal
  rendering (with its round trip).
- `json.dfy`: the decoded JSON value, and the `get` and `as_str` accessors
  the parsers use.
- `event.dfy`: the event, the message and the dashboard row; `capitalize`,
  `last_user_message` and the event-to-row projection.
- `config.dfy`: the configuration records, `Config::default`,
  `with_overrides`, `PathBuf::join` and `expand_tilde`.
- `parser.dfy`: text extraction from JSON, the three vendor parsers and
  the generic fallback, `parse_request` and `detect_provider`.
- `proxy.dfy`: method mapping, the hop-by-hop predicate, the two header-copy
  loops and the branch structure of `handle_request`.
- `dashboard.dfy`: the `Dashboard` class and `add_request`, with a replay
  of many events; `truncate` and `format_number`.
- `archive.dfy`: `format_markdown`, and the files `save_prompt` writes for
  the configured formats.

The code works by mutation in several places: pushing into vectors, the
dashboard's fields, the header builders, the string built by `insert(0, …)`,
and the Markdown buffer. Those places are methods, with loops and
invariants. Each is proved against a specification function, and the
properties are proved about that function as lemmas.

## Model

| member | source | states |
|---|---|---|
| Common.ToLower | src/proxy.rs:156 | lower-casing keeps the length and maps each ASCII capital to its small letter, every other character to itself |
| Common.ContainsIffOccurs | src/parser.rs:234 | the left-to-right `contains` search holds exactly when the pattern occurs at some offset |
| Common.OccursImpliesContains | src/parser.rs:234 | a window equal to the pattern at any offset is found by the search |
| Common.JoinNoBlankLine | src/parser.rs:206-211 | joining non-empty pieces without blank lines by "\n" creates no blank line, no leading and no trailing newline |
| Common.Decimal | src/dashboard.rs:270 | the decimal rendering is non-empty, all digits, with no leading zero |
| Common.DecimalRoundTrip | src/dashboard.rs:270 | reading the decimal rendering of `n` back gives `n` |
| Json.FindKey | src/parser.rs:214 | the found position holds the key; no position exactly when no member has that key |
| Json.Get | src/parser.rs:29 | `get` yields a value exactly when the value is an object with a member of that key, and then it is that member's value |
| Json.AsStr | src/parser.rs:30 | `as_str` yields text exactly for a present string value, and the text is that string |
| Json.StrOr | src/parser.rs:53-57 | the `.get(key).and_then(as_str).unwrap_or(default)` chain: the string member of that key when the object has one, the default when the key is absent, the value is not an object, or the member is not a string |
| Event.Capitalize | src/event.rs:54-60 | same length; first character upper-cased (ASCII), rest unchanged; "" stays "" |
| Event.CapitalizeIdempotent | src/event.rs:54-60 | capitalising twice is capitalising once |
| Event.CapitalizeExamples | src/event.rs:78-82 | "anthropic" gives "Anthropic", "openai" gives "Openai", "" gives "" |
| Event.LastUserMessage | src/event.rs:64-70 | none exactly when no message has role "user"; otherwise the content of a user message with no user message after it |
| Event.LastUserMessageExample | src/event.rs:85-110 | of two user messages the later one, "Second", is reported |
| Event.ToInfo | src/event.rs:43-52 | the row copies the model, the tokens and the clock time, and capitalises the provider |
| Config.DefaultProviders | src/config.rs:45-79 | the three vendors: anthropic (`api.anthropic.com`, `ANTHROPIC_BASE_URL`, "/v1/messages"), openai (`api.openai.com`, `OPENAI_BASE_URL`, "/v1/chat/completions") and gemini (`generativelanguage.googleapis.com`, three base-URL variables, "generateContent") |
| Config.DefaultConfig | src/config.rs:43-99 | `Config::default`: bind 127.0.0.1:8080; token limit 200000, 100 log entries, 4 Hz refresh, 200-character previews; the default vendors; archiving on, into "~/.sherlock/prompts", as markdown then json |
| Config.DefaultConfigConstants | src/config.rs:43-99 | port 8080, token limit 200000, 100 log entries, exactly the providers anthropic, openai, gemini with patterns "/v1/messages", "/v1/chat/completions", "generateContent" |
| Config.WithOverrides | src/config.rs:123-131 | a given port or limit replaces the configured one, an absent one keeps it, and no other field changes |
| Config.WithOverridesNeutral | src/config.rs:123-131 | without overrides nothing changes; applying the same overrides twice equals applying them once |
| Config.WithOverridesExample | src/config.rs:180-185 | the defaults with port 9090 and limit 100000 have exactly those |
| Config.JoinPath | src/config.rs:155 | an absolute second part replaces the base; otherwise the result is the base followed by the second part, with a "/" between them exactly when the base is non-empty and does not already end with one |
| Config.ExpandTilde | src/config.rs:151-164 | `expand_tilde` with the home directory as a parameter: "~/rest" joins rest onto home, "~" is home, anything else, or a missing home, is the path itself |
| Config.ExpandTildeCases | src/config.rs:151-164 | "~" becomes home; "~/rest" becomes home joined with "rest", which lies under home unless "rest" is itself absolute; any other path, or no home directory, leaves the path unchanged |
| Config.ExpandTildeIdempotent | src/config.rs:151-164 | with a home directory that does not start with `~`, expanding twice equals expanding once |
| Parser.ExtractText | src/parser.rs:203-229 | `extract_text_from_value`: a string gives itself; an array gives its elements' non-empty extractions joined by newlines; an object gives its string `text`, else the extraction of its `content`, else its values' non-empty extractions joined by newlines; any other scalar gives "" |
| Parser.ExtractScalars | src/parser.rs:204-227 | a string extracts to itself; numbers, booleans and null extract to "" |
| Parser.ExtractTextMember | src/parser.rs:214-216 | a string-valued `text` member is the extraction, whatever its siblings |
| Parser.ExtractContentMember | src/parser.rs:217-219 | with no string `text`, a `content` member's extraction is the extraction |
| Parser.ItemPiecesAreNonEmptyExtractions | src/parser.rs:206-211 | the pieces joined are non-empty; every non-empty element extraction is among them; none exactly when every element extracts to "" |
| Parser.ExtractArrayEmpty | src/parser.rs:206-211 | an array extracts to "" exactly when every element does, in particular when it is empty |
| Parser.ExtractNoBlankLine | src/parser.rs:203-229 | if no string inside the value has a blank line, neither has the extraction: dropped empty pieces never leave "\n\n" or a leading or trailing newline |
| Parser.ExtractNestedContentExample | src/parser.rs:252-262 | two text blocks under `content` extract to "Hello\nWorld" |
| Parser.SystemMessages | src/parser.rs:64-74 | at most one synthetic message; if present, its role is "system" and its content is non-empty |
| Parser.ChatMessage | src/parser.rs:79-96 | one Anthropic or OpenAI message: its string `role`, or "unknown", and the extraction of its `content`, or "" when it has none |
| Parser.MapMessages | src/parser.rs:78-97 | one message per element, in order, each the conversion of its element |
| Parser.PushMessages | src/parser.rs:78-97 | the loop appends one converted message per element and keeps the counted text equal to the text blob of all messages so far |
| Parser.PushSystem | src/parser.rs:64-74 | the system prompt step yields exactly the synthetic system message and its text line |
| Parser.ParseAnthropic | src/parser.rs:52-101 | model from `model` (default "unknown"); messages are the system message (if any) then one per `messages` element; counted text is their blob |
| Parser.ParseOpenAI | src/parser.rs:104-139 | model from `model` (default "unknown"); one message per element, none synthesised; counted text is their blob |
| Parser.ParseGemini | src/parser.rs:142-200 | model from `model` (default "gemini"); `systemInstruction` message (if any) then one per `contents` element; counted text is their blob |
| Parser.TextBlobAppend | src/parser.rs:91-94 | the counted text of two message runs is the concatenation of theirs |
| Parser.TextBlobEmpty | src/parser.rs:91-94 | the counted text is empty exactly when every content is |
| Parser.TextBlobHasLine | src/parser.rs:91-94 | every non-empty content appears in the counted text followed by a newline |
| Parser.ParseRequest | src/parser.rs:19-49 | an event exactly when the body decodes; it then is the normalised event with the vendor's model, messages and token count of the counted text |
| Parser.AnthropicShape | src/parser.rs:52-101 | one more message than `messages` exactly when `system` extracts to non-empty text; that message comes first with role "system"; the others follow in order |
| Parser.SystemPresent | src/parser.rs:64-74 | a system message is synthesised exactly when the key is present with non-empty text, and carries that text |
| Parser.OpenAIShape | src/parser.rs:104-139 | exactly one message per `messages` element, in order |
| Parser.Defaults | src/parser.rs:53-174 | a missing role is "unknown" (Anthropic, OpenAI) or "user" (Gemini); a missing model is "unknown", or "gemini" for Gemini |
| Parser.CountedTextWithSystem | src/parser.rs:63-74 | for Anthropic and Gemini the counted text is the system text and a newline (when present) followed by the blob of the other messages |
| Parser.GenericFallback | src/parser.rs:26-35 | an unknown vendor gives no messages, model "unknown" unless given, and counts the extraction of the whole body |
| Parser.AnthropicExample | src/parser.rs:265-279 | a body with a system prompt and one user turn gives the system message then the user message |
| Parser.GeminiPartsExample | src/parser.rs:177-182 | two text parts give the content "a\nb" |
| Parser.GeminiMessage | src/parser.rs:170-195 | one Gemini content: its string `role`, or "user"; when `parts` is an array, the parts' string texts joined by newlines, otherwise the extraction of the whole content |
| Parser.PartTexts | src/parser.rs:177-182 | the string `text` members of the parts, in order, skipping parts without one |
| Parser.PartText | src/parser.rs:180 | one part contributes at most one text: its string `text` when it has one, nothing otherwise |
| Parser.PartTextsAppend | src/parser.rs:177-182 | the texts of two runs of parts are those of the first run followed by those of the second |
| Parser.PartTextsAround | src/parser.rs:177-182 | for any list and any position, the texts are those before the part, the part's own text (or nothing), then those after: a part without a string `text` is skipped wherever it stands and the rest keep their order |
| Parser.PartTextsMixedExample | src/parser.rs:177-182 | a part without `text` between two text parts is dropped, giving ["a", "b"] |
| Parser.PartTextsFilter | src/parser.rs:177-182 | at most one text per part; no texts when no part has one; when all have one, all texts are kept in order |
| Parser.DetectProvider | src/parser.rs:232-239 | a returned name is a key whose pattern occurs in the path; none exactly when no pattern occurs |
| Parser.NotContainsLonger | src/parser.rs:234 | a pattern longer than the path never matches |
| Parser.DefaultRoutingExample | src/config.rs:47-79 | with the defaults, "/v1/messages?x=1" matches the Anthropic pattern and neither other pattern |
| Proxy.MethodToReqwest | src/proxy.rs:209-219 | the seven common methods map to themselves, every other method to GET |
| Proxy.IsHopByHop | src/proxy.rs:222-235 | true for exactly the nine hop-by-hop names |
| Proxy.ValueText | src/proxy.rs:158 | a value is text exactly when every byte is visible ASCII or a tab, and then it is those bytes as characters |
| Proxy.Kept | src/proxy.rs:155-162 | a header contributes at most one entry, and one exactly when it is forwardable; that entry carries the header's name and its value as text |
| Proxy.ForwardedConcat | src/proxy.rs:155-162 | filtering distributes over concatenation, so the order is preserved |
| Proxy.ForwardedClean | src/proxy.rs:197-204 | no forwarded header is hop-by-hop in any letter case, and no response header is `content-encoding` |
| Proxy.ForwardedComplete | src/proxy.rs:155-162 | every forwardable header is forwarded |
| Proxy.ResponseFilterStricter | src/proxy.rs:197-204 | the response filter keeps no more headers than the request filter |
| Proxy.CopyRequestHeaders | src/proxy.rs:155-162 | the request loop yields exactly the filtered headers |
| Proxy.CopyResponseHeaders | src/proxy.rs:197-204 | the response loop yields exactly the filtered headers, `content-encoding` excluded |
| Proxy.RequestPath | src/proxy.rs:102-105 | the request's path and query, or "/" when the URI has none |
| Proxy.Relay | src/proxy.rs:168-206 | send failure gives 502 "Upstream error: …", read failure 502, otherwise the upstream status and body with the filtered response headers |
| Proxy.HandleRequest | src/proxy.rs:92-207 | no matching provider gives 400 "Unknown provider", with no body read and no forward; a failed body read gives 400; otherwise the request goes to `base_url + path` (path "/" when absent) with the mapped method and filtered headers, and the answer is relayed; an event exists exactly for a non-empty body that decodes; a full queue drops it without changing the response |
| Dashboard.KeepNewestShape | src/dashboard.rs:107-110 | trimming keeps the first `min(len, cap)` rows |
| Dashboard.AddedShape | src/dashboard.rs:96-111 | total grows by the event's tokens; provider is the event's; prompt is the last user message, or unchanged when there is none; at most `cap` rows; with `cap >= 1` the new row is first and the rest is a prefix of the old log |
| Dashboard.Dashboard.constructor | src/dashboard.rs:32-40 | a new dashboard has no tokens, rows, prompt or provider |
| Dashboard.Dashboard.AddRequest | src/dashboard.rs:96-111 | the new state is the old state with the event added, and the log holds at most `max_log_entries` rows |
| Dashboard.ReplayTotal | src/dashboard.rs:97 | after a stream of events the total is the sum of their tokens |
| Dashboard.KeepNewestAbsorb | src/dashboard.rs:105-110 | trimming before and after prepending is trimming once |
| Dashboard.ReplayLog | src/dashboard.rs:104-110 | after a stream of events the log is the newest `cap` rows, newest first, ahead of the old log |
| Dashboard.ReplayLastProvider | src/dashboard.rs:98 | the provider shown is the newest event's |
| Dashboard.Truncate | src/dashboard.rs:248-267 | the single pass returns `s` when it has at most `max_len` characters, otherwise its first `max_len - 3` (saturating) characters and "..." |
| Dashboard.TruncatedShape | src/dashboard.rs:248-267 | a short string is kept; a long one (limit at least 3) becomes exactly `max_len` characters, a prefix of `s` then "..." |
| Dashboard.TruncatedTiny | src/dashboard.rs:250 | below a limit of 3 a longer string becomes just "..." |
| Dashboard.TruncatedIdempotent | src/dashboard.rs:248-267 | truncating twice is truncating once, for every limit |
| Dashboard.TruncatedExamples | src/dashboard.rs:294-297 | "hello" at 10 stays "hello"; "hello world" at 8 gives "hello..." |
| Dashboard.GroupBoundaryMod | src/dashboard.rs:273 | the comma test holds exactly for positive multiples of three |
| Dashboard.FormatNumber | src/dashboard.rs:269-279 | the insert-at-front loop yields the digits of `n` with a comma before every run of three from the right |
| Dashboard.StripGrouped | src/dashboard.rs:269-279 | removing the commas gives back the digits |
| Dashboard.GroupedShort | src/dashboard.rs:269-279 | up to three digits get no comma |
| Dashboard.GroupedAppend | src/dashboard.rs:269-279 | appending a multiple of three digits adds exactly one comma at the junction |
| Dashboard.GroupedWell | src/dashboard.rs:269-279 | a leading group of 1–3 digits, then groups of a comma and three digits |
| Dashboard.FormatNumberCorrect | src/dashboard.rs:269-279 | for every number: commas removed gives its decimal rendering, and the grouping is well formed |
| Dashboard.FormatNumberZero | src/dashboard.rs:287 | 0 gives "0" |
| Dashboard.FormatNumberHundred | src/dashboard.rs:288 | 100 gives "100" |
| Dashboard.FormatNumberThousand | src/dashboard.rs:289 | 1000 gives "1,000" |
| Dashboard.FormatNumberMillions | src/dashboard.rs:290 | 1234567 gives "1,234,567" |
| Archive.SectionsAppend | src/archive.rs:77-81 | the sections of two message runs are the concatenation of theirs |
| Archive.FormatMarkdown | src/archive.rs:64-84 | the buffer built line by line and message by message is the document: header, then one section per message |
| Archive.MarkdownLayout | src/archive.rs:67-75 | the document starts with "# " + capitalised provider + " Request\n\n"; the Model, Tokens and Path lines and "## Messages\n\n" follow the timestamp; after the header come exactly the sections |
| Archive.MarkdownSection | src/archive.rs:77-81 | message `i`'s section "### " + capitalised role + "\n\n" + content + "\n\n" sits right after the header and the earlier sections |
| Archive.FormatMarkdownExample | src/archive.rs:100-121 | a single user message "Hello!" yields text containing "# Anthropic Request", "**Model:** claude-3", "### User" and "Hello!" |
| Archive.FileFor | src/archive.rs:39-56 | "markdown" and "md" ask for `base.md` holding the document, "json" for `base.json` holding the raw body, under the directory; any other entry asks for no file |
| Archive.PlannedAppend | src/archive.rs:38-59 | the files of two format runs are the concatenation of theirs |
| Archive.PlannedShape | src/archive.rs:35-56 | every planned file is `base.md` with the document or `base.json` with the raw body, under the directory, with `base` = timestamp + "_" + provider; at most one per entry |
| Archive.PlannedComplete | src/archive.rs:38-56 | an unknown entry is skipped without affecting the others; each known entry's file is planned |
| Archive.DefaultFormatsPlan | src/config.rs:96 | the default formats write the Markdown file and then the JSON file |
| Archive.SavePrompt | src/archive.rs:34-62 | the files written are a prefix of the plan and all accepted; success exactly when the whole plan is written; otherwise the next planned write is the one that failed |

## Left out

- The tokenizer (`count_tokens`, the cl100k BPE) is a function parameter. The test's claim that "Hello, world!" has a positive count is not provable of an arbitrary function.
- JSON decoding of the body bytes (`serde_json::from_slice`) is a function parameter that returns nothing for malformed input. Numbers keep only their literal text, because nothing reads them.
- JSON objects are member sequences, taken in the order `serde_json::Map` enumerates them: sorted by key by default, or in insertion order with the `preserve_order` feature. The model does not fix which, so the fallback extraction's join order (`obj.values()`) is that of the sequence as given.
- Decoded objects are assumed to have distinct keys, as `serde_json::Map` guarantees. A `Json.Object` with a repeated key is representable: there `FindKey` takes the first member, while serde keeps the last value.
- `detect_provider` iterates a `HashMap`, whose order is unspecified, so no first-match precedence is claimed. `DetectProvider` picks an arbitrary matching entry.
- Networking, the accept loop, `tokio::spawn`, the channels and `select!` are not modelled. The upstream exchange, the body read and the queue-full outcome of `try_send` are parameters of `HandleRequest`.
- `archive_writer` (creating the directory, draining the queue when disabled, logging failures) is I/O and concurrency, so it is not modelled.
- Filesystem writes in `save_prompt` are a `writeOk` parameter. `serde_json::to_string_pretty` and its possible failure are not modelled: the JSON file holds the raw body value.
- `Config::load`, `Config::save_default` and `dirs::home_dir` are filesystem and environment access. The home directory is a parameter of `ExpandTilde`.
- The TUI (`run`, `render`, `header`, `request_table`, `prompt_panel`, terminal setup and restore, keyboard handling) is not modelled. Neither is `fuel_gauge`, which needs floating-point percentages.
- chrono timestamps are an opaque value holding the three renderings the code uses (`%H:%M:%S`, the file stamp, the display form).
- Case mapping (`to_lowercase`, `to_uppercase`) is ASCII only. Non-ASCII letters are left unchanged.
- `capitalize` exists twice in the code (src/event.rs:54-60 and src/archive.rs:86-92), with identical bodies. It is modelled once, as `Event.Capitalize`.
- Dashboard.AddRequest: does not model the u64 wrap-around of `total_tokens`. The total is an unbounded natural.
- Dashboard.Truncate: works on characters, not byte indices. Because of that, the unused `end_byte_idx` has no counterpart.
- Config.WithOverrides: takes `self` by value in the source, so it is modelled as a pure function on the record rather than as a mutation.
- `main.rs` (launching the wrapped tool, injecting environment variables) and `cli.rs` (argument declarations) are glue without logic to verify.
