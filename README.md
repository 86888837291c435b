# Legal assistant core, modelled in Dafny

This project models the two pieces of the legal-information chat assistant that hold real logic:

- **The legal record store** (`LegalDataHandler`, module `LegalData`, file `legal_data.dfy`). It holds a fixed list of law records with five text fields: title, law number, year, description and summary. It offers three operations: the whole list, Python-style indexed lookup that gives `None` when the index is out of range, and a case-insensitive substring search over the five fields. The search is a method with a loop, proved equal to a pure filter. Lemmas then prove that the filter is sound, complete, counts every copy correctly and keeps the list's order. They also prove that an empty query finds nothing and that lowercasing the query first changes nothing.
- **The answer ladder** (`ModelHandler`, module `ModelHandling`, file `model_handler.dfy`). A query becomes an answer string in up to three tiers:
  1. the inference client, which is re-created first if it is unset;
  2. the public REST endpoint, called with a JSON payload and an optional Bearer header;
  3. a table of canned answers chosen by the first Arabic keyword that occurs in the lowercased query.

  The network is not modelled. What each remote step would give back is an `Environment` value: whether client creation succeeds, what the client call returns, and what the REST reply looks like. The pure function `Resolve` gives the exact answer and the ordered list of remote calls made. `GenerateResponse` is the step-by-step method, proved equal to `Resolve`.
- **String helpers** (module `Text`, file `text.dfy`). They cover `str.lower()`, `str.strip()` and Python's substring test `in`.

The model follows the code where a plain description of the ladder would say something else:
- When the client is unset and cannot be created, the answer is the fixed "cannot connect" message. No tier is tried (`ResolveInitFailure`).
- A REST reply that is JSON but not a list, or is an empty list, gives the fixed "could not understand" message. It does not fall through to the canned answers (`ResolveRestNotUnderstood`).
- A list whose first element has no `generated_text` gives the empty answer (`ResolveCanBeEmpty`). So the ladder does not always produce a non-empty answer.
- A negative index `-n <= i < 0` in the record lookup finds `laws[n + i]`, as Python list indexing does. `None` comes only for `i >= n` or `i < -n` (`GetLawById`, `NegativeIndexWraps`).
- The canned-answer scan stops at the first keyword in table order. A query containing both the "law" and the "lawsuit" keywords gets the "law" answer (`FallbackByKeyword`).

## Model

| member | source | states |
|---|---|---|
| `Text.LowerChar` | legal_data.py:69 | a lowercased character is never an ASCII capital; a capital moves up by 32, and any other character is unchanged |
| `Text.Lower` | legal_data.py:69 | lowercasing keeps the length and works character by character |
| `Text.LowerIdempotent` | legal_data.py:69 | lowercasing twice gives the same string as lowercasing once |
| `Text.LowerEmpty` | legal_data.py:66-69 | a string lowercases to the empty string exactly when it is empty |
| `Text.Contains` | legal_data.py:74-78 | Python's substring test `needle in haystack`: the needle is a prefix of the haystack or of one of its suffixes |
| `Text.ContainsIff` | legal_data.py:74-78 | the substring test `q in s` holds exactly when `q` occurs at some position of `s` |
| `Text.LeadingSpaces` | model_handler.py:65 | counts the whitespace run at the start: all of it is whitespace, and the next character is not |
| `Text.TrailingSpaces` | model_handler.py:65 | counts the whitespace run at the end: all of it is whitespace, and the character before it is not |
| `Text.Strip` | model_handler.py:65 | the stripped string is a contiguous part of the input, has only whitespace around it, and neither starts nor ends with whitespace |
| `Text.StripUntrimmed` | model_handler.py:65 | a string with no whitespace at either end strips to itself |
| `Text.StripIdempotent` | model_handler.py:65 | stripping twice gives the same string as stripping once |
| `LegalData.Matches` | legal_data.py:74-78 | the search condition: the lowercased query occurs in the lowercased title, description, law number, year or summary |
| `LegalData.Filter` | legal_data.py:70-81 | the laws that satisfy the search condition, in list order, as the `for … append` loop collects them |
| `LegalData.SearchResult` | legal_data.py:66-81 | the search result: `[]` for an empty query, otherwise the filter applied with the lowercased query |
| `LegalData.LegalDataHandler.constructor` | legal_data.py:18-29 | the handler holds exactly the given record list |
| `LegalData.LegalDataHandler.GetAllLaws` | legal_data.py:31-38 | returns exactly the stored list, in insertion order; the list is a constant field, so no operation changes it |
| `LegalData.LegalDataHandler.GetLawById` | legal_data.py:40-54 | for `0 <= i < n` gives `laws[i]`; for `-n <= i < 0` gives `laws[n + i]`; otherwise `None`, and `Some` exactly on `-n <= i < n` |
| `LegalData.LegalDataHandler.NegativeIndexWraps` | legal_data.py:51 | for `0 <= i < n`, looking up `i - n` finds the same law as looking up `i` |
| `LegalData.LegalDataHandler.LookupFindsStoredLaw` | legal_data.py:50-54 | any law the lookup returns is one of the stored laws |
| `LegalData.LegalDataHandler.SearchLaws` | legal_data.py:56-81 | the loop's result is exactly the specified search result: empty for an empty query, otherwise the laws that match the lowercased query, in list order |
| `LegalData.FilterAppend` | legal_data.py:72-79 | filtering a concatenation is the concatenation of the filtered parts |
| `LegalData.FilterMembership` | legal_data.py:72-79 | a law is in the filtered list if and only if it is in the list and matches |
| `LegalData.FilterMultiplicity` | legal_data.py:72-79 | every copy of a matching law is kept, and every copy of a non-matching law is dropped |
| `LegalData.FilterIsSubsequence` | legal_data.py:70-81 | the filtered list is an order-preserving subsequence of the list |
| `LegalData.SubsequenceLength` | legal_data.py:70-81 | a subsequence is never longer than the sequence it comes from |
| `LegalData.SearchEmptyQuery` | legal_data.py:66-67 | the empty query returns the empty list, whatever the records |
| `LegalData.SearchSound` | legal_data.py:69-79 | every law returned comes from the list, and the query is non-empty; the lowercased query occurs in its lowercased title, description, law number, year or summary |
| `LegalData.SearchComplete` | legal_data.py:72-79 | for a non-empty query, every law of the list whose lowercased fields contain the lowercased query is returned |
| `LegalData.SearchCompleteAt` | legal_data.py:72-79 | for a non-empty query, every law of the list whose lowercased fields contain the lowercased query at some position is returned; the same terms as `SearchSound` |
| `LegalData.FilterEmptyKeepsAll` | legal_data.py:66-67 | the empty string occurs in every field, so filtering with it keeps every law; the empty-query guard is what makes the result `[]` |
| `LegalData.SearchKeepsOrder` | legal_data.py:70-81 | the result keeps the list's order and has at most as many laws as the list |
| `LegalData.SearchCaseInsensitive` | legal_data.py:66-69 | searching for the lowercased query gives the same result as searching for the query |
| `ModelHandling.HasKey` | model_handler.py:27 | Python truthiness of the API key: present and non-empty; it decides both the client token and the REST headers |
| `ModelHandling.ClientToken` | model_handler.py:27 | the client token is the API key when it is truthy, and none otherwise |
| `ModelHandling.NewClient` | model_handler.py:25-28 | the client built for the configured model id and that token |
| `ModelHandling.Prompt` | model_handler.py:53 | the instruction-template prompt: `"<s>[INST] "`, system prompt, a blank line, the query, `" [/INST]"` |
| `ModelHandling.Parameters` | model_handler.py:56-63 | the generation parameters: the caller's token limit and temperature, with repetition penalty 1.1, sampling on and the full text off |
| `ModelHandling.ApiUrl` | model_handler.py:75 | the REST endpoint: the public inference URL followed by the model id |
| `ModelHandling.Headers` | model_handler.py:76 | a Bearer authorization header for a truthy key, no headers otherwise |
| `ModelHandling.RestAnswer` | model_handler.py:92-96 | the REST tier's reading of a reply: none when it raises, the fixed message for non-list or empty-list JSON, otherwise the first element's stripped text |
| `ModelHandling.FirstMatch` | model_handler.py:109-111 | the table scan: the answer of the first entry whose keyword occurs in the text, none if there is none |
| `ModelHandling.Fallback` | model_handler.py:102-114 | the static tier: the table scan over the lowercased query, or the generic message |
| `ModelHandling.Resolve` | model_handler.py:47-114 | the whole ladder: the answer and the ordered list of remote calls, from the client field, the configuration and what each remote step gives back |
| `ModelHandling.ModelHandler.constructor` | model_handler.py:9-19 | stores the model id, system prompt and key, then tries once to create the client; the field is set exactly when that succeeds |
| `ModelHandling.ModelHandler.InitializeClient` | model_handler.py:21-33 | reports success or failure; on success the client is built for the model id, with the key as token only when the key is truthy; on failure the field is unchanged |
| `ModelHandling.ModelHandler.GenerateResponse` | model_handler.py:35-114 | the answer and the calls made are exactly those of the ladder `Resolve`; the client field is set after a successful re-creation and unchanged otherwise |
| `ModelHandling.FallbackResponse` | model_handler.py:102-114 | the loop over the keyword table returns the answer of the first keyword that occurs in the lowercased query, or the generic message |
| `ModelHandling.ResolveInitFailure` | model_handler.py:47-49 | with the client unset and creation failing, the answer is the "cannot connect" message, and the only call made is the creation attempt |
| `ModelHandling.ResolveTierOne` | model_handler.py:51-65 | when the client call returns, the answer is its stripped text, and the REST endpoint is never called |
| `ModelHandling.ResolveRestList` | model_handler.py:92-94 | for a non-empty JSON list, the answer is the first element's stripped `generated_text`, or `""` when that key is missing |
| `ModelHandling.ResolveRestNotUnderstood` | model_handler.py:92-96 | JSON that is not a list, or an empty list, gives the "could not understand" message, which is not one of the canned answers |
| `ModelHandling.ResolveRestRaised` | model_handler.py:89-111 | when the REST tier raises (call or status error, bad JSON, odd first element), the answer is the keyword table's answer, one of the four canned strings |
| `ModelHandling.ResolveCalls` | model_handler.py:47-89 | each kind of call happens at most once, with no retries, and the number of calls is exactly one for each step reached. There is a creation attempt exactly when the client was unset, and it comes first. There is a client call exactly when a client exists or is created; it uses that client and carries the template prompt and the caller's parameters. There is a REST call exactly when the client call raised; it comes after a client call, sends that call's prompt and parameters, and goes to the model's URL with the key's headers |
| `ModelHandling.PromptRoundTrip` | model_handler.py:53 | the prompt is `"<s>[INST] " + system prompt + "\n\n" + query + " [/INST]"`, and the query can be read back from it |
| `ModelHandling.PromptQueryInverse` | model_handler.py:53 | any string read back as a query by the parser is exactly the prompt built from that query |
| `ModelHandling.PromptInjective` | model_handler.py:53 | different queries give different prompts |
| `ModelHandling.ParametersPassThrough` | model_handler.py:78-87 | `max_new_tokens` and `temperature` pass through unchanged; `repetition_penalty` is 1.1, `do_sample` is true and `return_full_text` is false |
| `ModelHandling.HeadersAuthorization` | model_handler.py:76 | there is an `Authorization: Bearer <key>` header exactly when the key is truthy, and no headers otherwise; it carries the same key the client receives as its token |
| `ModelHandling.FirstMatchFirst` | model_handler.py:109-111 | the table scan returns the answer of the first entry whose keyword occurs in the text |
| `ModelHandling.FirstMatchNone` | model_handler.py:109-114 | the table scan finds nothing if and only if no keyword of the table occurs in the text |
| `ModelHandling.FallbackByKeyword` | model_handler.py:102-114 | the static tier checks the keywords in the order قانون, محكمة, دعوى and gives the first match's answer, or the generic message |
| `ModelHandling.FallbackIsCanned` | model_handler.py:102-114 | the static tier always gives one of exactly four fixed strings |
| `ModelHandling.FallbackCaseInsensitive` | model_handler.py:110 | lowercasing the query first does not change the static tier's answer |
| `ModelHandling.ResolveCanBeEmpty` | model_handler.py:93-94 | a reply list whose first element has no `generated_text` yields the empty answer |

## Left out

- Network I/O: the `InferenceClient` construction, `client.text_generation`, `requests.post`, `raise_for_status` and `.json()`. Each becomes a field of `Environment` that gives what that call would return or whether it raises. HTTP and JSON parsing are not modelled.
- Logging (`logger.info`, `logger.error`): a side channel only, so it is not modelled.
- `os.makedirs` and the `data_dir` field of the record store: no logic reads them.
- The `config` module is not part of this model. The record list, model id, system prompt and API key become constructor parameters.
- The first lines of `legal_data.py` (6-16) are a pasted shell fragment that stops the file from parsing. Only the class at lines 17-81 is modelled.
- `app.py` (page layout, session state, chat history) is presentation code and is not modelled.
- `temperature` is a Python float that is only passed through. It is modelled as a `real`, and float rounding is not modelled.
- Text.Lower: only the ASCII capitals are lowercased. Python's `str.lower()` also maps non-ASCII capitals; the Arabic keywords and canned answers contain none.
- Text.Strip: only the ASCII characters for which `str.isspace()` holds are stripped. Unicode spaces such as U+00A0 are kept.
- LegalData.LegalDataHandler.GetLawById: the index is an integer. A non-integer index, which raises `TypeError` in Python and is not caught, is not modelled.
- LegalData.LegalDataHandler.GetAllLaws: Python returns the stored list object itself, so a caller could mutate it. The model returns a value, and no caller in the repository mutates the list.
- LegalData.LegalDataHandler.SearchLaws: the query is a string. A `None` query, which Python also answers with `[]`, is not modelled. The records always have all five fields, so the `KeyError` of a record missing a field does not arise.
- Concurrent callers sharing one handler, and the redundant re-creation of the client they can cause, are not modelled. Each call runs on its own.
