# Competitor analysis backend — a Dafny model

This project models how the backend handles one `POST /analyze` request. The
request names a competitor, a page URL and, optionally, a generative model.
The handler does the following in order:

1. It scrapes the page through Firecrawl.
2. It gets or creates the competitor row in the store.
3. It vets the requested model id against the supported-model allow-list and
   picks a model, falling back to the default chosen at server start.
4. It asks the model for product weaknesses. The prompt embeds at most the
   first 10,000 characters of the page.
5. It takes the greedy `{ … }` span of the answer and turns it into weakness
   records. Each failure path has its own fixed placeholder records.
6. It saves one insight row per weakness and answers.

The project has five files:

- `wrappers.dfy` holds `Option` and `Result`.
- `models.dfy` holds the records of `backend/models.py` as datatypes.
- `scraper.dfy` holds `ContentScraper`. It is a value, because its only state
  is the client set at construction.
- `database.dfy` holds `DatabaseManager`. It is a class whose `competitors` and
  `insights` tables are sequences that its methods reassign.
- `analysis.dfy` holds the rest of `backend/main.py`:
  - the model registry and the startup default;
  - the prompt;
  - the brace-span rule;
  - decoding of weaknesses;
  - placeholders;
  - the handler itself, as methods.

Everything outside the process is an input of the operation that uses it.
The handler's inputs are bundled in `Analysis.Collaborators`:

- the Firecrawl call, as a function from client and URL to a result or an
  exception message;
- the set of model ids that can be instantiated now;
- the generation call;
- `json.loads`;
- the message of a failed `ProductWeakness(**w)`;
- the store's replies to the lookup and the two inserts;
- the store's clock and the server's clock.

The store's identifier generator is modelled by a counter, `nextId`.

Some behaviours of the code are kept as written:

- When the model answers with empty text, no branch binds `weaknesses`. The
  request then ends in the generic 500 handler, with the message Python 3.11
  and later give for an unbound local (`Analysis.UnboundWeaknesses`).
- The text `  # Limit content length for API` sits inside the prompt template.
  It is therefore sent to the model.
- An unsupported model id is refused only after the competitor row has been
  created.

### Where the design description and the code differ (the model follows the code)

- Existing competitor: the design describes an upsert that refreshes the
  target URL. The code returns the existing row unchanged.
- Model fallback: the design describes a retry with the default model after a
  generation failure. The code has no retry. A requested model that fails to
  instantiate falls back to the startup default. A generation exception yields
  the "AI Service Error" placeholder.
- Fetch and parse failures: the design describes typed errors. The code gives a
  400 only when scraping yields nothing. No model, a generation exception or
  an unparseable answer yields placeholder weaknesses, not an error.
- Decoded records: the design describes dropping or normalising bad entries. The
  code stores every decoded field verbatim and normalises no severity. One bad
  entry turns the whole answer into a single "Analysis parsing error"
  placeholder.
- Persistence failures: the design says they are swallowed. The code turns them
  into a 500 "Analysis failed: …".

## Model

| member | source | states |
|---|---|---|
| Scraper.NewContentScraper | backend/scraper.py:7-13 | the scraper has a client exactly when the API key is present and non-empty, and the client is built from that key |
| Scraper.SelectContent | backend/scraper.py:40-52 | the priority choice: a truthy `markdown` attribute; else a dictionary's `markdown` entry, even an empty or null one; else its `content` entry; else `None`; anything returned is one of the result's own `markdown`/`content` fields |
| Scraper.ScrapeUrl | backend/scraper.py:15-56 | without a client the result is `None` and the provider plays no part; a raising provider gives `None`; a returned provider result gives `SelectContent` of it, so a non-`None` result is one of its text fields |
| Database.IndexOfName | backend/database.py:58-72 | the position of the first row with the name, and no earlier row has it; `None` exactly when no row has it |
| Database.FirstNamed | backend/database.py:58-72 | the row found is stored and carries the name; `None` exactly when no stored row carries it |
| Database.FirstNamedAppend | backend/database.py:31-52 | after a row is appended, lookups find what they found before, and a previously absent name finds the new row when it is that row's name |
| Database.BuildInsightRows | backend/database.py:81-89 | the loop builds one row per weakness, in order, each carrying the competitor id and the weakness's four fields verbatim |
| Database.DatabaseManager.GetCompetitorByName | backend/database.py:58-74 | a raised query becomes "Failed to query competitor: …"; otherwise the first row with the name, or `None` |
| Database.DatabaseManager.CreateCompetitor | backend/database.py:28-56 | a failed lookup propagates and changes nothing; an existing name returns the stored row unchanged with no insert; a new name appends exactly one row with that name, URL and a fresh id; an insert with no data or an exception raises "Failed to create competitor record: …" and stores nothing; insights are never touched; the returned row is what a later lookup finds; names and ids stay unique |
| Database.DatabaseManager.SaveInsights | backend/database.py:76-110 | an empty list returns `[]` and stores nothing; otherwise exactly the returned rows are appended, one per weakness, in order, verbatim, under the competitor id, with fresh ids; an insert with no data or an exception raises "Failed to save insights: …" and stores nothing; competitors are never touched |
| Analysis.AllowedIds | backend/main.py:192 | the allow-list is the entries' ids, in order |
| Analysis.ListModels | backend/main.py:95-105 | the listing's ids are exactly `gemini-2.5-flash`, `gemini-2.5-flash-lite`, `gemini-2.5-pro`; the preferred startup model `gemini-flash-latest` is not among them |
| Analysis.StartupModel | backend/main.py:82-92 | the startup default is `gemini-flash-latest` if it instantiates, else `gemini-2.5-flash` if it does, else none |
| Analysis.ModelChoice | backend/main.py:189-204 | a non-empty requested id outside the allow-list is refused with the 400 detail naming it; an allowed id that instantiates is used; otherwise the startup default stands |
| Analysis.SelectModel | backend/main.py:189-204 | the handler's reassignments of `selected_model` compute `ModelChoice` |
| Analysis.OnlyVettedModelsGenerate | backend/main.py:82-204 | a model that generates is either an allow-listed id that instantiated for the request or a startup candidate that instantiated at start |
| Analysis.Truncated | backend/main.py:236 | the prompt's page text is the first `min(length, 10000)` characters of the page |
| Analysis.RenderEmbeds | backend/main.py:223-251 | `Render`, the prompt f-string: the template's opening text, the competitor name, the text before the content, the first 10,000 characters of the page and the closing text, each at its fixed offset and nothing else |
| Analysis.RenderIgnoresContentPastLimit | backend/main.py:236 | page text past the first 10,000 characters does not change the prompt |
| Analysis.BraceSpan | backend/main.py:276 | the span found is a match of `\{.*\}` under DOTALL and encloses every other match, so it runs from the first `{` to the last `}` after it; there is none exactly when no `}` follows a `{` |
| Analysis.ExtractJsonSpan | backend/main.py:276 | a span exists exactly when some `}` follows some `{`; the span starts with `{` and ends with `}` |
| Analysis.SpanOfWrappedObject | backend/main.py:276 | an object wrapped in text with no `{` before it and no `}` after it is extracted exactly |
| Analysis.AsWeakness | backend/main.py:280 | a record is built exactly when the value is an object whose `title`, `description`, `severity` and `category` are strings, and it carries those strings |
| Analysis.RecordsFrom | backend/main.py:279-281 | the comprehension succeeds exactly when every item builds a record, gives one record per item in order, and otherwise fails on the first item that builds none |
| Analysis.IterateRecords | backend/main.py:280 | iterating the `"weaknesses"` value: an array gives its records in order, or fails on its first item that builds no record; an empty string or empty object gives no records; any other value fails on that value |
| Analysis.WeaknessesFrom | backend/main.py:278-281 | a missing `"weaknesses"` key gives no weaknesses; an array gives its records, in order, or fails on its first item that builds no record; an empty string or empty object gives no weaknesses; any other value under the key fails on that value; a non-object fails on itself |
| Analysis.WeaknessesFromListDocument | backend/main.py:240-281 | decoding an answer in the format the prompt asks for gives back exactly the listed weaknesses, in order |
| Analysis.ParseResponse | backend/main.py:276-301 | no span gives the single "AI Response Parsing Issue" placeholder; a decode failure or a record failure gives the single "Analysis parsing error" placeholder with the error's message; otherwise the decoded weaknesses |
| Analysis.ParseRecoversListedWeaknesses | backend/main.py:269-281 | an answer that wraps a well-formed object in brace-free commentary yields exactly the listed weaknesses |
| Analysis.Drafted | backend/main.py:206-301 | without a model, the two "AI Analysis Unavailable" and "Manual Review Required" placeholders; a generation exception gives the single "AI Service Error" placeholder with its message; weaknesses stay unbound exactly when the model answered with empty text; a non-empty answer gives the weaknesses parsed from it |
| Analysis.DraftedIgnoresContentPastLimit | backend/main.py:223-301 | the weaknesses do not depend on page text past the first 10,000 characters |
| Analysis.DraftWeaknesses | backend/main.py:206-301 | the handler's reassignments of `weaknesses` and `ai_response` compute `Drafted` |
| Analysis.FinishAnalysis | backend/main.py:186-316 | an unsupported model is a 400 with no save; unbound weaknesses are a 500 with no save; a failed save is a 500 and stores nothing; otherwise the response echoes the request, carries the drafted weaknesses and the full scraped length, and the saved rows mirror those weaknesses; competitors are untouched |
| Analysis.AnalyzeScraped | backend/main.py:177-316 | once the page is scraped: a failed get-or-create is a 500 with the store's message and changes nothing; otherwise the competitors table is unchanged when the name was stored, else it gains exactly one row with the name, URL and store time, whatever follows; the outcome is then the model choice's 400 or that of the drafted weaknesses under the handler's prompt; every HTTP error leaves the insights unchanged; on success the new insight rows are exactly the returned weaknesses under the competitor's id |
| Analysis.AnalyzeCompetitor | backend/main.py:152-322 | an empty scrape is a 400 before any store call and changes nothing; otherwise the outcome and both tables are as `AnalyzeScraped` states for the scraped page; on success the new insight rows are exactly the returned weaknesses under the competitor's id |

## Left out

- Environment loading, the `.env` file fallback and the CORS set-up are not
  modelled: they are process configuration. The diagnostic endpoints `/`,
  `/env-check` and `/db-check` and the `/competitors` listing are left out too:
  they are store query plumbing.
- The Firecrawl, Google Generative AI and Supabase clients, `json.loads` and the
  exception texts of pydantic are not modelled concretely. Each is an input, as
  described above. Only the brace-span rule is modelled concretely.
- `DatabaseManager.__init__` is modelled as a gateway over empty tables. The
  connection and the table probe it performs are left out.
- The store's clock and `datetime.utcnow()` are opaque integer inputs.
  Timestamp parsing with `fromisoformat` and all logging are left out.
- Identifiers are natural numbers handed out by a counter, not the store's
  strings. The foreign key from insights to competitors and the store's own
  uniqueness and severity constraints are not modelled.
- A failed insert is modelled as storing nothing, which matches a store that
  rejects the whole batch.
- Validation follows pydantic v2: the four weakness fields must be strings, and
  extra keys are ignored. JSON numbers are modelled as integers only, because
  they matter only as "not a string". Iterating a non-empty string, a non-empty
  object, a number, a boolean or `null` under `"weaknesses"` fails, and that
  failure is modelled as a record failure.
- Async execution and the check-then-insert race between concurrent requests
  for the same name are left out. Requests are modelled as sequential.
- Analysis.UnboundWeaknesses: the 500 detail for an empty answer uses the
  wording of Python 3.11 and later. Python 3.10, which the code also
  supports, says "local variable 'weaknesses' referenced before assignment".
- Analysis.UnsupportedModelDetail: the 400 detail is defined as Python's text
  for the allow-list, but no contract states its exact characters.
- The handler's prompt is the constant `Analysis.AnalystPrompt`. Its properties
  are proved for every template, so none of them depends on the prompt's
  wording.
