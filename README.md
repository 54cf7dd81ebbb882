# OpenTSDB client core, modelled in Dafny

This project models the core of `time_series`, a Ruby client for the
OpenTSDB time-series database. It covers four parts.

- **Synthetic series** (`Synthetic`, `Formula`). `FormulaMap` aligns
  several named series by their timestamp keys. `SyntheticResult`
  evaluates a formula once per aligned timestamp with the calculator's
  non-raising `evaluate`. The formula language is reduced to integer
  `+ - * /`. A formula that mentions a variable the frame does not bind
  yields nil at that timestamp. A division by zero raises
  `ZeroDivisionError` and aborts the construction.
- **Metrics** (`Metrics`). A data point is validated: required fields
  are checked in order, then a non-integer timestamp is rejected.
  Defaults are filled in, and the point is rendered as the `put` line of
  OpenTSDB's telnet-style write protocol.
- **Results** (`Results`). A response is wrapped with its status, its
  parsed payload, the payload's length and, for error statuses, the
  payload's `error.message`.
- **The client** (`Client`). It builds the base URL and the
  configuration with its whitelisted keys. It produces the suggest and
  query URIs and the dry-run write command. It chooses between the URI
  and a network call in `run_query`, builds one GET request per query
  in a pipelined batch, and toggles the connection's idempotent flag
  around that batch. `run_synthetic_query` is wired on top.

`Ruby` holds the parts of the Ruby runtime these rely on:
- a raised exception, modelled as `Raised` in `Try`;
- dynamic values and their truthiness;
- `Integer#to_s`, string interpolation, `String#rstrip` and `Array#join`.

State follows the source's own shape:
- **Classes.** `FormulaMap`, `SyntheticResult` and `TSClient` update
  their fields in place, so they are classes and their loops are methods
  with invariants.
- **Datatypes.** `Metric`, `Result` and `PipelineWrapper` only set
  their fields while being constructed. They are datatypes built by a
  function that returns the object or the exception.
- **Loop methods.** `Validate`, `ToS`, `Configure`, `EvaluateEach` and
  the `FormulaMap` constructor are the source's loops, each proved equal
  to a specification function or a map comprehension. `BuildHash`, which
  the constructor's loop calls, updates the parameters map in place.

Behaviour outside the program is passed in as a parameter:
- the random choice of `Array#sample` (`pick`);
- the current time (`now`);
- the outcome of the shell command (`shellSucceeded`);
- the HTTP connection (`get` for a single request, a `Transport` for a
  pipelined batch).

Two behaviours of the code on its failure paths:
- `run_queries` sets the idempotent flag back to true only when the
  batch returns. The comment at lib/time_series/ts_client.rb:132 says
  idempotency is disabled "temporarily", which suggests the flag should
  come back. If the batch raises, it stays false, because there is no
  `ensure`. `Client.TSClient.RunQueries` states this.
- `FormulaMap` on an empty data hash samples nil as the key and fails on
  `nil.each_key`. The model requires the sampled series to be a key of
  the data. `run_synthetic_query` with an empty query hash passes nil as
  the data and raises `NoMethodError`.

## Model

| member | source | states |
|---|---|---|
| Formula.Eval | lib/time_series/results/synthetic_result.rb:32 | the raising evaluation of a formula on a frame fails only for an unbound variable the formula mentions and the frame lacks, or for a division by zero in a formula that divides |
| Formula.FloorDiv | lib/time_series/results/synthetic_result.rb:32 | the model's integer division rounds towards negative infinity: the remainder has the divisor's sign |
| Synthetic.Calculator | lib/time_series/results/synthetic_result.rb:32 | the non-raising evaluate yields nil exactly when the formula mentions a variable the frame lacks; with every variable bound it yields the formula's value, or raises, and then only a division by zero in a formula that divides |
| Formula.EvalReadsOnlyFreeVars | lib/time_series/results/synthetic_result.rb:32 | the outcome of an evaluation depends only on the formula's own variables, so extra parameters in a frame change nothing |
| Formula.EvalDefined | lib/time_series/results/synthetic_result.rb:32 | a formula without division, all of whose variables the frame binds, always evaluates |
| Synthetic.CommonKeysSpec | lib/time_series/results/synthetic_result.rb:92-94 | a timestamp is aligned if and only if it is a key of every series |
| Synthetic.SampleIrrelevant | lib/time_series/results/synthetic_result.rb:83-98 | the frames built from the keys of the sampled series equal the reference alignment over the intersection of all key sets, whichever series is sampled |
| Synthetic.FrameAt | lib/time_series/results/synthetic_result.rb:92-98 | build_hash yields a frame exactly when every series has the timestamp; the frame's keys are the parameter names, each mapped to its series' value there |
| Synthetic.FormulaMap.constructor | lib/time_series/results/synthetic_result.rb:79-86 | after the loop over the sampled keys, the parameters are exactly the reference alignment and the data is stored unchanged |
| Synthetic.FormulaMap.BuildHash | lib/time_series/results/synthetic_result.rb:92-99 | adds the aligned frame for the timestamp when every series has it, and leaves the parameters unchanged otherwise |
| Synthetic.SyntheticResult.Init | lib/time_series/results/synthetic_result.rb:16-20 | the name, formula and data are stored as given and results start empty |
| Synthetic.SyntheticResult.Calculate | lib/time_series/results/synthetic_result.rb:28-34 | succeeds exactly when the calculator raises on no aligned frame, and then adds each aligned timestamp's outcome (a value or nil) to results; otherwise it reports the exception of one aligned frame |
| Synthetic.SyntheticResult.EvaluateEach | lib/time_series/results/synthetic_result.rb:31-33 | the loop writes one entry per frame, the calculator's outcome on it, and stops with the exception of a frame that raises |
| Synthetic.SyntheticResult.Length | lib/time_series/results/synthetic_result.rb:39-41 | the length is the number of keys in results |
| Synthetic.SyntheticResult.New | lib/time_series/results/synthetic_result.rb:16-24 | construction returns an object exactly when the calculator raises on no aligned frame; its data is the input unchanged, its results map each common timestamp to the calculator's outcome, and its length is the number of common timestamps; otherwise the exception escapes and no object is returned |
| Synthetic.ResultAt | lib/time_series/results/synthetic_result.rb:31-33 | a timestamp has a result if and only if every series has it, and that result is the calculator's outcome on its frame |
| Synthetic.SumOfTwoSeries | spec/unit/lib/time_series/synthetic_result_spec.rb:9-16 | x + y over the example series gives 2 at 123 and 4 at 124, and nothing at 125, which x lacks |
| Synthetic.UnboundVariableGivesNil | lib/time_series/results/synthetic_result.rb:31-33 | a formula over a variable no series provides stores nil at every aligned timestamp instead of raising |
| Synthetic.DivisionByZeroAborts | spec/unit/lib/time_series/synthetic_result_spec.rb:32-37 | x / y with y = 0 at a shared timestamp makes the calculation fail |
| Metrics.ValidationError | lib/time_series/metric.rb:43-53 | validation fails if and only if a required field is missing or a supplied timestamp is truthy and not a Fixnum |
| Metrics.Validate | lib/time_series/metric.rb:43-53 | the validation loop raises exactly the exception the specification function names, the first missing field in order, else the timestamp error |
| Metrics.ValidationOrder | lib/time_series/metric.rb:19 | for the required fields name and value, the name is checked first, then the value, then the timestamp |
| Metrics.NewMetric | lib/time_series/metric.rb:18-25 | construction raises "name is required…" or "value is required…" or "Timestamp must be numeric", in that order of precedence, and otherwise copies name, value, tags (default empty) and timestamp (default the current time) |
| Metrics.ToS | lib/time_series/metric.rb:30-35 | the accumulating tag loop followed by the join produces exactly the put line of the metric |
| Metrics.TagSectionJoined | lib/time_series/metric.rb:33 | the accumulated tag string is the tags as key=value joined by single spaces, plus one trailing space |
| Metrics.PutLineWithTags | lib/time_series/metric.rb:30-35 | with tags whose last value does not end in whitespace, the put line is name, timestamp, value and each tag as key=value in tag order, single-space separated |
| Metrics.PutLineWithoutTags | lib/time_series/metric.rb:31-34 | with no tags the put line is "name ts value " with a trailing space |
| Metrics.PutLineExample | spec/acceptance/lib/time_series/metric_spec.rb:9-16 | the example metric renders as "test1.test2 12132342 1 host=localhost" |
| Metrics.MetricExample | spec/acceptance/lib/time_series/metric_spec.rb:9-10 | the example configuration yields a metric with exactly those fields |
| Ruby.RStrip | lib/time_series/metric.rb:34 | rstrip keeps the longest prefix that does not end in whitespace and removes only whitespace |
| Results.ErrorsIffNot2xx | lib/time_series/results/result.rb:23-25 | for three-digit statuses, errors? holds if and only if the status is outside 200..299 |
| Results.ErrorsOnOtherNumbers | lib/time_series/results/result.rb:23-25 | the textual test treats 2 and 2000 as successes and -200 as an error |
| Results.NewResult | lib/time_series/results/result.rb:12-37 | the result stores the status and the payload verbatim, with its element count as length; the error message is set only for an error status with a non-empty payload and is then the payload's error.message; a non-empty array under an error status raises |
| Results.ErrorMessageExample | spec/integration/lib/time_series/integration_spec.rb:78-87 | a 500 response with an error object reports errors and its message |
| Results.EmptyResultExample | spec/acceptance/lib/time_series/ts_client_spec.rb:71-78 | a 200 response with an empty array is a result of length 0 with no error message |
| Client.DefaultBaseUrl | lib/time_series/ts_client.rb:21-25 | with the default host, port and protocol the base URL is http://127.0.0.1:4242/ |
| Client.TSClient.constructor | lib/time_series/ts_client.rb:21-29 | host and port are stored, the base URL is protocol://host:port/, the configuration is the default one and the connection is idempotent |
| Client.TSClient.Configure | lib/time_series/ts_client.rb:36-44 | the configuration is rebuilt from the defaults and the settings, whatever it was before |
| Client.ConfigureKeys | lib/time_series/ts_client.rb:36-44 | after configure the configuration has exactly the keys dry_run and version, so unknown keys are ignored |
| Client.ConfigureLastWins | lib/time_series/ts_client.rb:40-43 | a valid key takes the value of its last setting |
| Client.ConfigureDefault | lib/time_series/ts_client.rb:36-38 | a valid key that is never set keeps its default |
| Client.ConfigureExample | spec/unit/lib/time_series/ts_client_spec.rb:52-67 | configure(dry_run: true, validation: true, version: '2.1') gives exactly dry_run true and version 2.1 |
| Client.TSClient.SuggestUri | lib/time_series/ts_client.rb:72-74 | the suggest URI starts with the base URL and continues with api/suggest and the type, query and max parameters, with defaults metrics and 25 |
| Client.SuggestExample | spec/acceptance/lib/time_series/ts_client_spec.rb:21-24 | the default suggest URI of mtest on opentsdb.foo.com:4242 |
| Client.TSClient.Write | lib/time_series/ts_client.rb:79-91 | in dry-run mode write returns the command whatever the shell would do; otherwise it returns nil when the command succeeds and raises the IOError naming the metric when it fails |
| Client.WriteExample | spec/acceptance/lib/time_series/metric_spec.rb:12-17 | the dry-run command for the example metric on 127.0.0.1:60000 |
| Client.TSClient.QueryUri | lib/time_series/ts_client.rb:107-109 | the query URI starts with the base URL and continues with api/query? and the graph string |
| Client.TSClient.RunQuery | lib/time_series/ts_client.rb:98-101 | in dry-run mode or for PNG the reply is the query URI, the same for every connection; otherwise it is the Result of the GET response, or the exception of the connection or of the Result |
| Client.QueryRequests | lib/time_series/ts_client.rb:164 | one GET api/query request per query, in query order |
| Client.NewPipelineWrapper | lib/time_series/ts_client.rb:161-165 | the wrapper keeps the configuration and queries and has one request per query, the i-th carrying the i-th query's parameters |
| Client.MakeResults | lib/time_series/ts_client.rb:150 | one Result per response in order; the exception of the first response whose Result raises aborts the whole map |
| Client.Pipelined | lib/time_series/ts_client.rb:147-151 | the batch's requests are those of the wrapper; the transport's exception propagates, and otherwise the results correspond one to one, in order, to the responses |
| Client.FirstDps | lib/time_series/ts_client.rb:119 | a raised reply passes its exception on and a URI reply raises; a success comes only from the first series object of an array payload, and whenever that object holds dps the outcome is exactly the conversion of that dps |
| Client.AsSeries | lib/time_series/ts_client.rb:119 | a dps converts if and only if it is an object of integers, and then has exactly its keys, each with its value |
| Client.TSClient.SyntheticData | lib/time_series/ts_client.rb:119-122 | the merged data succeeds exactly when every query yields its dps, has exactly the query names as keys, and otherwise carries the exception of the first query that fails |
| Client.TSClient.SyntheticDataAt | lib/time_series/ts_client.rb:119-122 | with distinct names, each name maps to the dps of its own query |
| Client.TSClient.RunSyntheticQuery | lib/time_series/ts_client.rb:118-125 | a query failure propagates; an empty query hash raises; otherwise the synthetic result exists exactly when the formula evaluates on every aligned frame of the merged dps, and then holds those data and values |
| Client.TSClient.RunQueries | lib/time_series/ts_client.rb:131-139 | the batch runs with idempotency off and returns the pipelined results; afterwards the flag is on if and only if the batch returned normally |

## Left out

- Network and process I/O are left out: Excon's `get` and `requests`, `valid?`, the non-dry-run `suggest` and the `system` call in `write`. The connection is a function parameter and the shell's outcome a boolean. Sockets, timeouts and retries are not modelled.
- `suggest` itself is not modelled. Only `suggest_uri`, which its dry-run branch returns, is.
- `JSON.parse` and the response body text are left out. Bodies arrive already parsed as an array or an object. Parse errors and floating-point numbers are not modelled.
- Dentaku, `TimeSeriesCalculator` and `initialize_math_functions` are left out. They are a foreign library and floating-point functions. The formula is an integer expression tree.
- Formula.Eval: division is floored integer division. The calculator divides numerically and returns a non-integer quotient where the division is inexact. Only integer values are modelled.
- Synthetic.Calculator: the calculator library is not part of this model. Its `evaluate` yielding nil for an unbound variable, while a division by zero escapes, follows the library's documented API and the division-by-zero test at spec/unit/lib/time_series/synthetic_result_spec.rb:32-37.
- Formula.Eval: the raising evaluation is internal to the model. The source calls the non-raising `evaluate`, which `Synthetic.Calculator` models by yielding nil for an unbound variable. Other calculator errors, such as parse errors or unknown functions, are not modelled.
- `Time.now` is the parameter `now`.
- The `Query` class is not part of this model. A query is seen only through its format, its request parameters and its graph string.
- The randomness of `Array#sample` is the parameter `pick`. `Synthetic.SampleIrrelevant` shows that the outcome does not depend on it.
- Concurrency around the shared idempotent flag is left out; the model is single-threaded.
- The `attr_accessor` setters of `TSClient` are left out. Host, port and base URL are fixed at construction.
- Metrics.NewMetric: tags are a sequence of key/value pairs in hash order. The uniqueness of hash keys is not enforced.
- Metrics.IsFixnum: the Fixnum test uses the 62-bit range of a 64-bit Ruby. Timestamps that are not integers, such as floats or Time objects, are not modelled. A non-integer truthy timestamp fails validation.
- Client.FirstDps: a dps object whose values are not all integers raises a TypeError of the model's own. In Ruby such a series would reach the calculator.
- Client.TSClient.RunSyntheticQuery: the exception for an empty query hash is a `NoMethodError` whose message is not checked.
