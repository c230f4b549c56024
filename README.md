# FankyGPT trainer, predictor and admin guard in Dafny

This project is a verified model of the two pieces of decision logic in the FankyGPT chat application. Everything else in the application is glue around a web framework, an LLM client and a hosted database.

- **The local trainer and predictor** (`model_trainer.py`):
  - The character filter `is_math_expression` decides whether chat input counts as arithmetic.
    - Before the filter runs, `**` is normalised to `^`.
    - Before evaluation, `^` is rewritten to `**`.
  - An append-only log stores (input, output) examples, one record per line.
  - The classifier artifact is refit from the whole log on every training call.
  - `predict_input` tries the evaluator first and falls back to the classifier. Every failure becomes a returned diagnostic string.
- **The admin guard** (`admin.py`, `verify_supabase_admin`):
  - It checks the `Bearer ` prefix.
  - It takes the token with `split(" ")[1]`.
  - It exchanges the token for a user, then requires the user's profile to carry the role `admin`.
  - Its outcomes come in a fixed order: 401, then 403, then accept.

Modules:

- `Base` (`base.dfy`): `Option`, `Result`, `Outcome` and `StartsWith`.
- `MathFilter` (`math_filter.dfy`): the filter's character class and the filter itself. Also the `**`→`^` normalisation and the `^`→`**` rewrite, with their properties.
  - The pattern's `\d` and `\s` stay abstract. They are the two function fields of `CharClasses`.
  - The example lemmas assume only `StandardClasses`: ASCII digits are digits, the space is whitespace, and ASCII letters are neither.
- `Prediction` (`prediction.dfy`): `safe_eval_math` and `predict_input`.
  - Python's `eval` is an oracle `string -> EvalResult`. It either raises or yields a value. The value is given by what `str` makes of it: its text, or the exception `str` raises.
  - `str` runs inside `predict_input`'s `try`, so a failing `str` on the math path becomes the untrained diagnostic.
  - The unpickled classifier is an oracle `string -> Result<string>`.
- `ExampleStore` (`example_store.dfy`): the class `Trainer`. It holds:
  - the log as a `seq<Example>`;
  - a flag that says whether the data file exists;
  - the model file, which records the corpus it was fit on;
  - the cleaning transform `clean_text`, as an uninterpreted function constant shared by training and prediction.

  Its methods `Save`, `Load`, `Train` and `Predict` model the four module functions.
- `AdminAuth` (`admin_auth.dfy`): Python's `split(" ")` and the token extraction. Also the decision `VerifyAdmin`, a pure function of three things:
  - the header;
  - the token lookup, as an oracle that raises or returns an optional response;
  - the profile query, as an oracle that raises or returns optional row data.

Three behaviours of the code a reader might not expect:

- The filter's letters are `e E p i q r t l o g s n c a d`. `w`, `b` and `u` are not among them. So `pow(...)`, `abs(...)` and `round(...)` are rejected by the filter, even though the evaluator's namespace offers them (`RejectsPowAndAbs`, `RejectsRound`).
- `predict_input` applies Python's `str` to whatever `eval` returns. There is no separate integer-rendering step. A bare name such as `sin` passes the filter, and what `eval` then does with it is up to the evaluator oracle.
- The profile query in `verify_supabase_admin` is not inside a `try`. If it raises, for instance when `.single()` finds no row, the exception escapes the guard instead of becoming a 403. The model has a separate verdict `Escaped` for this case.

## Model

| member | source | states |
|---|---|---|
| `MathFilter.Normalise` | model_trainer.py:45 | `text.replace('**', '^')` never lengthens the text and is empty only for empty text. A leading `**` becomes `^`, a lone leading `*` stays `*`, and any other first character is kept |
| `MathFilter.NormaliseKeepsClass` | model_trainer.py:45 | every character of the normalised text is whitelisted iff every character of the original is (both `*` and `^` are whitelisted) |
| `MathFilter.IsMathExpression` | model_trainer.py:42-45 | `is_math_expression(t)` holds iff `t` is non-empty and every character is a digit, whitespace, one of `+-*/%.()[],^` or one of the fifteen pattern letters. So the normalisation never changes the verdict |
| `MathFilter.NormaliseLeavesNoDoubleStar` | model_trainer.py:45 | after the left-to-right, non-overlapping replacement no two adjacent `*` remain |
| `MathFilter.ForeignLetterRejected` | model_trainer.py:44-45 | any text holding an ASCII letter outside the pattern's letters is rejected |
| `MathFilter.RejectsProse` | model_trainer.py:44-45 | "what is 2+2" is rejected, so it goes to the classifier |
| `MathFilter.RejectsPowAndAbs` | model_trainer.py:44-59 | `pow(2, 3)` and `abs(-1)` are rejected although the evaluator offers `pow` and `abs` |
| `MathFilter.RejectsRound` | model_trainer.py:44-60 | `round(2.5)` is rejected although the evaluator offers `round` |
| `MathFilter.AcceptsArithmetic` | model_trainer.py:44-45 | "2 + 2", "3^2" and "2**3" pass the filter |
| `MathFilter.AcceptsFunctionNames` | model_trainer.py:44-45 | "sqrt(16)" and the bare name "sin" pass the filter |
| `MathFilter.PowerRewrite` | model_trainer.py:49 | `expr.replace("^", "**")` never shortens the text |
| `MathFilter.PowerRewriteLeavesNoCaret` | model_trainer.py:49 | the rewritten text holds no `^` |
| `MathFilter.PowerRewriteAppend` | model_trainer.py:49 | the rewrite works character by character: it distributes over concatenation |
| `MathFilter.PowerRewriteLength` | model_trainer.py:49 | the rewritten text is longer by exactly the number of `^` in the input |
| `MathFilter.PowerRewriteAt` | model_trainer.py:49 | a character at position `i` that is not `^` appears at `i` plus the number of earlier `^` in the rewritten text, and a `^` there becomes `**` in place. So every other character, `*` included, is kept in order |
| `MathFilter.NormaliseWithoutStar` | model_trainer.py:45 | text without `*` is left unchanged by the normalisation |
| `MathFilter.PowerRewriteUndoesNormalise` | model_trainer.py:45-49 | on text without `^`, the evaluator's rewrite turns the normalised text back into the original |
| `MathFilter.NormaliseUndoesPowerRewrite` | model_trainer.py:45-49 | on text without `*`, the filter's normalisation turns the evaluator's rewrite back into the original text |
| `MathFilter.PowerRewriteKeepsClass` | model_trainer.py:45-49 | the rewrite never changes whether every character is whitelisted |
| `Prediction.SafeEvalMath` | model_trainer.py:47-65 | `safe_eval_math` never raises. A value from the evaluator is passed on unchanged. An evaluation exception becomes a string starting with the invalid-expression prefix and carrying the exception message, which never starts with the untrained diagnostic |
| `Prediction.EvaluatorSeesFilteredText` | model_trainer.py:45-50 | for text without `*`, the text handed to `eval` has no `^`, and normalising it gives exactly what the filter judged |
| `Prediction.PredictInput` | model_trainer.py:67-75 | `predict_input` never raises. On math input an evaluation error gives the invalid-expression message, a value gives its `str` text, and a failing `str` gives the untrained diagnostic. On other input the answer is the predicted label for the cleaned input or starts with "Model belum dilatih: " |
| `Prediction.MathPathIgnoresModel` | model_trainer.py:67-70 | on math input the answer is the same whatever the model file holds, whether it is missing, and whatever the cleaning transform does |
| `Prediction.MathRenderFailureIsDiagnostic` | model_trainer.py:68-75 | when `str` of the evaluator's value raises (an int beyond Python's digit limit, for one), the math path answers "Model belum dilatih: " plus that message, whatever the model file holds |
| `Prediction.ClassifierPathAbsorbsFailures` | model_trainer.py:67-75 | on other input the answer is the predicted label for the cleaned input; a missing or unreadable model, or a failing prediction, gives "Model belum dilatih: " followed by the exception message, never an exception |
| `Prediction.DiagnosticIndistinguishable` | model_trainer.py:71-75 | a label that reads like the diagnostic gives the same answer as a missing model, so callers cannot tell them apart |
| `ExampleStore.CleanedInputs` | model_trainer.py:20-26 | one cleaned input per record, `X[i] == clean(input_i)`, same length as the log |
| `ExampleStore.Outputs` | model_trainer.py:20-26 | one output per record, verbatim, same length as the log |
| `ExampleStore.CorpusOfAppend` | model_trainer.py:29-31 | the corpus of the log plus one record is the corpus of the log plus that record's cleaned input and output at the end |
| `ExampleStore.Trainer.constructor` | model_trainer.py:8-9 | a fresh installation has no data file, an empty log and no model file |
| `ExampleStore.Trainer.Save` | model_trainer.py:12-15 | the data file exists afterwards and holds the old records followed by exactly the new one; the model file is untouched |
| `ExampleStore.Trainer.Load` | model_trainer.py:17-26 | no data file gives two empty sequences; otherwise `X` and `y` have the log's length, in file order, with `X[i]` the cleaned input and `y[i]` the verbatim output |
| `ExampleStore.Trainer.Train` | model_trainer.py:29-39 | the log gains the new pair at the end; the fit sees the previous corpus plus the new pair as its last element; on success the model file records the corpus of the whole new log, and on a fitting exception the log keeps the pair and the old model file stays |
| `ExampleStore.LoadModel` | model_trainer.py:71-72 | a missing model file gives the FileNotFoundError message, and an existing one is handed to the unpickler |
| `ExampleStore.Trainer.Predict` | model_trainer.py:67-75 | prediction against the current model file agrees with `predict_input`. With no model file, non-math input gets "Model belum dilatih: " plus the FileNotFoundError message. Math input gets an answer that no model file can change |
| `ExampleStore.TrainTwice` | model_trainer.py:29-31 | two training calls from a fresh installation leave both examples in the log in call order, and a successful second fit is on both |
| `AdminAuth.SplitOnSpace` | admin.py:16 | `split(" ")` gives at least one field and no field holds a space |
| `AdminAuth.JoinSplit` | admin.py:16 | joining the fields with single spaces gives the header back: splitting loses nothing |
| `AdminAuth.SplitAfterWord` | admin.py:16 | a space-free word followed by a space becomes the first field, and the rest is split on its own |
| `AdminAuth.FirstFieldIsPrefix` | admin.py:16 | the first field is the longest space-free prefix of the text |
| `AdminAuth.BearerToken` | admin.py:13-16 | once the prefix check passes, `split(" ")` has a second field; the token is the text from index 7 up to the next space or the end |
| `AdminAuth.EmptyTokens` | admin.py:13-16 | "Bearer " and "Bearer  x" both yield the empty token |
| `AdminAuth.VerifyAdmin` | admin.py:12-34 | no bearer prefix gives 401 "Token tidak valid". A lookup that raises gives 401 "...atau expired". No response, no user or an empty email gives 401 "...tidak ada email". Every 401 comes from a failed authentication check. A profile query that raises after authentication escapes the guard unhandled, never as a 403. A 403 comes only after all 401 checks have passed, and only from returned profile data that is missing or not `admin`. The user is returned iff the prefix, lookup, email and `admin` role checks all hold |
| `AdminAuth.RejectedBeforeLookup` | admin.py:13-14 | without the prefix the verdict does not depend on either remote call |
| `AdminAuth.NonAdminForbidden` | admin.py:29-32 | an authenticated user whose profile data is missing, empty or has a role other than "admin" gets 403 "Akses hanya untuk admin" |

## Left out

- CountVectorizer and MultinomialNB fitting, prediction and pickle persistence (model_trainer.py:32-38, 71-73): foreign library code. Fitting is the oracle `fit`, the model file records the corpus it was fit on, and loading is the oracle `open`.
- Python `eval` with the `math` namespace (model_trainer.py:50-63): foreign evaluation with floating-point results. Only the text rewrite and the conversion of exceptions into text are modelled.
- `upload_to_supabase` after training (model_trainer.py:39): a network call whose failures are only logged, so it changes no modelled state.
- The JSON encoding of a record (model_trainer.py:15, 23): each line is an opaque (input, output) pair. A line that fails to decode is not modelled.
- `clean_text`: its module `text_processor` is not modelled. It is an uninterpreted total function, not assumed idempotent. An exception raised by it inside `predict_input` would also be absorbed; the model does not represent such an exception.
- `\d` and `\s`: their Unicode extent is left abstract. Python's `$` also matches before a final newline, but a newline is whitespace, so this changes no verdict.
- A torn or partially written model file after a failed `pickle.dump`: this is I/O failure, and `open` may report any model file as unreadable.
- `extract_text_from_url` (model_trainer.py:78-87): network I/O and HTML parsing.
- All of main.py: HTTP routes, cookies, LLM calls, template rendering, the sympy evaluator and file deletion in `hapus_data`/`hapus_model`. The model has no reset of the log or the model file for the same reason.
- All of supabase_config.py: remote storage and chat-log calls. The lookups in admin.py are the oracles `getUser` and `profileRole`.
- The FastAPI `Header(...)` binding: a request without the header is refused by the framework before the guard runs, so the guard always receives a string.
- Concurrency: the code uses no locks and the model adds none.
