# Beacon HTML search: request shaping, modelled in Dafny

This project models the request-shaping core of the HTML POST search route of
the Beacon service (`handler_post` in `beacon/endpoints/html/main.py`). It
covers four pure steps and the way they combine:

1. **Variant-locus parsing** (`VariantLocus`, `locus.dfy`). The `variantQuery`
   field holds a locus such as `7:140453136 A>T`. It is matched
   case-insensitively against an anchored pattern with four groups:
   chromosome, position, reference and alternate. The grammar is a
   declarative predicate, `Matches`: some decomposition of the string into
   the pattern's pieces (`Split`, `WellFormed`, `Join`) exists. A
   hand-written scanner (`Scan`, `ParseLocus`) is proved to succeed on exactly
   those strings. On success it returns exactly the captured groups: the
   chromosome as typed, the position as the digit run's value, and the
   reference and alternate upper-cased. A canonical rendering (`Render`)
   parses back to the same locus.
2. **Query-record construction** (`QueryRecord`, `query.dfy`). This builds the
   backend `parameters` record from the optional locus and the pass-through
   fields. All other fields take fixed defaults.
3. **Dataset authorisation** (`DatasetFilter`, `datasets.dfy`). An empty
   request yields the allowed set itself. A non-empty request is filtered to
   its allowed members, in request order and with duplicates kept.
4. **Result/target dispatch** (`Dispatcher`, `dispatch.dfy`). This is
   `_fetch_results`: a (resultOption, targetInstance) pair over
   {variant, individual, sample} selects one of nine backend operations.
   Any other pair selects none.
5. **Handler outcome** (`PostHandler`, `handler.dfy`). These steps are composed
   into the view the handler renders, in one of four shapes: bad request,
   unauthorized, no response, or success.

`wrappers.dfy` holds the `Option` type. `examples.dfy` works through concrete
requests: the documented example locus, a malformed locus, lower-case input,
small dataset lists, the whole dispatch table and one end-to-end search.

The handler's collaborators are inputs to the model:
- The token oracle gives a `Grant`: the allowed datasets and an authenticated
  flag.
- The field validator gives a `Submission`: either a rejection message, or
  the raw form values plus the validated fields.
- The backend is a function from a `Call` to an optional list of rows. `None`
  stands for a response Python treats as false.

Character classes are ASCII. `\s` is a space or one of the characters 9 to 13.
`\d` is `0`–`9`. Ignoring case folds `a`–`z` onto `A`–`Z`.

### Behaviour worth noting

- **Unknown selector pair.** `_fetch_results` returns `None`, without an
  error, for a pair outside {variant, individual, sample}², and the handler
  then renders the "no response" view (main.py:20-46 and 206-219).
  `FetchResults` returns `None` and `HandlePost` gives `NoResponse`.
- **Bad request.** A rejected submission resets the form to its defaults:
  `''`, with `'individual'` for the two axes, instead of echoing the
  submitted values (main.py:121-135). `HandlePost` does the same.
- **Space before the reference.** The pattern requires at least one
  whitespace character between the position and the reference (main.py:52),
  and `WellFormed` requires it too.
- **Position 0.** The pattern accepts `0` as a position, and `start` tests
  the position's truth value (main.py:162). So a locus such as `7:0 A>T`
  reaches the backend with its allele fields set and no `start` filter
  (`MakeQuery`, `QueryKeepsLocus`).
- **Authentication flag.** The handler passes `None` as the authentication
  argument of the fetch operation (main.py:202), so every `Call` has
  `authenticated == None`.
- **Success defaults.** The success view uses `''` as the default for a
  missing targetInstance or resultOption. The other views use `'individual'`
  (main.py:228-230 against 193-195). The model keeps the difference.

## Model

| member | source | states |
|---|---|---|
| VariantLocus.Scan | beacon/endpoints/html/main.py:52-54 | whatever the scanner accepts is a well-formed decomposition of the pattern that spells exactly the input string |
| VariantLocus.ScanJoin | beacon/endpoints/html/main.py:52-54 | scanning the string of any well-formed decomposition returns that decomposition, so the groups are determined by the string |
| VariantLocus.CutConcat | beacon/endpoints/html/main.py:52 | a maximal character-class run ends exactly where the next character leaves the class, so each group and whitespace run is delimited uniquely |
| VariantLocus.ParseMatches | beacon/endpoints/html/main.py:143-147 | the parser succeeds if and only if the whole string matches the anchored, case-insensitive pattern |
| VariantLocus.ParseCaptures | beacon/endpoints/html/main.py:146-151 | on a match the locus is the chromosome group as typed, int of the digit group, and the reference and alternate groups upper-cased |
| VariantLocus.ParseLocus | beacon/endpoints/html/main.py:146-151 | a parsed locus has a chromosome token from 1-22, X, Y or MT in either case (such as x or mt), returned as typed (it is a prefix of the input); a non-empty upper-case ACGTN reference; and an alternate that is one of the ten symbolic alleles or non-empty upper-case ACGTN |
| VariantLocus.NatToDigits | beacon/endpoints/html/main.py:149 | every position has a digit spelling that int reads back as that position |
| VariantLocus.RenderRoundTrip | beacon/endpoints/html/main.py:146-151 | the canonical spelling chrom:pos ref>alt of a valid locus parses back to that locus |
| VariantLocus.ParseIdempotent | beacon/endpoints/html/main.py:143-151 | re-parsing the canonical spelling of a parsed locus yields the same four fields |
| QueryRecord.MakeQuery | beacon/endpoints/html/main.py:160-175 | fixed variantType None, empty end, skip 0, limit 10, one-None schema lists; assemblyId, filters, targetId pass through; allele fields all set or all unset with the locus; start holds the position exactly when it is non-zero |
| QueryRecord.QueryKeepsLocus | beacon/endpoints/html/main.py:160-166 | the locus can be read back from the record unchanged; a locus at position 0 (such as 7:0 A>T) is sent with its allele fields and no start filter, which reads back as position 0 |
| QueryRecord.MakeQueryInjective | beacon/endpoints/html/main.py:160-175 | with the same pass-through fields, two records are equal if and only if their loci are |
| QueryRecord.QueryOfMatch | beacon/endpoints/html/main.py:146-166 | for a matching variantQuery the record's referenceName is the chromosome group as typed, the base fields are the upper-cased groups, and start is the position unless it is 0 |
| DatasetFilter.Authorized | beacon/endpoints/html/main.py:184 | the filtered list is no longer than the request and holds exactly the requested datasets that are allowed |
| DatasetFilter.AuthorizedAppend | beacon/endpoints/html/main.py:184 | filtering a concatenation is concatenating the filtered parts, so request order is kept |
| DatasetFilter.AuthorizedCount | beacon/endpoints/html/main.py:184 | an allowed dataset occurs as often as requested, and a dataset that is not allowed never occurs |
| DatasetFilter.AuthorizedAllAllowed | beacon/endpoints/html/main.py:184 | a request of allowed datasets only is passed through unchanged |
| DatasetFilter.AuthorizedIdempotent | beacon/endpoints/html/main.py:184 | filtering the filtered list changes nothing |
| DatasetFilter.SelectDatasets | beacon/endpoints/html/main.py:181-186 | an empty request selects the allowed set; otherwise the filtered request, whose names are the requested ones that are allowed; the selection never leaves the allowed set, and it is empty if and only if nothing requested is allowed (or nothing is allowed when nothing is requested) |
| Dispatcher.FetchResults | beacon/endpoints/html/main.py:20-46 | an operation is selected if and only if both words are variant, individual or sample, and the selected operation's result and target kinds are the two words given |
| Dispatcher.FetchResultsInverse | beacon/endpoints/html/main.py:20-46 | each of the nine operations is selected by exactly one pair of words, the pair naming its result and target kinds |
| Dispatcher.OpNamePattern | beacon/endpoints/html/main.py:26-46 | each operation calls the database function fetch_<result>s_by_<target>, with sample written biosample |
| Dispatcher.OpNameInjective | beacon/endpoints/html/main.py:26-46 | the nine operations call nine distinct database functions |
| PostHandler.ReadLocus | beacon/endpoints/html/main.py:137-151 | no locus when the raw variantQuery is empty or missing; malformed exactly when it is non-empty and does not match; otherwise the parsed locus, all four fields at once |
| PostHandler.HandlePost | beacon/endpoints/html/main.py:101-234 | never the homepage; records only on success; bad request exactly on invalid input, with the form reset; unauthorized exactly when the selection is empty; a backend call exactly when the selection is non-empty and the pair is known; the call has the selected operation, the built query, the selection and authentication None; success exactly when the backend answers, showing its rows |
| PostHandler.LocusFieldsAllOrNone | beacon/endpoints/html/main.py:138-175 | in any backend call, referenceName, referenceBases and alternateBases are set exactly when a variantQuery was submitted, and start only then |
| PostHandler.OnlyAllowedDatasetsQueried | beacon/endpoints/html/main.py:181-202 | the backend is only ever asked about a non-empty collection of allowed datasets |
| Examples.ExampleLocus | beacon/endpoints/html/main.py:143-151 | 7:140453136 A>T parses to chromosome 7, position 140453136, reference A, alternate T |
| Examples.ExampleLowerCase | beacon/endpoints/html/main.py:146-151 | x : 0012  a > del:me parses to chromosome x as typed, position 12, reference A, alternate DEL:ME |
| Examples.ExampleMalformed | beacon/endpoints/html/main.py:52-54 | chr7:abc>T does not parse |
| Examples.ExampleDatasets | beacon/endpoints/html/main.py:181-186 | [] with {a, b} selects {a, b}; [a, z] selects [a]; [z] selects nothing |
| Examples.ExampleDatasetsOrder | beacon/endpoints/html/main.py:184 | [b, z, a, b] with {a, b} selects [b, a, b], in request order with the duplicate kept |
| Examples.ExampleDispatchTable | beacon/endpoints/html/main.py:20-46 | the nine pairs select the nine operations; biosample or a missing word selects none |
| Examples.ExampleSearch | beacon/endpoints/html/main.py:101-202 | the example search calls fetch_variants_by_individual on the allowed set, with reference name 7, start 140453136, bases A and T |

## Left out

- `handler_get`: it lists dataset metadata for the homepage and involves no request shaping.
- Transport and framework glue: aiohttp handlers, templating, sessions, CSRF tokens and logging (including `print_qparams`). These are I/O.
- The `session` and `request` values echoed in every view: they are transport objects.
- The database operations, `fetch_datasets_access` and the asynchronous iteration over results. The operations are identified by `Op` and `OpName`. The backend's answer is an input.
- `resolve_token`: an external authorisation oracle, modelled as the `Grant` input.
- The request-validation library and `proxy.fetch`: their source is not part of this model. Their result is the `Submission` input, and the `variantQuery` rule is assumed to accept exactly the pattern's strings.
- PostHandler.HandlePost: a `variantQuery` that does not match gives a bad request with a fixed error text. The validator's own message is not part of this model. The model also folds the validator's rejection and the `assert(m)` at line 147 into one step.
- Python regex edge cases: `$` also matching before a final newline, Unicode `\s` and `\d` classes, `int` on non-ASCII digits, and Unicode case folding under ignore-case. The model is ASCII-only and anchors at the end of the string.
- The `namedtuple` construction of the query record: the record is the `Query` datatype.
