/**
 The outcome of one POST search (`handler_post`), over abstract results of its
 collaborators: the caller's grant from the token oracle, the submission as
 the field validator returns it, and the backend that runs a fetch operation.
 Every outcome renders the search page (never the homepage) in one of four
 shapes: bad request, unauthorized, no response, or success.
 */
module PostHandler {
  import opened Wrappers
  import opened VariantLocus
  import opened QueryRecord
  import opened DatasetFilter
  import opened Dispatcher

  /** One result row as the backend yields it */
  type Record = map<string, string>

  /** The validated fields of the form */
  datatype Fields = Fields(
    variantQuery: string,
    assemblyId: Option<string>,
    datasets: seq<string>,
    filters: seq<string>,
    targetInstance: Option<string>,
    targetId: Option<string>,
    resultOption: Option<string>)

  /** What the field validator returns: a rejection with its message, or the
      raw submitted values alongside the validated fields. */
  datatype Submission = Rejected(error: string) | Accepted(raw: map<string, string>, fields: Fields)

  /** What the token oracle grants: the allowed datasets and whether the
      caller is authenticated. */
  datatype Grant = Grant(allowed: set<string>, authenticated: bool)

  /** One invocation of a backend fetch operation */
  datatype Call = Call(op: Op, query: Query, datasets: Selection, authenticated: Option<bool>)

  /** The form values the page shows again */
  datatype Form = Form(
    variantQuery: string, datasets: string, filters: string,
    targetInstance: string, targetId: string, resultOption: string)

  /** The page's view: result rows, form values, an error text, and whether it
      is the homepage. */
  datatype View = View(records: seq<Record>, form: Form, errors: Option<string>, homepage: bool)

  datatype Outcome = BadRequest | Unauthorized | NoResponse | Success

  /** The view together with the shape it has and the backend call made, if any */
  datatype Response = Response(outcome: Outcome, view: View, call: Option<Call>)

  /** How the locus field of a submission reads */
  datatype LocusInput = Absent | Present(locus: Locus) | Malformed

  /** The form as a fresh page shows it */
  const DefaultForm: Form := Form("", "", "", "individual", "", "individual")

  /** The error text of a `variantQuery` the pattern rejects */
  const MalformedLocusError: string := "variantQuery: value does not match the locus pattern"

  /** Python's `dict.get` with a default */
  function Get(raw: map<string, string>, key: string, default: string): string {
    if key in raw then raw[key] else default
  }

  /** The submitted values echoed back, with `axisDefault` for a missing
      target instance or result option. */
  function EchoForm(raw: map<string, string>, axisDefault: string): Form {
    Form(
      Get(raw, "variantQuery", ""), Get(raw, "datasets", ""), Get(raw, "filters", ""),
      Get(raw, "targetInstance", axisDefault), Get(raw, "targetId", ""),
      Get(raw, "resultOption", axisDefault))
  }

  /** Whether the raw form carries a non-empty `variantQuery` */
  predicate LocusRequested(raw: map<string, string>) {
    Get(raw, "variantQuery", "") != ""
  }

  /** The locus of a submission: none when the raw field is empty or missing,
      otherwise the parse of the validated field, all four parts at once. */
  function ReadLocus(raw: map<string, string>, value: string): (r: LocusInput)
    ensures r.Absent? <==> !LocusRequested(raw)
    ensures r.Malformed? <==> LocusRequested(raw) && !Matches(value)
    ensures r.Present? ==> ValidLocus(r.locus) && ParseLocus(value) == Some(r.locus)
  {
    ParseMatches(value);
    if !LocusRequested(raw) then Absent
    else match ParseLocus(value)
      case None => Malformed
      case Some(l) => Present(l)
  }

  /** The submission passes validation, locus pattern included */
  ghost predicate Valid(sub: Submission) {
    sub.Accepted? && (!LocusRequested(sub.raw) || Matches(sub.fields.variantQuery))
  }

  /** The query record of an accepted submission */
  function QueryOf(raw: map<string, string>, f: Fields): Query {
    var locus := match ReadLocus(raw, f.variantQuery)
      case Present(l) => Some(l)
      case _ => None;
    MakeQuery(locus, f.assemblyId, f.filters, f.targetId)
  }

  /** The page of a rejected request: the form reset, no records */
  function BadRequestView(error: string): View {
    View([], DefaultForm, Some(error), false)
  }

  /** The page of a request that produced no rows: the form echoed */
  function EmptyView(raw: map<string, string>): View {
    View([], EchoForm(raw, "individual"), None, false)
  }

  /** Lines 101-234, from the validated submission to the rendered view */
  function HandlePost(grant: Grant, sub: Submission, backend: Call -> Option<seq<Record>>): (r: Response)
    ensures !r.view.homepage
    ensures r.outcome != Success ==> r.view.records == []
    ensures r.view.errors.Some? <==> r.outcome == BadRequest
    // bad input: the form is reset rather than echoed, and nothing is queried
    ensures r.outcome == BadRequest <==> !Valid(sub)
    ensures r.outcome == BadRequest ==> r.view.form == DefaultForm && r.call == None
    ensures sub.Rejected? ==> r.view.errors == Some(sub.error)
    // no authorised dataset: nothing is queried
    ensures r.outcome == Unauthorized <==>
      Valid(sub) && SelectDatasets(sub.fields.datasets, grant.allowed).IsEmpty()
    ensures r.outcome in {Unauthorized, NoResponse} ==>
      r.view.form == EchoForm(sub.raw, "individual") && r.view.errors == None
    // a backend call happens exactly when the selector pair is known
    ensures r.call.Some? <==>
      && Valid(sub)
      && !SelectDatasets(sub.fields.datasets, grant.allowed).IsEmpty()
      && FetchResults(sub.fields.resultOption, sub.fields.targetInstance).Some?
    ensures r.call.Some? ==>
      && Some(r.call.value.op) == FetchResults(sub.fields.resultOption, sub.fields.targetInstance)
      && r.call.value.query == QueryOf(sub.raw, sub.fields)
      && r.call.value.datasets == SelectDatasets(sub.fields.datasets, grant.allowed)
      && r.call.value.datasets.Names() <= grant.allowed
      && r.call.value.authenticated == None
    ensures r.outcome == Success <==> r.call.Some? && backend(r.call.value).Some?
    ensures r.outcome == Success ==>
      && r.view.records == backend(r.call.value).value
      && r.view.form == EchoForm(sub.raw, "")
      && r.view.errors == None
  {
    match sub
    case Rejected(error) => Response(BadRequest, BadRequestView(error), None)
    case Accepted(raw, f) =>
      if ReadLocus(raw, f.variantQuery).Malformed? then
        Response(BadRequest, BadRequestView(MalformedLocusError), None)
      else
        var selection := SelectDatasets(f.datasets, grant.allowed);
        if selection.IsEmpty() then Response(Unauthorized, EmptyView(raw), None)
        else
          match FetchResults(f.resultOption, f.targetInstance)
          case None => Response(NoResponse, EmptyView(raw), None)
          case Some(op) =>
            var call := Call(op, QueryOf(raw, f), selection, None);
            match backend(call)
            case None => Response(NoResponse, EmptyView(raw), Some(call))
            case Some(rows) => Response(Success, View(rows, EchoForm(raw, ""), None, false), Some(call))
  }

  /** The locus fields of the query record are all set exactly when a
      `variantQuery` was submitted, and the start position only with them. */
  lemma LocusFieldsAllOrNone(grant: Grant, sub: Submission, backend: Call -> Option<seq<Record>>)
    ensures var r := HandlePost(grant, sub, backend);
      r.call.Some? ==>
        var q := r.call.value.query;
        && (q.referenceName.Some? <==> LocusRequested(sub.raw))
        && (q.referenceBases.Some? <==> LocusRequested(sub.raw))
        && (q.alternateBases.Some? <==> LocusRequested(sub.raw))
        && (q.start != [] ==> LocusRequested(sub.raw))
  {
  }

  /** Whatever the submission, the backend only ever hears of allowed
      datasets, and of at least one. */
  lemma OnlyAllowedDatasetsQueried(grant: Grant, sub: Submission, backend: Call -> Option<seq<Record>>)
    ensures var r := HandlePost(grant, sub, backend);
      r.call.Some? ==> r.call.value.datasets.Names() <= grant.allowed && r.call.value.datasets.Names() != {}
  {
    var r := HandlePost(grant, sub, backend);
    if r.call.Some? {
      var sel := r.call.value.datasets;
      if sel.Listed? {
        assert sel.names[0] in sel.Names();
      }
    }
  }
}
