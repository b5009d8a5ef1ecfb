/**
 The result/target dispatch matrix (`_fetch_results`): the pair
 (resultOption, targetInstance) selects one of nine backend fetch operations.
 The words are compared exactly; a pair with either word outside
 `variant`, `individual`, `sample` (or missing) selects nothing, and the
 handler then answers with an empty page.
 */
module Dispatcher {
  import opened Wrappers

  /** The three entity kinds of both axes; the form calls biosamples `sample` */
  datatype Entity = Variant | Individual | Sample

  /** The nine backend operations, named after the database functions */
  datatype Op =
    | FetchVariantsByVariant | FetchVariantsByBiosample | FetchVariantsByIndividual
    | FetchIndividualsByVariant | FetchIndividualsByBiosample | FetchIndividualsByIndividual
    | FetchBiosamplesByVariant | FetchBiosamplesByBiosample | FetchBiosamplesByIndividual

  /** The form word for an entity */
  function AxisWord(e: Entity): string {
    match e
    case Variant => "variant"
    case Individual => "individual"
    case Sample => "sample"
  }

  /** The selection of lines 20-46: the same nested comparisons on the two words */
  function FetchResults(resultOption: Option<string>, targetInstance: Option<string>): (r: Option<Op>)
    ensures r.Some? <==>
      && resultOption in {Some("variant"), Some("individual"), Some("sample")}
      && targetInstance in {Some("variant"), Some("individual"), Some("sample")}
    ensures r.Some? ==>
      && resultOption == Some(AxisWord(ResultOf(r.value)))
      && targetInstance == Some(AxisWord(TargetOf(r.value)))
  {
    if resultOption == Some("variant") then
      if targetInstance == Some("variant") then Some(FetchVariantsByVariant)
      else if targetInstance == Some("sample") then Some(FetchVariantsByBiosample)
      else if targetInstance == Some("individual") then Some(FetchVariantsByIndividual)
      else None
    else if resultOption == Some("individual") then
      if targetInstance == Some("variant") then Some(FetchIndividualsByVariant)
      else if targetInstance == Some("sample") then Some(FetchIndividualsByBiosample)
      else if targetInstance == Some("individual") then Some(FetchIndividualsByIndividual)
      else None
    else if resultOption == Some("sample") then
      if targetInstance == Some("variant") then Some(FetchBiosamplesByVariant)
      else if targetInstance == Some("sample") then Some(FetchBiosamplesByBiosample)
      else if targetInstance == Some("individual") then Some(FetchBiosamplesByIndividual)
      else None
    else None
  }

  /** What an operation returns */
  function ResultOf(op: Op): Entity {
    match op
    case FetchVariantsByVariant | FetchVariantsByBiosample | FetchVariantsByIndividual => Variant
    case FetchIndividualsByVariant | FetchIndividualsByBiosample | FetchIndividualsByIndividual => Individual
    case FetchBiosamplesByVariant | FetchBiosamplesByBiosample | FetchBiosamplesByIndividual => Sample
  }

  /** What an operation filters on */
  function TargetOf(op: Op): Entity {
    match op
    case FetchVariantsByVariant | FetchIndividualsByVariant | FetchBiosamplesByVariant => Variant
    case FetchVariantsByBiosample | FetchIndividualsByBiosample | FetchBiosamplesByBiosample => Sample
    case FetchVariantsByIndividual | FetchIndividualsByIndividual | FetchBiosamplesByIndividual => Individual
  }

  /** The database function an operation calls */
  function OpName(op: Op): string {
    match op
    case FetchVariantsByVariant => "fetch_variants_by_variant"
    case FetchVariantsByBiosample => "fetch_variants_by_biosample"
    case FetchVariantsByIndividual => "fetch_variants_by_individual"
    case FetchIndividualsByVariant => "fetch_individuals_by_variant"
    case FetchIndividualsByBiosample => "fetch_individuals_by_biosample"
    case FetchIndividualsByIndividual => "fetch_individuals_by_individual"
    case FetchBiosamplesByVariant => "fetch_biosamples_by_variant"
    case FetchBiosamplesByBiosample => "fetch_biosamples_by_biosample"
    case FetchBiosamplesByIndividual => "fetch_biosamples_by_individual"
  }

  /** The database's word for an entity: samples are biosamples */
  function DbWord(e: Entity): string {
    match e
    case Variant => "variant"
    case Individual => "individual"
    case Sample => "biosample"
  }

  /** Every operation is reached from exactly the pair of words naming its
      result and target kinds. */
  lemma FetchResultsInverse(op: Op, resultOption: Option<string>, targetInstance: Option<string>)
    ensures FetchResults(resultOption, targetInstance) == Some(op)
        <==> resultOption == Some(AxisWord(ResultOf(op))) && targetInstance == Some(AxisWord(TargetOf(op)))
  {
  }

  /** The naming rule of the database functions */
  function PatternName(result: Entity, target: Entity): string {
    "fetch_" + DbWord(result) + "s_by_" + DbWord(target)
  }

  lemma VariantsPatternNames()
    ensures PatternName(Variant, Variant) == "fetch_variants_by_variant"
    ensures PatternName(Variant, Sample) == "fetch_variants_by_biosample"
    ensures PatternName(Variant, Individual) == "fetch_variants_by_individual"
  {
  }

  lemma IndividualsPatternNames()
    ensures PatternName(Individual, Variant) == "fetch_individuals_by_variant"
    ensures PatternName(Individual, Sample) == "fetch_individuals_by_biosample"
    ensures PatternName(Individual, Individual) == "fetch_individuals_by_individual"
  {
  }

  lemma BiosamplesPatternNames()
    ensures PatternName(Sample, Variant) == "fetch_biosamples_by_variant"
    ensures PatternName(Sample, Sample) == "fetch_biosamples_by_biosample"
    ensures PatternName(Sample, Individual) == "fetch_biosamples_by_individual"
  {
  }

  /** Each operation's database name is `fetch_<result>s_by_<target>`. */
  lemma OpNamePattern(op: Op)
    ensures OpName(op) == PatternName(ResultOf(op), TargetOf(op))
  {
    match ResultOf(op)
    case Variant => VariantsPatternNames();
    case Individual => IndividualsPatternNames();
    case Sample => BiosamplesPatternNames();
  }

  /** The nine operations are nine distinct database functions. */
  lemma OpNameInjective(a: Op, b: Op)
    ensures OpName(a) == OpName(b) <==> a == b
  {
  }
}
