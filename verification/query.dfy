/**
 The backend query record the POST handler assembles from the parsed locus and
 the validated pass-through fields (the `parameters` dictionary). Everything
 that is not derived from the locus or passed through is a fixed default.
 */
module QueryRecord {
  import opened Wrappers
  import opened VariantLocus

  datatype Query = Query(
    variantType: Option<string>,
    start: seq<nat>,
    end: seq<nat>,
    referenceName: Option<string>,
    referenceBases: Option<string>,
    alternateBases: Option<string>,
    assemblyId: Option<string>,
    filters: seq<string>,
    skip: nat,
    limit: nat,
    requestedSchema: seq<Option<string>>,
    requestedAnnotationSchema: seq<Option<string>>,
    targetIdReq: Option<string>,
    includeDatasetResponses: Option<string>)

  /** Page size of the HTML search: results are never paginated here */
  const PageLimit: nat := 10

  /** The fixed part of the record: no variant-type filter, no end position,
      first page of ten, one unset schema in each schema list, and no
      per-dataset responses requested. */
  predicate HasFixedDefaults(q: Query) {
    && q.variantType == None
    && q.end == []
    && q.skip == 0
    && q.limit == PageLimit
    && q.requestedSchema == [None]
    && q.requestedAnnotationSchema == [None]
    && q.includeDatasetResponses == None
  }

  /** Builds the record. `start` holds the position only when there is a locus
      and its position is non-zero: the source tests the position's truth
      value, so position 0 gives an empty `start` like an absent locus. */
  function MakeQuery(locus: Option<Locus>, assemblyId: Option<string>, filters: seq<string>,
                     targetId: Option<string>): (q: Query)
    ensures HasFixedDefaults(q)
    ensures q.assemblyId == assemblyId && q.filters == filters && q.targetIdReq == targetId
    ensures q.referenceName.Some? == q.referenceBases.Some? == q.alternateBases.Some? == locus.Some?
    ensures |q.start| <= 1
    ensures |q.start| == 1 <==> locus.Some? && locus.value.position != 0
    ensures locus.Some? ==>
      && q.referenceName == Some(locus.value.chromosome)
      && q.referenceBases == Some(locus.value.reference)
      && q.alternateBases == Some(locus.value.alternate)
      && (q.start == [] || q.start[0] == locus.value.position)
  {
    var position := if locus.Some? then locus.value.position else 0;
    Query(
      variantType := None,
      start := if position != 0 then [position] else [],
      end := [],
      referenceName := if locus.Some? then Some(locus.value.chromosome) else None,
      referenceBases := if locus.Some? then Some(locus.value.reference) else None,
      alternateBases := if locus.Some? then Some(locus.value.alternate) else None,
      assemblyId := assemblyId,
      filters := filters,
      skip := 0,
      limit := PageLimit,
      requestedSchema := [None],
      requestedAnnotationSchema := [None],
      targetIdReq := targetId,
      includeDatasetResponses := None)
  }

  /** The locus a backend can read off a query record: all three allele fields
      set, with the one start position, or position 0 when `start` is empty. */
  function LocusOfQuery(q: Query): Option<Locus> {
    if q.referenceName.Some? && q.referenceBases.Some? && q.alternateBases.Some? && |q.start| <= 1
    then
      var position := if q.start == [] then 0 else q.start[0];
      Some(Locus(q.referenceName.value, position, q.referenceBases.value, q.alternateBases.value))
    else None
  }

  /** The record carries the locus through intact. A locus at position 0
      (such as `7:0 A>T`) reaches the backend with the allele fields set and
      no `start` filter, which still reads back as position 0. */
  lemma QueryKeepsLocus(locus: Option<Locus>, assemblyId: Option<string>, filters: seq<string>,
                        targetId: Option<string>)
    ensures LocusOfQuery(MakeQuery(locus, assemblyId, filters, targetId)) == locus
  {
  }

  /** Two records built from the same pass-through fields are equal exactly
      when their loci are. */
  lemma MakeQueryInjective(l1: Option<Locus>, l2: Option<Locus>, assemblyId: Option<string>,
                           filters: seq<string>, targetId: Option<string>)
    ensures MakeQuery(l1, assemblyId, filters, targetId) == MakeQuery(l2, assemblyId, filters, targetId)
        <==> l1 == l2
  {
    QueryKeepsLocus(l1, assemblyId, filters, targetId);
    QueryKeepsLocus(l2, assemblyId, filters, targetId);
  }

  /** For a matching `variantQuery`, the record's allele fields are the
      captured groups: the chromosome exactly as typed and the two alleles
      upper-cased. */
  lemma QueryOfMatch(sp: Split, assemblyId: Option<string>, filters: seq<string>,
                     targetId: Option<string>)
    requires WellFormed(sp)
    ensures var q := MakeQuery(ParseLocus(Join(sp)), assemblyId, filters, targetId);
      && q.referenceName == Some(sp.chrom)
      && q.referenceBases == Some(Upper(sp.ref))
      && q.alternateBases == Some(Upper(sp.alt))
      && q.start == (if DigitsValue(sp.digits) == 0 then [] else [DigitsValue(sp.digits)])
  {
    ParseCaptures(sp);
  }
}
