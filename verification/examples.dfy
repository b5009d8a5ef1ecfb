/**
 Concrete requests worked through the model: the documented example locus,
 a malformed locus, lower-case input, the dataset filter on small lists, the
 full dispatch table and one end-to-end search.
 */
module Examples {
  import opened Wrappers
  import opened VariantLocus
  import opened QueryRecord
  import opened DatasetFilter
  import opened Dispatcher
  import opened PostHandler

  /** The pieces of `7:140453136 A>T` */
  function ExampleSplit(): Split {
    Split("7", "", "", "140453136", " ", "A", "", "", "T")
  }

  lemma ExampleWellFormed()
    ensures WellFormed(ExampleSplit())
    ensures Join(ExampleSplit()) == "7:140453136 A>T"
  {
    var sp := ExampleSplit();
    assert IsChromToken(sp.chrom);
    assert IsAltToken(sp.alt) by { assert IsBases(sp.alt); }
  }

  lemma ExamplePosition()
    ensures DigitsValue("140453136") == 140453136
  {
    assert DigitsValue("1") == 1 by { assert "1"[..0] == ""; }
    assert DigitsValue("14") == 14 by { assert "14"[..1] == "1"; }
    assert DigitsValue("140") == 140 by { assert "140"[..2] == "14"; }
    assert DigitsValue("1404") == 1404 by { assert "1404"[..3] == "140"; }
    assert DigitsValue("14045") == 14045 by { assert "14045"[..4] == "1404"; }
    assert DigitsValue("140453") == 140453 by { assert "140453"[..5] == "14045"; }
    assert DigitsValue("1404531") == 1404531 by { assert "1404531"[..6] == "140453"; }
    assert DigitsValue("14045313") == 14045313 by { assert "14045313"[..7] == "1404531"; }
    assert DigitsValue("140453136") == 140453136 by { assert "140453136"[..8] == "14045313"; }
  }

  lemma ExampleLocus()
    ensures ParseLocus("7:140453136 A>T") == Some(Locus("7", 140453136, "A", "T"))
  {
    ExampleWellFormed();
    ExamplePosition();
    assert Upper("A") == "A" && Upper("T") == "T";
    assert Captured(ExampleSplit()) == Locus("7", 140453136, "A", "T");
    ParseCaptures(ExampleSplit());
  }

  /** The pieces of `x : 0012  a > del:me` */
  function LowerCaseSplit(): Split {
    Split("x", " ", " ", "0012", "  ", "a", " ", " ", "del:me")
  }

  lemma LowerCaseJoin()
    ensures Join(LowerCaseSplit()) == "x : 0012  a > del:me"
  {
  }

  lemma LowerCaseWellFormed()
    ensures WellFormed(LowerCaseSplit())
  {
    var sp := LowerCaseSplit();
    assert IsChromToken(sp.chrom) by { assert Upper("x") == "X"; }
    assert IsBases(sp.ref) by { assert UpperChar('a') == 'A'; }
    assert IsAltToken(sp.alt) by { assert Upper("del:me") == "DEL:ME"; }
    assert IsSpaces(sp.ws3);
  }

  lemma LowerCaseCaptured()
    requires WellFormed(LowerCaseSplit())
    ensures Captured(LowerCaseSplit()) == Locus("x", 12, "A", "DEL:ME")
  {
    assert DigitsValue("0") == 0 by { assert "0"[..0] == ""; }
    assert DigitsValue("00") == 0 by { assert "00"[..1] == "0"; }
    assert DigitsValue("001") == 1 by { assert "001"[..2] == "00"; }
    assert DigitsValue("0012") == 12 by { assert "0012"[..3] == "001"; }
    assert Upper("a") == "A";
    assert Upper("del:me") == "DEL:ME";
  }

  /** Chromosome kept as typed, alleles upper-cased, spaces around ':' and '>' */
  lemma ExampleLowerCase()
    ensures ParseLocus("x : 0012  a > del:me") == Some(Locus("x", 12, "A", "DEL:ME"))
  {
    LowerCaseWellFormed();
    LowerCaseJoin();
    LowerCaseCaptured();
    ParseCaptures(LowerCaseSplit());
  }

  lemma ExampleMalformed()
    ensures ParseLocus("chr7:abc>T") == None
  {
    assert Cut("chr7:abc>T", IsAlnum) == ("chr7", ":abc>T") by {
      assert "chr7:abc>T" == "chr7" + ":abc>T";
      CutConcat("chr7", ":abc>T", IsAlnum);
    }
    assert !IsChromToken("chr7") by {
      assert Upper("chr7")[0] == 'C';
    }
    assert Scan("chr7:abc>T") == None;
  }

  lemma ExampleDatasets()
    ensures SelectDatasets([], {"a", "b"}) == AllAllowed({"a", "b"})
    ensures SelectDatasets(["a", "z"], {"a", "b"}) == Listed(["a"])
    ensures SelectDatasets(["z"], {"a", "b"}).IsEmpty()
  {
    assert Authorized(["a", "z"], {"a", "b"}) == ["a"] by {
      assert ["a", "z"][1..] == ["z"];
      assert Authorized(["z"], {"a", "b"}) == [];
    }
  }

  /** Request order and duplicates are kept */
  lemma ExampleDatasetsOrder()
    ensures SelectDatasets(["b", "z", "a", "b"], {"a", "b"}) == Listed(["b", "a", "b"])
  {
    var allowed := {"a", "b"};
    var r := ["b", "z", "a", "b"];
    assert Authorized(r, allowed) == ["b"] + Authorized(["z", "a", "b"], allowed) by {
      assert r[1..] == ["z", "a", "b"];
    }
    assert Authorized(["z", "a", "b"], allowed) == Authorized(["a", "b"], allowed) by {
      assert ["z", "a", "b"][1..] == ["a", "b"];
    }
    assert Authorized(["a", "b"], allowed) == ["a", "b"] by {
      AuthorizedAllAllowed(["a", "b"], allowed);
    }
    assert Authorized(r, allowed) == ["b", "a", "b"];
  }

  lemma ExampleDispatchTable()
    ensures FetchResults(Some("variant"), Some("variant")) == Some(FetchVariantsByVariant)
    ensures FetchResults(Some("variant"), Some("sample")) == Some(FetchVariantsByBiosample)
    ensures FetchResults(Some("variant"), Some("individual")) == Some(FetchVariantsByIndividual)
    ensures FetchResults(Some("individual"), Some("variant")) == Some(FetchIndividualsByVariant)
    ensures FetchResults(Some("individual"), Some("sample")) == Some(FetchIndividualsByBiosample)
    ensures FetchResults(Some("individual"), Some("individual")) == Some(FetchIndividualsByIndividual)
    ensures FetchResults(Some("sample"), Some("variant")) == Some(FetchBiosamplesByVariant)
    ensures FetchResults(Some("sample"), Some("sample")) == Some(FetchBiosamplesByBiosample)
    ensures FetchResults(Some("sample"), Some("individual")) == Some(FetchBiosamplesByIndividual)
    ensures FetchResults(Some("biosample"), Some("variant")) == None
    ensures FetchResults(Some("variant"), None) == None
  {
  }

  function SearchRaw(): map<string, string> {
    map["variantQuery" := "7:140453136 A>T", "resultOption" := "variant", "targetInstance" := "individual"]
  }

  function SearchFields(): Fields {
    Fields("7:140453136 A>T", None, [], [], Some("individual"), None, Some("variant"))
  }

  lemma SearchLocus()
    ensures Valid(Accepted(SearchRaw(), SearchFields()))
    ensures QueryOf(SearchRaw(), SearchFields()) == MakeQuery(Some(Locus("7", 140453136, "A", "T")), None, [], None)
  {
    var raw := SearchRaw();
    var f := SearchFields();
    assert LocusRequested(raw) by {
      assert "variantQuery" in raw;
    }
    assert ParseLocus(f.variantQuery) == Some(Locus("7", 140453136, "A", "T")) by {
      ExampleLocus();
    }
    assert ReadLocus(raw, f.variantQuery) == Present(Locus("7", 140453136, "A", "T"));
    ParseMatches(f.variantQuery);
  }

  /** `7:140453136 A>T`, variants by individual, no datasets requested, one
      dataset allowed. */
  lemma ExampleSearch(backend: Call -> Option<seq<Record>>)
    ensures var r := HandlePost(Grant({"d1"}, true), Accepted(SearchRaw(), SearchFields()), backend);
      && r.call.Some?
      && r.call.value.op == FetchVariantsByIndividual
      && r.call.value.datasets == AllAllowed({"d1"})
      && r.call.value.query.referenceName == Some("7")
      && r.call.value.query.start == [140453136]
      && r.call.value.query.referenceBases == Some("A")
      && r.call.value.query.alternateBases == Some("T")
  {
    SearchLocus();
    ExampleDispatchTable();
  }
}
