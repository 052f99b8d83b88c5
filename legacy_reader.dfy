/** The legacy reader of `src/vfi_configuration_file_yaml.cpp`, the one the
    editor calls: its constructor takes the path and parses at once, and it
    has no metadata fields. */
module LegacyReader {
  import opened Outcomes
  import opened Records
  import opened Yaml
  import opened Reader
  import Utils

  /** The legacy `_extract_yaml_data`: it subscripts the root for
      `vfi_file_version`, `zero_indexed` and `vfi_array` but converts only the
      array, with the same per-element parsing as the newer reader. */
  function LegacyExtract(doc: Document): ScanState {
    match doc
    case BadFile(msg) => Stopped([], RuntimeError(msg))
    case ParserError(msg) => Stopped([], RuntimeError(msg))
    case Loaded(root) =>
      match Lookup(root, "vfi_file_version")
      case Throw(ex) => Stopped([], ex)
      case Ok(_) => Scan(ParseAll(Elements(Lookup(root, "vfi_array").value)))
  }

  /** Whenever the newer reader completes a read, the legacy reader completes
      on the same document with the same records. */
  lemma LegacyAgreesWithReader(doc: Document, version: Int32, zeroIndexed: bool)
    requires ExtractYamlData(doc, version, zeroIndexed).Completed?
    ensures LegacyExtract(doc) == Running(ExtractYamlData(doc, version, zeroIndexed).records)
  {
  }

  /** The legacy reader never converts the metadata: a `vfi_file_version`
      that is not a number aborts the newer reader but not this one. */
  lemma LegacyIgnoresMetadata()
    ensures var doc := Loaded(Mapping([("vfi_file_version", Scalar("two"))]));
            && ExtractYamlData(doc, 2, true).Aborted?
            && LegacyExtract(doc) == Running([])
  {
    var root := Mapping([("vfi_file_version", Scalar("two"))]);
    assert Lookup(root, "vfi_file_version") == Ok(Scalar("two"));
    assert Decimal.ParseInteger("two").None? by {
      assert !Decimal.IsDigit('t');
    }
    assert Lookup(root, "vfi_array") == Ok(Missing);
  }

  /** `Impl::join_vector`: its loop is the same text as `join_vector` in
      `utils.cpp`, so it is modelled by the same method. */
  method JoinVector(vec: seq<string>, delimiter: string) returns (result: string)
    ensures result == Utils.Join(vec, delimiter)
    ensures vec == [] ==> result == ""
    ensures |vec| == 1 ==> result == vec[0]
  {
    result := Utils.JoinVector(vec, delimiter);
  }

  /** `VFIConfigurationFileYaml` of the legacy header: the path and the
      records parsed from it. */
  class LegacyVfiConfigurationFileYaml {
    var configFile: string
    var rawData: seq<RawData>

    /** The first half of the C++ constructor: `impl_` is created with the
        path and `raw_data_` is empty. */
    constructor Init(configFile: string)
      ensures this.configFile == configFile && rawData == []
    {
      this.configFile := configFile;
      rawData := [];
    }

    /** `_extract_yaml_data`: pushes every parsed element onto `raw_data_`
        (which it does not clear), skips elements that throw a
        `YAML::Exception`, and lets any other exception escape. */
    method ExtractYamlData(doc: Document) returns (r: Outcome<()>)
      modifies this
      ensures configFile == old(configFile)
      ensures rawData == old(rawData) + LegacyExtract(doc).records
      ensures r == if LegacyExtract(doc).Running? then Ok(()) else Throw(LegacyExtract(doc).ex)
    {
      if !doc.Loaded? {
        return Throw(RuntimeError(doc.msg));
      }
      var root := doc.root;
      var versionNode := Lookup(root, "vfi_file_version");
      if versionNode.Throw? {
        return Throw(versionNode.ex);
      }
      var vfiArray := Lookup(root, "vfi_array").value;
      r := PushElements(Elements(vfiArray));
    }

    /** The loop over the elements of `vfi_array`: append each parsed
        record, skip an element whose parse raised a `YAML::Exception`, and
        stop at the first `std::runtime_error`. */
    method PushElements(elements: seq<Node>) returns (r: Outcome<()>)
      modifies this
      ensures configFile == old(configFile)
      ensures var s := Scan(ParseAll(elements));
              && rawData == old(rawData) + s.records
              && r == (if s.Running? then Ok(()) else Throw(s.ex))
    {
      ghost var outcomes := ParseAll(elements);
      var i := 0;
      while i < |elements|
        invariant 0 <= i <= |elements|
        invariant Scan(outcomes[..i]).Running?
        invariant rawData == old(rawData) + Scan(outcomes[..i]).records
        invariant configFile == old(configFile)
      {
        var parsed := ParseElement(elements[i]);
        ScanPrefixStep(outcomes, i, Scan(outcomes[..i]).records);
        if parsed.Ok? {
          rawData := rawData + [parsed.value];
        } else if parsed.ex.RuntimeError? {
          r := Throw(parsed.ex);
          return;
        }
        i := i + 1;
      }
      assert outcomes[..i] == outcomes;
      r := Ok(());
    }

    /** The C++ constructor `VFIConfigurationFileYaml(config_file)`: allocate,
        then parse; when parsing throws, the exception leaves no object. */
    static method New(configFile: string, doc: Document) returns (r: Outcome<LegacyVfiConfigurationFileYaml>)
      ensures r.Ok? <==> LegacyExtract(doc).Running?
      ensures r.Ok? ==>
                && fresh(r.value)
                && r.value.configFile == configFile
                && r.value.rawData == LegacyExtract(doc).records
      ensures r.Throw? ==> r.ex == LegacyExtract(doc).ex
    {
      var reader := new LegacyVfiConfigurationFileYaml.Init(configFile);
      var status := reader.ExtractYamlData(doc);
      if status.Throw? {
        return Throw(status.ex);
      }
      return Ok(reader);
    }

    /** `get_raw_data` */
    function GetRawData(): seq<RawData>
      reads this
    {
      rawData
    }
  }
}
