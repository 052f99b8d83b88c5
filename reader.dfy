/** The reader of `dqrobotics_extensions/.../vfi_configuration_file_yaml.cpp`:
    `VFIConfigurationFileYaml` with `read_data`, `get_data`,
    `get_vfi_file_version` and `is_zero_indexed`. */
module Reader {
  import opened Outcomes
  import opened Records
  import opened Yaml

  /** `Impl::get_vector_list`: a sequence must convert item by item and be
      non-empty; any other defined node gives the empty list; the invalid node
      throws. */
  function GetVectorList(node: Node, keyName: string): (r: Outcome<seq<string>>)
    ensures node.Missing? ==> r.Throw? && r.ex.YamlException?
    ensures !node.Missing? && !node.Sequence? ==> r == Ok([])
    ensures node == Sequence([]) ==> r == Throw(RuntimeError(keyName + "is an empty list!"))
    ensures node.Sequence? && node.items != [] ==> r == AsStrings(node.items)
    ensures r.Throw? && r.ex.RuntimeError? ==> node == Sequence([])
  {
    match node
    case Missing => Throw(YamlException(INVALID_NODE))
    case Sequence(items) =>
      var entities :- AsStrings(items);
      if entities == [] then Throw(RuntimeError(keyName + "is an empty list!")) else Ok(entities)
    case _ => Ok([])
  }

  /** `parameter[key].as<std::string>()` */
  function StringAt(element: Node, key: string): (r: Outcome<string>)
    ensures r.Throw? ==> r.ex.YamlException?
  {
    var n :- Lookup(element, key);
    AsString(n)
  }

  /** `parameter[key].as<int>()` */
  function IntAt(element: Node, key: string): (r: Outcome<Int32>)
    ensures r.Throw? ==> r.ex.YamlException?
  {
    var n :- Lookup(element, key);
    AsInt(n)
  }

  /** `parameter[key].as<double>()` */
  function DoubleAt(element: Node, key: string): (r: Outcome<Double>)
    ensures r.Throw? ==> r.ex.YamlException?
  {
    var n :- Lookup(element, key);
    AsDouble(n)
  }

  /** `get_vector_list(parameter[key], key)` */
  function ListAt(element: Node, key: string): Outcome<seq<string>> {
    var n :- Lookup(element, key);
    GetVectorList(n, key)
  }

  /** One element of `vfi_array`: dispatch on `vfi_type`. A `vfi_type` that
      is missing or not a string throws a `YAML::Exception` (the element is
      skipped), an unknown one throws a `std::runtime_error`, and a parsed
      record is of the kind its `vfi_type` names, with that string as its
      `vfiType`. */
  function ParseElement(element: Node): (r: Outcome<RawData>)
    ensures StringAt(element, "vfi_type").Throw? ==> r == Throw(StringAt(element, "vfi_type").ex)
    ensures StringAt(element, "vfi_type").Ok? && StringAt(element, "vfi_type").value !in {ENVIRONMENT_TO_ROBOT, ROBOT_TO_ROBOT} ==>
              r == Throw(RuntimeError("Unknown VFI type: " + StringAt(element, "vfi_type").value))
    ensures r.Ok? ==> StringAt(element, "vfi_type") == Ok(r.value.vfiType)
    ensures r.Ok? ==> r.value.vfiType == VfiTypeName(GetVfiType(r.value))
  {
    var vfiType :- StringAt(element, "vfi_type");
    if vfiType == ENVIRONMENT_TO_ROBOT then
      ParseEnvironmentToRobot(element, vfiType)
    else if vfiType == ROBOT_TO_ROBOT then
      ParseRobotToRobot(element, vfiType)
    else
      Throw(RuntimeError("Unknown VFI type: " + vfiType))
  }

  /** The environment-to-robot branch: every field is read from the key of
      the same name, in the source's order, and the first read that throws
      decides the outcome. */
  function ParseEnvironmentToRobot(element: Node, vfiType: string): (r: Outcome<RawData>)
    ensures r.Ok? ==>
            && r.value.EnvironmentToRobotData?
            && r.value.vfiType == vfiType
            && ListAt(element, "cs_entity_environment") == Ok(r.value.csEntityEnvironment)
            && ListAt(element, "cs_entity_robot") == Ok(r.value.csEntityRobot)
            && StringAt(element, "entity_environment_primitive_type") == Ok(r.value.entityEnvironmentPrimitiveType)
            && StringAt(element, "entity_robot_primitive_type") == Ok(r.value.entityRobotPrimitiveType)
            && IntAt(element, "robot_index") == Ok(r.value.robotIndex)
            && IntAt(element, "joint_index") == Ok(r.value.jointIndex)
            && DoubleAt(element, "safe_distance") == Ok(r.value.safeDistance)
            && DoubleAt(element, "vfi_gain") == Ok(r.value.vfiGain)
            && StringAt(element, "direction") == Ok(r.value.direction)
            && StringAt(element, "tag") == Ok(r.value.tag)
    ensures ListAt(element, "cs_entity_environment").Throw? ==> r == Throw(ListAt(element, "cs_entity_environment").ex)
    ensures ListAt(element, "cs_entity_environment").Ok? && ListAt(element, "cs_entity_robot").Throw? ==>
              r == Throw(ListAt(element, "cs_entity_robot").ex)
  {
    var csEntityEnvironment :- ListAt(element, "cs_entity_environment");
    var csEntityRobot :- ListAt(element, "cs_entity_robot");
    var entityEnvironmentPrimitiveType :- StringAt(element, "entity_environment_primitive_type");
    var entityRobotPrimitiveType :- StringAt(element, "entity_robot_primitive_type");
    var robotIndex :- IntAt(element, "robot_index");
    var jointIndex :- IntAt(element, "joint_index");
    var safeDistance :- DoubleAt(element, "safe_distance");
    var vfiGain :- DoubleAt(element, "vfi_gain");
    var direction :- StringAt(element, "direction");
    var tag :- StringAt(element, "tag");
    Ok(EnvironmentToRobotData(vfiType, csEntityEnvironment, csEntityRobot,
                              entityEnvironmentPrimitiveType, entityRobotPrimitiveType,
                              robotIndex, jointIndex, safeDistance, vfiGain, direction, tag))
  }

  /** The robot-to-robot branch, read the same way. */
  function ParseRobotToRobot(element: Node, vfiType: string): (r: Outcome<RawData>)
    ensures r.Ok? ==>
            && r.value.RobotToRobotData?
            && r.value.vfiType == vfiType
            && ListAt(element, "cs_entity_one") == Ok(r.value.csEntityOne)
            && ListAt(element, "cs_entity_two") == Ok(r.value.csEntityTwo)
            && StringAt(element, "entity_one_primitive_type") == Ok(r.value.entityOnePrimitiveType)
            && StringAt(element, "entity_two_primitive_type") == Ok(r.value.entityTwoPrimitiveType)
            && IntAt(element, "robot_index_one") == Ok(r.value.robotIndexOne)
            && IntAt(element, "robot_index_two") == Ok(r.value.robotIndexTwo)
            && IntAt(element, "joint_index_one") == Ok(r.value.jointIndexOne)
            && IntAt(element, "joint_index_two") == Ok(r.value.jointIndexTwo)
            && DoubleAt(element, "safe_distance") == Ok(r.value.safeDistance)
            && DoubleAt(element, "vfi_gain") == Ok(r.value.vfiGain)
            && StringAt(element, "direction") == Ok(r.value.direction)
            && StringAt(element, "tag") == Ok(r.value.tag)
    ensures ListAt(element, "cs_entity_one").Throw? ==> r == Throw(ListAt(element, "cs_entity_one").ex)
    ensures ListAt(element, "cs_entity_one").Ok? && ListAt(element, "cs_entity_two").Throw? ==>
              r == Throw(ListAt(element, "cs_entity_two").ex)
  {
    var csEntityOne :- ListAt(element, "cs_entity_one");
    var csEntityTwo :- ListAt(element, "cs_entity_two");
    var entityOnePrimitiveType :- StringAt(element, "entity_one_primitive_type");
    var entityTwoPrimitiveType :- StringAt(element, "entity_two_primitive_type");
    var robotIndexOne :- IntAt(element, "robot_index_one");
    var robotIndexTwo :- IntAt(element, "robot_index_two");
    var jointIndexOne :- IntAt(element, "joint_index_one");
    var jointIndexTwo :- IntAt(element, "joint_index_two");
    var safeDistance :- DoubleAt(element, "safe_distance");
    var vfiGain :- DoubleAt(element, "vfi_gain");
    var direction :- StringAt(element, "direction");
    var tag :- StringAt(element, "tag");
    Ok(RobotToRobotData(vfiType, csEntityOne, csEntityTwo,
                        entityOnePrimitiveType, entityTwoPrimitiveType,
                        robotIndexOne, robotIndexTwo, jointIndexOne, jointIndexTwo,
                        safeDistance, vfiGain, direction, tag))
  }

  /** An element outcome that escapes the per-element `catch (const YAML::Exception&)`. */
  predicate IsFatal(o: Outcome<RawData>) {
    o.Throw? && o.ex.RuntimeError?
  }

  /** The outcome of every element, in file order. */
  function ParseAll(elements: seq<Node>): (outcomes: seq<Outcome<RawData>>)
    ensures |outcomes| == |elements|
    ensures forall i :: 0 <= i < |elements| ==> outcomes[i] == ParseElement(elements[i])
  {
    seq(|elements|, i requires 0 <= i < |elements| => ParseElement(elements[i]))
  }

  /** How far the loop over `vfi_array` got: still running with the records
      pushed so far, or stopped by an escaping exception. */
  datatype ScanState = Running(records: seq<RawData>) | Stopped(records: seq<RawData>, ex: Exception)

  /** The loop over `vfi_array`, given each element's outcome: a parsed
      element is pushed, a `YAML::Exception` skips it, a `std::runtime_error`
      stops the loop and keeps what was pushed. */
  function Scan(outcomes: seq<Outcome<RawData>>): ScanState
    decreases |outcomes|
  {
    if outcomes == [] then Running([])
    else
      match Scan(outcomes[..|outcomes| - 1])
      case Stopped(records, ex) => Stopped(records, ex)
      case Running(records) =>
        match outcomes[|outcomes| - 1]
        case Ok(data) => Running(records + [data])
        case Throw(ex) => if ex.YamlException? then Running(records) else Stopped(records, ex)
  }

  /** The records of the outcomes that succeeded, in file order. */
  function Survivors(outcomes: seq<Outcome<RawData>>): seq<RawData>
    decreases |outcomes|
  {
    if outcomes == [] then []
    else (if outcomes[0].Ok? then [outcomes[0].value] else []) + Survivors(outcomes[1..])
  }

  lemma {:induction false} SurvivorsAppend(outcomes: seq<Outcome<RawData>>, o: Outcome<RawData>)
    ensures Survivors(outcomes + [o]) == Survivors(outcomes) + (if o.Ok? then [o.value] else [])
    decreases |outcomes|
  {
    if outcomes != [] {
      assert (outcomes + [o])[1..] == outcomes[1..] + [o];
      SurvivorsAppend(outcomes[1..], o);
    }
  }

  lemma {:induction false} SurvivorsSplit(outcomes: seq<Outcome<RawData>>, i: nat)
    requires i <= |outcomes|
    ensures Survivors(outcomes) == Survivors(outcomes[..i]) + Survivors(outcomes[i..])
    decreases i
  {
    if i > 0 {
      SurvivorsSplit(outcomes[1..], i - 1);
      assert outcomes[1..][..i - 1] == outcomes[..i][1..];
      assert outcomes[1..][i - 1..] == outcomes[i..];
    }
  }

  /** A `YAML::Exception` inside an element skips that element and nothing
      else: every element that parses has its record in the result, right
      after the records of the elements before it. */
  lemma SurvivorsKeepFileOrder(outcomes: seq<Outcome<RawData>>, i: nat)
    requires i < |outcomes| && outcomes[i].Ok?
    ensures |Survivors(outcomes[..i])| < |Survivors(outcomes)|
    ensures Survivors(outcomes)[|Survivors(outcomes[..i])|] == outcomes[i].value
  {
    SurvivorsSplit(outcomes, i);
    assert outcomes[i..][0] == outcomes[i];
  }

  /** When no element throws a `std::runtime_error`, the loop runs to the end
      and keeps exactly the elements that parse. */
  lemma {:induction false} ScanCompletes(outcomes: seq<Outcome<RawData>>)
    requires forall i :: 0 <= i < |outcomes| ==> !IsFatal(outcomes[i])
    ensures Scan(outcomes) == Running(Survivors(outcomes))
    decreases |outcomes|
  {
    if outcomes != [] {
      var init := outcomes[..|outcomes| - 1];
      var last := outcomes[|outcomes| - 1];
      ScanCompletes(init);
      SurvivorsAppend(init, last);
      assert init + [last] == outcomes;
    }
  }

  /** One more step of the loop from a running state. */
  lemma ScanStep(outcomes: seq<Outcome<RawData>>, o: Outcome<RawData>, records: seq<RawData>)
    requires Scan(outcomes) == Running(records)
    ensures Scan(outcomes + [o]) == (if o.Ok? then Running(records + [o.value])
                                     else if o.ex.YamlException? then Running(records)
                                     else Stopped(records, o.ex))
  {
    assert (outcomes + [o])[..|outcomes|] == outcomes;
  }

  /** One step of the loop over a prefix of the outcomes: the prefix grows by
      the next outcome, and a `std::runtime_error` there decides the whole
      scan. */
  lemma ScanPrefixStep(outcomes: seq<Outcome<RawData>>, i: nat, records: seq<RawData>)
    requires i < |outcomes| && Scan(outcomes[..i]) == Running(records)
    ensures outcomes[i].Ok? ==> Scan(outcomes[..i + 1]) == Running(records + [outcomes[i].value])
    ensures outcomes[i].Throw? && outcomes[i].ex.YamlException? ==> Scan(outcomes[..i + 1]) == Running(records)
    ensures outcomes[i].Throw? && outcomes[i].ex.RuntimeError? ==> Scan(outcomes) == Stopped(records, outcomes[i].ex)
  {
    assert outcomes[..i + 1] == outcomes[..i] + [outcomes[i]];
    ScanStep(outcomes[..i], outcomes[i], records);
    if outcomes[i].Throw? && outcomes[i].ex.RuntimeError? {
      StoppedStays(outcomes, i + 1);
    }
  }

  lemma {:induction false} StoppedStays(outcomes: seq<Outcome<RawData>>, j: nat)
    requires j <= |outcomes| && Scan(outcomes[..j]).Stopped?
    ensures Scan(outcomes) == Scan(outcomes[..j])
    decreases |outcomes|
  {
    if j < |outcomes| {
      var init := outcomes[..|outcomes| - 1];
      assert init[..j] == outcomes[..j];
      StoppedStays(init, j);
    } else {
      assert outcomes[..j] == outcomes;
    }
  }

  /** The first element that throws a `std::runtime_error` (unknown
      `vfi_type`, empty entity list) aborts the loop; the records of the
      elements before it stay. */
  lemma ScanStopsAtFirstFatal(outcomes: seq<Outcome<RawData>>, k: nat)
    requires k < |outcomes| && IsFatal(outcomes[k])
    requires forall i :: 0 <= i < k ==> !IsFatal(outcomes[i])
    ensures Scan(outcomes) == Stopped(Survivors(outcomes[..k]), outcomes[k].ex)
  {
    var prefix := outcomes[..k + 1];
    assert prefix[..k] == outcomes[..k];
    ScanCompletes(outcomes[..k]);
    StoppedStays(outcomes, k + 1);
  }

  /** The outcome of `_extract_yaml_data`: the records pushed and the two
      metadata fields, and for an aborted read the exception that escaped. */
  datatype ReadOutcome =
    | Completed(records: seq<RawData>, version: Int32, zeroIndexed: bool)
    | Aborted(records: seq<RawData>, version: Int32, zeroIndexed: bool, ex: Exception)

  /** `if (config_["vfi_file_version"]) vfi_file_version_ = ...as<int>();` */
  function ReadVersion(root: Node, current: Int32): (r: Outcome<Int32>)
    ensures Lookup(root, "vfi_file_version") == Ok(Missing) ==> r == Ok(current)
  {
    var n :- Lookup(root, "vfi_file_version");
    if IsDefined(n) then AsInt(n) else Ok(current)
  }

  /** `if (config_["zero_indexed"]) zero_indexed_ = ...as<bool>();` */
  function ReadZeroIndexed(root: Node, current: bool): (r: Outcome<bool>)
    ensures Lookup(root, "zero_indexed") == Ok(Missing) ==> r == Ok(current)
  {
    var n :- Lookup(root, "zero_indexed");
    if IsDefined(n) then AsBool(n) else Ok(current)
  }

  /** `_extract_yaml_data`, from the fields' current metadata values. The
      record list always starts empty. */
  function ExtractYamlData(doc: Document, version: Int32, zeroIndexed: bool): ReadOutcome {
    match doc
    case BadFile(msg) => Aborted([], version, zeroIndexed, RuntimeError(msg))
    case ParserError(msg) => Aborted([], version, zeroIndexed, RuntimeError(msg))
    case Loaded(root) =>
      match ReadVersion(root, version)
      case Throw(ex) => Aborted([], version, zeroIndexed, ex)
      case Ok(v) =>
        match ReadZeroIndexed(root, zeroIndexed)
        case Throw(ex) => Aborted([], v, zeroIndexed, ex)
        case Ok(z) =>
          match Lookup(root, "vfi_array")
          case Throw(ex) => Aborted([], v, z, ex)
          case Ok(arrayNode) =>
            match Scan(ParseAll(Elements(arrayNode)))
            case Running(records) => Completed(records, v, z)
            case Stopped(records, ex) => Aborted(records, v, z, ex)
  }

  /** A file that cannot be opened or parsed aborts the read with a
      `std::runtime_error`, no records and the metadata untouched. */
  lemma FileFailureAborts(doc: Document, version: Int32, zeroIndexed: bool)
    requires !doc.Loaded?
    ensures ExtractYamlData(doc, version, zeroIndexed) == Aborted([], version, zeroIndexed, RuntimeError(doc.msg))
  {
  }

  /** An absent `vfi_file_version` or `zero_indexed` keeps the value the field
      already had (2 and true before the first read) instead of resetting it. */
  lemma AbsentMetadataKept(doc: Document, version: Int32, zeroIndexed: bool)
    requires doc.Loaded? && doc.root.Mapping?
    requires Find(doc.root.entries, "vfi_file_version") == Missing
    requires Find(doc.root.entries, "zero_indexed") == Missing
    ensures ExtractYamlData(doc, version, zeroIndexed).version == version
    ensures ExtractYamlData(doc, version, zeroIndexed).zeroIndexed == zeroIndexed
  {
  }

  /** When the metadata convert and no element throws a
      `std::runtime_error`, the read completes and holds the records of the
      elements that parse, in file order. */
  lemma CompletedReadKeepsSurvivors(root: Node, version: Int32, zeroIndexed: bool)
    requires ReadVersion(root, version).Ok? && ReadZeroIndexed(root, zeroIndexed).Ok?
    requires forall e :: e in Elements(Lookup(root, "vfi_array").value) ==> !IsFatal(ParseElement(e))
    ensures ExtractYamlData(Loaded(root), version, zeroIndexed)
         == Completed(Survivors(ParseAll(Elements(Lookup(root, "vfi_array").value))),
                      ReadVersion(root, version).value, ReadZeroIndexed(root, zeroIndexed).value)
  {
    assert !root.Missing? && !root.Scalar?;
    var outcomes := ParseAll(Elements(Lookup(root, "vfi_array").value));
    ScanCompletes(outcomes);
  }

  /** `VFIConfigurationFileYaml` and its `Impl`: the last file read, the two
      metadata fields and the records of the last read. */
  class VfiConfigurationFileYaml {
    var configFile: string
    var vfiFileVersion: Int32
    var zeroIndexed: bool
    var rawData: seq<RawData>

    /** The constructor parses nothing; the metadata start at their defaults. */
    constructor ()
      ensures configFile == "" && vfiFileVersion == 2 && zeroIndexed && rawData == []
    {
      configFile := "";
      vfiFileVersion := 2;
      zeroIndexed := true;
      rawData := [];
    }

    /** `read_data`: remember the path and run `_extract_yaml_data` on the
        document found there. */
    method ReadData(configFile: string, doc: Document) returns (r: Outcome<()>)
      modifies this
      ensures this.configFile == configFile
      ensures var o := ExtractYamlData(doc, old(vfiFileVersion), old(zeroIndexed));
              && rawData == o.records
              && vfiFileVersion == o.version
              && zeroIndexed == o.zeroIndexed
              && r == (if o.Completed? then Ok(()) else Throw(o.ex))
    {
      this.configFile := configFile;
      rawData := [];
      if !doc.Loaded? {
        return Throw(RuntimeError(doc.msg));
      }
      var root := doc.root;
      var versionNode := Lookup(root, "vfi_file_version");
      if versionNode.Throw? {
        return Throw(versionNode.ex);
      }
      if IsDefined(versionNode.value) {
        var version := AsInt(versionNode.value);
        if version.Throw? {
          return Throw(version.ex);
        }
        vfiFileVersion := version.value;
      }
      // The root took a subscript once, so it takes the next two as well.
      var zeroIndexedNode := Lookup(root, "zero_indexed").value;
      if IsDefined(zeroIndexedNode) {
        var flag := AsBool(zeroIndexedNode);
        if flag.Throw? {
          return Throw(flag.ex);
        }
        zeroIndexed := flag.value;
      }
      var vfiArray := Lookup(root, "vfi_array").value;
      r := PushElements(Elements(vfiArray));
    }

    /** The loop of `_extract_yaml_data` over the elements of `vfi_array`:
        push each parsed record, skip an element whose parse raised a
        `YAML::Exception`, and stop at the first `std::runtime_error`. */
    method PushElements(elements: seq<Node>) returns (r: Outcome<()>)
      requires rawData == []
      modifies this
      ensures configFile == old(configFile)
      ensures vfiFileVersion == old(vfiFileVersion) && zeroIndexed == old(zeroIndexed)
      ensures var s := Scan(ParseAll(elements));
              && rawData == s.records
              && r == (if s.Running? then Ok(()) else Throw(s.ex))
    {
      ghost var outcomes := ParseAll(elements);
      var i := 0;
      while i < |elements|
        invariant 0 <= i <= |elements|
        invariant Scan(outcomes[..i]) == Running(rawData)
        invariant configFile == old(configFile)
        invariant vfiFileVersion == old(vfiFileVersion) && zeroIndexed == old(zeroIndexed)
      {
        var parsed := ParseElement(elements[i]);
        ScanPrefixStep(outcomes, i, rawData);
        if parsed.Ok? {
          rawData := rawData + [parsed.value];
        } else if parsed.ex.RuntimeError? {
          r := Throw(parsed.ex);
          return;
        }
        i := i + 1;
      }
      assert outcomes[..i] == outcomes;
      r := Ok(());
    }

    /** `get_data`: a copy of the records, or a `std::runtime_error` when
        there are none. */
    method GetData() returns (r: Outcome<seq<RawData>>)
      ensures rawData == [] ==> r == Throw(RuntimeError("The vector data is empty!"))
      ensures rawData != [] ==> r == Ok(rawData)
    {
      if rawData == [] {
        return Throw(RuntimeError("The vector data is empty!"));
      }
      return Ok(rawData);
    }

    /** `get_vfi_file_version` */
    function GetVfiFileVersion(): Int32
      reads this
    {
      vfiFileVersion
    }

    /** `is_zero_indexed` */
    function IsZeroIndexed(): bool
      reads this
    {
      zeroIndexed
    }
  }
}
