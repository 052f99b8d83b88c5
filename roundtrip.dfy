/** Reading back what `save_data` writes. The text of a block is taken to
    denote the YAML node `RecordNode` builds: each key maps to a scalar
    holding the field's text (between the quotes for a string) or to a
    sequence of such scalars for an entity list. */
module RoundTrip {
  import opened Outcomes
  import opened Records
  import opened Yaml
  import opened Reader
  import opened LegacyReader
  import opened Writer
  import opened TagOrder
  import Decimal
  import Utils
  import Editor

  /** The node a written value denotes. */
  function ValueNode(v: FieldValue): Node {
    match v
    case Text(s) => Scalar(s)
    case List(items) => Sequence(seq(|items|, i requires 0 <= i < |items| => Scalar(items[i])))
    case Number(literal) => Scalar(literal)
  }

  /** The mapping a record's block denotes, keys in the order written. */
  function RecordNode(r: RawData, render: Double -> string): Node {
    var fields := Fields(r, render);
    Mapping(seq(|fields|, i requires 0 <= i < |fields| => (fields[i].0, ValueNode(fields[i].1))))
  }

  /** The document a saved file denotes. */
  function DocumentNode(version: Int32, zeroIndexed: bool, records: seq<RawData>, render: Double -> string): Node {
    Mapping([("vfi_file_version", Scalar(Decimal.IntToString(version))),
             ("zero_indexed", Scalar(Utils.Bool2String(zeroIndexed))),
             ("vfi_array", Sequence(seq(|records|, i requires 0 <= i < |records| => RecordNode(records[i], render))))])
  }

  /** Text the writer can put between double quotes unchanged: no quote,
      no backslash and no line break, none of which it escapes. */
  predicate PlainText(s: string) {
    forall i :: 0 <= i < |s| ==> s[i] != '"' && s[i] != '\\' && s[i] != '\n' && s[i] != '\r'
  }

  predicate PlainItems(items: seq<string>) {
    forall i :: 0 <= i < |items| ==> PlainText(items[i])
  }

  /** Every string a record writes, its list items included, is plain text. */
  predicate PlainStrings(r: RawData) {
    && PlainText(r.vfiType) && PlainText(r.direction) && PlainText(r.tag)
    && (r.EnvironmentToRobotData? ==>
          && PlainItems(r.csEntityEnvironment) && PlainItems(r.csEntityRobot)
          && PlainText(r.entityEnvironmentPrimitiveType) && PlainText(r.entityRobotPrimitiveType))
    && (r.RobotToRobotData? ==>
          && PlainItems(r.csEntityOne) && PlainItems(r.csEntityTwo)
          && PlainText(r.entityOnePrimitiveType) && PlainText(r.entityTwoPrimitiveType))
  }

  /** A record the reader accepts back: its `vfi_type` names its kind, its
      strings are plain text, its entity lists are not empty, and its two
      doubles print as text that reads back as the same value. */
  predicate Writable(r: RawData, render: Double -> string) {
    && r.vfiType == VfiTypeName(GetVfiType(r))
    && PlainStrings(r)
    && (r.EnvironmentToRobotData? ==> r.csEntityEnvironment != [] && r.csEntityRobot != [])
    && (r.RobotToRobotData? ==> r.csEntityOne != [] && r.csEntityTwo != [])
    && AsDouble(Scalar(render(r.safeDistance))) == Ok(r.safeDistance)
    && AsDouble(Scalar(GainLiteral(r.vfiGain, render))) == Ok(r.vfiGain)
  }

  /** Records the round trip covers exist: a robot-to-robot record with a
      gain and a safe distance of 0.5, printed as `0.5`, is writable. */
  lemma WritableExample()
    ensures Writable(RobotToRobotData(ROBOT_TO_ROBOT, ["a"], ["b"], "POINT", "POINT", 0, 1, 2, 3,
                                      0.5, 0.5, "FORBIDDEN_ZONE", "C1"), d => "0.5")
  {
    var render: Double -> string := d => "0.5";
    assert !IsIntegral(0.5) by {
      assert TruncateToInt(0.5) == 0;
    }
    assert Decimal.IndexOf("0.5", '.') == 1 by {
      assert "0.5"[0] != '.' && "0.5"[1] == '.';
    }
    assert "0.5"[..1] == "0" && "0.5"[2..] == "5";
    assert Decimal.DigitsValue("0") == 0 && Decimal.DigitsValue("5") == 5 by {
      assert "0"[..0] == [] && "5"[..0] == [];
    }
    assert Decimal.ParseReal("0.5") == Some(0.5);
    assert PlainStrings(RobotToRobotData(ROBOT_TO_ROBOT, ["a"], ["b"], "POINT", "POINT", 0, 1, 2, 3,
                                         0.5, 0.5, "FORBIDDEN_ZONE", "C1")) by {
      PlainExample();
    }
  }

  lemma PlainExample()
    ensures PlainStrings(RobotToRobotData(ROBOT_TO_ROBOT, ["a"], ["b"], "POINT", "POINT", 0, 1, 2, 3,
                                          0.5, 0.5, "FORBIDDEN_ZONE", "C1"))
  {
    assert PlainText(ROBOT_TO_ROBOT) && PlainText("FORBIDDEN_ZONE") && PlainText("C1") && PlainText("POINT");
    assert PlainItems(["a"]) && PlainItems(["b"]);
  }

  /** An element whose keys all hold the fields of `r` parses as `r`. */
  lemma ParseElementOfFields(element: Node, r: RawData)
    requires StringAt(element, "vfi_type") == Ok(r.vfiType)
    requires r.vfiType == VfiTypeName(GetVfiType(r))
    requires r.EnvironmentToRobotData? ==>
               && ListAt(element, "cs_entity_environment") == Ok(r.csEntityEnvironment)
               && ListAt(element, "cs_entity_robot") == Ok(r.csEntityRobot)
               && StringAt(element, "entity_environment_primitive_type") == Ok(r.entityEnvironmentPrimitiveType)
               && StringAt(element, "entity_robot_primitive_type") == Ok(r.entityRobotPrimitiveType)
               && IntAt(element, "robot_index") == Ok(r.robotIndex)
               && IntAt(element, "joint_index") == Ok(r.jointIndex)
    requires r.RobotToRobotData? ==>
               && ListAt(element, "cs_entity_one") == Ok(r.csEntityOne)
               && ListAt(element, "cs_entity_two") == Ok(r.csEntityTwo)
               && StringAt(element, "entity_one_primitive_type") == Ok(r.entityOnePrimitiveType)
               && StringAt(element, "entity_two_primitive_type") == Ok(r.entityTwoPrimitiveType)
               && IntAt(element, "robot_index_one") == Ok(r.robotIndexOne)
               && IntAt(element, "robot_index_two") == Ok(r.robotIndexTwo)
               && IntAt(element, "joint_index_one") == Ok(r.jointIndexOne)
               && IntAt(element, "joint_index_two") == Ok(r.jointIndexTwo)
    requires DoubleAt(element, "safe_distance") == Ok(r.safeDistance)
    requires DoubleAt(element, "vfi_gain") == Ok(r.vfiGain)
    requires StringAt(element, "direction") == Ok(r.direction)
    requires StringAt(element, "tag") == Ok(r.tag)
    ensures ParseElement(element) == Ok(r)
  {
  }

  /** Looking a key up in a list of entries finds its first occurrence. */
  lemma {:induction false} FindFirst(entries: seq<(string, Node)>, i: nat)
    requires i < |entries|
    requires forall j :: 0 <= j < i ==> entries[j].0 != entries[i].0
    ensures Find(entries, entries[i].0) == entries[i].1
    decreases i
  {
    if i > 0 {
      assert entries[1..][i - 1] == entries[i];
      FindFirst(entries[1..], i - 1);
    }
  }

  predicate DistinctKeys(keys: seq<string>) {
    forall i, j :: 0 <= j < i < |keys| ==> keys[j] != keys[i]
  }

  lemma KeysAreDistinct(t: VfiType)
    ensures DistinctKeys(KeysOf(t))
  {
    match t
    case EnvironmentToRobot => EnvironmentToRobotKeysDistinct();
    case RobotToRobot => RobotToRobotKeysDistinct();
  }

  lemma EnvironmentToRobotKeysDistinct()
    ensures DistinctKeys(ENVIRONMENT_TO_ROBOT_KEYS)
  {
  }

  lemma RobotToRobotKeysDistinct()
    ensures DistinctKeys(ROBOT_TO_ROBOT_KEYS)
  {
  }

  /** In the node of a record, each written key holds the node of its value. */
  lemma RecordNodeLookup(r: RawData, render: Double -> string, i: nat)
    requires i < |Fields(r, render)|
    ensures Lookup(RecordNode(r, render), Fields(r, render)[i].0) == Ok(ValueNode(Fields(r, render)[i].1))
  {
    var fields := Fields(r, render);
    var entries := RecordNode(r, render).entries;
    FieldsUseKeysOf(r, render);
    KeysAreDistinct(GetVfiType(r));
    FindFirst(entries, i);
  }

  /** A non-empty list written as a sequence of scalars reads back as itself. */
  lemma ListNodeReadsBack(items: seq<string>, key: string)
    requires items != []
    ensures GetVectorList(ValueNode(List(items)), key) == Ok(items)
  {
    var node := ValueNode(List(items));
    assert forall i :: 0 <= i < |items| ==> AsString(node.items[i]) == Ok(items[i]);
    var r := AsStrings(node.items);
    assert r.value == items;
  }

  /** The node of field `i` of a record, under the key it is written with. */
  lemma EnvironmentToRobotLookups(r: RawData, render: Double -> string)
    requires r.EnvironmentToRobotData? && r.csEntityEnvironment != [] && r.csEntityRobot != []
    ensures var node := RecordNode(r, render);
      && StringAt(node, "vfi_type") == Ok(r.vfiType)
      && ListAt(node, "cs_entity_environment") == Ok(r.csEntityEnvironment)
      && ListAt(node, "cs_entity_robot") == Ok(r.csEntityRobot)
      && StringAt(node, "entity_environment_primitive_type") == Ok(r.entityEnvironmentPrimitiveType)
      && StringAt(node, "entity_robot_primitive_type") == Ok(r.entityRobotPrimitiveType)
      && IntAt(node, "robot_index") == Ok(r.robotIndex)
      && IntAt(node, "joint_index") == Ok(r.jointIndex)
      && Lookup(node, "safe_distance") == Ok(Scalar(render(r.safeDistance)))
      && Lookup(node, "vfi_gain") == Ok(Scalar(GainLiteral(r.vfiGain, render)))
      && StringAt(node, "direction") == Ok(r.direction)
      && StringAt(node, "tag") == Ok(r.tag)
  {
    EnvironmentToRobotFields(r, render);
    RecordNodeLookup(r, render, 0);
    RecordNodeLookup(r, render, 1);
    RecordNodeLookup(r, render, 2);
    RecordNodeLookup(r, render, 3);
    RecordNodeLookup(r, render, 4);
    RecordNodeLookup(r, render, 5);
    RecordNodeLookup(r, render, 6);
    RecordNodeLookup(r, render, 7);
    RecordNodeLookup(r, render, 8);
    RecordNodeLookup(r, render, 9);
    RecordNodeLookup(r, render, 10);
    ListNodeReadsBack(r.csEntityEnvironment, "cs_entity_environment");
    ListNodeReadsBack(r.csEntityRobot, "cs_entity_robot");
    AsIntOfIntToString(r.robotIndex);
    AsIntOfIntToString(r.jointIndex);
  }

  lemma RobotToRobotLookups(r: RawData, render: Double -> string)
    requires r.RobotToRobotData? && r.csEntityOne != [] && r.csEntityTwo != []
    ensures var node := RecordNode(r, render);
      && StringAt(node, "vfi_type") == Ok(r.vfiType)
      && ListAt(node, "cs_entity_one") == Ok(r.csEntityOne)
      && ListAt(node, "cs_entity_two") == Ok(r.csEntityTwo)
      && StringAt(node, "entity_one_primitive_type") == Ok(r.entityOnePrimitiveType)
      && StringAt(node, "entity_two_primitive_type") == Ok(r.entityTwoPrimitiveType)
      && IntAt(node, "robot_index_one") == Ok(r.robotIndexOne)
      && IntAt(node, "robot_index_two") == Ok(r.robotIndexTwo)
      && IntAt(node, "joint_index_one") == Ok(r.jointIndexOne)
      && IntAt(node, "joint_index_two") == Ok(r.jointIndexTwo)
      && Lookup(node, "safe_distance") == Ok(Scalar(render(r.safeDistance)))
      && Lookup(node, "vfi_gain") == Ok(Scalar(GainLiteral(r.vfiGain, render)))
      && StringAt(node, "direction") == Ok(r.direction)
      && StringAt(node, "tag") == Ok(r.tag)
  {
    RobotToRobotFields(r, render);
    RecordNodeLookup(r, render, 0);
    RecordNodeLookup(r, render, 1);
    RecordNodeLookup(r, render, 2);
    RecordNodeLookup(r, render, 3);
    RecordNodeLookup(r, render, 4);
    RecordNodeLookup(r, render, 5);
    RecordNodeLookup(r, render, 6);
    RecordNodeLookup(r, render, 7);
    RecordNodeLookup(r, render, 8);
    RecordNodeLookup(r, render, 9);
    RecordNodeLookup(r, render, 10);
    RecordNodeLookup(r, render, 11);
    RecordNodeLookup(r, render, 12);
    ListNodeReadsBack(r.csEntityOne, "cs_entity_one");
    ListNodeReadsBack(r.csEntityTwo, "cs_entity_two");
    AsIntOfIntToString(r.robotIndexOne);
    AsIntOfIntToString(r.robotIndexTwo);
    AsIntOfIntToString(r.jointIndexOne);
    AsIntOfIntToString(r.jointIndexTwo);
  }

  /** Every record the writer can write reads back, through the reader's
      per-element parse, as the record itself. */
  lemma RecordNodeReadsBack(r: RawData, render: Double -> string)
    requires Writable(r, render)
    ensures ParseElement(RecordNode(r, render)) == Ok(r)
  {
    if r.EnvironmentToRobotData? {
      EnvironmentToRobotLookups(r, render);
    } else {
      RobotToRobotLookups(r, render);
    }
    ParseElementOfFields(RecordNode(r, render), r);
  }

  /** The writer prints an empty entity list as `[]`, and the reader
      rejects it with a `std::runtime_error`, which aborts the whole load:
      such a record is saved but cannot be loaded back. The error names the
      first empty list in reading order. */
  lemma EmptyListStopsLoad(r: RawData, render: Double -> string)
    requires r.vfiType == VfiTypeName(GetVfiType(r))
    requires r.EnvironmentToRobotData? ==> r.csEntityEnvironment == [] || r.csEntityRobot == []
    requires r.RobotToRobotData? ==> r.csEntityOne == [] || r.csEntityTwo == []
    ensures IsFatal(ParseElement(RecordNode(r, render)))
    ensures r.EnvironmentToRobotData? && r.csEntityEnvironment == [] ==>
              ParseElement(RecordNode(r, render)) == Throw(RuntimeError("cs_entity_environment" + "is an empty list!"))
    ensures r.EnvironmentToRobotData? && r.csEntityEnvironment != [] ==>
              ParseElement(RecordNode(r, render)) == Throw(RuntimeError("cs_entity_robot" + "is an empty list!"))
    ensures r.RobotToRobotData? && r.csEntityOne == [] ==>
              ParseElement(RecordNode(r, render)) == Throw(RuntimeError("cs_entity_one" + "is an empty list!"))
    ensures r.RobotToRobotData? && r.csEntityOne != [] ==>
              ParseElement(RecordNode(r, render)) == Throw(RuntimeError("cs_entity_two" + "is an empty list!"))
  {
    if r.EnvironmentToRobotData? {
      EnvironmentToRobotEmptyList(r, render);
    } else {
      RobotToRobotEmptyList(r, render);
    }
  }

  /** The first two keys of a block and what they read. */
  lemma LeadingLists(r: RawData, render: Double -> string)
    ensures Lookup(RecordNode(r, render), "vfi_type") == Ok(Scalar(r.vfiType))
    ensures r.EnvironmentToRobotData? ==>
              && Lookup(RecordNode(r, render), "cs_entity_environment") == Ok(ValueNode(List(r.csEntityEnvironment)))
              && Lookup(RecordNode(r, render), "cs_entity_robot") == Ok(ValueNode(List(r.csEntityRobot)))
    ensures r.RobotToRobotData? ==>
              && Lookup(RecordNode(r, render), "cs_entity_one") == Ok(ValueNode(List(r.csEntityOne)))
              && Lookup(RecordNode(r, render), "cs_entity_two") == Ok(ValueNode(List(r.csEntityTwo)))
  {
    if r.EnvironmentToRobotData? {
      EnvironmentToRobotFields(r, render);
    } else {
      RobotToRobotFields(r, render);
    }
    RecordNodeLookup(r, render, 0);
    RecordNodeLookup(r, render, 1);
    RecordNodeLookup(r, render, 2);
  }

  /** A list field reads back as itself, or as the empty-list error. */
  lemma ListFieldRead(items: seq<string>, key: string)
    ensures items == [] ==> GetVectorList(ValueNode(List(items)), key) == Throw(RuntimeError(key + "is an empty list!"))
    ensures items != [] ==> GetVectorList(ValueNode(List(items)), key) == Ok(items)
  {
    if items == [] {
      assert ValueNode(List(items)) == Sequence([]);
    } else {
      ListNodeReadsBack(items, key);
    }
  }

  lemma EnvironmentToRobotEmptyList(r: RawData, render: Double -> string)
    requires r.EnvironmentToRobotData? && r.vfiType == ENVIRONMENT_TO_ROBOT
    requires r.csEntityEnvironment == [] || r.csEntityRobot == []
    ensures r.csEntityEnvironment == [] ==>
              ParseElement(RecordNode(r, render)) == Throw(RuntimeError("cs_entity_environment" + "is an empty list!"))
    ensures r.csEntityEnvironment != [] ==>
              ParseElement(RecordNode(r, render)) == Throw(RuntimeError("cs_entity_robot" + "is an empty list!"))
  {
    LeadingLists(r, render);
    ListFieldRead(r.csEntityEnvironment, "cs_entity_environment");
    ListFieldRead(r.csEntityRobot, "cs_entity_robot");
  }

  lemma RobotToRobotEmptyList(r: RawData, render: Double -> string)
    requires r.RobotToRobotData? && r.vfiType == ROBOT_TO_ROBOT
    requires r.csEntityOne == [] || r.csEntityTwo == []
    ensures r.csEntityOne == [] ==>
              ParseElement(RecordNode(r, render)) == Throw(RuntimeError("cs_entity_one" + "is an empty list!"))
    ensures r.csEntityOne != [] ==>
              ParseElement(RecordNode(r, render)) == Throw(RuntimeError("cs_entity_two" + "is an empty list!"))
  {
    LeadingLists(r, render);
    ListFieldRead(r.csEntityOne, "cs_entity_one");
    ListFieldRead(r.csEntityTwo, "cs_entity_two");
  }

  /** Looking up a key no entry has gives the invalid node. */
  lemma {:induction false} FindAbsent(entries: seq<(string, Node)>, key: string)
    requires forall j :: 0 <= j < |entries| ==> entries[j].0 != key
    ensures Find(entries, key) == Missing
    decreases |entries|
  {
    if entries != [] {
      FindAbsent(entries[1..], key);
    }
  }

  /** `add_data` and `replace_data` accept any `vfi_type`. A robot-to-robot
      record labelled `ENVIRONMENT_TO_ROBOT` is saved, but on reload the
      reader looks for `cs_entity_environment`, which its block lacks, and
      the `YAML::Exception` drops the record without a word. */
  lemma MislabelledRecordIsSkipped(r: RawData, render: Double -> string)
    requires r.RobotToRobotData? && r.vfiType == ENVIRONMENT_TO_ROBOT
    ensures ParseElement(RecordNode(r, render)).Throw?
    ensures ParseElement(RecordNode(r, render)).ex.YamlException?
  {
    RobotToRobotFields(r, render);
    RecordNodeLookup(r, render, 0);
    var node := RecordNode(r, render);
    FindAbsent(node.entries, "cs_entity_environment");
    assert ListAt(node, "cs_entity_environment").Throw?;
  }

  /** A record whose `vfi_type` names neither kind (the empty string, say)
      is saved, but on reload the reader throws a `std::runtime_error` and
      the whole load is aborted. */
  lemma UnknownTypeStopsLoad(r: RawData, render: Double -> string)
    requires r.vfiType != ENVIRONMENT_TO_ROBOT && r.vfiType != ROBOT_TO_ROBOT
    ensures ParseElement(RecordNode(r, render)) == Throw(RuntimeError("Unknown VFI type: " + r.vfiType))
    ensures IsFatal(ParseElement(RecordNode(r, render)))
  {
    FieldsUseKeysOf(r, render);
    RecordNodeLookup(r, render, 0);
  }

  lemma {:induction false} SurvivorsOfParsed(outcomes: seq<Outcome<RawData>>, records: seq<RawData>)
    requires |outcomes| == |records|
    requires forall i :: 0 <= i < |records| ==> outcomes[i] == Ok(records[i])
    ensures Survivors(outcomes) == records
    decreases |records|
  {
    if records != [] {
      SurvivorsOfParsed(outcomes[1..], records[1..]);
      assert [records[0]] + records[1..] == records;
    }
  }

  /** A saved file reads back, through either reader and whatever metadata
      the newer reader held before, as the records in the order written
      and the metadata written. */
  lemma DocumentReadsBack(version: Int32, zeroIndexed: bool, records: seq<RawData>, render: Double -> string,
                          heldVersion: Int32, heldZeroIndexed: bool)
    requires forall i :: 0 <= i < |records| ==> Writable(records[i], render)
    ensures ExtractYamlData(Loaded(DocumentNode(version, zeroIndexed, records, render)), heldVersion, heldZeroIndexed)
         == Completed(records, version, zeroIndexed)
    ensures LegacyExtract(Loaded(DocumentNode(version, zeroIndexed, records, render))) == Running(records)
  {
    var root := DocumentNode(version, zeroIndexed, records, render);
    var doc := Loaded(root);
    AsIntOfIntToString(version);
    AsBoolOfBool2String(zeroIndexed);
    FindFirst(root.entries, 1);
    FindFirst(root.entries, 2);
    assert ReadVersion(root, heldVersion) == Ok(version);
    assert ReadZeroIndexed(root, heldZeroIndexed) == Ok(zeroIndexed);
    var nodes := Elements(Lookup(root, "vfi_array").value);
    assert |nodes| == |records|;
    forall i | 0 <= i < |records|
      ensures ParseElement(nodes[i]) == Ok(records[i])
    {
      RecordNodeReadsBack(records[i], render);
    }
    forall e | e in nodes
      ensures !IsFatal(ParseElement(e))
    {
      var i :| 0 <= i < |nodes| && nodes[i] == e;
    }
    CompletedReadKeepsSurvivors(root, heldVersion, heldZeroIndexed);
    SurvivorsOfParsed(ParseAll(nodes), records);
    LegacyAgreesWithReader(doc, heldVersion, heldZeroIndexed);
  }

  /** Saving a store and loading the file into a fresh editor gives back
      the same store. */
  lemma SaveThenLoad(m: map<string, RawData>, version: Int32, zeroIndexed: bool, render: Double -> string)
    requires Editor.KeyedByTag(m)
    requires forall k :: k in m ==> Writable(m[k], render)
    ensures var doc := Loaded(DocumentNode(version, zeroIndexed, InTagOrder(m), render));
      && LegacyExtract(doc) == Running(InTagOrder(m))
      && Editor.KeyByTag(LegacyExtract(doc).records) == m
  {
    var rs := InTagOrder(m);
    Editor.InTagOrderListsStore(m);
    DocumentReadsBack(version, zeroIndexed, rs, render, version, zeroIndexed);
    Editor.LoadAfterGetRawData(m);
  }
}
