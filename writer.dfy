/** The text `save_data` writes, as pure functions of the metadata and the
    records in the order the map visits them. Each line is given without its
    trailing newline. How a `double` prints (`std::ostream`'s default
    precision) is the parameter `render`. */
module Writer {
  import opened Outcomes
  import opened Records
  import Utils
  import Decimal

  /** `static_cast<int>(d)` truncates toward zero. */
  function TruncateToInt(d: Double): int {
    if d >= 0.0 then d.Floor else -((-d).Floor)
  }

  /** The cast is defined only when the truncated value fits in an `int`. */
  predicate IntCastDefined(d: Double) {
    (INT_MIN - 1) as real < d < (INT_MAX + 1) as real
  }

  /** `gain == static_cast<int>(gain)`, taken as false where the cast is undefined. */
  predicate IsIntegral(d: Double) {
    IntCastDefined(d) && TruncateToInt(d) as real == d
  }

  /** A gain gets its `.0` exactly when it is a whole number within the range of `int`. */
  lemma IsIntegralIffWhole(d: Double)
    ensures IsIntegral(d) <==> d == d.Floor as real && INT_MIN <= d.Floor <= INT_MAX
  {
    if d < 0.0 && IsIntegral(d) {
      assert (-d).Floor as real == -d;
    }
    if d < 0.0 && d == d.Floor as real {
      assert (-d).Floor == -d.Floor;
    }
  }

  /** How one field value is spelled after its key. */
  datatype FieldValue = Text(s: string) | List(items: seq<string>) | Number(literal: string)

  function Quote(s: string): string {
    "\"" + s + "\""
  }

  /** The elements of an entity list, each double-quoted, with ", " between
      consecutive ones. */
  function QuotedItems(xs: seq<string>): string
    decreases |xs|
  {
    if xs == [] then ""
    else if |xs| == 1 then Quote(xs[0])
    else Quote(xs[0]) + (", " + QuotedItems(xs[1..]))
  }

  /** An entity list: every element double-quoted, separated by ", ", in brackets. */
  function ListLiteral(xs: seq<string>): string {
    "[" + QuotedItems(xs) + "]"
  }

  /** The `vfi_gain` text: `.0` appended to an integral gain. */
  function GainLiteral(gain: Double, render: Double -> string): string {
    if IsIntegral(gain) then render(gain) + ".0" else render(gain)
  }

  function ValueText(v: FieldValue): string {
    match v
    case Text(s) => Quote(s)
    case List(items) => ListLiteral(items)
    case Number(literal) => literal
  }

  const ENVIRONMENT_TO_ROBOT_KEYS: seq<string> := [
    "vfi_type", "cs_entity_environment", "cs_entity_robot",
    "entity_environment_primitive_type", "entity_robot_primitive_type",
    "robot_index", "joint_index", "safe_distance", "vfi_gain", "direction", "tag"]

  const ROBOT_TO_ROBOT_KEYS: seq<string> := [
    "vfi_type", "cs_entity_one", "cs_entity_two",
    "entity_one_primitive_type", "entity_two_primitive_type",
    "robot_index_one", "robot_index_two", "joint_index_one", "joint_index_two",
    "safe_distance", "vfi_gain", "direction", "tag"]

  /** The keys a record of the given kind is written with, in order. */
  function KeysOf(t: VfiType): seq<string> {
    match t
    case EnvironmentToRobot => ENVIRONMENT_TO_ROBOT_KEYS
    case RobotToRobot => ROBOT_TO_ROBOT_KEYS
  }

  /** The fields of one record as `save_data` writes them, in its fixed order. */
  function Fields(r: RawData, render: Double -> string): seq<(string, FieldValue)> {
    match r
    case EnvironmentToRobotData(vfiType, csEntityEnvironment, csEntityRobot,
                                entityEnvironmentPrimitiveType, entityRobotPrimitiveType,
                                robotIndex, jointIndex, safeDistance, vfiGain, direction, tag) =>
      [("vfi_type", Text(vfiType)),
       ("cs_entity_environment", List(csEntityEnvironment)),
       ("cs_entity_robot", List(csEntityRobot)),
       ("entity_environment_primitive_type", Text(entityEnvironmentPrimitiveType)),
       ("entity_robot_primitive_type", Text(entityRobotPrimitiveType)),
       ("robot_index", Number(Decimal.IntToString(robotIndex))),
       ("joint_index", Number(Decimal.IntToString(jointIndex))),
       ("safe_distance", Number(render(safeDistance))),
       ("vfi_gain", Number(GainLiteral(vfiGain, render))),
       ("direction", Text(direction)),
       ("tag", Text(tag))]
    case RobotToRobotData(vfiType, csEntityOne, csEntityTwo,
                          entityOnePrimitiveType, entityTwoPrimitiveType,
                          robotIndexOne, robotIndexTwo, jointIndexOne, jointIndexTwo,
                          safeDistance, vfiGain, direction, tag) =>
      [("vfi_type", Text(vfiType)),
       ("cs_entity_one", List(csEntityOne)),
       ("cs_entity_two", List(csEntityTwo)),
       ("entity_one_primitive_type", Text(entityOnePrimitiveType)),
       ("entity_two_primitive_type", Text(entityTwoPrimitiveType)),
       ("robot_index_one", Number(Decimal.IntToString(robotIndexOne))),
       ("robot_index_two", Number(Decimal.IntToString(robotIndexTwo))),
       ("joint_index_one", Number(Decimal.IntToString(jointIndexOne))),
       ("joint_index_two", Number(Decimal.IntToString(jointIndexTwo))),
       ("safe_distance", Number(render(safeDistance))),
       ("vfi_gain", Number(GainLiteral(vfiGain, render))),
       ("direction", Text(direction)),
       ("tag", Text(tag))]
  }

  lemma EnvironmentToRobotFields(r: RawData, render: Double -> string)
    requires r.EnvironmentToRobotData?
    ensures Fields(r, render) ==
      [("vfi_type", Text(r.vfiType)),
       ("cs_entity_environment", List(r.csEntityEnvironment)),
       ("cs_entity_robot", List(r.csEntityRobot)),
       ("entity_environment_primitive_type", Text(r.entityEnvironmentPrimitiveType)),
       ("entity_robot_primitive_type", Text(r.entityRobotPrimitiveType)),
       ("robot_index", Number(Decimal.IntToString(r.robotIndex))),
       ("joint_index", Number(Decimal.IntToString(r.jointIndex))),
       ("safe_distance", Number(render(r.safeDistance))),
       ("vfi_gain", Number(GainLiteral(r.vfiGain, render))),
       ("direction", Text(r.direction)),
       ("tag", Text(r.tag))]
  {
  }

  lemma RobotToRobotFields(r: RawData, render: Double -> string)
    requires r.RobotToRobotData?
    ensures Fields(r, render) ==
      [("vfi_type", Text(r.vfiType)),
       ("cs_entity_one", List(r.csEntityOne)),
       ("cs_entity_two", List(r.csEntityTwo)),
       ("entity_one_primitive_type", Text(r.entityOnePrimitiveType)),
       ("entity_two_primitive_type", Text(r.entityTwoPrimitiveType)),
       ("robot_index_one", Number(Decimal.IntToString(r.robotIndexOne))),
       ("robot_index_two", Number(Decimal.IntToString(r.robotIndexTwo))),
       ("joint_index_one", Number(Decimal.IntToString(r.jointIndexOne))),
       ("joint_index_two", Number(Decimal.IntToString(r.jointIndexTwo))),
       ("safe_distance", Number(render(r.safeDistance))),
       ("vfi_gain", Number(GainLiteral(r.vfiGain, render))),
       ("direction", Text(r.direction)),
       ("tag", Text(r.tag))]
  {
  }

  function FieldLine(key: string, v: FieldValue): string {
    "    " + key + ": " + ValueText(v)
  }

  function FieldLines(fields: seq<(string, FieldValue)>): (lines: seq<string>)
    ensures |lines| == |fields|
    ensures forall i :: 0 <= i < |fields| ==> lines[i] == FieldLine(fields[i].0, fields[i].1)
  {
    seq(|fields|, i requires 0 <= i < |fields| => FieldLine(fields[i].0, fields[i].1))
  }

  /** One record's block: a `-` line, then one line per field. */
  function RecordLines(r: RawData, render: Double -> string): seq<string> {
    ["  -"] + FieldLines(Fields(r, render))
  }

  function Header(version: Int32, zeroIndexed: bool): seq<string> {
    ["vfi_file_version: " + Decimal.IntToString(version),
     "zero_indexed: " + Utils.Bool2String(zeroIndexed),
     "vfi_array:"]
  }

  /** Blocks of lines, one after the other. */
  function Concat(blocks: seq<seq<string>>): seq<string>
    decreases |blocks|
  {
    if blocks == [] then [] else Concat(blocks[..|blocks| - 1]) + blocks[|blocks| - 1]
  }

  /** The block of every record, in the order given. */
  function BlockList(records: seq<RawData>, render: Double -> string): (blocks: seq<seq<string>>)
    ensures |blocks| == |records|
    ensures forall i :: 0 <= i < |records| ==> blocks[i] == RecordLines(records[i], render)
  {
    seq(|records|, i requires 0 <= i < |records| => RecordLines(records[i], render))
  }

  /** The blocks of the records, one after the other. */
  function Blocks(records: seq<RawData>, render: Double -> string): seq<string> {
    Concat(BlockList(records, render))
  }

  /** The whole file `save_data` writes for the records in tag order. */
  function SaveText(version: Int32, zeroIndexed: bool, records: seq<RawData>, render: Double -> string): seq<string> {
    Header(version, zeroIndexed) + Blocks(records, render)
  }

  lemma BlocksSnoc(records: seq<RawData>, i: nat, render: Double -> string)
    requires i < |records|
    ensures Blocks(records[..i + 1], render) == Blocks(records[..i], render) + RecordLines(records[i], render)
  {
    var blocks := BlockList(records[..i + 1], render);
    assert blocks[..i] == BlockList(records[..i], render);
  }

  /** Where the block of `records[i]` starts within `Blocks(records)`. */
  function Offset(records: seq<RawData>, i: nat, render: Double -> string): nat
    requires i <= |records|
  {
    |Concat(BlockList(records, render)[..i])|
  }

  /** A gain gets `.0` appended exactly when it is integral; otherwise it is
      written as `render` prints it. */
  lemma GainLiteralRule(gain: Double, render: Double -> string)
    ensures IsIntegral(gain) <==> GainLiteral(gain, render) == render(gain) + ".0"
    ensures !IsIntegral(gain) <==> GainLiteral(gain, render) == render(gain)
  {
  }

  /** The field names of a record are the keys of its kind, in order. */
  lemma FieldsUseKeysOf(r: RawData, render: Double -> string)
    ensures |Fields(r, render)| == |KeysOf(GetVfiType(r))|
    ensures forall i :: 0 <= i < |Fields(r, render)| ==> Fields(r, render)[i].0 == KeysOf(GetVfiType(r))[i]
    ensures Fields(r, render)[0].1 == Text(r.vfiType)
    ensures Fields(r, render)[|Fields(r, render)| - 1].1 == Text(r.tag)
  {
    match r
    case EnvironmentToRobotData(_, _, _, _, _, _, _, _, _, _, _) =>
    case RobotToRobotData(_, _, _, _, _, _, _, _, _, _, _, _, _) =>
  }

  /** Every record is written with the keys of its kind in the fixed order,
      `vfi_type` first and `tag` last, after a `-` line. */
  lemma RecordLinesFollowDeclaredOrder(r: RawData, render: Double -> string)
    ensures |RecordLines(r, render)| == 1 + |KeysOf(GetVfiType(r))|
    ensures RecordLines(r, render)[0] == "  -"
    ensures forall i :: 0 <= i < |KeysOf(GetVfiType(r))| ==>
              RecordLines(r, render)[i + 1] == FieldLine(KeysOf(GetVfiType(r))[i], Fields(r, render)[i].1)
    ensures RecordLines(r, render)[1] == FieldLine("vfi_type", Text(r.vfiType))
    ensures RecordLines(r, render)[|RecordLines(r, render)| - 1] == FieldLine("tag", Text(r.tag))
  {
    FieldsUseKeysOf(r, render);
    var fields := Fields(r, render);
    var lines := RecordLines(r, render);
    assert lines[1] == FieldLine(fields[0].0, fields[0].1);
    assert lines[|lines| - 1] == FieldLine(fields[|fields| - 1].0, fields[|fields| - 1].1);
  }

  lemma {:induction false} ConcatAppend(a: seq<seq<string>>, b: seq<seq<string>>)
    ensures Concat(a + b) == Concat(a) + Concat(b)
    decreases |b|
  {
    if b == [] {
      assert a + b == a;
    } else {
      var init := b[..|b| - 1];
      assert (a + b)[..|a + b| - 1] == a + init;
      ConcatAppend(a, init);
    }
  }

  /** Each block sits, whole, right after the blocks before it. */
  lemma ConcatInOrder(blocks: seq<seq<string>>, i: nat)
    requires i < |blocks|
    ensures |Concat(blocks[..i])| <= |Concat(blocks[..i + 1])| <= |Concat(blocks)|
    ensures Concat(blocks)[|Concat(blocks[..i])|..|Concat(blocks[..i + 1])|] == blocks[i]
  {
    assert blocks[..i + 1][..i] == blocks[..i];
    assert blocks == blocks[..i + 1] + blocks[i + 1..];
    ConcatAppend(blocks[..i + 1], blocks[i + 1..]);
  }

  /** The blocks are written one per record, in the order given: the block
      of `records[i]` is its own lines, starting right after those of the
      records before it. */
  lemma BlocksInOrder(records: seq<RawData>, i: nat, render: Double -> string)
    requires i < |records|
    ensures Offset(records, i, render) <= Offset(records, i + 1, render) <= |Blocks(records, render)|
    ensures Blocks(records, render)[Offset(records, i, render)..Offset(records, i + 1, render)]
         == RecordLines(records[i], render)
  {
    ConcatInOrder(BlockList(records, render), i);
  }

  /** The file is three header lines (the version, the indexing
      convention and the `vfi_array:` key) followed by nothing but the
      blocks of the records; `BlocksInOrder` says where each block sits. */
  lemma SaveTextLayout(version: Int32, zeroIndexed: bool, records: seq<RawData>, render: Double -> string)
    ensures SaveText(version, zeroIndexed, records, render)
         == ["vfi_file_version: " + Decimal.IntToString(version),
             "zero_indexed: " + (if zeroIndexed then "true" else "false"),
             "vfi_array:"]
            + Blocks(records, render)
    ensures |SaveText(version, zeroIndexed, records, render)| == 3 + Offset(records, |records|, render)
  {
    assert BlockList(records, render)[..|records|] == BlockList(records, render);
  }

  /** Reads back the items of a rendered entity list (without its brackets). */
  function ParseQuotedItems(s: string): Option<seq<string>>
    decreases |s|
  {
    if |s| < 2 || s[0] != '"' then None
    else
      var close := 1 + Decimal.IndexOf(s[1..], '"');
      if close == |s| then None
      else
        var item := s[1..close];
        var rest := s[close + 1..];
        if rest == [] then Some([item])
        else if |rest| >= 2 && rest[0] == ',' && rest[1] == ' ' then
          match ParseQuotedItems(rest[2..])
          case Some(items) => Some([item] + items)
          case None => None
        else None
  }

  /** Reads back a rendered entity list. */
  function ParseListLiteral(s: string): Option<seq<string>> {
    if |s| >= 2 && s[0] == '[' && s[|s| - 1] == ']' then
      var inner := s[1..|s| - 1];
      if inner == [] then Some([]) else ParseQuotedItems(inner)
    else None
  }

  predicate NoQuote(s: string) {
    forall i :: 0 <= i < |s| ==> s[i] != '"'
  }

  lemma IndexOfAfter(a: string, b: string, c: char)
    requires forall i :: 0 <= i < |a| ==> a[i] != c
    ensures Decimal.IndexOf(a + [c] + b, c) == |a|
  {
    var s := a + [c] + b;
    assert s[|a|] == c;
  }

  /** One quoted item, then what follows it. */
  lemma ParseQuotedItemsStep(x: string, tail: string)
    requires NoQuote(x)
    ensures tail == [] ==> ParseQuotedItems(Quote(x) + tail) == Some([x])
    ensures |tail| >= 2 && tail[0] == ',' && tail[1] == ' ' && ParseQuotedItems(tail[2..]).Some? ==>
              ParseQuotedItems(Quote(x) + tail) == Some([x] + ParseQuotedItems(tail[2..]).value)
  {
    var s := Quote(x) + tail;
    IndexOfAfter(x, tail, '"');
    assert s[1..] == x + ['"'] + tail;
    var close := 1 + |x|;
    assert s[1..close] == x;
    assert s[close + 1..] == tail;
  }

  lemma QuotedItemsCons(x: string, rest: seq<string>)
    requires NoQuote(x) && rest != []
    requires ParseQuotedItems(QuotedItems(rest)) == Some(rest)
    ensures ParseQuotedItems(QuotedItems([x] + rest)) == Some([x] + rest)
  {
    var xs := [x] + rest;
    var inner := QuotedItems(rest);
    assert xs[1..] == rest;
    assert QuotedItems(xs) == Quote(x) + (", " + inner);
    assert (", " + inner)[2..] == inner;
    ParseQuotedItemsStep(x, ", " + inner);
  }

  lemma {:induction false} QuotedItemsRoundTrip(xs: seq<string>)
    requires xs != [] && forall i :: 0 <= i < |xs| ==> NoQuote(xs[i])
    ensures ParseQuotedItems(QuotedItems(xs)) == Some(xs)
    decreases |xs|
  {
    if |xs| == 1 {
      ParseQuotedItemsStep(xs[0], "");
      assert Quote(xs[0]) + "" == Quote(xs[0]);
      assert xs == [xs[0]];
    } else {
      assert forall i :: 0 <= i < |xs[1..]| ==> xs[1..][i] == xs[i + 1];
      QuotedItemsRoundTrip(xs[1..]);
      QuotedItemsCons(xs[0], xs[1..]);
      assert [xs[0]] + xs[1..] == xs;
    }
  }

  /** An entity list whose elements contain no double quote reads back as
      the same list. */
  lemma ListLiteralRoundTrip(xs: seq<string>)
    requires forall i :: 0 <= i < |xs| ==> NoQuote(xs[i])
    ensures ParseListLiteral(ListLiteral(xs)) == Some(xs)
  {
    var inner := QuotedItems(xs);
    assert ListLiteral(xs)[1..|ListLiteral(xs)| - 1] == inner;
    if xs != [] {
      QuotedItemsRoundTrip(xs);
      assert inner != [];
    }
  }
}
