/** The part of yaml-cpp the readers use: a loaded document, `operator[]`,
    `operator bool`, iteration, and the conversions `as<T>`. Text parsing
    (`YAML::LoadFile`) is not modelled; a file arrives as a `Document`. */
module Yaml {
  import opened Outcomes
  import opened Records
  import Decimal
  import Utils

  /** A yaml-cpp node. `Missing` is the invalid ("zombie") node that a const
      `operator[]` returns for an absent key and that map iteration yields
      when read as a node. */
  datatype Node =
    | Missing
    | Null
    | Scalar(text: string)
    | Sequence(items: seq<Node>)
    | Mapping(entries: seq<(string, Node)>)

  /** What `YAML::LoadFile` produces: a root node, or one of the two
      exceptions the readers translate into `std::runtime_error`. */
  datatype Document = Loaded(root: Node) | BadFile(msg: string) | ParserError(msg: string)

  const INVALID_NODE: string :=
    "invalid node; this may result from using a map iterator as a sequence iterator, or vice-versa"
  const BAD_SUBSCRIPT: string := "operator[] call on a scalar"
  const BAD_CONVERSION: string := "bad conversion"

  /** `operator bool`: every node but the invalid one is defined. */
  predicate IsDefined(n: Node) {
    !n.Missing?
  }

  /** The value of the first entry with `key`, or the invalid node. */
  function Find(entries: seq<(string, Node)>, key: string): Node
    decreases |entries|
  {
    if entries == [] then Missing
    else if entries[0].0 == key then entries[0].1
    else Find(entries[1..], key)
  }

  /** `node[key]`: a mapping gives the value or the invalid node; a null or a
      sequence has no such key; a scalar throws `BadSubscript`, and an invalid
      node throws `InvalidNode`. */
  function Lookup(n: Node, key: string): (r: Outcome<Node>)
    ensures r.Throw? <==> n.Missing? || n.Scalar?
    ensures r.Throw? ==> r.ex.YamlException?
    ensures n.Mapping? ==> r == Ok(Find(n.entries, key))
  {
    match n
    case Missing => Throw(YamlException(INVALID_NODE))
    case Scalar(_) => Throw(YamlException(BAD_SUBSCRIPT))
    case Mapping(entries) => Ok(Find(entries, key))
    case Null => Ok(Missing)
    case Sequence(_) => Ok(Missing)
  }

  /** The elements a range `for` visits: the items of a sequence, one invalid
      node per entry of a mapping, and nothing otherwise. */
  function Elements(n: Node): (es: seq<Node>)
    ensures n.Sequence? ==> es == n.items
    ensures n.Mapping? ==> |es| == |n.entries| && forall i :: 0 <= i < |es| ==> es[i] == Missing
    ensures !n.Sequence? && !n.Mapping? ==> es == []
  {
    match n
    case Sequence(items) => items
    case Mapping(entries) => seq(|entries|, i => Missing)
    case _ => []
  }

  /** `as<std::string>()`: a scalar's text; a null reads as "null". */
  function AsString(n: Node): (r: Outcome<string>)
    ensures r.Ok? <==> n.Scalar? || n.Null?
    ensures r.Throw? ==> r.ex.YamlException?
    ensures n.Scalar? ==> r == Ok(n.text)
  {
    match n
    case Scalar(text) => Ok(text)
    case Null => Ok("null")
    case Missing => Throw(YamlException(INVALID_NODE))
    case _ => Throw(YamlException(BAD_CONVERSION))
  }

  /** `as<std::vector<std::string>>()`: every item converted with `as<std::string>()`. */
  function AsStrings(items: seq<Node>): (r: Outcome<seq<string>>)
    ensures r.Ok? <==> forall i :: 0 <= i < |items| ==> AsString(items[i]).Ok?
    ensures r.Ok? ==> |r.value| == |items| && forall i :: 0 <= i < |items| ==> AsString(items[i]) == Ok(r.value[i])
    ensures r.Throw? ==> r.ex.YamlException?
    decreases |items|
  {
    if items == [] then Ok([])
    else
      var head :- AsString(items[0]);
      var tail :- AsStrings(items[1..]);
      Ok([head] + tail)
  }

  /** `as<int>()`: a decimal integer that fits in an `int`. */
  function AsInt(n: Node): (r: Outcome<Int32>)
    ensures r.Throw? ==> r.ex.YamlException?
  {
    match n
    case Scalar(text) =>
      (match Decimal.ParseInteger(text)
       case Some(v) => if INT_MIN <= v <= INT_MAX then Ok(v) else Throw(YamlException(BAD_CONVERSION))
       case None => Throw(YamlException(BAD_CONVERSION)))
    case Missing => Throw(YamlException(INVALID_NODE))
    case _ => Throw(YamlException(BAD_CONVERSION))
  }

  /** `as<double>()`: a plain decimal number. */
  function AsDouble(n: Node): (r: Outcome<Double>)
    ensures r.Throw? ==> r.ex.YamlException?
  {
    match n
    case Scalar(text) =>
      (match Decimal.ParseReal(text)
       case Some(v) => Ok(v)
       case None => Throw(YamlException(BAD_CONVERSION)))
    case Missing => Throw(YamlException(INVALID_NODE))
    case _ => Throw(YamlException(BAD_CONVERSION))
  }

  predicate IsLowerLetter(c: char) {
    'a' <= c <= 'z'
  }

  predicate IsUpperLetter(c: char) {
    'A' <= c <= 'Z'
  }

  predicate AllLower(s: string) {
    forall i :: 0 <= i < |s| ==> IsLowerLetter(s[i])
  }

  predicate AllUpper(s: string) {
    forall i :: 0 <= i < |s| ==> IsUpperLetter(s[i])
  }

  /** yaml-cpp accepts a boolean spelled all lower case, all upper case, or
      with only its first letter upper case. */
  predicate IsFlexibleCase(s: string) {
    s == [] || AllLower(s) || (IsUpperLetter(s[0]) && (AllLower(s[1..]) || AllUpper(s[1..])))
  }

  function ToLower(s: string): (r: string)
    ensures |r| == |s|
  {
    seq(|s|, i requires 0 <= i < |s| => if IsUpperLetter(s[i]) then (s[i] as int + 32) as char else s[i])
  }

  /** `as<bool>()`: y/yes/true/on and n/no/false/off, in flexible case. */
  function AsBool(n: Node): (r: Outcome<bool>)
    ensures r.Throw? ==> r.ex.YamlException?
  {
    match n
    case Scalar(text) =>
      var lower := ToLower(text);
      if !IsFlexibleCase(text) then Throw(YamlException(BAD_CONVERSION))
      else if lower in ["y", "yes", "true", "on"] then Ok(true)
      else if lower in ["n", "no", "false", "off"] then Ok(false)
      else Throw(YamlException(BAD_CONVERSION))
    case Missing => Throw(YamlException(INVALID_NODE))
    case _ => Throw(YamlException(BAD_CONVERSION))
  }

  /** An integer written with `std::ostream` reads back with `as<int>()`. */
  lemma AsIntOfIntToString(i: Int32)
    ensures AsInt(Scalar(Decimal.IntToString(i))) == Ok(i)
  {
    Decimal.IntToStringRoundTrip(i);
  }

  /** The spelling `bool2string` gives a flag reads back with `as<bool>()`
      as that flag. */
  lemma AsBoolOfBool2String(flag: bool)
    ensures AsBool(Scalar(Utils.Bool2String(flag))) == Ok(flag)
  {
    var text := Utils.Bool2String(flag);
    assert AllLower(text);
    assert ToLower(text) == text;
  }
}
