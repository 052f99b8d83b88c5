/** `utils.cpp`: `bool2string` and `join_vector`. */
module Utils {

  /** `bool2string`: the YAML spelling of a flag. */
  function Bool2String(flag: bool): string {
    if flag then "true" else "false"
  }

  /** The string `join_vector` builds: the elements in order, with `delimiter`
      between each two consecutive ones and nowhere else. */
  function Join(xs: seq<string>, delimiter: string): string
    decreases |xs|
  {
    if |xs| == 0 then ""
    else if |xs| == 1 then xs[0]
    else xs[0] + delimiter + Join(xs[1..], delimiter)
  }

  function TotalLength(xs: seq<string>): nat
    decreases |xs|
  {
    if xs == [] then 0 else |xs[0]| + TotalLength(xs[1..])
  }

  /** Appending an element to a non-empty list adds one delimiter and the element. */
  lemma {:induction false} JoinAppend(xs: seq<string>, y: string, delimiter: string)
    requires |xs| > 0
    ensures Join(xs + [y], delimiter) == Join(xs, delimiter) + delimiter + y
  {
    if |xs| == 1 {
      assert (xs + [y])[1..] == [y];
    } else {
      JoinAppend(xs[1..], y, delimiter);
      assert (xs + [y])[1..] == xs[1..] + [y];
    }
  }

  /** The joined string holds every character of the elements and exactly
      `n - 1` delimiters. */
  lemma {:induction false} JoinLength(xs: seq<string>, delimiter: string)
    ensures |Join(xs, delimiter)| == TotalLength(xs) + (if xs == [] then 0 else (|xs| - 1) * |delimiter|)
  {
    if |xs| > 1 {
      JoinLength(xs[1..], delimiter);
      assert xs[1..][1..] == xs[2..];
    }
  }

  /** `join_vector`: appends each element and, after every element but the
      last, the delimiter. */
  method JoinVector(vec: seq<string>, delimiter: string) returns (result: string)
    ensures result == Join(vec, delimiter)
    ensures vec == [] ==> result == ""
    ensures |vec| == 1 ==> result == vec[0]
  {
    result := "";
    var i := 0;
    while i < |vec|
      invariant 0 <= i <= |vec|
      invariant result == Join(vec[..i], delimiter) + (if 0 < i < |vec| then delimiter else "")
    {
      if i > 0 {
        JoinAppend(vec[..i], vec[i], delimiter);
      }
      assert vec[..i + 1] == vec[..i] + [vec[i]];
      result := result + vec[i];
      if i < |vec| - 1 {
        result := result + delimiter;
      }
      i := i + 1;
    }
    assert vec[..i] == vec;
  }
}
