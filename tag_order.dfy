/** The order of `std::map<std::string, RawData>`: keys ascend by
    `std::string`'s `operator<`, which compares character by character and
    puts a proper prefix first. */
module TagOrder {
  import opened Records

  predicate Less(a: string, b: string)
    decreases |a|
  {
    if |a| == 0 then |b| > 0
    else if |b| == 0 then false
    else if a[0] == b[0] then Less(a[1..], b[1..])
    else a[0] < b[0]
  }

  predicate LessOrEqual(a: string, b: string) {
    a == b || Less(a, b)
  }

  lemma {:induction false} LessIrreflexive(a: string)
    ensures !Less(a, a)
  {
    if |a| > 0 {
      LessIrreflexive(a[1..]);
    }
  }

  lemma {:induction false} LessTotal(a: string, b: string)
    ensures Less(a, b) || a == b || Less(b, a)
  {
    if |a| > 0 && |b| > 0 && a[0] == b[0] {
      LessTotal(a[1..], b[1..]);
      if a[1..] == b[1..] {
        assert a == [a[0]] + a[1..] && b == [b[0]] + b[1..];
      }
    }
  }

  lemma {:induction false} LessAsymmetric(a: string, b: string)
    ensures !(Less(a, b) && Less(b, a))
  {
    if |a| > 0 && |b| > 0 && a[0] == b[0] {
      LessAsymmetric(a[1..], b[1..]);
    }
  }

  lemma {:induction false} LessTransitive(a: string, b: string, c: string)
    requires Less(a, b) && Less(b, c)
    ensures Less(a, c)
  {
    if |a| > 0 && a[0] == b[0] && b[0] == c[0] {
      LessTransitive(a[1..], b[1..], c[1..]);
    }
  }

  predicate IsMinimum(k: string, keys: set<string>) {
    k in keys && forall x :: x in keys ==> LessOrEqual(k, x)
  }

  lemma {:induction false} MinimumExists(keys: set<string>)
    requires keys != {}
    ensures exists k :: IsMinimum(k, keys)
    decreases keys
  {
    var x :| x in keys;
    if keys != {x} {
      var rest := keys - {x};
      MinimumExists(rest);
      var m :| IsMinimum(m, rest);
      LessTotal(m, x);
      if Less(m, x) {
        assert IsMinimum(m, keys);
      } else {
        forall y | y in keys
          ensures LessOrEqual(x, y)
        {
          if y != x {
            assert LessOrEqual(m, y);
            if m != y {
              LessTransitive(x, m, y);
            }
          }
        }
        assert IsMinimum(x, keys);
      }
    } else {
      LessIrreflexive(x);
      assert IsMinimum(x, keys);
    }
  }

  lemma MinimumUnique(k1: string, k2: string, keys: set<string>)
    requires IsMinimum(k1, keys) && IsMinimum(k2, keys)
    ensures k1 == k2
  {
    LessAsymmetric(k1, k2);
  }

  ghost function Minimum(keys: set<string>): (k: string)
    requires keys != {}
    ensures IsMinimum(k, keys)
  {
    MinimumExists(keys);
    var k :| IsMinimum(k, keys); k
  }

  /** The keys of a set in the order a `std::map` visits them. */
  ghost function Ascending(keys: set<string>): seq<string>
    decreases keys
  {
    if keys == {} then [] else var k := Minimum(keys); [k] + Ascending(keys - {k})
  }

  predicate StrictlyAscending(s: seq<string>) {
    forall i, j :: 0 <= i < j < |s| ==> Less(s[i], s[j])
  }

  /** `Ascending` lists every key exactly once, in strictly ascending order. */
  lemma {:induction false} AscendingEnumerates(keys: set<string>)
    ensures StrictlyAscending(Ascending(keys))
    ensures forall k :: k in Ascending(keys) <==> k in keys
    ensures |Ascending(keys)| == |keys|
    decreases keys
  {
    if keys != {} {
      var k := Minimum(keys);
      var rest := Ascending(keys - {k});
      AscendingEnumerates(keys - {k});
      var s := [k] + rest;
      assert Ascending(keys) == s;
      forall i, j | 0 <= i < j < |s|
        ensures Less(s[i], s[j])
      {
        if i == 0 {
          assert s[j] == rest[j - 1];
          assert s[j] in keys - {k};
        } else {
          assert s[i] == rest[i - 1] && s[j] == rest[j - 1];
        }
      }
    }
  }

  /** The records of a tag-keyed map in ascending tag order: what a range
      `for` over the `std::map` visits. */
  ghost function InTagOrder(m: map<string, RawData>): seq<RawData> {
    var keys := Ascending(m.Keys);
    AscendingEnumerates(m.Keys);
    seq(|keys|, i requires 0 <= i < |keys| => m[keys[i]])
  }
}
