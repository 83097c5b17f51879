/**
 * The identifier sanitizer and the names `new_store` derives from a
 * (component, metric) identity: the registry key `comp:metric`, the
 * sanitized metric name kept in the handle, and the table name
 * `Metric<Comp><Metric>Values`.
 *
 * A `char` here stands for one byte of a C string in the "C" locale, where
 * `isalnum` accepts exactly the ASCII letters and digits and `toupper`
 * changes only `a`-`z`.
 */
module Identifier {

  predicate IsAlnum(c: char)
  {
    'a' <= c <= 'z' || 'A' <= c <= 'Z' || '0' <= c <= '9'
  }

  /** A character allowed in a table name built by this plugin. */
  predicate IsIdentChar(c: char)
  {
    IsAlnum(c) || c == '_'
  }

  predicate IsIdent(s: string)
  {
    forall i :: 0 <= i < |s| ==> IsIdentChar(s[i])
  }

  function ToUpper(c: char): (u: char)
    ensures 'a' <= c <= 'z' ==> 'A' <= u <= 'Z' && u as int == c as int - 32
    ensures !('a' <= c <= 'z') ==> u == c
    ensures IsAlnum(u) <==> IsAlnum(c)
  {
    if 'a' <= c <= 'z' then (c as int - 32) as char else c
  }

  /** What one iteration of the sanitizing loop leaves at a position. */
  function CleanChar(c: char): char
  {
    if IsAlnum(c) then c else '_'
  }

  /** A name with every character that is not an ASCII letter or digit replaced by `_`. */
  function Sanitize(s: string): (r: string)
    ensures |r| == |s|
    ensures forall i :: 0 <= i < |s| ==> r[i] == CleanChar(s[i])
    ensures IsIdent(r)
  {
    seq(|s|, i requires 0 <= i < |s| => CleanChar(s[i]))
  }

  /**
   * The sanitizing loop of `new_store`, run over a `strdup` copy of the name:
   * each character that is not alphanumeric is overwritten in place.
   */
  method Cleanse(name: string) returns (r: string)
    ensures r == Sanitize(name)
  {
    var buf := new char[|name|](i requires 0 <= i < |name| => name[i]);
    var i := 0;
    while i < buf.Length
      invariant 0 <= i <= buf.Length == |name|
      invariant forall k :: 0 <= k < i ==> buf[k] == CleanChar(name[k])
      invariant forall k :: i <= k < buf.Length ==> buf[k] == name[k]
    {
      if !IsAlnum(buf[i]) {
        buf[i] := '_';
      }
      i := i + 1;
    }
    r := buf[..];
  }

  /** `s[0] = toupper(s[0])`: only the first character changes. */
  function Capitalize(s: string): (r: string)
    ensures |r| == |s|
    ensures |s| > 0 ==> r[0] == ToUpper(s[0])
    ensures forall i :: 0 < i < |s| ==> r[i] == s[i]
  {
    if s == [] then [] else [ToUpper(s[0])] + s[1..]
  }

  /** The fragment a name contributes to its table name. */
  function Fragment(name: string): (r: string)
    ensures |r| == |name| && IsIdent(r)
    ensures |name| > 0 ==> r[0] == ToUpper(CleanChar(name[0]))
    ensures forall i :: 0 < i < |name| ==> r[i] == CleanChar(name[i])
  {
    Capitalize(Sanitize(name))
  }

  const TablePrefix: string := "Metric"
  const TableSuffix: string := "Values"

  /** The name of the table that holds the time series of one identity. */
  function TableName(comp: string, metric: string): (r: string)
    ensures |r| == |comp| + |metric| + 12
    ensures r[..6] == TablePrefix && r[|r| - 6..] == TableSuffix
    ensures r[6..6 + |comp|] == Fragment(comp)
    ensures r[6 + |comp|..|r| - 6] == Fragment(metric)
    ensures IsIdent(r)
  {
    TablePrefix + Fragment(comp) + Fragment(metric) + TableSuffix
  }

  /** The registry key of an identity. */
  function MetricKey(comp: string, metric: string): (k: string)
    ensures |k| == |comp| + |metric| + 1
    ensures k[..|comp|] == comp && k[|comp|] == ':' && k[|comp| + 1..] == metric
  {
    comp + ":" + metric
  }

  /** Names built here never contain the blank that ends a name in a statement. */
  lemma IdentHasNoBlank(s: string)
    requires IsIdent(s)
    ensures ' ' !in s
  {
  }

  /** Sanitizing an already sanitized name changes nothing. */
  lemma SanitizeIdempotent(s: string)
    ensures Sanitize(Sanitize(s)) == Sanitize(s)
  {
  }

  /** A name made only of letters and digits is its own sanitized form. */
  lemma SanitizeKeepsAlnum(s: string)
    requires forall i :: 0 <= i < |s| ==> IsAlnum(s[i])
    ensures Sanitize(s) == s
  {
  }

  /** The sanitized form of a name, checked character by character. */
  lemma SanitizeIs(s: string, t: string)
    requires |s| == |t| && forall i :: 0 <= i < |s| ==> t[i] == CleanChar(s[i])
    ensures Sanitize(s) == t
  {
  }

  /** An example identity, `("node01", "cpu.util")`, and the table it is given. */
  const ExampleComp: string := "node01"
  const ExampleMetric: string := "cpu.util"
  const ExampleTable: string := "MetricNode01Cpu_utilValues"

  lemma FragmentExample()
    ensures Sanitize(ExampleMetric) == "cpu_util"
    ensures Fragment(ExampleComp) == "Node01" && Fragment(ExampleMetric) == "Cpu_util"
  {
    SanitizeKeepsAlnum(ExampleComp);
    SanitizeIs(ExampleMetric, "cpu_util");
  }

  lemma ExampleTableText()
    ensures TablePrefix + "Node01" + "Cpu_util" + TableSuffix == ExampleTable
  {
  }

  /** The key and table of the example identity. */
  lemma TableNameExample()
    ensures TableName(ExampleComp, ExampleMetric) == ExampleTable
    ensures MetricKey(ExampleComp, ExampleMetric) == "node01:cpu.util"
  {
    FragmentExample();
    ExampleTableText();
    assert TableName(ExampleComp, ExampleMetric) == TablePrefix + Fragment(ExampleComp) + Fragment(ExampleMetric) + TableSuffix;
  }

  /**
   * Two identities whose component names have the same length share a table
   * only if both of their fragments agree.
   */
  lemma TableNameSeparatesSameLength(c1: string, m1: string, c2: string, m2: string)
    requires |c1| == |c2|
    requires TableName(c1, m1) == TableName(c2, m2)
    ensures Fragment(c1) == Fragment(c2) && Fragment(m1) == Fragment(m2)
  {
    var t := TableName(c1, m1);
    assert Fragment(c1) == t[6..6 + |c1|];
    assert Fragment(m1) == t[6 + |c1|..|t| - 6];
  }

  /** In particular `("a", "m")` and `("b", "m")` are given different tables. */
  lemma DistinctComponentsDistinctTables()
    ensures TableName("a", "m") != TableName("b", "m")
  {
  }

  /**
   * The derivation is not injective: differently punctuated names, and a
   * character moved across the component/metric boundary, reach the same table.
   */
  lemma TableNameCollisions()
    ensures MetricKey("a.b", "m") != MetricKey("a-b", "m")
    ensures TableName("a.b", "m") == TableName("a-b", "m")
    ensures MetricKey("aB", "c") != MetricKey("a", "BC")
    ensures TableName("aB", "c") == TableName("a", "BC")
  {
    assert MetricKey("a.b", "m")[1] == '.';
    assert MetricKey("aB", "c")[2] == ':';
    assert Sanitize("a.b") == "a_b" && Sanitize("a-b") == "a_b";
    assert Sanitize("aB") == "aB" && Sanitize("BC") == "BC";
    assert Fragment("aB") == "AB" && Fragment("a") == "A";
    assert Fragment("c") == "C" && Fragment("BC") == "BC";
  }

  /** Distinct identities whose component names hold no `:` have distinct keys. */
  lemma MetricKeyInjective(c1: string, m1: string, c2: string, m2: string)
    requires ':' !in c1 && ':' !in c2
    requires MetricKey(c1, m1) == MetricKey(c2, m2)
    ensures c1 == c2 && m1 == m2
  {
  }

  /** With a `:` inside a component name, two identities share one key. */
  lemma MetricKeyCollision()
    ensures MetricKey("a:b", "c") == MetricKey("a", "b:c")
  {
  }
}
