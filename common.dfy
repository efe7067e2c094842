/** Values shared by the extractors, the record builder and the search loop:
    an Option for Python's `None`, the placeholder string the tool writes for
    every missing value, the ASCII character classes the patterns use, and
    Python's `str.join`. */
module Common {

  /** A value or Python's `None`. */
  datatype Option<T> = None | Some(value: T)

  /** The placeholder ("no data yet") that stands for every absent field. */
  const Sentinel: string := "Sin datos por el momento"

  /** `\d`, restricted to ASCII digits. */
  predicate IsDigit(c: char) {
    '0' <= c <= '9'
  }

  /** `\w`, restricted to ASCII: letters, digits and underscore. */
  predicate IsWordChar(c: char) {
    'a' <= c <= 'z' || 'A' <= c <= 'Z' || IsDigit(c) || c == '_'
  }

  /** `sep.join(xs)`: the elements of `xs` in order, with `sep` between neighbours. */
  function Join(xs: seq<string>, sep: string): (r: string)
    ensures |xs| == 1 ==> r == xs[0]
    ensures |xs| > 0 ==> |xs[0]| <= |r| && r[..|xs[0]|] == xs[0]
  {
    if |xs| == 0 then ""
    else if |xs| == 1 then xs[0]
    else xs[0] + sep + Join(xs[1..], sep)
  }

  /** Around the first element of a join of several comes the separator, and
      every non-empty join ends with its last element. */
  lemma {:induction false} JoinEnds(xs: seq<string>, sep: string)
    ensures |xs| > 1 ==> |xs[0]| + |sep| <= |Join(xs, sep)| &&
                         Join(xs, sep)[|xs[0]|..|xs[0]| + |sep|] == sep
    ensures |xs| > 0 ==> |xs[|xs| - 1]| <= |Join(xs, sep)| &&
                         Join(xs, sep)[|Join(xs, sep)| - |xs[|xs| - 1]|..] == xs[|xs| - 1]
  {
    if |xs| > 1 {
      JoinEnds(xs[1..], sep);
      var rest := Join(xs[1..], sep);
      var last := xs[|xs| - 1];
      var r := xs[0] + sep + rest;
      assert Join(xs, sep) == r;
      assert xs[1..][|xs[1..]| - 1] == last;
      assert r[|r| - |last|..] == rest[|rest| - |last|..];
      assert r[|xs[0]|..|xs[0]| + |sep|] == sep;
    }
  }
}
